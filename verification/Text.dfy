/** String helpers shared by the projectors. */
module Text {

  /** White space and line terminators, as trimming removes them. */
  predicate IsSpace(c: char) {
    || '\t' <= c <= '\r' || c == ' ' || c == '\U{a0}' || c == '\U{1680}' || '\U{2000}' <= c <= '\U{200a}'
    || c == '\U{2028}' || c == '\U{2029}' || c == '\U{202f}' || c == '\U{205f}' || c == '\U{3000}' || c == '\U{feff}'
  }

  predicate Blank(s: string) {
    forall i :: 0 <= i < |s| ==> IsSpace(s[i])
  }

  function TrimStart(s: string): string {
    if s != [] && IsSpace(s[0]) then TrimStart(s[1..]) else s
  }

  /** The text without its white space. */
  function Ink(s: string): string {
    if s == [] then [] else (if IsSpace(s[0]) then [] else [s[0]]) + Ink(s[1..])
  }

  function Joined(parts: seq<string>): string {
    if parts == [] then [] else parts[0] + Joined(parts[1..])
  }

  function Digit(n: nat): char
    requires n < 10
  {
    "0123456789"[n]
  }

  /** Decimal notation of an integer. */
  function Decimal(n: int): string
    decreases if n < 0 then 1 - n else n
  {
    if n < 0 then "-" + Decimal(-n)
    else if n < 10 then [Digit(n)]
    else Decimal(n / 10) + [Digit(n % 10)]
  }

  function AsciiLower(s: string): (r: string)
    ensures |r| == |s|
  {
    seq(|s|, i requires 0 <= i < |s| => if 'A' <= s[i] <= 'Z' then s[i] - 'A' + 'a' else s[i])
  }

  // ------------------------------------------------------------------
  // What the helpers mean
  // ------------------------------------------------------------------

  const SPACES: set<int> :=
    {9, 10, 11, 12, 13, 32, 0xa0, 0x1680, 0x2000, 0x2001, 0x2002, 0x2003, 0x2004, 0x2005, 0x2006, 0x2007, 0x2008,
     0x2009, 0x200a, 0x2028, 0x2029, 0x202f, 0x205f, 0x3000, 0xfeff}

  /** Some character of the text is not white space. */
  predicate Visible(text: string) {
    exists i :: 0 <= i < |text| && (text[i] as int) !in SPACES
  }

  lemma SpaceIff(c: char)
    ensures IsSpace(c) <==> (c as int) in SPACES
  {
  }

  lemma VisibleIff(text: string)
    ensures Visible(text) <==> !Blank(text)
  {
    forall i | 0 <= i < |text| ensures IsSpace(text[i]) <==> (text[i] as int) in SPACES { SpaceIff(text[i]); }
  }

  /** The number that digits denote. */
  function Natural(s: string): int {
    if s == [] then 0 else Natural(s[..|s| - 1]) * 10 + (s[|s| - 1] as int - '0' as int)
  }

  function Value(s: string): int {
    if s != [] && s[0] == '-' then -Natural(s[1..]) else Natural(s)
  }

  predicate IsDigits(s: string) {
    s != [] && (forall i :: 0 <= i < |s| ==> '0' <= s[i] <= '9') && (|s| > 1 ==> s[0] != '0')
  }

  lemma {:induction false} DigitsAreRead(n: nat)
    ensures IsDigits(Decimal(n)) && Natural(Decimal(n)) == n && (n > 0 ==> Decimal(n)[0] != '0')
  {
    if n >= 10 {
      DigitsAreRead(n / 10);
      DigitAppends(Decimal(n / 10), n % 10);
    } else {
      DigitAppends("", n);
      assert Decimal(n) == "" + [Digit(n)];
    }
  }

  lemma DigitAppends(s: string, d: nat)
    requires d < 10
    ensures '0' <= Digit(d) <= '9' && (d > 0 ==> Digit(d) != '0') && Natural(s + [Digit(d)]) == Natural(s) * 10 + d
  {
    assert (s + [Digit(d)])[..|s|] == s;
  }

  /** The decimal notation of an integer: its digits, without leading zeros, behind a minus sign when it is negative. */
  lemma DecimalIsRead(n: int)
    ensures var s := Decimal(n);
      Value(s) == n && if n < 0 then s != [] && s[0] == '-' && IsDigits(s[1..]) else IsDigits(s)
  {
    if n < 0 {
      DigitsAreRead(-n);
      assert Decimal(n)[1..] == Decimal(-n);
    } else {
      DigitsAreRead(n);
    }
  }

  /** Neither a colon nor a question mark nor a letter is a digit. */
  lemma DecimalPlain(n: int, c: char)
    requires c == '-' ==> n >= 0
    requires !('0' <= c <= '9')
    ensures c !in Decimal(n)
  {
    DecimalIsRead(n);
    var s := Decimal(n);
    if n < 0 {
      assert s == ['-'] + s[1..];
    }
  }

  lemma DecimalTellsApart(m: int, n: int)
    ensures Decimal(m) == Decimal(n) <==> m == n
  {
    DecimalIsRead(m);
    DecimalIsRead(n);
  }

  function LastIndex(s: string, c: char): int {
    if s == [] then -1 else if s[|s| - 1] == c then |s| - 1 else LastIndex(s[..|s| - 1], c)
  }

  lemma {:induction false} LastIs(a: string, c: char, x: string)
    requires c !in x
    ensures LastIndex(a + [c] + x, c) == |a|
  {
    var s := a + [c] + x;
    if x == [] {
      assert s == a + [c];
    } else {
      var n := |x| - 1;
      assert s[..|s| - 1] == a + [c] + x[..n] && s[|s| - 1] == x[n];
      LastIs(a, c, x[..n]);
    }
  }

  /** The last `c` of a text splits it in one way. */
  lemma SplitLast(a: string, x: string, b: string, y: string, c: char)
    requires c !in x && c !in y && a + [c] + x == b + [c] + y
    ensures a == b && x == y
  {
    var s := a + [c] + x;
    LastIs(a, c, x);
    LastIs(b, c, y);
    assert s[..|a|] == a && s[|a| + 1..] == x && s[..|b|] == b && s[|b| + 1..] == y;
  }
}
