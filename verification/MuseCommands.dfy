/** Command ids of the Muse adapter, as UUIDs of version 7 (RFC 9562, section 5.7): v2/adapters/src/muse.ts. */
module MuseCommands {

  const DIGITS := "0123456789abcdef"

  /** A number in base 16. */
  function Hex(n: nat): (s: string)
    ensures s != []
  {
    if n < 16 then [DIGITS[n]] else Hex(n / 16) + [DIGITS[n % 16]]
  }

  function PadStart(s: string, width: nat): (r: string)
    ensures |r| == if |s| < width then width else |s|
    decreases width - |s|
  {
    if |s| >= width then s else PadStart(['0'] + s, width)
  }

  function FormatUuid(hex: string): string
    requires |hex| >= 32
  {
    hex[..8] + "-" + hex[8..12] + "-" + hex[12..16] + "-" + hex[16..20] + "-" + hex[20..32]
  }

  /** The turn command of a mailbox message. */
  function MessageCommandId(messageId: nat): string {
    var hex := PadStart(Hex(messageId), 18);
    FormatUuid("0000000000007" + hex[..3] + "8" + hex[3..])
  }

  /** The low two bits of a digit under the variant bits. */
  function Variant(digit: char): char {
    DIGITS[8 + DigitValue(digit) % 4]
  }

  /** A command of its own: the time and twenty random digits. */
  function FreshCommandId(nowMs: nat, random: string): string
    requires |random| == 20
  {
    var time := PadStart(Hex(nowMs), 12);
    FormatUuid(time[|time| - 12..] + "7" + random[..3] + [Variant(random[3])] + random[4..19])
  }

  // ------------------------------------------------------------------
  // Numbers in base 16
  // ------------------------------------------------------------------

  predicate IsDigit(c: char) {
    '0' <= c <= '9' || 'a' <= c <= 'f'
  }

  function DigitValue(c: char): (v: nat)
    ensures v < 16
  {
    if '0' <= c <= '9' then c as int - '0' as int else if 'a' <= c <= 'f' then 10 + c as int - 'a' as int else 0
  }

  function Value(s: string): nat {
    if s == [] then 0 else 16 * Value(s[..|s| - 1]) + DigitValue(s[|s| - 1])
  }

  function Pow16(k: nat): (p: nat)
    ensures p > 0
  {
    if k == 0 then 1 else 16 * Pow16(k - 1)
  }

  predicate AllDigits(s: string) {
    forall i :: 0 <= i < |s| ==> IsDigit(s[i])
  }

  lemma DigitsRead(n: nat)
    requires n < 16
    ensures IsDigit(DIGITS[n]) && DigitValue(DIGITS[n]) == n
  {
    if n < 8 {
      assert DIGITS[..8] == "01234567" && DIGITS[n] == DIGITS[..8][n];
    } else {
      assert DIGITS[8..] == "89abcdef" && DIGITS[n] == DIGITS[8..][n - 8];
    }
  }

  lemma {:induction false} HexRead(n: nat)
    ensures Value(Hex(n)) == n && AllDigits(Hex(n))
  {
    if n < 16 {
      DigitsRead(n);
      assert Value([]) == 0 && [DIGITS[n]][..0] == [];
    } else {
      HexRead(n / 16);
      DigitsRead(n % 16);
      assert Hex(n)[..|Hex(n)| - 1] == Hex(n / 16);
    }
  }

  /** A number has no more digits than its size needs. */
  lemma {:induction false} HexWidth(n: nat, k: nat)
    requires k > 0
    ensures |Hex(n)| <= k <==> n < Pow16(k)
    decreases k
  {
    if k == 1 {
      assert Pow16(1) == 16 * Pow16(0) == 16;
    } else if n >= 16 {
      HexWidth(n / 16, k - 1);
    } else {
      PowGrows(k);
    }
  }

  lemma {:induction false} PowGrows(k: nat)
    requires k > 0
    ensures Pow16(k) >= 16
  {
    if k > 1 { PowGrows(k - 1); } else { assert Pow16(0) == 1; }
  }

  lemma {:induction false} ValueBound(s: string)
    ensures Value(s) < Pow16(|s|)
  {
    if s != [] { ValueBound(s[..|s| - 1]); }
  }

  lemma {:induction false} LeadingZero(s: string)
    ensures Value(['0'] + s) == Value(s)
  {
    var t := ['0'] + s;
    if s == [] {
      assert t[..0] == [];
    } else {
      LeadingZero(s[..|s| - 1]);
      assert t[..|t| - 1] == ['0'] + s[..|s| - 1];
    }
  }

  lemma {:induction false} PadKeeps(s: string, width: nat)
    ensures Value(PadStart(s, width)) == Value(s)
    ensures AllDigits(s) ==> AllDigits(PadStart(s, width))
    decreases width - |s|
  {
    if |s| < width {
      LeadingZero(s);
      PadKeeps(['0'] + s, width);
    }
  }

  // ------------------------------------------------------------------
  // The ids
  // ------------------------------------------------------------------

  /** 36 characters: digits with four dashes, version 7 and the variant of the RFC. */
  predicate IsUuidV7(id: string) {
    && |id| == 36
    && (forall i :: 0 <= i < 36 ==> if i in {8, 13, 18, 23} then id[i] == '-' else IsDigit(id[i]))
    && id[14] == '7' && id[19] in "89ab"
  }

  /** The forty-eight bits of the time stamp. */
  function TimeOf(id: string): nat
    requires |id| == 36
  {
    Value(id[..8] + id[9..13])
  }

  /** The number in a message's id: what is neither time, version nor variant. */
  function MessageOf(id: string): nat
    requires |id| == 36
  {
    Value(id[15..18] + id[20..23] + id[24..])
  }

  lemma FormattedAt(hex: string)
    requires |hex| >= 32
    ensures var id := FormatUuid(hex);
      && |id| == 36 && id[8] == id[13] == id[18] == id[23] == '-'
      && id[..8] == hex[..8] && id[9..13] == hex[8..12] && id[14..18] == hex[12..16]
      && id[19..23] == hex[16..20] && id[24..] == hex[20..32]
  {
  }

  /** Thirty-two digits with the version and the variant in their places make such an id. */
  lemma FormattedIsUuid(hex: string)
    requires |hex| >= 32 && AllDigits(hex[..32]) && hex[12] == '7' && hex[16] in "89ab"
    ensures IsUuidV7(FormatUuid(hex))
    ensures var id := FormatUuid(hex);
      TimeOf(id) == Value(hex[..12]) && MessageOf(id) == Value(hex[13..16] + hex[17..32])
  {
    var id := FormatUuid(hex);
    FormattedAt(hex);
    assert id[14] == id[14..18][0] && id[19] == id[19..23][0];
    forall i | 0 <= i < 36 && i !in {8, 13, 18, 23} ensures IsDigit(id[i]) {
      var dashes := if i < 8 then 0 else if i < 13 then 1 else if i < 18 then 2 else if i < 23 then 3 else 4;
      assert id[i] == hex[..32][i - dashes];
    }
    assert id[..8] + id[9..13] == hex[..12];
    assert id[15..18] == id[14..18][1..] && id[20..23] == id[19..23][1..];
    assert id[15..18] + id[20..23] + id[24..] == hex[13..16] + hex[17..32];
  }

  lemma PaddedMessage(messageId: nat)
    ensures var hex := PadStart(Hex(messageId), 18);
      AllDigits(hex) && Value(hex) == messageId && |hex| >= 18 && (|hex| == 18 <==> messageId < Pow16(18))
  {
    HexRead(messageId);
    HexWidth(messageId, 18);
    PadKeeps(Hex(messageId), 18);
  }

  /**
   * The id of every message is a UUID of version 7 at time zero, and the message is
   * read back from it if and only if its number has at most eighteen digits.
   */
  lemma MessageReadBackIff(messageId: nat)
    ensures var id := MessageCommandId(messageId);
      && IsUuidV7(id) && TimeOf(id) == 0
      && (MessageOf(id) == messageId <==> messageId < Pow16(18))
  {
    var hex := PadStart(Hex(messageId), 18);
    PaddedMessage(messageId);
    MessageFormatted(hex);
    ValueBound(hex[..18]);
    assert |hex| == 18 ==> hex[..18] == hex;
  }

  lemma MessageFormatted(hex: string)
    requires |hex| >= 18 && AllDigits(hex)
    ensures var id := FormatUuid("0000000000007" + hex[..3] + "8" + hex[3..]);
      IsUuidV7(id) && TimeOf(id) == 0 && MessageOf(id) == Value(hex[..18])
  {
    var zeros := "000000000000";
    var all := "0000000000007" + hex[..3] + "8" + hex[3..];
    assert all[..12] == zeros;
    Zeros(zeros);
    assert all[13..16] + all[17..32] == hex[..18];
    assert all[12] == '7' && all[16] == '8';
    forall i | 0 <= i < 32 ensures IsDigit(all[i]) {
      if i < 12 {
        assert all[i] == zeros[i];
      } else if 13 <= i < 16 {
        assert all[i] == hex[i - 13];
      } else if i > 16 {
        assert all[i] == hex[i - 14];
      }
    }
    FormattedIsUuid(all);
  }

  lemma {:induction false} Zeros(s: string)
    requires forall i :: 0 <= i < |s| ==> s[i] == '0'
    ensures Value(s) == 0
    decreases |s|
  {
    if s != [] { Zeros(s[..|s| - 1]); }
  }

  /** Redelivering a message repeats its id, and no two messages share one. */
  lemma MessagesTellApart(a: nat, b: nat)
    requires a < Pow16(18) && b < Pow16(18)
    ensures MessageCommandId(a) == MessageCommandId(b) <==> a == b
  {
    MessageReadBackIff(a);
    MessageReadBackIff(b);
  }

  lemma {:induction false} LowDigits(s: string, k: nat)
    requires k <= |s|
    ensures Value(s[|s| - k..]) == Value(s) % Pow16(k)
    decreases k
  {
    if k == 0 {
      assert s[|s|..] == [];
      assert Pow16(0) == 1;
    } else {
      var init, low := s[..|s| - 1], s[|s| - k..];
      LowDigits(init, k - 1);
      assert low[..k - 1] == init[|init| - (k - 1)..];
      Modulo(Value(init), Pow16(k - 1), DigitValue(s[|s| - 1]));
    }
  }

  lemma Modulo(v: nat, p: nat, d: nat)
    requires p > 0 && d < 16
    ensures (16 * v + d) % (16 * p) == 16 * (v % p) + d
  {
    var q, r := v / p, v % p;
    assert v == q * p + r;
    assert 16 * v + d == q * (16 * p) + (16 * r + d);
    Remainder(16 * v + d, 16 * p, q, 16 * r + d);
  }

  lemma Remainder(x: nat, m: nat, q: nat, r: nat)
    requires r < m && x == q * m + r
    ensures x % m == r
  {
    QuotientIs(m, x / m, x % m, q, r);
  }

  /** Quotient and remainder are determined by their sum. */
  lemma QuotientIs(m: nat, q: nat, r: nat, p: nat, s: nat)
    requires r < m && s < m && q * m + r == p * m + s
    ensures q == p && r == s
  {
    if q > p {
      Apart(q, p, m);
    } else if p > q {
      Apart(p, q, m);
    }
  }

  lemma Apart(q: nat, p: nat, m: nat)
    requires q > p
    ensures q * m >= p * m + m
  {
    Multiple(q - p, m);
    assert q * m == (q - p) * m + p * m;
  }

  lemma {:induction false} Multiple(k: nat, m: nat)
    requires k > 0
    ensures k * m >= m
  {
    if k > 1 {
      Multiple(k - 1, m);
      assert k * m == (k - 1) * m + m;
    }
  }

  /** A fresh command is such a UUID with its time in forty-eight bits, whatever the random digits. */
  lemma FreshIsUuid(nowMs: nat, random: string)
    requires |random| == 20 && AllDigits(random)
    ensures var id := FreshCommandId(nowMs, random); IsUuidV7(id) && TimeOf(id) == nowMs % Pow16(12)
  {
    var time, v := PadStart(Hex(nowMs), 12), Variant(random[3]);
    HexRead(nowMs);
    PadKeeps(Hex(nowMs), 12);
    LowDigits(time, 12);
    VariantBits(random[3]);
    FreshFormatted(time[|time| - 12..], random, v);
  }

  lemma VariantBits(digit: char)
    ensures Variant(digit) in "89ab"
  {
    assert DIGITS[8..12] == "89ab" && Variant(digit) == DIGITS[8..12][DigitValue(digit) % 4];
  }

  lemma FreshFormatted(time: string, random: string, v: char)
    requires |time| == 12 && AllDigits(time) && |random| == 20 && AllDigits(random) && v in "89ab"
    ensures var id := FormatUuid(time + "7" + random[..3] + [v] + random[4..19]);
      IsUuidV7(id) && TimeOf(id) == Value(time)
  {
    var all := time + "7" + random[..3] + [v] + random[4..19];
    assert all[..12] == time;
    assert all[12] == '7' && all[16] == v;
    forall i | 0 <= i < 32 ensures IsDigit(all[i]) {
      if i < 12 {
        assert all[i] == time[i];
      } else if 13 <= i < 16 {
        assert all[i] == random[i - 13];
      } else if i > 16 {
        assert all[i] == random[i - 13];
      }
    }
    FormattedIsUuid(all);
  }

  /** No fresh command is mistaken for a message's, except at a time of zero in forty-eight bits. */
  lemma FreshIsNoMessage(nowMs: nat, random: string, messageId: nat)
    requires |random| == 20 && AllDigits(random) && nowMs % Pow16(12) != 0
    ensures FreshCommandId(nowMs, random) != MessageCommandId(messageId)
  {
    FreshIsUuid(nowMs, random);
    MessageReadBackIff(messageId);
  }
}
