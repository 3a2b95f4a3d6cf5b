/** Checkpoint values and their exact-shape validators: v2/adapters/src/transcript.ts. */
module Checkpoint {
  import opened Wrappers
  import opened Ordered

  datatype Json =
    | JNull
    | JBool(flag: bool)
    | JNum(number: int)
    | JStr(text: string)
    | JArr(items: seq<Json>)
    | JObj(fields: map<string, Json>)

  /** Exactly these own keys. */
  predicate HasExactly(v: Json, keys: set<string>) {
    v.JObj? && v.fields.Keys == keys
  }

  predicate NullOrString(v: Json) {
    v.JNull? || v.JStr?
  }

  function OptString(o: Option<string>): Json {
    if o.Some? then JStr(o.value) else JNull
  }

  function ReadOptString(v: Json): Option<string> {
    if v.JStr? then Some(v.text) else None
  }

  function OptNumber(o: Option<int>): Json {
    if o.Some? then JNum(o.value) else JNull
  }

  function ReadOptNumber(v: Json): Option<int> {
    if v.JNum? then Some(v.number) else None
  }

  function Strings(s: seq<string>): Json {
    JArr(seq(|s|, i requires 0 <= i < |s| => JStr(s[i])))
  }

  /** An array of strings without repetition. */
  ghost predicate AreStrings(v: Json) {
    && v.JArr? && (forall i :: 0 <= i < |v.items| ==> v.items[i].JStr?)
    && Distinct(ReadStrings(v))
  }

  function ReadStrings(v: Json): seq<string>
    requires v.JArr? && forall i :: 0 <= i < |v.items| ==> v.items[i].JStr?
  {
    seq(|v.items|, i requires 0 <= i < |v.items| => v.items[i].text)
  }

  lemma StringsRoundTrip(s: seq<string>)
    requires Distinct(s)
    ensures AreStrings(Strings(s)) && ReadStrings(Strings(s)) == s
  {
    assert ReadStrings(Strings(s)) == s;
  }

  function Pairs<V>(es: Entries<V>, write: V -> Json): Json {
    JArr(seq(|es|, i requires 0 <= i < |es| => JArr([JStr(es[i].0), write(es[i].1)])))
  }

  predicate IsPair(v: Json, valid: Json -> bool) {
    v.JArr? && |v.items| == 2 && v.items[0].JStr? && valid(v.items[1])
  }

  /** An array of `[key, value]` pairs with valid values and no repeated key. */
  ghost predicate ArePairs(v: Json, valid: Json -> bool) {
    && v.JArr? && (forall i :: 0 <= i < |v.items| ==> IsPair(v.items[i], valid))
    && forall i, j :: 0 <= i < j < |v.items| ==> v.items[i].items[0] != v.items[j].items[0]
  }

  function ReadPairs<V>(v: Json, valid: Json -> bool, read: Json --> V): Entries<V>
    requires v.JArr? && forall i :: 0 <= i < |v.items| ==> IsPair(v.items[i], valid)
    requires forall x :: valid(x) ==> read.requires(x)
  {
    seq(|v.items|, i requires 0 <= i < |v.items| && IsPair(v.items[i], valid) =>
      (v.items[i].items[0].text, read(v.items[i].items[1])))
  }

  lemma PairsRoundTrip<V>(es: Entries<V>, write: V -> Json, valid: Json -> bool, read: Json --> V)
    requires DistinctKeys(es)
    requires forall x :: valid(x) ==> read.requires(x)
    requires forall i :: 0 <= i < |es| ==> valid(write(es[i].1)) && read(write(es[i].1)) == es[i].1
    ensures ArePairs(Pairs(es, write), valid)
    ensures ReadPairs(Pairs(es, write), valid, read) == es
  {
    var v := Pairs(es, write);
    assert forall i :: 0 <= i < |es| ==> v.items[i] == JArr([JStr(es[i].0), write(es[i].1)]);
    assert forall i :: 0 <= i < |es| ==> ReadPairs(v, valid, read)[i] == es[i];
  }

  /** Strings that were accepted are written back as they were. */
  lemma StringsBack(v: Json)
    requires AreStrings(v)
    ensures Strings(ReadStrings(v)) == v
  {
    forall i | 0 <= i < |v.items| ensures Strings(ReadStrings(v)).items[i] == v.items[i] {
      assert v.items[i] == JStr(v.items[i].text);
    }
    assert Strings(ReadStrings(v)).items == v.items;
  }

  lemma PairBack(v: Json, first: Json, second: Json)
    requires v.JArr? && |v.items| == 2 && v.items[0] == first && v.items[1] == second
    ensures v == JArr([first, second])
  {
    assert v.items == [first, second];
  }

  /** And so are pairs, when their values are. */
  lemma PairsBack<V>(v: Json, write: V -> Json, valid: Json -> bool, read: Json --> V)
    requires ArePairs(v, valid)
    requires forall x :: valid(x) ==> read.requires(x)
    requires forall i :: 0 <= i < |v.items| ==> write(read(v.items[i].items[1])) == v.items[i].items[1]
    ensures Pairs(ReadPairs(v, valid, read), write) == v
    ensures DistinctKeys(ReadPairs(v, valid, read))
  {
    var es := ReadPairs(v, valid, read);
    var back := Pairs(es, write);
    forall i | 0 <= i < |v.items| ensures back.items[i] == v.items[i] {
      assert IsPair(v.items[i], valid);
      PairBack(v.items[i], JStr(es[i].0), write(es[i].1));
    }
    assert back.items == v.items;
    forall i, j | 0 <= i < j < |es| ensures es[i].0 != es[j].0 {
      assert IsPair(v.items[i], valid) && IsPair(v.items[j], valid);
      assert v.items[i].items[0] != v.items[j].items[0];
    }
  }

  /** An object is determined by its fields. */
  lemma SameFields(v: Json, w: Json)
    requires v.JObj? && w.JObj? && v.fields.Keys == w.fields.Keys
    requires forall key :: key in v.fields ==> v.fields[key] == w.fields[key]
    ensures v == w
  {
    assert v.fields == w.fields;
  }

  lemma OptStringBack(v: Json)
    requires NullOrString(v)
    ensures OptString(ReadOptString(v)) == v
  {
  }
}
