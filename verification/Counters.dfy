/** Token counters as the projectors report and store them: v2/adapters/src/transcript.ts. */
module Counters {
  import opened Checkpoint

  datatype Counter = Input | Output | CacheRead | CacheWrite | Reasoning | Total

  const COUNTERS: seq<Counter> := [Input, Output, CacheRead, CacheWrite, Reasoning, Total]

  /** The counters that a report carries. */
  type Usage = map<Counter, int>

  lemma AllCounters(c: Counter)
    ensures c in COUNTERS
  {
    assert c == COUNTERS[0] || c == COUNTERS[1] || c == COUNTERS[2] || c == COUNTERS[3] || c == COUNTERS[4] || c == COUNTERS[5];
  }

  function CounterName(c: Counter): string {
    match c
    case Input => "input"
    case Output => "output"
    case CacheRead => "cacheRead"
    case CacheWrite => "cacheWrite"
    case Reasoning => "reasoning"
    case Total => "total"
  }

  lemma NamesDiffer(c: Counter, d: Counter)
    ensures CounterName(c) == CounterName(d) <==> c == d
  {
    if c != d && |CounterName(c)| == |CounterName(d)| {
      assert CounterName(c)[0] != CounterName(d)[0];
    }
  }

  function WriteUsage(u: Usage): Json {
    JObj(map name | name in (set c | c in u :: CounterName(c)) :: JNum(u[NamedCounter(name)]))
  }

  /** The counter of a name; any other name stands for none. */
  function NamedCounter(name: string): Counter {
    if name == "input" then Input else if name == "output" then Output else if name == "cacheRead" then CacheRead
    else if name == "cacheWrite" then CacheWrite else if name == "reasoning" then Reasoning else Total
  }

  predicate IsUsage(v: Json) {
    v.JObj? && forall name :: name in v.fields ==> CounterName(NamedCounter(name)) == name && v.fields[name].JNum?
  }

  function ReadUsage(v: Json): Usage
    requires IsUsage(v)
  {
    map c | c in COUNTERS && CounterName(c) in v.fields :: v.fields[CounterName(c)].number
  }

  lemma UsageRoundTrip(u: Usage)
    ensures IsUsage(WriteUsage(u)) && ReadUsage(WriteUsage(u)) == u
  {
    var v := WriteUsage(u);
    forall name | name in v.fields ensures CounterName(NamedCounter(name)) == name && NamedCounter(name) in u {
      var c :| c in u && CounterName(c) == name;
      CounterOfName(c);
    }
    forall c: Counter ensures c in COUNTERS && (c in u <==> CounterName(c) in v.fields) && NamedCounter(CounterName(c)) == c {
      AllCounters(c);
      CounterOfName(c);
      if CounterName(c) in v.fields {
        var d :| d in u && CounterName(d) == CounterName(c);
        NamesDiffer(c, d);
      }
    }
    assert ReadUsage(v) == u;
  }

  lemma CounterOfName(c: Counter)
    ensures NamedCounter(CounterName(c)) == c
  {
    NamesDiffer(c, Input);
    NamesDiffer(c, Output);
    NamesDiffer(c, CacheRead);
    NamesDiffer(c, CacheWrite);
    NamesDiffer(c, Reasoning);
  }

  lemma FieldBack(v: Json, name: string, c: Counter)
    requires IsUsage(v) && name in v.fields && c == NamedCounter(name)
    ensures c in ReadUsage(v) && CounterName(c) == name && ReadUsage(v)[c] == v.fields[name].number
  {
    AllCounters(c);
  }

  /** A usage that was accepted is written back as it was. */
  lemma UsageBack(v: Json)
    requires IsUsage(v)
    ensures WriteUsage(ReadUsage(v)) == v
  {
    var back := WriteUsage(ReadUsage(v));
    forall name | name in v.fields ensures name in back.fields && back.fields[name] == v.fields[name] {
      FieldBack(v, name, NamedCounter(name));
    }
    assert back.fields == v.fields;
  }
}
