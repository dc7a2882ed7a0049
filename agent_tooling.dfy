// The helpers the agent-side copy of the data-catalogue tooling adds: the file names under which
// results are saved (a default name built from a module-wide counter, and the ".json" suffix),
// the copy of the result updated with what the save reported, and the preparation of values for
// JSON serialisation. The clock, the file write and the pandas types are left out: the timestamp
// and the save's report are parameters.

module AgentTooling {
  import opened Wrappers
  import opened Strings
  import opened PyValues
  import Tooling

  // ---------------------------------------------------------------- file names

  const JsonSuffix: string := ".json"
  const FilesDirectory: string := "AI_FILES/"

  /** The name a result is saved under when none is given: f"{function}_{timestamp}_{counter:04d}.json". */
  function DefaultName(functionName: string, timestamp: string, counter: nat): string
  {
    functionName + "_" + timestamp + "_" + ZeroPad4(counter) + JsonSuffix
  }

  /** ".json" is appended unless the name already ends in it, ignoring case. */
  function WithJsonSuffix(name: string): string
  {
    if EndsWith(Lower(name), JsonSuffix) then name else name + JsonSuffix
  }

  /** Path("./AI_FILES/") / name: a name that is an absolute path replaces the directory. */
  function FilePath(name: string): string
  {
    if StartsWith(name, "/") then name else FilesDirectory + name
  }

  /** The name actually used: the given one, or the default one built from the counter's new value. */
  function SavedName(filename: Option<string>, functionName: string, timestamp: string, counter: nat): string
  {
    WithJsonSuffix(if filename.Some? then filename.value else DefaultName(functionName, timestamp, counter))
  }

  /** dict.update: each entry of `other` is stored in turn, overwriting or appending. */
  function Update(entries: seq<(string, Value)>, other: seq<(string, Value)>): seq<(string, Value)>
    decreases |other|
  {
    if other == [] then entries
    else Update(Put(entries, other[0].0, other[0].1), other[1..])
  }

  /** The module-wide counter behind the default names. */
  class FileCounter {
    var value: nat

    constructor()
      ensures value == 0
    {
      value := 0;
    }

    /**
     * save_to_file: without a name the counter is advanced and the default name built from its
     * new value; ".json" is added when missing; the result is a copy of `data` updated with what
     * `save` (the JSON write) reports for the path.
     */
    method SaveToFile(data: seq<(string, Value)>, filename: Option<string>, functionName: string, timestamp: string,
                      save: (seq<(string, Value)>, string) -> seq<(string, Value)>)
      returns (r: seq<(string, Value)>)
      modifies this
      ensures value == if filename.None? then old(value) + 1 else old(value)
      ensures r == Update(data, save(data, FilePath(SavedName(filename, functionName, timestamp, value))))
    {
      var name: string;
      if filename.None? {
        value := value + 1;
        name := DefaultName(functionName, timestamp, value);
      } else {
        name := filename.value;
      }
      if !EndsWith(Lower(name), JsonSuffix) {
        name := name + JsonSuffix;
      }
      var path := FilePath(name);
      var report := save(data, path);
      r := UpdateCopy(data, report);
    }
  }

  /** data.copy().update(report), entry by entry. */
  method UpdateCopy(data: seq<(string, Value)>, report: seq<(string, Value)>) returns (r: seq<(string, Value)>)
    ensures r == Update(data, report)
  {
    r := data;
    var i := 0;
    while i < |report|
      invariant 0 <= i <= |report|
      invariant Update(r, report[i..]) == Update(data, report)
    {
      assert report[i..][1..] == report[i + 1..];
      r := Put(r, report[i].0, report[i].1);
      i := i + 1;
    }
  }

  // ---------------------------------------------------------------- what the names promise

  lemma LowerAppend(s: string, t: string)
    ensures Lower(s + t) == Lower(s) + Lower(t)
  {
    var l := Lower(s + t);
    var r := Lower(s) + Lower(t);
    assert |l| == |r|;
    forall i | 0 <= i < |l| ensures l[i] == r[i] {
      if i < |s| {
        assert (s + t)[i] == s[i];
      } else {
        assert (s + t)[i] == t[i - |s|];
      }
    }
  }

  /** Every saved name ends in ".json" ignoring case, keeps the given name as its prefix, and is stable. */
  lemma JsonSuffixAdded(name: string)
    ensures EndsWith(Lower(WithJsonSuffix(name)), JsonSuffix)
    ensures StartsWith(WithJsonSuffix(name), name)
    ensures WithJsonSuffix(WithJsonSuffix(name)) == WithJsonSuffix(name)
    ensures EndsWith(Lower(name), JsonSuffix) <==> WithJsonSuffix(name) == name
  {
    LowerAppend(name, JsonSuffix);
    assert Lower(JsonSuffix) == JsonSuffix;
    var l := Lower(name + JsonSuffix);
    assert l[|l| - |JsonSuffix|..] == JsonSuffix;
    assert (name + JsonSuffix)[..|name|] == name;
  }

  /** A default name already ends in ".json", so it is used as it is. */
  lemma DefaultNameKept(functionName: string, timestamp: string, counter: nat)
    ensures WithJsonSuffix(DefaultName(functionName, timestamp, counter)) == DefaultName(functionName, timestamp, counter)
  {
    var prefix := functionName + "_" + timestamp + "_" + ZeroPad4(counter);
    assert DefaultName(functionName, timestamp, counter) == prefix + JsonSuffix;
    LowerAppend(prefix, JsonSuffix);
    assert Lower(JsonSuffix) == JsonSuffix;
    var l := Lower(prefix + JsonSuffix);
    assert l[|l| - |JsonSuffix|..] == JsonSuffix;
  }

  lemma {:induction false} ZerosValue(z: string)
    requires forall i :: 0 <= i < |z| ==> z[i] == '0'
    ensures forall i :: 0 <= i < |z| ==> IsDigit(z[i])
    ensures DigitsValue(z) == 0
  {
    if z != [] {
      ZerosValue(z[..|z| - 1]);
    }
  }

  /** Leading zeros do not change the value of a digit string. */
  lemma {:induction false} LeadingZeros(z: string, d: string)
    requires forall i :: 0 <= i < |z| ==> z[i] == '0'
    requires forall i :: 0 <= i < |d| ==> IsDigit(d[i])
    ensures forall i :: 0 <= i < |z + d| ==> IsDigit((z + d)[i])
    ensures DigitsValue(z + d) == DigitsValue(d)
  {
    ZerosValue(z);
    if d == [] {
      assert z + d == z;
    } else {
      var d' := d[..|d| - 1];
      assert (z + d)[..|z + d| - 1] == z + d';
      assert (z + d)[|z + d| - 1] == d[|d| - 1];
      LeadingZeros(z, d');
    }
  }

  /** The padded counter reads back as the counter. */
  lemma PaddedCounter(n: nat)
    ensures forall i :: 0 <= i < |ZeroPad4(n)| ==> IsDigit(ZeroPad4(n)[i])
    ensures DigitsValue(ZeroPad4(n)) == n
  {
    Tooling.DecimalRoundTrip(n);
    var d := NatToString(n);
    if |d| < 4 {
      LeadingZeros(Repeat('0', 4 - |d|), d);
    }
  }

  /** Default names of the same function at the same time differ when the counters differ. */
  lemma DefaultNamesDistinct(functionName: string, timestamp: string, c1: nat, c2: nat)
    requires c1 != c2
    ensures DefaultName(functionName, timestamp, c1) != DefaultName(functionName, timestamp, c2)
  {
    var prefix := functionName + "_" + timestamp + "_";
    var p1 := ZeroPad4(c1);
    var p2 := ZeroPad4(c2);
    PaddedCounter(c1);
    PaddedCounter(c2);
    var n1 := prefix + p1 + JsonSuffix;
    var n2 := prefix + p2 + JsonSuffix;
    assert n1 == DefaultName(functionName, timestamp, c1);
    assert n2 == DefaultName(functionName, timestamp, c2);
    if |p1| == |p2| {
      assert n1[|prefix|..|prefix| + |p1|] == p1;
      assert n2[|prefix|..|prefix| + |p2|] == p2;
    } else {
      assert |n1| != |n2|;
    }
  }

  /** A relative name is saved inside the files directory. */
  lemma RelativeNameInDirectory(name: string)
    requires !StartsWith(name, "/")
    ensures StartsWith(FilePath(name), FilesDirectory)
    ensures FilePath(name)[|FilesDirectory|..] == name
  {
  }

  // ---------------------------------------------------------------- the updated copy

  predicate DistinctKeys(entries: seq<(string, Value)>)
  {
    forall i, j :: 0 <= i < j < |entries| ==> entries[i].0 != entries[j].0
  }

  /**
   * After the update a key of the report has the report's value and every other key keeps the
   * value it had in the data (a report is a dict, so its keys are distinct).
   */
  lemma {:induction false} UpdateGet(entries: seq<(string, Value)>, other: seq<(string, Value)>, k: string)
    requires DistinctKeys(other)
    ensures Get(Update(entries, other), k) == if HasKey(other, k) then Get(other, k) else Get(entries, k)
    decreases |other|
  {
    if other != [] {
      var rest := other[1..];
      assert DistinctKeys(rest) by {
        forall i, j | 0 <= i < j < |rest| ensures rest[i].0 != rest[j].0 {
          assert rest[i] == other[i + 1] && rest[j] == other[j + 1];
        }
      }
      UpdateGet(Put(entries, other[0].0, other[0].1), rest, k);
      if k == other[0].0 {
        forall i | 0 <= i < |rest| ensures rest[i].0 != k {
          assert rest[i] == other[i + 1];
        }
      } else {
        assert HasKey(other, k) <==> HasKey(rest, k) by {
          if HasKey(other, k) {
            var i :| 0 <= i < |other| && other[i].0 == k;
            assert rest[i - 1].0 == k;
          }
          if HasKey(rest, k) {
            var i :| 0 <= i < |rest| && rest[i].0 == k;
            assert other[i + 1].0 == k;
          }
        }
      }
    }
  }

  /** What save_to_file returns keeps every key of the data and adds every key of the report. */
  lemma UpdateKeepsKeys(entries: seq<(string, Value)>, other: seq<(string, Value)>, k: string)
    requires DistinctKeys(other)
    ensures HasKey(Update(entries, other), k) <==> HasKey(entries, k) || HasKey(other, k)
  {
    UpdateGet(entries, other, k);
  }

  // ---------------------------------------------------------------- JSON preparation

  function DateTimeDict(iso: string): Value
  {
    VDict([("_type", VStr("datetime")), ("_value", VStr(iso))])
  }

  /**
   * _prepare_for_json_serialization: dicts and lists are prepared element by element, a tuple
   * becomes a list, a datetime a tagged dict with its ISO text, any other object a tagged dict
   * with its class name and prepared attribute dict; everything else is returned as it is.
   */
  function Prepare(v: Value): Value
    decreases v
  {
    match v
    case VDict(entries) => VDict(PrepareEntries(entries))
    case VList(items) => VList(PrepareAll(items))
    case VTuple(items) => VList(PrepareAll(items))
    case VDateTime(iso) => DateTimeDict(iso)
    case VObject(c, attrs) =>
      VDict([("_type", VStr("custom_object")), ("_class", VStr(c)), ("_data", VDict(PrepareEntries(attrs)))])
    case _ => v
  }

  function PrepareAll(items: seq<Value>): (r: seq<Value>)
    ensures |r| == |items|
    decreases items
  {
    if items == [] then [] else [Prepare(items[0])] + PrepareAll(items[1..])
  }

  function PrepareEntries(entries: seq<(string, Value)>): (r: seq<(string, Value)>)
    ensures |r| == |entries|
    ensures forall i :: 0 <= i < |entries| ==> r[i].0 == entries[i].0
    decreases entries
  {
    if entries == [] then []
    else
      var (k, x) := entries[0];
      assert x < entries[0];
      [(k, Prepare(x))] + PrepareEntries(entries[1..])
  }

  /** Values the JSON encoder takes as they are: no tuple, datetime or other object anywhere. */
  predicate JsonReady(v: Value)
    decreases v
  {
    match v
    case VTuple(_) => false
    case VDateTime(_) => false
    case VObject(_, _) => false
    case VList(items) => AllReady(items)
    case VDict(entries) => EntriesReady(entries)
    case _ => true
  }

  predicate AllReady(items: seq<Value>)
    decreases items
  {
    items == [] || (JsonReady(items[0]) && AllReady(items[1..]))
  }

  predicate EntriesReady(entries: seq<(string, Value)>)
    decreases entries
  {
    if entries == [] then true
    else
      var (_, x) := entries[0];
      assert x < entries[0];
      JsonReady(x) && EntriesReady(entries[1..])
  }

  /** Whatever goes in, what comes out is ready for the encoder. */
  lemma {:induction false} PreparedIsReady(v: Value)
    ensures JsonReady(Prepare(v))
    decreases v, 1
  {
    match v
    case VDict(entries) => PreparedEntriesReady(entries);
    case VList(items) => PreparedAllReady(items);
    case VTuple(items) => PreparedAllReady(items);
    case VDateTime(iso) =>
      ReadyCons("_value", VStr(iso), []);
      ReadyCons("_type", VStr("datetime"), [("_value", VStr(iso))]);
    case VObject(c, attrs) =>
      PreparedEntriesReady(attrs);
      var data := VDict(PrepareEntries(attrs));
      ReadyCons("_data", data, []);
      ReadyCons("_class", VStr(c), [("_data", data)]);
      ReadyCons("_type", VStr("custom_object"), [("_class", VStr(c)), ("_data", data)]);
    case _ =>
  }

  lemma ReadyCons(k: string, x: Value, rest: seq<(string, Value)>)
    requires JsonReady(x) && EntriesReady(rest)
    ensures EntriesReady([(k, x)] + rest)
  {
    assert ([(k, x)] + rest)[1..] == rest;
  }

  lemma {:induction false} PreparedAllReady(items: seq<Value>)
    ensures AllReady(PrepareAll(items))
    decreases items, 0
  {
    if items != [] {
      PreparedIsReady(items[0]);
      PreparedAllReady(items[1..]);
      assert PrepareAll(items)[1..] == PrepareAll(items[1..]);
    }
  }

  lemma {:induction false} PreparedEntriesReady(entries: seq<(string, Value)>)
    ensures EntriesReady(PrepareEntries(entries))
    decreases entries, 0
  {
    if entries != [] {
      var (_, x) := entries[0];
      assert x < entries[0];
      PreparedIsReady(x);
      PreparedEntriesReady(entries[1..]);
      assert PrepareEntries(entries)[1..] == PrepareEntries(entries[1..]);
    }
  }

  /** A value already ready for the encoder is returned unchanged. */
  lemma {:induction false} ReadyIsUnchanged(v: Value)
    requires JsonReady(v)
    ensures Prepare(v) == v
    decreases v, 1
  {
    match v
    case VDict(entries) => ReadyEntriesUnchanged(entries);
    case VList(items) => ReadyAllUnchanged(items);
    case _ =>
  }

  lemma {:induction false} ReadyAllUnchanged(items: seq<Value>)
    requires AllReady(items)
    ensures PrepareAll(items) == items
    decreases items, 0
  {
    if items != [] {
      ReadyIsUnchanged(items[0]);
      ReadyAllUnchanged(items[1..]);
      assert items == [items[0]] + items[1..];
    }
  }

  lemma {:induction false} ReadyEntriesUnchanged(entries: seq<(string, Value)>)
    requires EntriesReady(entries)
    ensures PrepareEntries(entries) == entries
    decreases entries, 0
  {
    if entries != [] {
      var (_, x) := entries[0];
      assert x < entries[0];
      ReadyIsUnchanged(x);
      ReadyEntriesUnchanged(entries[1..]);
      assert entries == [entries[0]] + entries[1..];
    }
  }

  /** Preparing twice is preparing once. */
  lemma PrepareIdempotent(v: Value)
    ensures Prepare(Prepare(v)) == Prepare(v)
  {
    PreparedIsReady(v);
    ReadyIsUnchanged(Prepare(v));
  }

  /** A prepared dict has the keys of the original, in the same order. */
  lemma PrepareKeepsKeys(entries: seq<(string, Value)>)
    ensures Prepare(VDict(entries)).VDict?
    ensures Keys(Prepare(VDict(entries)).entries) == Keys(entries)
  {
  }
}
