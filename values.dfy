// The Python objects that flow between the parsers, the text helpers and the JSON helpers:
// None, booleans, integers, strings, lists, tuples, insertion-ordered dicts with string keys,
// datetimes (held as their ISO text) and other objects (with their class name and attribute dict).

module PyValues {
  import opened Wrappers
  import opened Strings

  datatype Value =
    | VNone
    | VBool(b: bool)
    | VInt(i: int)
    | VStr(s: string)
    | VList(items: seq<Value>)
    | VTuple(items: seq<Value>)
    | VDict(entries: seq<(string, Value)>)
    | VDateTime(iso: string)
    | VObject(className: string, attrs: seq<(string, Value)>)

  /** Python truthiness. */
  predicate Truthy(v: Value)
  {
    match v
    case VNone => false
    case VBool(b) => b
    case VInt(i) => i != 0
    case VStr(s) => s != ""
    case VList(items) => items != []
    case VTuple(items) => items != []
    case VDict(entries) => entries != []
    case VDateTime(_) => true
    case VObject(_, _) => true
  }

  /** Python `key in d`. */
  predicate HasKey(entries: seq<(string, Value)>, key: string)
  {
    exists i :: 0 <= i < |entries| && entries[i].0 == key
  }

  /** Python `d.get(key)`: the value under the first entry with that key. */
  function Get(entries: seq<(string, Value)>, key: string): (r: Option<Value>)
    ensures r.None? <==> !HasKey(entries, key)
    ensures r.Some? ==> exists i :: 0 <= i < |entries| && entries[i] == (key, r.value)
  {
    if entries == [] then None
    else if entries[0].0 == key then Some(entries[0].1)
    else
      var r := Get(entries[1..], key);
      assert HasKey(entries, key) ==> HasKey(entries[1..], key) by {
        if HasKey(entries, key) {
          var i :| 0 <= i < |entries| && entries[i].0 == key;
          assert entries[1..][i - 1].0 == key;
        }
      }
      assert r.Some? ==> exists i :: 0 <= i < |entries| && entries[i] == (key, r.value) by {
        if r.Some? {
          var i :| 0 <= i < |entries[1..]| && entries[1..][i] == (key, r.value);
          assert entries[i + 1] == (key, r.value);
        }
      }
      r
  }

  /** Python `d[key] = value`: overwrite in place when present, append otherwise. */
  function Put(entries: seq<(string, Value)>, key: string, value: Value): (r: seq<(string, Value)>)
    ensures Get(r, key) == Some(value)
    ensures forall k :: k != key ==> Get(r, k) == Get(entries, k)
    ensures |r| == if HasKey(entries, key) then |entries| else |entries| + 1
  {
    if entries == [] then [(key, value)]
    else if entries[0].0 == key then [(key, value)] + entries[1..]
    else [entries[0]] + Put(entries[1..], key, value)
  }

  /** The string keys of a dict, in order. */
  function Keys(entries: seq<(string, Value)>): (r: seq<string>)
    ensures |r| == |entries|
    ensures forall i :: 0 <= i < |entries| ==> r[i] == entries[i].0
  {
    if entries == [] then [] else [entries[0].0] + Keys(entries[1..])
  }

  /** What a Python `for x in v` loop visits, or None when `v` is not iterable (TypeError). */
  function Iterate(v: Value): Option<seq<Value>>
  {
    match v
    case VList(items) => Some(items)
    case VTuple(items) => Some(items)
    case VStr(s) => Some(seq(|s|, i requires 0 <= i < |s| => VStr([s[i]])))
    case VDict(entries) => Some(seq(|entries|, i requires 0 <= i < |entries| => VStr(entries[i].0)))
    case _ => None
  }

  /** Stands for the text of the TypeError str.join raises on a non-string part. */
  const JoinTypeError := "sequence item: expected str instance"

  /** Python `sep.join(parts)`: a TypeError (None) unless every part is a string. */
  function JoinValues(parts: seq<Value>, sep: string): (r: Option<string>)
    ensures r.Some? <==> forall i :: 0 <= i < |parts| ==> parts[i].VStr?
  {
    if forall i :: 0 <= i < |parts| ==> parts[i].VStr? then
      Some(Join(seq(|parts|, i requires 0 <= i < |parts| => parts[i].s), sep))
    else None
  }

  function IntToString(i: int): string
  {
    if i < 0 then "-" + NatToString(-i) else NatToString(i)
  }

  /** Python str(v): a string itself, a datetime's isoformat with a space before the time, else repr. */
  function PyStr(v: Value): string
  {
    match v
    case VStr(s) => s
    case VDateTime(iso) => ReplaceChar(iso, 'T', ' ')
    case _ => PyRepr(v)
  }

  function HexDigit(d: nat): char
    requires d < 16
  {
    if d < 10 then DigitChar(d) else "abcdef"[d - 10]
  }

  /** One character inside a string's repr, quoted with `q`. */
  function EscapeChar(c: char, q: char): string
  {
    if c == '\\' then "\\\\"
    else if c == '\n' then "\\n"
    else if c == '\r' then "\\r"
    else if c == '\t' then "\\t"
    else if c == q then ['\\', q]
    else if c < ' ' || c == '\U{7F}' then ['\\', 'x', HexDigit(c as int / 16), HexDigit(c as int % 16)]
    else [c]
  }

  /**
   * repr of a string: single quotes unless the text holds a single quote and no double quote;
   * backslashes, the quote used and the ASCII control characters are escaped.
   */
  function ReprString(s: string): (r: string)
    ensures |r| >= 2 && r[0] == r[|r| - 1] && r[0] in {'\'', '"'}
  {
    var q := if '\'' in s && '"' !in s then '"' else '\'';
    [q] + Escaped(s, q) + [q]
  }

  /** The characters of a string, each escaped for a repr quoted with `q`. */
  function Escaped(s: string, q: char): string
  {
    if s == [] then [] else EscapeChar(s[0], q) + Escaped(s[1..], q)
  }

  /** type(v).__name__, as it appears in the text of a TypeError or AttributeError. */
  function TypeName(v: Value): string
  {
    match v
    case VNone => "NoneType"
    case VBool(_) => "bool"
    case VInt(_) => "int"
    case VStr(_) => "str"
    case VList(_) => "list"
    case VTuple(_) => "tuple"
    case VDict(_) => "dict"
    case VDateTime(_) => "datetime"
    case VObject(c, _) => c
  }

  /** The text of the TypeError a `for` loop raises over a value that is not iterable. */
  function NotIterable(v: Value): string
  {
    "'" + TypeName(v) + "' object is not iterable"
  }

  /** The text of the AttributeError raised by `v.name` on a value without that attribute. */
  function NoAttribute(v: Value, name: string): string
  {
    "'" + TypeName(v) + "' object has no attribute '" + name + "'"
  }

  function PyRepr(v: Value): string
  {
    match v
    case VNone => "None"
    case VBool(b) => if b then "True" else "False"
    case VInt(i) => IntToString(i)
    case VStr(s) => ReprString(s)
    case VList(items) => "[" + Join(ReprAll(items), ", ") + "]"
    case VTuple(items) =>
      if |items| == 1 then "(" + PyRepr(items[0]) + ",)" else "(" + Join(ReprAll(items), ", ") + ")"
    case VDict(entries) => "{" + Join(ReprEntries(entries), ", ") + "}"
    case VDateTime(iso) => "datetime.datetime(" + iso + ")"
    case VObject(c, _) => "<" + c + " object>"
  }

  /** A character repr leaves as it is when quoting with `q`. */
  predicate PlainChar(c: char, q: char)
  {
    c != '\\' && c != q && ' ' <= c && c != '\U{7F}'
  }

  lemma {:induction false} EscapedPlain(s: string, q: char)
    requires forall i :: 0 <= i < |s| ==> PlainChar(s[i], q)
    ensures Escaped(s, q) == s
  {
    if s != [] {
      EscapedPlain(s[1..], q);
    }
  }

  /** A string without quotes, backslashes or control characters is shown between single quotes as it is. */
  lemma PlainRepr(s: string)
    requires forall i :: 0 <= i < |s| ==> PlainChar(s[i], '\'') && s[i] != '"'
    ensures PyRepr(VStr(s)) == "'" + s + "'"
  {
    assert '\'' !in s by {
      forall i | 0 <= i < |s| ensures s[i] != '\'' { }
    }
    EscapedPlain(s, '\'');
  }

  /** A string holding a single quote and no double quote is shown between double quotes, unescaped. */
  lemma ApostropheRepr(s: string)
    requires '\'' in s
    requires forall i :: 0 <= i < |s| ==> PlainChar(s[i], '"')
    ensures PyRepr(VStr(s)) == "\"" + s + "\""
  {
    assert '"' !in s by {
      forall i | 0 <= i < |s| ensures s[i] != '"' { }
    }
    EscapedPlain(s, '"');
  }

  function ReprAll(items: seq<Value>): (r: seq<string>)
    ensures |r| == |items|
  {
    if items == [] then [] else [PyRepr(items[0])] + ReprAll(items[1..])
  }

  function ReprEntries(entries: seq<(string, Value)>): (r: seq<string>)
    ensures |r| == |entries|
  {
    if entries == [] then []
    else
      var (k, v) := entries[0];
      assert v < entries[0];
      [ReprString(k) + ": " + PyRepr(v)] + ReprEntries(entries[1..])
  }
}
