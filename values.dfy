/**
 * Python values as produced by the YAML and JSON parsers the registry loader
 * uses, and Python's `str()` on them.  A dict is an insertion-ordered list of
 * (key, value) pairs, as Python dicts are ordered.
 */
module Values {
  import opened Wrappers
  import Text

  datatype Value =
    | PyNone
    | PyBool(b: bool)
    | PyInt(i: int)
    | PyStr(s: string)
    | PyList(items: seq<Value>)
    | PyDict(entries: seq<(string, Value)>)

  /** `d.get(key)`: the value stored under `key`, if any (the first entry with that key). */
  function Get<V>(d: seq<(string, V)>, key: string): Option<V> {
    if |d| == 0 then None
    else if d[0].0 == key then Some(d[0].1)
    else Get(d[1..], key)
  }

  /** A key is found exactly when some entry has it, and the value found is stored under it. */
  lemma {:induction false} GetFound<V>(d: seq<(string, V)>, key: string)
    ensures Get(d, key).Some? <==> exists i :: 0 <= i < |d| && d[i].0 == key
    ensures Get(d, key).Some? ==> exists i :: 0 <= i < |d| && d[i] == (key, Get(d, key).value)
  {
    if |d| > 0 && d[0].0 != key {
      GetFound(d[1..], key);
      assert forall i :: 0 < i < |d| ==> d[i] == d[1..][i - 1];
    }
  }

  /** `d.get(key, default)`. */
  function GetOr<V>(d: seq<(string, V)>, key: string, default: V): V {
    match Get(d, key)
    case Some(v) => v
    case None => default
  }

  /** `str(v)`. */
  function ToStr(v: Value): (r: string)
    ensures !v.PyStr? ==> |r| > 0 && !Text.IsSpace(r[0])
    ensures v.PyStr? ==> r == v.s
  {
    match v
    case PyStr(s) => s
    case _ => Repr(v)
  }

  /** `repr(v)`; quotes inside strings are not escaped in this model. */
  function Repr(v: Value): (r: string)
    ensures |r| > 0 && !Text.IsSpace(r[0])
    decreases v, 1
  {
    match v
    case PyNone => "None"
    case PyBool(b) => if b then "True" else "False"
    case PyInt(i) => Text.IntToDecimal(i)
    case PyStr(s) => "'" + s + "'"
    case PyList(items) => "[" + Text.Join(", ", ReprItems(v, items)) + "]"
    case PyDict(entries) => "{" + Text.Join(", ", ReprEntries(v, entries)) + "}"
  }

  function ReprItems(parent: Value, items: seq<Value>): seq<string>
    requires forall x :: x in items ==> x < parent
    decreases parent, 0, |items|
  {
    if |items| == 0 then []
    else
      assert items[0] in items;
      assert forall x :: x in items[1..] ==> x in items;
      [Repr(items[0])] + ReprItems(parent, items[1..])
  }

  function ReprEntries(parent: Value, entries: seq<(string, Value)>): seq<string>
    requires forall e :: e in entries ==> e.1 < parent
    decreases parent, 0, |entries|
  {
    if |entries| == 0 then []
    else
      assert entries[0] in entries;
      assert forall e :: e in entries[1..] ==> e in entries;
      ["'" + entries[0].0 + "': " + Repr(entries[0].1)] + ReprEntries(parent, entries[1..])
  }

  /** `str(v).strip()`, the normalisation the loader applies to every scalar field. */
  function Cleaned(v: Value): string {
    Text.Strip(ToStr(v))
  }

  /** Only a string can be blank once converted and stripped: `None`, numbers, lists and dicts never are. */
  lemma BlankOnlyIfString(v: Value)
    ensures Cleaned(v) == [] ==> v.PyStr? && Text.AllSpace(v.s)
  {
    if !v.PyStr? {
      Text.StripNonBlank(ToStr(v));
    } else {
      Text.StripBlank(v.s);
    }
  }
}
