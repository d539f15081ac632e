/**
 * Loading the skill registry: choosing the parser by file suffix, finding
 * the entry list, cleaning each entry's fields and rejecting invalid or
 * duplicate entries.  Parsing and file reads are outside the model; the
 * parsed document is a `Value` and reading an instruction file is a
 * function that may find no file.
 */
module Registry {
  import opened Wrappers
  import opened Text
  import opened Values
  import opened Models

  datatype RegistryError =
    | UnsupportedExtension(suffix: string)
    | NoEntryList
    | NotListOrObject
    | EntryNotObject(index: nat)
    | FieldNotList(field: string, cardId: string)
    | FieldNotObject(field: string, cardId: string)
    | MissingRequired(key: string, index: nat)
    | DuplicateId(id: string)
    | InstructionFileMissing(cardId: string, file: string)
    | RegistryNotFound(path: string)

  // ---------------------------------------------------------------------
  // Suffix dispatch
  // ---------------------------------------------------------------------

  datatype Format = Yaml | Json

  /** The last component of a `/`-separated path. */
  function BaseName(path: string): (r: string)
    ensures '/' !in r
    ensures |r| <= |path| && r == path[|path| - |r|..]
  {
    if |path| == 0 then []
    else if path[|path| - 1] == '/' then []
    else
      var r := BaseName(path[..|path| - 1]);
      r + [path[|path| - 1]]
  }

  /** The position of the last `.` in `s`, if any. */
  function LastDot(s: string): (r: Option<nat>)
    ensures r.Some? ==> r.value < |s| && s[r.value] == '.' && '.' !in s[r.value + 1..]
    ensures r.None? ==> '.' !in s
  {
    if |s| == 0 then None
    else if s[|s| - 1] == '.' then Some(|s| - 1)
    else
      var r := LastDot(s[..|s| - 1]);
      assert r.Some? ==> s[r.value + 1..] == s[..|s| - 1][r.value + 1..] + [s[|s| - 1]];
      assert r.None? ==> s == s[..|s| - 1] + [s[|s| - 1]];
      r
  }

  /**
   * `PurePath(path).suffix`: from the last dot of the final component to
   * its end, provided that dot is neither the first nor the last character;
   * otherwise empty.
   */
  function Suffix(path: string): (r: string)
    ensures r == [] || (r[0] == '.' && '.' !in r[1..] && |r| >= 2)
  {
    var name := BaseName(path);
    match LastDot(name)
    case Some(i) => if 0 < i < |name| - 1 then name[i..] else []
    case None => []
  }

  /**
   * `_read_structured`'s dispatch on `path.suffix.lower()`: `.yaml` and
   * `.yml` go to the YAML parser, `.json` to the JSON parser, anything
   * else is refused, naming the lower-cased suffix.
   */
  function StructuredFormat(path: string): (r: Result<Format, RegistryError>)
    ensures r == Ok(Yaml) <==> Lower(Suffix(path)) in {".yaml", ".yml"}
    ensures r == Ok(Json) <==> Lower(Suffix(path)) == ".json"
    ensures r.Err? ==> r.error == UnsupportedExtension(Lower(Suffix(path)))
  {
    var suffix := Lower(Suffix(path));
    if suffix == ".yaml" || suffix == ".yml" then Ok(Yaml)
    else if suffix == ".json" then Ok(Json)
    else Err(UnsupportedExtension(suffix))
  }

  // ---------------------------------------------------------------------
  // Entry list
  // ---------------------------------------------------------------------

  /**
   * The first half of `_normalize_entries`: a list is the entry list; an
   * object's `tools` list is preferred over its `roles` list, and an object
   * with neither is refused; anything else is refused.
   */
  function SelectEntries(raw: Value): (r: Result<seq<Value>, RegistryError>)
    ensures raw.PyList? ==> r == Ok(raw.items)
    ensures raw.PyDict? && Get(raw.entries, "tools").Some? && Get(raw.entries, "tools").value.PyList? ==>
      r == Ok(Get(raw.entries, "tools").value.items)
    ensures raw.PyDict? && !(Get(raw.entries, "tools").Some? && Get(raw.entries, "tools").value.PyList?) ==>
      && (Get(raw.entries, "roles").Some? && Get(raw.entries, "roles").value.PyList? ==> r == Ok(Get(raw.entries, "roles").value.items))
      && (!(Get(raw.entries, "roles").Some? && Get(raw.entries, "roles").value.PyList?) ==> r == Err(NoEntryList))
    ensures !raw.PyList? && !raw.PyDict? ==> r == Err(NotListOrObject)
  {
    match raw
    case PyList(items) => Ok(items)
    case PyDict(entries) =>
      var tools := Get(entries, "tools");
      var roles := Get(entries, "roles");
      if tools.Some? && tools.value.PyList? then Ok(tools.value.items)
      else if roles.Some? && roles.value.PyList? then Ok(roles.value.items)
      else Err(NoEntryList)
    case _ => Err(NotListOrObject)
  }

  /** `isinstance(row, dict)` for every entry before `n`. */
  predicate AllObjects(entries: seq<Value>, n: nat)
    requires n <= |entries|
  {
    forall j :: 0 <= j < n ==> entries[j].PyDict?
  }

  /** The entries' objects, when every entry is one. */
  function Rows(entries: seq<Value>): (rows: seq<seq<(string, Value)>>)
    requires AllObjects(entries, |entries|)
    ensures |rows| == |entries| && forall i :: 0 <= i < |entries| ==> entries[i] == PyDict(rows[i])
  {
    seq(|entries|, i requires 0 <= i < |entries| => entries[i].entries)
  }

  /**
   * What `_normalize_entries` yields: the selection error, the index of the
   * first entry that is not an object, or the entries' objects in order.
   */
  function ExpectedEntries(raw: Value): (r: Result<seq<seq<(string, Value)>>, RegistryError>)
    ensures SelectEntries(raw).Err? ==> r == Err(SelectEntries(raw).error)
    ensures SelectEntries(raw).Ok? ==>
      var entries := SelectEntries(raw).value;
      && (r.Ok? <==> AllObjects(entries, |entries|))
      && (r.Ok? ==> r.value == Rows(entries))
      && (r.Err? ==> exists i :: 0 <= i < |entries| && r.error == EntryNotObject(i)
                                 && !entries[i].PyDict? && AllObjects(entries, i))
  {
    if SelectEntries(raw).Err? then Err(SelectEntries(raw).error)
    else
      var entries := SelectEntries(raw).value;
      var flags := seq(|entries|, i requires 0 <= i < |entries| => entries[i].PyDict?);
      assert forall i :: 0 <= i < |entries| ==> flags[i] == entries[i].PyDict?;
      var bad := FirstFalse(flags, 0);
      if bad.Some? then Err(EntryNotObject(bad.value)) else Ok(Rows(entries))
  }

  /** An entry that is not an object, after objects only, is the one `ExpectedEntries` reports. */
  lemma FirstNonObject(raw: Value, i: nat)
    requires SelectEntries(raw).Ok? && i < |SelectEntries(raw).value|
    requires !SelectEntries(raw).value[i].PyDict? && AllObjects(SelectEntries(raw).value, i)
    ensures ExpectedEntries(raw) == Err(EntryNotObject(i))
  {
    var entries := SelectEntries(raw).value;
    var flags := seq(|entries|, j requires 0 <= j < |entries| => entries[j].PyDict?);
    assert forall j :: 0 <= j < |entries| ==> flags[j] == entries[j].PyDict?;
  }

  /**
   * `_normalize_entries(raw)`: the selected entries, in order and unchanged,
   * when every one is an object; otherwise the index of the first one that
   * is not.
   */
  method NormalizeEntries(raw: Value) returns (r: Result<seq<seq<(string, Value)>>, RegistryError>)
    ensures r == ExpectedEntries(raw)
    ensures SelectEntries(raw).Err? ==> r == Err(SelectEntries(raw).error)
    ensures SelectEntries(raw).Ok? ==>
      var entries := SelectEntries(raw).value;
      && (r.Ok? <==> AllObjects(entries, |entries|))
      && (r.Ok? ==> |r.value| == |entries| && forall i :: 0 <= i < |entries| ==> entries[i] == PyDict(r.value[i]))
      && (r.Err? ==> exists i :: 0 <= i < |entries| && r.error == EntryNotObject(i)
                                 && !entries[i].PyDict? && AllObjects(entries, i))
  {
    var selected := SelectEntries(raw);
    if selected.Err? {
      return Err(selected.error);
    }
    var entries := selected.value;
    var out: seq<seq<(string, Value)>> := [];
    for i := 0 to |entries|
      invariant |out| == i && AllObjects(entries, i)
      invariant forall j :: 0 <= j < i ==> entries[j] == PyDict(out[j])
    {
      if !entries[i].PyDict? {
        FirstNonObject(raw, i);
        return Err(EntryNotObject(i));
      }
      out := out + [entries[i].entries];
    }
    assert out == Rows(entries);
    return Ok(out);
  }

  // ---------------------------------------------------------------------
  // Field cleaning
  // ---------------------------------------------------------------------

  /** A cleaned string: non-empty, with no whitespace at either end. */
  predicate IsClean(s: string) {
    s != [] && !IsSpace(s[0]) && !IsSpace(s[|s| - 1])
  }

  /** `str(x)` of every item. */
  function Strs(items: seq<Value>): (r: seq<string>)
    ensures |r| == |items| && forall i :: 0 <= i < |items| ==> r[i] == ToStr(items[i])
  {
    seq(|items|, i requires 0 <= i < |items| => ToStr(items[i]))
  }

  /** `[s.strip() for s in ss if s.strip()]`. */
  function CleanStrings(ss: seq<string>): (r: seq<string>)
    ensures |r| <= |ss|
  {
    if |ss| == 0 then []
    else
      var head := Strip(ss[0]);
      (if head != [] then [head] else []) + CleanStrings(ss[1..])
  }

  /** `[str(x).strip() for x in items if str(x).strip()]`: the non-blank items, converted and stripped, in order. */
  function CleanItems(items: seq<Value>): (r: seq<string>)
    ensures |r| <= |items|
    ensures forall s :: s in r ==> IsClean(s)
  {
    CleanStringsClean(Strs(items));
    CleanStrings(Strs(items))
  }

  /** Every kept string is clean: non-empty, with no whitespace at either end. */
  lemma {:induction false} CleanStringsClean(ss: seq<string>)
    ensures forall s :: s in CleanStrings(ss) ==> IsClean(s)
  {
    if |ss| > 0 {
      var head := Strip(ss[0]);
      var rest := CleanStrings(ss[1..]);
      assert CleanStrings(ss) == (if head != [] then [head] else []) + rest;
      CleanStringsClean(ss[1..]);
      forall s | s in CleanStrings(ss) ensures IsClean(s) {
        if s !in rest {
          assert s == head;
        }
      }
    }
  }

  /** Every non-blank string is kept, stripped. */
  lemma {:induction false} CleanStringsKeeps(ss: seq<string>, i: nat)
    requires i < |ss| && Strip(ss[i]) != []
    ensures Strip(ss[i]) in CleanStrings(ss)
  {
    var head := Strip(ss[0]);
    var rest := CleanStrings(ss[1..]);
    assert CleanStrings(ss) == (if head != [] then [head] else []) + rest;
    if i > 0 {
      assert ss[1..][i - 1] == ss[i];
      CleanStringsKeeps(ss[1..], i - 1);
      assert Strip(ss[i]) in rest;
    }
  }

  /** Every kept string is the strip of some input string. */
  lemma {:induction false} CleanStringsSources(ss: seq<string>, s: string)
    requires s in CleanStrings(ss)
    ensures exists i :: 0 <= i < |ss| && Strip(ss[i]) == s
  {
    if s != Strip(ss[0]) {
      CleanStringsSources(ss[1..], s);
      var i :| 0 <= i < |ss[1..]| && Strip(ss[1..][i]) == s;
      assert ss[i + 1] == ss[1..][i];
    }
  }

  /** Cleaning distributes over concatenation: each string is kept or dropped on its own, in order. */
  lemma {:induction false} CleanStringsAppend(a: seq<string>, b: seq<string>)
    ensures CleanStrings(a + b) == CleanStrings(a) + CleanStrings(b)
  {
    if |a| > 0 {
      var head := Strip(a[0]);
      var keep := if head != [] then [head] else [];
      assert (a + b)[0] == a[0] && (a + b)[1..] == a[1..] + b;
      assert CleanStrings(a + b) == keep + CleanStrings(a[1..] + b);
      CleanStringsAppend(a[1..], b);
    } else {
      assert a + b == b;
    }
  }

  /** The same for items: cleaning a concatenation is concatenating the cleanings. */
  lemma CleanItemsAppend(a: seq<Value>, b: seq<Value>)
    ensures CleanItems(a + b) == CleanItems(a) + CleanItems(b)
  {
    assert Strs(a + b) == Strs(a) + Strs(b);
    CleanStringsAppend(Strs(a), Strs(b));
  }

  /** One item is kept, stripped, exactly when it is not blank. */
  lemma CleanItemsSingle(v: Value)
    ensures CleanItems([v]) == if Cleaned(v) != [] then [Cleaned(v)] else []
  {
    assert Strs([v])[1..] == [];
  }

  /** Strings that are already clean are all kept, unchanged. */
  lemma {:induction false} CleanStringsKept(ss: seq<string>)
    requires forall s :: s in ss ==> IsClean(s)
    ensures CleanStrings(ss) == ss
  {
    if |ss| > 0 {
      assert ss[0] in ss;
      StripOfStripped(ss[0]);
      CleanStringsKept(ss[1..]);
    }
  }

  /** Cleaning the cleaned items again, as strings, changes nothing. */
  lemma CleanItemsIdempotent(items: seq<Value>)
    ensures var once := CleanItems(items);
      CleanItems(seq(|once|, i requires 0 <= i < |once| => PyStr(once[i]))) == once
  {
    var once := CleanItems(items);
    assert Strs(seq(|once|, i requires 0 <= i < |once| => PyStr(once[i]))) == once;
    CleanStringsKept(once);
  }

  /**
   * `_to_list(value, field, card_id)`: `None` is the empty list, a list is
   * cleaned, anything else is refused naming the field and the card.
   */
  function ToList(value: Value, field: string, cardId: string): (r: Result<seq<string>, RegistryError>)
    ensures value.PyNone? ==> r == Ok([])
    ensures !value.PyNone? && !value.PyList? ==> r == Err(FieldNotList(field, cardId))
    ensures value.PyList? ==> r == Ok(CleanItems(value.items))
  {
    match value
    case PyNone => Ok([])
    case PyList(items) => Ok(CleanItems(items))
    case _ => Err(FieldNotList(field, cardId))
  }

  /** No key occurs twice. */
  predicate UniqueKeys<V>(d: seq<(string, V)>) {
    forall i, j :: 0 <= i < j < |d| ==> d[i].0 != d[j].0
  }

  /**
   * `d[key] = value` on an insertion-ordered dict: an existing key keeps
   * its place and takes the new value, a new key goes at the end.
   */
  function DictPut<V>(d: seq<(string, V)>, key: string, value: V): (r: seq<(string, V)>)
    ensures forall e :: e in r ==> e == (key, value) || e in d
    ensures |r| == if Get(d, key).Some? then |d| else |d| + 1
  {
    if |d| == 0 then [(key, value)]
    else if d[0].0 == key then [(key, value)] + d[1..]
    else
      assert forall i :: 0 < i < |d| ==> d[i] == d[1..][i - 1];
      [d[0]] + DictPut(d[1..], key, value)
  }

  /** After `d[key] = value`, `key` maps to `value` and every other key to what it mapped to before. */
  lemma {:induction false} DictPutGet<V>(d: seq<(string, V)>, key: string, value: V, k: string)
    ensures Get(DictPut(d, key, value), k) == if k == key then Some(value) else Get(d, k)
  {
    if |d| > 0 && d[0].0 != key {
      DictPutGet(d[1..], key, value, k);
    }
  }

  /** `d[key] = value` never creates a second entry for a key. */
  lemma {:induction false} DictPutUnique<V>(d: seq<(string, V)>, key: string, value: V)
    requires UniqueKeys(d)
    ensures UniqueKeys(DictPut(d, key, value))
  {
    if |d| > 0 && d[0].0 != key {
      var rest := DictPut(d[1..], key, value);
      DictPutUnique(d[1..], key, value);
      var r := [d[0]] + rest;
      forall j | 0 < j < |r| ensures r[0].0 != r[j].0 {
        assert r[j] in rest;
        if r[j] != (key, value) {
          assert r[j] in d[1..];
          var m :| 0 <= m < |d[1..]| && d[1..][m] == r[j];
          assert d[m + 1] == r[j];
        }
      }
    } else if |d| > 0 {
      var r := [(key, value)] + d[1..];
      assert forall i :: 0 < i < |d| ==> r[i] == d[i];
    }
  }

  /** `(key, str(value))` for every pair. */
  function StrPairs(entries: seq<(string, Value)>): (r: seq<(string, string)>)
    ensures |r| == |entries| && forall i :: 0 <= i < |entries| ==> r[i] == (entries[i].0, ToStr(entries[i].1))
  {
    seq(|entries|, i requires 0 <= i < |entries| => (entries[i].0, ToStr(entries[i].1)))
  }

  /**
   * The loop of `_to_map` as a fold over `(key, str(value))` pairs: each
   * pair whose stripped key and stripped value are both non-empty is
   * stored under the stripped key.
   */
  function CleanPairs(pairs: seq<(string, string)>): seq<(string, string)>
  {
    if |pairs| == 0 then []
    else
      var prev := CleanPairs(pairs[..|pairs| - 1]);
      var (k, v) := pairs[|pairs| - 1];
      if Strip(k) != [] && Strip(v) != [] then DictPut(prev, Strip(k), Strip(v)) else prev
  }

  /** The value of the last kept pair whose stripped key is `key`, if there is one. */
  function LastKept(pairs: seq<(string, string)>, key: string): Option<string> {
    if |pairs| == 0 then None
    else
      var (k, v) := pairs[|pairs| - 1];
      if Strip(k) == key && key != [] && Strip(v) != [] then Some(Strip(v))
      else LastKept(pairs[..|pairs| - 1], key)
  }

  /**
   * The cleaned map holds, under each key, the value of the last kept pair
   * with that stripped key (later pairs overwrite earlier ones), and
   * nothing under any other key.
   */
  lemma {:induction false} CleanPairsLookup(pairs: seq<(string, string)>, key: string)
    ensures Get(CleanPairs(pairs), key) == LastKept(pairs, key)
  {
    if |pairs| > 0 {
      var (k, v) := pairs[|pairs| - 1];
      CleanPairsLookup(pairs[..|pairs| - 1], key);
      if Strip(k) != [] && Strip(v) != [] {
        DictPutGet(CleanPairs(pairs[..|pairs| - 1]), Strip(k), Strip(v), key);
      }
    }
  }

  /** The cleaned map has unique keys, and every key and value in it is clean. */
  lemma {:induction false} CleanPairsWellFormed(pairs: seq<(string, string)>)
    ensures UniqueKeys(CleanPairs(pairs))
    ensures forall e :: e in CleanPairs(pairs) ==> IsClean(e.0) && IsClean(e.1)
  {
    if |pairs| > 0 {
      var (k, v) := pairs[|pairs| - 1];
      CleanPairsWellFormed(pairs[..|pairs| - 1]);
      if Strip(k) != [] && Strip(v) != [] {
        DictPutUnique(CleanPairs(pairs[..|pairs| - 1]), Strip(k), Strip(v));
      }
    }
  }

  /**
   * `_to_map(value, field, card_id)`: `None` is the empty map, a dict is
   * cleaned pair by pair, anything else is refused naming the field and
   * the card.
   */
  method ToMap(value: Value, field: string, cardId: string) returns (r: Result<seq<(string, string)>, RegistryError>)
    ensures value.PyNone? ==> r == Ok([])
    ensures !value.PyNone? && !value.PyDict? ==> r == Err(FieldNotObject(field, cardId))
    ensures value.PyDict? ==> r == Ok(CleanPairs(StrPairs(value.entries)))
    ensures r == ToMapValue(value, field, cardId)
  {
    if value.PyNone? {
      return Ok([]);
    }
    if !value.PyDict? {
      return Err(FieldNotObject(field, cardId));
    }
    var pairs := StrPairs(value.entries);
    var out: seq<(string, string)> := [];
    for i := 0 to |pairs|
      invariant out == CleanPairs(pairs[..i])
    {
      assert pairs[..i + 1][..i] == pairs[..i];
      var key := Strip(pairs[i].0);
      var val := Strip(pairs[i].1);
      if key != [] && val != [] {
        out := DictPut(out, key, val);
      }
    }
    assert pairs[..|pairs|] == pairs;
    return Ok(out);
  }

  /** The same cleaning as a function, for use in specifications. */
  function ToMapValue(value: Value, field: string, cardId: string): (r: Result<seq<(string, string)>, RegistryError>)
  {
    match value
    case PyNone => Ok([])
    case PyDict(entries) => Ok(CleanPairs(StrPairs(entries)))
    case _ => Err(FieldNotObject(field, cardId))
  }

  /** `_to_any_map(value, field, card_id)`: `None` is empty, a dict is copied as it is, anything else is refused. */
  function ToAnyMap(value: Value, field: string, cardId: string): (r: Result<seq<(string, Value)>, RegistryError>)
    ensures value.PyNone? ==> r == Ok([])
    ensures value.PyDict? ==> r == Ok(value.entries)
    ensures !value.PyNone? && !value.PyDict? ==> r == Err(FieldNotObject(field, cardId))
  {
    match value
    case PyNone => Ok([])
    case PyDict(entries) => Ok(entries)
    case _ => Err(FieldNotObject(field, cardId))
  }

  // ---------------------------------------------------------------------
  // Entries to cards
  // ---------------------------------------------------------------------

  /** The fields every entry must carry. */
  const Required: seq<string> := ["id", "title", "domain", "instruction_file"]

  /** `str(row.get(key, "")).strip()`. */
  function Field(row: seq<(string, Value)>, key: string): string {
    Cleaned(GetOr(row, key, PyStr("")))
  }

  /** `str(row.get(key)).strip()` is non-empty. */
  predicate Present(row: seq<(string, Value)>, key: string) {
    Field(row, key) != []
  }

  /** The position of the first `false` from `start` on, if any. */
  function FirstFalse(flags: seq<bool>, start: nat): (r: Option<nat>)
    requires start <= |flags|
    ensures r.None? <==> forall i :: start <= i < |flags| ==> flags[i]
    ensures r.Some? ==> start <= r.value < |flags| && !flags[r.value]
                        && forall j :: start <= j < r.value ==> flags[j]
    decreases |flags| - start
  {
    if start == |flags| then None
    else if !flags[start] then Some(start)
    else FirstFalse(flags, start + 1)
  }

  /** The position of the first key of `required` that is absent or blank in `row`, if any. */
  function FirstMissing(row: seq<(string, Value)>, required: seq<string>): (r: Option<nat>)
    ensures r.None? <==> forall i :: 0 <= i < |required| ==> Present(row, required[i])
    ensures r.Some? ==> r.value < |required| && !Present(row, required[r.value])
                        && forall j :: 0 <= j < r.value ==> Present(row, required[j])
  {
    var present := seq(|required|, i requires 0 <= i < |required| => Present(row, required[i]));
    assert forall i :: 0 <= i < |required| ==> present[i] == Present(row, required[i]);
    FirstFalse(present, 0)
  }

  /**
   * `_validate_required(row, required, idx)`: fails exactly when some
   * required key is absent or blank, naming the first such key in
   * `required` order and the entry index.
   */
  function ValidateRequired(row: seq<(string, Value)>, required: seq<string>, idx: nat): (r: Result<(), RegistryError>)
    ensures r.Ok? <==> forall i :: 0 <= i < |required| ==> Present(row, required[i])
    ensures r.Err? ==> FirstMissing(row, required).Some?
                       && r.error == MissingRequired(required[FirstMissing(row, required).value], idx)
  {
    match FirstMissing(row, required)
    case None => Ok(())
    case Some(i) => Err(MissingRequired(required[i], idx))
  }

  /** A required key given as `null` passes: `str(None)` is the non-blank `"None"`. */
  lemma NullRequiredFieldPasses(row: seq<(string, Value)>, key: string)
    requires Get(row, key) == Some(PyNone)
    ensures Field(row, key) == "None"
  {
    assert GetOr(row, key, PyStr("")) == PyNone;
    assert ToStr(PyNone) == "None";
    StripOfStripped("None");
  }

  /**
   * The instruction text of an entry: a non-blank inline `instruction_text`
   * wins; otherwise the file named by `instruction_file` is read (relative
   * to the registry's directory) and stripped, and a missing file is an error.
   */
  function InstructionText(row: seq<(string, Value)>, cardId: string, read: string -> Option<string>): (r: Result<string, RegistryError>)
    ensures Present(row, "instruction_text") ==> r == Ok(Field(row, "instruction_text"))
    ensures !Present(row, "instruction_text") && read(Field(row, "instruction_file")).None? ==>
      r == Err(InstructionFileMissing(cardId, Field(row, "instruction_file")))
    ensures !Present(row, "instruction_text") && read(Field(row, "instruction_file")).Some? ==>
      r == Ok(Strip(read(Field(row, "instruction_file")).value))
  {
    var inline := Field(row, "instruction_text");
    if inline != [] then Ok(inline)
    else
      var file := Field(row, "instruction_file");
      match read(file)
      case None => Err(InstructionFileMissing(cardId, file))
      case Some(text) => Ok(Strip(text))
  }

  /** The list-valued fields of a card, in the order the constructor call evaluates them. */
  const ListFields: seq<string> := ["tags", "tool_hints", "examples", "aliases", "dependencies",
                                    "output_artifacts", "quality_checks", "constraints"]

  /** Evaluates `rs` left to right: all the values if every one is `Ok`, otherwise the first error. */
  function AllOk<T>(rs: seq<Result<T, RegistryError>>): (r: Result<seq<T>, RegistryError>)
    ensures r.Ok? <==> forall i :: 0 <= i < |rs| ==> rs[i].Ok?
    ensures r.Ok? ==> |r.value| == |rs| && forall i :: 0 <= i < |rs| ==> rs[i] == Ok(r.value[i])
    ensures r.Err? ==> exists i :: 0 <= i < |rs| && rs[i] == Err(r.error) && forall j :: 0 <= j < i ==> rs[j].Ok?
  {
    if |rs| == 0 then Ok([])
    else
      match rs[0]
      case Err(e) => Err(e)
      case Ok(first) =>
        assert forall i :: 0 < i < |rs| ==> rs[i] == rs[1..][i - 1];
        match AllOk(rs[1..])
        case Err(e) =>
          var i :| 0 <= i < |rs[1..]| && rs[1..][i] == Err(e) && forall j :: 0 <= j < i ==> rs[1..][j].Ok?;
          assert rs[i + 1] == Err(e);
          Err(e)
        case Ok(rest) => Ok([first] + rest)
  }

  /** `_to_list(row.get(field), field, card_id)` for one field. */
  function ListField(row: seq<(string, Value)>, field: string, cardId: string): Result<seq<string>, RegistryError> {
    ToList(GetOr(row, field, PyNone), field, cardId)
  }

  /** `_to_list` over each list field in turn, stopping at the first refusal. */
  function ListValues(row: seq<(string, Value)>, fields: seq<string>, cardId: string): (r: Result<seq<seq<string>>, RegistryError>)
    ensures r.Ok? <==> forall i :: 0 <= i < |fields| ==> ListField(row, fields[i], cardId).Ok?
    ensures r.Ok? ==> |r.value| == |fields| && forall i :: 0 <= i < |fields| ==> ListField(row, fields[i], cardId) == Ok(r.value[i])
    ensures r.Err? ==> exists i :: 0 <= i < |fields| && ListField(row, fields[i], cardId) == Err(r.error)
                                   && forall j :: 0 <= j < i ==> ListField(row, fields[j], cardId).Ok?
  {
    var rs := seq(|fields|, i requires 0 <= i < |fields| => ListField(row, fields[i], cardId));
    assert forall i :: 0 <= i < |fields| ==> rs[i] == ListField(row, fields[i], cardId);
    AllOk(rs)
  }

  /**
   * The card of one validated entry: every string field stripped, the list
   * fields cleaned, `input_contract` cleaned, `metadata` copied, the
   * instruction text from the entry or its file.  Refusals come in the
   * order the source evaluates them: instruction file, then the list
   * fields, then `input_contract`, then `metadata`.
   */
  function BuildCard(row: seq<(string, Value)>, read: string -> Option<string>): (r: Result<ToolCard, RegistryError>)
    ensures r.Ok? ==> r.value.id == Field(row, "id")
  {
    var id := Field(row, "id");
    match InstructionText(row, id, read)
    case Err(e) => Err(e)
    case Ok(text) =>
      match ListValues(row, ListFields, id)
      case Err(e) => Err(e)
      case Ok(lists) =>
        match ToMapValue(GetOr(row, "input_contract", PyNone), "input_contract", id)
        case Err(e) => Err(e)
        case Ok(contract) =>
          match ToAnyMap(GetOr(row, "metadata", PyNone), "metadata", id)
          case Err(e) => Err(e)
          case Ok(metadata) =>
            Ok(ToolCard(id, Field(row, "title"), Field(row, "domain"), Field(row, "instruction_file"),
                        Field(row, "description"), lists[0], lists[1], lists[2], lists[3], lists[4],
                        lists[5], lists[6], lists[7], contract, Field(row, "risk_level"),
                        Field(row, "maturity"), metadata, text))
  }

  /**
   * A card is built exactly when its instruction text, every list field,
   * `input_contract` and `metadata` convert.
   */
  lemma BuildCardOk(row: seq<(string, Value)>, read: string -> Option<string>)
    ensures BuildCard(row, read).Ok? <==>
      && InstructionText(row, Field(row, "id"), read).Ok?
      && ListValues(row, ListFields, Field(row, "id")).Ok?
      && ToMapValue(GetOr(row, "input_contract", PyNone), "input_contract", Field(row, "id")).Ok?
      && ToAnyMap(GetOr(row, "metadata", PyNone), "metadata", Field(row, "id")).Ok?
  {
  }

  /** The stripped id of an entry. */
  function IdOf(row: seq<(string, Value)>): string {
    Field(row, "id")
  }

  /**
   * What the loader does with one entry, in the order it does it: check the
   * required fields (given the entry's index), take its id, build its card.
   */
  datatype EntryChecks = EntryChecks(
    validate: (seq<(string, Value)>, nat) -> Result<(), RegistryError>,
    idOf: seq<(string, Value)> -> string,
    build: seq<(string, Value)> -> Result<ToolCard, RegistryError>)

  /** The checks `load_registry` applies, with instruction files read by `read`. */
  function RegistryChecks(read: string -> Option<string>): (k: EntryChecks)
    ensures forall row, i :: k.validate(row, i) == ValidateRequired(row, Required, i)
    ensures forall row :: k.idOf(row) == IdOf(row) && k.build(row) == BuildCard(row, read)
  {
    EntryChecks((row: seq<(string, Value)>, i: nat) => ValidateRequired(row, Required, i), IdOf, row => BuildCard(row, read))
  }

  /** A card that is built carries the id the loader checked for duplicates. */
  ghost predicate IdsAgree(k: EntryChecks) {
    forall row :: k.build(row).Ok? ==> k.build(row).value.id == k.idOf(row)
  }

  /** The registry's checks agree on ids: a built card's id is the entry's stripped id. */
  lemma RegistryChecksAgree(read: string -> Option<string>)
    ensures IdsAgree(RegistryChecks(read))
  {
    var k := RegistryChecks(read);
    forall row | k.build(row).Ok? ensures k.build(row).value.id == k.idOf(row) {
      assert k.build(row) == BuildCard(row, read);
    }
  }

  /** Entry `i` repeats the id of an earlier entry. */
  predicate RepeatsId(entries: seq<seq<(string, Value)>>, i: nat, k: EntryChecks)
    requires i < |entries|
  {
    exists j :: 0 <= j < i && k.idOf(entries[j]) == k.idOf(entries[i])
  }

  /** Entry `i` is accepted: its required fields are present, its id is new, and its card can be built. */
  predicate EntryAccepted(entries: seq<seq<(string, Value)>>, i: nat, k: EntryChecks)
    requires i < |entries|
  {
    && k.validate(entries[i], i).Ok?
    && !RepeatsId(entries, i, k)
    && k.build(entries[i]).Ok?
  }

  /** Why entry `i` is refused, in the order the loader checks. */
  function EntryError(entries: seq<seq<(string, Value)>>, i: nat, k: EntryChecks): RegistryError
    requires i < |entries| && !EntryAccepted(entries, i, k)
  {
    var row := entries[i];
    if k.validate(row, i).Err? then k.validate(row, i).error
    else if RepeatsId(entries, i, k) then DuplicateId(k.idOf(row))
    else k.build(row).error
  }

  /**
   * What the loop of `load_registry` yields: the error of the first refused
   * entry, or one card per entry, built from it, with pairwise distinct ids
   * when the checks agree on ids.
   */
  function LoadedCards(entries: seq<seq<(string, Value)>>, k: EntryChecks): (r: Result<seq<ToolCard>, RegistryError>)
    ensures r.Ok? <==> forall i :: 0 <= i < |entries| ==> EntryAccepted(entries, i, k)
    ensures r.Ok? ==> |r.value| == |entries| && forall i :: 0 <= i < |entries| ==> k.build(entries[i]) == Ok(r.value[i])
    ensures r.Err? ==> exists i :: 0 <= i < |entries| && !EntryAccepted(entries, i, k)
                                   && (forall j :: 0 <= j < i ==> EntryAccepted(entries, j, k))
                                   && r.error == EntryError(entries, i, k)
  {
    var accepted := seq(|entries|, i requires 0 <= i < |entries| => EntryAccepted(entries, i, k));
    assert forall i :: 0 <= i < |entries| ==> accepted[i] == EntryAccepted(entries, i, k);
    var refused := FirstFalse(accepted, 0);
    if refused.Some? then Err(EntryError(entries, refused.value, k))
    else
      assert forall i :: 0 <= i < |entries| ==> k.build(entries[i]).Ok? by {
        forall i | 0 <= i < |entries| ensures k.build(entries[i]).Ok? {
          assert accepted[i];
        }
      }
      var cards := seq(|entries|, i requires 0 <= i < |entries| && k.build(entries[i]).Ok? => k.build(entries[i]).value);
      assert forall i :: 0 <= i < |entries| ==> k.build(entries[i]) == Ok(cards[i]);
      Ok(cards)
  }

  /** When the checks agree on ids, the loaded cards have pairwise distinct ids. */
  lemma LoadedCardsDistinct(entries: seq<seq<(string, Value)>>, k: EntryChecks)
    requires IdsAgree(k) && LoadedCards(entries, k).Ok?
    ensures var cards := LoadedCards(entries, k).value;
      forall i, j :: 0 <= i < j < |cards| ==> cards[i].id != cards[j].id
  {
    forall j | 0 <= j < |entries| ensures !RepeatsId(entries, j, k) {
      assert EntryAccepted(entries, j, k);
    }
    DistinctIds(entries, LoadedCards(entries, k).value, k);
  }

  /** An entry refused after accepted ones only is the one `LoadedCards` reports. */
  lemma FirstRefused(entries: seq<seq<(string, Value)>>, k: EntryChecks, i: nat)
    requires i < |entries| && !EntryAccepted(entries, i, k)
    requires forall j :: 0 <= j < i ==> EntryAccepted(entries, j, k)
    ensures LoadedCards(entries, k) == Err(EntryError(entries, i, k))
  {
    var flags := seq(|entries|, j requires 0 <= j < |entries| => EntryAccepted(entries, j, k));
    assert forall j :: 0 <= j < |entries| ==> flags[j] == EntryAccepted(entries, j, k);
  }

  /** When every entry is accepted, `LoadedCards` yields exactly the built cards. */
  lemma AllAccepted(entries: seq<seq<(string, Value)>>, k: EntryChecks, cards: seq<ToolCard>)
    requires |cards| == |entries|
    requires forall j :: 0 <= j < |entries| ==> EntryAccepted(entries, j, k)
    requires forall j :: 0 <= j < |entries| ==> k.build(entries[j]) == Ok(cards[j])
    ensures LoadedCards(entries, k) == Ok(cards)
  {
    var r := LoadedCards(entries, k);
    assert r.Ok?;
    forall j | 0 <= j < |entries| ensures r.value[j] == cards[j] {
      assert k.build(entries[j]) == Ok(r.value[j]);
    }
    assert r.value == cards;
  }

  /**
   * The loop of `load_registry`: the whole registry is refused at the first
   * entry that is invalid, repeats an earlier id, or cannot be built, with
   * that entry's error; otherwise there is one card per entry, in entry
   * order, and the ids are pairwise distinct.
   */
  method LoadEntries(entries: seq<seq<(string, Value)>>, k: EntryChecks) returns (r: Result<seq<ToolCard>, RegistryError>)
    requires IdsAgree(k)
    ensures r == LoadedCards(entries, k)
    ensures r.Ok? <==> forall i :: 0 <= i < |entries| ==> EntryAccepted(entries, i, k)
    ensures r.Ok? ==> |r.value| == |entries|
    ensures r.Ok? ==> forall i :: 0 <= i < |entries| ==> k.build(entries[i]) == Ok(r.value[i])
    ensures r.Ok? ==> forall i, j :: 0 <= i < j < |r.value| ==> r.value[i].id != r.value[j].id
    ensures r.Err? ==> exists i :: 0 <= i < |entries| && !EntryAccepted(entries, i, k)
                                   && (forall j :: 0 <= j < i ==> EntryAccepted(entries, j, k))
                                   && r.error == EntryError(entries, i, k)
  {
    var cards: seq<ToolCard> := [];
    var seen: set<string> := {};
    for idx := 0 to |entries|
      invariant |cards| == idx
      invariant forall j :: 0 <= j < idx ==> k.idOf(entries[j]) in seen
      invariant forall x :: x in seen ==> exists j :: 0 <= j < idx && k.idOf(entries[j]) == x
      invariant forall j :: 0 <= j < idx ==> EntryAccepted(entries, j, k)
      invariant forall j :: 0 <= j < idx ==> k.build(entries[j]) == Ok(cards[j])
    {
      var row := entries[idx];
      var valid := k.validate(row, idx);
      if valid.Err? {
        assert !EntryAccepted(entries, idx, k);
        FirstRefused(entries, k, idx);
        return Err(valid.error);
      }
      var cardId := k.idOf(row);
      if cardId in seen {
        assert RepeatsId(entries, idx, k);
        assert !EntryAccepted(entries, idx, k);
        FirstRefused(entries, k, idx);
        return Err(DuplicateId(cardId));
      }
      seen := seen + {cardId};
      var card := k.build(row);
      if card.Err? {
        assert !EntryAccepted(entries, idx, k);
        FirstRefused(entries, k, idx);
        return Err(card.error);
      }
      cards := cards + [card.value];
    }
    forall j | 0 <= j < |entries| ensures !RepeatsId(entries, j, k) {
      assert EntryAccepted(entries, j, k);
    }
    DistinctIds(entries, cards, k);
    AllAccepted(entries, k, cards);
    return Ok(cards);
  }

  /** Accepted entries give cards with pairwise distinct ids. */
  lemma DistinctIds(entries: seq<seq<(string, Value)>>, cards: seq<ToolCard>, k: EntryChecks)
    requires IdsAgree(k) && |cards| == |entries|
    requires forall j :: 0 <= j < |entries| ==> !RepeatsId(entries, j, k)
    requires forall j :: 0 <= j < |entries| ==> k.build(entries[j]) == Ok(cards[j])
    ensures forall i, j :: 0 <= i < j < |cards| ==> cards[i].id != cards[j].id
  {
    forall i, j | 0 <= i < j < |cards| ensures cards[i].id != cards[j].id {
      assert !RepeatsId(entries, j, k);
      assert cards[i].id == k.idOf(entries[i]) && cards[j].id == k.idOf(entries[j]);
    }
  }

  /**
   * What `load_registry` yields: a missing file, an unsupported suffix, a
   * bad top level and a non-object entry are refused in that order; then
   * the first refused entry's error, or one card per entry.  A registry
   * loads exactly when the file exists, its format is supported, its
   * entries are selected, all of them are objects and all are accepted.
   */
  function ExpectedLoad(path: string, fileExists: bool, raw: Value, read: string -> Option<string>)
    : (r: Result<seq<ToolCard>, RegistryError>)
    ensures r.Ok? <==>
      && fileExists && StructuredFormat(path).Ok? && SelectEntries(raw).Ok?
      && AllObjects(SelectEntries(raw).value, |SelectEntries(raw).value|)
      && forall i :: 0 <= i < |SelectEntries(raw).value| ==> EntryAccepted(Rows(SelectEntries(raw).value), i, RegistryChecks(read))
    ensures r.Ok? ==>
      && |r.value| == |SelectEntries(raw).value|
      && (forall i :: 0 <= i < |r.value| ==>
            SelectEntries(raw).value[i].PyDict? && BuildCard(SelectEntries(raw).value[i].entries, read) == Ok(r.value[i]))
      && (forall i, j :: 0 <= i < j < |r.value| ==> r.value[i].id != r.value[j].id)
  {
    if !fileExists then Err(RegistryNotFound(path))
    else if StructuredFormat(path).Err? then Err(StructuredFormat(path).error)
    else if ExpectedEntries(raw).Err? then Err(ExpectedEntries(raw).error)
    else
      var loaded := LoadedCards(ExpectedEntries(raw).value, RegistryChecks(read));
      if loaded.Ok? then
        RegistryChecksAgree(read);
        LoadedCardsDistinct(ExpectedEntries(raw).value, RegistryChecks(read));
        loaded
      else loaded
  }

  /**
   * `load_registry(path, validate_schema=False)`: a missing registry file is
   * refused first, then an unsupported suffix; `raw` stands for the parsed
   * document.  The entries are then selected and loaded, and on success
   * there is one card per entry, each the card built from that entry, with
   * pairwise distinct ids.
   */
  method LoadRegistry(path: string, fileExists: bool, raw: Value, read: string -> Option<string>)
    returns (r: Result<seq<ToolCard>, RegistryError>)
    ensures r == ExpectedLoad(path, fileExists, raw, read)
    ensures !fileExists ==> r == Err(RegistryNotFound(path))
    ensures fileExists && StructuredFormat(path).Err? ==> r == Err(StructuredFormat(path).error)
    ensures fileExists && StructuredFormat(path).Ok? && SelectEntries(raw).Err? ==> r == Err(SelectEntries(raw).error)
    ensures r.Ok? ==>
      && fileExists && StructuredFormat(path).Ok? && SelectEntries(raw).Ok?
      && |r.value| == |SelectEntries(raw).value|
      && (forall i :: 0 <= i < |r.value| ==>
            SelectEntries(raw).value[i].PyDict? && BuildCard(SelectEntries(raw).value[i].entries, read) == Ok(r.value[i]))
      && (forall i, j :: 0 <= i < j < |r.value| ==> r.value[i].id != r.value[j].id)
  {
    if !fileExists {
      return Err(RegistryNotFound(path));
    }
    var format := StructuredFormat(path);
    if format.Err? {
      return Err(format.error);
    }
    var entries := NormalizeEntries(raw);
    if entries.Err? {
      return Err(entries.error);
    }
    var checks := RegistryChecks(read);
    RegistryChecksAgree(read);
    r := LoadEntries(entries.value, checks);
  }
}
