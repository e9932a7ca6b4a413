/**
 The values the emitter puts on the wire, as PHP sees them before encoding:
 scalars and ordered arrays of (key, value) entries. A PHP array keeps its
 insertion order, and a PHP "list" is an array whose keys are 0, 1, 2, ... in
 that order; both encoders of the emitter write a list as a sequence and any
 other array as a map, so the key order below is the field order on the wire.
 */
module Values {
  import opened Wrappers

  /** A PHP array key: an integer or a string. */
  datatype Key = IntKey(i: int) | StrKey(s: string)

  /** A PHP value the emitter can pass to its encoders (no floats, no objects). */
  datatype Value =
    | Null
    | Bool(b: bool)
    | Int(i: int)
    | Str(s: string)
    | Arr(entries: seq<(Key, Value)>)

  /** The entry `key => v` of an array literal with a string key. */
  function Entry(key: string, v: Value): (Key, Value)
  {
    (StrKey(key), v)
  }

  /** True iff the entries are keyed 0, 1, 2, ... in order, as in a PHP list. */
  predicate IsList(entries: seq<(Key, Value)>)
  {
    forall i :: 0 <= i < |entries| ==> entries[i].0 == IntKey(i)
  }

  /** The items of `v` when it is a list, in order. */
  function AsList(v: Value): (r: Option<seq<Value>>)
    ensures r.Some? <==> v.Arr? && IsList(v.entries)
    ensures r.Some? ==> |r.value| == |v.entries|
                        && forall i :: 0 <= i < |r.value| ==> v.entries[i] == (IntKey(i), r.value[i])
  {
    if v.Arr? && IsList(v.entries) then
      Some(seq(|v.entries|, i requires 0 <= i < |v.entries| => v.entries[i].1))
    else
      None
  }

  /** The PHP list `[items[0], items[1], ...]`. */
  function ListOf(items: seq<Value>): (v: Value)
    ensures AsList(v) == Some(items)
  {
    var v := Arr(seq(|items|, i requires 0 <= i < |items| => (IntKey(i), items[i])));
    assert IsList(v.entries);
    assert AsList(v).value == items;
    v
  }

  /** A list is determined by its items: `AsList` accepts exactly the values `ListOf` builds. */
  lemma AsListOnlyOfLists(v: Value, items: seq<Value>)
    requires AsList(v) == Some(items)
    ensures v == ListOf(items)
  {
  }

  /** The strings of `v` when it is a list of strings, in order. */
  function AsStrings(v: Value): (r: Option<seq<string>>)
    ensures r.Some? ==> AsList(v).Some? && |r.value| == |AsList(v).value|
    ensures r.Some? ==> forall i :: 0 <= i < |r.value| ==> AsList(v).value[i] == Str(r.value[i])
  {
    match AsList(v)
    case None => None
    case Some(items) =>
      if forall i :: 0 <= i < |items| ==> items[i].Str? then
        Some(seq(|items|, i requires 0 <= i < |items| && items[i].Str? => items[i].s))
      else
        None
  }

  /** The PHP list of strings `[names[0], names[1], ...]`, as a room list is passed. */
  function StringList(names: seq<string>): (v: Value)
    ensures AsStrings(v) == Some(names)
  {
    var items := seq(|names|, i requires 0 <= i < |names| => Str(names[i]));
    var v := ListOf(items);
    assert forall i :: 0 <= i < |items| ==> items[i].Str?;
    assert AsStrings(v).value == names;
    v
  }

  /** An empty room list stays an empty list: `[]`, not a missing value. */
  lemma EmptyStringList()
    ensures StringList([]) == Arr([])
    ensures AsStrings(Arr([])) == Some([])
  {
  }

  /** A list of strings is determined by its strings. */
  lemma AsStringsOnlyOfStringLists(v: Value, names: seq<string>)
    requires AsStrings(v) == Some(names)
    ensures v == StringList(names)
  {
  }

  /** The keys of an array, in order; a scalar has none. */
  function KeysOf(v: Value): (ks: seq<Key>)
    ensures |ks| == (if v.Arr? then |v.entries| else 0)
    ensures v.Arr? ==> forall i :: 0 <= i < |ks| ==> ks[i] == v.entries[i].0
  {
    if v.Arr? then seq(|v.entries|, i requires 0 <= i < |v.entries| => v.entries[i].0) else []
  }

  /** `entries[key]`: the value stored under `key`, found from the front. */
  function Lookup(entries: seq<(Key, Value)>, key: Key): (r: Option<Value>)
    ensures r.None? <==> forall i :: 0 <= i < |entries| ==> entries[i].0 != key
    ensures forall i :: (0 <= i < |entries| && entries[i].0 == key
                         && forall j :: 0 <= j < i ==> entries[j].0 != key) ==> r == Some(entries[i].1)
  {
    if |entries| == 0 then None
    else if entries[0].0 == key then Some(entries[0].1)
    else
      var r := Lookup(entries[1..], key);
      assert forall i :: 1 <= i < |entries| ==> entries[i] == entries[1..][i - 1];
      r
  }

  /** True iff no two entries share a key, as in every PHP array. */
  predicate DistinctKeys(entries: seq<(Key, Value)>)
  {
    forall i, j :: 0 <= i < j < |entries| ==> entries[i].0 != entries[j].0
  }

  /** In an array without repeated keys, looking up an entry's key finds that entry. */
  lemma LookupDistinct(entries: seq<(Key, Value)>)
    requires DistinctKeys(entries)
    ensures forall i :: 0 <= i < |entries| ==> Lookup(entries, entries[i].0) == Some(entries[i].1)
  {
  }

  /** `$v[$key]` for a string key: the field `key` of an array, if present. */
  function Field(v: Value, key: string): (r: Option<Value>)
  {
    if v.Arr? then Lookup(v.entries, StrKey(key)) else None
  }
}
