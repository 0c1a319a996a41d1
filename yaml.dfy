/** The configuration descriptors handed to the stages: YAML documents built from
    nested dictionaries, lists and scalars (serialisation itself is not modelled). */
module Yaml {
  import opened Wrappers

  datatype Yaml =
    | YStr(s: string)
    | YInt(i: int)
    | YBool(b: bool)
    | YList(items: seq<Yaml>)
    | YMap(entries: seq<(string, Yaml)>)

  /** The value stored under `key` in an entry list (Python dict keys are unique, so the first hit is the only one). */
  function Lookup(entries: seq<(string, Yaml)>, key: string): Option<Yaml>
  {
    if entries == [] then None
    else if entries[0].0 == key then Some(entries[0].1)
    else Lookup(entries[1..], key)
  }

  /** A key is found exactly when some entry carries it, and what is found is stored
      under it. */
  lemma {:induction false} LookupFinds(entries: seq<(string, Yaml)>, key: string)
    ensures Lookup(entries, key).Some? <==> exists k :: 0 <= k < |entries| && entries[k].0 == key
    ensures Lookup(entries, key).Some? ==> exists k :: 0 <= k < |entries| && entries[k] == (key, Lookup(entries, key).value)
  {
    if entries != [] && entries[0].0 != key {
      LookupFinds(entries[1..], key);
      assert forall k :: 1 <= k < |entries| ==> entries[1..][k - 1] == entries[k];
      if exists k :: 0 <= k < |entries| && entries[k].0 == key {
        var k :| 0 <= k < |entries| && entries[k].0 == key;
        assert entries[1..][k - 1].0 == key;
      }
    }
  }

  /** In an entry list, the entry at position `k` is found when no earlier entry has
      its key. */
  lemma {:induction false} LookupAt(entries: seq<(string, Yaml)>, k: nat)
    requires k < |entries|
    requires forall j :: 0 <= j < k ==> entries[j].0 != entries[k].0
    ensures Lookup(entries, entries[k].0) == Some(entries[k].1)
  {
    if k > 0 {
      assert entries[1..][k - 1] == entries[k];
      LookupAt(entries[1..], k - 1);
    }
  }

  /** A key that no entry carries is not found. */
  lemma {:induction false} LookupAbsent(entries: seq<(string, Yaml)>, key: string)
    requires forall j :: 0 <= j < |entries| ==> entries[j].0 != key
    ensures Lookup(entries, key) == None
  {
    if entries != [] {
      assert forall j :: 0 <= j < |entries| - 1 ==> entries[1..][j] == entries[j + 1];
      LookupAbsent(entries[1..], key);
    }
  }

  /** `doc[key]`, or None when `doc` is no dictionary or lacks the key (a KeyError in the source). */
  function Get(doc: Yaml, key: string): Option<Yaml>
  {
    match doc
    case YMap(entries) => Lookup(entries, key)
    case _ => None
  }

  /** `doc[k1][k2]...`. */
  function GetPath(doc: Yaml, keys: seq<string>): Option<Yaml>
    decreases |keys|
  {
    if keys == [] then Some(doc)
    else
      match Get(doc, keys[0])
      case None => None
      case Some(v) => GetPath(v, keys[1..])
  }

  /** A two-step path is two lookups. */
  lemma GetPathTwo(doc: Yaml, k1: string, k2: string)
    ensures GetPath(doc, [k1, k2]) == (if Get(doc, k1).Some? then Get(Get(doc, k1).value, k2) else None)
  {
    var ks := [k1, k2];
    assert ks[0] == k1 && ks[1..] == [k2];
    if Get(doc, k1).Some? {
      var v := Get(doc, k1).value;
      assert GetPath(doc, ks) == GetPath(v, [k2]);
      assert [k2][0] == k2 && [k2][1..] == [];
      if Get(v, k2).Some? {
        assert GetPath(Get(v, k2).value, []) == Get(v, k2);
      }
    }
  }

  /** `doc[k1][k2]` when it holds a string. */
  function GetString(doc: Yaml, keys: seq<string>): Option<string>
  {
    match GetPath(doc, keys)
    case Some(YStr(s)) => Some(s)
    case _ => None
  }

  /** The top-level names of a descriptor document, in order. */
  function TopKeys(doc: Yaml): seq<string>
  {
    match doc
    case YMap(entries) => seq(|entries|, k requires 0 <= k < |entries| => entries[k].0)
    case _ => []
  }

  /** Every stage section whose `depends_on` names another section names an existing
      stage: a top-level key that is neither `global` nor the stage itself. */
  predicate DependenciesResolve(doc: Yaml)
  {
    doc.YMap? &&
    forall k :: 0 <= k < |doc.entries| ==>
      match Get(doc.entries[k].1, "depends_on")
      case Some(YStr(d)) =>
        d != "global" && d != doc.entries[k].0 && d in TopKeys(doc)
      case Some(_) => false
      case None => true
  }
}
