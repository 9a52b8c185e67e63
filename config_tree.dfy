/** The configuration tree of the plugin (a commented configuration node of the
    configuration library), flattened to a map from key paths to leaf values.

    A node is "virtual" in the library when it holds no value; here that is a
    path that is not a key of the map. */
module ConfigTree {
  import opened Wrappers

  /** A key path such as ["sounds", "respawn", "enabled"]. */
  type Path = seq<string>

  /** A leaf value. Volumes are Java doubles; `real` is only a carrier for them
      and no arithmetic is done on it. */
  datatype Value = B(b: bool) | S(s: string) | Num(x: real)

  /** One (path, default value) pair of the defaulting pass. */
  datatype Entry = Entry(path: Path, value: Value)

  type Tree = map<Path, Value>

  /** The text a present value reads as through getString(): a string is
      itself, a boolean its Java spelling. The text form of a double is not
      modelled and reads as absent. */
  function StringOf(v: Value): (r: Option<string>)
    ensures v.S? ==> r == Some(v.s)
    ensures v.B? ==> r.Some? && (r.value == "true" <==> v.b)
  {
    match v
    case S(s) => Some(s)
    case B(b) => Some(if b then "true" else "false")
    case Num(_) => None
  }

  /** getString() with no default: absent nodes give Java's null. */
  function GetString(t: Tree, p: Path): (r: Option<string>)
    ensures p !in t ==> r == None
    ensures p in t && t[p].S? ==> r == Some(t[p].s)
  {
    if p in t then StringOf(t[p]) else None
  }

  /** getString(def): the value's text when the node holds a value, otherwise
      the caller's default. */
  function GetStringOr(t: Tree, p: Path, default: Option<string>): (r: Option<string>)
    ensures p !in t ==> r == default
    ensures p in t && t[p].S? ==> r == Some(t[p].s)
    ensures p in t ==> r == GetString(t, p)
  {
    if p in t then StringOf(t[p]) else default
  }

  /** getBoolean(): false unless the node holds a boolean. */
  function GetBoolean(t: Tree, p: Path): (r: bool)
    ensures r <==> p in t && t[p] == B(true)
  {
    p in t && t[p].B? && t[p].b
  }

  /** getDouble(): 0.0 unless the node holds a number. */
  function GetDouble(t: Tree, p: Path): (r: real)
    ensures p in t && t[p].Num? ==> r == t[p].x
    ensures (p !in t || !t[p].Num?) ==> r == 0.0
  {
    if p in t && t[p].Num? then t[p].x else 0.0
  }

  /** "Set if absent" for one entry: the isVirtual test and setValue call of
      the defaulting pass. */
  function SetIfAbsent(t: Tree, e: Entry): (r: Tree)
    ensures r.Keys == t.Keys + {e.path}
    ensures forall p :: p in t ==> r[p] == t[p]
    ensures e.path !in t ==> r[e.path] == e.value
  {
    if e.path in t then t else t[e.path := e.value]
  }

  /** The tree after the defaulting pass has run over the entries of `ds` in
      order (specification of ConfigNode.SaveDefaults). */
  function Fill(t: Tree, ds: seq<Entry>): (r: Tree)
    ensures t.Keys <= r.Keys
  {
    if ds == [] then t else SetIfAbsent(Fill(t, ds[..|ds| - 1]), ds[|ds| - 1])
  }

  /** The paths a table of defaults mentions. */
  function Paths(ds: seq<Entry>): set<Path>
  {
    set i | 0 <= i < |ds| :: ds[i].path
  }

  /** No path occurs twice in the table. */
  predicate DistinctPaths(ds: seq<Entry>)
  {
    forall i, j :: 0 <= i < j < |ds| ==> ds[i].path != ds[j].path
  }

  lemma PathsOfPrefix(ds: seq<Entry>)
    requires ds != []
    ensures Paths(ds) == Paths(ds[..|ds| - 1]) + {ds[|ds| - 1].path}
  {
  }

  /** After the pass, exactly the old keys and the table's paths are present:
      every default path is there, and no other path is added. */
  lemma {:induction false} FillKeys(t: Tree, ds: seq<Entry>)
    ensures Fill(t, ds).Keys == t.Keys + Paths(ds)
  {
    if ds != [] {
      FillKeys(t, ds[..|ds| - 1]);
      PathsOfPrefix(ds);
    }
  }

  /** A value that was present before the pass is unchanged by it. */
  lemma {:induction false} FillKeepsPresent(t: Tree, ds: seq<Entry>, p: Path)
    requires p in t
    ensures p in Fill(t, ds) && Fill(t, ds)[p] == t[p]
  {
    if ds != [] {
      FillKeepsPresent(t, ds[..|ds| - 1], p);
    }
  }

  /** A path the table does not mention is untouched: present with the same
      value, or absent as before. */
  lemma FillLeavesOthers(t: Tree, ds: seq<Entry>, p: Path)
    requires p !in Paths(ds)
    ensures p in Fill(t, ds) <==> p in t
    ensures p in t ==> Fill(t, ds)[p] == t[p]
  {
    FillKeys(t, ds);
    if p in t { FillKeepsPresent(t, ds, p); }
  }

  /** A table path that was absent receives its default. */
  lemma {:induction false} FillGivesDefault(t: Tree, ds: seq<Entry>, i: nat)
    requires DistinctPaths(ds)
    requires i < |ds| && ds[i].path !in t
    ensures ds[i].path in Fill(t, ds) && Fill(t, ds)[ds[i].path] == ds[i].value
  {
    var n := |ds| - 1;
    var prefix := ds[..n];
    assert DistinctPaths(prefix) by {
      forall a, b | 0 <= a < b < |prefix| ensures prefix[a].path != prefix[b].path {
        assert prefix[a] == ds[a] && prefix[b] == ds[b];
      }
    }
    if i < n {
      assert prefix[i] == ds[i];
      FillGivesDefault(t, prefix, i);
      assert ds[n].path != ds[i].path;
    } else {
      FillKeys(t, prefix);
      assert ds[i].path !in Fill(t, prefix);
    }
  }

  /** On a tree that already holds every table path the pass changes nothing. */
  lemma {:induction false} FillOnCompleteIsIdentity(t: Tree, ds: seq<Entry>)
    requires Paths(ds) <= t.Keys
    ensures Fill(t, ds) == t
  {
    if ds != [] {
      PathsOfPrefix(ds);
      FillOnCompleteIsIdentity(t, ds[..|ds| - 1]);
    }
  }

  /** Running the pass a second time leaves the tree identical. */
  lemma FillIdempotent(t: Tree, ds: seq<Entry>)
    ensures Fill(Fill(t, ds), ds) == Fill(t, ds)
  {
    FillKeys(t, ds);
    FillOnCompleteIsIdentity(Fill(t, ds), ds);
  }

  /** The root node of the configuration, updated in place by the defaulting
      pass. */
  class ConfigNode {
    var entries: Tree

    constructor (loaded: Tree)
      ensures entries == loaded
    {
      entries := loaded;
    }

    /** For each entry of `ds` in order: if its path is virtual, set its
        default value. */
    method SaveDefaults(ds: seq<Entry>)
      modifies this
      ensures entries == Fill(old(entries), ds)
      ensures entries.Keys == old(entries).Keys + Paths(ds)
      ensures forall p :: p in old(entries) ==> entries[p] == old(entries)[p]
      ensures Paths(ds) <= old(entries).Keys ==> entries == old(entries)
    {
      ghost var original := entries;
      var i := 0;
      while i < |ds|
        invariant 0 <= i <= |ds|
        invariant entries == Fill(original, ds[..i])
      {
        var e := ds[i];
        if e.path !in entries {
          entries := entries[e.path := e.value];
        }
        assert ds[..i + 1][..i] == ds[..i];
        i := i + 1;
      }
      assert ds[..i] == ds;
      FillKeys(original, ds);
      forall p | p in original ensures entries[p] == original[p] {
        FillKeepsPresent(original, ds, p);
      }
      if Paths(ds) <= original.Keys {
        FillOnCompleteIsIdentity(original, ds);
      }
    }
  }
}
