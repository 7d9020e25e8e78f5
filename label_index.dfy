/**
 * The label index map of `Classifier.__init__` (model.py:27-31): every distinct
 * `common_name` gets a dense integer id in order of first occurrence, and every
 * record is mapped to the id of its name.
 */
module LabelIndex {

  ghost predicate NoDuplicates(u: seq<string>)
  {
    forall i, j :: 0 <= i < j < |u| ==> u[i] != u[j]
  }

  /** Index of the first occurrence of `x` in `s`. */
  function FirstIndex(s: seq<string>, x: string): (k: nat)
    requires x in s
    ensures k < |s| && s[k] == x
    ensures forall i :: 0 <= i < k ==> s[i] != x
  {
    if s[0] == x then 0 else 1 + FirstIndex(s[1..], x)
  }

  /** The distinct names of `s` in order of first occurrence (pandas' `Series.unique`). */
  function Unique(s: seq<string>): (u: seq<string>)
    ensures forall x :: x in u <==> x in s
    ensures NoDuplicates(u)
  {
    if s == [] then []
    else
      var prefix := Unique(s[..|s| - 1]);
      if s[|s| - 1] in prefix then prefix else prefix + [s[|s| - 1]]
  }

  /**
   * The dictionary comprehension `{k: v for v, k in enumerate(u)}`: entries are written
   * in enumeration order, a later write to the same key replacing an earlier one.
   */
  function Enumerate(u: seq<string>): (ids: map<string, nat>)
    ensures ids.Keys == set x | x in u
    ensures NoDuplicates(u) ==> forall i :: 0 <= i < |u| ==> ids[u[i]] == i
  {
    if u == [] then map[]
    else Enumerate(u[..|u| - 1])[u[|u| - 1] := |u| - 1]
  }

  /** A Python dict from label name to id: `keys` is its insertion order. */
  datatype LabelMap = LabelMap(keys: seq<string>, ids: map<string, nat>)

  /**
   * `self.id_class` (model.py:29): the map holds exactly the names of the column, and the
   * name at insertion position `i` has id `i` (see IdClassIsBijection for the converse).
   */
  function IdClass(names: seq<string>): (m: LabelMap)
    ensures forall x :: x in m.keys <==> x in names
    ensures m.ids.Keys == set x | x in m.keys
    ensures forall i :: 0 <= i < |m.keys| ==> m.keys[i] in m.ids && m.ids[m.keys[i]] == i
  {
    var u := Unique(names);
    LabelMap(u, Enumerate(u))
  }

  /**
   * `self.labels` (model.py:30): each record's name replaced by its id. Every label lies
   * in [0, k) and decodes back to the record's name through the insertion-ordered keys.
   */
  function Labels(names: seq<string>): (labels: seq<nat>)
    ensures |labels| == |names|
    ensures forall i :: 0 <= i < |names| ==>
      labels[i] < |IdClass(names).keys| && IdClass(names).keys[labels[i]] == names[i]
  {
    var m := IdClass(names);
    IdClassIsBijection(names);
    seq(|names|, i requires 0 <= i < |names| => m.ids[names[i]])
  }

  /** Both directions of the bijection between the keys (in insertion order) and 0..k-1. */
  ghost predicate IsBijection(m: LabelMap)
  {
    && m.ids.Keys == set x | x in m.keys
    && NoDuplicates(m.keys)
    && (forall i :: 0 <= i < |m.keys| ==> m.keys[i] in m.ids && m.ids[m.keys[i]] == i)
    && (forall x :: x in m.ids ==> m.ids[x] < |m.keys| && m.keys[m.ids[x]] == x)
  }

  /**
   * The map built at model.py:29 holds exactly the names that occur, ids are exactly
   * 0..k-1, no two names share an id, and indexing the insertion-ordered keys by an id
   * gives back its name (the lookup of model.py:170-171).
   */
  lemma IdClassIsBijection(names: seq<string>)
    ensures var m := IdClass(names);
      && IsBijection(m)
      && (forall x :: x in m.ids <==> x in names)
      && (forall x, y :: x in m.ids && y in m.ids && m.ids[x] == m.ids[y] ==> x == y)
      && (forall v :: v in m.ids.Values <==> 0 <= v < |m.keys|)
  {
    IdsDecode(names);
    IdsOnto(names);
    assert NoDuplicates(IdClass(names).keys);
  }

  /** Every id indexes the insertion-ordered keys at its own name. */
  lemma IdsDecode(names: seq<string>)
    ensures var m := IdClass(names);
      forall x :: x in m.ids ==> m.ids[x] < |m.keys| && m.keys[m.ids[x]] == x
  {
    var m := IdClass(names);
    forall x | x in m.ids
      ensures m.ids[x] < |m.keys| && m.keys[m.ids[x]] == x
    {
      var i :| 0 <= i < |m.keys| && m.keys[i] == x;
    }
  }

  /** The ids in use are exactly 0..k-1. */
  lemma IdsOnto(names: seq<string>)
    ensures var m := IdClass(names);
      forall v :: v in m.ids.Values <==> 0 <= v < |m.keys|
  {
    var m := IdClass(names);
    IdsDecode(names);
    forall v | v in m.ids.Values
      ensures 0 <= v < |m.keys|
    {
      var x :| x in m.ids && m.ids[x] == v;
    }
    forall v | 0 <= v < |m.keys|
      ensures v in m.ids.Values
    {
      assert m.ids[m.keys[v]] == v;
    }
  }

  /** Ids are handed out in order of first occurrence in the data. */
  lemma {:induction false} UniqueFirstOccurrenceOrder(s: seq<string>, i: nat, j: nat)
    requires i < j < |Unique(s)|
    ensures FirstIndex(s, Unique(s)[i]) < FirstIndex(s, Unique(s)[j])
  {
    var p := s[..|s| - 1];
    var x := s[|s| - 1];
    assert s == p + [x];
    var u := Unique(s);
    FirstIndexExtend(p, x, u[i]);
    if x in Unique(p) {
      UniqueFirstOccurrenceOrder(p, i, j);
      FirstIndexExtend(p, x, u[j]);
    } else if j < |Unique(p)| {
      UniqueFirstOccurrenceOrder(p, i, j);
      FirstIndexExtend(p, x, u[j]);
    } else {
      assert u[j] == x && x !in p;
      assert FirstIndex(s, x) == |p|;
    }
  }

  lemma FirstIndexExtend(p: seq<string>, x: string, y: string)
    requires y in p
    ensures FirstIndex(p + [x], y) == FirstIndex(p, y)
  {
    var k := FirstIndex(p + [x], y);
    var k' := FirstIndex(p, y);
    assert (p + [x])[k'] == y;
    assert forall i :: 0 <= i < |p| ==> (p + [x])[i] == p[i];
  }

  /** The object built by `Classifier.__init__` (model.py:27-31); `df` is reduced to its `common_name` column. */
  class Classifier {
    var names: seq<string>
    var idClass: LabelMap
    var labels: seq<nat>

    constructor (names: seq<string>)
      ensures this.names == names
      ensures idClass == IdClass(names) && IsBijection(idClass)
      ensures idClass.ids.Keys == set x | x in names
      ensures |labels| == |names|
      ensures forall i :: 0 <= i < |names| ==>
        labels[i] < |idClass.keys| && idClass.keys[labels[i]] == names[i]
    {
      IdClassIsBijection(names);
      this.idClass := IdClass(names);
      this.labels := Labels(names);
      this.names := names;
    }
  }
}
