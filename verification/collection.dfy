/** The three operations the content store offers on each of its four
    collections (schedules, announcements, products, offer categories): append
    a new record under a generated id, filter a record out by id, and merge a
    patch into the records with a given id. They are written once, for any
    record type, and the store instantiates them four times. */
module Collection {
  import opened Wrappers
  import opened Records

  /** The ids of a collection, in order. */
  function Ids<V>(rs: seq<Keyed<V>>): (ids: seq<Id>)
    ensures |ids| == |rs|
    ensures forall i :: 0 <= i < |rs| ==> ids[i] == rs[i].id
  {
    seq(|rs|, i requires 0 <= i < |rs| => rs[i].id)
  }

  /** No two records share an id. */
  ghost predicate Distinct<V>(rs: seq<Keyed<V>>) {
    forall i, j :: 0 <= i < j < |rs| ==> rs[i].id != rs[j].id
  }

  /** `[...rs, { ...fields, id: newId }]`. The id is generated by the caller's
      random source, so it is a parameter here. */
  function Add<V>(rs: seq<Keyed<V>>, fields: V, newId: Id): (out: seq<Keyed<V>>)
    ensures |out| == |rs| + 1
    ensures out[..|rs|] == rs
    ensures out[|rs|].id == newId && out[|rs|].fields == fields
    ensures Ids(out) == Ids(rs) + [newId]
    ensures Distinct(rs) && newId !in Ids(rs) ==> Distinct(out)
  {
    var out := rs + [Keyed(newId, fields)];
    assert Ids(out) == Ids(rs) + [newId];
    out
  }

  /** `rs.filter(r => r.id !== id)`. */
  function Remove<V>(rs: seq<Keyed<V>>, id: Id): (out: seq<Keyed<V>>)
    ensures forall i :: 0 <= i < |out| ==> out[i] in rs && out[i].id != id
    ensures forall i :: 0 <= i < |rs| && rs[i].id != id ==> rs[i] in out
    ensures |out| <= |rs|
    ensures id !in Ids(rs) ==> out == rs
    decreases |rs|
  {
    if rs == [] then []
    else
      var rest := Remove(rs[1..], id);
      assert forall i :: 1 <= i < |rs| ==> rs[i] == rs[1..][i - 1];
      assert id !in Ids(rs) ==> id !in Ids(rs[1..]);
      if rs[0].id == id then rest else [rs[0]] + rest
  }

  /** After `remove(id)` no record with that id is left. */
  lemma RemoveLeavesNoId<V>(rs: seq<Keyed<V>>, id: Id)
    ensures id !in Ids(Remove(rs, id))
  {
  }

  /** `remove` keeps the ids distinct. */
  lemma {:induction false} RemoveDistinct<V>(rs: seq<Keyed<V>>, id: Id)
    requires Distinct(rs)
    ensures Distinct(Remove(rs, id))
    decreases |rs|
  {
    if rs != [] {
      var rest := Remove(rs[1..], id);
      assert Distinct(rs[1..]);
      RemoveDistinct(rs[1..], id);
      if rs[0].id != id {
        HeadNotRemoved(rs, id);
        ConsDistinct(rs[0], rest);
      }
    }
  }

  /** The first record's id does not occur among the survivors of the rest. */
  lemma HeadNotRemoved<V>(rs: seq<Keyed<V>>, id: Id)
    requires Distinct(rs) && rs != []
    ensures forall j :: 0 <= j < |Remove(rs[1..], id)| ==> Remove(rs[1..], id)[j].id != rs[0].id
  {
    var rest := Remove(rs[1..], id);
    forall j | 0 <= j < |rest|
      ensures rest[j].id != rs[0].id
    {
      var m :| 0 <= m < |rs[1..]| && rs[1..][m] == rest[j];
      assert rs[m + 1] == rest[j];
    }
  }

  lemma ConsDistinct<V>(r: Keyed<V>, rest: seq<Keyed<V>>)
    requires Distinct(rest)
    requires forall j :: 0 <= j < |rest| ==> rest[j].id != r.id
    ensures Distinct([r] + rest)
  {
    var out := [r] + rest;
    forall i, j | 0 <= i < j < |out|
      ensures out[i].id != out[j].id
    {
      assert out[j] == rest[j - 1];
      if i > 0 {
        assert out[i] == rest[i - 1];
      }
    }
  }

  /** On a collection with distinct ids, removing a present id deletes
      exactly one record. */
  lemma {:induction false} RemoveCount<V>(rs: seq<Keyed<V>>, id: Id)
    requires Distinct(rs) && id in Ids(rs)
    ensures |Remove(rs, id)| == |rs| - 1
    decreases |rs|
  {
    assert Distinct(rs[1..]);
    if rs[0].id == id {
      assert id !in Ids(rs[1..]);
    } else {
      assert id in Ids(rs[1..]);
      RemoveCount(rs[1..], id);
    }
  }

  /** `rs.map(r => r.id === id ? { ...r, ...p } : r)`. */
  function Update<V, P>(rs: seq<Keyed<V>>, id: Id, p: Patch<P>, merge: (V, P) -> V): (out: seq<Keyed<V>>)
    ensures |out| == |rs|
    ensures forall i :: 0 <= i < |rs| && rs[i].id != id ==> out[i] == rs[i]
    ensures forall i :: 0 <= i < |rs| && rs[i].id == id ==> out[i] == MergeRecord(rs[i], p, merge)
    decreases |rs|
  {
    if rs == [] then []
    else
      var head := if rs[0].id == id then MergeRecord(rs[0], p, merge) else rs[0];
      var rest := Update(rs[1..], id, p, merge);
      assert forall i :: 1 <= i < |rs| ==> ([head] + rest)[i] == rest[i - 1];
      [head] + rest
  }

  /** Filtering distributes over concatenation: `remove` keeps the surviving
      records in their original order. */
  lemma {:induction false} RemoveConcat<V>(a: seq<Keyed<V>>, b: seq<Keyed<V>>, id: Id)
    ensures Remove(a + b, id) == Remove(a, id) + Remove(b, id)
    decreases |a|
  {
    if a == [] {
      assert a + b == b;
    } else {
      assert (a + b)[1..] == a[1..] + b;
      RemoveConcat(a[1..], b, id);
    }
  }

  /** Removing twice is removing once. */
  lemma RemoveIdempotent<V>(rs: seq<Keyed<V>>, id: Id)
    ensures Remove(Remove(rs, id), id) == Remove(rs, id)
  {
    RemoveLeavesNoId(rs, id);
  }

  /** `remove` undoes an `add` whose generated id was newId. */
  lemma RemoveUndoesAdd<V>(rs: seq<Keyed<V>>, fields: V, newId: Id)
    requires newId !in Ids(rs)
    ensures Remove(Add(rs, fields, newId), newId) == rs
  {
    RemoveConcat(rs, [Keyed(newId, fields)], newId);
    assert Remove([Keyed(newId, fields)], newId) == [];
  }

  /** An update with an absent id changes nothing. */
  lemma UpdateAbsentIsNoop<V, P>(rs: seq<Keyed<V>>, id: Id, p: Patch<P>, merge: (V, P) -> V)
    requires id !in Ids(rs)
    ensures Update(rs, id, p, merge) == rs
  {
    var out := Update(rs, id, p, merge);
    assert forall i :: 0 <= i < |rs| ==> rs[i].id != id;
  }

  /** An update whose patch carries no id, or the target's own id, leaves
      every id where it was; in particular it keeps the ids distinct. */
  lemma UpdateKeepsIds<V, P>(rs: seq<Keyed<V>>, id: Id, p: Patch<P>, merge: (V, P) -> V)
    requires p.id.None? || p.id == Some(id)
    ensures Ids(Update(rs, id, p, merge)) == Ids(rs)
    ensures Distinct(rs) ==> Distinct(Update(rs, id, p, merge))
  {
    var out := Update(rs, id, p, merge);
    assert forall i :: 0 <= i < |rs| ==> out[i].id == rs[i].id;
  }

  /** A patch with no field and no id present is the identity. */
  lemma UpdateEmptyPatchIsIdentity<V, P>(rs: seq<Keyed<V>>, id: Id, empty: P, merge: (V, P) -> V)
    requires forall v :: merge(v, empty) == v
    ensures Update(rs, id, Patch(None, empty), merge) == rs
  {
    var out := Update(rs, id, Patch(None, empty), merge);
    assert forall i :: 0 <= i < |rs| ==> out[i] == rs[i];
  }
}
