/** The loop shapes of the import tool's main routine (tools/buckets_to_db/main.go):
    a loop that stops at the first error, a Go map filled entry by entry, and a loop
    that creates one record per row and remembers the id the store gave it. */
module Loops {
  import opened Wrappers

  // Loops that stop at the first error

  /** The values of a run of results when every one succeeded, otherwise the first error. */
  function Collect<T>(rs: seq<Result<T, Error>>): (r: Result<seq<T>, Error>)
    ensures r.Success? <==> forall k :: 0 <= k < |rs| ==> rs[k].Success?
    ensures r.Success? ==> |r.value| == |rs| && forall k :: 0 <= k < |rs| ==> rs[k] == Success(r.value[k])
    ensures r.Failure? ==>
      exists k :: 0 <= k < |rs| && rs[k] == Failure(r.error) && forall j :: 0 <= j < k ==> rs[j].Success?
    decreases |rs|
  {
    if rs == [] then Success([])
    else
      var n := |rs| - 1;
      assert forall k :: 0 <= k < n ==> rs[..n][k] == rs[k];
      match Collect(rs[..n])
      case Failure(e) => Failure(e)
      case Success(vs) => if rs[n].Failure? then Failure(rs[n].error) else Success(vs + [rs[n].value])
  }

  lemma CollectStep<T>(rs: seq<Result<T, Error>>, i: nat)
    requires i < |rs| && Collect(rs[..i]).Success? && rs[i].Success?
    ensures Collect(rs[..i + 1]) == Success(Collect(rs[..i]).value + [rs[i].value])
  {
    assert rs[..i + 1][..i] == rs[..i];
  }

  lemma CollectStopsAt<T>(rs: seq<Result<T, Error>>, i: nat)
    requires i < |rs| && Collect(rs[..i]).Success? && rs[i].Failure?
    ensures Collect(rs) == Failure(rs[i].error)
  {
    assert forall k :: 0 <= k < i ==> rs[..i][k] == rs[k];
  }

  /** log.Fatalf("<context>: %s", err): the run stops with the error under that context. */
  function Context<T>(context: string, r: Result<T, Error>): Result<T, Error>
  {
    match r
    case Failure(e) => Failure(Wrapped(context, e))
    case Success(_) => r
  }

  // Remap tables

  /** A Go map filled by assigning each entry in turn: every key of the entries is in
      it and no other. */
  function Remap<V>(entries: seq<(int, V)>): (m: map<int, V>)
    ensures forall x :: x in m <==> exists j :: 0 <= j < |entries| && entries[j].0 == x
    decreases |entries|
  {
    if entries == [] then map[]
    else
      var n := |entries| - 1;
      assert forall k :: 0 <= k < n ==> entries[..n][k] == entries[k];
      Remap(entries[..n])[entries[n].0 := entries[n].1]
  }

  /** A key that does not come again keeps the value of its entry. */
  lemma {:induction false} RemapLast<V>(entries: seq<(int, V)>, j: nat)
    requires j < |entries| && forall l :: j < l < |entries| ==> entries[l].0 != entries[j].0
    ensures entries[j].0 in Remap(entries) && Remap(entries)[entries[j].0] == entries[j].1
    decreases |entries|
  {
    var n := |entries| - 1;
    if j < n {
      var prefix := entries[..n];
      assert prefix[j] == entries[j];
      assert forall l :: j < l < n ==> prefix[l] == entries[l];
      RemapLast(prefix, j);
    }
  }

  lemma RemapStep<V>(entries: seq<(int, V)>, i: nat)
    requires i < |entries|
    ensures Remap(entries[..i + 1]) == Remap(entries[..i])[entries[i].0 := entries[i].1]
  {
    assert entries[..i + 1][..i] == entries[..i];
  }

  /** The entries old id to new id of a run of rows. */
  function Entries<R>(rows: seq<R>, oldID: R -> int, ids: seq<int>): (es: seq<(int, int)>)
    requires |ids| == |rows|
    ensures |es| == |rows| && forall k :: 0 <= k < |rows| ==> es[k] == (oldID(rows[k]), ids[k])
  {
    seq(|rows|, k requires 0 <= k < |rows| => (oldID(rows[k]), ids[k]))
  }

  /** A row whose old id does not come again maps that id to its own new id. */
  lemma EntriesLast<R>(rows: seq<R>, oldID: R -> int, ids: seq<int>, j: nat)
    requires |ids| == |rows| && j < |rows|
    requires forall l :: j < l < |rows| ==> oldID(rows[l]) != oldID(rows[j])
    ensures oldID(rows[j]) in Remap(Entries(rows, oldID, ids)) && Remap(Entries(rows, oldID, ids))[oldID(rows[j])] == ids[j]
  {
    RemapLast(Entries(rows, oldID, ids), j);
  }

  lemma EntriesStep<R>(rows: seq<R>, oldID: R -> int, ids: seq<int>, id: int, i: nat)
    requires i < |rows| && |ids| == i
    ensures Entries(rows[..i + 1], oldID, ids + [id]) == Entries(rows[..i], oldID, ids) + [(oldID(rows[i]), id)]
  {
    assert rows[..i + 1][..i] == rows[..i];
  }

  // Creation loops

  /** What a creation loop produced: the records handed to the store, each with the id
      the store gave it, and the remap table from old id to new id. */
  datatype Created<T> = Created(records: seq<T>, remap: map<int, int>)

  /** A creation loop over rows whose k-th store call had the k-th outcome: the records
      handed to the store and the remap table, or the first failure. */
  function CreateAll<R, T>(rows: seq<R>, created: seq<Result<int, Error>>, build: (R, nat) -> T, withID: (T, int) -> T, oldID: R -> int): (r: Result<Created<T>, Error>)
    requires |created| == |rows|
    ensures r.Success? ==> |r.value.records| == |rows|
  {
    match Collect(created)
    case Failure(e) => Failure(e)
    case Success(ids) =>
      Success(Created(Records(rows, build, withID, ids), Remap(Entries(rows, oldID, ids))))
  }

  /** What a creation loop promises: it stops at the first failing store call;
      otherwise record k is built from row k and its position and carries the k-th new
      id, and the remap table sends each old id to the new id of the last row that had
      it. */
  lemma CreateAllFacts<R, T>(rows: seq<R>, created: seq<Result<int, Error>>, build: (R, nat) -> T, withID: (T, int) -> T, oldID: R -> int)
    requires |created| == |rows|
    ensures var r := CreateAll(rows, created, build, withID, oldID);
      (r.Success? <==> forall k :: 0 <= k < |rows| ==> created[k].Success?) &&
      (r.Failure? ==>
        exists k :: 0 <= k < |rows| && created[k] == Failure(r.error) && forall j :: 0 <= j < k ==> created[j].Success?) &&
      (r.Success? ==>
        forall k :: 0 <= k < |rows| ==> r.value.records[k] == withID(build(rows[k], k), created[k].value)) &&
      (r.Success? ==> forall x :: x in r.value.remap <==> exists j :: 0 <= j < |rows| && oldID(rows[j]) == x) &&
      (r.Success? ==> forall j :: 0 <= j < |rows| && (forall l :: j < l < |rows| ==> oldID(rows[l]) != oldID(rows[j])) ==>
        oldID(rows[j]) in r.value.remap && r.value.remap[oldID(rows[j])] == created[j].value)
  {
    if Collect(created).Success? {
      var ids := Collect(created).value;
      var es := Entries(rows, oldID, ids);
      assert forall j :: 0 <= j < |rows| ==> es[j].0 == oldID(rows[j]);
      forall j | 0 <= j < |rows| && (forall l :: j < l < |rows| ==> oldID(rows[l]) != oldID(rows[j]))
        ensures Remap(es)[oldID(rows[j])] == ids[j]
      {
        EntriesLast(rows, oldID, ids, j);
      }
    }
  }

  /** Record k is built from row k and its position, and carries the k-th id. */
  function Records<R, T>(rows: seq<R>, build: (R, nat) -> T, withID: (T, int) -> T, ids: seq<int>): (ts: seq<T>)
    requires |ids| == |rows|
    ensures |ts| == |rows| && forall k :: 0 <= k < |rows| ==> ts[k] == withID(build(rows[k], k), ids[k])
  {
    seq(|rows|, k requires 0 <= k < |rows| => withID(build(rows[k], k), ids[k]))
  }

  lemma RecordsStep<R, T>(rows: seq<R>, build: (R, nat) -> T, withID: (T, int) -> T, ids: seq<int>, id: int, i: nat)
    requires i < |rows| && |ids| == i
    ensures Records(rows[..i + 1], build, withID, ids + [id]) == Records(rows[..i], build, withID, ids) + [withID(build(rows[i], i), id)]
  {
    assert rows[..i + 1][..i] == rows[..i];
  }

  lemma CreateStep<R, T>(rows: seq<R>, created: seq<Result<int, Error>>, build: (R, nat) -> T, withID: (T, int) -> T, oldID: R -> int, i: nat)
    requires |created| == |rows| && i < |rows|
    requires CreateAll(rows[..i], created[..i], build, withID, oldID).Success? && created[i].Success?
    ensures var d := CreateAll(rows[..i], created[..i], build, withID, oldID).value;
      CreateAll(rows[..i + 1], created[..i + 1], build, withID, oldID) ==
        Success(Created(d.records + [withID(build(rows[i], i), created[i].value)], d.remap[oldID(rows[i]) := created[i].value]))
  {
    var ids := Collect(created[..i]).value;
    var id := created[i].value;
    CollectStep(created, i);
    assert created[..i + 1][..i] == created[..i];
    assert rows[..i + 1][i] == rows[i];
    RecordsStep(rows, build, withID, ids, id, i);
    EntriesStep(rows, oldID, ids, id, i);
    var es := Entries(rows[..i + 1], oldID, ids + [id]);
    RemapStep(es, i);
    assert es[..i] == Entries(rows[..i], oldID, ids);
  }

  lemma CreateStopsAt<R, T>(rows: seq<R>, created: seq<Result<int, Error>>, build: (R, nat) -> T, withID: (T, int) -> T, oldID: R -> int, i: nat)
    requires |created| == |rows| && i < |rows|
    requires CreateAll(rows[..i], created[..i], build, withID, oldID).Success? && created[i].Failure?
    ensures CreateAll(rows, created, build, withID, oldID) == Failure(created[i].error)
  {
    CollectStopsAt(created, i);
  }


  /** A remap table merged over an older one keeps the older entries it does not name. */
  lemma UnionRemapFacts<R>(m0: map<int, int>, rows: seq<R>, key: R -> int, ids: seq<int>)
    requires |ids| == |rows|
    ensures var m := m0 + Remap(Entries(rows, key, ids));
      (forall x :: x in m <==> x in m0 || exists j :: 0 <= j < |rows| && key(rows[j]) == x) &&
      (forall x :: x in m0 && (forall j :: 0 <= j < |rows| ==> key(rows[j]) != x) ==> m[x] == m0[x]) &&
      (forall j :: 0 <= j < |rows| && (forall l :: j < l < |rows| ==> key(rows[l]) != key(rows[j])) ==>
        m[key(rows[j])] == ids[j])
  {
    var es := Entries(rows, key, ids);
    assert forall j :: 0 <= j < |rows| ==> es[j].0 == key(rows[j]);
    forall j | 0 <= j < |rows| && (forall l :: j < l < |rows| ==> key(rows[l]) != key(rows[j]))
      ensures Remap(es)[key(rows[j])] == ids[j]
    {
      EntriesLast(rows, key, ids, j);
    }
  }

  lemma RemapEntriesStep<R>(rows: seq<R>, key: R -> int, ids: seq<int>, id: int, i: nat)
    requires i < |rows| && |ids| == i
    ensures Remap(Entries(rows[..i + 1], key, ids + [id])) == Remap(Entries(rows[..i], key, ids))[key(rows[i]) := id]
  {
    EntriesStep(rows, key, ids, id, i);
    var es := Entries(rows[..i + 1], key, ids + [id]);
    RemapStep(es, i);
    assert es[..i] == Entries(rows[..i], key, ids);
  }

  lemma UnionUpdate(m0: map<int, int>, r: map<int, int>, k: int, v: int)
    ensures m0 + r[k := v] == (m0 + r)[k := v]
  {
  }

  /** Merging over an older table one entry at a time. */
  lemma UnionRemapStep<R>(m0: map<int, int>, rows: seq<R>, key: R -> int, ids: seq<int>, id: int, i: nat)
    requires i < |rows| && |ids| == i
    ensures m0 + Remap(Entries(rows[..i + 1], key, ids + [id])) == (m0 + Remap(Entries(rows[..i], key, ids)))[key(rows[i]) := id]
  {
    RemapEntriesStep(rows, key, ids, id, i);
    UnionUpdate(m0, Remap(Entries(rows[..i], key, ids)), key(rows[i]), id);
  }

  /** The results of converting each row in turn. */
  function MapRows<R, T>(rows: seq<R>, convert: R -> Result<T, Error>): (rs: seq<Result<T, Error>>)
    ensures |rs| == |rows| && forall k :: 0 <= k < |rows| ==> rs[k] == convert(rows[k])
  {
    seq(|rows|, k requires 0 <= k < |rows| => convert(rows[k]))
  }

  /** Pending values followed by the converted rows, or the first conversion error. */
  function AppendAll<T>(pending: seq<T>, rs: seq<Result<T, Error>>): Result<seq<T>, Error>
  {
    match Collect(rs)
    case Failure(e) => Failure(e)
    case Success(ts) => Success(pending + ts)
  }

  /** A loop that converts each row in turn and appends the result to the pending
      slice, stopping at the first row that does not convert. */
  method AppendConverted<R, T>(rows: seq<R>, convert: R -> Result<T, Error>, pending: seq<T>) returns (r: Result<seq<T>, Error>)
    ensures r == AppendAll(pending, MapRows(rows, convert))
  {
    ghost var rs := MapRows(rows, convert);
    var acc := pending;
    var i := 0;
    while i < |rows|
      invariant 0 <= i <= |rows|
      invariant Collect(rs[..i]).Success? && acc == pending + Collect(rs[..i]).value
    {
      var t := convert(rows[i]);
      if t.Failure? {
        CollectStopsAt(rs, i);
        return Failure(t.error);
      }
      CollectStep(rs, i);
      acc := acc + [t.value];
      i := i + 1;
    }
    assert rs[..i] == rs;
    return Success(acc);
  }

  /** The next key a range over a Go map visits: any key not yet visited. */
  method Pick<W>(s: set<W>) returns (x: W)
    requires s != {}
    ensures x in s
  {
    x :| x in s;
  }
}
