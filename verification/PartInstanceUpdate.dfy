/**
 * The write operations of a reconciliation, and what the PartInstances are once they are applied.
 */
module PartInstanceUpdate {
  import opened Wrappers
  import opened PartRanks
  import opened PartRankLaws
  import opened PartRankRerun
  import opened PartReconcile

  datatype Mark = Keep | SetDeleted | Unset
  datatype WriteOp = WriteOp(id: InstanceId, rank: Option<real>, orphaned: Mark)

  function ApplyOp(op: WriteOp, i: Instance): Instance {
    if op.id != i.id then i
    else
      i.(rank := if op.rank.Some? then op.rank.value else i.rank,
         orphaned := match op.orphaned case Keep => i.orphaned case SetDeleted => Deleted case Unset => No)
  }

  function ApplyAll(ops: seq<WriteOp>, i: Instance): Instance {
    if ops == [] then i else ApplyOp(ops[|ops| - 1], ApplyAll(ops[..|ops| - 1], i))
  }

  /** PartInstances whose Part is gone. */
  function Orphans(parts: map<PartId, Part>, instances: seq<Instance>): seq<Instance> {
    if instances == [] then []
    else
      var last := instances[|instances| - 1];
      Orphans(parts, instances[..|instances| - 1]) + if last.partId in parts then [] else [last]
  }

  /** The first pass: ranks follow the Parts, and the deleted mark follows whether there is one. */
  function Synced(parts: map<PartId, Part>, i: Instance): Instance {
    if i.partId in parts then
      i.(rank := parts[i.partId].rank, orphaned := if i.orphaned == Deleted then No else i.orphaned)
    else
      i.(orphaned := if i.orphaned == No then Deleted else i.orphaned)
  }

  /** What each PartInstance should be afterwards. */
  function Reconciled(g: Ingest, instances: seq<Instance>, i: Instance): Instance {
    var orphans := Orphans(g.parts, instances);
    if i.partId !in g.parts && Placed(g, i) && i.id in GroupOf(g, orphans, i) then
      Synced(g.parts, i).(rank := NewRank(g, orphans, i))
    else
      Synced(g.parts, i)
  }

  lemma ApplyAllMore(ops: seq<WriteOp>, op: WriteOp, i: Instance)
    ensures ApplyAll(ops + [op], i) == ApplyOp(op, ApplyAll(ops, i))
  {
    assert (ops + [op])[..|ops|] == ops;
  }

  lemma {:induction false} KeepsId(ops: seq<WriteOp>, i: Instance)
    ensures ApplyAll(ops, i).id == i.id
  {
    if ops != [] { KeepsId(ops[..|ops| - 1], i); }
  }

  lemma Elsewhere(ops: seq<WriteOp>, op: WriteOp, i: Instance)
    requires op.id != i.id
    ensures ApplyAll(ops + [op], i) == ApplyAll(ops, i)
  {
    ApplyAllMore(ops, op, i);
    KeepsId(ops, i);
  }

  lemma {:induction false} Unaddressed(ops: seq<WriteOp>, i: Instance)
    requires forall op :: op in ops ==> op.id != i.id
    ensures ApplyAll(ops, i) == i
  {
    if ops != [] {
      assert ops[|ops| - 1] in ops;
      Unaddressed(ops[..|ops| - 1], i);
    }
  }

  lemma {:induction false} OrphansMembers(parts: map<PartId, Part>, instances: seq<Instance>)
    ensures forall o :: o in Orphans(parts, instances) <==> o in instances && o.partId !in parts
    ensures DistinctIds(instances) ==> DistinctIds(Orphans(parts, instances))
  {
    if instances != [] {
      var n := |instances| - 1;
      OrphansMembers(parts, instances[..n]);
      assert forall o :: o in instances <==> o == instances[n] || o in instances[..n];
      assert DistinctIds(instances) ==> forall o :: o in instances[..n] ==> o.id != instances[n].id;
    }
  }

  method UpdateNormalPartInstanceRanksAndFindOrphans(parts: map<PartId, Part>, instances: seq<Instance>)
    returns (ops: seq<WriteOp>, orphans: seq<Instance>)
    requires DistinctIds(instances)
    ensures orphans == Orphans(parts, instances)
    ensures forall i :: i in instances ==> ApplyAll(ops, i) == Synced(parts, i)
    ensures forall op :: op in ops ==> exists i :: i in instances && i.id == op.id && Synced(parts, i) != i
  {
    ops, orphans := [], [];
    for n := 0 to |instances|
      invariant orphans == Orphans(parts, instances[..n])
      invariant forall k :: 0 <= k < n ==> ApplyAll(ops, instances[k]) == Synced(parts, instances[k])
      invariant forall op :: op in ops ==>
                  exists k :: 0 <= k < n && instances[k].id == op.id && Synced(parts, instances[k]) != instances[k]
    {
      var i := instances[n];
      assert instances[..n + 1][..n] == instances[..n];
      NotYetWritten(instances, n, ops);
      if i.partId !in parts {
        if i.orphaned == No {
          var op := WriteOp(i.id, None, SetDeleted);
          SyncedNext(parts, instances, n, ops, op);
          ops := ops + [op];
        }
        orphans := orphans + [i];
      } else {
        var rank := parts[i.partId].rank;
        if i.orphaned == Deleted {
          var op := WriteOp(i.id, if i.rank != rank then Some(rank) else None, Unset);
          SyncedNext(parts, instances, n, ops, op);
          ops := ops + [op];
        } else if i.rank != rank {
          var op := WriteOp(i.id, Some(rank), Keep);
          SyncedNext(parts, instances, n, ops, op);
          ops := ops + [op];
        }
      }
    }
    assert instances[..|instances|] == instances;
  }

  /** Nothing written so far addresses the next PartInstance. */
  lemma NotYetWritten(instances: seq<Instance>, n: nat, ops: seq<WriteOp>)
    requires DistinctIds(instances) && n < |instances|
    requires forall op :: op in ops ==> exists k :: 0 <= k < n && instances[k].id == op.id
    ensures ApplyAll(ops, instances[n]) == instances[n]
  {
    forall op | op in ops ensures op.id != instances[n].id {
      var k :| 0 <= k < n && instances[k].id == op.id;
    }
    Unaddressed(ops, instances[n]);
  }

  /** An operation for the next PartInstance touches no earlier one. */
  lemma SyncedNext(parts: map<PartId, Part>, instances: seq<Instance>, n: nat, ops: seq<WriteOp>, op: WriteOp)
    requires DistinctIds(instances) && n < |instances| && op.id == instances[n].id
    requires forall k :: 0 <= k < n ==> ApplyAll(ops, instances[k]) == Synced(parts, instances[k])
    requires ApplyAll(ops, instances[n]) == instances[n]
    requires ApplyOp(op, instances[n]) == Synced(parts, instances[n])
    ensures forall k :: 0 <= k <= n ==> ApplyAll(ops + [op], instances[k]) == Synced(parts, instances[k])
  {
    ApplyAllMore(ops, op, instances[n]);
    forall k | 0 <= k < n ensures ApplyAll(ops + [op], instances[k]) == Synced(parts, instances[k]) {
      Elsewhere(ops, op, instances[k]);
    }
  }

  /** The whole update.  Nothing is written when nothing changes. */
  method UpdatePartInstanceRanksAndOrphanedState(g: Ingest, instances: seq<Instance>) returns (ops: seq<WriteOp>)
    requires g.Valid() && DistinctIds(instances)
    ensures forall i :: i in instances ==> ApplyAll(ops, i) == Reconciled(g, instances, i)
    ensures forall op :: op in ops ==> exists i :: i in instances && i.id == op.id && Reconciled(g, instances, i) != i
  {
    var orphans;
    ops, orphans := UpdateNormalPartInstanceRanksAndFindOrphans(g.parts, instances);
    OrphansMembers(g.parts, instances);
    var ranks := CompileNewPartInstanceRanks(g, orphans);
    ghost var synced := ops;
    ops := AddRankOps(g.parts, instances, ops, orphans, ranks);
    forall i | i in instances ensures ApplyAll(ops, i) == Reconciled(g, instances, i) {
      RankedIsReconciled(g, instances, ranks, i);
    }
    forall op | op in ops ensures exists i :: i in instances && i.id == op.id && Reconciled(g, instances, i) != i {
      if op in synced {
        var i :| i in instances && i.id == op.id && Synced(g.parts, i) != i;
        RankedIsReconciled(g, instances, ranks, i);
      } else {
        var i :| i in instances && i.id == op.id && i.partId !in g.parts && i.id in ranks && ranks[i.id] != i.rank;
        RankedIsReconciled(g, instances, ranks, i);
      }
    }
  }

  /** The ranks known for an instance once the ids in done are dealt with. */
  function SyncedAndRanked(parts: map<PartId, Part>, ranks: map<InstanceId, real>, done: set<InstanceId>,
                           i: Instance): Instance {
    if i.partId !in parts && i.id in done && i.id in ranks then Synced(parts, i).(rank := ranks[i.id])
    else Synced(parts, i)
  }

  lemma RankedIsReconciled(g: Ingest, instances: seq<Instance>, ranks: map<InstanceId, real>, i: Instance)
    requires DistinctIds(instances) && i in instances
    requires var orphans := Orphans(g.parts, instances);
             && (forall o :: o in orphans ==> (o.id in ranks <==> Placed(g, o)))
             && (forall o :: o in orphans && Placed(g, o) ==>
                 o.id in GroupOf(g, orphans, o) && ranks[o.id] == NewRank(g, orphans, o))
    ensures Reconciled(g, instances, i) == SyncedAndRanked(g.parts, ranks, ranks.Keys, i)
  {
    OrphansMembers(g.parts, instances);
  }

  lemma RankedOrphans(parts: map<PartId, Part>, instances: seq<Instance>, ranks: map<InstanceId, real>)
    requires DistinctIds(instances)
    requires forall id :: id in ranks ==> exists o :: o in Orphans(parts, instances) && o.id == id
    ensures forall id :: id in ranks ==>
              && id in ById(Orphans(parts, instances))
              && var o := ById(Orphans(parts, instances))[id]; o.id == id && o in instances && o.partId !in parts
  {
    OrphansMembers(parts, instances);
    ByIdFinds(Orphans(parts, instances));
  }

  method AddRankOps(parts: map<PartId, Part>, instances: seq<Instance>, ops0: seq<WriteOp>, orphans: seq<Instance>,
                    ranks: map<InstanceId, real>)
    returns (ops: seq<WriteOp>)
    requires DistinctIds(instances) && orphans == Orphans(parts, instances)
    requires forall i :: i in instances ==> ApplyAll(ops0, i) == Synced(parts, i)
    requires forall id :: id in ranks ==> exists o :: o in orphans && o.id == id
    ensures forall i :: i in instances ==> ApplyAll(ops, i) == SyncedAndRanked(parts, ranks, ranks.Keys, i)
    ensures forall op :: op in ops && op !in ops0 ==>
              exists i :: i in instances && i.id == op.id && i.partId !in parts && i.id in ranks &&
                  ranks[i.id] != i.rank
  {
    ops := ops0;
    var byId := ById(orphans);
    RankedOrphans(parts, instances, ranks);
    var todo := ranks.Keys;
    ghost var done := {};
    while todo != {}
      invariant done + todo == ranks.Keys && done * todo == {}
      invariant forall i :: i in instances ==> ApplyAll(ops, i) == SyncedAndRanked(parts, ranks, done, i)
      invariant forall op :: op in ops && op !in ops0 ==>
                op.id in ranks && op.id in byId && byId[op.id].rank != ranks[op.id]
    {
      var id :| id in todo;
      RankedAll(parts, instances, ranks, done, byId[id], ops);
      if !(id in byId && byId[id].rank == ranks[id]) {
        ops := ops + [WriteOp(id, Some(ranks[id]), Keep)];
      }
      todo, done := todo - {id}, done + {id};
    }
  }

  lemma RankedAll(parts: map<PartId, Part>, instances: seq<Instance>, ranks: map<InstanceId, real>,
                  done: set<InstanceId>, o: Instance, ops: seq<WriteOp>)
    requires DistinctIds(instances) && o in instances && o.partId !in parts && o.id in ranks && o.id !in done
    requires forall i :: i in instances ==> ApplyAll(ops, i) == SyncedAndRanked(parts, ranks, done, i)
    ensures var ops' := if o.rank == ranks[o.id] then ops else ops + [WriteOp(o.id, Some(ranks[o.id]), Keep)];
            forall i :: i in instances ==> ApplyAll(ops', i) == SyncedAndRanked(parts, ranks, done + {o.id}, i)
  {
    var op := WriteOp(o.id, Some(ranks[o.id]), Keep);
    forall i | i in instances
      ensures var ops' := if o.rank == ranks[o.id] then ops else ops + [op];
              ApplyAll(ops', i) == SyncedAndRanked(parts, ranks, done + {o.id}, i)
    {
      if i.id == o.id {
        OneById(instances, o, i);
        ApplyAllMore(ops, op, i);
      } else {
        Elsewhere(ops, op, i);
      }
    }
  }

  /******* Reconciling twice *******/

  /** The PartInstances as the update left them. */
  function AllReconciled(g: Ingest, all: seq<Instance>, some: seq<Instance>): (r: seq<Instance>)
    ensures |r| == |some|
    ensures forall k :: 0 <= k < |r| ==> r[k] == Reconciled(g, all, some[k])
  {
    seq(|some|, k requires 0 <= k < |some| => Reconciled(g, all, some[k]))
  }

  lemma {:induction false} OrphansReconciled(g: Ingest, all: seq<Instance>, some: seq<Instance>)
    ensures Orphans(g.parts, AllReconciled(g, all, some)) == AllReconciled(g, all, Orphans(g.parts, some))
  {
    if some != [] {
      var n := |some| - 1;
      OrphansReconciled(g, all, some[..n]);
      assert AllReconciled(g, all, some)[..n] == AllReconciled(g, all, some[..n]);
    }
  }

  /** When every orphan's segment is settled, a second reconciliation against the Parts as they are changes
      nothing, so that UpdatePartInstanceRanksAndOrphanedState writes nothing. */
  lemma SecondReconciliationIsIdle(g: Ingest, instances: seq<Instance>, again: Ingest, i: Instance)
    requires DistinctIds(instances) && again.parts == g.parts && i in instances
    requires forall o :: o in instances && o.partId !in g.parts ==>
               Placed(g, o) && WholeRanks(g.parts, o.segmentId) && ListsCurrentParts(again, o.segmentId)
    ensures var after := AllReconciled(g, instances, instances);
            Reconciled(again, after, Reconciled(g, instances, i)) == Reconciled(g, instances, i)
  {
    var after := AllReconciled(g, instances, instances);
    var orphans := Orphans(g.parts, instances);
    OrphansReconciled(g, instances, instances);
    OrphansMembers(g.parts, instances);
    if i.partId !in g.parts {
      var k :| 0 <= k < |orphans| && orphans[k] == i;
      OrphansAreReranked(g, instances, i.segmentId);
      RerunChangesNothing(g, orphans, again, AllReconciled(g, instances, orphans), k);
    }
  }

  lemma OrphansAreReranked(g: Ingest, instances: seq<Instance>, s: SegmentId)
    requires forall o :: o in instances && o.partId !in g.parts ==> Placed(g, o)
    ensures var orphans := Orphans(g.parts, instances); Reranked(g, orphans, AllReconciled(g, instances, orphans), s)
  {
    var orphans := Orphans(g.parts, instances);
    OrphansMembers(g.parts, instances);
    forall k | 0 <= k < |orphans|
      ensures Placed(g, orphans[k]) && orphans[k].id in GroupOf(g, orphans, orphans[k])
      ensures Reconciled(g, instances, orphans[k]).rank == NewRank(g, orphans, orphans[k])
      ensures Reconciled(g, instances, orphans[k]).id == orphans[k].id
      ensures Reconciled(g, instances, orphans[k]).segmentId == orphans[k].segmentId
    {
      assert orphans[k] in orphans;
      InOwnGroup(g, orphans, orphans[k]);
    }
  }

  /** Of an instance that was not adlibbed, the mark says whether its Part is gone; an adlibbed one stays so.  Ranks
      follow the Parts that are there. */
  lemma SyncedSays(parts: map<PartId, Part>, i: Instance)
    ensures var j := Synced(parts, i);
            && j.id == i.id && j.segmentId == i.segmentId && j.partId == i.partId
            && (i.orphaned != Adlibbed ==> (j.orphaned == Deleted <==> i.partId !in parts) && j.orphaned != Adlibbed)
            && (i.orphaned == Adlibbed <==> j.orphaned == Adlibbed)
            && j.rank == (if i.partId in parts then parts[i.partId].rank else i.rank)
  {
  }
}
