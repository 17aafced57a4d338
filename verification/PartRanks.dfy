/**
 * Where an orphaned PartInstance belongs after an ingest operation: the declarative ranks.
 *
 * An orphan follows its anchor, the last Part of its segment (as the segment was before the operation)
 * that was ranked at or before it and still exists.  The orphans of one anchor share the gap up to the
 * next integer evenly; those without an anchor get the integers below zero.
 */
module PartRanks {
  import opened Wrappers

  type PartId = string
  type InstanceId = string
  type SegmentId = string

  datatype BeforePart = BeforePart(id: PartId, rank: real)
  datatype Part = Part(segmentId: SegmentId, rank: real)
  datatype Orphaned = No | Deleted | Adlibbed
  datatype Instance = Instance(id: InstanceId, segmentId: SegmentId, orphaned: Orphaned, partId: PartId, rank: real)

  /******* Sorting *******/

  function Insert(x: Instance, s: seq<Instance>): seq<Instance> {
    if s == [] || x.rank <= s[0].rank then [x] + s else [s[0]] + Insert(x, s[1..])
  }

  /** A stable sort by rank. */
  function SortByRank(s: seq<Instance>): seq<Instance> {
    if s == [] then [] else Insert(s[0], SortByRank(s[1..]))
  }

  ghost predicate Ascending(s: seq<Instance>) {
    forall i, j :: 0 <= i < j < |s| ==> s[i].rank <= s[j].rank
  }

  ghost predicate DistinctIds(s: seq<Instance>) {
    forall i, j :: 0 <= i < j < |s| ==> s[i].id != s[j].id
  }

  lemma {:induction false} InsertMembers(x: Instance, s: seq<Instance>)
    ensures forall t :: t in Insert(x, s) <==> t == x || t in s
    ensures DistinctIds(s) && (forall t :: t in s ==> t.id != x.id) ==> DistinctIds(Insert(x, s))
  {
    if s != [] && x.rank > s[0].rank {
      InsertMembers(x, s[1..]);
      assert forall t :: t in s <==> t == s[0] || t in s[1..];
      if DistinctIds(s) && (forall t :: t in s ==> t.id != x.id) {
        ConsDistinct(s[0], s[1..]);
        ConsDistinct(s[0], Insert(x, s[1..]));
      }
    } else if DistinctIds(s) && (forall t :: t in s ==> t.id != x.id) {
      ConsDistinct(x, s);
    }
  }

  lemma ConsDistinct(x: Instance, s: seq<Instance>)
    ensures DistinctIds([x] + s) <==> DistinctIds(s) && forall t :: t in s ==> t.id != x.id
  {
    var u := [x] + s;
    assert u[1..] == s;
    if DistinctIds(u) {
      forall t | t in s ensures t.id != x.id {
        var j :| 0 <= j < |s| && s[j] == t;
        assert u[j + 1] == t && u[0] == x;
      }
    }
  }

  lemma {:induction false} InsertSorts(x: Instance, s: seq<Instance>)
    requires Ascending(s)
    ensures Ascending(Insert(x, s))
  {
    if s != [] && x.rank > s[0].rank {
      InsertSorts(x, s[1..]);
      InsertMembers(x, s[1..]);
      assert forall t :: t in Insert(x, s[1..]) ==> s[0].rank <= t.rank;
    }
  }

  lemma {:induction false} SortSorts(s: seq<Instance>)
    ensures Ascending(SortByRank(s))
    ensures forall t :: t in SortByRank(s) <==> t in s
    ensures DistinctIds(s) ==> DistinctIds(SortByRank(s))
  {
    if s != [] {
      SortSorts(s[1..]);
      InsertSorts(s[0], SortByRank(s[1..]));
      InsertMembers(s[0], SortByRank(s[1..]));
      assert forall t :: t in s <==> t == s[0] || t in s[1..];
    }
  }

  function OfRank(s: seq<Instance>, rank: real): seq<Instance> {
    if s == [] then []
    else if s[0].rank == rank then [s[0]] + OfRank(s[1..], rank)
    else OfRank(s[1..], rank)
  }

  lemma OfRankFirst(x: Instance, s: seq<Instance>, rank: real)
    ensures OfRank([x] + s, rank) == if x.rank == rank then [x] + OfRank(s, rank) else OfRank(s, rank)
  {
    assert ([x] + s)[1..] == s;
  }

  lemma {:induction false} InsertIsStable(x: Instance, s: seq<Instance>, rank: real)
    ensures OfRank(Insert(x, s), rank) == if x.rank == rank then [x] + OfRank(s, rank) else OfRank(s, rank)
  {
    if s == [] || x.rank <= s[0].rank {
      OfRankFirst(x, s, rank);
    } else {
      InsertIsStable(x, s[1..], rank);
      OfRankFirst(s[0], Insert(x, s[1..]), rank);
    }
  }

  /** Instances of the same rank keep their order. */
  lemma {:induction false} SortIsStable(s: seq<Instance>, rank: real)
    ensures OfRank(SortByRank(s), rank) == OfRank(s, rank)
  {
    if s != [] {
      SortIsStable(s[1..], rank);
      InsertIsStable(s[0], SortByRank(s[1..]), rank);
    }
  }

  /******* Anchors and followers *******/

  /** The Parts of a segment come in rank order. */
  ghost predicate Ranked(before: seq<BeforePart>) {
    && (forall i, j :: 0 <= i < j < |before| ==> before[i].rank < before[j].rank)
    && (forall i, j :: 0 <= i < j < |before| ==> before[i].id != before[j].id)
  }

  function Anchor(before: seq<BeforePart>, parts: map<PartId, Part>, rank: real): Option<PartId> {
    if before == [] then None
    else
      var last := before[|before| - 1];
      if last.rank <= rank && last.id in parts then Some(last.id)
      else Anchor(before[..|before| - 1], parts, rank)
  }

  function OfSegment(orphans: seq<Instance>, segmentId: SegmentId): seq<Instance> {
    if orphans == [] then []
    else (if orphans[0].segmentId == segmentId then [orphans[0]] else []) + OfSegment(orphans[1..], segmentId)
  }

  /** The ids of those anchored at a, ranked below a bound if there is one, in order. */
  function Followers(sorted: seq<Instance>, before: seq<BeforePart>, parts: map<PartId, Part>, a: Option<PartId>,
                     bound: Option<real>): seq<InstanceId>
  {
    if sorted == [] then []
    else
      (if (bound.Some? ==> sorted[0].rank < bound.value) && Anchor(before, parts, sorted[0].rank) == a
       then [sorted[0].id] else [])
      + Followers(sorted[1..], before, parts, a, bound)
  }

  function IndexOf(ids: seq<InstanceId>, id: InstanceId): (k: nat)
    requires id in ids
    ensures k < |ids| && ids[k] == id && id !in ids[..k]
  {
    if ids[0] == id then 0 else 1 + IndexOf(ids[1..], id)
  }

  ghost predicate Lists(before: map<SegmentId, seq<BeforePart>>, s: SegmentId, p: PartId) {
    s in before && exists b :: b in before[s] && b.id == p
  }

  /** The Parts of the rundown now, the segments that changed, and the Parts of each segment before. */
  datatype Ingest = Ingest(
    parts: map<PartId, Part>,
    changed: seq<SegmentId>,
    before: map<SegmentId, seq<BeforePart>>)
  {
    ghost predicate Valid() {
      && (forall i, j :: 0 <= i < j < |changed| ==> changed[i] != changed[j])
      && (forall s :: s in before ==> Ranked(before[s]))
      && (forall s, t, p :: Lists(before, s, p) && Lists(before, t, p) ==> s == t)
    }
  }

  function Sorted(orphans: seq<Instance>, segmentId: SegmentId): seq<Instance> {
    SortByRank(OfSegment(orphans, segmentId))
  }

  function AnchorOf(g: Ingest, o: Instance): Option<PartId>
    requires o.segmentId in g.before
  {
    Anchor(g.before[o.segmentId], g.parts, o.rank)
  }

  /** An orphan is placed when its segment changed, is known from before, and its anchor is still there. */
  predicate Placed(g: Ingest, o: Instance) {
    && o.segmentId in g.changed && o.segmentId in g.before
    && var a := AnchorOf(g, o);
       a.Some? ==> a.value in g.parts && g.parts[a.value].segmentId == o.segmentId
  }

  function GroupOf(g: Ingest, orphans: seq<Instance>, o: Instance): seq<InstanceId>
    requires o.segmentId in g.before
  {
    Followers(Sorted(orphans, o.segmentId), g.before[o.segmentId], g.parts, AnchorOf(g, o), None)
  }

  /** The rank at place k of n: below zero at the start of the segment, else dividing the gap after a Part. */
  function PlaceRank(after: Option<real>, k: nat, n: nat): real {
    match after
    case None => k as real - n as real
    case Some(rank) => rank + 1.0 / (n as real + 1.0) * (k as real + 1.0)
  }

  function RankAt(g: Ingest, a: Option<PartId>, k: nat, n: nat): real {
    PlaceRank(if a.Some? && a.value in g.parts then Some(g.parts[a.value].rank) else None, k, n)
  }

  function NewRank(g: Ingest, orphans: seq<Instance>, o: Instance): real
    requires o.segmentId in g.before && o.id in GroupOf(g, orphans, o)
  {
    var group := GroupOf(g, orphans, o);
    RankAt(g, AnchorOf(g, o), IndexOf(group, o.id), |group|)
  }

  /******* Everyone is in its own group *******/

  lemma {:induction false} FollowersMember(sorted: seq<Instance>, before: seq<BeforePart>, parts: map<PartId, Part>,
                                           a: Option<PartId>, bound: Option<real>, id: InstanceId)
    ensures id in Followers(sorted, before, parts, a, bound) <==>
            exists o :: o in sorted && o.id == id && Anchor(before, parts, o.rank) == a &&
                (bound.Some? ==> o.rank < bound.value)
  {
    if sorted != [] {
      FollowersMember(sorted[1..], before, parts, a, bound, id);
      assert forall o :: o in sorted <==> o == sorted[0] || o in sorted[1..];
    }
  }

  lemma {:induction false} OfSegmentMembers(orphans: seq<Instance>, segmentId: SegmentId)
    ensures forall o :: o in OfSegment(orphans, segmentId) <==> o in orphans && o.segmentId == segmentId
    ensures DistinctIds(orphans) ==> DistinctIds(OfSegment(orphans, segmentId))
  {
    if orphans != [] {
      OfSegmentMembers(orphans[1..], segmentId);
      assert forall o :: o in orphans <==> o == orphans[0] || o in orphans[1..];
      if DistinctIds(orphans) {
        assert DistinctIds(orphans[1..]);
        forall o | o in OfSegment(orphans[1..], segmentId) ensures o.id != orphans[0].id {
          var j :| 0 <= j < |orphans[1..]| && orphans[1..][j] == o;
          assert orphans[j + 1] == o;
        }
      }
    }
  }

  lemma SortedFacts(orphans: seq<Instance>, segmentId: SegmentId)
    ensures Ascending(Sorted(orphans, segmentId))
    ensures forall o :: o in Sorted(orphans, segmentId) <==> o in orphans && o.segmentId == segmentId
    ensures DistinctIds(orphans) ==> DistinctIds(Sorted(orphans, segmentId))
  {
    OfSegmentMembers(orphans, segmentId);
    SortSorts(OfSegment(orphans, segmentId));
  }

  lemma InOwnGroup(g: Ingest, orphans: seq<Instance>, o: Instance)
    requires o in orphans && o.segmentId in g.before
    ensures o.id in GroupOf(g, orphans, o)
  {
    SortedFacts(orphans, o.segmentId);
    FollowersMember(Sorted(orphans, o.segmentId), g.before[o.segmentId], g.parts, AnchorOf(g, o), None, o.id);
  }
}
