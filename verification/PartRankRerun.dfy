/** A second reconciliation, against the Parts as they are now, leaves every rank as it is. */
module PartRankRerun {
  import opened Wrappers
  import opened PartRanks
  import opened PartRankLaws

  /** The before-map of the second run lists exactly the current Parts of the segment. */
  ghost predicate ListsCurrentParts(again: Ingest, s: SegmentId) {
    && s in again.before && Ranked(again.before[s])
    && (forall b :: b in again.before[s] ==> b.id in again.parts && again.parts[b.id] == Part(s, b.rank))
    && (forall p :: p in again.parts && again.parts[p].segmentId == s ==>
        BeforePart(p, again.parts[p].rank) in again.before[s])
  }

  /** The orphans of the second run are those of the first with the ranks they were given. */
  ghost predicate Reranked(g: Ingest, orphans: seq<Instance>, after: seq<Instance>, s: SegmentId) {
    && |after| == |orphans|
    && (forall i :: 0 <= i < |orphans| ==> after[i].id == orphans[i].id && after[i].segmentId == orphans[i].segmentId)
    && (forall i :: 0 <= i < |orphans| && orphans[i].segmentId == s ==>
          Placed(g, orphans[i]) && orphans[i].id in GroupOf(g, orphans, orphans[i]) &&
          after[i].rank == NewRank(g, orphans, orphans[i]))
  }

  /** The rank of each id. */
  function RankMap(known: seq<Instance>): map<InstanceId, real> {
    if known == [] then map[] else RankMap(known[1..])[known[0].id := known[0].rank]
  }

  lemma {:induction false} RankMapIsRank(known: seq<Instance>)
    requires DistinctIds(known)
    ensures forall o :: o in known ==> o.id in RankMap(known) && RankMap(known)[o.id] == o.rank
  {
    if known != [] {
      RankMapIsRank(known[1..]);
      assert forall o :: o in known <==> o == known[0] || o in known[1..];
      assert forall o :: o in known[1..] ==> o.id != known[0].id;
    }
  }

  ghost predicate Climbs(ids: seq<InstanceId>, ranks: map<InstanceId, real>) {
    && (forall x :: 0 <= x < |ids| ==> ids[x] in ranks)
    && (forall x, y :: 0 <= x < y < |ids| ==> ranks[ids[x]] < ranks[ids[y]])
  }

  lemma {:induction false} ClimbingListsAgree(a: seq<InstanceId>, b: seq<InstanceId>, ranks: map<InstanceId, real>)
    requires Climbs(a, ranks) && Climbs(b, ranks) && forall id :: id in a <==> id in b
    ensures a == b
  {
    assert b != [] ==> b[0] in b;
    if a != [] {
      assert a[0] in a;
      assert a[0] in b;
      assert b[0] in a;
      assert a[0] == b[0];
      forall id ensures id in a[1..] <==> id in b[1..] {
        assert id in a <==> id == a[0] || id in a[1..];
        assert id in b <==> id == b[0] || id in b[1..];
      }
      ClimbingListsAgree(a[1..], b[1..], ranks);
    }
  }

  /** The anchor under the current Parts is the anchor of the first run. */
  lemma SameAnchor(g: Ingest, orphans: seq<Instance>, again: Ingest, o: Instance, rank: real)
    requires o in orphans && Placed(g, o) && WholeRanks(g.parts, o.segmentId)
    requires again.parts == g.parts && ListsCurrentParts(again, o.segmentId)
    requires o.id in GroupOf(g, orphans, o) && rank == NewRank(g, orphans, o)
    ensures Anchor(again.before[o.segmentId], again.parts, rank) == AnchorOf(g, o)
  {
    Lands(g, orphans, o);
    var before, a := again.before[o.segmentId], AnchorOf(g, o);
    var i := AnchorPlace(before, again.parts, rank);
    forall j | 0 <= j < |before| ensures WholeNumber(before[j].rank) && before[j].id in again.parts {
      assert before[j] in before;
    }
    if a.Some? {
      var part := BeforePart(a.value, g.parts[a.value].rank);
      assert part in before;
      var m :| 0 <= m < |before| && before[m] == part;
      forall j | m < j < |before| ensures rank < before[j].rank {
        WholeGap(part.rank, before[j].rank);
      }
    }
  }

  lemma FirstGroupPlace(g: Ingest, orphans: seq<Instance>, after: seq<Instance>, o: Instance, x: nat) returns (i: nat)
    requires DistinctIds(orphans) && o in orphans && o.segmentId in g.before
    requires Reranked(g, orphans, after, o.segmentId) && x < |GroupOf(g, orphans, o)|
    ensures i < |orphans| && after[i].id == GroupOf(g, orphans, o)[x]
    ensures after[i].rank == RankAt(g, AnchorOf(g, o), x, |GroupOf(g, orphans, o)|)
  {
    var s := o.segmentId;
    var ids := GroupOf(g, orphans, o);
    SortedFacts(orphans, s);
    FollowersMember(Sorted(orphans, s), g.before[s], g.parts, AnchorOf(g, o), None, ids[x]);
    var p :| p in Sorted(orphans, s) && p.id == ids[x] && Anchor(g.before[s], g.parts, p.rank) == AnchorOf(g, o);
    assert p in orphans;
    i :| 0 <= i < |orphans| && orphans[i] == p;
    FollowersDistinct(Sorted(orphans, s), g.before[s], g.parts, AnchorOf(g, o));
    assert GroupOf(g, orphans, p) == ids && IndexOf(ids, p.id) == x;
  }

  lemma FirstGroupRank(g: Ingest, orphans: seq<Instance>, after: seq<Instance>, o: Instance, x: nat)
    requires DistinctIds(orphans) && DistinctIds(after) && o in orphans && o.segmentId in g.before
    requires Reranked(g, orphans, after, o.segmentId) && x < |GroupOf(g, orphans, o)|
    ensures var ids := GroupOf(g, orphans, o);
            ids[x] in RankMap(after) && RankMap(after)[ids[x]] == RankAt(g, AnchorOf(g, o), x, |ids|)
  {
    RankMapIsRank(after);
    var i := FirstGroupPlace(g, orphans, after, o, x);
    assert after[i] in after;
  }

  /** The group of the first run climbs in the new ranks. */
  lemma FirstGroupClimbs(g: Ingest, orphans: seq<Instance>, after: seq<Instance>, o: Instance)
    requires DistinctIds(orphans) && DistinctIds(after) && o in orphans && Placed(g, o)
    requires Reranked(g, orphans, after, o.segmentId)
    ensures Climbs(GroupOf(g, orphans, o), RankMap(after))
  {
    var ids := GroupOf(g, orphans, o);
    forall x | 0 <= x < |ids|
      ensures ids[x] in RankMap(after) && RankMap(after)[ids[x]] == RankAt(g, AnchorOf(g, o), x, |ids|)
    {
      FirstGroupRank(g, orphans, after, o, x);
    }
    forall x, y | 0 <= x < y < |ids| ensures RankMap(after)[ids[x]] < RankMap(after)[ids[y]] {
      RankAtGrows(g, AnchorOf(g, o), x, y, |ids|);
    }
  }

  /** The group of the second run climbs because it was sorted by those ranks and no two of them are equal. */
  lemma {:induction false} FollowersClimb(sorted: seq<Instance>, before: seq<BeforePart>, parts: map<PartId, Part>,
                                          a: Option<PartId>, ranks: map<InstanceId, real>)
    requires forall i, j :: 0 <= i < j < |sorted| ==> sorted[i].rank < sorted[j].rank
    requires forall o :: o in sorted ==> o.id in ranks && ranks[o.id] == o.rank
    ensures Climbs(Followers(sorted, before, parts, a, None), ranks)
  {
    if sorted != [] {
      var rest := Followers(sorted[1..], before, parts, a, None);
      FollowersClimb(sorted[1..], before, parts, a, ranks);
      assert sorted[0] in sorted;
      forall y | 0 <= y < |rest| ensures ranks[sorted[0].id] < ranks[rest[y]] {
        FollowersMember(sorted[1..], before, parts, a, None, rest[y]);
        var q :| q in sorted[1..] && q.id == rest[y];
        assert q in sorted;
      }
    }
  }

  lemma AfterDistinct(g: Ingest, orphans: seq<Instance>, after: seq<Instance>, s: SegmentId)
    requires DistinctIds(orphans) && Reranked(g, orphans, after, s)
    ensures DistinctIds(after)
  {
  }

  /** Sorted by the new ranks, no two of which are equal, the orphans are strictly ascending. */
  lemma AfterAscends(g: Ingest, orphans: seq<Instance>, after: seq<Instance>, s: SegmentId)
    requires DistinctIds(orphans) && Reranked(g, orphans, after, s) && WholeRanks(g.parts, s)
    ensures var sorted := Sorted(after, s); forall i, j :: 0 <= i < j < |sorted| ==> sorted[i].rank < sorted[j].rank
  {
    AfterDistinct(g, orphans, after, s);
    SortedFacts(after, s);
    var sorted := Sorted(after, s);
    forall i, j | 0 <= i < j < |sorted| ensures sorted[i].rank < sorted[j].rank {
      assert sorted[i] in sorted && sorted[j] in sorted;
      var k :| 0 <= k < |after| && after[k] == sorted[i];
      var l :| 0 <= l < |after| && after[l] == sorted[j];
      assert orphans[k].id != orphans[l].id;
      RanksAreDistinct(g, orphans, orphans[k], orphans[l]);
    }
  }

  lemma MemberIndex(g: Ingest, orphans: seq<Instance>, i: nat, id: InstanceId)
    requires i < |orphans| && orphans[i].segmentId in g.before
    ensures id in GroupOf(g, orphans, orphans[i]) <==>
            exists k :: 0 <= k < |orphans| && orphans[k].id == id && orphans[k].segmentId == orphans[i].segmentId &&
                        AnchorOf(g, orphans[k]) == AnchorOf(g, orphans[i])
  {
    var s, a := orphans[i].segmentId, AnchorOf(g, orphans[i]);
    SortedFacts(orphans, s);
    FollowersMember(Sorted(orphans, s), g.before[s], g.parts, a, None, id);
    if id in GroupOf(g, orphans, orphans[i]) {
      var o :| o in Sorted(orphans, s) && o.id == id && Anchor(g.before[s], g.parts, o.rank) == a;
      var k :| 0 <= k < |orphans| && orphans[k] == o;
    }
    if k :| 0 <= k < |orphans| && orphans[k].id == id && orphans[k].segmentId == s && AnchorOf(g, orphans[k]) == a {
      assert orphans[k] in Sorted(orphans, s);
    }
  }

  lemma SameMembers(g: Ingest, orphans: seq<Instance>, again: Ingest, after: seq<Instance>, i: nat, id: InstanceId)
    requires DistinctIds(orphans) && i < |orphans|
    requires var s := orphans[i].segmentId;
             && Reranked(g, orphans, after, s) && WholeRanks(g.parts, s)
             && again.parts == g.parts && ListsCurrentParts(again, s)
    ensures id in GroupOf(g, orphans, orphans[i]) <==> id in GroupOf(again, after, after[i])
  {
    forall k | 0 <= k < |orphans| && orphans[k].segmentId == orphans[i].segmentId
      ensures AnchorOf(again, after[k]) == AnchorOf(g, orphans[k])
    {
      SameAnchor(g, orphans, again, orphans[k], after[k].rank);
    }
    MemberIndex(g, orphans, i, id);
    MemberIndex(again, after, i, id);
  }

  /** The second run finds the same group. */
  lemma SameGroup(g: Ingest, orphans: seq<Instance>, again: Ingest, after: seq<Instance>, i: nat)
    requires DistinctIds(orphans) && i < |orphans|
    requires var s := orphans[i].segmentId;
             && Reranked(g, orphans, after, s) && WholeRanks(g.parts, s)
             && again.parts == g.parts && ListsCurrentParts(again, s)
    ensures AnchorOf(again, after[i]) == AnchorOf(g, orphans[i])
    ensures GroupOf(again, after, after[i]) == GroupOf(g, orphans, orphans[i])
  {
    var o, s := orphans[i], orphans[i].segmentId;
    SameAnchor(g, orphans, again, o, after[i].rank);
    AfterDistinct(g, orphans, after, s);
    AfterAscends(g, orphans, after, s);
    SortedFacts(after, s);
    RankMapIsRank(after);
    FirstGroupClimbs(g, orphans, after, o);
    FollowersClimb(Sorted(after, s), again.before[s], again.parts, AnchorOf(g, o), RankMap(after));
    forall id ensures id in GroupOf(g, orphans, o) <==> id in GroupOf(again, after, after[i]) {
      SameMembers(g, orphans, again, after, i, id);
    }
    ClimbingListsAgree(GroupOf(g, orphans, o), GroupOf(again, after, after[i]), RankMap(after));
  }

  /** Idempotence: the second run gives every orphan exactly the rank it has. */
  lemma RerunChangesNothing(g: Ingest, orphans: seq<Instance>, again: Ingest, after: seq<Instance>, i: nat)
    requires DistinctIds(orphans) && i < |orphans|
    requires var s := orphans[i].segmentId;
             && Reranked(g, orphans, after, s) && WholeRanks(g.parts, s)
             && again.parts == g.parts && ListsCurrentParts(again, s)
    ensures after[i].id in GroupOf(again, after, after[i])
    ensures NewRank(again, after, after[i]) == after[i].rank
  {
    SameGroup(g, orphans, again, after, i);
  }
}
