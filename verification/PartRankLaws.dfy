/**
 * What the declarative ranks guarantee: the old order is embedded in the new one, no two ranks collide,
 * and assigning them a second time changes nothing.
 */
module PartRankLaws {
  import opened Wrappers
  import opened PartRanks

  predicate WholeNumber(r: real) {
    0.0 <= r && r == r.Floor as real
  }

  /** Parts of one segment have distinct whole ranks. */
  ghost predicate WholeRanks(parts: map<PartId, Part>, segmentId: SegmentId) {
    && (forall p :: p in parts && parts[p].segmentId == segmentId ==> WholeNumber(parts[p].rank))
    && (forall p, q :: p in parts && q in parts && p != q && parts[p].segmentId == parts[q].segmentId == segmentId
          ==> parts[p].rank != parts[q].rank)
  }

  /** The surviving Parts of a segment stay in it. */
  ghost predicate SurvivorsStay(g: Ingest, segmentId: SegmentId)
    requires segmentId in g.before
  {
    forall b :: b in g.before[segmentId] && b.id in g.parts ==> g.parts[b.id].segmentId == segmentId
  }

  /** The surviving Parts of a segment keep their relative order. */
  ghost predicate SurvivorsKeepOrder(g: Ingest, segmentId: SegmentId)
    requires segmentId in g.before
  {
    Ranked(g.before[segmentId]) && KeepOrder(g.before[segmentId], g.parts)
  }

  ghost predicate KeepOrder(before: seq<BeforePart>, parts: map<PartId, Part>) {
    forall i, j :: 0 <= i < j < |before| && before[i].id in parts && before[j].id in parts
      ==> parts[before[i].id].rank < parts[before[j].id].rank
  }

  /******* Arithmetic of the gap after a Part *******/

  lemma Fraction(k: nat, n: nat)
    requires k < n
    ensures 0.0 < 1.0 / (n as real + 1.0) * (k as real + 1.0) < 1.0
  {
    var d := n as real + 1.0;
    assert 1.0 / d * d == 1.0;
    assert 1.0 / d > 0.0;
    assert 1.0 / d * (k as real + 1.0) < 1.0 / d * d;
  }

  lemma FractionGrows(j: nat, k: nat, n: nat)
    requires j < k
    ensures 1.0 / (n as real + 1.0) * (j as real + 1.0) < 1.0 / (n as real + 1.0) * (k as real + 1.0)
  {
    assert 1.0 / (n as real + 1.0) > 0.0;
  }

  lemma RankAtGrows(g: Ingest, a: Option<PartId>, j: nat, k: nat, n: nat)
    requires j < k && (a.Some? ==> a.value in g.parts)
    ensures RankAt(g, a, j, n) < RankAt(g, a, k, n)
  {
    FractionGrows(j, k, n);
  }

  lemma WholeGap(a: real, b: real)
    requires WholeNumber(a) && WholeNumber(b) && a < b
    ensures a + 1.0 <= b
  {
    assert a.Floor < b.Floor;
  }

  /******* Anchors *******/

  /** The anchor sits at a place of the old order; no survivor lies between it and the orphan. */
  ghost predicate AnchoredAt(before: seq<BeforePart>, parts: map<PartId, Part>, rank: real, i: nat) {
    && i < |before| && before[i].rank <= rank && before[i].id in parts
    && forall j :: i < j < |before| && before[j].rank <= rank ==> before[j].id !in parts
  }

  lemma {:induction false} AnchorPlace(before: seq<BeforePart>, parts: map<PartId, Part>, rank: real) returns (i: nat)
    ensures var a := Anchor(before, parts, rank);
            && (a.Some? ==> AnchoredAt(before, parts, rank, i) && before[i].id == a.value)
            && (a.None? ==> forall j :: 0 <= j < |before| && before[j].rank <= rank ==> before[j].id !in parts)
  {
    i := 0;
    if before != [] {
      var n := |before| - 1;
      if before[n].rank <= rank && before[n].id in parts {
        i := n;
      } else {
        i := AnchorPlace(before[..n], parts, rank);
        assert forall j :: 0 <= j < n ==> before[..n][j] == before[j];
      }
    }
  }

  lemma {:induction false} FollowersInOrder(sorted: seq<Instance>, before: seq<BeforePart>, parts: map<PartId, Part>,
                                            a: Option<PartId>, i: nat, j: nat)
    requires DistinctIds(sorted) && i < j < |sorted|
    requires Anchor(before, parts, sorted[i].rank) == a && Anchor(before, parts, sorted[j].rank) == a
    ensures var ids := Followers(sorted, before, parts, a, None);
            sorted[i].id in ids && sorted[j].id in ids && IndexOf(ids, sorted[i].id) < IndexOf(ids, sorted[j].id)
  {
    FollowersMember(sorted, before, parts, a, None, sorted[i].id);
    FollowersMember(sorted, before, parts, a, None, sorted[j].id);
    var rest := Followers(sorted[1..], before, parts, a, None);
    if i > 0 {
      FollowersInOrder(sorted[1..], before, parts, a, i - 1, j - 1);
      assert sorted[1..][i - 1] == sorted[i] && sorted[1..][j - 1] == sorted[j];
      if Anchor(before, parts, sorted[0].rank) == a {
        assert ([sorted[0].id] + rest)[1..] == rest;
      } else {
        assert Followers(sorted, before, parts, a, None) == rest;
      }
    }
  }

  /******* The order is embedded *******/

  /** Where an orphan lands relative to its own anchor. */
  lemma Lands(g: Ingest, orphans: seq<Instance>, o: Instance)
    requires o in orphans && Placed(g, o) && WholeRanks(g.parts, o.segmentId)
    ensures o.id in GroupOf(g, orphans, o)
    ensures AnchorOf(g, o).None? ==> NewRank(g, orphans, o) < 0.0
    ensures AnchorOf(g, o).Some? ==>
              var rank := g.parts[AnchorOf(g, o).value].rank;
              WholeNumber(rank) && rank < NewRank(g, orphans, o) < rank + 1.0
  {
    InOwnGroup(g, orphans, o);
    var ids, a := GroupOf(g, orphans, o), AnchorOf(g, o);
    PlaceLands(if a.Some? then Some(g.parts[a.value].rank) else None, IndexOf(ids, o.id), |ids|);
  }

  lemma PlaceLands(after: Option<real>, k: nat, n: nat)
    requires k < n
    ensures after.None? ==> PlaceRank(after, k, n) < 0.0
    ensures after.Some? ==> after.value < PlaceRank(after, k, n) < after.value + 1.0
  {
    Fraction(k, n);
  }

  /** Within a group the ranks follow the places. */
  lemma GroupAscends(g: Ingest, orphans: seq<Instance>, o: Instance, p: Instance)
    requires o in orphans && p in orphans && o.segmentId == p.segmentId && Placed(g, o) &&
             AnchorOf(g, o) == AnchorOf(g, p)
    requires o.id in GroupOf(g, orphans, o) && p.id in GroupOf(g, orphans, o)
    requires IndexOf(GroupOf(g, orphans, o), o.id) < IndexOf(GroupOf(g, orphans, o), p.id)
    ensures NewRank(g, orphans, o) < NewRank(g, orphans, p)
  {
    var ids := GroupOf(g, orphans, o);
    assert ids == GroupOf(g, orphans, p);
    RankAtGrows(g, AnchorOf(g, o), IndexOf(ids, o.id), IndexOf(ids, p.id), |ids|);
  }

  /** Across groups the ranks follow the anchors, no anchor being below every Part. */
  lemma GroupsApart(g: Ingest, orphans: seq<Instance>, o: Instance, p: Instance)
    requires o in orphans && p in orphans && o.segmentId == p.segmentId && Placed(g, o) && Placed(g, p)
    requires WholeRanks(g.parts, o.segmentId)
    requires AnchorOf(g, p).Some?
    requires AnchorOf(g, o).Some? ==> g.parts[AnchorOf(g, o).value].rank < g.parts[AnchorOf(g, p).value].rank
    ensures o.id in GroupOf(g, orphans, o) && p.id in GroupOf(g, orphans, p)
    ensures NewRank(g, orphans, o) < NewRank(g, orphans, p)
  {
    Lands(g, orphans, o);
    Lands(g, orphans, p);
    if AnchorOf(g, o).Some? {
      WholeGap(g.parts[AnchorOf(g, o).value].rank, g.parts[AnchorOf(g, p).value].rank);
    }
  }

  /** Orphans keep their mutual order. */
  lemma KeepsOrphanOrder(g: Ingest, orphans: seq<Instance>, s: SegmentId, i: nat, j: nat)
    requires DistinctIds(orphans) && i < j < |Sorted(orphans, s)|
    requires s in g.changed && s in g.before && WholeRanks(g.parts, s) && SurvivorsStay(g, s) &&
             SurvivorsKeepOrder(g, s)
    ensures var o, p := Sorted(orphans, s)[i], Sorted(orphans, s)[j];
            && o in orphans && p in orphans && o.segmentId == p.segmentId == s
            && o.id in GroupOf(g, orphans, o) && p.id in GroupOf(g, orphans, p)
            && NewRank(g, orphans, o) < NewRank(g, orphans, p)
  {
    SortedFacts(orphans, s);
    var sorted := Sorted(orphans, s);
    var o, p := sorted[i], sorted[j];
    assert o in sorted && p in sorted && o.rank <= p.rank;
    SurvivorsArePlaced(g, o);
    SurvivorsArePlaced(g, p);
    InOwnGroup(g, orphans, o);
    InOwnGroup(g, orphans, p);
    AnchorsAscend(g.before[s], g.parts, o.rank, p.rank);
    if AnchorOf(g, o) == AnchorOf(g, p) {
      FollowersInOrder(sorted, g.before[s], g.parts, AnchorOf(g, o), i, j);
      GroupAscends(g, orphans, o, p);
    } else {
      GroupsApart(g, orphans, o, p);
    }
  }

  lemma SurvivorsArePlaced(g: Ingest, o: Instance)
    requires o.segmentId in g.changed && o.segmentId in g.before && SurvivorsStay(g, o.segmentId)
    ensures Placed(g, o)
  {
    var i := AnchorPlace(g.before[o.segmentId], g.parts, o.rank);
  }

  /** A higher orphan never has an earlier anchor. */
  lemma AnchorsAscend(before: seq<BeforePart>, parts: map<PartId, Part>, low: real, high: real)
    requires Ranked(before) && KeepOrder(before, parts) && low <= high
    ensures var a, b := Anchor(before, parts, low), Anchor(before, parts, high);
            a.Some? && a != b ==>
              b.Some? && a.value in parts && b.value in parts && parts[a.value].rank < parts[b.value].rank
  {
    var i := AnchorPlace(before, parts, low);
    var j := AnchorPlace(before, parts, high);
    if Anchor(before, parts, low).Some? {
      assert before[i].rank <= high && before[i].id in parts;
      assert Anchor(before, parts, high).Some?;
      assert i <= j;
    }
  }

  /** An orphan stays on its side of every surviving Part. */
  lemma KeepsSideOfPart(g: Ingest, orphans: seq<Instance>, o: Instance, m: nat)
    requires o in orphans && o.segmentId in g.changed && o.segmentId in g.before
    requires WholeRanks(g.parts, o.segmentId) && SurvivorsStay(g, o.segmentId) && SurvivorsKeepOrder(g, o.segmentId)
    requires m < |g.before[o.segmentId]| && g.before[o.segmentId][m].id in g.parts
    ensures var part := g.before[o.segmentId][m];
            && o.id in GroupOf(g, orphans, o)
            && (part.rank <= o.rank ==> g.parts[part.id].rank < NewRank(g, orphans, o))
            && (o.rank < part.rank ==> NewRank(g, orphans, o) < g.parts[part.id].rank)
  {
    SurvivorsArePlaced(g, o);
    Lands(g, orphans, o);
    var before := g.before[o.segmentId];
    var part := before[m];
    assert part in before;
    var i := AnchorPlace(before, g.parts, o.rank);
    if AnchorOf(g, o).Some? && o.rank < part.rank {
      assert i < m;
      WholeGap(g.parts[before[i].id].rank, g.parts[part.id].rank);
    }
  }

  /** No orphan lands on a Part of its segment, old or newly inserted. */
  lemma NeverOnAPart(g: Ingest, orphans: seq<Instance>, o: Instance, p: PartId)
    requires o in orphans && Placed(g, o) && WholeRanks(g.parts, o.segmentId)
    requires p in g.parts && g.parts[p].segmentId == o.segmentId
    ensures o.id in GroupOf(g, orphans, o) && NewRank(g, orphans, o) != g.parts[p].rank
  {
    Lands(g, orphans, o);
    if AnchorOf(g, o).Some? {
      var a := g.parts[AnchorOf(g, o).value].rank;
      if a < g.parts[p].rank {
        WholeGap(a, g.parts[p].rank);
      }
    }
  }

  /** No two orphans of a segment share a rank, even if the Parts were reordered. */
  lemma RanksAreDistinct(g: Ingest, orphans: seq<Instance>, o: Instance, p: Instance)
    requires DistinctIds(orphans) && o in orphans && p in orphans && o != p && o.segmentId == p.segmentId
    requires Placed(g, o) && Placed(g, p) && WholeRanks(g.parts, o.segmentId)
    ensures o.id in GroupOf(g, orphans, o) && p.id in GroupOf(g, orphans, p)
    ensures NewRank(g, orphans, o) != NewRank(g, orphans, p)
  {
    InOwnGroup(g, orphans, o);
    InOwnGroup(g, orphans, p);
    var a, b := AnchorOf(g, o), AnchorOf(g, p);
    if a == b {
      DifferentIds(orphans, o, p);
      var ids := GroupOf(g, orphans, o);
      if IndexOf(ids, o.id) < IndexOf(ids, p.id) {
        GroupAscends(g, orphans, o, p);
      } else {
        GroupAscends(g, orphans, p, o);
      }
    } else if a.None? || (b.Some? && g.parts[a.value].rank < g.parts[b.value].rank) {
      GroupsApart(g, orphans, o, p);
    } else {
      GroupsApart(g, orphans, p, o);
    }
  }

  lemma DifferentIds(orphans: seq<Instance>, o: Instance, p: Instance)
    requires DistinctIds(orphans) && o in orphans && p in orphans && o != p
    ensures o.id != p.id
  {
    var i :| 0 <= i < |orphans| && orphans[i] == o;
    var j :| 0 <= j < |orphans| && orphans[j] == p;
  }

  lemma OneById(orphans: seq<Instance>, o: Instance, p: Instance)
    requires DistinctIds(orphans) && o in orphans && p in orphans && o.id == p.id
    ensures o == p
  {
    if o != p { DifferentIds(orphans, o, p); }
  }

  lemma {:induction false} FollowersDistinct(sorted: seq<Instance>, before: seq<BeforePart>, parts: map<PartId, Part>,
                                             a: Option<PartId>)
    requires DistinctIds(sorted)
    ensures var ids := Followers(sorted, before, parts, a, None);
            forall x, y :: 0 <= x < y < |ids| ==> ids[x] != ids[y]
  {
    if sorted != [] {
      FollowersDistinct(sorted[1..], before, parts, a);
      FollowersMember(sorted[1..], before, parts, a, None, sorted[0].id);
      assert forall o :: o in sorted[1..] ==> o.id != sorted[0].id;
    }
  }
}
