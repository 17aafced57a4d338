/**
 * The reconciliation itself: the loops that group orphans by the Part they followed, carry the groups
 * of removed Parts over to the Part before, and assign ranks, proved against the declarative ranks.
 */
module PartReconcile {
  import opened Wrappers
  import opened PartRanks
  import opened PartRankLaws
  import opened PartRankRerun

  datatype Group = Group(after: Option<PartId>, ids: seq<InstanceId>)
  datatype Target = Target(rank: real, segmentId: SegmentId, ids: seq<InstanceId>)
  datatype Regrouping = Regrouping(
    targets: map<PartId, Target>,
    starts: map<SegmentId, seq<InstanceId>>,
    previous: Option<PartId>)

  /******* Grouping by the old Parts *******/

  function Within(sorted: seq<Instance>, low: Option<real>, high: Option<real>): seq<InstanceId> {
    if sorted == [] then []
    else
      (if (low.Some? ==> low.value <= sorted[0].rank) && (high.Some? ==> sorted[0].rank < high.value)
       then [sorted[0].id] else [])
      + Within(sorted[1..], low, high)
  }

  function GroupsFrom(sorted: seq<Instance>, previous: BeforePart, rest: seq<BeforePart>): seq<Group>
    decreases |rest|
  {
    if rest == [] then [Group(Some(previous.id), Within(sorted, Some(previous.rank), None))]
    else
      [Group(Some(previous.id), Within(sorted, Some(previous.rank), Some(rest[0].rank)))]
      + GroupsFrom(sorted, rest[0], rest[1..])
  }

  function GroupsOf(before: seq<BeforePart>, sorted: seq<Instance>): seq<Group> {
    if sorted == [] then []
    else if before == [] then [Group(None, Within(sorted, None, None))]
    else [Group(None, Within(sorted, None, Some(before[0].rank)))] + GroupsFrom(sorted, before[0], before)
  }

  method CompileSegment(before: seq<BeforePart>, sorted: seq<Instance>) returns (groups: seq<Group>)
    ensures groups == GroupsOf(before, sorted)
  {
    groups := [];
    if sorted == [] { return; }
    if before == [] {
      return [Group(None, Within(sorted, None, None))];
    }
    var previous := before[0];
    groups := [Group(None, Within(sorted, None, Some(previous.rank)))];
    for i := 0 to |before|
      invariant groups + GroupsFrom(sorted, previous, before[i..]) == GroupsOf(before, sorted)
    {
      assert before[i..][1..] == before[i + 1..];
      groups := groups + [Group(Some(previous.id), Within(sorted, Some(previous.rank), Some(before[i].rank)))];
      previous := before[i];
    }
    groups := groups + [Group(Some(previous.id), Within(sorted, Some(previous.rank), None))];
  }

  method CompileOriginalPartInstanceOrderMap(before: map<SegmentId, seq<BeforePart>>, orphans: seq<Instance>)
    returns (result: map<SegmentId, seq<Group>>)
    ensures result == map s | s in before :: GroupsOf(before[s], Sorted(orphans, s))
  {
    result := map[];
    var todo := before.Keys;
    while todo != {}
      invariant todo <= before.Keys && result.Keys == before.Keys - todo
      invariant forall s :: s in result ==> result[s] == GroupsOf(before[s], Sorted(orphans, s))
    {
      var s :| s in todo;
      var groups := CompileSegment(before[s], Sorted(orphans, s));
      result := result[s := groups];
      todo := todo - {s};
    }
  }

  /******* Carrying groups over to the Parts that are left *******/

  function Appended(starts: map<SegmentId, seq<InstanceId>>, s: SegmentId, ids: seq<InstanceId>): seq<InstanceId> {
    if s in starts then starts[s] + ids else ids
  }

  function Regroup(r: Regrouping, parts: map<PartId, Part>, s: SegmentId, group: Group): Regrouping {
    if group.after.None? then
      r.(starts := r.starts[s := group.ids])
    else
      var p := group.after.value;
      if p in parts then
        Regrouping(r.targets[p := Target(parts[p].rank, parts[p].segmentId, group.ids)], r.starts, Some(p))
      else if r.previous.Some? && r.previous.value in r.targets then
        var t := r.targets[r.previous.value];
        r.(targets := r.targets[r.previous.value := t.(ids := t.ids + group.ids)])
      else
        r.(starts := r.starts[s := Appended(r.starts, s, group.ids)])
  }

  function RegroupAll(r: Regrouping, parts: map<PartId, Part>, s: SegmentId, groups: seq<Group>): Regrouping
    decreases |groups|
  {
    if groups == [] then r else RegroupAll(Regroup(r, parts, s, groups[0]), parts, s, groups[1..])
  }

  function LastSurvivor(before: seq<BeforePart>, parts: map<PartId, Part>): Option<PartId> {
    if before == [] then None
    else
      var last := before[|before| - 1];
      if last.id in parts then Some(last.id) else LastSurvivor(before[..|before| - 1], parts)
  }

  lemma {:induction false} AnchorAboveAll(before: seq<BeforePart>, parts: map<PartId, Part>, rank: real)
    requires forall b :: b in before ==> b.rank <= rank
    ensures Anchor(before, parts, rank) == LastSurvivor(before, parts)
  {
    if before != [] {
      assert before[|before| - 1] in before;
      AnchorAboveAll(before[..|before| - 1], parts, rank);
    }
  }

  lemma {:induction false} NoneBelow(sorted: seq<Instance>, before: seq<BeforePart>, parts: map<PartId, Part>,
                                     a: Option<PartId>, bound: real)
    requires forall o :: o in sorted ==> bound <= o.rank
    ensures Followers(sorted, before, parts, a, Some(bound)) == []
  {
    if sorted != [] {
      assert sorted[0] in sorted;
      NoneBelow(sorted[1..], before, parts, a, bound);
    }
  }

  lemma {:induction false} WithinItself(sorted: seq<Instance>, rank: real)
    ensures Within(sorted, Some(rank), Some(rank)) == []
  {
    if sorted != [] { WithinItself(sorted[1..], rank); }
  }

  lemma {:induction false} FollowersOfNone(sorted: seq<Instance>, parts: map<PartId, Part>, high: Option<real>)
    ensures Followers(sorted, [], parts, None, high) == Within(sorted, None, high)
  {
    if sorted != [] { FollowersOfNone(sorted[1..], parts, high); }
  }

  ghost predicate Above(before: seq<BeforePart>, rank: real) {
    forall b :: b in before ==> b.rank < rank
  }

  lemma AnchorExtended(before: seq<BeforePart>, next: BeforePart, parts: map<PartId, Part>, rank: real)
    requires Above(before, next.rank)
    ensures rank < next.rank ==> Anchor(before + [next], parts, rank) == Anchor(before, parts, rank)
    ensures next.rank <= rank ==> Anchor(before + [next], parts, rank) == LastSurvivor(before + [next], parts)
  {
    assert (before + [next])[..|before|] == before;
    if next.rank <= rank {
      AnchorAboveAll(before + [next], parts, rank);
    }
  }

  lemma {:induction false} FollowersAbove(sorted: seq<Instance>, before: seq<BeforePart>, next: BeforePart,
                                          parts: map<PartId, Part>, a: Option<PartId>, high: Option<real>)
    requires (forall o :: o in sorted ==> next.rank <= o.rank) && Above(before, next.rank)
    ensures Followers(sorted, before + [next], parts, a, high) ==
            if a == LastSurvivor(before + [next], parts) then Within(sorted, Some(next.rank), high) else []
  {
    if sorted != [] {
      assert sorted[0] in sorted;
      AnchorExtended(before, next, parts, sorted[0].rank);
      FollowersAbove(sorted[1..], before, next, parts, a, high);
    }
  }

  function Moved(sorted: seq<Instance>, now: seq<BeforePart>, low: real, parts: map<PartId, Part>, a: Option<PartId>,
                 high: Option<real>): seq<InstanceId>
  {
    if a == LastSurvivor(now, parts) then Within(sorted, Some(low), high) else []
  }

  /** Taking one more Part into account only moves those at or above it. */
  lemma {:induction false} FollowersExtended(sorted: seq<Instance>, before: seq<BeforePart>, next: BeforePart,
                                             parts: map<PartId, Part>, a: Option<PartId>, high: Option<real>)
    requires Ascending(sorted) && Above(before, next.rank) && (high.Some? ==> next.rank <= high.value)
    ensures Followers(sorted, before + [next], parts, a, high) ==
            Followers(sorted, before, parts, a, Some(next.rank)) +
                Moved(sorted, before + [next], next.rank, parts, a, high)
  {
    if sorted == [] {
    } else if next.rank <= sorted[0].rank {
      assert forall o :: o in sorted ==> next.rank <= o.rank;
      FollowersAbove(sorted, before, next, parts, a, high);
      NoneBelow(sorted, before, parts, a, next.rank);
    } else {
      FollowersExtended(sorted[1..], before, next, parts, a, high);
      FollowersHead(sorted, before, next, parts, a, high);
    }
  }

  lemma FollowersHead(sorted: seq<Instance>, before: seq<BeforePart>, next: BeforePart, parts: map<PartId, Part>,
                      a: Option<PartId>, high: Option<real>)
    requires sorted != [] && sorted[0].rank < next.rank && Above(before, next.rank) &&
             (high.Some? ==> next.rank <= high.value)
    requires Followers(sorted[1..], before + [next], parts, a, high) ==
             Followers(sorted[1..], before, parts, a, Some(next.rank)) +
                 Moved(sorted[1..], before + [next], next.rank, parts, a, high)
    ensures Followers(sorted, before + [next], parts, a, high) ==
            Followers(sorted, before, parts, a, Some(next.rank)) +
                Moved(sorted, before + [next], next.rank, parts, a, high)
  {
    AnchorExtended(before, next, parts, sorted[0].rank);
    var head := if Anchor(before, parts, sorted[0].rank) == a then [sorted[0].id] else [];
    MovedHead(sorted, before + [next], next.rank, parts, a, high);
    Associative(head, Followers(sorted[1..], before, parts, a, Some(next.rank)),
                Moved(sorted[1..], before + [next], next.rank, parts, a, high));
  }

  lemma MovedHead(sorted: seq<Instance>, now: seq<BeforePart>, low: real, parts: map<PartId, Part>, a: Option<PartId>,
                  high: Option<real>)
    requires sorted != [] && sorted[0].rank < low
    ensures Moved(sorted, now, low, parts, a, high) == Moved(sorted[1..], now, low, parts, a, high)
  {
  }

  /** The regrouping once the Parts in before have been handled: below the bound everyone is with its
      anchor.  The Part extra may have been entered already, with nobody following it. */
  ghost predicate Handled(r: Regrouping, r0: Regrouping, parts: map<PartId, Part>, s: SegmentId, sorted: seq<Instance>,
                          before: seq<BeforePart>, extra: PartId, bound: Option<real>)
  {
    && Groups(r, r0, parts, s, before, extra, a => Followers(sorted, before, parts, a, bound))
    && (r.previous == LastSurvivor(before, parts) || extra in parts)
  }

  /** Everyone is in the group of the one they follow. */
  ghost predicate Groups(r: Regrouping, r0: Regrouping, parts: map<PartId, Part>, s: SegmentId, before: seq<BeforePart>,
                         extra: PartId, followers: Option<PartId> -> seq<InstanceId>)
  {
    && r.starts == r0.starts[s := followers(None)]
    && (forall p :: p in r0.targets ==> p in r.targets && r.targets[p] == r0.targets[p])
    && (forall p :: p in r.targets ==> p in r0.targets || (p in parts && (p == extra || Names(before, p))))
    && (forall b :: b in before && b.id in parts ==>
          b.id in r.targets && r.targets[b.id] ==
              Target(parts[b.id].rank, parts[b.id].segmentId, followers(Some(b.id))))
  }

  ghost predicate Names(before: seq<BeforePart>, p: PartId) {
    exists b :: b in before && b.id == p
  }

  lemma {:induction false} LastSurvivorIsOne(before: seq<BeforePart>, parts: map<PartId, Part>)
    ensures var a := LastSurvivor(before, parts);
            a.Some? ==> a.value in parts && Names(before, a.value)
  {
    if before != [] {
      LastSurvivorIsOne(before[..|before| - 1], parts);
      assert before[|before| - 1] in before;
    }
  }

  /** A Part that is left takes over everyone from it on. */
  lemma HandledSurvivor(r: Regrouping, r0: Regrouping, parts: map<PartId, Part>, s: SegmentId, sorted: seq<Instance>,
                        before: seq<BeforePart>, next: BeforePart, high: Option<real>)
    requires Handled(r, r0, parts, s, sorted, before, next.id, Some(next.rank)) && next.id in parts
    requires Ascending(sorted) && Above(before, next.rank) && (high.Some? ==> next.rank <= high.value)
    requires forall b :: b in before ==> b.id != next.id && b.id !in r0.targets
    requires next.id !in r0.targets
    ensures var r' := Regroup(r, parts, s, Group(Some(next.id), Within(sorted, Some(next.rank), high)));
            && Handled(r', r0, parts, s, sorted, before + [next], next.id, high)
            && r'.previous == LastSurvivor(before + [next], parts)
  {
    var within, now := Within(sorted, Some(next.rank), high), before + [next];
    var was: Option<PartId> -> seq<InstanceId> := a => Followers(sorted, before, parts, a, Some(next.rank));
    var here: Option<PartId> -> seq<InstanceId> := a => Followers(sorted, now, parts, a, high);
    assert now[..|before|] == before;
    assert LastSurvivor(now, parts) == Some(next.id);
    forall a ensures here(a) == if a == Some(next.id) then within else was(a) {
      FollowersPastSurvivor(sorted, before, next, parts, a, high);
    }
    SurvivorAdded(r, r0, parts, s, before, next, now, was, here, within);
  }

  lemma FollowersPastSurvivor(sorted: seq<Instance>, before: seq<BeforePart>, next: BeforePart,
                              parts: map<PartId, Part>, a: Option<PartId>, high: Option<real>)
    requires Ascending(sorted) && Above(before, next.rank) && (high.Some? ==> next.rank <= high.value) &&
             next.id in parts
    requires forall b :: b in before ==> b.id != next.id
    ensures Followers(sorted, before + [next], parts, a, high) ==
            if a == Some(next.id) then Within(sorted, Some(next.rank), high)
                else Followers(sorted, before, parts, a, Some(next.rank))
  {
    var ids := Followers(sorted, before, parts, a, Some(next.rank));
    FollowersExtended(sorted, before, next, parts, a, high);
    FollowersOfLater(sorted, before, parts, next.id, Some(next.rank));
    assert ids + [] == ids;
    assert a == Some(next.id) ==> [] + Within(sorted, Some(next.rank), high) == Within(sorted, Some(next.rank), high);
  }

  lemma SurvivorAdded(r: Regrouping, r0: Regrouping, parts: map<PartId, Part>, s: SegmentId, before: seq<BeforePart>,
                      next: BeforePart, now: seq<BeforePart>, was: Option<PartId> -> seq<InstanceId>,
                      here: Option<PartId> -> seq<InstanceId>, within: seq<InstanceId>)
    requires Groups(r, r0, parts, s, before, next.id, was) && next.id in parts && next.id !in r0.targets
    requires forall b :: b in now <==> b in before || b == next
    requires forall b :: b in before ==> b.id != next.id
    requires forall a :: here(a) == if a == Some(next.id) then within else was(a)
    ensures Groups(Regrouping(r.targets[next.id := Target(parts[next.id].rank, parts[next.id].segmentId, within)],
            r.starts, Some(next.id)),
                   r0, parts, s, now, next.id, here)
  {
    assert next in now;
  }

  lemma FollowersPastRemoved(sorted: seq<Instance>, before: seq<BeforePart>, next: BeforePart, parts: map<PartId, Part>,
                             a: Option<PartId>, high: Option<real>)
    requires Ascending(sorted) && Above(before, next.rank) && (high.Some? ==> next.rank <= high.value) &&
             next.id !in parts
    ensures LastSurvivor(before + [next], parts) == LastSurvivor(before, parts)
    ensures Followers(sorted, before + [next], parts, a, high) ==
            if a == LastSurvivor(before, parts)
              then Followers(sorted, before, parts, a, Some(next.rank)) + Within(sorted, Some(next.rank), high)
              else Followers(sorted, before, parts, a, Some(next.rank))
  {
    assert (before + [next])[..|before|] == before;
    FollowersExtended(sorted, before, next, parts, a, high);
    var ids := Followers(sorted, before, parts, a, Some(next.rank));
    assert ids + [] == ids;
  }

  /** Everyone from a removed Part on goes to the last Part that is left, or to the start. */
  lemma HandledRemoved(r: Regrouping, r0: Regrouping, parts: map<PartId, Part>, s: SegmentId, sorted: seq<Instance>,
                       before: seq<BeforePart>, next: BeforePart, high: Option<real>)
    requires Handled(r, r0, parts, s, sorted, before, next.id, Some(next.rank)) && next.id !in parts
    requires Ascending(sorted) && Above(before, next.rank) && (high.Some? ==> next.rank <= high.value)
    requires forall b :: b in before ==> b.id != next.id && b.id !in r0.targets
    ensures var r' := Regroup(r, parts, s, Group(Some(next.id), Within(sorted, Some(next.rank), high)));
            && Handled(r', r0, parts, s, sorted, before + [next], next.id, high)
            && r'.previous == LastSurvivor(before + [next], parts)
  {
    var within, now := Within(sorted, Some(next.rank), high), before + [next];
    var was: Option<PartId> -> seq<InstanceId> := a => Followers(sorted, before, parts, a, Some(next.rank));
    var here: Option<PartId> -> seq<InstanceId> := a => Followers(sorted, now, parts, a, high);
    forall a ensures here(a) == if a == r.previous then was(a) + within else was(a) {
      FollowersPastRemoved(sorted, before, next, parts, a, high);
    }
    FollowersPastRemoved(sorted, before, next, parts, None, high);
    LastSurvivorIsOne(before, parts);
    if r.previous.None? {
      RemovedAtStart(r, r0, parts, s, before, next, now, was, here, within);
    } else {
      RemovedAfter(r, r0, parts, s, before, next, now, was, here, within);
    }
  }

  lemma RemovedAtStart(r: Regrouping, r0: Regrouping, parts: map<PartId, Part>, s: SegmentId, before: seq<BeforePart>,
                       next: BeforePart, now: seq<BeforePart>, was: Option<PartId> -> seq<InstanceId>,
                       here: Option<PartId> -> seq<InstanceId>, within: seq<InstanceId>)
    requires Groups(r, r0, parts, s, before, next.id, was) && next.id !in parts
    requires forall b :: b in now <==> b in before || b == next
    requires forall a :: here(a) == if a == None then was(a) + within else was(a)
    ensures Groups(r.(starts := r.starts[s := r.starts[s] + within]), r0, parts, s, now, next.id, here)
  {
  }

  lemma RemovedAfter(r: Regrouping, r0: Regrouping, parts: map<PartId, Part>, s: SegmentId, before: seq<BeforePart>,
                     next: BeforePart, now: seq<BeforePart>, was: Option<PartId> -> seq<InstanceId>,
                     here: Option<PartId> -> seq<InstanceId>, within: seq<InstanceId>)
    requires Groups(r, r0, parts, s, before, next.id, was) && next.id !in parts
    requires r.previous.Some? && r.previous.value in parts && Names(before, r.previous.value)
    requires forall b :: b in now <==> b in before || b == next
    requires forall b :: b in before ==> b.id !in r0.targets
    requires forall a :: here(a) == if a == r.previous then was(a) + within else was(a)
    ensures var p := r.previous.value;
            && p in r.targets
            && var t := r.targets[p];
               Groups(r.(targets := r.targets[p := t.(ids := t.ids + within)]), r0, parts, s, now, next.id, here)
  {
  }

  lemma HandledNext(r: Regrouping, r0: Regrouping, parts: map<PartId, Part>, s: SegmentId, sorted: seq<Instance>,
                    before: seq<BeforePart>, next: BeforePart, high: Option<real>)
    requires Handled(r, r0, parts, s, sorted, before, next.id, Some(next.rank))
    requires Ascending(sorted) && Above(before, next.rank) && (high.Some? ==> next.rank <= high.value)
    requires forall b :: b in before ==> b.id != next.id && b.id !in r0.targets
    requires next.id !in r0.targets
    ensures var r' := Regroup(r, parts, s, Group(Some(next.id), Within(sorted, Some(next.rank), high)));
            && Handled(r', r0, parts, s, sorted, before + [next], next.id, high)
            && r'.previous == LastSurvivor(before + [next], parts)
  {
    if next.id in parts {
      HandledSurvivor(r, r0, parts, s, sorted, before, next, high);
    } else {
      HandledRemoved(r, r0, parts, s, sorted, before, next, high);
    }
  }

  /** Nobody follows a Part that is not in the list. */
  lemma {:induction false} FollowersOfLater(sorted: seq<Instance>, before: seq<BeforePart>, parts: map<PartId, Part>,
                                            p: PartId, bound: Option<real>)
    requires forall b :: b in before ==> b.id != p
    ensures Followers(sorted, before, parts, Some(p), bound) == []
  {
    if sorted != [] {
      AnchorIsOne(before, parts, sorted[0].rank);
      FollowersOfLater(sorted[1..], before, parts, p, bound);
    }
  }

  lemma {:induction false} AnchorIsOne(before: seq<BeforePart>, parts: map<PartId, Part>, rank: real)
    ensures var a := Anchor(before, parts, rank);
            a.Some? ==> a.value in parts && exists b :: b in before && b.id == a.value
  {
    if before != [] {
      AnchorIsOne(before[..|before| - 1], parts, rank);
      assert before[|before| - 1] in before;
    }
  }

  lemma {:induction false} HandledAll(r: Regrouping, r0: Regrouping, parts: map<PartId, Part>, s: SegmentId,
                                      sorted: seq<Instance>, done: seq<BeforePart>, next: BeforePart,
                                      rest: seq<BeforePart>, all: seq<BeforePart>)
    requires Ascending(sorted) && all == done + [next] + rest && Ranked(all)
    requires forall b :: b in all ==> b.id !in r0.targets
    requires Handled(r, r0, parts, s, sorted, done, next.id, Some(next.rank))
    ensures Handled(RegroupAll(r, parts, s, GroupsFrom(sorted, next, rest)), r0, parts, s, sorted, all,
            all[|all| - 1].id, None)
    decreases |rest|
  {
    var r' := NextHandled(r, r0, parts, s, sorted, done, next, rest, all);
    if rest == [] {
      assert RegroupAll(r', parts, s, LaterGroups(sorted, rest)) == r' && all[|all| - 1] == next;
    } else {
      MoveOn(done, next, rest);
      HandledAll(r', r0, parts, s, sorted, done + [next], rest[0], rest[1..], all);
    }
  }

  lemma MoveOn(done: seq<BeforePart>, next: BeforePart, rest: seq<BeforePart>)
    requires rest != []
    ensures done + [next] + rest == (done + [next]) + [rest[0]] + rest[1..]
  {
  }

  lemma NextHandled(r: Regrouping, r0: Regrouping, parts: map<PartId, Part>, s: SegmentId, sorted: seq<Instance>,
                    done: seq<BeforePart>, next: BeforePart, rest: seq<BeforePart>, all: seq<BeforePart>)
    returns (r': Regrouping)
    requires Ascending(sorted) && all == done + [next] + rest && Ranked(all)
    requires forall b :: b in all ==> b.id !in r0.targets
    requires Handled(r, r0, parts, s, sorted, done, next.id, Some(next.rank))
    ensures RegroupAll(r, parts, s, GroupsFrom(sorted, next, rest)) ==
            RegroupAll(r', parts, s, LaterGroups(sorted, rest))
    ensures rest != [] ==> Handled(r', r0, parts, s, sorted, done + [next], rest[0].id, Some(rest[0].rank))
    ensures rest == [] ==> Handled(r', r0, parts, s, sorted, all, next.id, None)
  {
    var high := if rest == [] then None else Some(rest[0].rank);
    var now := done + [next];
    r' := Regroup(r, parts, s, Group(Some(next.id), Within(sorted, Some(next.rank), high)));
    PartsSoFar(done, next, rest);
    HandledNext(r, r0, parts, s, sorted, done, next, high);
    FirstOfGroups(r, parts, s, sorted, next, rest, high);
    if rest == [] {
      assert all == now;
    } else {
      HandledOther(r', r0, parts, s, sorted, now, next.id, rest[0].id, high);
    }
  }

  lemma FirstOfGroups(r: Regrouping, parts: map<PartId, Part>, s: SegmentId, sorted: seq<Instance>, next: BeforePart,
                      rest: seq<BeforePart>, high: Option<real>)
    requires high == if rest == [] then None else Some(rest[0].rank)
    ensures var r' := Regroup(r, parts, s, Group(Some(next.id), Within(sorted, Some(next.rank), high)));
            RegroupAll(r, parts, s, GroupsFrom(sorted, next, rest)) ==
                RegroupAll(r', parts, s, LaterGroups(sorted, rest))
  {
    assert GroupsFrom(sorted, next, rest)[1..] == LaterGroups(sorted, rest);
  }

  function LaterGroups(sorted: seq<Instance>, rest: seq<BeforePart>): seq<Group> {
    if rest == [] then [] else GroupsFrom(sorted, rest[0], rest[1..])
  }

  lemma PartsSoFar(done: seq<BeforePart>, next: BeforePart, rest: seq<BeforePart>)
    requires Ranked(done + [next] + rest)
    ensures Above(done, next.rank) && (rest != [] ==> next.rank <= rest[0].rank)
    ensures forall b :: b in done ==> b.id != next.id && b in done + [next] + rest
    ensures next in done + [next] + rest
  {
    var all := done + [next] + rest;
    assert all[|done|] == next;
    forall b | b in done ensures b.rank < next.rank && b.id != next.id {
      var i :| 0 <= i < |done| && done[i] == b;
      assert all[i] == b;
    }
    if rest != [] { assert all[|done| + 1] == rest[0]; }
  }

  lemma HandledOther(r: Regrouping, r0: Regrouping, parts: map<PartId, Part>, s: SegmentId, sorted: seq<Instance>,
                     before: seq<BeforePart>, extra: PartId, extra': PartId, bound: Option<real>)
    requires Handled(r, r0, parts, s, sorted, before, extra, bound)
    requires before != [] && before[|before| - 1].id == extra
    requires r.previous == LastSurvivor(before, parts)
    ensures Handled(r, r0, parts, s, sorted, before, extra', bound)
  {
    assert before[|before| - 1] in before;
  }

  /******* All segments *******/

  /** What regrouping one segment adds. */
  ghost predicate Regrouped(r: Regrouping, r0: Regrouping, parts: map<PartId, Part>, s: SegmentId,
                            sorted: seq<Instance>, before: seq<BeforePart>) {
    && r.starts == r0.starts[s := Followers(sorted, before, parts, None, None)]
    && (forall p :: p in r0.targets ==> p in r.targets && r.targets[p] == r0.targets[p])
    && (forall p :: p in r.targets ==> p in r0.targets || (p in parts && exists b :: b in before && b.id == p))
    && (forall b :: b in before && b.id in parts ==>
          b.id in r.targets &&
          r.targets[b.id] == Target(parts[b.id].rank, parts[b.id].segmentId,
              Followers(sorted, before, parts, Some(b.id), None)))
  }

  /** The first group after the start is that of the first Part with an empty range: nothing is placed yet. */
  lemma HandledFirst(r0: Regrouping, parts: map<PartId, Part>, s: SegmentId, sorted: seq<Instance>, first: BeforePart)
    requires first.id !in r0.targets && r0.previous.None?
    ensures var r1 := Regroup(r0, parts, s, Group(None, Within(sorted, None, Some(first.rank))));
            var r2 := Regroup(r1, parts, s, Group(Some(first.id), Within(sorted, Some(first.rank), Some(first.rank))));
            Handled(r2, r0, parts, s, sorted, [], first.id, Some(first.rank))
  {
    FollowersOfNone(sorted, parts, Some(first.rank));
    WithinItself(sorted, first.rank);
    var none := Within(sorted, None, Some(first.rank));
    var r1 := r0.(starts := r0.starts[s := none]);
    var r2 := Regroup(r1, parts, s, Group(Some(first.id), []));
    EmptyGroupAdded(r1, parts, s, first.id);
    assert r2.starts == r0.starts[s := none];
  }

  lemma EmptyGroupAdded(r: Regrouping, parts: map<PartId, Part>, s: SegmentId, p: PartId)
    requires r.previous.None? && s in r.starts && p !in r.targets
    ensures var r' := Regroup(r, parts, s, Group(Some(p), []));
            && r'.starts == r.starts && r'.previous == (if p in parts then Some(p) else None)
            && (p in parts ==> r'.targets.Keys == r.targets.Keys + {p})
            && (p !in parts ==> r'.targets == r.targets)
            && forall q :: q in r.targets ==> q in r'.targets && r'.targets[q] == r.targets[q]
  {
    assert r.starts[s] + [] == r.starts[s];
    assert r.starts[s := r.starts[s]] == r.starts;
  }

  lemma RegroupTwo(r: Regrouping, parts: map<PartId, Part>, s: SegmentId, one: Group, two: Group, rest: seq<Group>)
    ensures RegroupAll(r, parts, s, [one, two] + rest) ==
            RegroupAll(Regroup(Regroup(r, parts, s, one), parts, s, two), parts, s, rest)
  {
    var groups := [one, two] + rest;
    assert groups[1..] == [two] + rest;
    assert groups[1..][1..] == rest;
  }

  lemma FirstTwoGroups(before: seq<BeforePart>, sorted: seq<Instance>)
    requires before != [] && sorted != []
    ensures var first := before[0];
            GroupsOf(before, sorted) ==
            [Group(None, Within(sorted, None, Some(first.rank))),
             Group(Some(first.id), Within(sorted, Some(first.rank), Some(first.rank)))]
            + GroupsFrom(sorted, first, before[1..])
  {
    var first := before[0];
    var one := [Group(None, Within(sorted, None, Some(first.rank)))];
    var two := [Group(Some(first.id), Within(sorted, Some(first.rank), Some(first.rank)))];
    Associative(one, two, GroupsFrom(sorted, first, before[1..]));
  }

  lemma RegroupsRankedSegment(r0: Regrouping, parts: map<PartId, Part>, s: SegmentId, sorted: seq<Instance>,
                              before: seq<BeforePart>)
    requires Ascending(sorted) && sorted != [] && Ranked(before) && before != []
    requires forall b :: b in before ==> b.id !in r0.targets
    requires r0.previous.None?
    ensures Regrouped(RegroupAll(r0, parts, s, GroupsOf(before, sorted)), r0, parts, s, sorted, before)
  {
    var first, rest := before[0], before[1..];
    assert first in before;
    var one := Group(None, Within(sorted, None, Some(first.rank)));
    var two := Group(Some(first.id), Within(sorted, Some(first.rank), Some(first.rank)));
    var groups := GroupsFrom(sorted, first, rest);
    FirstTwoGroups(before, sorted);
    RegroupTwo(r0, parts, s, one, two, groups);
    HandledFirst(r0, parts, s, sorted, first);
    var r2 := Regroup(Regroup(r0, parts, s, one), parts, s, two);
    assert [] + [first] + rest == before;
    HandledAll(r2, r0, parts, s, sorted, [], first, rest, before);
    FinallyRegrouped(RegroupAll(r2, parts, s, groups), r0, parts, s, sorted, before);
  }

  lemma RegroupsSegment(r0: Regrouping, parts: map<PartId, Part>, s: SegmentId, sorted: seq<Instance>,
                        before: seq<BeforePart>)
    requires Ascending(sorted) && sorted != [] && Ranked(before)
    requires forall b :: b in before ==> b.id !in r0.targets
    requires r0.previous.None?
    ensures Regrouped(RegroupAll(r0, parts, s, GroupsOf(before, sorted)), r0, parts, s, sorted, before)
  {
    if before == [] {
      FollowersOfNone(sorted, parts, None);
      assert GroupsOf(before, sorted)[1..] == [];
    } else {
      RegroupsRankedSegment(r0, parts, s, sorted, before);
    }
  }

  lemma FinallyRegrouped(r: Regrouping, r0: Regrouping, parts: map<PartId, Part>, s: SegmentId, sorted: seq<Instance>,
                         before: seq<BeforePart>)
    requires before != [] && Handled(r, r0, parts, s, sorted, before, before[|before| - 1].id, None)
    ensures Regrouped(r, r0, parts, s, sorted, before)
  {
    assert before[|before| - 1] in before;
  }

  /** A surviving Part that a changed segment, with orphans in it, listed before. */
  ghost predicate Listed(g: Ingest, orphans: seq<Instance>, done: seq<SegmentId>, s: SegmentId, p: PartId) {
    s in done && s in g.before && Sorted(orphans, s) != [] && p in g.parts && Lists(g.before, s, p)
  }

  function TargetOf(g: Ingest, orphans: seq<Instance>, s: SegmentId, p: PartId): Target
    requires s in g.before && p in g.parts
  {
    Target(g.parts[p].rank, g.parts[p].segmentId, Followers(Sorted(orphans, s), g.before[s], g.parts, Some(p), None))
  }

  ghost predicate StartsOk(starts: map<SegmentId, seq<InstanceId>>, g: Ingest, orphans: seq<Instance>,
                           done: seq<SegmentId>) {
    && (forall s :: s in starts <==> s in done && s in g.before && Sorted(orphans, s) != [])
    && (forall s :: s in starts ==> starts[s] == Followers(Sorted(orphans, s), g.before[s], g.parts, None, None))
  }

  ghost predicate TargetsOk(targets: map<PartId, Target>, g: Ingest, orphans: seq<Instance>, done: seq<SegmentId>) {
    && (forall p :: p in targets ==> exists s :: Listed(g, orphans, done, s, p))
    && (forall s, p :: Listed(g, orphans, done, s, p) ==> p in targets && targets[p] == TargetOf(g, orphans, s, p))
  }

  lemma SegmentAdded(r: Regrouping, r0: Regrouping, g: Ingest, orphans: seq<Instance>, done: seq<SegmentId>,
                     s: SegmentId)
    requires s in g.before && s !in done && Sorted(orphans, s) != []
    requires StartsOk(r0.starts, g, orphans, done) && TargetsOk(r0.targets, g, orphans, done)
    requires Regrouped(r, r0, g.parts, s, Sorted(orphans, s), g.before[s])
    ensures StartsOk(r.starts, g, orphans, done + [s]) && TargetsOk(r.targets, g, orphans, done + [s])
  {
    forall p | p in r.targets ensures exists t :: Listed(g, orphans, done + [s], t, p) {
      if p in r0.targets {
        var t :| Listed(g, orphans, done, t, p);
        assert Listed(g, orphans, done + [s], t, p);
      } else {
        assert Listed(g, orphans, done + [s], s, p);
      }
    }
    forall t, p | Listed(g, orphans, done + [s], t, p)
      ensures p in r.targets && r.targets[p] == TargetOf(g, orphans, t, p)
    {
      if t != s {
        assert Listed(g, orphans, done, t, p);
      } else {
        var b :| b in g.before[s] && b.id == p;
      }
    }
  }

  lemma PartsNotYetListed(targets: map<PartId, Target>, g: Ingest, orphans: seq<Instance>, done: seq<SegmentId>,
                          s: SegmentId)
    requires g.Valid() && s in g.before && s !in done && TargetsOk(targets, g, orphans, done)
    ensures forall b :: b in g.before[s] ==> b.id !in targets
  {
    forall b | b in g.before[s] ensures b.id !in targets {
      assert Lists(g.before, s, b.id);
      assert forall t :: !Listed(g, orphans, done, t, b.id);
    }
  }

  lemma OneSegmentMore(r0: Regrouping, g: Ingest, orphans: seq<Instance>, done: seq<SegmentId>, s: SegmentId)
    requires g.Valid() && s in g.before && s !in done && r0.previous.None?
    requires StartsOk(r0.starts, g, orphans, done) && TargetsOk(r0.targets, g, orphans, done)
    requires GroupsOf(g.before[s], Sorted(orphans, s)) != []
    ensures var r := RegroupAll(r0, g.parts, s, GroupsOf(g.before[s], Sorted(orphans, s)));
            StartsOk(r.starts, g, orphans, done + [s]) && TargetsOk(r.targets, g, orphans, done + [s])
  {
    PartsNotYetListed(r0.targets, g, orphans, done, s);
    SortedFacts(orphans, s);
    RegroupsSegment(r0, g.parts, s, Sorted(orphans, s), g.before[s]);
    SegmentAdded(RegroupAll(r0, g.parts, s, GroupsOf(g.before[s], Sorted(orphans, s))), r0, g, orphans, done, s);
  }

  method GroupPartInstancesByThePartTheyFollow(g: Ingest, orphans: seq<Instance>,
                                               groupsBefore: map<SegmentId, seq<Group>>)
    returns (targets: map<PartId, Target>, starts: map<SegmentId, seq<InstanceId>>)
    requires g.Valid()
    requires groupsBefore == map s | s in g.before :: GroupsOf(g.before[s], Sorted(orphans, s))
    ensures StartsOk(starts, g, orphans, g.changed) && TargetsOk(targets, g, orphans, g.changed)
  {
    targets, starts := map[], map[];
    for n := 0 to |g.changed|
      invariant StartsOk(starts, g, orphans, g.changed[..n]) && TargetsOk(targets, g, orphans, g.changed[..n])
    {
      targets, starts := GroupSegment(g, orphans, groupsBefore, g.changed[..n], g.changed[n], targets, starts);
      assert g.changed[..n + 1] == g.changed[..n] + [g.changed[n]];
    }
    assert g.changed[..|g.changed|] == g.changed;
  }

  method GroupSegment(g: Ingest, orphans: seq<Instance>, groupsBefore: map<SegmentId, seq<Group>>,
                      ghost done: seq<SegmentId>, s: SegmentId, targets0: map<PartId, Target>,
                      starts0: map<SegmentId, seq<InstanceId>>)
    returns (targets: map<PartId, Target>, starts: map<SegmentId, seq<InstanceId>>)
    requires g.Valid() && s !in done
    requires groupsBefore == map s | s in g.before :: GroupsOf(g.before[s], Sorted(orphans, s))
    requires StartsOk(starts0, g, orphans, done) && TargetsOk(targets0, g, orphans, done)
    ensures StartsOk(starts, g, orphans, done + [s]) && TargetsOk(targets, g, orphans, done + [s])
  {
    if s in groupsBefore && groupsBefore[s] != [] {
      OneSegmentMore(Regrouping(targets0, starts0, None), g, orphans, done, s);
      targets, starts := RegroupSegment(g.parts, s, groupsBefore[s], targets0, starts0);
    } else {
      NothingAdded(targets0, starts0, g, orphans, done, s);
      targets, starts := targets0, starts0;
    }
  }

  lemma NothingAdded(targets: map<PartId, Target>, starts: map<SegmentId, seq<InstanceId>>, g: Ingest,
                     orphans: seq<Instance>, done: seq<SegmentId>, s: SegmentId)
    requires StartsOk(starts, g, orphans, done) && TargetsOk(targets, g, orphans, done)
    requires s in g.before ==> Sorted(orphans, s) == []
    ensures StartsOk(starts, g, orphans, done + [s]) && TargetsOk(targets, g, orphans, done + [s])
  {
    forall p | p in targets ensures exists t :: Listed(g, orphans, done + [s], t, p) {
      var t :| Listed(g, orphans, done, t, p);
      assert Listed(g, orphans, done + [s], t, p);
    }
    forall t, p | Listed(g, orphans, done + [s], t, p) ensures Listed(g, orphans, done, t, p) {
    }
  }

  /** The loop over the groups of one segment.  The group of the last Part found is extended where it is. */
  method RegroupSegment(parts: map<PartId, Part>, s: SegmentId, groups: seq<Group>, targets0: map<PartId, Target>,
                        starts0: map<SegmentId, seq<InstanceId>>)
    returns (targets: map<PartId, Target>, starts: map<SegmentId, seq<InstanceId>>)
    ensures var r := RegroupAll(Regrouping(targets0, starts0, None), parts, s, groups);
            targets == r.targets && starts == r.starts
  {
    targets, starts := targets0, starts0;
    var previous: Option<PartId> := None;
    for i := 0 to |groups|
      invariant RegroupAll(Regrouping(targets, starts, previous), parts, s, groups[i..]) ==
                RegroupAll(Regrouping(targets0, starts0, None), parts, s, groups)
      invariant previous.Some? ==> previous.value in targets
    {
      var group := groups[i];
      assert groups[i..][1..] == groups[i + 1..];
      if group.after.None? {
        starts := starts[s := group.ids];
      } else if group.after.value !in parts {
        if previous.Some? {
          var t := targets[previous.value];
          targets := targets[previous.value := t.(ids := t.ids + group.ids)];
        } else {
          starts := starts[s := Appended(starts, s, group.ids)];
        }
      } else {
        var part := parts[group.after.value];
        targets := targets[group.after.value := Target(part.rank, part.segmentId, group.ids)];
        previous := group.after;
      }
    }
  }

  /******* Assigning ranks *******/

  /** The ranks given so far: those of the start groups and of the targets already visited. */
  ghost predicate Assigned(ranks: map<InstanceId, real>, g: Ingest, orphans: seq<Instance>, starts: set<SegmentId>,
                           targets: set<PartId>) {
    && (forall o :: o in orphans ==> (o.id in ranks <==> Visited(g, o, starts, targets)))
    && (forall o :: o in orphans && Visited(g, o, starts, targets) ==>
          o.id in GroupOf(g, orphans, o) && ranks[o.id] == NewRank(g, orphans, o))
    && (forall id :: id in ranks ==> exists o :: o in orphans && o.id == id)
  }

  predicate Visited(g: Ingest, o: Instance, starts: set<SegmentId>, targets: set<PartId>) {
    && o.segmentId in g.changed && o.segmentId in g.before
    && match AnchorOf(g, o)
       case None => o.segmentId in starts
       case Some(p) => p in targets && p in g.parts && g.parts[p].segmentId == o.segmentId
  }

  lemma GroupMember(g: Ingest, orphans: seq<Instance>, s: SegmentId, a: Option<PartId>, o: Instance)
    requires DistinctIds(orphans) && o in orphans && s in g.before
    ensures o.id in Followers(Sorted(orphans, s), g.before[s], g.parts, a, None) <==>
            o.segmentId == s && AnchorOf(g, o) == a
  {
    SortedFacts(orphans, s);
    FollowersMember(Sorted(orphans, s), g.before[s], g.parts, a, None, o.id);
    if o.id in Followers(Sorted(orphans, s), g.before[s], g.parts, a, None) {
      var p :| p in Sorted(orphans, s) && p.id == o.id && Anchor(g.before[s], g.parts, p.rank) == a;
      OneById(orphans, o, p);
    }
  }

  function ById(orphans: seq<Instance>): map<InstanceId, Instance> {
    if orphans == [] then map[] else
      var last := orphans[|orphans| - 1];
      ById(orphans[..|orphans| - 1])[last.id := last]
  }

  lemma {:induction false} ByIdFinds(orphans: seq<Instance>)
    requires DistinctIds(orphans)
    ensures forall o :: o in orphans ==> o.id in ById(orphans) && ById(orphans)[o.id] == o
    ensures forall id :: id in ById(orphans) ==> ById(orphans)[id] in orphans && ById(orphans)[id].id == id
  {
    if orphans != [] {
      var n := |orphans| - 1;
      ByIdFinds(orphans[..n]);
      assert forall o :: o in orphans <==> o == orphans[n] || o in orphans[..n];
      assert forall o :: o in orphans[..n] ==> o.id != orphans[n].id;
    }
  }

  function OnlySegment(ids: seq<InstanceId>, byId: map<InstanceId, Instance>, s: SegmentId): seq<InstanceId> {
    if ids == [] then []
    else (if ids[0] in byId && byId[ids[0]].segmentId == s then [ids[0]] else []) + OnlySegment(ids[1..], byId, s)
  }

  /** A group is one segment's, so the filter keeps all of it or nothing. */
  lemma {:induction false} OnlySegmentAllOrNothing(ids: seq<InstanceId>, byId: map<InstanceId, Instance>, s: SegmentId,
                                                   t: SegmentId)
    requires forall id :: id in ids ==> id in byId && byId[id].segmentId == s
    ensures OnlySegment(ids, byId, t) == if s == t then ids else []
  {
    if ids != [] {
      assert ids[0] in ids;
      OnlySegmentAllOrNothing(ids[1..], byId, s, t);
    }
  }

  lemma GroupIsOfSegment(g: Ingest, orphans: seq<Instance>, s: SegmentId, a: Option<PartId>, t: SegmentId)
    requires DistinctIds(orphans) && s in g.before
    ensures var ids := Followers(Sorted(orphans, s), g.before[s], g.parts, a, None);
            OnlySegment(ids, ById(orphans), t) == if s == t then ids else []
  {
    var ids := Followers(Sorted(orphans, s), g.before[s], g.parts, a, None);
    SortedFacts(orphans, s);
    ByIdFinds(orphans);
    forall id | id in ids ensures id in ById(orphans) && ById(orphans)[id].segmentId == s {
      FollowersMember(Sorted(orphans, s), g.before[s], g.parts, a, None, id);
    }
    OnlySegmentAllOrNothing(ids, ById(orphans), s, t);
  }

  /** The ranks of a group, from that of its Part to the next whole one. */
  function Points(ranks: map<InstanceId, real>, ids: seq<InstanceId>, from: real): (points: seq<real>)
    requires forall id :: id in ids ==> id in ranks
    ensures |points| == |ids| + 2
  {
    [from] + seq(|ids|, i requires 0 <= i < |ids| => ranks[ids[i]]) + [from + 1.0]
  }

  /** After a Part, all gaps up to the next whole rank are equal; at the start of a segment the ranks go up by one to
      the last, which is -1. */
  ghost predicate Spaced(ranks: map<InstanceId, real>, ids: seq<InstanceId>, after: Option<real>) {
    && (forall id :: id in ids ==> id in ranks)
    && match after
       case Some(from) =>
         var points := Points(ranks, ids, from);
         forall i :: 0 <= i <= |ids| ==> points[i + 1] - points[i] == points[1] - points[0]
       case None =>
         forall i :: 0 <= i < |ids| ==> (if i + 1 < |ids| then ranks[ids[i + 1]] else 0.0) - ranks[ids[i]] == 1.0
  }

  lemma PlacesAreSpaced(ranks: map<InstanceId, real>, ids: seq<InstanceId>, after: Option<real>)
    requires forall i :: 0 <= i < |ids| ==> ids[i] in ranks && ranks[ids[i]] == PlaceRank(after, i, |ids|)
    ensures Spaced(ranks, ids, after)
  {
    forall id | id in ids ensures id in ranks {}
    if after.Some? {
      var points, step := Points(ranks, ids, after.value), 1.0 / (|ids| as real + 1.0);
      forall i | 0 <= i <= |ids| + 1 ensures points[i] == after.value + step * i as real {
        if 0 < i <= |ids| { assert points[i] == ranks[ids[i - 1]] == PlaceRank(after, i - 1, |ids|); }
        if i == |ids| + 1 { assert step * (|ids| as real + 1.0) == 1.0; }
      }
      forall i | 0 <= i <= |ids| ensures points[i + 1] - points[i] == step {
        StepBetween(step, i);
      }
    }
  }

  lemma StepBetween(step: real, i: nat)
    ensures step * (i + 1) as real - step * i as real == step
  {
    assert (i + 1) as real == i as real + 1.0;
  }

  /** The two loops over a group: negative ranks at the start of a segment, fractions after a Part. */
  method AssignGroup(ranks0: map<InstanceId, real>, ids: seq<InstanceId>, after: Option<real>)
    returns (ranks: map<InstanceId, real>)
    requires forall i, j :: 0 <= i < j < |ids| ==> ids[i] != ids[j]
    ensures forall id :: id in ranks <==> id in ranks0 || id in ids
    ensures forall id :: id in ranks0 && id !in ids ==> ranks[id] == ranks0[id]
    ensures forall i :: 0 <= i < |ids| ==> ranks[ids[i]] == PlaceRank(after, i, |ids|)
    ensures Spaced(ranks, ids, after)
  {
    ranks := ranks0;
    var increment := 1.0 / (|ids| as real + 1.0);
    for i := 0 to |ids|
      invariant forall id :: id in ranks <==> id in ranks0 || id in ids[..i]
      invariant forall id :: id in ranks0 && id !in ids[..i] ==> ranks[id] == ranks0[id]
      invariant forall j :: 0 <= j < i ==> ids[j] in ids[..i] && ranks[ids[j]] == PlaceRank(after, j, |ids|)
    {
      var rank := if after.None? then i as real - |ids| as real else after.value + increment * (i as real + 1.0);
      assert rank == PlaceRank(after, i, |ids|);
      assert ids[..i + 1] == ids[..i] + [ids[i]];
      ranks := ranks[ids[i] := rank];
    }
    assert ids[..|ids|] == ids;
    PlacesAreSpaced(ranks, ids, after);
  }

  lemma GroupAssigned(ranks: map<InstanceId, real>, ranks0: map<InstanceId, real>, g: Ingest, orphans: seq<Instance>,
                      s: SegmentId, a: Option<PartId>, o: Instance)
    requires DistinctIds(orphans) && o in orphans && s in g.before && o.segmentId in g.before
    requires a.Some? ==> a.value in g.parts
    requires var ids := Followers(Sorted(orphans, s), g.before[s], g.parts, a, None);
             && (forall id :: id in ranks <==> id in ranks0 || id in ids)
             && (forall id :: id in ranks0 && id !in ids ==> ranks[id] == ranks0[id])
             && (forall i :: 0 <= i < |ids| ==> ranks[ids[i]] == RankAt(g, a, i, |ids|))
    ensures o.id in ranks <==> o.id in ranks0 || (o.segmentId == s && AnchorOf(g, o) == a)
    ensures o.segmentId == s && AnchorOf(g, o) == a ==>
              o.id in ranks && o.id in GroupOf(g, orphans, o) && ranks[o.id] == NewRank(g, orphans, o)
    ensures !(o.segmentId == s && AnchorOf(g, o) == a) && o.id in ranks0 ==> ranks[o.id] == ranks0[o.id]
  {
    GroupMember(g, orphans, s, a, o);
  }

  method CompileNewPartInstanceRanks(g: Ingest, orphans: seq<Instance>) returns (ranks: map<InstanceId, real>)
    requires g.Valid() && DistinctIds(orphans)
    ensures forall o :: o in orphans ==> (o.id in ranks <==> Placed(g, o))
    ensures forall o :: o in orphans && Placed(g, o) ==>
            o.id in GroupOf(g, orphans, o) && ranks[o.id] == NewRank(g, orphans, o)
    ensures forall id :: id in ranks ==> exists o :: o in orphans && o.id == id
    ensures forall o :: o in orphans && Placed(g, o) ==> Spaced(ranks, GroupOf(g, orphans, o), RankOfAnchor(g, o))
  {
    var groupsBefore := CompileOriginalPartInstanceOrderMap(g.before, orphans);
    var byId := ById(orphans);
    var targets, starts := GroupPartInstancesByThePartTheyFollow(g, orphans, groupsBefore);
    ranks := AssignStarts(g, orphans, starts, byId);
    ranks := AssignTargets(g, orphans, starts.Keys, targets, byId, ranks);
    forall o | o in orphans ensures Placed(g, o) <==> Visited(g, o, starts.Keys, targets.Keys) {
      VisitedAll(g, orphans, starts, targets, o);
    }
    forall o | o in orphans && Placed(g, o) ensures Spaced(ranks, GroupOf(g, orphans, o), RankOfAnchor(g, o)) {
      GroupIsSpaced(g, orphans, ranks, o);
    }
  }

  /** The rank of the Part an orphan follows, which is still there when the orphan is placed. */
  function RankOfAnchor(g: Ingest, o: Instance): Option<real>
    requires Placed(g, o)
  {
    match AnchorOf(g, o)
    case None => None
    case Some(p) => Some(g.parts[p].rank)
  }

  lemma GroupIsSpaced(g: Ingest, orphans: seq<Instance>, ranks: map<InstanceId, real>, o: Instance)
    requires DistinctIds(orphans) && o in orphans && Placed(g, o)
    requires forall p :: p in orphans ==> (p.id in ranks <==> Placed(g, p))
    requires forall p :: p in orphans && Placed(g, p) ==>
             p.id in GroupOf(g, orphans, p) && ranks[p.id] == NewRank(g, orphans, p)
    ensures Spaced(ranks, GroupOf(g, orphans, o), RankOfAnchor(g, o))
  {
    var ids := GroupOf(g, orphans, o);
    forall i | 0 <= i < |ids|
      ensures ids[i] in ranks && ranks[ids[i]] == PlaceRank(RankOfAnchor(g, o), i, |ids|) {
      var p := MemberIsPlaced(g, orphans, o, i);
      PlaceOfMember(g, orphans, p, i);
    }
    PlacesAreSpaced(ranks, ids, RankOfAnchor(g, o));
  }

  /** Every id of a group is that of an orphan with the same group. */
  lemma MemberIsPlaced(g: Ingest, orphans: seq<Instance>, o: Instance, i: nat) returns (p: Instance)
    requires DistinctIds(orphans) && o in orphans && Placed(g, o) && i < |GroupOf(g, orphans, o)|
    ensures p in orphans && p.id == GroupOf(g, orphans, o)[i] && Placed(g, p)
    ensures p.segmentId == o.segmentId && AnchorOf(g, p) == AnchorOf(g, o)
  {
    var s, ids, a := o.segmentId, GroupOf(g, orphans, o), AnchorOf(g, o);
    var sorted := Sorted(orphans, s);
    SortedFacts(orphans, s);
    assert ids[i] in ids;
    FollowersMember(sorted, g.before[s], g.parts, a, None, ids[i]);
    p :| p in sorted && p.id == ids[i] && Anchor(g.before[s], g.parts, p.rank) == a;
  }

  lemma OnePlace(sorted: seq<Instance>, before: seq<BeforePart>, parts: map<PartId, Part>, a: Option<PartId>, i: nat)
    requires DistinctIds(sorted) && i < |Followers(sorted, before, parts, a, None)|
    ensures var ids := Followers(sorted, before, parts, a, None); IndexOf(ids, ids[i]) == i
  {
    var ids := Followers(sorted, before, parts, a, None);
    FollowersDistinct(sorted, before, parts, a);
    var k := IndexOf(ids, ids[i]);
    assert ids[k] == ids[i];
  }

  lemma PlaceOfMember(g: Ingest, orphans: seq<Instance>, p: Instance, i: nat)
    requires DistinctIds(orphans) && Placed(g, p) && i < |GroupOf(g, orphans, p)| && GroupOf(g, orphans, p)[i] == p.id
    ensures p.id in GroupOf(g, orphans, p)
    ensures NewRank(g, orphans, p) == PlaceRank(RankOfAnchor(g, p), i, |GroupOf(g, orphans, p)|)
  {
    var sorted, a := Sorted(orphans, p.segmentId), AnchorOf(g, p);
    SortedFacts(orphans, p.segmentId);
    OnePlace(sorted, g.before[p.segmentId], g.parts, a, i);
  }

  lemma VisitedAll(g: Ingest, orphans: seq<Instance>, starts: map<SegmentId, seq<InstanceId>>,
                   targets: map<PartId, Target>, o: Instance)
    requires o in orphans && StartsOk(starts, g, orphans, g.changed) && TargetsOk(targets, g, orphans, g.changed)
    ensures Placed(g, o) <==> Visited(g, o, starts.Keys, targets.Keys)
  {
    SortedFacts(orphans, o.segmentId);
    assert o in Sorted(orphans, o.segmentId);
    if o.segmentId in g.before && AnchorOf(g, o).Some? {
      AnchorIsOne(g.before[o.segmentId], g.parts, o.rank);
      if o.segmentId in g.changed {
        assert Listed(g, orphans, g.changed, o.segmentId, AnchorOf(g, o).value);
      }
    }
  }

  lemma NobodyVisited(g: Ingest, orphans: seq<Instance>)
    ensures Assigned(map[], g, orphans, {}, {})
  {
  }

  method AssignStarts(g: Ingest, orphans: seq<Instance>, starts: map<SegmentId, seq<InstanceId>>,
                      byId: map<InstanceId, Instance>)
    returns (ranks: map<InstanceId, real>)
    requires DistinctIds(orphans) && StartsOk(starts, g, orphans, g.changed) && byId == ById(orphans)
    ensures Assigned(ranks, g, orphans, starts.Keys, {})
  {
    ranks := map[];
    NobodyVisited(g, orphans);
    var todo := starts.Keys;
    ghost var done := {};
    while todo != {}
      invariant done + todo == starts.Keys
      invariant Assigned(ranks, g, orphans, done, {})
    {
      var s :| s in todo;
      ranks := AssignStart(g, orphans, starts, byId, done, s, ranks);
      todo, done := todo - {s}, done + {s};
    }
  }

  method AssignStart(g: Ingest, orphans: seq<Instance>, starts: map<SegmentId, seq<InstanceId>>,
                     byId: map<InstanceId, Instance>, ghost done: set<SegmentId>, s: SegmentId,
                     ranks0: map<InstanceId, real>)
    returns (ranks: map<InstanceId, real>)
    requires DistinctIds(orphans) && StartsOk(starts, g, orphans, g.changed) && byId == ById(orphans)
    requires s in starts && Assigned(ranks0, g, orphans, done, {})
    ensures Assigned(ranks, g, orphans, done + {s}, {})
  {
    var ids := OnlySegment(starts[s], byId, s);
    StartIds(g, orphans, starts, s);
    ranks := AssignGroup(ranks0, ids, None);
    StartAssigned(ranks, ranks0, g, orphans, done, s);
  }

  lemma StartIds(g: Ingest, orphans: seq<Instance>, starts: map<SegmentId, seq<InstanceId>>, s: SegmentId)
    requires DistinctIds(orphans) && StartsOk(starts, g, orphans, g.changed) && s in starts
    ensures s in g.before && s in g.changed
    ensures var ids := OnlySegment(starts[s], ById(orphans), s);
            && ids == Followers(Sorted(orphans, s), g.before[s], g.parts, None, None)
            && forall i, j :: 0 <= i < j < |ids| ==> ids[i] != ids[j]
  {
    GroupIsOfSegment(g, orphans, s, None, s);
    SortedFacts(orphans, s);
    FollowersDistinct(Sorted(orphans, s), g.before[s], g.parts, None);
  }

  lemma StartAssigned(ranks: map<InstanceId, real>, ranks0: map<InstanceId, real>, g: Ingest, orphans: seq<Instance>,
                      done: set<SegmentId>, s: SegmentId)
    requires DistinctIds(orphans) && s in g.before && s in g.changed && Assigned(ranks0, g, orphans, done, {})
    requires var ids := Followers(Sorted(orphans, s), g.before[s], g.parts, None, None);
             && (forall id :: id in ranks <==> id in ranks0 || id in ids)
             && (forall id :: id in ranks0 && id !in ids ==> ranks[id] == ranks0[id])
             && (forall i :: 0 <= i < |ids| ==> ranks[ids[i]] == RankAt(g, None, i, |ids|))
    ensures Assigned(ranks, g, orphans, done + {s}, {})
  {
    forall o | o in orphans && o.segmentId in g.before
      ensures o.id in ranks <==> Visited(g, o, done + {s}, {})
      ensures Visited(g, o, done + {s}, {}) ==> o.id in GroupOf(g, orphans, o) && ranks[o.id] == NewRank(g, orphans, o)
    {
      GroupAssigned(ranks, ranks0, g, orphans, s, None, o);
    }
    OthersUntouched(ranks, ranks0, g, orphans, s, None);
  }

  lemma OthersUntouched(ranks: map<InstanceId, real>, ranks0: map<InstanceId, real>, g: Ingest, orphans: seq<Instance>,
                        s: SegmentId, a: Option<PartId>)
    requires DistinctIds(orphans) && s in g.before
    requires forall id :: id in ranks <==>
               id in ranks0 || id in Followers(Sorted(orphans, s), g.before[s], g.parts, a, None)
    ensures forall o :: o in orphans && o.segmentId !in g.before ==> (o.id in ranks <==> o.id in ranks0)
    ensures forall id :: id in ranks && id !in ranks0 ==> exists o :: o in orphans && o.id == id
  {
    SortedFacts(orphans, s);
    forall id | id in Followers(Sorted(orphans, s), g.before[s], g.parts, a, None)
      ensures exists o :: o in orphans && o.id == id && o.segmentId == s
    {
      FollowersMember(Sorted(orphans, s), g.before[s], g.parts, a, None, id);
    }
    forall o | o in orphans && o.segmentId !in g.before ensures o.id in ranks <==> o.id in ranks0 {
      GroupMember(g, orphans, s, a, o);
    }
  }

  method AssignTargets(g: Ingest, orphans: seq<Instance>, ghost starts: set<SegmentId>, targets: map<PartId, Target>,
                       byId: map<InstanceId, Instance>, ranks0: map<InstanceId, real>)
    returns (ranks: map<InstanceId, real>)
    requires DistinctIds(orphans) && TargetsOk(targets, g, orphans, g.changed) && byId == ById(orphans) && OneLister(g)
    requires Assigned(ranks0, g, orphans, starts, {})
    ensures Assigned(ranks, g, orphans, starts, targets.Keys)
  {
    ranks := ranks0;
    var todo := targets.Keys;
    ghost var done := {};
    while todo != {}
      invariant done + todo == targets.Keys
      invariant Assigned(ranks, g, orphans, starts, done)
    {
      var p :| p in todo;
      ranks := AssignTarget(g, orphans, starts, targets, byId, done, p, ranks);
      todo, done := todo - {p}, done + {p};
    }
  }

  method AssignTarget(g: Ingest, orphans: seq<Instance>, ghost starts: set<SegmentId>, targets: map<PartId, Target>,
                      byId: map<InstanceId, Instance>, ghost done: set<PartId>, p: PartId,
                      ranks0: map<InstanceId, real>)
    returns (ranks: map<InstanceId, real>)
    requires DistinctIds(orphans) && TargetsOk(targets, g, orphans, g.changed) && byId == ById(orphans) && OneLister(g)
    requires p in targets && Assigned(ranks0, g, orphans, starts, done)
    ensures Assigned(ranks, g, orphans, starts, done + {p})
  {
    var ids := OnlySegment(targets[p].ids, byId, targets[p].segmentId);
    ghost var s := TargetIds(g, orphans, targets, p);
    ranks := AssignGroup(ranks0, ids, Some(targets[p].rank));
    TargetAssigned(ranks, ranks0, g, orphans, starts, done, s, p, ids);
  }

  lemma TargetIds(g: Ingest, orphans: seq<Instance>, targets: map<PartId, Target>, p: PartId) returns (s: SegmentId)
    requires DistinctIds(orphans) && TargetsOk(targets, g, orphans, g.changed) && p in targets
    ensures Listed(g, orphans, g.changed, s, p) && targets[p].rank == g.parts[p].rank
    ensures var ids := OnlySegment(targets[p].ids, ById(orphans), targets[p].segmentId);
            && ids == (if s == g.parts[p].segmentId
                       then Followers(Sorted(orphans, s), g.before[s], g.parts, Some(p), None) else [])
            && forall i, j :: 0 <= i < j < |ids| ==> ids[i] != ids[j]
  {
    s :| Listed(g, orphans, g.changed, s, p);
    GroupIsOfSegment(g, orphans, s, Some(p), targets[p].segmentId);
    SortedFacts(orphans, s);
    FollowersDistinct(Sorted(orphans, s), g.before[s], g.parts, Some(p));
  }

  /** A Part was listed by one segment only. */
  ghost predicate OneLister(g: Ingest) {
    forall s, t, p {:trigger Lists(g.before, s, p), Lists(g.before, t, p)} ::
      Lists(g.before, s, p) && Lists(g.before, t, p) ==> s == t
  }

  /** Only one segment lists a Part. */
  lemma AnchorIsListed(g: Ingest, orphans: seq<Instance>, s: SegmentId, p: PartId, o: Instance)
    requires OneLister(g) && Listed(g, orphans, g.changed, s, p) && o.segmentId in g.before
    ensures AnchorOf(g, o) == Some(p) ==> o.segmentId == s
  {
    if AnchorOf(g, o) == Some(p) {
      AnchorIsOne(g.before[o.segmentId], g.parts, o.rank);
      assert Lists(g.before, o.segmentId, p);
    }
  }

  lemma AssignedByTarget(ranks: map<InstanceId, real>, ranks0: map<InstanceId, real>, g: Ingest, orphans: seq<Instance>,
                         starts: set<SegmentId>, done: set<PartId>, s: SegmentId, p: PartId, ids: seq<InstanceId>,
                         o: Instance)
    requires DistinctIds(orphans) && Listed(g, orphans, g.changed, s, p) && OneLister(g) && o in orphans &&
             o.segmentId in g.before
    requires o.id in ranks0 <==> Visited(g, o, starts, done)
    requires Visited(g, o, starts, done) ==> o.id in GroupOf(g, orphans, o) && ranks0[o.id] == NewRank(g, orphans, o)
    requires ids == if s == g.parts[p].segmentId
                    then Followers(Sorted(orphans, s), g.before[s], g.parts, Some(p), None) else []
    requires forall id :: id in ranks <==> id in ranks0 || id in ids
    requires forall id :: id in ranks0 && id !in ids ==> ranks[id] == ranks0[id]
    requires forall i :: 0 <= i < |ids| ==> ranks[ids[i]] == PlaceRank(Some(g.parts[p].rank), i, |ids|)
    ensures o.id in ranks <==> Visited(g, o, starts, done + {p})
    ensures Visited(g, o, starts, done + {p}) ==>
            o.id in GroupOf(g, orphans, o) && ranks[o.id] == NewRank(g, orphans, o)
  {
    AnchorIsListed(g, orphans, s, p, o);
    if s == g.parts[p].segmentId {
      assert forall i :: 0 <= i < |ids| ==> ranks[ids[i]] == RankAt(g, Some(p), i, |ids|);
      GroupAssigned(ranks, ranks0, g, orphans, s, Some(p), o);
    }
  }

  lemma TargetAssigned(ranks: map<InstanceId, real>, ranks0: map<InstanceId, real>, g: Ingest, orphans: seq<Instance>,
                       starts: set<SegmentId>, done: set<PartId>, s: SegmentId, p: PartId, ids: seq<InstanceId>)
    requires DistinctIds(orphans) && Listed(g, orphans, g.changed, s, p) &&
             Assigned(ranks0, g, orphans, starts, done) && OneLister(g)
    requires ids == if s == g.parts[p].segmentId
                    then Followers(Sorted(orphans, s), g.before[s], g.parts, Some(p), None) else []
    requires forall id :: id in ranks <==> id in ranks0 || id in ids
    requires forall id :: id in ranks0 && id !in ids ==> ranks[id] == ranks0[id]
    requires forall i :: 0 <= i < |ids| ==> ranks[ids[i]] == PlaceRank(Some(g.parts[p].rank), i, |ids|)
    ensures Assigned(ranks, g, orphans, starts, done + {p})
  {
    forall o | o in orphans && o.segmentId in g.before
      ensures o.id in ranks <==> Visited(g, o, starts, done + {p})
      ensures Visited(g, o, starts, done + {p}) ==>
              o.id in GroupOf(g, orphans, o) && ranks[o.id] == NewRank(g, orphans, o)
    {
      AssignedByTarget(ranks, ranks0, g, orphans, starts, done, s, p, ids, o);
    }
    if s == g.parts[p].segmentId {
      OthersUntouched(ranks, ranks0, g, orphans, s, Some(p));
    }
  }
}
