/**
 * In which order roots and siblings come out.
 *
 * The store is gone through with array indices first, so an index can overtake another object; but only
 * its siblings matter for the forest.
 */
module TimelineOrder {
  import opened Wrappers
  import opened JsStrings
  import opened JsKeys
  import opened Timeline
  import opened TimelineForest

  /** Every object is the one the store has under its id. */
  ghost predicate Stored(objects: seq<TimelineObject>, store: map<ObjectId, TimelineObject>) {
    forall o :: o in objects ==> o.id in store && store[o.id] == o
  }

  /** The ids of roots, and those of the members of a group. */
  function IsRoot(side: Side, store: map<ObjectId, TimelineObject>, groups: Groups): ObjectId -> bool {
    id => id in store && store[id] in groups && IsEnd(side, store, groups[store[id]])
  }

  function IsMember(store: map<ObjectId, TimelineObject>, groups: Groups, group: ObjectId): ObjectId -> bool {
    id => id in store && store[id] in groups && group != "" && groups[store[id]] == group
  }

  lemma KeepLast(wanted: ObjectId -> bool, objects: seq<TimelineObject>)
    requires objects != []
    ensures var n := |objects| - 1; var before := Keep(wanted, Ids(objects[..n]));
            Keep(wanted, Ids(objects)) == if wanted(objects[n].id) then before + [objects[n].id] else before
  {
    var n := |objects| - 1;
    var last := [objects[n].id];
    assert Ids(objects) == Ids(objects[..n]) + last;
    KeepJoined(wanted, Ids(objects[..n]), last);
    KeepFirst(wanted, objects[n].id, []);
    assert [objects[n].id] + [] == last;
  }

  lemma IdsAppended(some: seq<TimelineObject>, o: TimelineObject)
    ensures Ids(some + [o]) == Ids(some) + [o.id]
  {
  }

  lemma {:induction false} RootsKept(side: Side, objects: seq<TimelineObject>, store: map<ObjectId, TimelineObject>,
                                     groups: Groups)
    requires Stored(objects, store)
    ensures Ids(Roots(side, objects, store, groups)) == Keep(IsRoot(side, store, groups), Ids(objects))
  {
    if objects != [] {
      var n := |objects| - 1;
      var before := Roots(side, objects[..n], store, groups);
      assert objects[n] in objects;
      RootsKept(side, objects[..n], store, groups);
      KeepLast(IsRoot(side, store, groups), objects);
      IdsAppended(before, objects[n]);
      assert before + [] == before;
    }
  }

  lemma {:induction false} MembersKept(objects: seq<TimelineObject>, store: map<ObjectId, TimelineObject>,
                                       groups: Groups, group: ObjectId)
    requires Stored(objects, store)
    ensures Ids(Members(objects, groups, group)) == Keep(IsMember(store, groups, group), Ids(objects))
  {
    if objects != [] {
      var n := |objects| - 1;
      var before := Members(objects[..n], groups, group);
      assert objects[n] in objects;
      MembersKept(objects[..n], store, groups, group);
      KeepLast(IsMember(store, groups, group), objects);
      IdsAppended(before, objects[n]);
      assert before + [] == before;
    }
  }

  lemma SameIds(a: seq<TimelineObject>, b: seq<TimelineObject>, store: map<ObjectId, TimelineObject>)
    requires Stored(a, store) && Stored(b, store)
    ensures a == b <==> Ids(a) == Ids(b)
  {
    if Ids(a) == Ids(b) {
      forall i | 0 <= i < |a| ensures a[i] == b[i] {
        assert a[i] in a && b[i] in b && Ids(a)[i] == Ids(b)[i];
      }
    }
  }

  /** With unique ids, the store has the objects of the timeline in the order of their enumerated ids. */
  lemma ObjectsEnumerated(timeline: seq<TimelineObject>)
    requires UniqueIds(timeline)
    ensures Stored(timeline, Store(timeline)) && Stored(Objects(timeline), Store(timeline))
    ensures Ids(Objects(timeline)) == Enumerated(ArrayIndex, Ids(timeline))
    ensures Distinct(Ids(timeline))
  {
    KeysInOrder(timeline);
    StoreFinds(timeline);
    ObjectsIndexed(timeline);
    var keys := Enumerated(ArrayIndex, Ids(timeline));
    forall i | 0 <= i < |keys| ensures Objects(timeline)[i].id == keys[i] {
      assert keys[i] in keys;
    }
  }

  lemma RootsStored(side: Side, objects: seq<TimelineObject>, store: map<ObjectId, TimelineObject>, groups: Groups)
    requires Stored(objects, store)
    ensures Stored(Roots(side, objects, store, groups), store)
  {
    forall o | o in Roots(side, objects, store, groups) ensures o in objects {
      RootsMembers(objects, groups, store, o);
    }
  }

  /** The roots come out as a store of the roots alone would be gone through; so they are in timeline order if
      and only if those among them whose ids are array indices come first and ascend. */
  lemma RootsInTimelineOrder(side: Side, timeline: seq<TimelineObject>, groups: Groups)
    requires UniqueIds(timeline)
    ensures var store := Store(timeline); var roots := Roots(side, timeline, store, groups);
            var found := Roots(side, Objects(timeline), store, groups);
            && Ids(found) == Enumerated(ArrayIndex, Ids(roots))
            && (found == roots <==> IndicesFirst(ArrayIndex, Ids(roots)))
  {
    var store := Store(timeline);
    ObjectsEnumerated(timeline);
    ArrayIndexTellsApart();
    RootsKept(side, timeline, store, groups);
    RootsKept(side, Objects(timeline), store, groups);
    KeepEnumerated(ArrayIndex, IsRoot(side, store, groups), Ids(timeline));
    KeptInOrder(ArrayIndex, IsRoot(side, store, groups), Ids(timeline));
    RootsStored(side, timeline, store, groups);
    RootsStored(side, Objects(timeline), store, groups);
    SameIds(Roots(side, Objects(timeline), store, groups), Roots(side, timeline, store, groups), store);
  }

  /** And so do the members of every group. */
  lemma MembersInTimelineOrder(timeline: seq<TimelineObject>, groups: Groups, group: ObjectId)
    requires UniqueIds(timeline)
    ensures var members := Members(timeline, groups, group); var found := Members(Objects(timeline), groups, group);
            && Ids(found) == Enumerated(ArrayIndex, Ids(members))
            && (found == members <==> IndicesFirst(ArrayIndex, Ids(members)))
  {
    var store := Store(timeline);
    ObjectsEnumerated(timeline);
    ArrayIndexTellsApart();
    MembersKept(timeline, store, groups, group);
    MembersKept(Objects(timeline), store, groups, group);
    KeepEnumerated(ArrayIndex, IsMember(store, groups, group), Ids(timeline));
    KeptInOrder(ArrayIndex, IsMember(store, groups, group), Ids(timeline));
    forall o | o in Members(timeline, groups, group) + Members(Objects(timeline), groups, group)
      ensures o.id in store && store[o.id] == o {
      MembersAre(timeline, groups, group, o);
      MembersAre(Objects(timeline), groups, group, o);
    }
    SameIds(Members(Objects(timeline), groups, group), Members(timeline, groups, group), store);
  }

  /** Two roots whose ids are indices in descending order change places, in either output. */
  lemma RootsChangePlaces(side: Side, two: TimelineObject, one: TimelineObject)
    requires two.id == "2" && one.id == "1"
    ensures var groups := map[two := "", one := ""]; var store := Store([two, one]);
            && Roots(side, [two, one], store, groups) == [two, one]
            && Roots(side, Objects([two, one]), store, groups) == [one, two]
  {
    var timeline, groups := [two, one], map[two := "", one := ""];
    var store := Store(timeline);
    BothAreRoots(side, timeline, store, groups);
    assert Ids(timeline) == ["2", "1"];
    TwoBeforeOne();
    RootsInTimelineOrder(side, timeline, groups);
    ObjectsEnumerated(timeline);
    RootsStored(side, Objects(timeline), store, groups);
    TwoByIds(timeline, one, two, Roots(side, Objects(timeline), store, groups));
  }

  lemma TwoByIds(timeline: seq<TimelineObject>, one: TimelineObject, two: TimelineObject, found: seq<TimelineObject>)
    requires one in timeline && two in timeline
    requires Stored(timeline, Store(timeline)) && Stored(found, Store(timeline)) && Ids(found) == [one.id, two.id]
    ensures found == [one, two]
  {
    assert Ids([one, two]) == [one.id, two.id];
    SameIds(found, [one, two], Store(timeline));
  }

  lemma BothAreRoots(side: Side, objects: seq<TimelineObject>, store: map<ObjectId, TimelineObject>, groups: Groups)
    requires |objects| == 2 && objects[0] in groups && objects[1] in groups
    requires groups[objects[0]] == "" && groups[objects[1]] == ""
    ensures Roots(side, objects, store, groups) == objects
  {
    assert objects[..0] == [] && objects[..2] == objects;
    GatewayRootsNext(objects, groups, 0);
    GatewayRootsNext(objects, groups, 1);
    CorelibRootsNext(objects, groups, store, 0);
    CorelibRootsNext(objects, groups, store, 1);
  }

  lemma TwoBeforeOne()
    ensures Enumerated(ArrayIndex, ["2", "1"]) == ["1", "2"]
  {
    DigitsAreIndices();
    assert ["2", "1"][1..] == ["1"] && ["1"][1..] == [];
    assert Indices(ArrayIndex, ["1"]) == ["1"];
    assert InsertIndex(ArrayIndex, "2", ["1"]) == ["1"] + InsertIndex(ArrayIndex, "2", []);
  }

  /** An index that is no sibling of those it overtakes does no harm. */
  lemma OvertakingOthers(side: Side, a: TimelineObject, one: TimelineObject)
    requires a.id == "a" && one.id == "1"
    ensures var timeline, groups := [a, one], map[a := "", one := "a"]; var store := Store(timeline);
            && Objects(timeline) != timeline
            && Roots(side, Objects(timeline), store, groups) == Roots(side, timeline, store, groups)
            && forall group :: Members(Objects(timeline), groups, group) == Members(timeline, groups, group)
  {
    var timeline, groups := [a, one], map[a := "", one := "a"];
    OneOvertakes(timeline);
    OnlyRoot(side, timeline, groups);
    RootsInTimelineOrder(side, timeline, groups);
    forall group ensures Members(Objects(timeline), groups, group) == Members(timeline, groups, group) {
      OneMember(timeline, groups, group);
      MembersInTimelineOrder(timeline, groups, group);
    }
  }

  lemma OneOvertakes(timeline: seq<TimelineObject>)
    requires |timeline| == 2 && timeline[0].id == "a" && timeline[1].id == "1"
    ensures Objects(timeline) != timeline
  {
    DigitsAreIndices();
    assert "a"[0] == 'a' && ArrayIndex("a").None?;
    ObjectsAreTimeline(timeline);
    assert !Earlier(ArrayIndex, Ids(timeline)[0], Ids(timeline)[1]);
  }

  lemma OnlyRoot(side: Side, objects: seq<TimelineObject>, groups: Groups)
    requires |objects| == 2 && objects[0] in groups && objects[1] in groups
    requires groups[objects[0]] == "" && groups[objects[1]] == objects[0].id != ""
    ensures |Roots(side, objects, Store(objects), groups)| <= 1
  {
    var store := Store(objects);
    assert objects[..0] == [] && objects[..2] == objects && objects[0] in objects;
    GatewayRootsNext(objects, groups, 0);
    GatewayRootsNext(objects, groups, 1);
    CorelibRootsNext(objects, groups, store, 0);
    CorelibRootsNext(objects, groups, store, 1);
  }

  lemma OneMember(objects: seq<TimelineObject>, groups: Groups, group: ObjectId)
    requires |objects| == 2 && objects[0] in groups && objects[1] in groups
    requires groups[objects[0]] == "" && groups[objects[1]] == objects[0].id != ""
    ensures |Members(objects, groups, group)| <= 1
  {
    assert objects[..0] == [] && objects[..2] == objects;
    MembersNext(objects, groups, 0, group);
    MembersNext(objects, groups, 1, group);
  }
}
