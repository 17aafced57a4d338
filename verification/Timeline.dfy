/**
 * Regrouping a flat timeline into a forest, as the playout gateway and corelib each do it in place.
 *
 * Both first enter the objects in a key-value store and then go through the store, so what they see is
 * the last object of each id, in the order in which a JavaScript object enumerates its keys.
 */
module Timeline {
  import opened Wrappers
  import opened JsStrings
  import opened JsKeys

  type ObjectId = string

  class TimelineObject {
    const id: ObjectId
    const isGroup: bool
    var inGroup: ObjectId            // empty when it is in no group
    var children: Option<seq<TimelineObject>>
    var hasContent: bool
    var hasContentObjects: bool

    constructor (id: ObjectId, isGroup: bool, inGroup: ObjectId)
      ensures this.id == id && this.isGroup == isGroup && this.inGroup == inGroup && children.None?
      ensures !hasContent && !hasContentObjects
    {
      this.id, this.isGroup, this.inGroup := id, isGroup, inGroup;
      children, hasContent, hasContentObjects := None, false, false;
    }
  }

  /******* The store *******/

  function Store(timeline: seq<TimelineObject>): (store: map<ObjectId, TimelineObject>)
    ensures forall k :: k in store ==> store[k].id == k && store[k] in timeline
    ensures forall o :: o in timeline ==> o.id in store
  {
    if timeline == [] then map[]
    else
      var last := timeline[|timeline| - 1];
      Store(timeline[..|timeline| - 1])[last.id := last]
  }

  function Keys(timeline: seq<TimelineObject>): (keys: seq<ObjectId>)
    ensures Distinct(keys)
    ensures forall k :: k in keys <==> exists o :: o in timeline && o.id == k
  {
    if timeline == [] then []
    else
      var last := timeline[|timeline| - 1];
      var keys := Keys(timeline[..|timeline| - 1]);
      if last.id in keys then keys else keys + [last.id]
  }

  function Lookup(store: map<ObjectId, TimelineObject>, keys: seq<ObjectId>): (objects: seq<TimelineObject>)
    requires forall k :: k in keys ==> k in store
    ensures |objects| == |keys| && forall i :: 0 <= i < |keys| ==> objects[i] == store[keys[i]]
  {
    seq(|keys|, i requires 0 <= i < |keys| => store[keys[i]])
  }

  /** The objects in the order in which the store is gone through. */
  function Objects(timeline: seq<TimelineObject>): seq<TimelineObject> {
    Lookup(Store(timeline), Enumerated(ArrayIndex, Keys(timeline)))
  }

  /** What the store and the order of its objects have in common. */
  ghost predicate Indexed(objects: seq<TimelineObject>, store: map<ObjectId, TimelineObject>) {
    && (forall i, j :: 0 <= i < j < |objects| ==> objects[i].id != objects[j].id)
    && (forall o :: o in objects ==> o.id in store && store[o.id] == o)
    && (forall k :: k in store ==> store[k] in objects && store[k].id == k)
  }

  lemma ObjectsIndexed(timeline: seq<TimelineObject>)
    ensures Indexed(Objects(timeline), Store(timeline))
    ensures forall o :: o in Objects(timeline) ==> o in timeline
  {
    var keys, store := Enumerated(ArrayIndex, Keys(timeline)), Store(timeline);
    EnumeratedDistinct(ArrayIndex, Keys(timeline));
    forall i | 0 <= i < |keys| ensures Objects(timeline)[i].id == keys[i] && Objects(timeline)[i] in timeline {
      assert keys[i] in keys;
    }
    forall k | k in store ensures store[k] in Objects(timeline) {
      assert k in keys;
      var i :| 0 <= i < |keys| && keys[i] == k;
      assert Objects(timeline)[i] == store[k];
    }
  }

  /** With unique ids, the objects are the timeline itself if and only if ids that are array indices come first,
      in ascending order. */
  lemma ObjectsAreTimeline(timeline: seq<TimelineObject>)
    requires UniqueIds(timeline)
    ensures Objects(timeline) == timeline <==> IndicesFirst(ArrayIndex, Ids(timeline))
  {
    KeysInOrder(timeline);
    StoreFinds(timeline);
    ArrayIndexTellsApart();
    EnumeratedInOrder(ArrayIndex, Ids(timeline));
    LookupTellsApart(Store(timeline), Enumerated(ArrayIndex, Ids(timeline)), Ids(timeline));
    assert Lookup(Store(timeline), Ids(timeline)) == timeline;
  }

  lemma LookupTellsApart(store: map<ObjectId, TimelineObject>, keys: seq<ObjectId>, others: seq<ObjectId>)
    requires forall k :: k in store ==> store[k].id == k
    requires (forall k :: k in keys ==> k in store) && (forall k :: k in others ==> k in store)
    ensures Lookup(store, keys) == Lookup(store, others) <==> keys == others
  {
    if Lookup(store, keys) == Lookup(store, others) {
      forall i | 0 <= i < |keys| ensures keys[i] == others[i] {
        assert Lookup(store, keys)[i].id == keys[i] && Lookup(store, others)[i].id == others[i];
      }
    }
  }

  ghost predicate UniqueIds(timeline: seq<TimelineObject>) {
    forall i, j :: 0 <= i < j < |timeline| ==> timeline[i].id != timeline[j].id
  }

  function Ids(timeline: seq<TimelineObject>): (ids: seq<ObjectId>) {
    seq(|timeline|, i requires 0 <= i < |timeline| => timeline[i].id)
  }

  /** Two objects whose ids are indices in descending order change places. */
  lemma IndicesChangePlaces(two: TimelineObject, one: TimelineObject)
    requires two.id == "2" && one.id == "1"
    ensures Objects([two, one]) != [two, one]
  {
    DigitsAreIndices();
    var timeline := [two, one];
    ObjectsAreTimeline(timeline);
    assert !Earlier(ArrayIndex, Ids(timeline)[0], Ids(timeline)[1]);
  }

  lemma {:induction false} KeysInOrder(timeline: seq<TimelineObject>)
    requires forall i, j :: 0 <= i < j < |timeline| ==> timeline[i].id != timeline[j].id
    ensures Keys(timeline) == Ids(timeline)
  {
    if timeline != [] { KeysInOrder(timeline[..|timeline| - 1]); }
  }

  lemma StoreFinds(timeline: seq<TimelineObject>)
    requires forall i, j :: 0 <= i < j < |timeline| ==> timeline[i].id != timeline[j].id
    ensures forall i :: 0 <= i < |timeline| ==> Store(timeline)[timeline[i].id] == timeline[i]
  {
    forall i | 0 <= i < |timeline| ensures Store(timeline)[timeline[i].id] == timeline[i] {
      StoreFindsOne(timeline, i);
    }
  }

  lemma {:induction false} StoreFindsOne(timeline: seq<TimelineObject>, i: nat)
    requires i < |timeline| && forall j :: i < j < |timeline| ==> timeline[i].id != timeline[j].id
    ensures timeline[i].id in Store(timeline) && Store(timeline)[timeline[i].id] == timeline[i]
  {
    if i < |timeline| - 1 {
      var rest := timeline[..|timeline| - 1];
      assert forall j :: i < j < |rest| ==> rest[j] == timeline[j];
      StoreFindsOne(rest, i);
    }
  }

  /******* The forest, from the groups as they were *******/

  type Groups = map<TimelineObject, ObjectId>

  ghost function GroupsNow(objects: seq<TimelineObject>): Groups
    reads objects
  {
    map o | o in objects :: o.inGroup
  }

  predicate HasGroup(store: map<ObjectId, TimelineObject>, id: ObjectId) {
    id != "" && id in store
  }

  /** Roots of the gateway: objects in no group.  An object whose group is missing is dropped. */
  function GatewayRoots(objects: seq<TimelineObject>, groups: Groups): seq<TimelineObject> {
    if objects == [] then []
    else
      var last := objects[|objects| - 1];
      GatewayRoots(objects[..|objects| - 1], groups) + if last in groups && groups[last] == "" then [last] else []
  }

  /** Roots of corelib: also the objects whose group is missing. */
  function CorelibRoots(objects: seq<TimelineObject>, groups: Groups,
                        store: map<ObjectId, TimelineObject>): seq<TimelineObject> {
    if objects == [] then []
    else
      var last := objects[|objects| - 1];
      CorelibRoots(objects[..|objects| - 1], groups, store)
      + if last in groups && !HasGroup(store, groups[last]) then [last] else []
  }

  function Members(objects: seq<TimelineObject>, groups: Groups, id: ObjectId): seq<TimelineObject> {
    if objects == [] then []
    else
      var last := objects[|objects| - 1];
      Members(objects[..|objects| - 1], groups, id) +
      if last in groups && id != "" && groups[last] == id then [last] else []
  }

  function Extended(children: Option<seq<TimelineObject>>, members: seq<TimelineObject>): Option<seq<TimelineObject>> {
    if members == [] then children
    else Some((if children.Some? then children.value else []) + members)
  }

  function GroupAfter(store: map<ObjectId, TimelineObject>, id: ObjectId): ObjectId {
    if HasGroup(store, id) then "" else id
  }

  type Children = map<TimelineObject, Option<seq<TimelineObject>>>

  ghost function ChildrenNow(objects: seq<TimelineObject>): Children
    reads objects
  {
    map o | o in objects :: o.children
  }

  /** The objects once n of them have been gone through. */
  ghost predicate Grouped(objects: seq<TimelineObject>, store: map<ObjectId, TimelineObject>, groups: Groups,
                          children: Children, n: nat)
    requires n <= |objects|
    reads objects
  {
    GroupedAs(objects, store, groups, children, n, ChildrenNow(objects), GroupsNow(objects))
  }

  ghost predicate GroupedAs(objects: seq<TimelineObject>, store: map<ObjectId, TimelineObject>, groups: Groups,
                            children: Children, n: nat, childrenNow: Children, groupsNow: Groups)
    requires n <= |objects|
    requires forall o :: o in objects ==> o in childrenNow && o in groupsNow
  {
    && groups.Keys == children.Keys == (set o | o in objects)
    && (forall o :: o in objects ==> childrenNow[o] == Extended(children[o], Members(objects[..n], groups, o.id)))
    && (forall k :: 0 <= k < n ==>
          objects[k] in objects && groupsNow[objects[k]] == GroupAfter(store, groups[objects[k]]))
    && (forall k :: n <= k < |objects| ==> objects[k] in objects && groupsNow[objects[k]] == groups[objects[k]])
  }

  lemma NothingYet(objects: seq<TimelineObject>, store: map<ObjectId, TimelineObject>)
    ensures Grouped(objects, store, GroupsNow(objects), ChildrenNow(objects), 0)
  {
    assert forall k :: 0 <= k < |objects| ==> objects[k] in objects;
    assert objects[..0] == [];
  }

  lemma MembersNext(objects: seq<TimelineObject>, groups: Groups, n: nat, id: ObjectId)
    requires n < |objects| && objects[n] in groups
    ensures var before := Members(objects[..n], groups, id);
            Members(objects[..n + 1], groups, id) ==
                if id != "" && groups[objects[n]] == id then before + [objects[n]] else before
  {
    assert objects[..n + 1][..n] == objects[..n];
    var before := Members(objects[..n], groups, id);
    assert before + [] == before;
  }

  /** An object without a group to go to leaves everything as it is. */
  lemma StaysOut(objects: seq<TimelineObject>, store: map<ObjectId, TimelineObject>, groups: Groups, children: Children,
                 n: nat)
    requires Indexed(objects, store) && n < |objects| && Grouped(objects, store, groups, children, n)
    requires !HasGroup(store, objects[n].inGroup)
    ensures Grouped(objects, store, groups, children, n + 1)
  {
    StaysAs(objects, store, groups, children, n, ChildrenNow(objects), GroupsNow(objects));
  }

  lemma StaysAs(objects: seq<TimelineObject>, store: map<ObjectId, TimelineObject>, groups: Groups, children: Children,
                n: nat, childrenNow: Children, groupsNow: Groups)
    requires Indexed(objects, store) && n < |objects|
    requires forall o :: o in objects ==> o in childrenNow && o in groupsNow
    requires GroupedAs(objects, store, groups, children, n, childrenNow, groupsNow)
    requires !HasGroup(store, groupsNow[objects[n]])
    ensures GroupedAs(objects, store, groups, children, n + 1, childrenNow, groupsNow)
  {
    assert objects[n] in objects && groupsNow[objects[n]] == groups[objects[n]];
    forall o | o in objects ensures Members(objects[..n + 1], groups, o.id) == Members(objects[..n], groups, o.id) {
      MembersNext(objects, groups, n, o.id);
    }
  }

  lemma MembersAfterEntering(objects: seq<TimelineObject>, store: map<ObjectId, TimelineObject>, groups: Groups, n: nat,
                             o: TimelineObject)
    requires Indexed(objects, store) && n < |objects| && objects[n] in groups &&
             HasGroup(store, groups[objects[n]]) && o in objects
    ensures var before := Members(objects[..n], groups, o.id);
            Members(objects[..n + 1], groups, o.id) ==
                if o == store[groups[objects[n]]] then before + [objects[n]] else before
  {
    MembersNext(objects, groups, n, o.id);
  }

  lemma ExtendedOnce(children: Option<seq<TimelineObject>>, members: seq<TimelineObject>, o: TimelineObject)
    ensures Extended(children, members + [o]) == Extended(Extended(children, members), [o])
  {
    if members == [] {
      assert members + [o] == [o];
    } else {
      var before := if children.Some? then children.value else [];
      assert before + members + [o] == before + (members + [o]);
    }
  }

  method Append(group: TimelineObject, o: TimelineObject)
    modifies group`children
    ensures group.children == Extended(old(group.children), [o])
  {
    if group.children.None? {
      group.children := Some([]);
    }
    group.children := Some(group.children.value + [o]);
  }

  /** The object is appended to the children of its group, which may be itself, and loses its group. */
  method EnterGroup(objects: seq<TimelineObject>, store: map<ObjectId, TimelineObject>, ghost groups: Groups,
                    ghost children: Children, n: nat)
    requires Indexed(objects, store) && n < |objects| && Grouped(objects, store, groups, children, n)
    requires HasGroup(store, objects[n].inGroup)
    modifies objects`children, objects`inGroup
    ensures Grouped(objects, store, groups, children, n + 1)
  {
    var o := objects[n];
    var group := store[o.inGroup];
    assert o in objects && group in objects;
    ghost var childrenNow, groupsNow := ChildrenNow(objects), GroupsNow(objects);
    Entered(objects, store, groups, children, n, childrenNow, groupsNow);
    AppendAndClear(objects, group, o);
  }

  lemma Entered(objects: seq<TimelineObject>, store: map<ObjectId, TimelineObject>, groups: Groups, children: Children,
                n: nat, childrenNow: Children, groupsNow: Groups)
    requires Indexed(objects, store) && n < |objects|
    requires forall o :: o in objects ==> o in childrenNow && o in groupsNow
    requires GroupedAs(objects, store, groups, children, n, childrenNow, groupsNow)
    requires HasGroup(store, groupsNow[objects[n]])
    ensures var o, group := objects[n], store[groupsNow[objects[n]]];
            && group in objects
            && GroupedAs(objects, store, groups, children, n + 1,
                         childrenNow[group := Extended(childrenNow[group], [o])], groupsNow[o := ""])
  {
    var o := objects[n];
    assert o in objects && groupsNow[o] == groups[o];
    ChildrenEntered(objects, store, groups, children, n, childrenNow);
    GroupsEntered(objects, store, groups, n, groupsNow);
  }

  lemma ChildrenEntered(objects: seq<TimelineObject>, store: map<ObjectId, TimelineObject>, groups: Groups,
                        children: Children, n: nat, childrenNow: Children)
    requires Indexed(objects, store) && n < |objects| && objects[n] in groups && HasGroup(store, groups[objects[n]])
    requires forall p :: p in objects ==> p in children && p in childrenNow
    requires forall p :: p in objects ==> childrenNow[p] == Extended(children[p], Members(objects[..n], groups, p.id))
    ensures var group := store[groups[objects[n]]];
            && group in objects
            && var after := childrenNow[group := Extended(childrenNow[group], [objects[n]])];
               forall p :: p in objects ==>
                 p in after && after[p] == Extended(children[p], Members(objects[..n + 1], groups, p.id))
  {
    forall p | p in objects
      ensures Extended(children[p], Members(objects[..n + 1], groups, p.id)) ==
              if p == store[groups[objects[n]]] then Extended(childrenNow[p], [objects[n]]) else childrenNow[p]
    {
      MembersAfterEntering(objects, store, groups, n, p);
      ExtendedOnce(children[p], Members(objects[..n], groups, p.id), objects[n]);
    }
  }

  lemma GroupsEntered(objects: seq<TimelineObject>, store: map<ObjectId, TimelineObject>, groups: Groups, n: nat,
                      groupsNow: Groups)
    requires n < |objects| && forall i, j :: 0 <= i < j < |objects| ==> objects[i].id != objects[j].id
    requires forall k :: 0 <= k < |objects| ==> objects[k] in groups && objects[k] in groupsNow
    requires forall k :: 0 <= k < n ==> groupsNow[objects[k]] == GroupAfter(store, groups[objects[k]])
    requires forall k :: n <= k < |objects| ==> groupsNow[objects[k]] == groups[objects[k]]
    requires HasGroup(store, groups[objects[n]])
    ensures forall k :: 0 <= k <= n ==>
            objects[k] in objects && groupsNow[objects[n] := ""][objects[k]] == GroupAfter(store, groups[objects[k]])
    ensures forall k :: n < k < |objects| ==>
            objects[k] in objects && groupsNow[objects[n] := ""][objects[k]] == groups[objects[k]]
  {
    assert forall k :: 0 <= k < |objects| && k != n ==> objects[k] != objects[n];
  }

  method AppendAndClear(objects: seq<TimelineObject>, group: TimelineObject, o: TimelineObject)
    requires group in objects && o in objects
    modifies group`children, o`inGroup
    ensures ChildrenNow(objects) == old(ChildrenNow(objects)[group := Extended(group.children, [o])])
    ensures GroupsNow(objects) == old(GroupsNow(objects)[o := ""])
  {
    Append(group, o);
    o.inGroup := "";
  }

  lemma GatewayRootsNext(objects: seq<TimelineObject>, groups: Groups, n: nat)
    requires n < |objects| && objects[n] in groups
    ensures var before := GatewayRoots(objects[..n], groups);
            GatewayRoots(objects[..n + 1], groups) == if groups[objects[n]] == "" then before + [objects[n]] else before
  {
    assert objects[..n + 1][..n] == objects[..n];
    var before := GatewayRoots(objects[..n], groups);
    assert before + [] == before;
  }

  method GatewayLoop(objects: seq<TimelineObject>, store: map<ObjectId, TimelineObject>)
    returns (roots: seq<TimelineObject>)
    requires Indexed(objects, store)
    modifies objects`children, objects`inGroup
    ensures roots == GatewayRoots(objects, old(GroupsNow(objects)))
    ensures Grouped(objects, store, old(GroupsNow(objects)), old(ChildrenNow(objects)), |objects|)
  {
    ghost var groups, children := GroupsNow(objects), ChildrenNow(objects);
    NothingYet(objects, store);
    roots := [];
    for n := 0 to |objects|
      invariant roots == GatewayRoots(objects[..n], groups)
      invariant Grouped(objects, store, groups, children, n)
    {
      roots := GatewayStep(objects, store, groups, children, n, roots);
    }
    assert objects[..|objects|] == objects;
  }

  method TransformGateway(timeline: seq<TimelineObject>) returns (roots: seq<TimelineObject>)
    modifies timeline`children, timeline`inGroup
    ensures var objects, store := Objects(timeline), Store(timeline);
            && roots == GatewayRoots(objects, old(GroupsNow(objects)))
            && Grouped(objects, store, old(GroupsNow(objects)), old(ChildrenNow(objects)), |objects|)
  {
    var store := Store(timeline);
    var objects := Objects(timeline);
    ObjectsIndexed(timeline);
    assert forall o :: o in objects ==> o in timeline;
    roots := GatewayLoop(objects, store);
  }

  method GatewayStep(objects: seq<TimelineObject>, store: map<ObjectId, TimelineObject>, ghost groups: Groups,
                     ghost children: Children, n: nat, roots0: seq<TimelineObject>)
    returns (roots: seq<TimelineObject>)
    requires Indexed(objects, store) && n < |objects| && Grouped(objects, store, groups, children, n)
    requires roots0 == GatewayRoots(objects[..n], groups)
    modifies objects`children, objects`inGroup
    ensures Grouped(objects, store, groups, children, n + 1)
    ensures roots == GatewayRoots(objects[..n + 1], groups)
  {
    var o := objects[n];
    assert o in objects;
    roots := roots0;
    GatewayRootsNext(objects, groups, n);
    if o.inGroup == "" {
      StaysOut(objects, store, groups, children, n);
      roots := roots + [o];
    } else if o.inGroup !in store {
      StaysOut(objects, store, groups, children, n);
    } else {
      EnterGroup(objects, store, groups, children, n);
    }
  }

  lemma CorelibRootsNext(objects: seq<TimelineObject>, groups: Groups, store: map<ObjectId, TimelineObject>, n: nat)
    requires n < |objects| && objects[n] in groups
    ensures var before := CorelibRoots(objects[..n], groups, store);
            CorelibRoots(objects[..n + 1], groups, store) ==
                if HasGroup(store, groups[objects[n]]) then before else before + [objects[n]]
  {
    assert objects[..n + 1][..n] == objects[..n];
    var before := CorelibRoots(objects[..n], groups, store);
    assert before + [] == before;
  }

  /** Contents are filled in, up to the first object without an id. */
  method FillDefaults(timeline: seq<TimelineObject>) returns (ok: bool)
    modifies timeline`hasContent, timeline`hasContentObjects
    ensures ok <==> forall o :: o in timeline ==> o.id != ""
    ensures ok ==> forall o :: o in timeline ==> o.hasContent && (o.isGroup ==> o.hasContentObjects)
  {
    for i := 0 to |timeline|
      invariant forall k :: 0 <= k < i ==>
                  timeline[k].id != "" && timeline[k].hasContent &&
                      (timeline[k].isGroup ==> timeline[k].hasContentObjects)
    {
      if timeline[i].id == "" { return false; }
      timeline[i].hasContent := true;
      if timeline[i].isGroup { timeline[i].hasContentObjects := true; }
    }
    ok := true;
  }

  method DefaultsThenLoop(timeline: seq<TimelineObject>, objects: seq<TimelineObject>,
                          store: map<ObjectId, TimelineObject>)
    returns (ok: bool, roots: seq<TimelineObject>)
    requires Indexed(objects, store) && forall o :: o in objects ==> o in timeline
    modifies timeline, objects`children, objects`inGroup
    ensures ok <==> forall o :: o in timeline ==> o.id != ""
    ensures !ok ==> forall o :: o in timeline ==> o.children == old(o.children) && o.inGroup == old(o.inGroup)
    ensures ok ==> forall o :: o in timeline ==> o.hasContent && (o.isGroup ==> o.hasContentObjects)
    ensures ok ==> roots == CorelibRoots(objects, old(GroupsNow(objects)), store)
    ensures ok ==> Grouped(objects, store, old(GroupsNow(objects)), old(ChildrenNow(objects)), |objects|)
  {
    roots := [];
    ok := FillDefaults(timeline);
    if ok {
      assert GroupsNow(objects) == old(GroupsNow(objects)) && ChildrenNow(objects) == old(ChildrenNow(objects));
      roots := CorelibLoop(objects, store);
    }
  }

  /** An object without an id makes the transformation throw, before anything is regrouped. */
  method TransformCorelib(timeline: seq<TimelineObject>) returns (result: Option<seq<TimelineObject>>)
    modifies timeline
    ensures result.None? <==> exists o :: o in timeline && o.id == ""
    ensures result.None? ==> forall o :: o in timeline ==> o.children == old(o.children) && o.inGroup == old(o.inGroup)
    ensures result.Some? ==>
              var objects, store := Objects(timeline), Store(timeline);
              && result.value == CorelibRoots(objects, old(GroupsNow(objects)), store)
              && Grouped(objects, store, old(GroupsNow(objects)), old(ChildrenNow(objects)), |objects|)
              && forall o :: o in timeline ==> o.hasContent && (o.isGroup ==> o.hasContentObjects)
  {
    var store, objects := Store(timeline), Objects(timeline);
    ObjectsIndexed(timeline);
    var ok, roots := DefaultsThenLoop(timeline, objects, store);
    result := if ok then Some(roots) else None;
  }

  method CorelibLoop(objects: seq<TimelineObject>, store: map<ObjectId, TimelineObject>)
    returns (roots: seq<TimelineObject>)
    requires Indexed(objects, store)
    modifies objects`children, objects`inGroup
    ensures roots == CorelibRoots(objects, old(GroupsNow(objects)), store)
    ensures Grouped(objects, store, old(GroupsNow(objects)), old(ChildrenNow(objects)), |objects|)
  {
    ghost var groups, children := GroupsNow(objects), ChildrenNow(objects);
    NothingYet(objects, store);
    roots := [];
    for n := 0 to |objects|
      invariant roots == CorelibRoots(objects[..n], groups, store)
      invariant Grouped(objects, store, groups, children, n)
    {
      roots := CorelibStep(objects, store, groups, children, n, roots);
    }
    assert objects[..|objects|] == objects;
  }

  method CorelibStep(objects: seq<TimelineObject>, store: map<ObjectId, TimelineObject>, ghost groups: Groups,
                     ghost children: Children, n: nat, roots0: seq<TimelineObject>)
    returns (roots: seq<TimelineObject>)
    requires Indexed(objects, store) && n < |objects| && Grouped(objects, store, groups, children, n)
    requires roots0 == CorelibRoots(objects[..n], groups, store)
    modifies objects`children, objects`inGroup
    ensures Grouped(objects, store, groups, children, n + 1)
    ensures roots == CorelibRoots(objects[..n + 1], groups, store)
  {
    var o := objects[n];
    assert o in objects;
    roots := roots0;
    CorelibRootsNext(objects, groups, store, n);
    if o.inGroup != "" {
      if o.inGroup in store {
        EnterGroup(objects, store, groups, children, n);
      } else {
        StaysOut(objects, store, groups, children, n);
        roots := roots + [o];
      }
    } else {
      StaysOut(objects, store, groups, children, n);
      roots := roots + [o];
    }
  }
}
