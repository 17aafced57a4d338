/** What forest the regrouping builds. */
module TimelineForest {
  import opened Wrappers
  import opened Timeline

  ghost predicate Known(objects: seq<TimelineObject>, store: map<ObjectId, TimelineObject>, groups: Groups) {
    Indexed(objects, store) && groups.Keys == set o | o in objects
  }

  /** Which of the two transformations. */
  datatype Side = Gateway | Corelib

  function Roots(side: Side, objects: seq<TimelineObject>, store: map<ObjectId, TimelineObject>,
                 groups: Groups): seq<TimelineObject> {
    if side.Gateway? then GatewayRoots(objects, groups) else CorelibRoots(objects, groups, store)
  }

  /** A chain of groups ends in no group and, for corelib, also in a missing one. */
  predicate IsEnd(side: Side, store: map<ObjectId, TimelineObject>, group: ObjectId) {
    if side.Gateway? then group == "" else !HasGroup(store, group)
  }

  ghost predicate AllGroupsExist(objects: seq<TimelineObject>, store: map<ObjectId, TimelineObject>, groups: Groups) {
    forall o :: o in objects && o in groups && groups[o] != "" ==> groups[o] in store
  }

  lemma {:induction false} RootsMembers(objects: seq<TimelineObject>, groups: Groups,
                                        store: map<ObjectId, TimelineObject>, o: TimelineObject)
    ensures o in GatewayRoots(objects, groups) <==> o in objects && o in groups && groups[o] == ""
    ensures o in CorelibRoots(objects, groups, store) <==> o in objects && o in groups && !HasGroup(store, groups[o])
  {
    if objects != [] {
      RootsMembers(objects[..|objects| - 1], groups, store, o);
      assert o in objects <==> o == objects[|objects| - 1] || o in objects[..|objects| - 1];
    }
  }

  /** The two transformations find the same roots if and only if no object names a missing group. */
  lemma {:induction false} RootsAgree(objects: seq<TimelineObject>, groups: Groups,
                                      store: map<ObjectId, TimelineObject>)
    ensures GatewayRoots(objects, groups) == CorelibRoots(objects, groups, store) <==>
            AllGroupsExist(objects, store, groups)
  {
    if AllGroupsExist(objects, store, groups) {
      SameRoots(objects, groups, store);
    } else {
      var o :| o in objects && o in groups && groups[o] != "" && groups[o] !in store;
      RootsMembers(objects, groups, store, o);
    }
  }

  lemma {:induction false} SameRoots(objects: seq<TimelineObject>, groups: Groups, store: map<ObjectId, TimelineObject>)
    requires AllGroupsExist(objects, store, groups)
    ensures GatewayRoots(objects, groups) == CorelibRoots(objects, groups, store)
  {
    if objects != [] {
      assert forall o :: o in objects[..|objects| - 1] ==> o in objects;
      assert objects[|objects| - 1] in objects;
      SameRoots(objects[..|objects| - 1], groups, store);
    }
  }

  /******* Members, in order and once each *******/

  lemma {:induction false} MembersAre(objects: seq<TimelineObject>, groups: Groups, id: ObjectId, o: TimelineObject)
    ensures o in Members(objects, groups, id) <==> o in objects && o in groups && id != "" && groups[o] == id
  {
    if objects != [] {
      MembersAre(objects[..|objects| - 1], groups, id, o);
      assert o in objects <==> o == objects[|objects| - 1] || o in objects[..|objects| - 1];
    }
  }

  /** Where a member stands among all objects. */
  function PlaceOf(objects: seq<TimelineObject>, o: TimelineObject): (i: nat)
    requires o in objects
    ensures i < |objects| && objects[i] == o && o !in objects[..i]
  {
    if objects[0] == o then 0 else 1 + PlaceOf(objects[1..], o)
  }

  lemma PlaceIs(objects: seq<TimelineObject>, i: nat)
    requires i < |objects| && forall j, k :: 0 <= j < k < |objects| ==> objects[j] != objects[k]
    ensures objects[i] in objects && PlaceOf(objects, objects[i]) == i
  {
    var j := PlaceOf(objects, objects[i]);
    assert forall k :: 0 <= k < |objects| && objects[k] == objects[i] ==> k == i;
  }

  ghost predicate InOrder(some: seq<TimelineObject>, objects: seq<TimelineObject>) {
    && (forall o :: o in some ==> o in objects)
    && (forall i, j :: 0 <= i < j < |some| ==> PlaceOf(objects, some[i]) < PlaceOf(objects, some[j]))
  }

  lemma AppendInOrder(some: seq<TimelineObject>, objects: seq<TimelineObject>, n: nat)
    requires n < |objects| && forall j, k :: 0 <= j < k < |objects| ==> objects[j] != objects[k]
    requires InOrder(some, objects) && forall o :: o in some ==> PlaceOf(objects, o) < n
    ensures InOrder(some + [objects[n]], objects)
    ensures forall o :: o in some + [objects[n]] ==> PlaceOf(objects, o) < n + 1
  {
    PlaceIs(objects, n);
    forall i | 0 <= i < |some| ensures PlaceOf(objects, some[i]) < n {
      assert some[i] in some;
    }
  }

  lemma {:induction false} MembersInOrder(objects: seq<TimelineObject>, groups: Groups, id: ObjectId, n: nat)
    requires n <= |objects| && groups.Keys == set o | o in objects
    requires forall j, k :: 0 <= j < k < |objects| ==> objects[j] != objects[k]
    ensures InOrder(Members(objects[..n], groups, id), objects)
    ensures forall o :: o in Members(objects[..n], groups, id) ==> PlaceOf(objects, o) < n
  {
    if n > 0 {
      MembersInOrder(objects, groups, id, n - 1);
      assert objects[n - 1] in objects;
      MembersNext(objects, groups, n - 1, id);
      AppendInOrder(Members(objects[..n - 1], groups, id), objects, n - 1);
    }
  }

  lemma {:induction false} RootsInOrder(side: Side, objects: seq<TimelineObject>, store: map<ObjectId, TimelineObject>,
                                        groups: Groups, n: nat)
    requires n <= |objects| && groups.Keys == set o | o in objects
    requires forall j, k :: 0 <= j < k < |objects| ==> objects[j] != objects[k]
    ensures InOrder(Roots(side, objects[..n], store, groups), objects)
    ensures forall o :: o in Roots(side, objects[..n], store, groups) ==> PlaceOf(objects, o) < n
  {
    if n > 0 {
      RootsInOrder(side, objects, store, groups, n - 1);
      assert objects[n - 1] in objects;
      if side.Gateway? {
        GatewayRootsNext(objects, groups, n - 1);
      } else {
        CorelibRootsNext(objects, groups, store, n - 1);
      }
      AppendInOrder(Roots(side, objects[..n - 1], store, groups), objects, n - 1);
    }
  }

  /** Roots, and the children a group is given, come in the order of the objects, each once. */
  lemma ForestInOrder(side: Side, objects: seq<TimelineObject>, store: map<ObjectId, TimelineObject>, groups: Groups,
                      id: ObjectId)
    requires Known(objects, store, groups)
    ensures InOrder(Members(objects, groups, id), objects) && InOrder(Roots(side, objects, store, groups), objects)
  {
    MembersInOrder(objects, groups, id, |objects|);
    RootsInOrder(side, objects, store, groups, |objects|);
    assert objects[..|objects|] == objects;
  }

  /******* Paths through the forest *******/

  /** The object a path of child numbers leads to, from the roots down. */
  function Follow(side: Side, objects: seq<TimelineObject>, store: map<ObjectId, TimelineObject>, groups: Groups,
                  path: seq<nat>): Option<TimelineObject> {
    if path == [] then None
    else
      var k := path[|path| - 1];
      if |path| == 1 then
        var roots := Roots(side, objects, store, groups);
        if k < |roots| then Some(roots[k]) else None
      else
        match Follow(side, objects, store, groups, path[..|path| - 1])
        case None => None
        case Some(parent) =>
          var members := Members(objects, groups, parent.id);
          if k < |members| then Some(members[k]) else None
  }

  /** The chain of groups of an object ends after so many steps. */
  predicate ChainEnds(side: Side, store: map<ObjectId, TimelineObject>, groups: Groups, o: TimelineObject, steps: nat) {
    o in groups &&
    if steps == 0 then IsEnd(side, store, groups[o])
    else HasGroup(store, groups[o]) && ChainEnds(side, store, groups, store[groups[o]], steps - 1)
  }

  lemma {:induction false} FollowedEnds(side: Side, objects: seq<TimelineObject>, store: map<ObjectId, TimelineObject>,
                                        groups: Groups, path: seq<nat>)
    requires Known(objects, store, groups) && Follow(side, objects, store, groups, path).Some?
    ensures var o := Follow(side, objects, store, groups, path).value;
            o in objects && ChainEnds(side, store, groups, o, |path| - 1)
  {
    var o := Follow(side, objects, store, groups, path).value;
    if |path| == 1 {
      assert o in Roots(side, objects, store, groups);
      RootsMembers(objects, groups, store, o);
    } else {
      FollowedEnds(side, objects, store, groups, path[..|path| - 1]);
      var parent := Follow(side, objects, store, groups, path[..|path| - 1]).value;
      assert o in Members(objects, groups, parent.id);
      MembersAre(objects, groups, parent.id, o);
    }
  }

  lemma {:induction false} EndedIsFollowed(side: Side, objects: seq<TimelineObject>,
                                           store: map<ObjectId, TimelineObject>, groups: Groups, o: TimelineObject,
                                           steps: nat)
    returns (path: seq<nat>)
    requires Known(objects, store, groups) && o in objects && ChainEnds(side, store, groups, o, steps)
    ensures |path| == steps + 1 && Follow(side, objects, store, groups, path) == Some(o)
  {
    if steps == 0 {
      RootsMembers(objects, groups, store, o);
      var k :| 0 <= k < |Roots(side, objects, store, groups)| && Roots(side, objects, store, groups)[k] == o;
      path := [k];
    } else {
      var parent := store[groups[o]];
      var above := EndedIsFollowed(side, objects, store, groups, parent, steps - 1);
      MembersAre(objects, groups, parent.id, o);
      var members := Members(objects, groups, parent.id);
      var k :| 0 <= k < |members| && members[k] == o;
      path := above + [k];
      FollowOneMore(side, objects, store, groups, above, parent, k);
    }
  }

  lemma FollowOneMore(side: Side, objects: seq<TimelineObject>, store: map<ObjectId, TimelineObject>, groups: Groups,
                      above: seq<nat>, parent: TimelineObject, k: nat)
    requires above != [] && Follow(side, objects, store, groups, above) == Some(parent)
    requires k < |Members(objects, groups, parent.id)|
    ensures Follow(side, objects, store, groups, above + [k]) == Some(Members(objects, groups, parent.id)[k])
  {
    assert (above + [k])[..|above|] == above;
  }

  lemma {:induction false} ChainLengthUnique(side: Side, store: map<ObjectId, TimelineObject>, groups: Groups,
                                             o: TimelineObject, a: nat, b: nat)
    requires ChainEnds(side, store, groups, o, a) && ChainEnds(side, store, groups, o, b)
    ensures a == b
  {
    if a > 0 && b > 0 {
      ChainLengthUnique(side, store, groups, store[groups[o]], a - 1, b - 1);
    }
  }

  lemma OnePlace(some: seq<TimelineObject>, objects: seq<TimelineObject>, i: nat, j: nat)
    requires InOrder(some, objects) && i < |some| && j < |some| && some[i] == some[j]
    ensures i == j
  {
    assert some[i] in some;
  }

  /** No object is in the output twice. */
  lemma {:induction false} PathUnique(side: Side, objects: seq<TimelineObject>, store: map<ObjectId, TimelineObject>,
                                      groups: Groups, p: seq<nat>, q: seq<nat>)
    requires Known(objects, store, groups) && Follow(side, objects, store, groups, p).Some? &&
             Follow(side, objects, store, groups, p) == Follow(side, objects, store, groups, q)
    ensures p == q
  {
    SameLength(side, objects, store, groups, p, q);
    var n := |p| - 1;
    if n == 0 {
      ForestInOrder(side, objects, store, groups, "");
      OnePlace(Roots(side, objects, store, groups), objects, p[0], q[0]);
      assert p == [p[0]] && q == [q[0]];
    } else {
      SameParent(side, objects, store, groups, p, q);
      PathUnique(side, objects, store, groups, p[..n], q[..n]);
      SameNumber(side, objects, store, groups, p, q);
      assert p == p[..n] + [p[n]] && q == q[..n] + [q[n]];
    }
  }

  lemma SameLength(side: Side, objects: seq<TimelineObject>, store: map<ObjectId, TimelineObject>, groups: Groups,
                   p: seq<nat>, q: seq<nat>)
    requires Known(objects, store, groups) && Follow(side, objects, store, groups, p).Some? &&
             Follow(side, objects, store, groups, p) == Follow(side, objects, store, groups, q)
    ensures |p| == |q|
  {
    var o := Follow(side, objects, store, groups, p).value;
    var a := LengthOf(side, objects, store, groups, p, o);
    var b := LengthOf(side, objects, store, groups, q, o);
    ChainLengthUnique(side, store, groups, o, a, b);
  }

  lemma LengthOf(side: Side, objects: seq<TimelineObject>, store: map<ObjectId, TimelineObject>, groups: Groups,
                 path: seq<nat>, o: TimelineObject)
    returns (steps: nat)
    requires Known(objects, store, groups) && Follow(side, objects, store, groups, path) == Some(o)
    ensures |path| == steps + 1 && ChainEnds(side, store, groups, o, steps)
  {
    FollowedEnds(side, objects, store, groups, path);
    steps := |path| - 1;
  }

  lemma SameNumber(side: Side, objects: seq<TimelineObject>, store: map<ObjectId, TimelineObject>, groups: Groups,
                   p: seq<nat>, q: seq<nat>)
    requires Known(objects, store, groups) && Follow(side, objects, store, groups, p).Some? &&
             Follow(side, objects, store, groups, p) == Follow(side, objects, store, groups, q)
    requires |p| == |q| > 1 && p[..|p| - 1] == q[..|q| - 1]
    ensures p[|p| - 1] == q[|q| - 1]
  {
    var parent := Follow(side, objects, store, groups, p[..|p| - 1]).value;
    ForestInOrder(side, objects, store, groups, parent.id);
    OnePlace(Members(objects, groups, parent.id), objects, p[|p| - 1], q[|q| - 1]);
  }

  lemma SameParent(side: Side, objects: seq<TimelineObject>, store: map<ObjectId, TimelineObject>, groups: Groups,
                   p: seq<nat>, q: seq<nat>)
    requires Known(objects, store, groups) && Follow(side, objects, store, groups, p).Some? &&
             Follow(side, objects, store, groups, p) == Follow(side, objects, store, groups, q)
    requires |p| == |q| > 1
    ensures Follow(side, objects, store, groups, p[..|p| - 1]).Some?
    ensures Follow(side, objects, store, groups, p[..|p| - 1]) == Follow(side, objects, store, groups, q[..|q| - 1])
  {
    var o := Follow(side, objects, store, groups, p).value;
    var a := Follow(side, objects, store, groups, p[..|p| - 1]).value;
    var b := Follow(side, objects, store, groups, q[..|q| - 1]).value;
    FollowedEnds(side, objects, store, groups, p[..|p| - 1]);
    FollowedEnds(side, objects, store, groups, q[..|q| - 1]);
    assert o in Members(objects, groups, a.id) && o in Members(objects, groups, b.id);
    MembersAre(objects, groups, a.id, o);
    MembersAre(objects, groups, b.id, o);
  }

  /** The object is somewhere in the output. */
  ghost predicate InOutput(side: Side, objects: seq<TimelineObject>, store: map<ObjectId, TimelineObject>,
                           groups: Groups, o: TimelineObject) {
    exists path :: LeadsTo(side, objects, store, groups, path, o)
  }

  predicate LeadsTo(side: Side, objects: seq<TimelineObject>, store: map<ObjectId, TimelineObject>, groups: Groups,
                    path: seq<nat>, o: TimelineObject) {
    Follow(side, objects, store, groups, path) == Some(o)
  }

  /** The chain of its groups ends. */
  ghost predicate Grounded(side: Side, store: map<ObjectId, TimelineObject>, groups: Groups, o: TimelineObject) {
    exists steps :: EndsAfter(side, store, groups, o, steps)
  }

  predicate EndsAfter(side: Side, store: map<ObjectId, TimelineObject>, groups: Groups, o: TimelineObject, steps: nat) {
    ChainEnds(side, store, groups, o, steps)
  }

  /** An object is in the output if and only if its chain of groups ends: for the gateway at an object in no
      group, for corelib at one in no group or in a missing one.  So an object whose groups form a cycle is in
      neither output. */
  lemma InOutputIffGrounded(side: Side, objects: seq<TimelineObject>, store: map<ObjectId, TimelineObject>,
                            groups: Groups, o: TimelineObject)
    requires Known(objects, store, groups) && o in objects
    ensures InOutput(side, objects, store, groups, o) <==> Grounded(side, store, groups, o)
  {
    if InOutput(side, objects, store, groups, o) {
      var path :| LeadsTo(side, objects, store, groups, path, o);
      var steps := LengthOf(side, objects, store, groups, path, o);
      assert EndsAfter(side, store, groups, o, steps);
    }
    if Grounded(side, store, groups, o) {
      var steps :| EndsAfter(side, store, groups, o, steps);
      var path := EndedIsFollowed(side, objects, store, groups, o, steps);
      assert LeadsTo(side, objects, store, groups, path, o);
    }
  }

  /******* The same of the objects themselves *******/

  /** Where a path leads through the children that the objects have now. */
  ghost function Walk(objects: seq<TimelineObject>, roots: seq<TimelineObject>, path: seq<nat>): Option<TimelineObject>
    reads objects
  {
    if path == [] then None
    else
      var k := path[|path| - 1];
      if |path| == 1 then if k < |roots| then Some(roots[k]) else None
      else
        var parent := Walk(objects, roots, path[..|path| - 1]);
        if parent.Some? && parent.value in objects && parent.value.children.Some? &&
           k < |parent.value.children.value|
        then Some(parent.value.children.value[k])
        else None
  }

  /** When no object had children before, the objects are transformed into the forest. */
  lemma {:induction false} WalkFollows(side: Side, objects: seq<TimelineObject>, store: map<ObjectId, TimelineObject>,
                                       groups: Groups, children: Children, roots: seq<TimelineObject>, path: seq<nat>)
    requires Indexed(objects, store) && Grouped(objects, store, groups, children, |objects|)
    requires roots == Roots(side, objects, store, groups) && forall o :: o in objects ==> children[o].None?
    ensures Walk(objects, roots, path) == Follow(side, objects, store, groups, path)
  {
    if |path| > 1 {
      var above := path[..|path| - 1];
      WalkFollows(side, objects, store, groups, children, roots, above);
      if Walk(objects, roots, above).Some? {
        FollowedEnds(side, objects, store, groups, above);
        ChildrenAre(objects, store, groups, children, Walk(objects, roots, above).value);
      }
    }
  }

  lemma ChildrenAre(objects: seq<TimelineObject>, store: map<ObjectId, TimelineObject>, groups: Groups,
                    children: Children, o: TimelineObject)
    requires Grouped(objects, store, groups, children, |objects|) && o in objects && children[o].None?
    ensures var members := Members(objects, groups, o.id);
            o.children == if members == [] then None else Some(members)
  {
    assert objects[..|objects|] == objects;
    assert ChildrenNow(objects)[o] == o.children;
    var members := Members(objects, groups, o.id);
    assert [] + members == members;
  }

  ghost predicate Within(objects: seq<TimelineObject>, roots: seq<TimelineObject>, o: TimelineObject)
    reads objects
  {
    exists path :: Walk(objects, roots, path) == Some(o)
  }

  /** So after either transformation nothing can be reached twice from the roots through the children, and what
      can be reached are the objects whose chains of groups end. */
  lemma ObjectsAreForest(side: Side, objects: seq<TimelineObject>, store: map<ObjectId, TimelineObject>,
                         groups: Groups, children: Children, roots: seq<TimelineObject>)
    requires Indexed(objects, store) && Grouped(objects, store, groups, children, |objects|)
    requires roots == Roots(side, objects, store, groups) && forall o :: o in objects ==> children[o].None?
    ensures forall p, q ::
              Walk(objects, roots, p).Some? && Walk(objects, roots, p) == Walk(objects, roots, q) ==> p == q
    ensures forall o :: o in objects ==> (Within(objects, roots, o) <==> Grounded(side, store, groups, o))
  {
    forall path ensures Walk(objects, roots, path) == Follow(side, objects, store, groups, path) {
      WalkFollows(side, objects, store, groups, children, roots, path);
    }
    forall p, q | Walk(objects, roots, p).Some? && Walk(objects, roots, p) == Walk(objects, roots, q) ensures p == q {
      PathUnique(side, objects, store, groups, p, q);
    }
    forall o | o in objects ensures Within(objects, roots, o) <==> Grounded(side, store, groups, o) {
      InOutputIffGrounded(side, objects, store, groups, o);
      if Within(objects, roots, o) {
        var path :| Walk(objects, roots, path) == Some(o);
        assert LeadsTo(side, objects, store, groups, path, o);
      }
      if InOutput(side, objects, store, groups, o) {
        var path :| LeadsTo(side, objects, store, groups, path, o);
        assert Walk(objects, roots, path) == Some(o);
      }
    }
  }

  /******* The two forests *******/

  predicate SameAt(objects: seq<TimelineObject>, store: map<ObjectId, TimelineObject>, groups: Groups, path: seq<nat>) {
    Follow(Gateway, objects, store, groups, path) == Follow(Corelib, objects, store, groups, path)
  }

  /** Everything is at the same place in both forests if and only if no object names a missing group. */
  lemma ForestsAgree(objects: seq<TimelineObject>, store: map<ObjectId, TimelineObject>, groups: Groups)
    ensures (forall path :: SameAt(objects, store, groups, path)) <==> AllGroupsExist(objects, store, groups)
  {
    RootsAgree(objects, groups, store);
    if AllGroupsExist(objects, store, groups) {
      forall path ensures SameAt(objects, store, groups, path) {
        SameFollow(objects, store, groups, path);
      }
    } else {
      var a, b := GatewayRoots(objects, groups), CorelibRoots(objects, groups, store);
      var k := Difference(a, b);
      assert !SameAt(objects, store, groups, [k]);
    }
  }

  /** An object whose group is missing is a root for corelib, and nowhere in the output of the gateway. */
  lemma MissingGroup(o: TimelineObject)
    requires o.id != "missing"
    ensures var timeline, groups := [o], map[o := "missing"]; var store := Store(timeline);
            && !AllGroupsExist(timeline, store, groups)
            && InOutput(Corelib, timeline, store, groups, o) && !InOutput(Gateway, timeline, store, groups, o)
  {
    var timeline, groups := [o], map[o := "missing"];
    var store := Store(timeline);
    assert o in timeline;
    assert timeline[..0] == [] && store == map[o.id := o];
    assert EndsAfter(Corelib, store, groups, o, 0);
    InOutputIffGrounded(Corelib, timeline, store, groups, o);
    InOutputIffGrounded(Gateway, timeline, store, groups, o);
  }

  lemma {:induction false} SameFollow(objects: seq<TimelineObject>, store: map<ObjectId, TimelineObject>,
                                      groups: Groups, path: seq<nat>)
    requires GatewayRoots(objects, groups) == CorelibRoots(objects, groups, store)
    ensures Follow(Gateway, objects, store, groups, path) == Follow(Corelib, objects, store, groups, path)
  {
    if |path| > 1 { SameFollow(objects, store, groups, path[..|path| - 1]); }
  }

  /** Where two different lists differ. */
  lemma Difference(a: seq<TimelineObject>, b: seq<TimelineObject>) returns (k: nat)
    requires a != b
    ensures k < |a| || k < |b|
    ensures k < |a| && k < |b| ==> a[k] != b[k]
  {
    if |a| < |b| {
      k := |a|;
    } else if |b| < |a| {
      k := |b|;
    } else {
      assert !(forall i :: 0 <= i < |a| ==> a[i] == b[i]);
      k :| 0 <= k < |a| && a[k] != b[k];
    }
  }

  /** What either transformation does to the objects that were there. */
  lemma ObjectsAfter(objects: seq<TimelineObject>, store: map<ObjectId, TimelineObject>, groups: Groups,
                     children: Children, o: TimelineObject)
    requires Grouped(objects, store, groups, children, |objects|) && o in objects
    ensures o.inGroup == if groups[o] != "" && groups[o] in store then "" else groups[o]
    ensures var members := Members(objects, groups, o.id);
            && (members == [] ==> o.children == children[o])
            && (members != [] ==> o.children == Some((if children[o].Some? then children[o].value else []) + members))
  {
    assert objects[..|objects|] == objects;
    assert ChildrenNow(objects)[o] == o.children && GroupsNow(objects)[o] == o.inGroup;
    var k :| 0 <= k < |objects| && objects[k] == o;
  }
}
