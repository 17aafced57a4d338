/** The order of the rundowns of a playlist. */
module PlaylistOrder {
  import opened Wrappers

  type RundownId = string
  datatype Rundown = Rundown(id: RundownId, externalId: string)

  ghost predicate Distinct(ids: seq<RundownId>) {
    forall i, j :: 0 <= i < j < |ids| ==> ids[i] != ids[j]
  }

  function Ids(rundowns: seq<Rundown>): (ids: seq<RundownId>)
    ensures |ids| == |rundowns| && forall i :: 0 <= i < |ids| ==> ids[i] == rundowns[i].id
  {
    seq(|rundowns|, i requires 0 <= i < |rundowns| => rundowns[i].id)
  }

  function Only(ids: seq<RundownId>, keep: set<RundownId>): seq<RundownId> {
    if ids == [] then []
    else
      var last := ids[|ids| - 1];
      Only(ids[..|ids| - 1], keep) + if last in keep then [last] else []
  }

  function Except(ids: seq<RundownId>, drop: set<RundownId>): seq<RundownId> {
    if ids == [] then []
    else
      var last := ids[|ids| - 1];
      Except(ids[..|ids| - 1], drop) + if last in drop then [] else [last]
  }

  function AsSet(ids: seq<RundownId>): set<RundownId> {
    set id | id in ids
  }

  function ByExternalId(rundowns: seq<Rundown>): (m: map<string, RundownId>)
    ensures forall x :: x in m ==> Rundown(m[x], x) in rundowns
  {
    if rundowns == [] then map[]
    else
      var last := rundowns[|rundowns| - 1];
      ByExternalId(rundowns[..|rundowns| - 1])[last.externalId := last.id]
  }

  /** The rundowns named by a list of external ids, unknown ones left out. */
  function Named(m: map<string, RundownId>, names: seq<string>): seq<RundownId> {
    if names == [] then []
    else
      var last := names[|names| - 1];
      Named(m, names[..|names| - 1]) + if last in m then [m[last]] else []
  }

  /** The order before the rest is appended: as set in Sofie, as the blueprints gave it, or the default. */
  function Base(setInSofie: bool, existing: seq<RundownId>, blueprint: Option<seq<string>>,
                rundowns: seq<Rundown>): seq<RundownId> {
    if setInSofie then existing
    else if blueprint.Some? then Named(ByExternalId(rundowns), blueprint.value)
    else Ids(rundowns)
  }

  /** rundowns come in default order, the blueprint's names sorted by the rank it gave them. */
  method ProduceOrder(setInSofie: bool, existing: seq<RundownId>, blueprint: Option<seq<string>>,
                      rundowns: seq<Rundown>)
    returns (order: seq<RundownId>)
    requires Distinct(Ids(rundowns))
    ensures var base := Base(setInSofie, existing, blueprint, rundowns);
            order == Only(base, AsSet(Ids(rundowns))) + Except(Ids(rundowns), AsSet(base))
  {
    var base := BaseOrder(setInSofie, existing, blueprint, rundowns);
    order := AppendRest(base, rundowns);
    var ids := Ids(rundowns);
    OnlyConcat(base, Except(ids, AsSet(base)), AsSet(ids));
    ExceptMembers(ids, AsSet(base));
    OnlyAll(Except(ids, AsSet(base)), AsSet(ids));
    order := Only(order, AsSet(ids));
  }

  method BaseOrder(setInSofie: bool, existing: seq<RundownId>, blueprint: Option<seq<string>>, rundowns: seq<Rundown>)
    returns (order: seq<RundownId>)
    ensures order == Base(setInSofie, existing, blueprint, rundowns)
  {
    order := existing;
    if !setInSofie {
      if blueprint.Some? {
        order := [];
        var m := ByExternalId(rundowns);
        for i := 0 to |blueprint.value|
          invariant order == Named(m, blueprint.value[..i])
        {
          assert blueprint.value[..i + 1][..i] == blueprint.value[..i];
          if blueprint.value[i] in m {
            order := order + [m[blueprint.value[i]]];
          }
        }
        assert blueprint.value[..|blueprint.value|] == blueprint.value;
      } else {
        order := Ids(rundowns);
      }
    }
  }

  /** The rundowns that the order does not name yet follow it in their own order. */
  method AppendRest(base: seq<RundownId>, rundowns: seq<Rundown>) returns (order: seq<RundownId>)
    requires Distinct(Ids(rundowns))
    ensures order == base + Except(Ids(rundowns), AsSet(base))
  {
    order := base;
    ghost var ids := Ids(rundowns);
    for i := 0 to |rundowns|
      invariant order == base + Except(ids[..i], AsSet(base))
    {
      ExceptNext(ids, i, AsSet(base));
      if rundowns[i].id !in order {
        order := order + [rundowns[i].id];
      }
    }
    assert ids[..|ids|] == ids;
  }

  lemma ExceptNext(ids: seq<RundownId>, i: nat, drop: set<RundownId>)
    requires i < |ids| && Distinct(ids)
    ensures Except(ids[..i + 1], drop) == Except(ids[..i], drop) + if ids[i] in drop then [] else [ids[i]]
    ensures ids[i] !in Except(ids[..i], drop)
  {
    assert ids[..i + 1][..i] == ids[..i];
    ExceptMembers(ids[..i], drop);
    assert ids[i] !in ids[..i];
  }

  lemma {:induction false} ExceptMembers(ids: seq<RundownId>, drop: set<RundownId>)
    ensures forall id :: id in Except(ids, drop) <==> id in ids && id !in drop
    ensures Distinct(ids) ==> Distinct(Except(ids, drop))
  {
    if ids != [] {
      ExceptMembers(ids[..|ids| - 1], drop);
      assert forall id :: id in ids <==> id == ids[|ids| - 1] || id in ids[..|ids| - 1];
    }
  }

  lemma {:induction false} OnlyMembers(ids: seq<RundownId>, keep: set<RundownId>)
    ensures forall id :: id in Only(ids, keep) <==> id in ids && id in keep
    ensures Distinct(ids) ==> Distinct(Only(ids, keep))
  {
    if ids != [] {
      OnlyMembers(ids[..|ids| - 1], keep);
      assert forall id :: id in ids <==> id == ids[|ids| - 1] || id in ids[..|ids| - 1];
    }
  }

  lemma {:induction false} OnlyConcat(a: seq<RundownId>, b: seq<RundownId>, keep: set<RundownId>)
    ensures Only(a + b, keep) == Only(a, keep) + Only(b, keep)
  {
    if b == [] {
      assert a + b == a;
    } else {
      assert (a + b)[..|a + b| - 1] == a + b[..|b| - 1];
      OnlyConcat(a, b[..|b| - 1], keep);
    }
  }

  lemma {:induction false} OnlyAll(ids: seq<RundownId>, keep: set<RundownId>)
    requires forall id :: id in ids ==> id in keep
    ensures Only(ids, keep) == ids
  {
    if ids != [] {
      OnlyAll(ids[..|ids| - 1], keep);
      assert ids[|ids| - 1] in ids;
    }
  }

  lemma {:induction false} NamedMembers(m: map<string, RundownId>, names: seq<string>)
    ensures forall id :: id in Named(m, names) ==> exists x :: x in names && x in m && m[x] == id
  {
    if names != [] {
      NamedMembers(m, names[..|names| - 1]);
      assert forall x :: x in names[..|names| - 1] ==> x in names;
      assert names[|names| - 1] in names;
    }
  }

  lemma {:induction false} NamedDistinct(m: map<string, RundownId>, names: seq<string>)
    requires forall x, y :: x in m && y in m && x != y ==> m[x] != m[y]
    requires forall i, j :: 0 <= i < j < |names| ==> names[i] != names[j]
    ensures Distinct(Named(m, names))
  {
    if names != [] {
      var n := |names| - 1;
      NamedDistinct(m, names[..n]);
      NamedMembers(m, names[..n]);
      assert forall x :: x in names[..n] ==> x != names[n];
      if names[n] in m {
        var named := Named(m, names[..n]);
        forall i | 0 <= i < |named| ensures named[i] != m[names[n]] {
          assert named[i] in named;
        }
      }
    }
  }

  lemma ByExternalIdInjective(rundowns: seq<Rundown>)
    requires Distinct(Ids(rundowns))
    ensures var m := ByExternalId(rundowns); forall x, y :: x in m && y in m && x != y ==> m[x] != m[y]
  {
    var m := ByExternalId(rundowns);
    forall x, y | x in m && y in m && x != y ensures m[x] != m[y] {
      OneRundown(rundowns, m[x], x, m[y], y);
    }
  }

  lemma OneRundown(rundowns: seq<Rundown>, a: RundownId, x: string, b: RundownId, y: string)
    requires Distinct(Ids(rundowns)) && Rundown(a, x) in rundowns && Rundown(b, y) in rundowns && x != y
    ensures a != b
  {
    var i :| 0 <= i < |rundowns| && rundowns[i] == Rundown(a, x);
    var j :| 0 <= j < |rundowns| && rundowns[j] == Rundown(b, y);
    assert Ids(rundowns)[i] == a && Ids(rundowns)[j] == b;
  }

  /** The produced order has exactly the rundowns, and has each of them once if and only if the order it starts
      from names none of them twice. */
  lemma OrderIsPermutation(setInSofie: bool, existing: seq<RundownId>, blueprint: Option<seq<string>>,
                           rundowns: seq<Rundown>)
    requires Distinct(Ids(rundowns))
    ensures var ids, base := Ids(rundowns), Base(setInSofie, existing, blueprint, rundowns);
            var order := Only(base, AsSet(ids)) + Except(ids, AsSet(base));
            && (forall id :: id in order <==> id in ids)
            && (Distinct(order) <==> Distinct(Only(base, AsSet(ids))))
  {
    var ids, base := Ids(rundowns), Base(setInSofie, existing, blueprint, rundowns);
    OnlyMembers(base, AsSet(ids));
    ExceptMembers(ids, AsSet(base));
    JoinDistinct(Only(base, AsSet(ids)), Except(ids, AsSet(base)));
  }

  lemma JoinDistinct(a: seq<RundownId>, b: seq<RundownId>)
    requires Distinct(b) && forall id :: id in a ==> id !in b
    ensures Distinct(a + b) <==> Distinct(a)
  {
    if Distinct(a + b) {
      forall i, j | 0 <= i < j < |a| ensures a[i] != a[j] {
        assert (a + b)[i] == a[i] && (a + b)[j] == a[j];
      }
    }
    if Distinct(a) {
      forall i, j | 0 <= i < j < |a + b| ensures (a + b)[i] != (a + b)[j] {
        assert i < |a| ==> a[i] in a;
        assert j >= |a| ==> b[j - |a|] in b;
      }
    }
  }

  /** An order set in Sofie that names a rundown twice keeps it twice. */
  lemma RepeatedStaysRepeated(a: Rundown)
    ensures var ids, base := Ids([a]), Base(true, [a.id, a.id], None, [a]);
            Only(base, AsSet(ids)) + Except(ids, AsSet(base)) == [a.id, a.id]
  {
    var ids := Ids([a]);
    assert ids == [a.id] && ids[..0] == [] && a.id in ids;
    OnlyAll([a.id, a.id], AsSet(ids));
    assert Except(ids, {a.id}) == Except(ids[..0], {a.id}) + [];
    assert AsSet([a.id, a.id]) == {a.id};
  }

  /** An order that is not set in Sofie never names a rundown twice: a blueprint names external ids, each once. */
  lemma BaseIsDistinct(existing: seq<RundownId>, blueprint: Option<seq<string>>, rundowns: seq<Rundown>)
    requires Distinct(Ids(rundowns))
    requires blueprint.Some? ==> forall i, j :: 0 <= i < j < |blueprint.value| ==>
             blueprint.value[i] != blueprint.value[j]
    ensures Distinct(Only(Base(false, existing, blueprint, rundowns), AsSet(Ids(rundowns))))
  {
    if blueprint.Some? {
      ByExternalIdInjective(rundowns);
      NamedDistinct(ByExternalId(rundowns), blueprint.value);
    }
    OnlyMembers(Base(false, existing, blueprint, rundowns), AsSet(Ids(rundowns)));
  }

  /** Of two names that are known, the earlier one's rundown stands earlier. */
  lemma {:induction false} NamedInOrder(m: map<string, RundownId>, names: seq<string>, i: nat)
    requires i < |names|
    ensures |Named(m, names[..i])| <= |Named(m, names)|
    ensures names[i] in m ==>
              |Named(m, names[..i])| < |Named(m, names)| && Named(m, names)[|Named(m, names[..i])|] == m[names[i]]
  {
    var n := |names| - 1;
    if i < n {
      NamedInOrder(m, names[..n], i);
      assert names[..n][..i] == names[..i];
    }
  }

  lemma NamedGrows(m: map<string, RundownId>, names: seq<string>, i: nat, j: nat)
    requires i < j < |names| && names[i] in m
    ensures |Named(m, names[..i])| < |Named(m, names[..j])|
  {
    assert names[..j][..i] == names[..i];
    NamedInOrder(m, names[..j], i);
  }

  lemma {:induction false} ByExternalIdFinds(rundowns: seq<Rundown>, a: Rundown)
    requires a in rundowns
    requires forall i, j :: 0 <= i < j < |rundowns| ==> rundowns[i].externalId != rundowns[j].externalId
    ensures a.externalId in ByExternalId(rundowns) && ByExternalId(rundowns)[a.externalId] == a.id
  {
    var n := |rundowns| - 1;
    if a != rundowns[n] {
      assert forall k :: 0 <= k < n ==> rundowns[..n][k] == rundowns[k];
      assert a in rundowns[..n];
      ByExternalIdFinds(rundowns[..n], a);
    }
  }

  /** So, unless the order is set in Sofie, rundowns come in the order in which the blueprint named them. */
  lemma BlueprintDecides(existing: seq<RundownId>, names: seq<string>, rundowns: seq<Rundown>, i: nat, j: nat,
                         a: Rundown, b: Rundown)
    returns (p: nat, q: nat)
    requires Distinct(Ids(rundowns))
    requires forall i, j :: 0 <= i < j < |rundowns| ==> rundowns[i].externalId != rundowns[j].externalId
    requires i < j < |names| && a in rundowns && b in rundowns && names[i] == a.externalId && names[j] == b.externalId
    ensures var base, ids := Base(false, existing, Some(names), rundowns), AsSet(Ids(rundowns));
            var order := Only(base, ids) + Except(Ids(rundowns), AsSet(base));
            p < q < |order| && order[p] == a.id && order[q] == b.id
  {
    var m, base := ByExternalId(rundowns), Named(ByExternalId(rundowns), names);
    ByExternalIdFinds(rundowns, a);
    ByExternalIdFinds(rundowns, b);
    NamedInOrder(m, names, i);
    NamedInOrder(m, names, j);
    NamedGrows(m, names, i, j);
    p, q := |Named(m, names[..i])|, |Named(m, names[..j])|;
    forall id | id in base ensures id in AsSet(Ids(rundowns)) {
      NamedAreRundowns(rundowns, names, id);
    }
    OnlyAll(base, AsSet(Ids(rundowns)));
  }

  lemma NamedAreRundowns(rundowns: seq<Rundown>, names: seq<string>, id: RundownId)
    requires id in Named(ByExternalId(rundowns), names)
    ensures id in Ids(rundowns)
  {
    NamedMembers(ByExternalId(rundowns), names);
    var x :| x in names && x in ByExternalId(rundowns) && ByExternalId(rundowns)[x] == id;
    var i :| 0 <= i < |rundowns| && rundowns[i] == Rundown(id, x);
    assert Ids(rundowns)[i] == id;
  }

  /******* Moving one rundown *******/

  function IndexOf(ids: seq<RundownId>, id: RundownId): (i: int)
    ensures if id in ids then 0 <= i < |ids| && ids[i] == id else i == -1
  {
    if ids == [] then -1
    else if ids[0] == id then 0
    else var i := IndexOf(ids[1..], id); if i == -1 then -1 else i + 1
  }

  function Inserted(ids: seq<RundownId>, at: nat, id: RundownId): seq<RundownId>
    requires at <= |ids|
  {
    ids[..at] + [id] + ids[at..]
  }

  ghost predicate MovedTo(others: seq<RundownId>, moved: seq<RundownId>, id: RundownId, fragment: seq<RundownId>)
    requires |fragment| == 1 || |fragment| == 2
  {
    exists at: nat :: at <= |others| && moved == Inserted(others, at, id) && Beside(others, id, fragment, at)
  }

  /** A fragment of one or two ids; None when it does not name the rundown that is moved. */
  method Move(order: seq<RundownId>, id: RundownId, fragment: seq<RundownId>) returns (moved: Option<seq<RundownId>>)
    requires |fragment| == 1 || |fragment| == 2
    ensures moved.Some? <==> id in fragment
    ensures moved.Some? ==> Except(moved.value, {id}) == Except(order, {id})
    ensures moved.Some? ==> MovedTo(Except(order, {id}), moved.value, id, fragment)
  {
    var i := IndexOf(fragment, id);
    if i == -1 { return None; }
    var others := Except(order, {id});
    ExceptMembers(order, {id});
    var at: nat;
    if |fragment| == 1 {
      at := |others|;
    } else if i == 0 {
      var k := IndexOf(others, fragment[1]);
      at := if k == -1 then 0 else k;
    } else {
      var k := IndexOf(others, fragment[0]);
      at := if k == -1 then |others| else k + 1;
    }
    InsertedExcept(others, at, id);
    assert Beside(others, id, fragment, at);
    moved := Some(Inserted(others, at, id));
  }

  /** Where the moved rundown ends up: at the end, or directly beside the neighbour that was named; at the
      start or end if the neighbour is not in the playlist. */
  ghost predicate Beside(others: seq<RundownId>, id: RundownId, fragment: seq<RundownId>, at: nat)
    requires |fragment| == 1 || |fragment| == 2
  {
    if |fragment| == 1 then at == |others|
    else if fragment[0] == id then
      if fragment[1] in others then at < |others| && others[at] == fragment[1] else at == 0
    else
      if fragment[0] in others then 0 < at <= |others| && others[at - 1] == fragment[0] else at == |others|
  }

  lemma {:induction false} ExceptConcat(a: seq<RundownId>, b: seq<RundownId>, drop: set<RundownId>)
    ensures Except(a + b, drop) == Except(a, drop) + Except(b, drop)
  {
    if b == [] {
      assert a + b == a;
    } else {
      assert (a + b)[..|a + b| - 1] == a + b[..|b| - 1];
      ExceptConcat(a, b[..|b| - 1], drop);
    }
  }

  lemma {:induction false} ExceptNone(ids: seq<RundownId>, drop: set<RundownId>)
    requires forall id :: id in ids ==> id !in drop
    ensures Except(ids, drop) == ids
  {
    if ids != [] {
      ExceptNone(ids[..|ids| - 1], drop);
      assert ids[|ids| - 1] in ids;
    }
  }

  lemma InsertedExcept(others: seq<RundownId>, at: nat, id: RundownId)
    requires at <= |others| && id !in others
    ensures Except(Inserted(others, at, id), {id}) == others
  {
    var front, back := others[..at], others[at..];
    assert others == front + back;
    assert Except([id], {id}) == [] by { assert [id][..0] == []; }
    assert (forall x :: x in front ==> x in others) && (forall x :: x in back ==> x in others);
    ExceptConcat(front + [id], back, {id});
    ExceptConcat(front, [id], {id});
    ExceptNone(front, {id});
    ExceptNone(back, {id});
    assert front + [] == front;
  }
}
