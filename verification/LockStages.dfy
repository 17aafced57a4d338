/** The life of a request, from the moment it is made. */
module LockStages {
  import opened Wrappers
  import opened Locks
  import opened LockProtocol

  /** Its event is deferred; it waits in a queue; it holds its resource; it held it once; or a release took it out
      of its queue. */
  datatype Stage = Deferred | Queueing | Holding | Finished | Dropped

  ghost predicate At(w: World, q: Request, id: ResourceId, stage: Stage) {
    match stage
    case Deferred => LockEvent(q, id) in w.events
    case Queueing => Queued(w.resources, q, id)
    case Holding => Holds(w.resources, q, id)
    case Finished => q.lock in w.granted && !Holds(w.resources, q, id)
    case Dropped => q in w.dropped
  }

  /** A request never goes back: it waits, is granted at most once, and ends with its grant or without one. */
  predicate Onward(s: Stage, t: Stage) {
    || s == t
    || s.Deferred?
    || (s.Queueing? && !t.Deferred?)
    || (s.Holding? && t.Finished?)
  }

  ghost predicate MovesOn(w: World, w': World, q: Request, id: ResourceId) {
    forall s :: At(w, q, id, s) ==> exists t :: At(w', q, id, t) && Onward(s, t)
  }

  lemma MovesOnTwice(w: World, w1: World, w': World, q: Request, id: ResourceId)
    requires MovesOn(w, w1, q, id) && MovesOn(w1, w', q, id)
    ensures MovesOn(w, w', q, id)
  {
    forall s | At(w, q, id, s) ensures exists t :: At(w', q, id, t) && Onward(s, t) {
      var t :| At(w1, q, id, t) && Onward(s, t);
      var u :| At(w', q, id, u) && Onward(t, u);
      assert At(w', q, id, u) && Onward(s, u);
    }
  }

  /******* One step *******/

  lemma ServedMovesOn(w: World, w': World, ids: set<ResourceId>, q: Request, id: ResourceId)
    requires Staged(w) && Serves(w, w', ids) && w'.dropped == w.dropped && AtHome(w.homes, q, id)
    ensures MovesOn(w, w', q, id)
  {
    forall s | At(w, q, id, s) ensures exists t :: At(w', q, id, t) && Onward(s, t) {
      if s.Queueing? && NewGrant(w, ids, Grant(q, id)) {
        assert At(w', q, id, Holding);
      } else {
        StaysWhereItIs(w, w', ids, q, id, s);
      }
    }
  }

  lemma StaysWhereItIs(w: World, w': World, ids: set<ResourceId>, q: Request, id: ResourceId, s: Stage)
    requires Staged(w) && Serves(w, w', ids) && w'.dropped == w.dropped && AtHome(w.homes, q, id) && At(w, q, id, s)
    requires s.Queueing? ==> !NewGrant(w, ids, Grant(q, id))
    ensures At(w', q, id, s)
  {
    if s.Finished? && Holds(w'.resources, q, id) {
      assert NewGrant(w, ids, Grant(q, id));
      NewGrantIsQueued(w, ids, Grant(q, id));
    }
  }

  lemma ServeMovesOn(w: World, id: ResourceId, r: Resource, q: Request, home: ResourceId)
    requires Staged(w.(resources := w.resources[id := r])) && AtHome(w.homes, q, home)
    ensures MovesOn(w.(resources := w.resources[id := r]), Serve(w, id, r), q, home)
  {
    var w1 := w.(resources := w.resources[id := r]);
    assert forall g :: NewGrant(w1, {id}, g) <==> g in GrantFor(r, id);
    ServedMovesOn(w1, Serve(w, id, r), {id}, q, home);
  }

  lemma JoinMovesOn(w: World, event: Event, q: Request, id: ResourceId)
    requires Inv(w) && event in w.events && event.LockEvent? && AtHome(w.homes, q, id)
    ensures MovesOn(w, Joined(w, event), q, id)
  {
    var w' := Joined(w, event);
    assert Holds(w'.resources, q, id) <==> Holds(w.resources, q, id);
    assert Queued(w.resources, q, id) ==> Queued(w'.resources, q, id);
    if event == LockEvent(q, id) {
      assert At(w', q, id, Queueing);
    }
    forall s | At(w, q, id, s) ensures exists t :: At(w', q, id, t) && Onward(s, t) {
      var t := if s.Deferred? && event == LockEvent(q, id) then Queueing else s;
      assert At(w', q, id, t);
    }
  }

  lemma FreeMovesOn(w: World, id: ResourceId, request: Request, q: Request, home: ResourceId)
    requires Staged(w)
    ensures MovesOn(w, w.(resources := w.resources[id := Freed(Find(w.resources, id), request)]), q, home)
  {
    var w' := w.(resources := w.resources[id := Freed(Find(w.resources, id), request)]);
    assert Queued(w'.resources, q, home) <==> Queued(w.resources, q, home);
    assert Holds(w'.resources, q, home) ==> Holds(w.resources, q, home);
    forall s | At(w, q, home, s) ensures exists t :: At(w', q, home, t) && Onward(s, t) {
      var t := if s.Holding? && !Holds(w'.resources, q, home) then Finished else s;
      assert At(w', q, home, t);
    }
  }

  /** Only the messages and the workers differ, or events of unlocking. */
  lemma SamePlace(w: World, w': World, q: Request, id: ResourceId)
    requires w'.resources == w.resources && w'.granted == w.granted && w'.dropped == w.dropped
    requires LockEvent(q, id) in w.events ==> LockEvent(q, id) in w'.events
    ensures MovesOn(w, w', q, id)
  {
    forall s | At(w, q, id, s) ensures exists t :: At(w', q, id, t) && Onward(s, t) {
      assert At(w', q, id, s);
    }
  }

  lemma HandleMovesOn(w: World, event: Event, q: Request, id: ResourceId)
    requires Inv(w) && event in w.events && AtHome(w.homes, q, id)
    ensures MovesOn(w, Next(w, DoHandle(event)), q, id)
  {
    var at := event.resource;
    var r := Find(w.resources, at);
    if event.LockEvent? {
      var w1 := w.(events := w.events - {event}, arrived := w.arrived[at := Log(w.arrived, at) + [event.request]]);
      InvJoined(w, event);
      JoinMovesOn(w, event, q, id);
      ServeMovesOn(w1, at, r.(waiting := r.waiting + [event.request]), q, id);
      MovesOnTwice(w, Joined(w, event), Next(w, DoHandle(event)), q, id);
    } else {
      var w1 := w.(events := w.events - {event});
      assert Inv(w1);
      InvFreed(w1, at, event.request);
      FreeAndServe(w, w1, at, event.request, q, id);
    }
  }

  /** After a change that keeps everybody's place, a resource is freed and served. */
  lemma FreeAndServe(w: World, w1: World, at: ResourceId, request: Request, q: Request, id: ResourceId)
    requires Inv(w1) && AtHome(w1.homes, q, id) && w1.resources == w.resources && w1.granted == w.granted &&
             w1.dropped == w.dropped
    requires LockEvent(q, id) in w.events ==> LockEvent(q, id) in w1.events
    requires Inv(w1.(resources := w1.resources[at := Freed(Find(w1.resources, at), request)]))
    ensures MovesOn(w, Serve(w1, at, Freed(Find(w1.resources, at), request)), q, id)
  {
    var r := Freed(Find(w1.resources, at), request);
    SamePlace(w, w1, q, id);
    FreeMovesOn(w1, at, request, q, id);
    ServeMovesOn(w1, at, r, q, id);
    MovesOnTwice(w, w1, w1.(resources := w1.resources[at := r]), q, id);
    MovesOnTwice(w, w1.(resources := w1.resources[at := r]), Serve(w1, at, r), q, id);
  }

  lemma AnswerMovesOn(w: World, reply: Reply, q: Request, id: ResourceId)
    requires Inv(w) && reply in w.replies && AtHome(w.homes, q, id)
    ensures MovesOn(w, Next(w, DoAnswer(reply)), q, id)
  {
    var w1 := w.(replies := w.replies - {reply});
    var r := Find(w.resources, reply.grant.resource);
    if !reply.success && r.holder == Some(reply.grant.request) {
      InvRefused(w, reply);
      assert Inv(w1);
      FreeAndServe(w, w1, reply.grant.resource, reply.grant.request, q, id);
    } else {
      SamePlace(w, w1, q, id);
    }
  }

  lemma ReleaseMovesOn(w: World, thread: ThreadId, q: Request, id: ResourceId)
    requires Inv(w) && Settled(w, thread) && AtHome(w.homes, q, id)
    ensures MovesOn(w, ReleaseEverywhere(w, thread), q, id)
  {
    var w1 := ClearedOf(w, thread).(dropped := w.dropped + WaitingOf(w.resources, thread));
    ClearMovesOn(w, thread, q, id);
    InvCleared(w, thread);
    ReleaseServes(w, thread);
    ServedMovesOn(w1, ReleaseEverywhere(w, thread), HeldIds(w.resources, thread), q, id);
    MovesOnTwice(w, w1, ReleaseEverywhere(w, thread), q, id);
  }

  lemma ClearMovesOn(w: World, thread: ThreadId, q: Request, id: ResourceId)
    requires Staged(w)
    ensures MovesOn(w, ClearedOf(w, thread).(dropped := w.dropped + WaitingOf(w.resources, thread)), q, id)
  {
    var w' := ClearedOf(w, thread).(dropped := w.dropped + WaitingOf(w.resources, thread));
    assert Queued(w'.resources, q, id) <==> Queued(w.resources, q, id) && q.thread != thread;
    assert Holds(w'.resources, q, id) <==> Holds(w.resources, q, id) && q.thread != thread;
    forall s | At(w, q, id, s) ensures exists t :: At(w', q, id, t) && Onward(s, t) {
      var t :=
        if s.Queueing? && q.thread == thread then Dropped
        else if s.Holding? && q.thread == thread then Finished
        else s;
      assert At(w', q, id, t);
    }
  }

  /** Whatever happens, a request moves on or stays where it is. */
  lemma NextMovesOn(w: World, step: Step, q: Request, id: ResourceId)
    requires Inv(w) && Enabled(w, step) && AtHome(w.homes, q, id)
    ensures AtHome(Next(w, step).homes, q, id) && MovesOn(w, Next(w, step), q, id)
  {
    match step {
      case DoHandle(event) => HandleMovesOn(w, event, q, id);
      case DoAnswer(reply) => AnswerMovesOn(w, reply, q, id);
      case DoReleaseAll(thread) => ReleaseMovesOn(w, thread, q, id);
      case _ => SamePlace(w, Next(w, step), q, id);
    }
  }

  /******* Whole runs *******/

  /** Every request that was made is somewhere. */
  ghost predicate NothingLost(w: World) {
    forall q, id :: AtHome(w.homes, q, id) ==> exists s :: At(w, q, id, s)
  }

  lemma NothingLostNext(w: World, step: Step)
    requires Inv(w) && NothingLost(w) && Enabled(w, step)
    ensures NothingLost(Next(w, step))
  {
    var w' := Next(w, step);
    forall q, id | AtHome(w'.homes, q, id) ensures exists s :: At(w', q, id, s) {
      if AtHome(w.homes, q, id) {
        NextMovesOn(w, step, q, id);
        var s :| At(w, q, id, s);
        var t :| At(w', q, id, t) && Onward(s, t);
        assert At(w', q, id, t);
      } else {
        assert At(w', q, id, Deferred);
      }
    }
  }

  lemma {:induction false} RunLosesNothing(w: World, steps: seq<Step>, w': World)
    requires Inv(w) && DroppedForGood(w) && NothingLost(w) && Run(w, steps, w')
    ensures Inv(w') && DroppedForGood(w') && NothingLost(w')
    decreases |steps|
  {
    if steps != [] {
      InvNext(w, steps[0]);
      DroppedNext(w, steps[0]);
      NothingLostNext(w, steps[0]);
      RunLosesNothing(Next(w, steps[0]), steps[1..], w');
    }
  }

  lemma AtMostOneStage(w: World, q: Request, id: ResourceId, s: Stage, t: Stage)
    requires Inv(w) && DroppedForGood(w) && At(w, q, id, s) && At(w, q, id, t)
    ensures s == t
  {
  }

  /** Over whole runs, every request that was made is at exactly one stage, and nowhere but at its resource. */
  lemma OneStage(steps: seq<Step>, w: World, q: Request, id: ResourceId)
    requires Run(START, steps, w) && AtHome(w.homes, q, id)
    ensures exists s :: At(w, q, id, s) && forall t :: At(w, q, id, t) ==> t == s
    ensures forall other ::
              LockEvent(q, other) in w.events || Queued(w.resources, q, other) || Holds(w.resources, q, other) ==>
              other == id
  {
    RunLosesNothing(START, steps, w);
    var s :| At(w, q, id, s);
    forall t | At(w, q, id, t) ensures t == s {
      AtMostOneStage(w, q, id, s, t);
    }
    forall other | LockEvent(q, other) in w.events || Queued(w.resources, q, other) || Holds(w.resources, q, other)
      ensures other == id {
      assert AtHome(w.homes, q, other);
    }
  }

  /** And from then on it only moves on. */
  lemma {:induction false} StagesMoveOn(w: World, steps: seq<Step>, w': World, q: Request, id: ResourceId)
    requires Inv(w) && AtHome(w.homes, q, id) && Run(w, steps, w')
    ensures MovesOn(w, w', q, id)
    decreases |steps|
  {
    if steps == [] {
      SamePlace(w, w', q, id);
    } else {
      NextMovesOn(w, steps[0], q, id);
      InvNext(w, steps[0]);
      StagesMoveOn(Next(w, steps[0]), steps[1..], w', q, id);
      MovesOnTwice(w, Next(w, steps[0]), w', q, id);
    }
  }

  /******* One grant for each request *******/

  /** The service log of a resource lists its granted requests, each once. */
  ghost predicate Recorded(w: World, id: ResourceId) {
    && NoRepeats(Log(w.served, id))
    && forall q :: q in Log(w.served, id) <==> AtHome(w.homes, q, id) && q.lock in w.granted
  }

  /** The request a resource is about to be given to. */
  function NextServed(w: World, ids: set<ResourceId>, id: ResourceId): seq<Request> {
    if id in ids && id in w.resources && CanServe(w.resources[id]) then [w.resources[id].waiting[0]] else []
  }

  lemma RecordedServes(w: World, w': World, ids: set<ResourceId>, id: ResourceId)
    requires Staged(w) && Serves(w, w', ids) && Recorded(w, id)
    requires Log(w'.served, id) == Log(w.served, id) + NextServed(w, ids, id)
    ensures Recorded(w', id)
  {
    forall g | NewGrant(w, ids, g) ensures AtHome(w.homes, g.request, g.resource) && g.request.lock !in w.granted {
      NewGrantIsQueued(w, ids, g);
    }
    forall q | AtHome(w.homes, q, id)
      ensures (exists g :: NewGrant(w, ids, g) && g.request.lock == q.lock) <==> q in NextServed(w, ids, id)
    {
      if g :| NewGrant(w, ids, g) && g.request.lock == q.lock {
        assert g == Grant(q, id);
      }
      if q in NextServed(w, ids, id) {
        assert NewGrant(w, ids, Grant(q, id));
      }
    }
    forall q | q in NextServed(w, ids, id) ensures AtHome(w.homes, q, id) && q !in Log(w.served, id) {
      assert NewGrant(w, ids, Grant(q, id));
    }
  }

  lemma RecordedServe(w: World, at: ResourceId, r: Resource, id: ResourceId)
    requires Staged(w.(resources := w.resources[at := r])) && Recorded(w, id)
    ensures Recorded(Serve(w, at, r), id)
  {
    var w1 := w.(resources := w.resources[at := r]);
    assert forall g :: NewGrant(w1, {at}, g) <==> g in GrantFor(r, at);
    assert Recorded(w1, id);
    RecordedServes(w1, Serve(w, at, r), {at}, id);
  }

  lemma RecordedReleased(w: World, thread: ThreadId, id: ResourceId)
    requires Inv(w) && Settled(w, thread) && Recorded(w, id)
    ensures Recorded(ReleaseEverywhere(w, thread), id)
  {
    InvCleared(w, thread);
    ReleaseServes(w, thread);
    ReleaseLogIs(w, thread, id);
    assert Recorded(ClearedOf(w, thread), id);
    RecordedServes(ClearedOf(w, thread), ReleaseEverywhere(w, thread), HeldIds(w.resources, thread), id);
  }

  lemma RecordedHandled(w: World, event: Event, id: ResourceId)
    requires Inv(w) && event in w.events && Recorded(w, id)
    ensures Recorded(Next(w, DoHandle(event)), id)
  {
    var at := event.resource;
    var r := Find(w.resources, at);
    if event.LockEvent? {
      var w1 := w.(events := w.events - {event}, arrived := w.arrived[at := Log(w.arrived, at) + [event.request]]);
      InvJoined(w, event);
      assert Recorded(w1, id);
      RecordedServe(w1, at, r.(waiting := r.waiting + [event.request]), id);
    } else {
      var w1 := w.(events := w.events - {event});
      assert Inv(w1) && Recorded(w1, id);
      InvFreed(w1, at, event.request);
      RecordedServe(w1, at, Freed(r, event.request), id);
    }
  }

  lemma RecordedNext(w: World, step: Step, id: ResourceId)
    requires Inv(w) && Recorded(w, id) && Enabled(w, step)
    ensures Recorded(Next(w, step), id)
  {
    match step {
      case DoHandle(event) => RecordedHandled(w, event, id);
      case DoAnswer(reply) =>
        var w1 := w.(replies := w.replies - {reply});
        var r := Find(w.resources, reply.grant.resource);
        assert Recorded(w1, id);
        if !reply.success && r.holder == Some(reply.grant.request) {
          InvRefused(w, reply);
          RecordedServe(w1, reply.grant.resource, Freed(r, reply.grant.request), id);
        }
      case DoReleaseAll(thread) => RecordedReleased(w, thread, id);
      case _ =>
    }
  }

  lemma {:induction false} RunIsRecorded(w: World, steps: seq<Step>, w': World, id: ResourceId)
    requires Inv(w) && Recorded(w, id) && Run(w, steps, w')
    ensures Recorded(w', id)
    decreases |steps|
  {
    if steps != [] {
      InvNext(w, steps[0]);
      RecordedNext(w, steps[0], id);
      RunIsRecorded(Next(w, steps[0]), steps[1..], w', id);
    }
  }

  /** Over whole runs, the grants of a resource went to the requests that hold it or held it, once each. */
  lemma GrantedOnce(steps: seq<Step>, w: World, id: ResourceId, q: Request)
    requires Run(START, steps, w)
    ensures NoRepeats(Log(w.served, id))
    ensures q in Log(w.served, id) <==> AtHome(w.homes, q, id) && (At(w, q, id, Holding) || At(w, q, id, Finished))
  {
    RunIsRecorded(START, steps, w, id);
    RunKeepsInv(START, steps, w);
  }
}
