/** Locks that are let go go on: who waits can get its turn. */
module LockLiveness {
  import opened Wrappers
  import opened Locks
  import opened LockProtocol

  /******* Letting go *******/

  lemma AlwaysBusy(steps: seq<Step>, w: World)
    requires Run(START, steps, w)
    ensures Busy(w.resources)
  {
    forall id | id in w.resources ensures !CanServe(w.resources[id]) {
      FirstComeFirstServed(steps, w, id);
    }
  }

  lemma HolderDoesNotWait(w: World, q: Request, id: ResourceId)
    requires Inv(w) && Holds(w.resources, q, id)
    ensures q !in w.resources[id].waiting
  {
    if q in w.resources[id].waiting { assert Queued(w.resources, q, id); }
  }

  /** In every reachable world, an unlock that is handled ends the hold, and the first waiter is granted. */
  lemma UnlockEndsTheHold(steps: seq<Step>, w: World, q: Request, id: ResourceId)
    requires Run(START, steps, w) && UnlockEvent(q, id) in w.events
    ensures var w' := Next(w, DoHandle(UnlockEvent(q, id)));
            && !Holds(w'.resources, q, id)
            && (Holds(w.resources, q, id) ==> TurnOfNext(w, w', id))
  {
    RunKeepsInv(START, steps, w);
    AlwaysBusy(steps, w);
    HandleUnlock(w, q, id);
  }

  /** So does a refusal of the grant it was held under. */
  lemma RefusalEndsTheHold(steps: seq<Step>, w: World, q: Request, id: ResourceId)
    requires Run(START, steps, w) && Reply(Grant(q, id), false) in w.replies
    ensures var w' := Next(w, DoAnswer(Reply(Grant(q, id), false)));
            && !Holds(w'.resources, q, id)
            && (Holds(w.resources, q, id) ==> TurnOfNext(w, w', id))
  {
    RunKeepsInv(START, steps, w);
    AnswerRefusal(w, q, id);
  }

  /** The resource has gone to the first in its queue, which was sent a grant. */
  ghost predicate TurnOfNext(w: World, w': World, id: ResourceId)
    requires id in w.resources
  {
    && id in w'.resources
    && var waiting := w.resources[id].waiting;
       if waiting == [] then w'.resources[id] == Resource(None, [])
       else w'.resources[id] == Resource(Some(waiting[0]), waiting[1..]) && Grant(waiting[0], id) in w'.sent
  }

  lemma HandleUnlock(w: World, q: Request, id: ResourceId)
    requires Inv(w) && Busy(w.resources) && UnlockEvent(q, id) in w.events
    ensures var w' := Next(w, DoHandle(UnlockEvent(q, id)));
            !Holds(w'.resources, q, id) && (Holds(w.resources, q, id) ==> TurnOfNext(w, w', id))
  {
    if Holds(w.resources, q, id) { HolderDoesNotWait(w, q, id); }
  }

  lemma AnswerRefusal(w: World, q: Request, id: ResourceId)
    requires Inv(w) && Reply(Grant(q, id), false) in w.replies
    ensures var w' := Next(w, DoAnswer(Reply(Grant(q, id), false)));
            !Holds(w'.resources, q, id) && (Holds(w.resources, q, id) ==> TurnOfNext(w, w', id))
  {
    if Holds(w.resources, q, id) { HolderDoesNotWait(w, q, id); }
  }

  /******* Getting a turn *******/

  /** Something is under way that can still end the hold: the grant or its refusal, a worker that waits for the
      grant or owns the lock, or the unlock. */
  ghost predicate CanLetGo(w: World, h: Request, id: ResourceId) {
    || Grant(h, id) in w.sent
    || Reply(Grant(h, id), false) in w.replies
    || (Grant(h, id) in w.accepted && h in w.waiting)
    || h in w.owned
    || UnlockEvent(h, id) in w.events
  }

  /** Its resource is held by a request of the same thread that can no longer let go. */
  ghost predicate BehindItself(w: World, q: Request, id: ResourceId) {
    && id in w.resources && w.resources[id].holder.Some?
    && var h := w.resources[id].holder.value;
       h.thread == q.thread && !CanLetGo(w, h, id)
  }

  /** What lets the resource change hands: the steps, and the world they lead to. */
  lemma Refused(w: World, h: Request, id: ResourceId) returns (steps: seq<Step>, w': World)
    requires Inv(w) && Holds(w.resources, h, id) && Grant(h, id) in w.sent
    ensures Run(w, steps, w') && TurnOfNext(w, w', id)
  {
    var g := Grant(h, id);
    var w1 := Next(w, DoRefuse(g));
    w' := Next(w1, DoAnswer(Reply(g, false)));
    steps := [DoRefuse(g), DoAnswer(Reply(g, false))];
    TwoSteps(w, steps, w');
  }

  lemma Answered(w: World, h: Request, id: ResourceId) returns (steps: seq<Step>, w': World)
    requires Inv(w) && Holds(w.resources, h, id) && Reply(Grant(h, id), false) in w.replies
    ensures Run(w, steps, w') && TurnOfNext(w, w', id)
  {
    steps := [DoAnswer(Reply(Grant(h, id), false))];
    w' := Next(w, steps[0]);
    OneStep(w, steps[0]);
  }

  lemma Handled(w: World, h: Request, id: ResourceId) returns (steps: seq<Step>, w': World)
    requires Inv(w) && Holds(w.resources, h, id) && UnlockEvent(h, id) in w.events
    ensures Run(w, steps, w') && TurnOfNext(w, w', id)
  {
    steps := [DoHandle(UnlockEvent(h, id))];
    w' := Next(w, steps[0]);
    OneStep(w, steps[0]);
  }

  lemma Unlocked(w: World, h: Request, id: ResourceId) returns (steps: seq<Step>, w': World)
    requires Inv(w) && Holds(w.resources, h, id) && h in w.owned
    ensures Run(w, steps, w') && TurnOfNext(w, w', id)
  {
    assert AtHome(w.homes, h, id);
    InvNext(w, DoUnlock(h));
    var rest;
    rest, w' := Handled(Next(w, DoUnlock(h)), h, id);
    steps := [DoUnlock(h)] + rest;
    StepThenRun(w, DoUnlock(h), rest, w');
  }

  lemma Taken(w: World, h: Request, id: ResourceId) returns (steps: seq<Step>, w': World)
    requires Inv(w) && Holds(w.resources, h, id) && Grant(h, id) in w.accepted && h in w.waiting
    ensures Run(w, steps, w') && TurnOfNext(w, w', id)
  {
    var take := DoTake(Grant(h, id));
    InvNext(w, take);
    var rest;
    rest, w' := Unlocked(Next(w, take), h, id);
    steps := [take] + rest;
    StepThenRun(w, take, rest, w');
  }

  lemma OneStep(w: World, step: Step)
    requires Enabled(w, step)
    ensures Run(w, [step], Next(w, step))
  {
    assert [step][1..] == [];
  }

  lemma TwoSteps(w: World, steps: seq<Step>, w': World)
    requires |steps| == 2 && Enabled(w, steps[0]) && Enabled(Next(w, steps[0]), steps[1])
    requires w' == Next(Next(w, steps[0]), steps[1])
    ensures Run(w, steps, w')
  {
    assert steps[1..] == [steps[1]];
    OneStep(Next(w, steps[0]), steps[1]);
  }

  lemma StepThenRun(w: World, step: Step, rest: seq<Step>, w': World)
    requires Enabled(w, step) && Run(Next(w, step), rest, w')
    ensures Run(w, [step] + rest, w')
  {
    assert ([step] + rest)[1..] == rest;
  }

  lemma {:induction false} RunThenRun(w: World, a: seq<Step>, w1: World, b: seq<Step>, w': World)
    requires Run(w, a, w1) && Run(w1, b, w')
    ensures Run(w, a + b, w')
    decreases |a|
  {
    if a == [] {
      assert [] + b == b;
    } else {
      RunThenRun(Next(w, a[0]), a[1..], w1, b, w');
      assert (a + b)[1..] == a[1..] + b;
    }
  }

  /** A holder that can let go lets the resource change hands. */
  lemma LetsGo(w: World, h: Request, id: ResourceId) returns (steps: seq<Step>, w': World)
    requires Inv(w) && Holds(w.resources, h, id) && CanLetGo(w, h, id)
    ensures Run(w, steps, w') && TurnOfNext(w, w', id)
  {
    if Grant(h, id) in w.sent {
      steps, w' := Refused(w, h, id);
    } else if Reply(Grant(h, id), false) in w.replies {
      steps, w' := Answered(w, h, id);
    } else if h in w.owned {
      steps, w' := Unlocked(w, h, id);
    } else if UnlockEvent(h, id) in w.events {
      steps, w' := Handled(w, h, id);
    } else {
      steps, w' := Taken(w, h, id);
    }
  }

  /** The resource is held by the first of a list, under a grant just sent, and the others wait. */
  ghost predicate Turn(w: World, id: ResourceId, left: seq<Request>) {
    && left != [] && id in w.resources && w.resources[id] == Resource(Some(left[0]), left[1..])
    && Grant(left[0], id) in w.sent
  }

  /** A thread that stops and is released lets go of everything. */
  lemma ReleasedTurn(w: World, h: Request, id: ResourceId, q: Request)
    returns (steps: seq<Step>, w': World, left: seq<Request>)
    requires Inv(w) && Holds(w.resources, h, id) && Queued(w.resources, q, id) && h.thread != q.thread
    ensures Run(w, steps, w') && Turn(w', id, left) && q in left && |left| <= |w.resources[id].waiting|
  {
    var w1 := Next(w, DoDie(h.thread));
    steps := [DoDie(h.thread), DoReleaseAll(h.thread)];
    assert Settled(w1, h.thread);
    w' := Next(w1, DoReleaseAll(h.thread));
    TwoSteps(w, steps, w');
    left := Without(w.resources[id].waiting, h.thread);
    WithoutIsShorter(w.resources[id].waiting, h.thread);
    ReleaseServesNext(w1, h.thread, id);
  }

  lemma ReleaseServesNext(w: World, thread: ThreadId, id: ResourceId)
    requires id in w.resources && HeldBy(w.resources[id], thread)
    ensures var left := Without(w.resources[id].waiting, thread);
            left != [] ==> Turn(ReleaseEverywhere(w, thread), id, left)
  {
    var left := Without(w.resources[id].waiting, thread);
    if left != [] { assert Grant(left[0], id) in AllReleaseGrants(w.resources, thread); }
  }

  lemma {:induction false} WithoutIsShorter(waiting: seq<Request>, thread: ThreadId)
    ensures |Without(waiting, thread)| <= |waiting|
  {
    if waiting != [] { WithoutIsShorter(waiting[1..], thread); }
  }

  lemma NextTurn(w: World, h: Request, id: ResourceId, q: Request)
    returns (steps: seq<Step>, w': World, left: seq<Request>)
    requires Inv(w) && Holds(w.resources, h, id) && Queued(w.resources, q, id) && !BehindItself(w, q, id)
    ensures Run(w, steps, w') && Turn(w', id, left) && q in left && |left| <= |w.resources[id].waiting|
  {
    if CanLetGo(w, h, id) {
      steps, w' := LetsGo(w, h, id);
      left := w.resources[id].waiting;
    } else {
      steps, w', left := ReleasedTurn(w, h, id, q);
    }
  }

  lemma StillInTurn(w: World, id: ResourceId, left: seq<Request>, q: Request)
    requires Turn(w, id, left) && q in left && left[0] != q
    ensures Holds(w.resources, left[0], id) && Queued(w.resources, q, id) && !BehindItself(w, q, id)
    ensures |w.resources[id].waiting| < |left|
  {
    assert left == [left[0]] + left[1..];
  }

  lemma {:induction false} ComesToHold(w: World, h: Request, id: ResourceId, q: Request)
    returns (steps: seq<Step>, w': World)
    requires Inv(w) && Holds(w.resources, h, id) && Queued(w.resources, q, id) && !BehindItself(w, q, id)
    ensures Run(w, steps, w') && Holds(w'.resources, q, id)
    decreases |w.resources[id].waiting|
  {
    var first, w1, left := NextTurn(w, h, id, q);
    if left[0] == q {
      steps, w' := first, w1;
    } else {
      RunKeepsInv(w, first, w1);
      StillInTurn(w1, id, left, q);
      var rest;
      rest, w' := ComesToHold(w1, left[0], id, q);
      RunThenRun(w, first, w1, rest, w');
      steps := first + rest;
    }
  }

  /******* When it cannot *******/

  ghost predicate Stuck(w: World, h: Request, id: ResourceId, q: Request) {
    Holds(w.resources, h, id) && Queued(w.resources, q, id) && h.thread == q.thread && !CanLetGo(w, h, id)
  }

  lemma StuckNext(w: World, step: Step, h: Request, id: ResourceId, q: Request)
    requires Inv(w) && Enabled(w, step) && Stuck(w, h, id, q)
    ensures Stuck(Next(w, step), h, id, q) || q in Next(w, step).dropped
  {
    assert AtHome(w.homes, h, id) && h.lock in w.granted;
    match step {
      case DoReleaseAll(thread) => StuckReleased(w, thread, h, id, q);
      case DoHandle(event) => StuckHandled(w, event, h, id, q);
      case DoAnswer(reply) => StuckAnswered(w, reply, h, id, q);
      case _ =>
    }
  }

  lemma StuckReleased(w: World, thread: ThreadId, h: Request, id: ResourceId, q: Request)
    requires Inv(w) && Settled(w, thread) && Stuck(w, h, id, q)
    ensures Stuck(ReleaseEverywhere(w, thread), h, id, q) || q in ReleaseEverywhere(w, thread).dropped
  {
    if thread != h.thread {
      var w' := ReleaseEverywhere(w, thread);
      assert Holds(w'.resources, h, id) && Queued(w'.resources, q, id);
      forall g | g in AllReleaseGrants(w.resources, thread) ensures g.request != h {
        NewlyGranted(w, thread, g, h);
      }
    }
  }

  lemma NewlyGranted(w: World, thread: ThreadId, g: Grant, h: Request)
    requires Inv(w) && g in AllReleaseGrants(w.resources, thread) && h.lock in w.granted
    ensures g.request != h
  {
    assert Queued(w.resources, g.request, g.resource);
  }

  lemma StuckHandled(w: World, event: Event, h: Request, id: ResourceId, q: Request)
    requires Inv(w) && event in w.events && Stuck(w, h, id, q)
    ensures Stuck(Next(w, DoHandle(event)), h, id, q)
  {
    var w' := Next(w, DoHandle(event));
    var r := Find(w.resources, event.resource);
    assert h.lock in w.granted && AtHome(w.homes, h, id);
    if event.LockEvent? {
      assert event.request != h;
    } else {
      assert event.resource == id ==> event.request != h;
    }
    forall g | g in w'.sent && g !in w.sent ensures g.request != h {
      if g.request in r.waiting {
        assert Queued(w.resources, g.request, event.resource);
      }
    }
  }

  lemma StuckAnswered(w: World, reply: Reply, h: Request, id: ResourceId, q: Request)
    requires Inv(w) && reply in w.replies && Stuck(w, h, id, q)
    ensures Stuck(Next(w, DoAnswer(reply)), h, id, q)
  {
    var w' := Next(w, DoAnswer(reply));
    var r := Find(w.resources, reply.grant.resource);
    assert h.lock in w.granted;
    assert reply.grant.resource == id && !reply.success ==> reply.grant.request != h by {
      assert reply == Reply(reply.grant, reply.success);
      assert reply.grant == Grant(reply.grant.request, reply.grant.resource);
    }
    forall g | g in w'.sent && g !in w.sent ensures g.request != h {
      assert Queued(w.resources, g.request, reply.grant.resource);
    }
  }

  lemma {:induction false} NeverHolds(w: World, h: Request, id: ResourceId, q: Request, steps: seq<Step>, w': World)
    requires Inv(w) && DroppedForGood(w) && Run(w, steps, w') && (Stuck(w, h, id, q) || q in w.dropped)
    ensures !Holds(w'.resources, q, id)
    decreases |steps|
  {
    if steps == [] {
      assert Queued(w.resources, q, id) ==> q.lock !in w.granted;
    } else {
      InvNext(w, steps[0]);
      DroppedNext(w, steps[0]);
      if q !in w.dropped { StuckNext(w, steps[0], h, id, q); }
      NeverHolds(Next(w, steps[0]), h, id, q, steps[1..], w');
    }
  }

  ghost predicate LeadsToHold(w: World, steps: seq<Step>, w': World, q: Request, id: ResourceId) {
    Run(w, steps, w') && Holds(w'.resources, q, id)
  }

  /** From every reachable state a queued request can come to hold its resource, unless the holder is a request of
      its own thread that nothing under way can make let go any more. */
  lemma EveryTurnCanCome(before: seq<Step>, w: World, q: Request, id: ResourceId)
    requires Run(START, before, w) && Queued(w.resources, q, id)
    ensures (exists steps, w' :: LeadsToHold(w, steps, w', q, id)) <==> !BehindItself(w, q, id)
  {
    RunKeepsInv(START, before, w);
    AlwaysBusy(before, w);
    var h := w.resources[id].holder.value;
    if BehindItself(w, q, id) {
      RunKeepsDropped(START, before, w);
      forall steps, w' ensures !LeadsToHold(w, steps, w', q, id) {
        if LeadsToHold(w, steps, w', q, id) { NeverHolds(w, h, id, q, steps, w'); }
      }
    } else {
      var steps, w' := ComesToHold(w, h, id, q);
      assert LeadsToHold(w, steps, w', q, id);
    }
  }

  lemma {:induction false} RunKeepsDropped(w: World, steps: seq<Step>, w': World)
    requires Inv(w) && DroppedForGood(w) && Run(w, steps, w')
    ensures DroppedForGood(w')
    decreases |steps|
  {
    if steps != [] {
      InvNext(w, steps[0]);
      DroppedNext(w, steps[0]);
      RunKeepsDropped(Next(w, steps[0]), steps[1..], w');
    }
  }

  /** A worker gives up just when its grant has been accepted; its next request for the resource waits for ever. */
  lemma GivingUpTooLate(thread: ThreadId, id: ResourceId) returns (steps: seq<Step>, w: World, q: Request)
    ensures Run(START, steps, w) && Queued(w.resources, q, id) && BehindItself(w, q, id)
  {
    var h := Request(thread, "first");
    q := Request(thread, "second");
    var w1 := BothAsk(h, q, id);
    var w2 := BothJoin(w1, h, q, id);
    w := TooLate(w2, h, q, id);
    var late := [DoAccept(Grant(h, id)), DoGiveUp(h)];
    var asked := [DoAsk(h, id), DoAsk(q, id)];
    var joined := [DoHandle(LockEvent(h, id)), DoHandle(LockEvent(q, id))];
    RunThenRun(START, asked, w1, joined, w2);
    RunThenRun(START, asked + joined, w2, late, w);
    steps := asked + joined + late;
  }

  lemma TooLate(w: World, h: Request, q: Request, id: ResourceId) returns (w': World)
    requires w.resources == map[id := Resource(Some(h), [q])] && w.sent == {Grant(h, id)} && h in w.waiting
    requires w.events == {} && w.accepted == {} && w.replies == {} && w.owned == {} && h.thread == q.thread
    ensures Run(w, [DoAccept(Grant(h, id)), DoGiveUp(h)], w')
    ensures Queued(w'.resources, q, id) && BehindItself(w', q, id)
  {
    var late := [DoAccept(Grant(h, id)), DoGiveUp(h)];
    w' := Next(Next(w, late[0]), late[1]);
    TwoSteps(w, late, w');
  }

  lemma BothAsk(h: Request, q: Request, id: ResourceId) returns (w: World)
    requires h.lock != q.lock
    ensures Run(START, [DoAsk(h, id), DoAsk(q, id)], w)
    ensures w.resources == map[] && w.events == {LockEvent(h, id), LockEvent(q, id)} && h in w.waiting
    ensures w.sent == w.accepted == {} && w.replies == {} && w.owned == {}
  {
    w := Next(Next(START, DoAsk(h, id)), DoAsk(q, id));
    TwoSteps(START, [DoAsk(h, id), DoAsk(q, id)], w);
  }

  lemma BothJoin(w: World, h: Request, q: Request, id: ResourceId) returns (w': World)
    requires h != q && w.resources == map[] && w.events == {LockEvent(h, id), LockEvent(q, id)} && h in w.waiting
    requires w.sent == w.accepted == {} && w.replies == {} && w.owned == {}
    ensures Run(w, [DoHandle(LockEvent(h, id)), DoHandle(LockEvent(q, id))], w')
    ensures w'.resources == map[id := Resource(Some(h), [q])] && w'.sent == {Grant(h, id)} && h in w'.waiting
    ensures w'.events == {} && w'.accepted == {} && w'.replies == {} && w'.owned == {}
  {
    var w1 := Joins(w, h, id);
    w' := Joins(w1, q, id);
    TwoSteps(w, [DoHandle(LockEvent(h, id)), DoHandle(LockEvent(q, id))], w');
  }

  /** A request joins a queue that nobody waits in. */
  lemma Joins(w: World, q: Request, id: ResourceId) returns (w': World)
    requires LockEvent(q, id) in w.events && Find(w.resources, id).waiting == []
    ensures w' == Next(w, DoHandle(LockEvent(q, id))) && w'.events == w.events - {LockEvent(q, id)}
    ensures var holder := Find(w.resources, id).holder;
            && w'.resources == w.resources[id := if holder.Some? then Resource(holder, [q]) else Resource(Some(q), [])]
            && w'.sent == w.sent + if holder.Some? then {} else {Grant(q, id)}
    ensures w'.accepted == w.accepted && w'.replies == w.replies && w'.owned == w.owned && w'.waiting == w.waiting
  {
    w' := Next(w, DoHandle(LockEvent(q, id)));
    assert [] + [q] == [q] && [q][1..] == [];
  }
}
