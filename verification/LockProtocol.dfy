/**
 * The lock manager among its worker threads.
 *
 * Events are deferred and may run in any order; grants travel to the workers, may be refused on the way,
 * and are answered later; a worker takes a lock when the grant reaches it, if it still waits for it.
 */
module LockProtocol {
  import opened Wrappers
  import opened Locks

  datatype Event = LockEvent(request: Request, resource: ResourceId)
    | UnlockEvent(request: Request, resource: ResourceId)
  datatype Reply = Reply(grant: Grant, success: bool)

  /** What a lock id was first used for. */
  datatype Home = Home(thread: ThreadId, resource: ResourceId)

  datatype World = World(
    resources: Resources,
    events: set<Event>,        // deferred, not yet handled
    sent: set<Grant>,          // on the way to a worker
    accepted: set<Grant>,      // passed on to the worker, not yet seen by it
    replies: set<Reply>,       // on the way back
    waiting: set<Request>,     // workers waiting for a grant
    owned: set<Request>,       // workers that believe they own the resource
    homes: map<LockId, Home>,
    granted: set<LockId>,      // ids that were ever granted
    arrived: map<ResourceId, seq<Request>>,  // requests in the order in which they joined each queue
    served: map<ResourceId, seq<Request>>,   // requests in the order in which they were granted
    dropped: set<Request>)     // requests taken out of a queue by a release

  datatype Step =
    | DoAsk(request: Request, resource: ResourceId)  // a worker asks under a fresh lock id
    | DoHandle(event: Event)
    | DoAccept(grant: Grant)
    | DoRefuse(grant: Grant)
    | DoTake(grant: Grant)
    | DoAnswer(reply: Reply)
    | DoGiveUp(request: Request)                      // the worker's own timeout
    | DoUnlock(request: Request)
    | DoDie(thread: ThreadId)
    | DoReleaseAll(thread: ThreadId)

  const START := World(map[], {}, {}, {}, {}, {}, {}, map[], {}, map[], map[], {})

  function Log(logs: map<ResourceId, seq<Request>>, id: ResourceId): seq<Request> {
    if id in logs then logs[id] else []
  }

  function Granted(grants: set<Grant>): (locks: set<LockId>)
    ensures forall l :: l in locks <==> exists g :: g in grants && g.request.lock == l
  {
    set g | g in grants :: g.request.lock
  }

  /** The service log after a resource was served. */
  function ServedLog(logs: map<ResourceId, seq<Request>>, id: ResourceId, r: Resource): map<ResourceId, seq<Request>> {
    if CanServe(r) then logs[id := Log(logs, id) + [r.waiting[0]]] else logs
  }

  /** The service logs after a thread was released everywhere. */
  function ReleaseLogs(logs: map<ResourceId, seq<Request>>, rs: Resources, thread: ThreadId)
    : map<ResourceId, seq<Request>> {
    map id | id in logs.Keys + rs.Keys ::
      if id in rs && HeldBy(rs[id], thread) then Log(ServedLog(logs, id, Cleared(rs[id], thread)), id)
      else Log(logs, id)
  }

  function WaitingOf(rs: Resources, thread: ThreadId): (some: set<Request>)
    ensures forall q :: q in some <==> q.thread == thread && exists id :: id in rs && q in rs[id].waiting
  {
    set id, q | id in rs && q in rs[id].waiting && q.thread == thread :: q
  }

  /** A resource is put in a new state and served. */
  function Serve(w: World, id: ResourceId, r: Resource): World {
    w.(resources := w.resources[id := Served(r)],
       sent := w.sent + GrantFor(r, id),
       granted := w.granted + Granted(GrantFor(r, id)),
       served := ServedLog(w.served, id, r))
  }

  /** The thread believes in no lock and no grant on its way to it is waited for: it is between jobs, or dead. */
  ghost predicate Settled(w: World, thread: ThreadId) {
    && (forall q :: q in w.owned ==> q.thread != thread)
    && (forall g :: Underway(w, g) && g.request in w.waiting ==> g.request.thread != thread)
  }

  ghost predicate Enabled(w: World, step: Step) {
    match step
    case DoAsk(request, _) => request.lock !in w.homes
    case DoHandle(event) => event in w.events
    case DoAccept(grant) => grant in w.sent
    case DoRefuse(grant) => grant in w.sent
    case DoTake(grant) => grant in w.accepted
    case DoAnswer(reply) => reply in w.replies
    case DoGiveUp(request) => request in w.waiting
    case DoUnlock(request) => request in w.owned && request.lock in w.homes
    case DoDie(_) => true
    case DoReleaseAll(thread) => Settled(w, thread)
  }

  ghost function Next(w: World, step: Step): World
    requires Enabled(w, step)
  {
    match step
    case DoAsk(request, resource) =>
      w.(homes := w.homes[request.lock := Home(request.thread, resource)],
         waiting := w.waiting + {request},
         events := w.events + {LockEvent(request, resource)})
    case DoHandle(event) =>
      var w1 := w.(events := w.events - {event});
      var r := Find(w.resources, event.resource);
      if event.LockEvent? then
        Serve(w1.(arrived := w1.arrived[event.resource := Log(w1.arrived, event.resource) + [event.request]]),
              event.resource, r.(waiting := r.waiting + [event.request]))
      else
        Serve(w1, event.resource, Freed(r, event.request))
    case DoAccept(grant) =>
      w.(sent := w.sent - {grant}, accepted := w.accepted + {grant}, replies := w.replies + {Reply(grant, true)})
    case DoRefuse(grant) =>
      w.(sent := w.sent - {grant}, replies := w.replies + {Reply(grant, false)})
    case DoTake(grant) =>
      var w1 := w.(accepted := w.accepted - {grant});
      if grant.request in w.waiting then
        w1.(waiting := w.waiting - {grant.request}, owned := w.owned + {grant.request})
      else w1
    case DoAnswer(reply) =>
      var w1 := w.(replies := w.replies - {reply});
      var r := Find(w.resources, reply.grant.resource);
      if !reply.success && r.holder == Some(reply.grant.request) then
        Serve(w1, reply.grant.resource, Freed(r, reply.grant.request))
      else w1
    case DoGiveUp(request) =>
      w.(waiting := w.waiting - {request})
    case DoUnlock(request) =>
      w.(owned := w.owned - {request}, events := w.events + {UnlockEvent(request, w.homes[request.lock].resource)})
    case DoDie(thread) =>
      w.(waiting := (set q | q in w.waiting && q.thread != thread),
          owned := (set q | q in w.owned && q.thread != thread))
    case DoReleaseAll(thread) => ReleaseEverywhere(w, thread)
  }

  function ReleaseEverywhere(w: World, thread: ThreadId): World {
    w.(resources := AllReleased(w.resources, thread),
       sent := w.sent + AllReleaseGrants(w.resources, thread),
       granted := w.granted + Granted(AllReleaseGrants(w.resources, thread)),
       served := ReleaseLogs(w.served, w.resources, thread),
       dropped := w.dropped + WaitingOf(w.resources, thread))
  }

  ghost predicate Run(w: World, steps: seq<Step>, w': World)
    decreases |steps|
  {
    if steps == [] then w' == w
    else Enabled(w, steps[0]) && Run(Next(w, steps[0]), steps[1..], w')
  }

  /******* The invariant *******/

  ghost predicate AtHome(homes: map<LockId, Home>, q: Request, id: ResourceId) {
    q.lock in homes && homes[q.lock] == Home(q.thread, id)
  }

  ghost predicate Queued(rs: Resources, q: Request, id: ResourceId) {
    id in rs && q in rs[id].waiting
  }

  ghost predicate Holds(rs: Resources, q: Request, id: ResourceId) {
    id in rs && rs[id].holder == Some(q)
  }

  ghost predicate NoRepeats(s: seq<Request>) {
    forall i, j :: 0 <= i < j < |s| ==> s[i] != s[j]
  }

  /** A request moves from its deferred event to a queue to a grant, under its own lock id. */
  ghost predicate Staged(w: World) {
    && (forall e :: e in w.events && e.LockEvent? ==>
          AtHome(w.homes, e.request, e.resource) && e.request.lock !in w.granted &&
              !Queued(w.resources, e.request, e.resource))
    && (forall id :: id in w.resources ==> NoRepeats(w.resources[id].waiting))
    && (forall q, id :: Queued(w.resources, q, id) ==> AtHome(w.homes, q, id) && q.lock !in w.granted)
    && (forall q, id :: Holds(w.resources, q, id) ==> AtHome(w.homes, q, id) && q.lock in w.granted)
    && (forall l :: l in w.granted ==> l in w.homes)
  }

  ghost predicate Underway(w: World, g: Grant) {
    g in w.sent || g in w.accepted
  }

  /** Messages belong to granted requests, and a refusal means that the lock was not taken. */
  ghost predicate Messages(w: World) {
    && (forall g :: Underway(w, g) ==> AtHome(w.homes, g.request, g.resource) && g.request.lock in w.granted)
    && (forall r :: r in w.replies ==>
          AtHome(w.homes, r.grant.request, r.grant.resource) && r.grant.request.lock in w.granted)
    && (forall g :: g in w.sent ==>
          g !in w.accepted && g.request !in w.owned && Reply(g, true) !in w.replies && Reply(g, false) !in w.replies)
    && (forall r :: r in w.replies && !r.success ==> !Underway(w, r.grant) && r.grant.request !in w.owned)
    && (forall e :: e in w.events && e.UnlockEvent? ==>
          AtHome(w.homes, e.request, e.resource) && e.request !in w.owned && e.request !in w.waiting)
  }

  /** Whoever owns a lock, or is about to, is its holder. */
  ghost predicate Safe(w: World) {
    && (forall q :: q in w.waiting || q in w.owned ==> q.lock in w.homes && w.homes[q.lock].thread == q.thread)
    && (forall q :: q in w.owned ==> q !in w.waiting && Holds(w.resources, q, w.homes[q.lock].resource))
    && (forall g :: Underway(w, g) && g.request in w.waiting ==> Holds(w.resources, g.request, g.resource))
  }

  ghost predicate Inv(w: World) {
    Staged(w) && Messages(w) && Safe(w)
  }

  /** A request has one home, so one grant. */
  lemma OneGrant(w: World, g: Grant, h: Grant)
    requires AtHome(w.homes, g.request, g.resource) && AtHome(w.homes, h.request, h.resource)
    ensures g.request.lock == h.request.lock ==> g == h
  {
  }

  /** Serving some of the resources. */
  ghost predicate Serves(w: World, w': World, ids: set<ResourceId>) {
    && w'.resources == (map id | id in w.resources :: if id in ids then Served(w.resources[id]) else w.resources[id])
    && (forall g :: g in w'.sent <==> g in w.sent || NewGrant(w, ids, g))
    && (forall l :: l in w'.granted <==> l in w.granted || exists g :: NewGrant(w, ids, g) && g.request.lock == l)
    && w'.events == w.events && w'.accepted == w.accepted && w'.replies == w.replies
    && w'.waiting == w.waiting && w'.owned == w.owned && w'.homes == w.homes
  }

  ghost predicate NewGrant(w: World, ids: set<ResourceId>, g: Grant) {
    g.resource in ids && g.resource in w.resources && g in GrantFor(w.resources[g.resource], g.resource)
  }

  lemma NewGrantIsQueued(w: World, ids: set<ResourceId>, g: Grant)
    requires Staged(w) && NewGrant(w, ids, g)
    ensures Queued(w.resources, g.request, g.resource) && AtHome(w.homes, g.request, g.resource) &&
            g.request.lock !in w.granted
  {
  }

  lemma ServesStaged(w: World, w': World, ids: set<ResourceId>)
    requires Staged(w) && Serves(w, w', ids)
    ensures Staged(w')
  {
    forall g | NewGrant(w, ids, g) ensures AtHome(w.homes, g.request, g.resource) &&
        Queued(w.resources, g.request, g.resource) {
      NewGrantIsQueued(w, ids, g);
    }
    forall q, id | Queued(w'.resources, q, id) ensures AtHome(w'.homes, q, id) && q.lock !in w'.granted {
      assert Queued(w.resources, q, id);
      forall g | NewGrant(w, ids, g) ensures g.request.lock != q.lock {
        var r := w.resources[g.resource];
        assert AtHome(w.homes, q, id);
        if g.resource == id {
          assert forall j :: 0 < j < |r.waiting| ==> r.waiting[0] != r.waiting[j];
        }
      }
    }
    forall q, id | Holds(w'.resources, q, id) ensures AtHome(w'.homes, q, id) && q.lock in w'.granted {
      if !Holds(w.resources, q, id) {
        assert NewGrant(w, ids, Grant(q, id));
      }
    }
    forall id | id in w'.resources ensures NoRepeats(w'.resources[id].waiting) {
      assert NoRepeats(w.resources[id].waiting);
    }
    forall e | e in w'.events && e.LockEvent?
      ensures AtHome(w'.homes, e.request, e.resource) && e.request.lock !in w'.granted &&
              !Queued(w'.resources, e.request, e.resource)
    {
      assert AtHome(w.homes, e.request, e.resource);
      assert Queued(w'.resources, e.request, e.resource) ==> Queued(w.resources, e.request, e.resource);
    }
  }

  lemma ServesSafe(w: World, w': World, ids: set<ResourceId>)
    requires Inv(w) && Serves(w, w', ids)
    ensures Messages(w') && Safe(w')
  {
    forall g | NewGrant(w, ids, g)
      ensures AtHome(w.homes, g.request, g.resource) && g.request.lock !in w.granted &&
              Holds(w'.resources, g.request, g.resource)
    {
      NewGrantIsQueued(w, ids, g);
    }
    forall q, id | Holds(w.resources, q, id) ensures Holds(w'.resources, q, id) {
    }
  }

  lemma InvServes(w: World, w': World, ids: set<ResourceId>)
    requires Inv(w) && Serves(w, w', ids)
    ensures Inv(w')
  {
    ServesStaged(w, w', ids);
    ServesSafe(w, w', ids);
  }

  lemma InvServe(w: World, id: ResourceId, r: Resource)
    requires Inv(w.(resources := w.resources[id := r]))
    ensures Inv(Serve(w, id, r))
  {
    var w1 := w.(resources := w.resources[id := r]);
    var w' := Serve(w, id, r);
    assert forall g :: NewGrant(w1, {id}, g) <==> g in GrantFor(r, id);
    InvServes(w1, w', {id});
  }

  /** The world right after a request joined a queue. */
  ghost function Joined(w: World, event: Event): World {
    var r, id := Find(w.resources, event.resource), event.resource;
    w.(events := w.events - {event}, arrived := w.arrived[id := Log(w.arrived, id) + [event.request]],
       resources := w.resources[id := r.(waiting := r.waiting + [event.request])])
  }

  lemma InvJoined(w: World, event: Event)
    requires Inv(w) && event in w.events && event.LockEvent?
    ensures Inv(Joined(w, event))
  {
    var r, id := Find(w.resources, event.resource), event.resource;
    var w1 := w.(events := w.events - {event}, arrived := w.arrived[id := Log(w.arrived, id) + [event.request]]);
    var queued := r.(waiting := r.waiting + [event.request]);
    var w2 := w1.(resources := w1.resources[id := queued]);
    forall q, i | Queued(w2.resources, q, i) ensures Queued(w.resources, q, i) || (q == event.request && i == id) {
    }
    forall q, i ensures Holds(w2.resources, q, i) <==> Holds(w.resources, q, i) {
    }
    assert !Queued(w.resources, event.request, id);
    assert NoRepeats(queued.waiting) by {
      assert id in w.resources ==> NoRepeats(w.resources[id].waiting);
    }
    assert Staged(w2) by {
      forall e | e in w2.events && e.LockEvent? ensures !Queued(w2.resources, e.request, e.resource) {
        assert e != event;
      }
    }
  }

  lemma InvLockEvent(w: World, event: Event)
    requires Inv(w) && event in w.events && event.LockEvent?
    ensures Inv(Next(w, DoHandle(event)))
  {
    var r, id := Find(w.resources, event.resource), event.resource;
    InvJoined(w, event);
    InvServe(w.(events := w.events - {event}, arrived := w.arrived[id := Log(w.arrived, id) + [event.request]]),
             id, r.(waiting := r.waiting + [event.request]));
  }

  /** Freeing a resource whose holder nobody takes for its own. */
  lemma InvFreed(w: World, id: ResourceId, request: Request)
    requires Inv(w) && (Holds(w.resources, request, id) ==>
               request !in w.owned && forall g :: Underway(w, g) && g.request == request ==> request !in w.waiting)
    ensures Inv(w.(resources := w.resources[id := Freed(Find(w.resources, id), request)]))
  {
    var r := Find(w.resources, id);
    var w' := w.(resources := w.resources[id := Freed(r, request)]);
    forall q, i ensures Queued(w'.resources, q, i) <==> Queued(w.resources, q, i) {
    }
    forall q, i ensures Holds(w'.resources, q, i) <==> Holds(w.resources, q, i) && !(i == id && q == request) {
    }
    assert Staged(w');
    assert Messages(w');
    if Holds(w.resources, request, id) {
      assert AtHome(w.homes, request, id);
    }
  }

  lemma InvUnlockEvent(w: World, event: Event)
    requires Inv(w) && event in w.events && event.UnlockEvent?
    ensures Inv(Next(w, DoHandle(event)))
  {
    var w1 := w.(events := w.events - {event});
    assert Inv(w1);
    InvFreed(w1, event.resource, event.request);
    InvServe(w1, event.resource, Freed(Find(w.resources, event.resource), event.request));
  }

  lemma InvRefused(w: World, reply: Reply)
    requires Inv(w) && reply in w.replies && !reply.success &&
             Holds(w.resources, reply.grant.request, reply.grant.resource)
    ensures var r := Find(w.resources, reply.grant.resource);
            Inv(w.(replies := w.replies - {reply},
                   resources := w.resources[reply.grant.resource := Freed(r, reply.grant.request)]))
  {
    var w1 := w.(replies := w.replies - {reply});
    assert Inv(w1);
    forall g | Underway(w, g) ensures g.request != reply.grant.request {
      OneGrant(w, g, reply.grant);
    }
    InvFreed(w1, reply.grant.resource, reply.grant.request);
  }

  lemma InvAnswer(w: World, reply: Reply)
    requires Inv(w) && reply in w.replies
    ensures Inv(Next(w, DoAnswer(reply)))
  {
    var w1 := w.(replies := w.replies - {reply});
    var r := Find(w.resources, reply.grant.resource);
    if !reply.success && r.holder == Some(reply.grant.request) {
      InvRefused(w, reply);
      InvServe(w1, reply.grant.resource, Freed(r, reply.grant.request));
    }
  }

  lemma InvCleared(w: World, thread: ThreadId)
    requires Inv(w) && Settled(w, thread)
    ensures Inv(ClearedOf(w, thread))
  {
    var w' := ClearedOf(w, thread);
    forall q, i ensures Queued(w'.resources, q, i) <==> Queued(w.resources, q, i) && q.thread != thread {
    }
    forall q, i ensures Holds(w'.resources, q, i) <==> Holds(w.resources, q, i) && q.thread != thread {
    }
    forall id | id in w'.resources ensures NoRepeats(w'.resources[id].waiting) {
      assert NoRepeats(w.resources[id].waiting);
      WithoutNoRepeats(w.resources[id].waiting, thread);
    }
    assert Staged(w');
    assert Messages(w');
  }

  lemma {:induction false} WithoutNoRepeats(waiting: seq<Request>, thread: ThreadId)
    requires NoRepeats(waiting)
    ensures NoRepeats(Without(waiting, thread))
  {
    if waiting != [] {
      WithoutNoRepeats(waiting[1..], thread);
      assert forall q :: q in waiting[1..] ==> q != waiting[0];
    }
  }

  function ClearedOf(w: World, thread: ThreadId): World {
    w.(resources := map id | id in w.resources :: Cleared(w.resources[id], thread))
  }

  function HeldIds(rs: Resources, thread: ThreadId): set<ResourceId> {
    set id | id in rs && HeldBy(rs[id], thread)
  }

  lemma ReleaseGrantsAreNew(w: World, thread: ThreadId, g: Grant)
    ensures NewGrant(ClearedOf(w, thread), HeldIds(w.resources, thread), g) <==>
            g in AllReleaseGrants(w.resources, thread)
  {
  }

  lemma NewLocks(w: World, ids: set<ResourceId>, grants: set<Grant>)
    requires forall g :: NewGrant(w, ids, g) <==> g in grants
    ensures forall l :: l in Granted(grants) <==> exists g :: NewGrant(w, ids, g) && g.request.lock == l
  {
    forall l ensures l in Granted(grants) <==> exists g :: NewGrant(w, ids, g) && g.request.lock == l {
      if l in Granted(grants) {
        var g :| g in grants && g.request.lock == l;
        assert NewGrant(w, ids, g);
      }
    }
  }

  lemma ReleaseServes(w: World, thread: ThreadId)
    ensures Serves(ClearedOf(w, thread), ReleaseEverywhere(w, thread), HeldIds(w.resources, thread))
  {
    var grants := AllReleaseGrants(w.resources, thread);
    forall g ensures NewGrant(ClearedOf(w, thread), HeldIds(w.resources, thread), g) <==> g in grants {
      ReleaseGrantsAreNew(w, thread, g);
    }
    NewLocks(ClearedOf(w, thread), HeldIds(w.resources, thread), grants);
    ReleasedIsServed(w.resources, thread);
    ServesBy(ClearedOf(w, thread), ReleaseEverywhere(w, thread), HeldIds(w.resources, thread), grants);
  }

  lemma ServesBy(w: World, w': World, ids: set<ResourceId>, grants: set<Grant>)
    requires forall g :: NewGrant(w, ids, g) <==> g in grants
    requires forall l :: l in Granted(grants) <==> exists g :: NewGrant(w, ids, g) && g.request.lock == l
    requires w'.resources.Keys == w.resources.Keys
    requires forall id :: id in w.resources ==>
             w'.resources[id] == if id in ids then Served(w.resources[id]) else w.resources[id]
    requires w'.sent == w.sent + grants && w'.granted == w.granted + Granted(grants)
    requires w'.events == w.events && w'.accepted == w.accepted && w'.replies == w.replies
    requires w'.waiting == w.waiting && w'.owned == w.owned && w'.homes == w.homes
    ensures Serves(w, w', ids)
  {
  }

  lemma ReleasedIsServed(rs: Resources, thread: ThreadId)
    ensures forall id :: id in rs ==>
              AllReleased(rs, thread)[id] ==
              if id in HeldIds(rs, thread) then Served(Cleared(rs[id], thread)) else Cleared(rs[id], thread)
  {
  }

  lemma InvReleaseAll(w: World, thread: ThreadId)
    requires Inv(w) && Settled(w, thread)
    ensures Inv(ReleaseEverywhere(w, thread))
  {
    InvCleared(w, thread);
    ReleaseServes(w, thread);
    InvServes(ClearedOf(w, thread), ReleaseEverywhere(w, thread), HeldIds(w.resources, thread));
  }

  lemma InvTake(w: World, grant: Grant)
    requires Inv(w) && grant in w.accepted
    ensures Inv(Next(w, DoTake(grant)))
  {
    TakenAlone(w, grant);
  }

  /** A request whose grant was passed on has no other grant under way and no refusal. */
  lemma TakenAlone(w: World, grant: Grant)
    requires Inv(w) && grant in w.accepted
    ensures forall h :: h in w.sent || Reply(h, false) in w.replies ==> h.request != grant.request
    ensures forall r :: r in w.replies && !r.success ==> r.grant.request != grant.request
  {
    forall h | (h in w.sent || Reply(h, false) in w.replies) ensures h.request != grant.request {
      assert Reply(h, false) in w.replies ==> AtHome(w.homes, Reply(h, false).grant.request, h.resource);
      OneGrant(w, grant, h);
    }
    forall r | r in w.replies && !r.success ensures r.grant.request != grant.request {
      assert r == Reply(r.grant, false);
    }
  }

  lemma InvWorkers(w: World, step: Step)
    requires Inv(w) && Enabled(w, step)
    requires step.DoAccept? || step.DoRefuse? || step.DoGiveUp? || step.DoDie?
    ensures Inv(Next(w, step))
  {
  }

  lemma InvAsk(w: World, step: Step)
    requires Inv(w) && Enabled(w, step) && (step.DoAsk? || step.DoUnlock?)
    ensures Inv(Next(w, step))
  {
  }

  lemma InvNext(w: World, step: Step)
    requires Inv(w) && Enabled(w, step)
    ensures Inv(Next(w, step))
  {
    match step {
      case DoHandle(event) =>
        if event.LockEvent? { InvLockEvent(w, event); } else { InvUnlockEvent(w, event); }
      case DoAnswer(reply) => InvAnswer(w, reply);
      case DoReleaseAll(thread) => InvReleaseAll(w, thread);
      case DoAsk(_, _) => InvAsk(w, step);
      case DoUnlock(_) => InvAsk(w, step);
      case DoTake(grant) => InvTake(w, grant);
      case _ => InvWorkers(w, step);
    }
  }

  lemma {:induction false} RunKeepsInv(w: World, steps: seq<Step>, w': World)
    requires Inv(w) && Run(w, steps, w')
    ensures Inv(w')
    decreases |steps|
  {
    if steps != [] {
      InvNext(w, steps[0]);
      RunKeepsInv(Next(w, steps[0]), steps[1..], w');
    }
  }

  /** Over whole runs, at most one worker believes it owns a resource, and it is the holder. */
  lemma MutualExclusion(steps: seq<Step>, w: World, p: Request, q: Request)
    requires Run(START, steps, w) && p in w.owned && q in w.owned
    ensures p.lock in w.homes && q.lock in w.homes && Holds(w.resources, p, w.homes[p.lock].resource)
    ensures w.homes[p.lock].resource == w.homes[q.lock].resource ==> p == q
  {
    RunKeepsInv(START, steps, w);
  }

  lemma NobodyLeft(rs: Resources, thread: ThreadId)
    ensures forall q: Request, id :: q.thread == thread ==>
            !Holds(AllReleased(rs, thread), q, id) && !Queued(AllReleased(rs, thread), q, id)
  {
  }

  lemma UnsettledBreaks(w: World, w': World, thread: ThreadId)
    requires !Settled(w, thread) && w'.owned == w.owned && w'.waiting == w.waiting && w'.accepted == w.accepted &&
             w.sent <= w'.sent
    requires forall q: Request, id :: q.thread == thread ==> !Holds(w'.resources, q, id)
    ensures !Safe(w')
  {
  }

  lemma ReleaseUnsettled(w: World, thread: ThreadId)
    requires !Settled(w, thread)
    ensures !Safe(ReleaseEverywhere(w, thread))
  {
    NobodyLeft(w.resources, thread);
    UnsettledBreaks(w, ReleaseEverywhere(w, thread), thread);
  }

  /** What a release outside its contract would do: it keeps the invariant exactly when the thread is settled. */
  lemma ReleaseExact(w: World, thread: ThreadId)
    requires Inv(w)
    ensures Settled(w, thread) ==> Inv(ReleaseEverywhere(w, thread))
    ensures Safe(ReleaseEverywhere(w, thread)) ==> Settled(w, thread)
  {
    if Settled(w, thread) {
      InvReleaseAll(w, thread);
    } else {
      ReleaseUnsettled(w, thread);
    }
  }

  /******* The queues *******/

  /** A resource with waiters has a holder. */
  ghost predicate Busy(rs: Resources) {
    forall id :: id in rs ==> !CanServe(rs[id])
  }

  lemma BusyNext(w: World, step: Step)
    requires Busy(w.resources) && Enabled(w, step)
    ensures Busy(Next(w, step).resources)
  {
    match step {
      case DoReleaseAll(thread) => BusyReleased(w.resources, thread);
      case DoHandle(_) =>
      case DoAnswer(_) =>
      case _ =>
    }
  }

  lemma BusyReleased(rs: Resources, thread: ThreadId)
    requires Busy(rs)
    ensures Busy(AllReleased(rs, thread))
  {
    forall id | id in rs ensures !CanServe(Released(rs[id], thread)) {
      assert rs[id].waiting == [] ==> Without(rs[id].waiting, thread) == [];
    }
  }

  function Keep(s: seq<Request>, dropped: set<Request>): seq<Request> {
    if s == [] then [] else Keep(s[..|s| - 1], dropped) + if s[|s| - 1] in dropped then [] else [s[|s| - 1]]
  }

  lemma {:induction false} KeepConcat(a: seq<Request>, b: seq<Request>, dropped: set<Request>)
    ensures Keep(a + b, dropped) == Keep(a, dropped) + Keep(b, dropped)
  {
    if b == [] {
      assert a + b == a;
    } else {
      assert (a + b)[..|a + b| - 1] == a + b[..|b| - 1];
      KeepConcat(a, b[..|b| - 1], dropped);
    }
  }

  lemma {:induction false} KeepAll(s: seq<Request>, dropped: set<Request>)
    requires forall q :: q in s ==> q !in dropped
    ensures Keep(s, dropped) == s
  {
    if s != [] {
      KeepAll(s[..|s| - 1], dropped);
      assert s[|s| - 1] in s;
    }
  }

  lemma {:induction false} KeepTwice(s: seq<Request>, some: set<Request>, more: set<Request>)
    ensures Keep(s, some + more) == Keep(Keep(s, some), some + more)
  {
    if s != [] {
      KeepTwice(s[..|s| - 1], some, more);
      var last := s[|s| - 1];
      KeepConcat(Keep(s[..|s| - 1], some), if last in some then [] else [last], some + more);
    }
  }

  lemma {:induction false} KeepIsWithout(waiting: seq<Request>, dropped: set<Request>, thread: ThreadId)
    requires forall q :: q in waiting ==> (q in dropped <==> q.thread == thread)
    ensures Keep(waiting, dropped) == Without(waiting, thread)
  {
    if waiting != [] {
      var first, rest := waiting[0], waiting[1..];
      assert first in waiting && forall q :: q in rest ==> q in waiting;
      KeepIsWithout(rest, dropped, thread);
      KeepConcat([first], rest, dropped);
      KeepOne(first, dropped);
      assert waiting == [first] + rest;
      assert [] + Keep(rest, dropped) == Keep(rest, dropped);
    }
  }

  lemma KeepOne(q: Request, dropped: set<Request>)
    ensures Keep([q], dropped) == if q in dropped then [] else [q]
  {
    assert [q][..0] == [];
  }

  /** A dropped request is never granted or queued again. */
  ghost predicate DroppedForGood(w: World) {
    && (forall q :: q in w.dropped ==> q.lock in w.homes && w.homes[q.lock].thread == q.thread && q.lock !in w.granted)
    && (forall q, id :: Queued(w.resources, q, id) ==> q !in w.dropped)
    && (forall e :: e in w.events && e.LockEvent? ==> e.request !in w.dropped)
  }

  ghost predicate ServedWereGranted(w: World, id: ResourceId) {
    forall q :: q in Log(w.served, id) ==> q.lock in w.granted
  }

  lemma DroppedServes(w: World, w': World, ids: set<ResourceId>)
    requires Staged(w) && DroppedForGood(w.(dropped := w'.dropped)) && Serves(w, w', ids)
    ensures DroppedForGood(w')
  {
    forall g | NewGrant(w, ids, g) ensures g.request !in w'.dropped && AtHome(w.homes, g.request, g.resource) {
      NewGrantIsQueued(w, ids, g);
    }
    forall q, id | Queued(w'.resources, q, id) ensures q !in w'.dropped {
      assert Queued(w.resources, q, id);
    }
  }

  lemma DroppedServe(w: World, id: ResourceId, r: Resource)
    requires var w1 := w.(resources := w.resources[id := r]); Staged(w1) && DroppedForGood(w1)
    ensures DroppedForGood(Serve(w, id, r))
  {
    var w1, w' := w.(resources := w.resources[id := r]), Serve(w, id, r);
    assert forall g :: NewGrant(w1, {id}, g) <==> g in GrantFor(r, id);
    DroppedServes(w1, w', {id});
  }

  lemma DroppedHandled(w: World, event: Event)
    requires Inv(w) && DroppedForGood(w) && event in w.events
    ensures DroppedForGood(Next(w, DoHandle(event)))
  {
    var id := event.resource;
    var r := Find(w.resources, id);
    if event.LockEvent? {
      var w1 := w.(events := w.events - {event}, arrived := w.arrived[id := Log(w.arrived, id) + [event.request]]);
      var queued := r.(waiting := r.waiting + [event.request]);
      InvJoined(w, event);
      var rs := w1.resources[id := queued];
      forall q, i | Queued(rs, q, i) ensures q !in w.dropped {
        assert Queued(w.resources, q, i) || q == event.request;
      }
      DroppedServe(w1, id, queued);
    } else {
      var w1 := w.(events := w.events - {event});
      InvFreed(w1, id, event.request);
      var rs := w1.resources[id := Freed(r, event.request)];
      forall q, i | Queued(rs, q, i) ensures q !in w.dropped {
        assert Queued(w.resources, q, i);
      }
      DroppedServe(w1, id, Freed(r, event.request));
    }
  }

  lemma DroppedAnswered(w: World, reply: Reply)
    requires Inv(w) && DroppedForGood(w) && reply in w.replies
    ensures DroppedForGood(Next(w, DoAnswer(reply)))
  {
    var id, r := reply.grant.resource, Find(w.resources, reply.grant.resource);
    if !reply.success && r.holder == Some(reply.grant.request) {
      InvRefused(w, reply);
      var rs := w.resources[id := Freed(r, reply.grant.request)];
      forall q, i | Queued(rs, q, i) ensures q !in w.dropped {
        assert Queued(w.resources, q, i);
      }
      DroppedServe(w.(replies := w.replies - {reply}), id, Freed(r, reply.grant.request));
    }
  }

  lemma DroppedCleared(w: World, thread: ThreadId)
    requires Inv(w) && DroppedForGood(w)
    ensures DroppedForGood(ClearedOf(w, thread).(dropped := w.dropped + WaitingOf(w.resources, thread)))
  {
    var w' := ClearedOf(w, thread).(dropped := w.dropped + WaitingOf(w.resources, thread));
    forall q | q in WaitingOf(w.resources, thread) ensures exists id :: Queued(w.resources, q, id) {
      var id :| id in w.resources && q in w.resources[id].waiting;
      assert Queued(w.resources, q, id);
    }
    forall q, id | Queued(w'.resources, q, id) ensures q !in w'.dropped {
      assert Queued(w.resources, q, id) && q.thread != thread;
    }
    forall e | e in w.events && e.LockEvent? ensures e.request !in w'.dropped {
      forall id ensures !Queued(w.resources, e.request, id) {
        assert AtHome(w.homes, e.request, e.resource);
        assert Queued(w.resources, e.request, id) ==> AtHome(w.homes, e.request, id);
      }
    }
  }

  lemma DroppedReleased(w: World, thread: ThreadId)
    requires Inv(w) && DroppedForGood(w) && Settled(w, thread)
    ensures DroppedForGood(ReleaseEverywhere(w, thread))
  {
    DroppedCleared(w, thread);
    InvCleared(w, thread);
    ReleaseServes(w, thread);
    DroppedServes(ClearedOf(w, thread), ReleaseEverywhere(w, thread), HeldIds(w.resources, thread));
  }

  lemma DroppedNext(w: World, step: Step)
    requires Inv(w) && DroppedForGood(w) && Enabled(w, step)
    ensures DroppedForGood(Next(w, step))
  {
    match step {
      case DoHandle(event) => DroppedHandled(w, event);
      case DoAnswer(reply) => DroppedAnswered(w, reply);
      case DoReleaseAll(thread) => DroppedReleased(w, thread);
      case _ =>
    }
  }

  lemma ServeLogged(w: World, id: ResourceId, r: Resource, other: ResourceId)
    requires ServedWereGranted(w, other)
    ensures ServedWereGranted(Serve(w, id, r), other)
  {
    if CanServe(r) {
      assert Grant(r.waiting[0], id) in GrantFor(r, id);
      assert r.waiting[0].lock in Granted(GrantFor(r, id));
    }
  }

  lemma ReleaseLogged(w: World, thread: ThreadId, id: ResourceId)
    requires ServedWereGranted(w, id)
    ensures ServedWereGranted(ReleaseEverywhere(w, thread), id)
  {
    if id in w.resources && HeldBy(w.resources[id], thread) && CanServe(Cleared(w.resources[id], thread)) {
      var first := Grant(Cleared(w.resources[id], thread).waiting[0], id);
      assert first in ReleaseGrants(w.resources[id], id, thread);
      assert first in AllReleaseGrants(w.resources, thread);
    }
  }

  lemma ServedNext(w: World, step: Step, id: ResourceId)
    requires Enabled(w, step) && ServedWereGranted(w, id)
    ensures ServedWereGranted(Next(w, step), id)
  {
    match step {
      case DoHandle(event) =>
        var r := Find(w.resources, event.resource);
        var w1 := w.(events := w.events - {event});
        if event.LockEvent? {
          ServeLogged(w1.(arrived := w1.arrived[event.resource := Log(w1.arrived, event.resource) + [event.request]]),
                      event.resource, r.(waiting := r.waiting + [event.request]), id);
        } else {
          ServeLogged(w1, event.resource, Freed(r, event.request), id);
        }
      case DoAnswer(reply) =>
        ServeLogged(w.(replies := w.replies - {reply}), reply.grant.resource,
                    Freed(Find(w.resources, reply.grant.resource), reply.grant.request), id);
      case DoReleaseAll(thread) => ReleaseLogged(w, thread, id);
      case _ =>
    }
  }

  /** Of the requests that reached a queue, those not dropped were served first and wait after, in the order
      of arrival. */
  ghost predicate InOrder(w: World, id: ResourceId) {
    Keep(Log(w.arrived, id), w.dropped) == Log(w.served, id) + Find(w.resources, id).waiting
  }

  lemma OrderServe(w: World, id: ResourceId, r: Resource, other: ResourceId)
    requires InOrder(w.(resources := w.resources[id := r]), other)
    ensures InOrder(Serve(w, id, r), other)
  {
  }

  lemma OrderJoined(w: World, event: Event, id: ResourceId)
    requires DroppedForGood(w) && InOrder(w, id) && event in w.events && event.LockEvent?
    ensures InOrder(Joined(w, event), id)
  {
    if id == event.resource {
      KeepConcat(Log(w.arrived, id), [event.request], w.dropped);
      KeepOne(event.request, w.dropped);
    }
  }

  lemma OrderReleased(w: World, thread: ThreadId, id: ResourceId)
    requires Staged(w) && DroppedForGood(w) && ServedWereGranted(w, id) && InOrder(w, id)
    ensures InOrder(ReleaseEverywhere(w, thread), id)
  {
    var waiting := Find(w.resources, id).waiting;
    var served := Log(w.served, id);
    var more := WaitingOf(w.resources, thread);
    var dropped := w.dropped + more;
    KeepTwice(Log(w.arrived, id), w.dropped, more);
    KeepConcat(served, waiting, dropped);
    ServedAreKept(w, thread, id);
    forall q | q in waiting ensures q in dropped <==> q.thread == thread {
      assert Queued(w.resources, q, id);
    }
    KeepIsWithout(waiting, dropped, thread);
    ReleaseSplits(w, thread, id);
  }

  lemma ServedAreKept(w: World, thread: ThreadId, id: ResourceId)
    requires DroppedForGood(w) && ServedWereGranted(w, id) && Staged(w)
    ensures Keep(Log(w.served, id), w.dropped + WaitingOf(w.resources, thread)) == Log(w.served, id)
  {
    forall q | q in WaitingOf(w.resources, thread) ensures q.lock !in w.granted {
      var i :| i in w.resources && q in w.resources[i].waiting;
      assert Queued(w.resources, q, i);
    }
    KeepAll(Log(w.served, id), w.dropped + WaitingOf(w.resources, thread));
  }

  lemma ReleaseLogIs(w: World, thread: ThreadId, id: ResourceId)
    ensures Log(ReleaseLogs(w.served, w.resources, thread), id) ==
            if id in w.resources && HeldBy(w.resources[id], thread)
            then Log(ServedLog(w.served, id, Cleared(w.resources[id], thread)), id)
            else Log(w.served, id)
  {
  }

  lemma ServedSplits(logs: map<ResourceId, seq<Request>>, id: ResourceId, r: Resource)
    ensures Log(ServedLog(logs, id, r), id) + Served(r).waiting == Log(logs, id) + r.waiting
  {
  }

  lemma ReleaseSplits(w: World, thread: ThreadId, id: ResourceId)
    ensures var w' := ReleaseEverywhere(w, thread);
            Log(w'.served, id) + Find(w'.resources, id).waiting ==
            Log(w.served, id) + Without(Find(w.resources, id).waiting, thread)
  {
    ReleaseLogIs(w, thread, id);
    if id in w.resources {
      ServedSplits(w.served, id, Cleared(w.resources[id], thread));
    }
  }

  lemma InOrderNext(w: World, step: Step, id: ResourceId)
    requires Staged(w) && DroppedForGood(w) && ServedWereGranted(w, id) && InOrder(w, id) && Enabled(w, step)
    ensures InOrder(Next(w, step), id)
  {
    match step {
      case DoHandle(event) =>
        var r := Find(w.resources, event.resource);
        var w1 := w.(events := w.events - {event});
        if event.LockEvent? {
          OrderJoined(w, event, id);
          OrderServe(w1.(arrived := w1.arrived[event.resource := Log(w1.arrived, event.resource) + [event.request]]),
                     event.resource, r.(waiting := r.waiting + [event.request]), id);
        } else {
          OrderServe(w1, event.resource, Freed(r, event.request), id);
        }
      case DoAnswer(reply) =>
        OrderServe(w.(replies := w.replies - {reply}), reply.grant.resource,
                   Freed(Find(w.resources, reply.grant.resource), reply.grant.request), id);
      case DoReleaseAll(thread) => OrderReleased(w, thread, id);
      case _ =>
    }
  }

  lemma {:induction false} RunKeepsOrder(w: World, steps: seq<Step>, w': World, id: ResourceId)
    requires Inv(w) && DroppedForGood(w) && ServedWereGranted(w, id) && InOrder(w, id) && Busy(w.resources) &&
             Run(w, steps, w')
    ensures InOrder(w', id) && Busy(w'.resources)
    decreases |steps|
  {
    if steps != [] {
      var step := steps[0];
      InvNext(w, step);
      DroppedNext(w, step);
      ServedNext(w, step, id);
      InOrderNext(w, step, id);
      BusyNext(w, step);
      RunKeepsOrder(Next(w, step), steps[1..], w', id);
    }
  }

  /** Over whole runs: a resource with waiters has a holder, and grants go out in the order of arrival. */
  lemma FirstComeFirstServed(steps: seq<Step>, w: World, id: ResourceId)
    requires Run(START, steps, w)
    ensures Find(w.resources, id).waiting != [] ==> Find(w.resources, id).holder.Some?
    ensures Keep(Log(w.arrived, id), w.dropped) == Log(w.served, id) + Find(w.resources, id).waiting
  {
    RunKeepsOrder(START, steps, w, id);
  }

  /******* After a release *******/

  ghost predicate Absent(rs: Resources, thread: ThreadId) {
    forall q: Request, id :: q.thread == thread ==> !Holds(rs, q, id) && !Queued(rs, q, id)
  }

  lemma ReleasedIsAbsent(w: World, thread: ThreadId)
    ensures Absent(ReleaseEverywhere(w, thread).resources, thread)
  {
    NobodyLeft(w.resources, thread);
  }

  ghost predicate OfThread(step: Step, thread: ThreadId) {
    step.DoHandle? && step.event.LockEvent? && step.event.request.thread == thread
  }

  lemma AbsentServe(rs: Resources, id: ResourceId, r: Resource, thread: ThreadId)
    requires Absent(rs, thread) && !HeldBy(r, thread) && forall q :: q in r.waiting ==> q.thread != thread
    ensures Absent(rs[id := Served(r)], thread)
  {
    var rs' := rs[id := Served(r)];
    forall q: Request, i | q.thread == thread ensures !Holds(rs', q, i) && !Queued(rs', q, i) {
      assert !Holds(rs, q, i) && !Queued(rs, q, i);
    }
  }

  lemma AbsentFreed(rs: Resources, id: ResourceId, request: Request, thread: ThreadId)
    requires Absent(rs, thread)
    ensures var r := Freed(Find(rs, id), request);
            !HeldBy(r, thread) && forall q :: q in r.waiting ==> q.thread != thread
  {
    var r := Find(rs, id);
    forall q | q in r.waiting ensures q.thread != thread {
      assert Queued(rs, q, id);
    }
    if r.holder.Some? {
      assert Holds(rs, r.holder.value, id);
    }
  }

  lemma AbsentNext(w: World, step: Step, thread: ThreadId)
    requires Enabled(w, step) && Absent(w.resources, thread) && !OfThread(step, thread)
    ensures Absent(Next(w, step).resources, thread)
  {
    match step {
      case DoHandle(event) =>
        var r := Find(w.resources, event.resource);
        AbsentFreed(w.resources, event.resource, event.request, thread);
        if event.LockEvent? {
          AbsentWaits(w.resources, event.resource, thread);
          AbsentServe(w.resources, event.resource, r.(waiting := r.waiting + [event.request]), thread);
        } else {
          AbsentServe(w.resources, event.resource, Freed(r, event.request), thread);
        }
      case DoAnswer(reply) =>
        AbsentFreed(w.resources, reply.grant.resource, reply.grant.request, thread);
        AbsentServe(w.resources, reply.grant.resource,
            Freed(Find(w.resources, reply.grant.resource), reply.grant.request), thread);
      case DoReleaseAll(other) => AbsentReleased(w.resources, other, thread);
      case _ =>
    }
  }

  lemma AbsentWaits(rs: Resources, id: ResourceId, thread: ThreadId)
    requires Absent(rs, thread)
    ensures !HeldBy(Find(rs, id), thread) && forall q :: q in Find(rs, id).waiting ==> q.thread != thread
  {
    var r := Find(rs, id);
    forall q | q in r.waiting ensures q.thread != thread {
      assert Queued(rs, q, id);
    }
    if r.holder.Some? {
      assert Holds(rs, r.holder.value, id);
    }
  }

  lemma AbsentReleased(rs: Resources, other: ThreadId, thread: ThreadId)
    requires Absent(rs, thread)
    ensures Absent(AllReleased(rs, other), thread)
  {
    var rs' := AllReleased(rs, other);
    forall q: Request, i | q.thread == thread ensures !Holds(rs', q, i) && !Queued(rs', q, i) {
      assert !Holds(rs, q, i) && !Queued(rs, q, i);
    }
  }

  lemma {:induction false} AbsentStays(w: World, thread: ThreadId, steps: seq<Step>, w': World)
    requires Absent(w.resources, thread) && Run(w, steps, w') &&
             forall step :: step in steps ==> !OfThread(step, thread)
    ensures Absent(w'.resources, thread)
    decreases |steps|
  {
    if steps != [] {
      assert steps[0] in steps;
      AbsentNext(w, steps[0], thread);
      AbsentStays(Next(w, steps[0]), thread, steps[1..], w');
    }
  }

  /** In any run in which a thread was released, it neither holds nor waits afterwards, until one of its own
      deferred lock events runs. */
  lemma {:induction false} AbsentAfterRelease(w: World, thread: ThreadId, steps: seq<Step>, i: nat, w': World)
    requires Run(w, steps, w') && i < |steps| && steps[i] == DoReleaseAll(thread)
    requires forall j :: i < j < |steps| ==> !OfThread(steps[j], thread)
    ensures Absent(w'.resources, thread)
    decreases i
  {
    var rest := steps[1..];
    if i == 0 {
      ReleasedIsAbsent(w, thread);
      AbsentStays(Next(w, steps[0]), thread, rest, w');
    } else {
      assert rest[i - 1] == steps[i];
      AbsentAfterRelease(Next(w, steps[0]), thread, rest, i - 1, w');
    }
  }
}
