/**
 * The lock manager of the parent process: one holder and a queue of waiting requests per resource.
 *
 * Sending a grant to a thread is an effect; the answer comes back later through OnReply.
 */
module Locks {
  import opened Wrappers

  type ThreadId = string
  type LockId = string
  type ResourceId = string

  /** Who asked, under which lock id. */
  datatype Request = Request(thread: ThreadId, lock: LockId)
  datatype Resource = Resource(holder: Option<Request>, waiting: seq<Request>)
  datatype Grant = Grant(request: Request, resource: ResourceId)
  type Resources = map<ResourceId, Resource>

  const IDLE := Resource(None, [])

  function Find(rs: Resources, id: ResourceId): Resource {
    if id in rs then rs[id] else IDLE
  }

  predicate CanServe(r: Resource) {
    r.holder.None? && r.waiting != []
  }

  /** A free resource goes to the first in the queue. */
  function Served(r: Resource): Resource {
    if CanServe(r) then Resource(Some(r.waiting[0]), r.waiting[1..]) else r
  }

  function GrantFor(r: Resource, id: ResourceId): set<Grant> {
    if CanServe(r) then {Grant(r.waiting[0], id)} else {}
  }

  function Freed(r: Resource, request: Request): Resource {
    if r.holder == Some(request) then r.(holder := None) else r
  }

  function Without(waiting: seq<Request>, thread: ThreadId): (left: seq<Request>)
    ensures forall q :: q in left <==> q in waiting && q.thread != thread
  {
    if waiting == [] then []
    else if waiting[0].thread == thread then Without(waiting[1..], thread)
    else [waiting[0]] + Without(waiting[1..], thread)
  }

  predicate HeldBy(r: Resource, thread: ThreadId) {
    r.holder.Some? && r.holder.value.thread == thread
  }

  /** A resource without a thread, before anyone is served. */
  function Cleared(r: Resource, thread: ThreadId): Resource {
    Resource(if HeldBy(r, thread) then None else r.holder, Without(r.waiting, thread))
  }

  function Released(r: Resource, thread: ThreadId): Resource {
    if HeldBy(r, thread) then Served(Cleared(r, thread)) else Cleared(r, thread)
  }

  function ReleaseGrants(r: Resource, id: ResourceId, thread: ThreadId): set<Grant> {
    if HeldBy(r, thread) then GrantFor(Cleared(r, thread), id) else {}
  }

  function AllReleased(rs: Resources, thread: ThreadId): Resources {
    map id | id in rs :: Released(rs[id], thread)
  }

  function AllReleaseGrants(rs: Resources, thread: ThreadId): (grants: set<Grant>)
    ensures forall g :: g in grants <==> g.resource in rs && g in ReleaseGrants(rs[g.resource], g.resource, thread)
  {
    set id, g | id in rs && g in ReleaseGrants(rs[id], id, thread) :: g
  }

  /** A free resource has gone to the first of those who wait for it, if anyone does, by the one grant sent. */
  predicate Passed(before: Resources, after: Resources, id: ResourceId, waiting: seq<Request>, grants: set<Grant>) {
    if waiting == [] then after == before[id := Resource(None, [])] && grants == {}
    else after == before[id := Resource(Some(waiting[0]), waiting[1..])] && grants == {Grant(waiting[0], id)}
  }

  class LocksManager {
    var resources: Resources

    constructor ()
      ensures resources == map[]
    {
      resources := map[];
    }

    method GetResource(id: ResourceId) returns (r: Resource)
      modifies this
      ensures r == Find(old(resources), id) && resources == old(resources)[id := r]
    {
      if id !in resources {
        resources := resources[id := IDLE];
      }
      r := resources[id];
    }

    method LockNextWorker(id: ResourceId) returns (grants: set<Grant>)
      requires id in resources
      modifies this
      ensures resources == old(resources)[id := Served(old(resources)[id])]
      ensures grants == GrantFor(old(resources)[id], id)
      ensures var r := old(resources)[id];
              if r.holder.None? then Passed(old(resources), resources, id, r.waiting, grants)
              else resources == old(resources) && grants == {}
    {
      grants := {};
      var r := resources[id];
      if r.holder.None? && r.waiting != [] {
        var next := r.waiting[0];
        resources := resources[id := Resource(Some(next), r.waiting[1..])];
        grants := {Grant(next, id)};
      }
    }

    /** A lock event, once its deferral is over. */
    method OnLock(request: Request, id: ResourceId) returns (grants: set<Grant>)
      modifies this
      ensures var r := Find(old(resources), id); var queued := r.(waiting := r.waiting + [request]);
              resources == old(resources)[id := Served(queued)] && grants == GrantFor(queued, id)
      ensures var r := Find(old(resources), id);
              if r.holder.None? then Passed(old(resources), resources, id, r.waiting + [request], grants)
              else resources == old(resources)[id := Resource(r.holder, r.waiting + [request])] && grants == {}
    {
      var r := GetResource(id);
      resources := resources[id := r.(waiting := r.waiting + [request])];
      grants := LockNextWorker(id);
    }

    /** An unlock event, once its deferral is over; only the holder is let go, and the first in the queue is the
        next holder. */
    method OnUnlock(request: Request, id: ResourceId) returns (grants: set<Grant>)
      modifies this
      ensures var freed := Freed(Find(old(resources), id), request);
              resources == old(resources)[id := Served(freed)] && grants == GrantFor(freed, id)
      ensures var r := Find(old(resources), id);
              if r.holder.None? || r.holder == Some(request)
              then Passed(old(resources), resources, id, r.waiting, grants)
              else resources == old(resources)[id := r] && grants == {}
    {
      var r := GetResource(id);
      if r.holder == Some(request) {
        resources := resources[id := r.(holder := None)];
      }
      grants := LockNextWorker(id);
    }

    /** The answer to a grant: a refusal frees the resource if it is still held under that very request. */
    method OnReply(grant: Grant, success: bool) returns (grants: set<Grant>)
      requires grant.resource in resources
      modifies this
      ensures var r := old(resources)[grant.resource];
              var refused := !success && r.holder == Some(grant.request);
              && resources == (if refused then old(resources)[grant.resource := Served(Freed(r, grant.request))]
                  else old(resources))
              && grants == (if refused then GrantFor(Freed(r, grant.request), grant.resource) else {})
      ensures var r := old(resources)[grant.resource];
              if !success && r.holder == Some(grant.request)
              then Passed(old(resources), resources, grant.resource, r.waiting, grants)
              else resources == old(resources) && grants == {}
    {
      grants := {};
      if !success {
        var r := resources[grant.resource];
        if r.holder == Some(grant.request) {
          resources := resources[grant.resource := r.(holder := None)];
          grants := LockNextWorker(grant.resource);
        }
      }
    }

    method ReleaseOne(id: ResourceId, thread: ThreadId) returns (grants: set<Grant>)
      requires id in resources
      modifies this
      ensures resources == old(resources)[id := Released(old(resources)[id], thread)]
      ensures grants == ReleaseGrants(old(resources)[id], id, thread)
    {
      grants := {};
      var r := resources[id];
      if r.waiting != [] {
        r := r.(waiting := Without(r.waiting, thread));
        resources := resources[id := r];
      }
      if HeldBy(r, thread) {
        resources := resources[id := r.(holder := None)];
        grants := LockNextWorker(id);
      }
    }

    /** Drops a thread from every queue and from every lock it holds. */
    method ReleaseAllForThread(thread: ThreadId) returns (grants: set<Grant>)
      modifies this
      ensures resources == AllReleased(old(resources), thread)
      ensures grants == AllReleaseGrants(old(resources), thread)
      ensures resources.Keys == old(resources).Keys && forall id :: id in resources ==>
                var r, left := old(resources)[id], Without(old(resources)[id].waiting, thread);
                if !HeldBy(r, thread) then resources[id] == Resource(r.holder, left)
                else if left == [] then resources[id] == Resource(None, [])
                else resources[id] == Resource(Some(left[0]), left[1..]) && Grant(left[0], id) in grants
    {
      grants := {};
      var todo := resources.Keys;
      while todo != {}
        invariant resources.Keys == old(resources).Keys && todo <= resources.Keys
        invariant forall id :: id in resources && id in todo ==> resources[id] == old(resources)[id]
        invariant forall id :: id in resources && id !in todo ==> resources[id] == Released(old(resources)[id], thread)
        invariant forall g :: g in grants <==>
                    g.resource in resources && g.resource !in todo &&
                        g in ReleaseGrants(old(resources)[g.resource], g.resource, thread)
      {
        var id :| id in todo;
        var more := ReleaseOne(id, thread);
        grants := grants + more;
        todo := todo - {id};
      }
    }
  }
}
