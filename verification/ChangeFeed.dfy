/**
 * The ref-counted change feed of one collection.
 *
 * The class carries the private fields of the original and updates them in place.  Everything it does
 * to the outside world (asking for a stream, closing one, arming the backoff timer, calling a
 * subscriber) is returned as a list of effects.  Each method is tied to a function on feed states, and
 * those functions are what the protocol in ChangeFeedWorld runs.
 */
module ChangeFeed {
  import opened Wrappers

  type StreamId = nat
  type SubscriberId = nat

  /** What one call of the stream factory did: threw, returned a stream, or returned a promise of one. */
  datatype Created = Throws | Immediately(stream: StreamId) | Promised

  datatype Effect =
    | Create
    | Close(stream: StreamId)
    | ArmTimer
    | ClearTimer
    | Resync(subscriber: SubscriberId)
    | Change(subscriber: SubscriberId)
    | Empty

  datatype FeedState = FeedState(
    stream: Option<StreamId>,
    pendingStart: bool,
    stopped: bool,
    restartTimeout: bool,
    subscribers: seq<SubscriberId>)
  {
    /** The feed is still in use: it must be streaming, or on its way to it. */
    predicate Live() {
      !stopped && subscribers != []
    }

    /** Exactly one of: open stream, pending open, armed restart timer. */
    predicate OneWayForward() {
      || (stream.Some? && !pendingStart && !restartTimeout)
      || (stream.None? && pendingStart && !restartTimeout)
      || (stream.None? && !pendingStart && restartTimeout)
    }
  }

  const INITIAL := FeedState(None, false, false, false, [])

  function Resyncs(subscribers: seq<SubscriberId>): (r: seq<Effect>)
    ensures |r| == |subscribers|
    ensures forall i :: 0 <= i < |r| ==> r[i] == Resync(subscribers[i])
  {
    seq(|subscribers|, i requires 0 <= i < |subscribers| => Resync(subscribers[i]))
  }

  function Changes(subscribers: seq<SubscriberId>): (r: seq<Effect>)
    ensures |r| == |subscribers|
    ensures forall i :: 0 <= i < |r| ==> r[i] == Change(subscribers[i])
  {
    seq(|subscribers|, i requires 0 <= i < |subscribers| => Change(subscribers[i]))
  }

  function Closing(stream: Option<StreamId>): seq<Effect> {
    if stream.Some? then [Close(stream.value)] else []
  }

  function Without(subscribers: seq<SubscriberId>, s: SubscriberId): (r: seq<SubscriberId>)
    ensures forall t :: t in r <==> t in subscribers && t != s
  {
    if subscribers == [] then []
    else if subscribers[0] == s then Without(subscribers[1..], s)
    else [subscribers[0]] + Without(subscribers[1..], s)
  }

  function Attach(f: FeedState, stream: StreamId): (FeedState, seq<Effect>) {
    if f.stopped || f.subscribers == [] then
      (f, [Close(stream)])
    else
      (f.(stream := Some(stream)), Resyncs(f.subscribers))
  }

  function ScheduleRestart(f: FeedState): (FeedState, seq<Effect>) {
    var dropped := f.(stream := None);
    if f.stopped || f.subscribers == [] || f.restartTimeout then
      (dropped, Closing(f.stream))
    else
      (dropped.(restartTimeout := true), Closing(f.stream) + [ArmTimer])
  }

  function Start(f: FeedState, created: Created): (FeedState, seq<Effect>) {
    var (f', effects) :=
      match created
      case Throws => ScheduleRestart(f)
      case Promised => (f.(pendingStart := true), [])
      case Immediately(stream) => Attach(f, stream);
    (f', [Create] + effects)
  }

  function Subscribe(f: FeedState, s: SubscriberId, created: Created): (FeedState, seq<Effect>) {
    var joined := f.(subscribers := f.subscribers + [s]);
    if f.stream.None? && !f.pendingStart && !f.restartTimeout && !f.stopped then
      Start(joined, created)
    else if f.stream.Some? then
      (joined, [Resync(s)])
    else
      (joined, [])
  }

  function StopStream(f: FeedState): (FeedState, seq<Effect>) {
    (f.(stopped := true, restartTimeout := false, stream := None),
     (if f.restartTimeout then [ClearTimer] else []) + Closing(f.stream))
  }

  function Stop(f: FeedState, s: SubscriberId): (FeedState, seq<Effect>) {
    if s !in f.subscribers then
      (f, [])
    else
      var left := f.(subscribers := Without(f.subscribers, s));
      if left.subscribers == [] then
        var (f', effects) := StopStream(left);
        (f', effects + [Empty])
      else
        (left, [])
  }

  function Resolve(f: FeedState, stream: StreamId): (FeedState, seq<Effect>) {
    Attach(f.(pendingStart := false), stream)
  }

  function Reject(f: FeedState): (FeedState, seq<Effect>) {
    ScheduleRestart(f.(pendingStart := false))
  }

  function FireTimer(f: FeedState, created: Created): (FeedState, seq<Effect>) {
    var fired := f.(restartTimeout := false);
    if !f.stopped && f.subscribers != [] && f.stream.None? then
      Start(fired, created)
    else
      (fired, [])
  }

  /******* What follows from these *******/

  /** Stopping a handle twice is stopping it once. */
  lemma StopTwice(f: FeedState, s: SubscriberId)
    ensures Stop(Stop(f, s).0, s) == (Stop(f, s).0, [])
  {
  }

  /** The last handle to stop, and no other, ends the feed: no stream and no timer are left, the stream there
      was is closed and the timer there was is cleared, and the feed reports that it is empty. */
  lemma LastStopEndsTheFeed(f: FeedState, s: SubscriberId)
    requires !f.stopped
    ensures var (f', effects) := Stop(f, s);
            var last := s in f.subscribers && forall t :: t in f.subscribers ==> t == s;
            && (f'.stopped <==> last) && (Empty in effects <==> last)
            && (last ==> f'.subscribers == [] && f'.stream.None? && !f'.restartTimeout)
            && (forall c: StreamId :: Close(c) in effects <==> last && f.stream == Some(c))
            && (ClearTimer in effects <==> last && f.restartTimeout)
            && (!last ==> f' == f.(subscribers := f'.subscribers) && s !in f'.subscribers)
  {
    var left := Without(f.subscribers, s);
    assert left != [] ==> left[0] in left;
    if s in f.subscribers && left == [] {
      forall t | t in f.subscribers ensures t == s {
        assert t != s ==> t in left;
      }
    }
    if s !in f.subscribers { assert Without(f.subscribers, s) == f.subscribers by { NobodyLeaves(f.subscribers, s); } }
  }

  /** Who stays keeps its place. */
  lemma OthersStay(f: FeedState, before: seq<SubscriberId>, s: SubscriberId, after: seq<SubscriberId>)
    requires f.subscribers == before + [s] + after && s !in before && s !in after
    ensures Stop(f, s).0.subscribers == before + after
  {
    WithoutJoined(before + [s], after, s);
    WithoutJoined(before, [s], s);
    NobodyLeaves(before, s);
    NobodyLeaves(after, s);
    assert Without([s], s) == [] && before + [] == before;
  }

  lemma {:induction false} WithoutJoined(a: seq<SubscriberId>, b: seq<SubscriberId>, s: SubscriberId)
    ensures Without(a + b, s) == Without(a, s) + Without(b, s)
  {
    if a == [] {
      assert [] + b == b && [] + Without(b, s) == Without(b, s);
    } else {
      assert (a + b)[0] == a[0] && (a + b)[1..] == a[1..] + b;
      WithoutJoined(a[1..], b, s);
      Associative([a[0]], Without(a[1..], s), Without(b, s));
    }
  }

  lemma {:induction false} NobodyLeaves(subscribers: seq<SubscriberId>, s: SubscriberId)
    requires s !in subscribers
    ensures Without(subscribers, s) == subscribers
  {
    if subscribers != [] {
      assert subscribers[0] in subscribers;
      NobodyLeaves(subscribers[1..], s);
    }
  }

  /** A second failure has no further effect until the timer fires or a stream is attached. */
  lemma RestartTwice(f: FeedState)
    ensures ScheduleRestart(ScheduleRestart(f).0) == (ScheduleRestart(f).0, [])
    ensures var (f', effects) := ScheduleRestart(f);
            && (ArmTimer in effects <==> !f.restartTimeout && !f.stopped && f.subscribers != [])
            && f'.stream.None? && (forall c: StreamId :: Close(c) in effects <==> f.stream == Some(c))
  {
  }

  /** A stream is asked for when nothing else is under way, and never by a feed that is stopped. */
  lemma CreatedOnlyWhenIdle(f: FeedState, s: SubscriberId, created: Created)
    ensures Create in Subscribe(f, s, created).1 <==>
            f.stream.None? && !f.pendingStart && !f.restartTimeout && !f.stopped
    ensures Create in FireTimer(f, created).1 <==> !f.stopped && f.subscribers != [] && f.stream.None?
  {
    assert Start(f.(subscribers := f.subscribers + [s]), created).1[0] == Create;
    assert Start(f.(restartTimeout := false), created).1[0] == Create;
  }

  /** A newcomer resyncs at once when a stream is open, or opens at once; otherwise when one is attached. */
  lemma NewcomerResyncs(f: FeedState, s: SubscriberId, created: Created)
    requires s !in f.subscribers && !f.stopped
    ensures var (f', effects) := Subscribe(f, s, created);
            && s in f'.subscribers
            && (Resync(s) in effects <==> f'.stream.Some?)
            && forall stream :: Resync(s) in Attach(f', stream).1
  {
    var f' := Subscribe(f, s, created).0;
    var k := |f.subscribers|;
    var joined := f.subscribers + [s];
    assert joined[k] == s && Resyncs(joined)[k] == Resync(s);
    if f.stream.Some? {
      assert Subscribe(f, s, created).1[0] == Resync(s);
    } else if !f.pendingStart && !f.restartTimeout && created.Immediately? {
      assert Subscribe(f, s, created).1[k + 1] == Resync(s);
    }
    forall stream ensures Resync(s) in Attach(f', stream).1 {
      assert Attach(f', stream).1[k] == Resync(s);
    }
  }

  class CollectionChangeFeed {
    var stream: Option<StreamId>
    var pendingStart: bool
    var stopped: bool
    var restartTimeout: bool
    var subscribers: seq<SubscriberId>

    ghost function State(): FeedState
      reads this
    {
      FeedState(stream, pendingStart, stopped, restartTimeout, subscribers)
    }

    constructor ()
      ensures State() == INITIAL
    {
      stream, pendingStart, stopped, restartTimeout, subscribers := None, false, false, false, [];
    }

    /** A call makes a fresh subscriber object, so s is new to the set. */
    method SubscribeTo(s: SubscriberId, created: Created) returns (effects: seq<Effect>)
      requires s !in subscribers
      modifies this
      ensures (State(), effects) == Subscribe(old(State()), s, created)
    {
      subscribers := subscribers + [s];
      effects := [];
      if stream.None? && !pendingStart && !restartTimeout && !stopped {
        effects := StartStream(created);
      } else if stream.Some? {
        effects := [Resync(s)];
      }
    }

    /** The stop of a subscription handle.  Only that handle ever removes its subscriber, so its own
        already-stopped flag is the same as s having left the set. */
    method StopHandle(s: SubscriberId) returns (effects: seq<Effect>)
      modifies this
      ensures (State(), effects) == Stop(old(State()), s)
    {
      if s !in subscribers { return []; }
      subscribers := Without(subscribers, s);
      effects := [];
      if subscribers == [] {
        effects := StopCurrentStream();
        effects := effects + [Empty];
      }
    }

    method StartStream(created: Created) returns (effects: seq<Effect>)
      modifies this
      ensures (State(), effects) == Start(old(State()), created)
    {
      match created {
        case Throws =>
          effects := DropAndRestart();
        case Promised =>
          pendingStart := true;
          effects := [];
        case Immediately(s) =>
          effects := AttachStream(s);
      }
      effects := [Create] + effects;
    }

    /** The promise of the factory was fulfilled. */
    method OnResolved(s: StreamId) returns (effects: seq<Effect>)
      modifies this
      ensures (State(), effects) == Resolve(old(State()), s)
    {
      pendingStart := false;
      effects := AttachStream(s);
    }

    /** The promise of the factory was rejected. */
    method OnRejected() returns (effects: seq<Effect>)
      modifies this
      ensures (State(), effects) == Reject(old(State()))
    {
      pendingStart := false;
      effects := DropAndRestart();
    }

    method AttachStream(s: StreamId) returns (effects: seq<Effect>)
      modifies this
      ensures (State(), effects) == Attach(old(State()), s)
    {
      if stopped || subscribers == [] {
        return [Close(s)];
      }
      stream := Some(s);
      effects := [];
      for i := 0 to |subscribers|
        invariant effects == Resyncs(subscribers[..i])
      {
        effects := effects + [Resync(subscribers[i])];
      }
      assert subscribers[..|subscribers|] == subscribers;
    }

    /** A change event: every subscriber of the moment is called, in order. */
    method OnChange() returns (effects: seq<Effect>)
      ensures effects == Changes(subscribers)
    {
      effects := [];
      for i := 0 to |subscribers|
        invariant effects == Changes(subscribers[..i])
      {
        effects := effects + [Change(subscribers[i])];
      }
      assert subscribers[..|subscribers|] == subscribers;
    }

    /** An error or end event of a stream, or a failed attempt to get one. */
    method DropAndRestart() returns (effects: seq<Effect>)
      modifies this
      ensures (State(), effects) == ScheduleRestart(old(State()))
    {
      effects := Closing(stream);
      stream := None;
      if stopped || subscribers == [] || restartTimeout { return; }
      restartTimeout := true;
      effects := effects + [ArmTimer];
    }

    method OnTimer(created: Created) returns (effects: seq<Effect>)
      modifies this
      ensures (State(), effects) == FireTimer(old(State()), created)
    {
      restartTimeout := false;
      effects := [];
      if !stopped && subscribers != [] && stream.None? {
        effects := StartStream(created);
      }
    }

    method StopCurrentStream() returns (effects: seq<Effect>)
      modifies this
      ensures (State(), effects) == StopStream(old(State()))
    {
      stopped := true;
      effects := if restartTimeout then [ClearTimer] else [];
      restartTimeout := false;
      effects := effects + Closing(stream);
      stream := None;
    }
  }
}
