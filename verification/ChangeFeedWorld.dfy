/**
 * The change feed inside its world: a collection that is written to, streams that are opened, deliver
 * and fail, and observers that snapshot and apply events from a serial task queue.
 *
 * A run is any sequence of enabled steps, so every interleaving is covered.
 */
module ChangeFeedWorld {
  import opened Wrappers
  import opened ChangeFeed

  type DocId = nat
  type Doc = int

  /** One write to the collection; None is a delete. */
  datatype Write = Write(id: DocId, doc: Option<Doc>)

  /** A pending open: the operation time is captured first, the cursor comes later. */
  datatype Phase = Requested | Captured(resume: nat)

  /** What the factory does when it is called. */
  datatype Opening = Fails | Now(resume: nat) | Later

  /** The serial queue of an observer: snapshots still to be read, a snapshot read (at log position upTo),
      and change events (of the write at position index, with the document looked up for it). */
  datatype Task =
    | Sync
    | Loaded(docs: map<DocId, Doc>, upTo: nat, below: nat)
    | Event(index: nat, id: DocId, doc: Option<Doc>)

  /** Events below discardBelow are older than the latest snapshot and are thrown away. */
  datatype Observer = Observer(view: map<DocId, Doc>, queue: seq<Task>, discardBelow: nat)

  datatype World = World(
    feed: FeedState,
    log: seq<Write>,
    opens: map<StreamId, Phase>,
    cursors: map<StreamId, nat>,     // every stream ever obtained, with its next log position
    closed: set<StreamId>,
    nextId: nat,
    observers: map<SubscriberId, Observer>)

  datatype Step =
    | DoWrite(write: Write)
    | DoSubscribe(s: SubscriberId, opening: Opening)
    | DoStop(s: SubscriberId)
    | DoCapture(stream: StreamId, resume: nat)
    | DoResolve(stream: StreamId)
    | DoReject(stream: StreamId)
    | DoTimer(opening: Opening)
    | DoDeliver(stream: StreamId, lookup: nat)
    | DoFail(stream: StreamId)
    | DoRead(s: SubscriberId, below: nat)
    | DoApply(s: SubscriberId)

  const START := World(INITIAL, [], map[], map[], {}, 0, map[])

  /******* The collection *******/

  function Lookup(log: seq<Write>, id: DocId): Option<Doc> {
    if log == [] then None
    else
      var last := log[|log| - 1];
      if last.id == id then last.doc else Lookup(log[..|log| - 1], id)
  }

  function Put(view: map<DocId, Doc>, id: DocId, doc: Option<Doc>): map<DocId, Doc> {
    match doc
    case Some(d) => view[id := d]
    case None => view - {id}
  }

  function Get(view: map<DocId, Doc>, id: DocId): Option<Doc> {
    if id in view then Some(view[id]) else None
  }

  function Contents(log: seq<Write>): map<DocId, Doc> {
    if log == [] then map[]
    else
      var last := log[|log| - 1];
      Put(Contents(log[..|log| - 1]), last.id, last.doc)
  }

  lemma {:induction false} ContentsIsLookup(log: seq<Write>, id: DocId)
    ensures Get(Contents(log), id) == Lookup(log, id)
  {
    if log != [] {
      ContentsIsLookup(log[..|log| - 1], id);
    }
  }

  /** A document does not change between two positions that enclose no write to it. */
  lemma {:induction false} LookupStable(log: seq<Write>, id: DocId, a: nat, b: nat)
    requires a <= b <= |log|
    requires forall j :: a <= j < b ==> log[j].id != id
    ensures Lookup(log[..a], id) == Lookup(log[..b], id)
  {
    if a < b {
      assert log[..b][..b - 1] == log[..b - 1];
      LookupStable(log, id, a, b - 1);
    }
  }

  /******* Steps *******/

  function Answer(opening: Opening, id: StreamId): Created {
    match opening
    case Fails => Throws
    case Now(_) => Immediately(id)
    case Later => Promised
  }

  /** The stream or the pending open that a call of the factory leaves behind. */
  function Registered(w: World, opening: Opening): World {
    match opening
    case Fails => w
    case Now(resume) => w.(cursors := w.cursors[w.nextId := resume], nextId := w.nextId + 1)
    case Later => w.(opens := w.opens[w.nextId := Requested], nextId := w.nextId + 1)
  }

  function Notified(o: Observer, s: SubscriberId, effects: seq<Effect>, event: Option<Task>): Observer {
    if Resync(s) in effects then o.(queue := o.queue + [Sync])
    else if Change(s) in effects && event.Some? then o.(queue := o.queue + [event.value])
    else o
  }

  function Settle(w: World, result: (FeedState, seq<Effect>), opening: Opening, event: Option<Task>): World {
    var (feed, effects) := result;
    var w1 := if Create in effects then Registered(w, opening) else w;
    w1.(feed := feed,
        closed := w1.closed + (set c | c in w1.cursors && Close(c) in effects),
        observers := map s | s in w1.observers :: Notified(w1.observers[s], s, effects, event))
  }

  predicate Enabled(w: World, step: Step) {
    match step
    case DoWrite(_) => true
    case DoSubscribe(s, opening) => s !in w.observers && (opening.Now? ==> opening.resume <= |w.log|)
    case DoStop(_) => true
    case DoCapture(c, resume) => c in w.opens && w.opens[c].Requested? && resume <= |w.log|
    case DoResolve(c) => c in w.opens && w.opens[c].Captured?
    case DoReject(c) => c in w.opens
    case DoTimer(opening) => w.feed.restartTimeout && (opening.Now? ==> opening.resume <= |w.log|)
    // a closed stream delivers no more changes
    case DoDeliver(c, lookup) =>
      w.feed.stream == Some(c) && c in w.cursors && w.cursors[c] < lookup <= |w.log|
    // error and end may come from any stream there ever was, however late
    case DoFail(c) => c in w.cursors
    case DoRead(s, below) =>
      s in w.observers && w.observers[s].queue != [] && w.observers[s].queue[0].Sync? && below <= |w.log|
    case DoApply(s) =>
      s in w.observers && w.observers[s].queue != [] && !w.observers[s].queue[0].Sync?
  }

  function Applied(o: Observer): Observer
    requires o.queue != [] && !o.queue[0].Sync?
  {
    match o.queue[0]
    case Loaded(docs, _, below) => Observer(docs, o.queue[1..], below)
    case Event(index, id, doc) =>
      if index < o.discardBelow then o.(queue := o.queue[1..])
      else o.(queue := o.queue[1..], view := Put(o.view, id, doc))
  }

  function Next(w: World, step: Step): World
    requires Enabled(w, step)
  {
    match step
    case DoWrite(write) =>
      w.(log := w.log + [write])
    case DoSubscribe(s, opening) =>
      Settle(w.(observers := w.observers[s := Observer(map[], [Sync], 0)]),
             Subscribe(w.feed, s, Answer(opening, w.nextId)), opening, None)
    case DoStop(s) =>
      Settle(w, Stop(w.feed, s), Fails, None)
    case DoCapture(c, resume) =>
      w.(opens := w.opens[c := Captured(resume)])
    case DoResolve(c) =>
      Settle(w.(opens := w.opens - {c}, cursors := w.cursors[c := w.opens[c].resume]),
             Resolve(w.feed, c), Fails, None)
    case DoReject(c) =>
      Settle(w.(opens := w.opens - {c}), Reject(w.feed), Fails, None)
    case DoTimer(opening) =>
      Settle(w, FireTimer(w.feed, Answer(opening, w.nextId)), opening, None)
    case DoDeliver(c, lookup) =>
      var index := w.cursors[c];
      Settle(w.(cursors := w.cursors[c := index + 1]), (w.feed, Changes(w.feed.subscribers)), Fails,
             Some(Event(index, w.log[index].id, Lookup(w.log[..lookup], w.log[index].id))))
    case DoFail(c) =>
      Settle(w, ScheduleRestart(w.feed), Fails, None)
    case DoRead(s, below) =>
      var o := w.observers[s];
      w.(observers := w.observers[s := o.(queue := [Loaded(Contents(w.log), |w.log|, below)] + o.queue[1..])])
    case DoApply(s) =>
      w.(observers := w.observers[s := Applied(w.observers[s])])
  }

  ghost predicate Run(w: World, steps: seq<Step>, w': World)
    decreases |steps|
  {
    if steps == [] then w' == w
    else Enabled(w, steps[0]) && Run(Next(w, steps[0]), steps[1..], w')
  }

  /** The one thing asked of the driver: a stream that is no longer current does not report an error or
      end while the feed in use is waiting for another open. */
  predicate Quiet(w: World, step: Step) {
    step.DoFail? ==> w.feed.stream == Some(step.stream) || !w.feed.pendingStart || !w.feed.Live()
  }

  ghost predicate QuietRun(w: World, steps: seq<Step>, w': World)
    decreases |steps|
  {
    if steps == [] then w' == w
    else Enabled(w, steps[0]) && Quiet(w, steps[0]) && QuietRun(Next(w, steps[0]), steps[1..], w')
  }

  /******* Liveness of the feed, and no leak *******/

  ghost predicate Plumbed(w: World) {
    && (w.feed.Live() ==> w.feed.OneWayForward())
    && (!w.feed.Live() ==> w.feed.stream.None? && !w.feed.restartTimeout)
    && (!w.feed.Live() && !w.feed.stopped ==> !w.feed.pendingStart)
    && (w.feed.pendingStart <==> exists c :: c in w.opens)
    && (forall c, d :: c in w.opens && d in w.opens ==> c == d)
    && (forall c :: c in w.cursors ==> c in w.closed || w.feed.stream == Some(c))
    && (w.feed.stream.Some? ==>
          w.feed.stream.value in w.cursors && w.feed.stream.value !in w.closed)
    && (forall c :: c in w.opens || c in w.cursors || c in w.closed ==> c < w.nextId)
    && (forall c :: c in w.opens ==> c !in w.cursors && c !in w.closed)
    && (forall s :: s in w.feed.subscribers ==> s in w.observers)
    && (forall c :: c in w.opens && w.opens[c].Captured? ==> w.opens[c].resume <= |w.log|)
    && (forall c :: c in w.cursors ==> w.cursors[c] <= |w.log|)
  }

  lemma PlumbedStart(w: World, result: (FeedState, seq<Effect>), opening: Opening)
    requires Plumbed(w) && forall c :: c !in w.opens
    requires opening.Now? ==> opening.resume <= |w.log|
    requires w.feed.stream.None? && !w.feed.stopped && w.feed.subscribers != []
    requires result == Start(w.feed.(restartTimeout := false), Answer(opening, w.nextId))
    ensures Plumbed(Settle(w, result, opening, None))
  {
    var w' := Settle(w, result, opening, None);
    assert result.1[0] == Create;
    match opening {
      case Later => assert w.nextId in w'.opens;
      case _ => assert forall c :: c !in w'.opens;
    }
  }

  lemma PlumbedSubscribe(w: World, step: Step)
    requires Plumbed(w) && Enabled(w, step) && step.DoSubscribe?
    ensures Plumbed(Next(w, step))
  {
    if w.feed.stream.None? && !w.feed.pendingStart && !w.feed.restartTimeout && !w.feed.stopped {
      PlumbedFirst(w, step);
    } else {
      PlumbedJoined(w, step);
    }
  }

  lemma PlumbedFirst(w: World, step: Step)
    requires Plumbed(w) && Enabled(w, step) && step.DoSubscribe?
    requires w.feed.stream.None? && !w.feed.pendingStart && !w.feed.restartTimeout && !w.feed.stopped
    ensures Plumbed(Next(w, step))
  {
    var s := step.s;
    var w1 := w.(observers := w.observers[s := Observer(map[], [Sync], 0)]);
    var joined := w.feed.(subscribers := w.feed.subscribers + [s]);
    assert forall c :: c !in w.opens;
    var w2 := w1.(feed := joined.(restartTimeout := true));
    assert Plumbed(w2);
    PlumbedStart(w2, Start(joined, Answer(step.opening, w.nextId)), step.opening);
  }

  lemma PlumbedJoined(w: World, step: Step)
    requires Plumbed(w) && Enabled(w, step) && step.DoSubscribe?
    requires w.feed.stream.Some? || w.feed.pendingStart || w.feed.restartTimeout || w.feed.stopped
    ensures Plumbed(Next(w, step))
  {
    var w' := Next(w, step);
    assert w'.opens == w.opens && w'.cursors == w.cursors && w'.closed == w.closed && w'.log == w.log;
    assert w'.feed == w.feed.(subscribers := w.feed.subscribers + [step.s]);
    assert w'.observers.Keys == w.observers.Keys + {step.s};
  }

  lemma PlumbedTimer(w: World, step: Step)
    requires Plumbed(w) && Enabled(w, step) && step.DoTimer?
    ensures Plumbed(Next(w, step))
  {
    assert forall c :: c !in w.opens;
    PlumbedStart(w, FireTimer(w.feed, Answer(step.opening, w.nextId)), step.opening);
  }

  lemma PlumbedOpening(w: World, step: Step)
    requires Plumbed(w) && Enabled(w, step) && (step.DoCapture? || step.DoResolve? || step.DoReject?)
    ensures Plumbed(Next(w, step))
  {
    if step.DoCapture? {
      assert step.stream in Next(w, step).opens;
    }
  }

  lemma PlumbedClosing(w: World, step: Step)
    requires Plumbed(w) && Enabled(w, step) && Quiet(w, step) && (step.DoStop? || step.DoFail?)
    ensures Plumbed(Next(w, step))
  {
  }

  lemma PlumbedObserving(w: World, step: Step)
    requires Plumbed(w) && Enabled(w, step)
    requires step.DoWrite? || step.DoDeliver? || step.DoRead? || step.DoApply?
    ensures Plumbed(Next(w, step))
  {
  }

  lemma PlumbedNext(w: World, step: Step)
    requires Plumbed(w) && Enabled(w, step) && Quiet(w, step)
    ensures Plumbed(Next(w, step))
  {
    match step {
      case DoSubscribe(_, _) => PlumbedSubscribe(w, step);
      case DoTimer(_) => PlumbedTimer(w, step);
      case DoCapture(_, _) => PlumbedOpening(w, step);
      case DoResolve(_) => PlumbedOpening(w, step);
      case DoReject(_) => PlumbedOpening(w, step);
      case DoStop(_) => PlumbedClosing(w, step);
      case DoFail(_) => PlumbedClosing(w, step);
      case _ => PlumbedObserving(w, step);
    }
  }

  /** What the assumption is for: over a late error or end, the feed keeps exactly one way forward if
      and only if the event is quiet. */
  lemma LateFailureExact(w: World, step: Step)
    requires Plumbed(w) && Enabled(w, step) && step.DoFail?
    ensures Plumbed(Next(w, step)) <==> Quiet(w, step)
  {
  }

  /** Once stopped, and whatever happens after: no stream, no timer, and every stream that a pending open
      still yields is closed at once. */
  ghost predicate ShutDown(w: World) {
    w.feed.stopped && w.feed.stream.None? && !w.feed.restartTimeout && forall c :: c in w.cursors ==> c in w.closed
  }

  lemma {:induction false} ShutDownStays(w: World, steps: seq<Step>, w': World)
    requires ShutDown(w) && Run(w, steps, w')
    ensures ShutDown(w')
    decreases |steps|
  {
    if steps != [] {
      ShutDownStays(Next(w, steps[0]), steps[1..], w');
    }
  }

  /** A feed that was stopped, at whatever point it had reached, stays shut down. */
  lemma StoppedForGood(before: seq<Step>, w: World, steps: seq<Step>, w': World)
    requires QuietRun(START, before, w) && w.feed.stopped && Run(w, steps, w')
    ensures ShutDown(w) && ShutDown(w')
  {
    QuietRunKeepsInvariants(START, before, w);
    ShutDownStays(w, steps, w');
  }

  /******* Gap-free convergence *******/

  predicate HasSync(queue: seq<Task>) {
    exists t :: t in queue && !t.Event?
  }

  predicate Carries(queue: seq<Task>, j: nat) {
    exists t :: t in queue && t.Event? && t.index == j
  }

  /** Either a snapshot is still to come, or every write the stream delivered from a position on is. */
  predicate Covered(queue: seq<Task>, cursor: nat, from: nat) {
    HasSync(queue) || forall j: nat :: from <= j < cursor ==> Carries(queue, j)
  }

  ghost predicate QueueCovered(queue: seq<Task>, cursor: nat) {
    if queue == [] then true
    else
      && (queue[0].Loaded? ==> Covered(queue[1..], cursor, queue[0].upTo))
      && (queue[0].Event? ==> Covered(queue[1..], cursor, queue[0].index + 1))
      && QueueCovered(queue[1..], cursor)
  }

  /** A write to the document that the observer has not processed yet but is going to. */
  predicate Outstanding(log: seq<Write>, cursor: nat, o: Observer, id: DocId) {
    exists j: nat :: j < |log| && log[j].id == id && o.discardBelow <= j && (cursor <= j || Carries(o.queue, j))
  }

  ghost predicate ViewCurrent(log: seq<Write>, cursor: nat, o: Observer) {
    HasSync(o.queue) || forall id :: Get(o.view, id) == Lookup(log, id) || Outstanding(log, cursor, o, id)
  }

  ghost predicate FromLog(log: seq<Write>, index: nat, id: DocId, doc: Option<Doc>) {
    && index < |log| && log[index].id == id
    && exists q: nat :: index < q <= |log| && doc == Lookup(log[..q], id)
  }

  ghost predicate TaskOk(log: seq<Write>, t: Task) {
    match t
    case Sync => true
    case Loaded(docs, upTo, below) => below <= upTo <= |log| && docs == Contents(log[..upTo])
    case Event(index, id, doc) => FromLog(log, index, id, doc)
  }

  ghost predicate ObserverOk(log: seq<Write>, o: Observer) {
    o.discardBelow <= |log| && forall t :: t in o.queue ==> TaskOk(log, t)
  }

  ghost predicate Flowing(log: seq<Write>, cursor: nat, o: Observer) {
    QueueCovered(o.queue, cursor) && ViewCurrent(log, cursor, o)
  }

  ghost predicate FlowingTo(w: World, s: SubscriberId)
    requires w.feed.stream.Some?
  {
    && w.feed.stream.value in w.cursors && s in w.observers
    && Flowing(w.log, w.cursors[w.feed.stream.value], w.observers[s])
  }

  ghost predicate ObserversOk(w: World) {
    forall s :: s in w.observers ==> ObserverOk(w.log, w.observers[s])
  }

  ghost predicate Consistent(w: World) {
    && ObserversOk(w)
    && (w.feed.stream.Some? ==> forall s :: s in w.feed.subscribers ==> FlowingTo(w, s))
  }

  lemma WriteKeepsObserver(log: seq<Write>, write: Write, o: Observer)
    requires ObserverOk(log, o)
    ensures ObserverOk(log + [write], o)
  {
    forall t | t in o.queue ensures TaskOk(log + [write], t) {
      assert TaskOk(log, t);
      if t.Loaded? {
        assert (log + [write])[..t.upTo] == log[..t.upTo];
      } else if t.Event? {
        var q: nat :| t.index < q <= |log| && t.doc == Lookup(log[..q], t.id);
        assert (log + [write])[..q] == log[..q];
      }
    }
  }

  lemma WriteKeepsFlow(log: seq<Write>, write: Write, cursor: nat, o: Observer)
    requires ObserverOk(log, o) && Flowing(log, cursor, o) && cursor <= |log|
    ensures Flowing(log + [write], cursor, o)
  {
    var log' := log + [write];
    assert log'[..|log|] == log;
    if !HasSync(o.queue) {
      forall id ensures Get(o.view, id) == Lookup(log', id) || Outstanding(log', cursor, o, id) {
        if id == write.id {
          assert log'[|log|].id == id;
        } else if Get(o.view, id) != Lookup(log, id) {
          var j: nat :| j < |log| && log[j].id == id && o.discardBelow <= j && (cursor <= j || Carries(o.queue, j));
          assert log'[j].id == id;
        }
      }
    }
  }

  lemma {:induction false} SyncCovers(queue: seq<Task>, cursor: nat)
    ensures QueueCovered(queue + [Sync], cursor) && HasSync(queue + [Sync])
  {
    assert (queue + [Sync])[|queue|] == Sync;
    if queue != [] {
      assert (queue + [Sync])[1..] == queue[1..] + [Sync];
      SyncCovers(queue[1..], cursor);
    }
  }

  lemma CarriesMore(queue: seq<Task>, t: Task)
    ensures HasSync(queue) ==> HasSync(queue + [t])
    ensures forall j: nat :: Carries(queue, j) ==> Carries(queue + [t], j)
    ensures t.Event? ==> Carries(queue + [t], t.index)
  {
    assert forall u :: u in queue ==> u in queue + [t];
    assert t in queue + [t];
  }

  lemma {:induction false} DeliverCovers(queue: seq<Task>, t: Task, cursor: nat)
    requires QueueCovered(queue, cursor) && t.Event? && t.index == cursor
    ensures QueueCovered(queue + [t], cursor + 1)
  {
    if queue == [] {
      assert (queue + [t])[1..] == [];
    } else {
      assert (queue + [t])[1..] == queue[1..] + [t];
      DeliverCovers(queue[1..], t, cursor);
      CarriesMore(queue[1..], t);
    }
  }

  lemma DeliverKeepsFlow(log: seq<Write>, cursor: nat, o: Observer, t: Task)
    requires Flowing(log, cursor, o) && t.Event? && t.index == cursor
    ensures Flowing(log, cursor + 1, o.(queue := o.queue + [t]))
  {
    var o' := o.(queue := o.queue + [t]);
    DeliverCovers(o.queue, t, cursor);
    CarriesMore(o.queue, t);
    if !HasSync(o'.queue) {
      forall id ensures Get(o'.view, id) == Lookup(log, id) || Outstanding(log, cursor + 1, o', id) {
        if Get(o.view, id) != Lookup(log, id) {
          var j: nat :| j < |log| && log[j].id == id && o.discardBelow <= j && (cursor <= j || Carries(o.queue, j));
          assert cursor + 1 <= j || Carries(o'.queue, j);
        }
      }
    }
  }

  lemma ReadKeepsFlow(log: seq<Write>, cursor: nat, o: Observer, below: nat)
    requires ObserverOk(log, o) && Flowing(log, cursor, o) && cursor <= |log| && below <= |log|
    requires o.queue != [] && o.queue[0].Sync?
    ensures var o' := o.(queue := [Loaded(Contents(log), |log|, below)] + o.queue[1..]);
            Flowing(log, cursor, o')
  {
    var o' := o.(queue := [Loaded(Contents(log), |log|, below)] + o.queue[1..]);
    assert o'.queue[1..] == o.queue[1..];
    assert o'.queue[0] in o'.queue;
  }

  /** Applying an event either leaves its document as it is in the collection, or a later write to the
      same document is still outstanding. */
  lemma EventSettles(log: seq<Write>, cursor: nat, o: Observer)
    requires ObserverOk(log, o) && Flowing(log, cursor, o)
    requires o.queue != [] && o.queue[0].Event? && o.discardBelow <= o.queue[0].index
    requires !HasSync(o.queue[1..])
    ensures var o' := Applied(o); var id := o.queue[0].id;
            Get(o'.view, id) == Lookup(log, id) || Outstanding(log, cursor, o', id)
  {
    var Event(index, id, doc) := o.queue[0];
    var o' := Applied(o);
    assert TaskOk(log, o.queue[0]);
    if j: nat :| index < j < |log| && log[j].id == id {
      assert cursor <= j || Carries(o'.queue, j);
    } else {
      var q: nat :| index < q <= |log| && doc == Lookup(log[..q], id);
      LookupStable(log, id, q, |log|);
      assert log[..|log|] == log;
    }
  }

  lemma ApplyKeepsFlow(log: seq<Write>, cursor: nat, o: Observer)
    requires ObserverOk(log, o) && Flowing(log, cursor, o)
    requires o.queue != [] && !o.queue[0].Sync?
    ensures Flowing(log, cursor, Applied(o))
  {
    var t, o' := o.queue[0], Applied(o);
    assert TaskOk(log, t);
    if !HasSync(o'.queue) {
      forall id ensures Get(o'.view, id) == Lookup(log, id) || Outstanding(log, cursor, o', id) {
        if t.Loaded? {
          ContentsIsLookup(log[..t.upTo], id);
          if j: nat :| t.upTo <= j < |log| && log[j].id == id {
            assert cursor <= j || Carries(o'.queue, j);
          } else {
            LookupStable(log, id, t.upTo, |log|);
            assert log[..|log|] == log;
          }
        } else if id == t.id && o.discardBelow <= t.index {
          EventSettles(log, cursor, o);
        } else {
          assert !HasSync(o.queue) by {
            assert forall u :: u in o.queue ==> u == t || u in o'.queue;
          }
          if Get(o.view, id) != Lookup(log, id) {
            var j: nat :| j < |log| && log[j].id == id && o.discardBelow <= j && (cursor <= j || Carries(o.queue, j));
            assert j != t.index;
            if j < cursor {
              var u :| u in o.queue && u.Event? && u.index == j;
              assert u in o'.queue;
            }
          }
        }
      }
    }
  }

  lemma SettleOk(w: World, result: (FeedState, seq<Effect>), opening: Opening, event: Option<Task>)
    requires ObserversOk(w) && (event.Some? ==> TaskOk(w.log, event.value))
    ensures ObserversOk(Settle(w, result, opening, event))
  {
  }

  lemma SettleOkNext(w: World, step: Step)
    requires ObserversOk(w) && Enabled(w, step)
    requires step.DoSubscribe? || step.DoStop? || step.DoResolve? || step.DoReject? || step.DoTimer? || step.DoFail?
    ensures ObserversOk(Next(w, step))
  {
    match step {
      case DoSubscribe(s, opening) =>
        SettleOk(w.(observers := w.observers[s := Observer(map[], [Sync], 0)]),
                 Subscribe(w.feed, s, Answer(opening, w.nextId)), opening, None);
      case DoStop(s) => SettleOk(w, Stop(w.feed, s), Fails, None);
      case DoResolve(c) =>
        SettleOk(w.(opens := w.opens - {c}, cursors := w.cursors[c := w.opens[c].resume]), Resolve(w.feed, c), Fails,
            None);
      case DoReject(c) => SettleOk(w.(opens := w.opens - {c}), Reject(w.feed), Fails, None);
      case DoTimer(opening) => SettleOk(w, FireTimer(w.feed, Answer(opening, w.nextId)), opening, None);
      case DoFail(c) => SettleOk(w, ScheduleRestart(w.feed), Fails, None);
    }
  }

  lemma DeliverOk(w: World, step: Step)
    requires ObserversOk(w) && Enabled(w, step) && step.DoDeliver?
    ensures ObserversOk(Next(w, step))
  {
    var index := w.cursors[step.stream];
    var event := Event(index, w.log[index].id, Lookup(w.log[..step.lookup], w.log[index].id));
    SettleOk(w.(cursors := w.cursors[step.stream := index + 1]), (w.feed, Changes(w.feed.subscribers)), Fails,
        Some(event));
  }

  lemma ObserversStayOk(w: World, step: Step)
    requires ObserversOk(w) && Enabled(w, step)
    ensures ObserversOk(Next(w, step))
  {
    match step {
      case DoWrite(write) =>
        forall s | s in w.observers ensures ObserverOk(w.log + [write], w.observers[s]) {
          WriteKeepsObserver(w.log, write, w.observers[s]);
        }
      case DoRead(_, _) => assert w.log[..|w.log|] == w.log;
      case DoApply(s) => assert TaskOk(w.log, w.observers[s].queue[0]);
      case DoCapture(_, _) =>
      case DoDeliver(_, _) => DeliverOk(w, step);
      case _ => SettleOkNext(w, step);
    }
  }

  /** Attaching a stream asks every subscriber for a snapshot. */
  lemma AttachFlows(log: seq<Write>, cursor: nat, o: Observer, s: SubscriberId, subscribers: seq<SubscriberId>,
                    effects: seq<Effect>)
    requires s in subscribers
    requires effects == Resyncs(subscribers) || effects == [Create] + Resyncs(subscribers)
    ensures Flowing(log, cursor, Notified(o, s, effects, None))
  {
    var i :| 0 <= i < |subscribers| && subscribers[i] == s;
    assert Resyncs(subscribers)[i] == Resync(s);
    assert Resync(s) in effects;
    SyncCovers(o.queue, cursor);
  }

  /** The steps under which the current stream and the observers stay what they were. */
  lemma FlowingKept(w: World, step: Step, s: SubscriberId)
    requires Plumbed(w) && Consistent(w) && Enabled(w, step)
    requires step.DoCapture? || step.DoFail? || step.DoStop? || step.DoReject?
    requires Next(w, step).feed.stream.Some? && s in Next(w, step).feed.subscribers
    ensures FlowingTo(Next(w, step), s)
  {
    assert Next(w, step).feed.stream == w.feed.stream;
    assert s in w.feed.subscribers;
    assert FlowingTo(w, s);
    assert Next(w, step).observers[s] == w.observers[s];
  }

  lemma FlowingObserved(w: World, step: Step, s: SubscriberId)
    requires Plumbed(w) && Consistent(w) && Enabled(w, step)
    requires step.DoWrite? || step.DoRead? || step.DoApply?
    requires w.feed.stream.Some? && s in w.feed.subscribers
    ensures FlowingTo(Next(w, step), s)
  {
    var cursor := w.cursors[w.feed.stream.value];
    assert FlowingTo(w, s);
    match step {
      case DoWrite(write) => WriteKeepsFlow(w.log, write, cursor, w.observers[s]);
      case DoRead(r, below) =>
        if r == s { ReadKeepsFlow(w.log, cursor, w.observers[s], below); }
      case DoApply(r) =>
        if r == s { ApplyKeepsFlow(w.log, cursor, w.observers[s]); }
    }
  }

  lemma FlowingDelivered(w: World, step: Step, s: SubscriberId)
    requires Plumbed(w) && Consistent(w) && Enabled(w, step) && step.DoDeliver? && s in w.feed.subscribers
    ensures FlowingTo(Next(w, step), s)
  {
    var index := w.cursors[step.stream];
    var event := Event(index, w.log[index].id, Lookup(w.log[..step.lookup], w.log[index].id));
    assert FlowingTo(w, s);
    DeliverKeepsFlow(w.log, index, w.observers[s], event);
    EventQueued(w, step, s, event);
  }

  lemma EventQueued(w: World, step: Step, s: SubscriberId, event: Task)
    requires Plumbed(w) && Enabled(w, step) && step.DoDeliver? && s in w.feed.subscribers
    requires var index := w.cursors[step.stream];
             event == Event(index, w.log[index].id, Lookup(w.log[..step.lookup], w.log[index].id))
    ensures var w' := Next(w, step);
            && w'.feed == w.feed && w'.log == w.log && s in w.observers && s in w'.observers
            && w'.cursors == w.cursors[step.stream := w.cursors[step.stream] + 1]
            && w'.observers[s] == w.observers[s].(queue := w.observers[s].queue + [event])
  {
    var effects := Changes(w.feed.subscribers);
    var i :| 0 <= i < |w.feed.subscribers| && w.feed.subscribers[i] == s;
    assert effects[i] == Change(s);
    assert Resync(s) !in effects;
    assert Next(w, step).observers[s] == Notified(w.observers[s], s, effects, Some(event));
  }

  lemma FlowingResolved(w: World, step: Step, s: SubscriberId)
    requires Plumbed(w) && Consistent(w) && Enabled(w, step) && step.DoResolve?
    requires Next(w, step).feed.stream.Some? && s in w.feed.subscribers
    ensures FlowingTo(Next(w, step), s)
  {
    AttachFlows(w.log, w.opens[step.stream].resume, w.observers[s], s, w.feed.subscribers,
        Resolve(w.feed, step.stream).1);
  }

  lemma FlowingTimer(w: World, step: Step, s: SubscriberId)
    requires Plumbed(w) && Consistent(w) && Enabled(w, step) && step.DoTimer?
    requires Next(w, step).feed.stream.Some? && s in w.feed.subscribers
    ensures FlowingTo(Next(w, step), s)
  {
    AttachFlows(w.log, step.opening.resume, w.observers[s], s, w.feed.subscribers,
                FireTimer(w.feed, Answer(step.opening, w.nextId)).1);
  }

  lemma FlowingSubscribed(w: World, step: Step, s: SubscriberId)
    requires Plumbed(w) && Consistent(w) && Enabled(w, step) && step.DoSubscribe?
    requires Next(w, step).feed.stream.Some? && s in Next(w, step).feed.subscribers
    ensures FlowingTo(Next(w, step), s)
  {
    if w.feed.stream.None? {
      FlowingFirst(w, step, s);
    } else {
      FlowingJoined(w, step, s);
    }
  }

  lemma FlowingFirst(w: World, step: Step, s: SubscriberId)
    requires Plumbed(w) && Enabled(w, step) && step.DoSubscribe? && w.feed.stream.None?
    requires Next(w, step).feed.stream.Some? && s in Next(w, step).feed.subscribers
    ensures FlowingTo(Next(w, step), s)
  {
    assert w.feed.subscribers == [] && step.s == s;
    var o := Observer(map[], [Sync], 0);
    var (f, effects) := Subscribe(w.feed, step.s, Answer(step.opening, w.nextId));
    assert Next(w, step).observers[s] == Notified(o, s, effects, None);
    AttachFlows(w.log, step.opening.resume, o, s, [s], effects);
  }

  /** The newcomer gets a second snapshot, the others notice nothing. */
  lemma FlowingJoined(w: World, step: Step, s: SubscriberId)
    requires Plumbed(w) && Consistent(w) && Enabled(w, step) && step.DoSubscribe? && w.feed.stream.Some?
    requires s in Next(w, step).feed.subscribers
    ensures Next(w, step).feed.stream.Some? && FlowingTo(Next(w, step), s)
  {
    assert Subscribe(w.feed, step.s, Answer(step.opening, w.nextId)).1 == [Resync(step.s)];
    if step.s == s {
      var o := Observer(map[], [Sync], 0);
      assert Next(w, step).observers[s] == o.(queue := o.queue + [Sync]);
      SyncCovers(o.queue, w.cursors[w.feed.stream.value]);
    } else {
      assert Next(w, step).observers[s] == w.observers[s];
      assert FlowingTo(w, s);
    }
  }

  lemma FlowingNext(w: World, step: Step, s: SubscriberId)
    requires Plumbed(w) && Consistent(w) && Enabled(w, step)
    requires Next(w, step).feed.stream.Some? && s in Next(w, step).feed.subscribers
    ensures FlowingTo(Next(w, step), s)
  {
    match step {
      case DoDeliver(_, _) => FlowingDelivered(w, step, s);
      case DoResolve(_) => FlowingResolved(w, step, s);
      case DoTimer(_) => FlowingTimer(w, step, s);
      case DoSubscribe(_, _) => FlowingSubscribed(w, step, s);
      case DoCapture(_, _) => FlowingKept(w, step, s);
      case DoFail(_) => FlowingKept(w, step, s);
      case DoStop(_) => FlowingKept(w, step, s);
      case DoReject(_) => FlowingKept(w, step, s);
      case _ => FlowingObserved(w, step, s);
    }
  }

  lemma ConsistentNext(w: World, step: Step)
    requires Plumbed(w) && Consistent(w) && Enabled(w, step)
    ensures Consistent(Next(w, step))
  {
    ObserversStayOk(w, step);
    if Next(w, step).feed.stream.Some? {
      forall s | s in Next(w, step).feed.subscribers
        ensures FlowingTo(Next(w, step), s)
      {
        FlowingNext(w, step, s);
      }
    }
  }

  lemma {:induction false} QuietRunKeepsInvariants(w: World, steps: seq<Step>, w': World)
    requires Plumbed(w) && Consistent(w) && QuietRun(w, steps, w')
    ensures Plumbed(w') && Consistent(w')
    decreases |steps|
  {
    if steps != [] {
      PlumbedNext(w, steps[0]);
      ConsistentNext(w, steps[0]);
      QuietRunKeepsInvariants(Next(w, steps[0]), steps[1..], w');
    }
  }

  /** In every reachable state a feed in use has exactly one of an open stream, a pending open or an armed
      restart timer, and every stream ever obtained is either that stream or closed. */
  lemma ExactlyOneWayForwardAndNoLeak(steps: seq<Step>, w: World)
    requires QuietRun(START, steps, w)
    ensures w.feed.Live() ==> w.feed.OneWayForward()
    ensures forall c :: c in w.cursors ==> (c in w.closed <==> w.feed.stream != Some(c))
    ensures forall c, d :: c in w.opens && d in w.opens ==> c == d
  {
    QuietRunKeepsInvariants(START, steps, w);
  }

  /** The gap-free guarantee: once the current stream has delivered every write and an observer has worked
      off its queue, the observer sees exactly the collection, whatever happened before. */
  lemma GapFreeConvergence(steps: seq<Step>, w: World, s: SubscriberId)
    requires QuietRun(START, steps, w)
    requires w.feed.stream.Some? && s in w.feed.subscribers
    ensures w.feed.stream.value in w.cursors && s in w.observers
    ensures w.cursors[w.feed.stream.value] == |w.log| && w.observers[s].queue == []
            ==> w.observers[s].view == Contents(w.log)
  {
    QuietRunKeepsInvariants(START, steps, w);
    assert FlowingTo(w, s);
    if w.cursors[w.feed.stream.value] == |w.log| && w.observers[s].queue == [] {
      ConvergedView(w, s);
    }
  }

  lemma ConvergedView(w: World, s: SubscriberId)
    requires w.feed.stream.Some? && FlowingTo(w, s)
    requires w.cursors[w.feed.stream.value] == |w.log| && w.observers[s].queue == []
    ensures w.observers[s].view == Contents(w.log)
  {
    var o := w.observers[s];
    forall id ensures Get(o.view, id) == Get(Contents(w.log), id) {
      ContentsIsLookup(w.log, id);
    }
    SameContents(o.view, Contents(w.log));
  }

  lemma SameContents(a: map<DocId, Doc>, b: map<DocId, Doc>)
    requires forall id :: Get(a, id) == Get(b, id)
    ensures a == b
  {
    assert forall id :: id in a ==> Get(a, id) == Get(b, id) && id in b && a[id] == b[id];
    assert forall id :: id in b ==> Get(a, id) == Get(b, id) && id in a;
  }

  /******* No state is a dead end *******/

  ghost predicate Converged(w: World, s: SubscriberId) {
    && w.feed.stream.Some? && w.feed.stream.value in w.cursors && w.cursors[w.feed.stream.value] == |w.log|
    && s in w.observers && w.observers[s].queue == []
  }

  /** How far the feed is from an open stream. */
  ghost function StepsToOpen(w: World): nat {
    if w.feed.restartTimeout then 3
    else if exists c :: c in w.opens && w.opens[c].Requested? then 2
    else if w.feed.pendingStart then 1
    else 0
  }

  ghost function Undelivered(w: World): nat {
    if w.feed.stream.Some? && w.feed.stream.value in w.cursors && w.cursors[w.feed.stream.value] <= |w.log|
    then |w.log| - w.cursors[w.feed.stream.value] else 0
  }

  ghost function Unprocessed(w: World, s: SubscriberId): nat {
    if s !in w.observers || w.observers[s].queue == [] then 0
    else 2 * |w.observers[s].queue| - if w.observers[s].queue[0].Sync? then 0 else 1
  }

  lemma OpenOneStepCloser(w: World, s: SubscriberId) returns (step: Step)
    requires Plumbed(w) && !w.feed.stopped && s in w.feed.subscribers && w.feed.stream.None?
    ensures Enabled(w, step) && Quiet(w, step)
    ensures var w' := Next(w, step); w'.log == w.log && !w'.feed.stopped && w'.feed.subscribers == w.feed.subscribers
    ensures StepsToOpen(Next(w, step)) < StepsToOpen(w)
  {
    if w.feed.restartTimeout {
      step := DoTimer(Later);
    } else {
      var c :| c in w.opens;
      step := if w.opens[c].Requested? then DoCapture(c, |w.log|) else DoResolve(c);
    }
  }

  lemma DrainOneStepCloser(w: World, s: SubscriberId) returns (step: Step)
    requires Plumbed(w) && !w.feed.stopped && s in w.feed.subscribers && w.feed.stream.Some? && !Converged(w, s)
    ensures Enabled(w, step) && Quiet(w, step)
    ensures var w' := Next(w, step); w'.log == w.log && w'.feed == w.feed && w'.opens == w.opens
    ensures var w' := Next(w, step);
            || Undelivered(w') < Undelivered(w)
            || (Undelivered(w') == Undelivered(w) && Unprocessed(w', s) < Unprocessed(w, s))
  {
    var c := w.feed.stream.value;
    if w.cursors[c] < |w.log| {
      step := DoDeliver(c, w.cursors[c] + 1);
    } else if w.observers[s].queue[0].Sync? {
      step := DoRead(s, 0);
    } else {
      step := DoApply(s);
    }
  }

  /** From every reachable state of a feed in use, each observer can still catch up with the collection. */
  lemma {:induction false} CanAlwaysCatchUp(w: World, s: SubscriberId) returns (steps: seq<Step>, w': World)
    requires Plumbed(w) && Consistent(w) && !w.feed.stopped && s in w.feed.subscribers
    ensures QuietRun(w, steps, w') && Converged(w', s)
    ensures w'.log == w.log && Consistent(w') && s in w'.feed.subscribers
    decreases StepsToOpen(w), Undelivered(w), Unprocessed(w, s)
  {
    if Converged(w, s) {
      return [], w;
    }
    var step;
    if w.feed.stream.None? {
      step := OpenOneStepCloser(w, s);
    } else {
      step := DrainOneStepCloser(w, s);
    }
    PlumbedNext(w, step);
    ConsistentNext(w, step);
    steps, w' := CanAlwaysCatchUp(Next(w, step), s);
    assert ([step] + steps)[1..] == steps;
    steps := [step] + steps;
  }

  /** Whatever has happened, a feed in use can bring every subscriber to exactly the collection. */
  lemma EveryGapCanClose(before: seq<Step>, w: World, s: SubscriberId) returns (steps: seq<Step>, w': World)
    requires QuietRun(START, before, w) && !w.feed.stopped && s in w.feed.subscribers
    ensures QuietRun(w, steps, w') && w'.log == w.log
    ensures s in w'.observers && w'.observers[s].view == Contents(w.log)
  {
    QuietRunKeepsInvariants(START, before, w);
    steps, w' := CanAlwaysCatchUp(w, s);
    assert FlowingTo(w', s);
    ConvergedView(w', s);
  }

  /******* The assumption is needed *******/

  lemma RunSnoc(w: World, steps: seq<Step>, w': World, step: Step)
    requires Run(w, steps, w') && Enabled(w', step)
    ensures Run(w, steps + [step], Next(w', step))
    decreases |steps|
  {
    if steps == [] {
      assert (steps + [step])[1..] == [];
    } else {
      assert (steps + [step])[1..] == steps[1..] + [step];
      RunSnoc(Next(w, steps[0]), steps[1..], w', step);
    }
  }

  ghost predicate Reached(w: World) {
    exists steps :: Run(START, steps, w)
  }

  lemma ReachedNext(w: World, step: Step)
    requires Reached(w) && Enabled(w, step)
    ensures Reached(Next(w, step))
  {
    var steps :| Run(START, steps, w);
    RunSnoc(START, steps, w, step);
  }

  lemma FirstStreamOpens() returns (w: World)
    ensures Reached(w)
    ensures w.feed == FeedState(Some(0), false, false, false, [0])
    ensures w.opens == map[] && w.cursors == map[0 := 0] && w.closed == {} && w.nextId == 1
  {
    assert Run(START, [], START);
    ReachedNext(START, DoSubscribe(0, Later));
    w := Next(START, DoSubscribe(0, Later));
    ReachedNext(w, DoCapture(0, 0));
    w := Next(w, DoCapture(0, 0));
    ReachedNext(w, DoResolve(0));
    w := Next(w, DoResolve(0));
  }

  lemma SecondOpenIsPending() returns (w: World)
    ensures Reached(w)
    ensures w.feed == FeedState(None, true, false, false, [0])
    ensures w.opens == map[1 := Requested] && w.cursors == map[0 := 0] && w.closed == {0} && w.nextId == 2
  {
    w := FirstStreamOpens();
    ReachedNext(w, DoFail(0));
    w := Next(w, DoFail(0));
    ReachedNext(w, DoTimer(Later));
    w := Next(w, DoTimer(Later));
  }

  lemma TwoOpensArePending() returns (w: World)
    ensures Reached(w)
    ensures w.feed == FeedState(None, true, false, false, [0])
    ensures w.opens == map[1 := Requested, 2 := Requested] && w.cursors == map[0 := 0] && w.closed == {0} &&
            w.nextId == 3
  {
    w := SecondOpenIsPending();
    ReachedNext(w, DoFail(0));
    w := Next(w, DoFail(0));
    ReachedNext(w, DoTimer(Later));
    w := Next(w, DoTimer(Later));
  }

  lemma SecondStreamOpens() returns (w: World)
    ensures Reached(w)
    ensures w.feed == FeedState(Some(1), false, false, false, [0])
    ensures w.opens == map[2 := Requested] && w.cursors == map[0 := 0, 1 := 0] && w.closed == {0} && w.nextId == 3
  {
    w := TwoOpensArePending();
    ReachedNext(w, DoCapture(1, 0));
    w := Next(w, DoCapture(1, 0));
    ReachedNext(w, DoResolve(1));
    w := Next(w, DoResolve(1));
  }

  /** A stream that was obtained, is not current and was not closed. */
  ghost predicate Leaked(w: World, c: StreamId) {
    && c in w.cursors && c !in w.closed && w.feed.stream != Some(c)
    && c !in w.opens && c < w.nextId
  }

  /** Without the assumption the feed leaks: the first stream ends while the second is being opened, a
      third is opened beside it, and the second is left behind. */
  lemma LateFailureLeaks() returns (w: World)
    ensures Reached(w) && Leaked(w, 1)
  {
    w := SecondStreamOpens();
    ReachedNext(w, DoCapture(2, 0));
    w := Next(w, DoCapture(2, 0));
    ReachedNext(w, DoResolve(2));
    w := Next(w, DoResolve(2));
  }

  /** And whatever happens then, such a stream is never current again and never closed. */
  lemma {:induction false} LeakedForGood(w: World, c: StreamId, steps: seq<Step>, w': World)
    requires Leaked(w, c) && Run(w, steps, w')
    ensures Leaked(w', c)
    decreases |steps|
  {
    if steps != [] {
      LeakedNext(w, c, steps[0]);
      LeakedForGood(Next(w, steps[0]), c, steps[1..], w');
    }
  }

  lemma LeakedNext(w: World, c: StreamId, step: Step)
    requires Leaked(w, c) && Enabled(w, step)
    ensures Leaked(Next(w, step), c)
  {
    match step {
      case DoSubscribe(_, _) => LeakedSubscribe(w, c, step);
      case DoTimer(_) => LeakedTimer(w, c, step);
      case DoResolve(_) => LeakedResolve(w, c, step);
      case _ =>
    }
  }

  lemma LeakedSubscribe(w: World, c: StreamId, step: Step)
    requires Leaked(w, c) && Enabled(w, step) && step.DoSubscribe?
    ensures Leaked(Next(w, step), c)
  {
  }

  lemma LeakedTimer(w: World, c: StreamId, step: Step)
    requires Leaked(w, c) && Enabled(w, step) && step.DoTimer?
    ensures Leaked(Next(w, step), c)
  {
  }

  lemma LeakedResolve(w: World, c: StreamId, step: Step)
    requires Leaked(w, c) && Enabled(w, step) && step.DoResolve?
    ensures Leaked(Next(w, step), c)
  {
  }
}
