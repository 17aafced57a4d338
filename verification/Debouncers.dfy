/** Two timer and flag machines of the playout gateway: neither loses work. */
module Debouncers {
  import opened Wrappers

  type PlaylistId = string
  type Change = int

  datatype Batch = Batch(playlist: PlaylistId, changes: seq<Change>)
  datatype Callback = Callback(playlist: PlaylistId, change: Change)

  function Unpacked(batch: Batch): seq<Callback> {
    seq(|batch.changes|, i requires 0 <= i < |batch.changes| => Callback(batch.playlist, batch.changes[i]))
  }

  function AllUnpacked(batches: seq<Batch>): seq<Callback> {
    if batches == [] then [] else AllUnpacked(batches[..|batches| - 1]) + Unpacked(batches[|batches| - 1])
  }

  function Pending(pending: Option<Batch>): seq<Callback> {
    if pending.Some? then Unpacked(pending.value) else []
  }

  lemma UnpackedMore(batch: Batch, change: Change)
    ensures Unpacked(batch.(changes := batch.changes + [change])) == Unpacked(batch) +
            [Callback(batch.playlist, change)]
  {
  }

  lemma SentMore(sent: seq<Batch>, batch: Batch)
    ensures AllUnpacked(sent + [batch]) == AllUnpacked(sent) + Unpacked(batch)
  {
    assert (sent + [batch])[..|sent|] == sent;
  }

  /** Neighbouring batches are of different playlists. */
  ghost predicate Apart(batches: seq<Batch>) {
    forall i :: 0 < i < |batches| ==> batches[i - 1].playlist != batches[i].playlist
  }

  lemma StillApart(sent: seq<Batch>, pending: Option<Batch>, batch: Batch)
    requires if pending.Some? then Apart(sent + [pending.value]) else sent == []
    ensures pending.None? ==> Apart(sent + [batch])
    ensures pending.Some? && pending.value.playlist == batch.playlist ==> Apart(sent + [batch])
    ensures pending.Some? && pending.value.playlist != batch.playlist ==> Apart(sent + [pending.value] + [batch])
  {
    if pending.Some? {
      var before, after := sent + [pending.value], sent + [batch];
      forall i | 0 < i < |after| && pending.value.playlist == batch.playlist
        ensures after[i - 1].playlist != after[i].playlist {
        assert before[i - 1].playlist != before[i].playlist;
      }
    }
  }

  /** The same of the batches after the first n. */
  lemma LaterApart(sent: seq<Batch>, pending: Option<Batch>, batch: Batch, n: nat)
    requires n <= |sent| && (pending.None? ==> n == |sent|)
    requires Apart((sent + if pending.Some? then [pending.value] else [])[n..])
    ensures pending.None? ==> Apart((sent + [batch])[n..])
    ensures pending.Some? && pending.value.playlist == batch.playlist ==> Apart((sent + [batch])[n..])
    ensures pending.Some? && pending.value.playlist != batch.playlist ==>
              Apart((sent + [pending.value] + [batch])[n..])
  {
    var later := sent[n..];
    if pending.Some? {
      assert (sent + [pending.value])[n..] == later + [pending.value];
      assert (sent + [pending.value] + [batch])[n..] == later + [pending.value] + [batch];
    }
    assert (sent + [batch])[n..] == later + [batch];
    StillApart(later, pending, batch);
  }

  ghost predicate NoneEmpty(batches: seq<Batch>) {
    forall b :: b in batches ==> b.changes != []
  }

  lemma LastUnpacked(batches: seq<Batch>)
    requires batches != [] && NoneEmpty(batches)
    ensures var all, last := AllUnpacked(batches), batches[|batches| - 1];
            && all != [] && |AllUnpacked(batches[..|batches| - 1])| == |all| - |last.changes|
            && all[|all| - 1].playlist == last.playlist
            && forall k :: |all| - |last.changes| <= k < |all| ==> all[k].playlist == last.playlist
  {
    assert batches[|batches| - 1] in batches;
  }

  /** The callback before the last batch is of another playlist. */
  lemma BeforeLast(batches: seq<Batch>)
    requires batches != [] && NoneEmpty(batches) && Apart(batches)
    ensures var all, last := AllUnpacked(batches), batches[|batches| - 1];
            |all| > |last.changes| ==> all[|all| - |last.changes| - 1].playlist != last.playlist
  {
    var before, last := batches[..|batches| - 1], batches[|batches| - 1];
    LastUnpacked(batches);
    if before != [] {
      assert NoneEmpty(before) by { assert forall x :: x in before ==> x in batches; }
      LastUnpacked(before);
      assert before[|before| - 1] == batches[|batches| - 2];
    }
  }

  lemma LastIsAsLong(a: seq<Batch>, b: seq<Batch>)
    requires a != [] && b != [] && NoneEmpty(a) && NoneEmpty(b) && Apart(a) && AllUnpacked(a) == AllUnpacked(b)
    ensures |a[|a| - 1].changes| >= |b[|b| - 1].changes|
  {
    LastUnpacked(a);
    LastUnpacked(b);
    BeforeLast(a);
  }

  /** So the callbacks can be cut into such batches in one way only. */
  lemma {:induction false} OneWayToCut(a: seq<Batch>, b: seq<Batch>)
    requires Apart(a) && Apart(b) && NoneEmpty(a) && NoneEmpty(b) && AllUnpacked(a) == AllUnpacked(b)
    ensures a == b
    decreases |a|
  {
    if a == [] || b == [] {
      if a != [] { LastUnpacked(a); }
      if b != [] { LastUnpacked(b); }
    } else {
      LastIsAsLong(a, b);
      LastIsAsLong(b, a);
      var m, n := |a| - 1, |b| - 1;
      assert a[m] in a;
      SameLast(AllUnpacked(a[..m]), a[m], AllUnpacked(b[..n]), b[n]);
      WithoutLast(a);
      WithoutLast(b);
      OneWayToCut(a[..m], b[..n]);
    }
  }

  lemma WithoutLast(batches: seq<Batch>)
    requires batches != [] && Apart(batches) && NoneEmpty(batches)
    ensures var n := |batches| - 1;
            Apart(batches[..n]) && NoneEmpty(batches[..n]) && batches == batches[..n] + [batches[n]]
  {
    assert forall x :: x in batches[..|batches| - 1] ==> x in batches;
  }

  lemma SameLast(xs: seq<Callback>, a: Batch, ys: seq<Callback>, b: Batch)
    requires xs + Unpacked(a) == ys + Unpacked(b) && |a.changes| == |b.changes| > 0
    ensures xs == ys && a == b
  {
    assert xs == (xs + Unpacked(a))[..|xs|] && ys == (ys + Unpacked(b))[..|ys|];
    assert Unpacked(a) == (xs + Unpacked(a))[|xs|..] && Unpacked(b) == (ys + Unpacked(b))[|ys|..];
    assert Unpacked(a)[0].playlist == a.playlist && Unpacked(b)[0].playlist == b.playlist;
    forall i | 0 <= i < |a.changes| ensures a.changes[i] == b.changes[i] {
      assert Unpacked(a)[i] == Unpacked(b)[i];
    }
  }

  /** Playback callbacks, collected until a short timer fires or the playlist changes. */
  class CallbackDebouncer {
    var changedResults: Option<Batch>
    var sendTimeout: bool
    ghost var accepted: seq<Callback>
    ghost var sent: seq<Batch>

    /** Sent batches and then the pending one are the accepted callbacks in order; no batch is empty, each is
        of one playlist by construction, and a pending batch has its timer armed. */
    ghost predicate Valid()
      reads this
    {
      && AllUnpacked(sent) + Pending(changedResults) == accepted
      && (forall b :: b in sent ==> b.changes != [])
      && (changedResults.Some? ==> changedResults.value.changes != [] && sendTimeout)
    }

    /** Everything so far, sent or pending. */
    ghost function Batches(): seq<Batch>
      reads this
    {
      sent + if changedResults.Some? then [changedResults.value] else []
    }

    constructor ()
      ensures Valid() && accepted == [] && sent == [] && changedResults.None? && !sendTimeout
    {
      changedResults, sendTimeout, accepted, sent := None, false, [], [];
    }

    /** A callback of a known kind; other kinds are passed on at once and never batched. */
    method HandleCallback(playlist: PlaylistId, change: Change)
      requires Valid()
      modifies this
      ensures Valid() && accepted == old(accepted) + [Callback(playlist, change)] && sendTimeout
      ensures old(changedResults).None? ==> sent == old(sent) && changedResults == Some(Batch(playlist, [change]))
      ensures old(changedResults).Some? && old(changedResults).value.playlist == playlist ==>
                && sent == old(sent)
                && changedResults == Some(Batch(playlist, old(changedResults).value.changes + [change]))
      ensures old(changedResults).Some? && old(changedResults).value.playlist != playlist ==>
                sent == old(sent) + [old(changedResults).value] && changedResults == Some(Batch(playlist, [change]))
    {
      if changedResults.Some? && changedResults.value.playlist != playlist {
        Send();
      }
      var batch := if changedResults.None? then Batch(playlist, []) else changedResults.value;
      UnpackedMore(batch, change);
      assert [] + [change] == [change];
      changedResults := Some(batch.(changes := batch.changes + [change]));
      accepted := accepted + [Callback(playlist, change)];
      if !sendTimeout {
        sendTimeout := true;
      }
    }

    /** One callback more leaves the batches after the first n apart. */
    method HandleOne(callback: Callback, ghost n: nat)
      requires Valid() && n <= |sent| && (changedResults.None? ==> n == |sent|) && Apart(Batches()[n..])
      modifies this
      ensures Valid() && accepted == old(accepted) + [callback] && changedResults.Some?
      ensures old(sent) <= sent && Apart(Batches()[n..])
    {
      ghost var before, pending := sent, changedResults;
      HandleCallback(callback.playlist, callback.change);
      LaterApart(before, pending, changedResults.value, n);
    }

    /** As long as the timer does not fire, one batch follows another only when the playlist changes. */
    method HandleAll(callbacks: seq<Callback>)
      requires Valid()
      modifies this
      ensures Valid() && accepted == old(accepted) + callbacks
      ensures old(sent) <= sent && Apart(Batches()[|old(sent)|..])
    {
      ghost var n := |sent|;
      assert Batches()[n..] == if changedResults.Some? then [changedResults.value] else [];
      for i := 0 to |callbacks|
        invariant Valid() && accepted == old(accepted) + callbacks[..i]
        invariant old(sent) <= sent && n == |old(sent)| && (changedResults.None? ==> n == |sent|)
        invariant Apart(Batches()[n..])
      {
        assert callbacks[..i + 1] == callbacks[..i] + [callbacks[i]];
        HandleOne(callbacks[i], n);
      }
      assert callbacks[..|callbacks|] == callbacks;
    }

    method Send()
      requires Valid() && changedResults.Some?
      modifies this`changedResults, this`sent
      ensures Valid() && changedResults.None? && sent == old(sent) + [old(changedResults).value]
    {
      SentMore(sent, changedResults.value);
      sent := sent + [changedResults.value];
      changedResults := None;
    }

    /** The timer fires: whatever is pending goes out, so nothing accepted is left behind. */
    method SendChangedResults()
      requires Valid() && sendTimeout
      modifies this
      ensures Valid() && accepted == old(accepted) && AllUnpacked(sent) == accepted
      ensures sent == old(Batches()) && changedResults.None? && !sendTimeout
    {
      if changedResults.Some? {
        Send();
      }
      sendTimeout := false;
    }
  }

  /** Device updates: at most one at a time, with one more to follow if anything was triggered meanwhile. */
  class DeviceUpdater {
    var initialized: bool
    var timeout: bool          // a retry is scheduled
    var running: bool
    var checkAgain: bool
    ghost var deferred: bool   // an update is scheduled to start
    ghost var updating: bool   // an update is under way
    ghost var unserved: bool   // something was triggered since the last update started

    ghost predicate Valid()
      reads this
    {
      && (running <==> deferred || updating) && !(deferred && updating)
      && (checkAgain ==> running) && (running ==> !timeout)
      && (unserved ==> deferred || checkAgain || timeout)
    }

    constructor ()
      ensures Valid() && !initialized && !unserved
    {
      initialized, timeout, running, checkAgain := false, false, false, false;
      deferred, updating, unserved := false, false, false;
    }

    method Initialize()
      requires Valid()
      modifies this`initialized
      ensures Valid() && initialized
    {
      initialized := true;
    }

    /** After initialisation every trigger leaves an update scheduled that has not started yet. */
    method Trigger()
      requires Valid()
      modifies this
      ensures Valid() && initialized == old(initialized) && updating == old(updating)
      ensures initialized ==> unserved && (deferred || checkAgain) && !timeout
      ensures initialized && !old(running) ==> deferred && running && !checkAgain
      ensures initialized && old(running) ==> running && checkAgain && deferred == old(deferred)
      ensures !initialized ==> unserved == old(unserved) && deferred == old(deferred) && running == old(running)
      ensures !initialized ==> checkAgain == old(checkAgain) && timeout == old(timeout)
    {
      if !initialized { return; }
      unserved := true;
      timeout := false;
      if running {
        checkAgain := true;
        return;
      }
      running := true;
      deferred := true;
    }

    /** The deferred start: never while another update is under way. */
    method StartUpdate()
      requires Valid() && deferred
      modifies this`deferred, this`updating, this`unserved
      ensures Valid() && updating && !deferred && !unserved
      ensures !old(updating)
    {
      deferred, updating, unserved := false, true, false;
    }

    /** The update settled, either way. */
    method FinishUpdate()
      requires Valid() && updating
      modifies this
      ensures Valid() && initialized == old(initialized) && !updating && !running
      ensures timeout <==> old(checkAgain)
      ensures unserved == old(unserved)
    {
      updating := false;
      running := false;
      if !checkAgain { return; }
      timeout := true;
      checkAgain := false;
    }

    /** The retry timer fires. */
    method Retry()
      requires Valid() && timeout && initialized
      modifies this
      ensures Valid() && !timeout && deferred && initialized
    {
      Trigger();
    }

    /** Whatever the state, once the update under way settles and the timers fire, an update starts that
        serves every trigger so far. */
    method LetTimersFire(underWay: bool)
      requires Valid() && initialized && unserved && underWay == updating
      modifies this
      ensures Valid() && initialized && updating && !unserved
    {
      if underWay { FinishUpdate(); }
      if timeout { Retry(); }
      StartUpdate();
    }
  }
}
