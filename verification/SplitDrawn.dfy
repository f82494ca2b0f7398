/**
 Which dispatches of a split submission are drawn, and from what: the split recording of
 a list joined with the tracker's run that records it, submits it and, segment by
 segment, brings the scenes of its dispatches.
 */
module SplitDrawn {
  import opened Options
  import opened ListState
  import opened Replay
  import opened Split
  import opened SplitMeaning
  import R = Readback
  import P = AsParse
  import T = AsTracker
  import W = AsTrackerWorld
  import Reads = AsTrackerReads
  import Runs = AsTrackerRuns
  import Scenes = AsTrackerScenes

  // --- where a dispatch is in the split, and in its trace ----------------------------------

  predicate IsDispatch(c: AppCmd) {
    c.IndirectRays? || c.IndirectCompute? || c.StaleCompute? || c.StaleRays?
  }

  /** Every command but a setting makes one event. */
  function Events(rec: seq<AppCmd>): nat {
    if rec == [] then 0 else Events(rec[..|rec| - 1]) + if rec[|rec| - 1].Setting? then 0 else 1
  }

  /** The wrapper when it queues this dispatch: one with arguments of its own closes the segment first. */
  ghost function Queueing(rec: seq<AppCmd>, j: nat, initial: Option<Handle>, lowered: set<Handle>, cap: Capture): Wrapped
    requires RecordingOk(rec, initial, lowered, cap) && j < |rec|
    decreases |rec|
  {
    if j == |rec| - 1 then
      var w := Record(rec[..j], initial, lowered, cap);
      if rec[j].StaleCompute? || rec[j].StaleRays? then Flush(w) else w
    else Queueing(rec[..|rec| - 1], j, initial, lowered, cap)
  }

  /** Its segment, and its place behind it. */
  ghost function SegmentOf(rec: seq<AppCmd>, j: nat, initial: Option<Handle>, lowered: set<Handle>, cap: Capture): nat
    requires RecordingOk(rec, initial, lowered, cap) && j < |rec|
  {
    |Queueing(rec, j, initial, lowered, cap).segments|
  }

  ghost function PlaceOf(rec: seq<AppCmd>, j: nat, initial: Option<Handle>, lowered: set<Handle>, cap: Capture): nat
    requires RecordingOk(rec, initial, lowered, cap) && j < |rec|
  {
    |Queueing(rec, j, initial, lowered, cap).open|
  }

  /** Queued behind segment `k` in that place: closed, or still open. */
  ghost predicate FiledAt(w: Wrapped, k: nat, place: nat, b: Bindings) {
    || (k < |w.segments| && place < |w.segments[k].pendings| && w.segments[k].pendings[place].bindings == b)
    || (k == |w.segments| && place < |w.open| && w.open[place].bindings == b)
  }

  lemma StepFiles(w: Wrapped, lowered: set<Handle>, cap: Capture, c: AppCmd, k: nat, place: nat, b: Bindings)
    requires w.Valid() && StepOk(w, c) && FiledAt(w, k, place, b)
    ensures FiledAt(RecordStep(w, lowered, cap, c), k, place, b)
  {
    hide Track, Apply, ReplayAll, Borrow, Restore, LoweredOf;
  }

  lemma QueuesItsOwn(w: Wrapped, lowered: set<Handle>, cap: Capture, c: AppCmd)
    requires w.Valid() && StepOk(w, c) && IsDispatch(c)
    ensures
      var at := if c.StaleCompute? || c.StaleRays? then Flush(w) else w;
      FiledAt(RecordStep(w, lowered, cap, c), |at.segments|, |at.open|, w.tracked.bindings)
  {
    hide Track, Apply, ReplayAll, Borrow, Restore, LoweredOf;
  }

  /** There it stays: behind that segment, with the bindings it was recorded with. */
  lemma {:induction false} DispatchFiled(rec: seq<AppCmd>, j: nat, initial: Option<Handle>, lowered: set<Handle>,
                                         cap: Capture)
    requires RecordingOk(rec, initial, lowered, cap) && j < |rec| && IsDispatch(rec[j])
    ensures FiledAt(Record(rec, initial, lowered, cap), SegmentOf(rec, j, initial, lowered, cap),
                    PlaceOf(rec, j, initial, lowered, cap),
                    Queueing(rec, j, initial, lowered, cap).tracked.bindings)
    decreases |rec|
  {
    hide FiledAt, RecordStep, StepOk, Flush;
    var n := |rec| - 1;
    var front := rec[..n];
    var w := Record(front, initial, lowered, cap);
    if j == n {
      assert rec[..j] == front;
      QueuesItsOwn(w, lowered, cap, rec[n]);
      FlushTracks(w);
    } else {
      assert front[j] == rec[j];
      DispatchFiled(front, j, initial, lowered, cap);
      StepFiles(w, lowered, cap, rec[n], SegmentOf(rec, j, initial, lowered, cap), PlaceOf(rec, j, initial, lowered, cap),
                Queueing(rec, j, initial, lowered, cap).tracked.bindings);
    }
  }

  lemma FlushTracks(w: Wrapped)
    requires w.Valid()
    ensures Flush(w).tracked == w.tracked
  {}

  // --- its event --------------------------------------------------------------------------------

  /** Drawn or not, with the state the application had bound. */
  ghost predicate EventIs(e: Event, drawn: bool, view: View) {
    if drawn then e.Dispatched? && e.view == view else e == NotDrawn(view)
  }

  lemma StepEvent<M>(m: Machine<M>, held: Bound, s: Meaning<M>, c: AppCmd)
    requires s.bound.Valid()
    ensures
      var s' := MeanStep(m, true, held, s, c);
      && |s'.out.trace| == |s.out.trace| + (if c.Setting? then 0 else 1)
      && s'.out.trace[..|s.out.trace|] == s.out.trace
      && (IsDispatch(c) ==> EventIs(s'.out.trace[|s.out.trace|], m.draws(|s.out.trace|), ViewOf(s.bound)))
  {
    hide Apply, ViewOf;
  }

  lemma {:induction false} EventsCount<M>(m: Machine<M>, rec: seq<AppCmd>, initial: Option<Handle>,
                                          lowered: set<Handle>, cap: Capture, mem: M)
    requires RecordingOk(rec, initial, lowered, cap)
    ensures |RunHeld(m, rec, initial, lowered, cap, mem).out.trace| == Events(rec)
    decreases |rec|
  {
    if rec != [] {
      hide MeanStep, Held, Flush, Record, StepOk;
      var front := rec[..|rec| - 1];
      EventsCount(m, front, initial, lowered, cap, mem);
      StepEvent(m, AtWork(front, initial, lowered, cap), RunHeld(m, front, initial, lowered, cap, mem), rec[|rec| - 1]);
    }
  }

  lemma {:induction false} DispatchEvent<M>(m: Machine<M>, rec: seq<AppCmd>, j: nat, initial: Option<Handle>,
                                            lowered: set<Handle>, cap: Capture, mem: M)
    requires RecordingOk(rec, initial, lowered, cap) && j < |rec| && IsDispatch(rec[j])
    ensures
      var trace, n := RunHeld(m, rec, initial, lowered, cap, mem).out.trace, Events(rec[..j]);
      n < |trace| && EventIs(trace[n], m.draws(n), ViewOf(App(rec[..j], initial)))
    decreases |rec|
  {
    hide MeanStep, Held, Flush, Record, StepOk, EventIs, App;
    var front, c := rec[..|rec| - 1], rec[|rec| - 1];
    var s := RunHeld(m, front, initial, lowered, cap, mem);
    StepEvent(m, AtWork(front, initial, lowered, cap), s, c);
    EventsCount(m, front, initial, lowered, cap, mem);
    if j == |rec| - 1 {
      HeldBoundIsApp(m, front, initial, lowered, cap, mem);
    } else {
      assert front[..j] == rec[..j] && front[j] == rec[j];
      DispatchEvent(m, front, j, initial, lowered, cap, mem);
      var trace := RunHeld(m, rec, initial, lowered, cap, mem).out.trace;
      assert trace[..|s.out.trace|] == s.out.trace;
      assert trace[Events(rec[..j])] == s.out.trace[Events(rec[..j])];
    }
  }

  // --- the tracker's run around it ----------------------------------------------------------------

  /** Which recording of the list this is, and how often it was closed into a segment. */
  function ListingAfter(actions: seq<W.Action>, owner: nat): R.Listing {
    if actions == [] then R.Listing(0, 0)
    else ListingNext(ListingAfter(actions[..|actions| - 1], owner), actions[|actions| - 1], owner)
  }

  function ListingNext(l: R.Listing, action: W.Action, owner: nat): R.Listing {
    if action == W.CloseSegment(owner) then R.Listing(l.recording, l.segment + 1)
    else if action == W.ResetList(owner) then R.Listing(l.recording + 1, 0)
    else l
  }

  lemma StepListing(w: W.World, action: W.Action, owner: nat)
    requires W.Enabled(w, action)
    ensures R.ListOf(W.Step(w, action).gpu, owner) == ListingNext(R.ListOf(w.gpu, owner), action, owner)
    ensures w.deferred <= W.Step(w, action).deferred
  {
    hide W.Step, W.Enabled;
    if OfQueues(action) {
      QueueStepLists(w, action);
    } else if action.CloseSegment? || action.ResetList? {
      ListStepLists(w, action);
    } else {
      OtherStepLists(w, action);
    }
  }

  predicate OfQueues(action: W.Action) {
    action.Enter? || action.Exec? || action.Wait? || action.Leave? || action.Work? || action.NewQueue?
  }

  lemma QueueStepLists(w: W.World, action: W.Action)
    requires W.Enabled(w, action) && OfQueues(action)
    ensures W.Step(w, action).gpu.lists == w.gpu.lists && W.Step(w, action).deferred == w.deferred
  {
    hide W.Step, W.Enabled;
    if action.Leave? {
      LeaveLists(w, action);
    } else {
      CallLists(w, action);
    }
  }

  lemma CallLists(w: W.World, action: W.Action)
    requires W.Enabled(w, action) && OfQueues(action) && !action.Leave?
    ensures W.Step(w, action).gpu.lists == w.gpu.lists && W.Step(w, action).deferred == w.deferred
  {
    hide W.BuffersAfter, R.Copies, R.CanEnter, R.Waited, W.Submitted;
  }

  lemma LeaveLists(w: W.World, action: W.Action)
    requires W.Enabled(w, action) && action.Leave?
    ensures W.Step(w, action).gpu.lists == w.gpu.lists && W.Step(w, action).deferred == w.deferred
  {
    hide T.SettleDone, W.Signals, R.LeaveReads, R.AllSent, W.Step;
    Runs.LeaveStepIs(w, action.call, action.signalled);
  }

  lemma ListStepLists(w: W.World, action: W.Action)
    requires W.Enabled(w, action) && (action.CloseSegment? || action.ResetList?)
    ensures W.Step(w, action).gpu == if action.CloseSegment? then R.CloseSegment(w.gpu, action.owner)
                                     else R.Reset(w.gpu, action.owner)
    ensures W.Step(w, action).deferred == w.deferred
  {
    hide R.CloseSegment, R.Reset, R.Drop, W.Open;
  }

  lemma OtherStepLists(w: W.World, action: W.Action)
    requires W.Enabled(w, action) && !OfQueues(action) && !action.CloseSegment? && !action.ResetList?
    ensures W.Step(w, action).gpu == w.gpu && w.deferred <= W.Step(w, action).deferred
  {
    hide T.NoteCopy, T.Bring, T.BuildBottom, T.BuildTop, T.ReadNow, T.NotePending, T.DecodedTop, W.Append,
         W.LogAfterCopy, W.TruthAfterCopy, W.CopyRebuilds, W.ByOthers, W.PointsBelow, W.Open, W.AtSegment, T.IsFloor,
         W.DeferredNow;
  }

  lemma {:induction false} ListingIs(actions: seq<W.Action>, owner: nat)
    requires W.Runs(actions)
    ensures R.ListOf(W.After(actions).gpu, owner) == ListingAfter(actions, owner)
  {
    hide W.Step, W.Enabled;
    if actions != [] {
      var n := |actions| - 1;
      ListingIs(actions[..n], owner);
      StepListing(W.After(actions[..n]), actions[n], owner);
    }
  }

  /** Until the list is reset it stays that recording, and what was deferred stays to be done. */
  lemma {:induction false} StaysDeferred(before: seq<W.Action>, rest: seq<W.Action>, owner: nat, d: W.Deferred)
    requires W.Runs(before) && W.Runs(before + rest) && d in W.After(before).deferred && W.ResetList(owner) !in rest
    ensures d in W.After(before + rest).deferred
    ensures ListingAfter(before + rest, owner).recording == ListingAfter(before, owner).recording
    decreases |rest|
  {
    hide W.Step, W.Enabled;
    if rest == [] {
      assert before + rest == before;
    } else {
      var n := |rest| - 1;
      var all, front := before + rest, before + rest[..n];
      assert all[..|all| - 1] == front && all[|all| - 1] == rest[n];
      assert rest[n] in rest;
      StaysDeferred(before, rest[..n], owner, d);
      StepListing(W.After(front), rest[n], owner);
    }
  }

  /** At submit the scenes were brought; where the code looks again, they were all found current. */
  ghost predicate Served(w: W.World, d: W.Deferred, recheck: bool) {
    var (ok, t) := T.BringAll(w.t, w.gpu, w.buffers, d.builds, d.owner);
    ok && (recheck ==> forall b :: b in d.builds ==> T.Current(t, b.0))
  }

  /** What is known of the scene is exactly the build it had when the dispatch was recorded. */
  ghost predicate AtItsBuild(w0: W.World, w: W.World, d: W.Deferred, i: nat)
    requires i < |d.builds|
  {
    var b, t := d.builds[i], T.BringAll(w.t, w.gpu, w.buffers, d.builds, d.owner).1;
    b in w0.truth && b.0 in t.tlas && t.tlas[b.0] == P.Parse(W.Seen(w0.log, w0.truth[b]))
  }

  /** The split is at the segment of the dispatch: submitted, and waited for. */
  ghost predicate SplitAt(w: W.World, call: nat, owner: nat, segment: nat) {
    call in w.gpu.calls && owner in w.gpu.calls[call].lists && w.gpu.calls[call].lists[owner].waited == segment + 1
  }

  /**
   The split and the tracker together. A list is recorded and split, its dispatches are
   deferred with their scenes where the split queues them, and it is submitted segment by
   segment. A dispatch is filed behind the segment it was recorded in, and once that has
   been waited for it is drawn only if its scenes are then served (a table can still be
   refused): with the state the application had bound and, if the scenes were all found
   current or no scene's chain moves another, each from exactly the build it had when the
   dispatch was recorded.
   */
  lemma {:induction false} DrawnFromItsBuilds<M>(m: Machine<M>, rec: seq<AppCmd>, j: nat, initial: Option<Handle>,
                                                 lowered: set<Handle>, cap: Capture, mem: M,
                                                 before: seq<W.Action>, owner: nat, scenes: seq<P.Addr>,
                                                 rest: seq<W.Action>, call: nat, recheck: bool, i: nat)
    requires RecordingOk(rec, initial, lowered, cap) && j < |rec| && IsDispatch(rec[j])
    requires W.Runs(before) && W.Enabled(W.After(before), W.Defer(owner, scenes)) && i < |scenes|
    requires W.Runs(before + [W.Defer(owner, scenes)] + rest) && W.ResetList(owner) !in rest
    requires ListingAfter(before, owner).segment == SegmentOf(rec, j, initial, lowered, cap)
    ensures forall a :: a in scenes ==> a in W.After(before).t.lastBuilt
    ensures SegmentsValid(Record(rec, initial, lowered, cap).segments)
    ensures FiledAt(Record(rec, initial, lowered, cap), SegmentOf(rec, j, initial, lowered, cap),
                    PlaceOf(rec, j, initial, lowered, cap), Queueing(rec, j, initial, lowered, cap).tracked.bindings)
    ensures
      var w0, w := W.After(before), W.After(before + [W.Defer(owner, scenes)] + rest);
      var d, n := W.DeferredNow(w0, owner, scenes), Events(rec[..j]);
      var trace := RunSplit(m, Record(rec, initial, lowered, cap), mem).trace;
      (SplitAt(w, call, owner, SegmentOf(rec, j, initial, lowered, cap)) && (m.draws(n) ==> Served(w, d, recheck))) ==>
        && n < |trace| && EventIs(trace[n], m.draws(n), ViewOf(App(rec[..j], initial)))
        && |d.builds| == |scenes| && d.builds[i] == (scenes[i], At(w0, scenes[i]))
        && (m.draws(n) && (recheck || T.AllAt(T.ChainAll(w.t.readOf, w.t.alias, d.builds), d.builds)) ==>
              AtItsBuild(w0, w, d, i))
  {
    hide W.Runs, W.After, W.Enabled, W.Step, W.Inv, W.DeferredNow, RecordingOk, Record, RunSplit, RunHeld, SegmentOf, EventIs,
         Served, AtItsBuild, FiledAt, PlaceOf, Queueing, T.ChainAll, T.AllAt, App, SegmentsValid, ViewOf, T.BringAll;
    SplitRunsHeld(m, rec, initial, lowered, cap, mem);
    DispatchFiled(rec, j, initial, lowered, cap);
    DispatchEvent(m, rec, j, initial, lowered, cap, mem);
    Runs.DeferredRun(before, owner, scenes, rest);
    var w0, w := W.After(before), W.After(before + [W.Defer(owner, scenes)] + rest);
    Runs.DeferredIs(w0, owner, scenes, i);
    var d := W.DeferredNow(w0, owner, scenes);
    if SplitAt(w, call, owner, SegmentOf(rec, j, initial, lowered, cap)) {
      IsAtSegment(before, owner, scenes, rest, call, SegmentOf(rec, j, initial, lowered, cap));
      if Served(w, d, recheck) && (recheck || T.AllAt(T.ChainAll(w.t.readOf, w.t.alias, d.builds), d.builds)) {
        ServedIs(w0, w, owner, scenes, call, recheck, i);
      }
    }
  }

  function At(w: W.World, a: P.Addr): nat { if a in w.t.lastBuilt then w.t.lastBuilt[a] else 0 }

  lemma {:induction false} IsAtSegment(before: seq<W.Action>, owner: nat, scenes: seq<P.Addr>, rest: seq<W.Action>,
                                       call: nat, segment: nat)
    requires W.Runs(before) && W.Enabled(W.After(before), W.Defer(owner, scenes))
    requires W.Runs(before + [W.Defer(owner, scenes)] + rest) && W.ResetList(owner) !in rest
    requires ListingAfter(before, owner).segment == segment
    requires SplitAt(W.After(before + [W.Defer(owner, scenes)] + rest), call, owner, segment)
    requires forall a :: a in scenes ==> a in W.After(before).t.lastBuilt
    ensures
      W.AtSegment(W.After(before + [W.Defer(owner, scenes)] + rest), call,
                  W.DeferredNow(W.After(before), owner, scenes))
  {
    hide W.Runs, W.After, W.Enabled;
    var defer := W.Defer(owner, scenes);
    var d := W.DeferredNow(W.After(before), owner, scenes);
    Runs.RunsNext(before, defer);
    ListingIs(before, owner);
    assert (before + [defer])[..|before|] == before;
    StaysDeferred(before + [defer], rest, owner, d);
    ListingIs(before + [defer] + rest, owner);
  }

  lemma ServedIs(w0: W.World, w: W.World, owner: nat, scenes: seq<P.Addr>, call: nat, recheck: bool, i: nat)
    requires W.Inv(w0) && W.Inv(w) && Runs.Remembers(w0, w) && i < |scenes|
    requires forall a :: a in scenes ==> a in w0.t.lastBuilt
    requires W.AtSegment(w, call, W.DeferredNow(w0, owner, scenes))
    requires
      var d := W.DeferredNow(w0, owner, scenes);
      Served(w, d, recheck) && (recheck || T.AllAt(T.ChainAll(w.t.readOf, w.t.alias, d.builds), d.builds))
    ensures AtItsBuild(w0, w, W.DeferredNow(w0, owner, scenes), i)
  {
    hide W.Inv, P.Parse, W.Seen, T.BringAll, W.AtSegment, T.Current, T.ChainAll, Runs.Remembers;
    var d := W.DeferredNow(w0, owner, scenes);
    Runs.DeferredIs(w0, owner, scenes, i);
    if recheck {
      forall k | 0 <= k < |scenes| ensures T.Current(T.BringAll(w.t, w.gpu, w.buffers, d.builds, owner).1, scenes[k]) {
        Runs.DeferredIs(w0, owner, scenes, k);
        assert d.builds[k] in d.builds;
      }
      Scenes.CurrentMeans(w0, w, owner, scenes, call, i);
    } else {
      StayedMeans(w0, w, owner, scenes, call, i);
    }
  }

  /** Brought, and none of them moved by another's chain. */
  lemma StayedMeans(w0: W.World, w: W.World, owner: nat, scenes: seq<P.Addr>, call: nat, i: nat)
    requires W.Inv(w0) && W.Inv(w) && Runs.Remembers(w0, w) && i < |scenes|
    requires forall a :: a in scenes ==> a in w0.t.lastBuilt
    requires W.AtSegment(w, call, W.DeferredNow(w0, owner, scenes))
    requires
      var d := W.DeferredNow(w0, owner, scenes);
      && T.BringAll(w.t, w.gpu, w.buffers, d.builds, owner).0
      && T.AllAt(T.ChainAll(w.t.readOf, w.t.alias, d.builds), d.builds)
    ensures AtItsBuild(w0, w, W.DeferredNow(w0, owner, scenes), i)
  {
    hide W.Inv, P.Parse, W.Seen, T.BringAll, W.AtSegment, T.ChainAll, W.DeferredNow;
    var d := W.DeferredNow(w0, owner, scenes);
    Runs.DeferredIs(w0, owner, scenes, i);
    Scenes.DeferredInOrder(w0, owner, scenes);
    Reads.SegmentsRan(w, call, d);
    Scenes.BringAllKeeps(w, d.builds, owner, d.at);
    T.AllScenesStay(w.t, w.gpu, w.buffers, d.builds, owner);
    var t := T.BringAll(w.t, w.gpu, w.buffers, d.builds, owner).1;
    assert t.readOf[d.builds[i].0] == d.builds[i].1;
    Reads.KnownIs(w.(t := t), d.builds[i].0);
    Runs.LatestIsSerial(w0, scenes[i]);
    Runs.SameThen(w0, w, d.builds[i]);
  }
}
