/**
 A deferred dispatch that traces several scenes. Each is brought to its build in
 turn, and bringing one can move an earlier one on, through a copy made of another
 build of it. The GeometryIndex path looks again at all of them afterwards.
 */
module AsTrackerScenes {
  import opened GpuQueue
  import opened Readback
  import opened AsParse
  import opened AsTracker
  import opened AsTrackerWorld
  import opened AsTrackerReads
  import opened AsTrackerBuilds
  import opened AsTrackerRuns

  /** A copy is of an older build, so a chain of copies makes none known that is newer than what was asked. */
  lemma {:induction false} ChainBound(readOf: map<Addr, nat>, alias: map<Addr, Alias>, a: Addr, build: nat, depth: nat)
    requires depth <= MAX_DEPTH && forall b :: b in alias ==> alias[b].srcBuild < alias[b].build
    ensures forall b :: b in Chain(readOf, alias, a, build, depth) ==> Chain(readOf, alias, a, build, depth)[b] <= build
    decreases MAX_DEPTH - depth
  {
    if a in readOf && readOf[a] == build {
    } else if a in alias && alias[a].build == build && depth < MAX_DEPTH {
      ChainBound(readOf, alias, alias[a].src, alias[a].srcBuild, depth + 1);
    }
  }

  lemma AliasesOlder(w: World)
    requires Inv(w)
    ensures forall b :: b in w.t.alias ==> w.t.alias[b].srcBuild < w.t.alias[b].build
  {
    forall b | b in w.t.alias ensures w.t.alias[b].srcBuild < w.t.alias[b].build { AliasOlder(w, b); }
  }

  lemma ReadsRanLearns(w: World, w': World, list: nat, at: nat)
    requires ReadsRan(w, list, at) && Learns(w, w')
    ensures ReadsRan(w', list, at)
  {}

  /** The scenes are at builds no newer than the dispatch; what is known stays true throughout. */
  ghost predicate NoNewer(readOf: map<Addr, nat>, builds: seq<Build>, at: nat) {
    forall k :: 0 <= k < |builds| ==> builds[k].0 in readOf && readOf[builds[k].0] <= at
  }

  lemma NoNewerNext(readOf: map<Addr, nat>, chain: map<Addr, nat>, builds: seq<Build>, n: nat, at: nat)
    requires n < |builds| && NoNewer(readOf, builds[..n], at) && (forall b :: b in chain ==> chain[b] <= at)
    requires builds[n].0 in readOf + chain && (readOf + chain)[builds[n].0] <= at
    ensures NoNewer(readOf + chain, builds[..n + 1], at)
  {
    forall k | 0 <= k < n + 1
      ensures builds[k].0 in readOf + chain && (readOf + chain)[builds[k].0] <= at
    {
      if k < n { assert builds[..n][k] == builds[k]; }
    }
  }

  lemma {:induction false} BringAllKeeps(w: World, builds: seq<Build>, list: nat, at: nat)
    requires Inv(w) && ReadsRan(w, list, at) && forall k :: 0 <= k < |builds| ==> builds[k].1 <= at
    ensures
      var (ok, t') := BringAll(w.t, w.gpu, w.buffers, builds, list);
      var w' := w.(t := t');
      && Inv(w') && Learns(w, w')
      && (ok ==> NoNewer(t'.readOf, builds, at))
    decreases |builds|
  {
    if builds == [] {
      LearnsNothing(w);
    } else {
      hide Inv, ReadsRan, Learns, AsTracker.Bring, Chain, NoNewer;
      var n := |builds| - 1;
      BringAllNext(w.t, w.gpu, w.buffers, builds, list);
      hide BringAll;
      BringAllKeeps(w, builds[..n], list, at);
      var (ok, t1) := BringAll(w.t, w.gpu, w.buffers, builds[..n], list);
      if ok {
        ReadsRanLearns(w, w.(t := t1), list, at);
        OneMoreScene(w.(t := t1), builds, n, list, at);
        LearnsMore(w, w.(t := t1), w.(t := BringAll(w.t, w.gpu, w.buffers, builds, list).1));
      }
    }
  }

  lemma BringAllNext(t: Tracker, g: Gpu, buffers: map<nat, seq<Desc>>, builds: seq<Build>, list: nat)
    requires builds != []
    ensures
      var n := |builds| - 1;
      var (ok, t1) := BringAll(t, g, buffers, builds[..n], list);
      BringAll(t, g, buffers, builds, list)
      == if !ok then (false, t1) else AsTracker.Bring(t1, g, buffers, builds[n].0, builds[n].1, list, 0)
  {
    hide AsTracker.Bring;
  }

  lemma OneMoreScene(w: World, builds: seq<Build>, n: nat, list: nat, at: nat)
    requires Inv(w) && ReadsRan(w, list, at) && n + 1 == |builds| && builds[n].1 <= at
    requires NoNewer(w.t.readOf, builds[..n], at)
    ensures
      var (ok, t') := AsTracker.Bring(w.t, w.gpu, w.buffers, builds[n].0, builds[n].1, list, 0);
      var w' := w.(t := t');
      && Inv(w') && Learns(w, w')
      && (ok ==> NoNewer(t'.readOf, builds, at))
  {
    hide Inv, ReadsRan, Learns, AsTracker.Bring, Chain, NoNewer;
    ReadsRanStay(w, list, at, builds[n].1);
    BringKeeps(w, builds[n].0, builds[n].1, list, 0);
    var (ok, t') := AsTracker.Bring(w.t, w.gpu, w.buffers, builds[n].0, builds[n].1, list, 0);
    if ok {
      BringReads(w.t, w.gpu, w.buffers, builds[n].0, builds[n].1, list, 0);
      AliasesOlder(w);
      ChainBound(w.t.readOf, w.t.alias, builds[n].0, builds[n].1, 0);
      NoNewerNext(w.t.readOf, Chain(w.t.readOf, w.t.alias, builds[n].0, builds[n].1, 0), builds, n, at);
      assert builds[..n + 1] == builds;
    }
  }

  /**
   A GeometryIndex() dispatch on any number of scenes, deferred to submit: when every
   scene could be brought and every one is current afterwards, each is drawn from exactly
   the build that was its latest when the dispatch was recorded.
   */
  lemma {:induction false} CurrentScenesAreTheirs(before: seq<Action>, owner: nat, scenes: seq<Addr>, rest: seq<Action>, call: nat, k: nat)
    requires Runs(before) && Enabled(After(before), Defer(owner, scenes)) && k < |scenes|
    requires Runs(before + [Defer(owner, scenes)] + rest)
    ensures
      var w0, w := After(before), After(before + [Defer(owner, scenes)] + rest);
      var d := DeferredNow(w0, owner, scenes);
      AtSegment(w, call, d) ==>
        var (ok, t) := BringAll(w.t, w.gpu, w.buffers, d.builds, owner);
        (ok && forall i :: 0 <= i < |scenes| ==> Current(t, scenes[i])) ==>
          var b := d.builds[k];
          && b.0 == scenes[k] && b.1 == w0.t.lastBuilt[scenes[k]] && b in w0.truth
          && b.0 in t.tlas && t.tlas[b.0] == Parse(Seen(w0.log, w0.truth[b]))
  {
    hide Inv, Parse, Seen, BringAll, Runs, After, Remembers, Enabled, Step, AtSegment, DeferredNow, Current;
    DeferredRun(before, owner, scenes, rest);
    var w0, w := After(before), After(before + [Defer(owner, scenes)] + rest);
    DeferredIs(w0, owner, scenes, k);
    if AtSegment(w, call, DeferredNow(w0, owner, scenes)) {
      CurrentMeans(w0, w, owner, scenes, call, k);
    }
  }

  lemma DeferredBuilds(w0: World, owner: nat, scenes: seq<Addr>)
    requires BuildsInOrder(w0.t) && forall a :: a in scenes ==> a in w0.t.lastBuilt
    ensures
      var d := DeferredNow(w0, owner, scenes);
      d.at == w0.t.tlasSerial && forall k :: 0 <= k < |d.builds| ==> d.builds[k].1 <= d.at
  {
    var d := DeferredNow(w0, owner, scenes);
    forall k | 0 <= k < |d.builds| ensures d.builds[k].1 <= d.at {
      assert scenes[k] in scenes && InOrder(w0.t, scenes[k]);
    }
  }

  lemma DeferredInOrder(w0: World, owner: nat, scenes: seq<Addr>)
    requires Inv(w0) && forall a :: a in scenes ==> a in w0.t.lastBuilt
    ensures
      var d := DeferredNow(w0, owner, scenes);
      d.owner == owner && forall k :: 0 <= k < |d.builds| ==> d.builds[k].1 <= d.at
  {
    assert BuildsInOrder(w0.t);
    hide Inv;
    DeferredBuilds(w0, owner, scenes);
  }

  lemma CurrentMeans(w0: World, w: World, owner: nat, scenes: seq<Addr>, call: nat, k: nat)
    requires Inv(w0) && Inv(w) && Remembers(w0, w) && k < |scenes|
    requires (forall a :: a in scenes ==> a in w0.t.lastBuilt) && AtSegment(w, call, DeferredNow(w0, owner, scenes))
    ensures
      var d := DeferredNow(w0, owner, scenes);
      var (ok, t) := BringAll(w.t, w.gpu, w.buffers, d.builds, owner);
      (ok && forall i :: 0 <= i < |scenes| ==> Current(t, scenes[i])) ==>
        var b := d.builds[k];
        b in w0.truth && b.0 in t.tlas && t.tlas[b.0] == Parse(Seen(w0.log, w0.truth[b]))
  {
    var d := DeferredNow(w0, owner, scenes);
    assert BuildsInOrder(w0.t);
    DeferredIs(w0, owner, scenes, k);
    DeferredBuilds(w0, owner, scenes);
    SegmentsRan(w, call, d);
    hide Inv, Parse, Seen, BringAll, AtSegment, DeferredNow, ReadsRan, BuildsInOrder;
    BringAllKeeps(w, d.builds, owner, d.at);
    var (ok, t) := BringAll(w.t, w.gpu, w.buffers, d.builds, owner);
    if ok && forall i :: 0 <= i < |scenes| ==> Current(t, scenes[i]) {
      var b := d.builds[k];
      assert scenes[k] in scenes && Current(t, scenes[k]) && t.readOf[b.0] <= d.at;
      hide Current;
      LatestThen(w0, w, t, b.0);
      KnownIs(w.(t := t), b.0);
      LatestIsSerial(w0, b.0);
      SameThen(w0, w, b);
    }
  }

  /** A build that was there when the dispatch was recorded and is the latest now was the latest then. */
  lemma LatestThen(w0: World, w: World, t: Tracker, a: Addr)
    requires Remembers(w0, w) && a in w0.t.lastBuilt && t.lastBuilt == w.t.lastBuilt
    requires Current(t, a) && t.readOf[a] <= w0.t.tlasSerial
    ensures a in t.readOf && t.readOf[a] == w0.t.lastBuilt[a]
  {}

  // --- the run in which the second scene moves the first --------------------------------------------------

  /**
   Structure 1 is built and the copy of its instances recorded; it is cloned to 2, built
   again, and read at once; a dispatch on both is recorded and its segment closed; then
   the segment is submitted, executed and waited for.
   */
  function MovedRun(descs: seq<Desc>): seq<Action> {
    Recorded5(descs) + [Defer(7, [1, 2])] + [CloseSegment(7)] + [NewQueue(0)] + [Enter(0, 0, {7})] + [Exec(0, 7)]
    + [Work(0)] + [Wait(0, 7)]
  }

  function Recorded5(descs: seq<Desc>): seq<Action> {
    [] + [BuildTop(1, descs, 7)] + [RecordCopy(1, 7, [])] + [CopyStructure(2, 1, CloneOrCompact)]
    + [BuildTop(1, descs, 7)] + [ReadNow(1)]
  }

  /** Recorded so far: nothing submitted, no bottom-level structure in the log. */
  ghost predicate Recording(w: World, t: Tracker) {
    w.t == t && w.noting == map[] && w.gpu == IDLE && w.log == map[] && w.tops == {} && w.deferred == {}
  }

  lemma FirstTwo(descs: seq<Desc>)
    ensures
      var run := [] + [BuildTop(1, descs, 7)] + [RecordCopy(1, 7, [])];
      && Runs(run)
      && Recording(After(run), NotePending(AsTracker.BuildTop(EMPTY, 1), 1, 0, 7, Listing(0, 0)))
      && (1, 1) in After(run).truth
  {
    RunsNext([], BuildTop(1, descs, 7));
    RunsNext([] + [BuildTop(1, descs, 7)], RecordCopy(1, 7, []));
  }

  lemma CloneNext(w: World)
    requires Recording(w, NotePending(AsTracker.BuildTop(EMPTY, 1), 1, 0, 7, Listing(0, 0)))
    ensures
      var action := CopyStructure(2, 1, CloneOrCompact);
      Enabled(w, action) && Recording(Step(w, action), Cloned())
  {
    CopyStepFields(w, 2, 1, CloneOrCompact);
    hide Step, NoteCopy;
  }

  lemma RebuildNext(w: World, descs: seq<Desc>)
    requires Recording(w, Cloned())
    ensures
      var action := BuildTop(1, descs, 7);
      Enabled(w, action) && Rebuilt1(Step(w, action), descs)
  {
    hide Cloned;
    ClonedIs();
    BuildTopIs(w, BuildTop(1, descs, 7));
  }

  ghost predicate Rebuilt1(w: World, descs: seq<Desc>) {
    && w.t == AsTracker.BuildTop(Cloned(), 1) && w.noting == map[1 := ByCall(7)] && w.gpu == IDLE && w.log == map[]
    && w.tops == {} && w.deferred == {} && (1, 3) in w.truth && w.truth[(1, 3)].descs == descs && 1 in w.t.lastBuilt
    && w.t.lastBuilt[1] == 3
  }

  lemma ReadNext(w: World, descs: seq<Desc>)
    requires Rebuilt1(w, descs)
    ensures Enabled(w, ReadNow(1)) && Recording(Step(w, ReadNow(1)), ClonedThenRebuilt(descs))
  {
    hide Cloned, AsTracker.BuildTop, AsTracker.ReadNow;
  }

  lemma RecordedRuns(descs: seq<Desc>)
    ensures Runs(Recorded5(descs)) && Recording(After(Recorded5(descs)), ClonedThenRebuilt(descs))
  {
    hide Step, Enabled, Recording, Cloned, ClonedThenRebuilt, Rebuilt1;
    FirstTwo(descs);
    var two := [] + [BuildTop(1, descs, 7)] + [RecordCopy(1, 7, [])];
    var three := two + [CopyStructure(2, 1, CloneOrCompact)];
    hide Runs, After;
    CloneNext(After(two));
    RunsNext(two, CopyStructure(2, 1, CloneOrCompact));
    RebuildNext(After(three), descs);
    RunsNext(three, BuildTop(1, descs, 7));
    ReadNext(After(three + [BuildTop(1, descs, 7)]), descs);
    RunsNext(three + [BuildTop(1, descs, 7)], ReadNow(1));
  }

  const BOTH: seq<Addr> := [1, 2]

  /** The dispatch is recorded, and its segment closed. */
  ghost predicate Queued(w: World, t: Tracker) {
    && w.t == t && w.deferred == {Deferred(7, 0, 0, 3, [(1, 3), (2, 2)])}
    && w.gpu == IDLE.(lists := map[7 := Listing(0, 1)])
  }

  lemma DeferNext(w: World, descs: seq<Desc>)
    requires Recording(w, ClonedThenRebuilt(descs))
    ensures Enabled(w, Defer(7, BOTH)) && Enabled(Step(w, Defer(7, BOTH)), CloseSegment(7))
    ensures Queued(Step(Step(w, Defer(7, BOTH)), CloseSegment(7)), ClonedThenRebuilt(descs))
  {
    ClonedThenRebuiltIs(descs);
    hide ClonedThenRebuilt;
    assert BuildsOf(w.t, BOTH) == [(1, 3), (2, 2)];
  }

  /** Submitted, executed and waited for. */
  ghost predicate Done(w: World, t: Tracker) {
    && w.t == t && w.deferred == {Deferred(7, 0, 0, 3, [(1, 3), (2, 2)])}
    && w.gpu.lists == map[7 := Listing(0, 1)] && 0 in w.gpu.calls && 7 in w.gpu.calls[0].lists
    && w.gpu.calls[0].lists[7].waited == 1
  }

  lemma QueueNext(w: World, t: Tracker)
    requires Queued(w, t)
    ensures Enabled(w, NewQueue(0))
    ensures Step(w, NewQueue(0)) == w.(gpu := w.gpu.(queues := map[0 := Queue([], 0)]))
  {}

  lemma SubmitNext(w: World, t: Tracker)
    requires Queued(w.(gpu := w.gpu.(queues := map[])), t) && w.gpu.queues == map[0 := Queue([], 0)]
    ensures Enabled(w, Enter(0, 0, {7})) && InFlight(Step(w, Enter(0, 0, {7})), t, 0)
  {
    assert Step(w, Enter(0, 0, {7})).gpu.calls[0].lists == map[7 := Progress(0, 0, 0)];
    assert Step(w, Enter(0, 0, {7})).gpu.calls == map[0 := Call(0, map[7 := Progress(0, 0, 0)])];
  }

  /** On its way: `n` of its segments submitted, the queue all executed but the last item. */
  ghost predicate InFlight(w: World, t: Tracker, n: nat) {
    && w.t == t && w.deferred == {Deferred(7, 0, 0, 3, [(1, 3), (2, 2)])}
    && w.gpu.lists == map[7 := Listing(0, 1)]
    && w.gpu.calls == map[0 := Call(0, map[7 := Progress(n, n, 0)])]
    && 0 in w.gpu.queues && w.gpu.queues[0].done == 0 && |w.gpu.queues[0].items| == n
  }

  lemma ExecuteNext(w: World, t: Tracker)
    requires InFlight(w, t, 0)
    ensures Enabled(w, Exec(0, 7))
    ensures
      var w1 := Step(w, Exec(0, 7));
      InFlight(w1, t, 1) && Enabled(w1, Work(0))
  {
    hide Copies;
    ExecutedGpu(w.gpu, w.t.pending);
    assert Step(w, Exec(0, 7)) == w.(gpu := Readback.Exec(w.gpu, w.t.pending, 0, 7));
    hide Step, Readback.Exec;
  }

  lemma ExecutedGpu(g: Gpu, pending: seq<Read<Copy>>)
    requires g.calls == map[0 := Call(0, map[7 := Progress(0, 0, 0)])] && 0 in g.queues
    requires g.queues[0].items == [] && g.queues[0].done == 0
    ensures
      var g' := Readback.Exec(g, pending, 0, 7);
      && g'.calls == map[0 := Call(0, map[7 := Progress(1, 1, 0)])] && g'.lists == g.lists
      && 0 in g'.queues && g'.queues[0].done == 0 && |g'.queues[0].items| == 1
  {
    hide Copies;
    var g' := Readback.Exec(g, pending, 0, 7);
    assert g'.calls[0].lists == map[7 := Progress(1, 1, 0)];
  }

  lemma WorkNext(w: World, t: Tracker)
    requires InFlight(w, t, 1)
    ensures Enabled(w, Work(0))
    ensures
      var w1 := Step(w, Work(0));
      Enabled(w1, Wait(0, 7)) && Done(Step(w1, Wait(0, 7)), t)
  {
    hide BuffersAfter;
  }

  lemma MovedRuns(descs: seq<Desc>)
    ensures Runs(MovedRun(descs)) && Done(After(MovedRun(descs)), ClonedThenRebuilt(descs))
  {
    hide Step, Enabled, Recording, Queued, InFlight, Done, ClonedThenRebuilt, Recorded5, Runs, After;
    RecordedRuns(descs);
    var a, t := Recorded5(descs), ClonedThenRebuilt(descs);
    var b := a + [Defer(7, BOTH)];
    var c := b + [CloseSegment(7)];
    var d := c + [NewQueue(0)];
    var e := d + [Enter(0, 0, {7})];
    var f := e + [Exec(0, 7)];
    var g := f + [Work(0)];
    DeferNext(After(a), descs);
    RunsNext(a, Defer(7, BOTH));
    RunsNext(b, CloseSegment(7));
    QueueNext(After(c), t);
    RunsNext(c, NewQueue(0));
    QueuedStill(After(c), After(d), t);
    SubmitNext(After(d), t);
    RunsNext(d, Enter(0, 0, {7}));
    ExecuteNext(After(e), t);
    RunsNext(e, Exec(0, 7));
    WorkNext(After(f), t);
    RunsNext(f, Work(0));
    RunsNext(g, Wait(0, 7));
  }

  lemma QueuedStill(w: World, w': World, t: Tracker)
    requires Queued(w, t) && w' == w.(gpu := w.gpu.(queues := map[0 := Queue([], 0)]))
    ensures Queued(w'.(gpu := w'.gpu.(queues := map[])), t)
  {}

  /**
   All of it is a run. In the state it reaches the split brings both scenes, and then the
   first is at an older build again: drawn as it is, it would be drawn from the wrong one.
   */
  lemma SecondSceneMovesFirstInARun(descs: seq<Desc>)
    ensures Runs(MovedRun(descs))
    ensures
      var w, d := After(MovedRun(descs)), Deferred(7, 0, 0, 3, [(1, 3), (2, 2)]);
      && AtSegment(w, 0, d) && w.t.lastBuilt == map[1 := 3, 2 := 2]
      && var (ok, t) := BringAll(w.t, w.gpu, w.buffers, d.builds, 7);
      ok && !AllAt(t.readOf, d.builds) && !Current(t, 1)
  {
    MovedRuns(descs);
    hide Runs, After;
    var w := After(MovedRun(descs));
    ClonedThenRebuiltIs(descs);
    MovedByBoth(w.gpu, w.buffers, descs);
    hide ClonedThenRebuilt, BringAll, AllAt, Current;
  }

  lemma MovedByBoth(g: Gpu, buffers: map<nat, seq<Desc>>, descs: seq<Desc>)
    ensures
      var builds := [(1, 3), (2, 2)];
      var (ok, t) := BringAll(ClonedThenRebuilt(descs), g, buffers, builds, 7);
      ok && !AllAt(t.readOf, builds) && !Current(t, 1)
  {
    var builds: seq<(Addr, nat)> := [(1, 3), (2, 2)];
    var t := ClonedThenRebuilt(descs);
    assert builds[..1] == [(1, 3)] && [(1, 3)][..0] == [];
    SecondSceneMovesFirst(g, buffers, descs);
    ClonedThenRebuiltIs(descs);
    hide ClonedThenRebuilt, AsTracker.Bring;
    assert BringAll(t, g, buffers, builds[..1], 7) == (true, t);
    assert BringAll(t, g, buffers, builds, 7) == AsTracker.Bring(t, g, buffers, 2, 2, 7, 0);
    BringSameBuilt(t, g, buffers, 2, 2, 7, 0);
    assert builds[0] == (1, 3);
  }
}
