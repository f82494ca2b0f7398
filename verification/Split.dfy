/**
 Command list splitting as a program transformation.

 The application records settings, work and dispatches whose arguments the GPU
 writes. The wrapper turns that into closed segments, dispatches to be issued
 after each of them, and a tail. `Record` is that transformation, `RunSplit` is
 what submitting its result does, and `RunApp` is what the recording meant.

 The machine is abstract: what a piece of work, or a ray dispatch, does to
 memory is any function of the state bound when it runs.
 */
module Split {
  import opened Options
  import opened ListState
  import opened Replay

  type Loc = nat   // an argument buffer and an offset in it

  /** The arguments of a dispatch; of a group count only the first three are used. */
  datatype Args = Args(x: nat, y: nat, z: nat, tables: nat) {
    predicate Empty() { x == 0 || y == 0 || z == 0 }
  }

  const NO_ARGS := Args(0, 0, 0, 0)

  /** The compute half of the state, all a ray dispatch depends on. */
  datatype View = View(heaps: seq<Handle>, compute: RootBinding, pipeline: Pipeline)

  function ViewOf(b: Bound): View { View(b.heaps, b.compute, b.pipeline) }

  datatype Machine<!M> = Machine(
    run: (nat, Bound, M) -> M,
    read: (Loc, M) -> Args,
    dispatch: (Args, View, M) -> M,
    draws: nat -> bool)   // at submit: can the builds of this dispatch's scenes be brought

  /** One piece of work and the state it ran with, or one dispatch, its arguments and its state. */
  datatype Event =
    | Ran(work: nat, bound: Bound)
    | Dispatched(args: Args, view: View)
    | NotDrawn(view: View)

  datatype Outcome<M> = Outcome(mem: M, trace: seq<Event>)

  /** A dispatch of no groups runs nothing; one whose scenes cannot be brought is not drawn. */
  function Issue<M>(m: Machine<M>, args: Args, view: View, o: Outcome<M>): Outcome<M> {
    if !m.draws(|o.trace|) then Outcome(o.mem, o.trace + [NotDrawn(view)])
    else Outcome(if args.Empty() then o.mem else m.dispatch(args, view, o.mem),
                 o.trace + [Dispatched(args, view)])
  }

  function Perform<M>(m: Machine<M>, w: nat, b: Bound, o: Outcome<M>): Outcome<M> {
    Outcome(m.run(w, b, o.mem), o.trace + [Ran(w, b)])
  }

  // --- what the application recorded ----------------------------------------

  datatype AppCmd =
    | Setting(s: Setter)
    | Work(w: nat)              // a draw, a copy, a barrier, a dispatch the wrapper forwards
    | Build(w: nat)             // a build whose instances the wrapper captures right after it
    | IndirectRays(loc: Loc)    // ExecuteIndirect of a DISPATCH_RAYS signature
    | IndirectCompute(loc: Loc) // ExecuteIndirect of a DISPATCH with a lowered pipeline bound
    | StaleCompute(args: Args)  // a Dispatch of a lowered pipeline, deferred to submit
    | StaleRays(args: Args)     // a DispatchRays deferred to submit

  /** Work that must come after what was queued before it. */
  predicate Ordered(c: AppCmd) { c.Work? || c.Build? }

  /** `start` is memory as it was when the current run of dispatches began. */
  datatype Meaning<M> = Meaning(bound: Bound, start: M, out: Outcome<M>)

  /**
   One command. Work runs with the state `held`. With `late`, a dispatch takes its
   arguments from memory as the run of dispatches it belongs to found it; without,
   from memory as it is.
   */
  function MeanStep<M>(m: Machine<M>, late: bool, held: Bound, s: Meaning<M>, c: AppCmd): (s': Meaning<M>)
    requires s.bound.Valid()
    ensures s'.bound.Valid()
  {
    match c
    case Setting(x) => s.(bound := Apply(s.bound, x))
    case Work(w) =>
      var o := Perform(m, w, held, s.out);
      Meaning(s.bound, o.mem, o)
    case Build(w) =>
      var o := Perform(m, w, held, s.out);
      Meaning(s.bound, o.mem, o)
    case IndirectRays(loc) =>
      s.(out := Issue(m, m.read(loc, if late then s.start else s.out.mem), ViewOf(s.bound), s.out))
    case IndirectCompute(loc) =>
      s.(out := Issue(m, m.read(loc, if late then s.start else s.out.mem), ViewOf(s.bound), s.out))
    case StaleCompute(args) =>
      Meaning(s.bound, s.out.mem, Issue(m, args, ViewOf(s.bound), s.out))
    case StaleRays(args) =>
      Meaning(s.bound, s.out.mem, Issue(m, args, ViewOf(s.bound), s.out))
  }

  /** What the recording meant: work runs with the state the application bound. */
  function RunApp<M>(m: Machine<M>, late: bool, rec: seq<AppCmd>, initial: Option<Handle>,
                     mem: M): (s: Meaning<M>)
    ensures s.bound.Valid()
    decreases |rec|
  {
    if rec == [] then Meaning(Fresh(initial), mem, Outcome(mem, []))
    else
      var s := RunApp(m, late, rec[..|rec| - 1], initial, mem);
      MeanStep(m, late, s.bound, s, rec[|rec| - 1])
  }

  // --- what the wrapper makes of it ------------------------------------------

  datatype RealCmd = Set(s: Setter) | Op(w: nat) | ReadArgs(loc: Loc, slot: nat)

  /** A real list: the pipeline state it was opened with and what was recorded into it. */
  datatype RealList = RealList(initial: Option<Handle>, cmds: seq<RealCmd>)

  datatype Source = Slot(slot: nat) | Given(args: Args)

  /** `Dxr11PendingDispatch`: where its arguments come from, the bindings, the lowered pipeline. */
  datatype Pending = Pending(source: Source, bindings: Bindings, lowered: Option<Handle>)

  datatype Segment = Segment(list: RealList, pendings: seq<Pending>)

  /** The objects the shim's own captures bind. */
  datatype Capture = Capture(sig: Handle, pso: Handle, counts: Handle)

  datatype Wrapped = Wrapped(
    tracked: Tracked,
    rqPso: Option<Handle>,
    list: RealList,
    open: seq<Pending>,
    segments: seq<Segment>)
  {
    ghost predicate Valid() {
      && tracked.Valid() && CleanTracked(tracked)
      && forall k :: 0 <= k < |open| ==>
           && |open[k].bindings.roots| == MAX_ROOT_PARAMS
           && (open[k].source.Slot? ==> open[k].source.slot == k)
    }
  }

  function Sets(ss: seq<Setter>): (cs: seq<RealCmd>)
    ensures |cs| == |ss| && forall k :: 0 <= k < |ss| ==> cs[k] == Set(ss[k])
  {
    seq(|ss|, k requires 0 <= k < |ss| => Set(ss[k]))
  }

  function Emit(w: Wrapped, cs: seq<RealCmd>): Wrapped {
    w.(list := w.list.(cmds := w.list.cmds + cs))
  }

  function Reset(initial: Option<Handle>, lowered: set<Handle>): (w: Wrapped)
    ensures w.Valid()
  {
    UntrackedIsFresh(initial);
    Wrapped(Untracked(initial), LoweredOf(initial, lowered), RealList(initial, []), [], [])
  }

  /** The lowered query a pipeline state carries, if any. */
  function LoweredOf(p: Option<Handle>, lowered: set<Handle>): Option<Handle> {
    if p.Some? && p.value in lowered then p else None
  }

  /** `FlushQueuedSplit`: close the segment behind the queued dispatches, open a continuation. */
  function Flush(w: Wrapped): (w': Wrapped)
    requires w.Valid()
    ensures w'.Valid() && w'.open == []
  {
    if w.open == [] then w
    else w.(list := RealList(None, Sets(ReplayAll(w.tracked))),
            open := [],
            segments := w.segments + [Segment(w.list, w.open)])
  }

  function Queue(w: Wrapped, source: Source, lowered: Option<Handle>): Wrapped {
    w.(open := w.open + [Pending(source, w.tracked.bindings, lowered)])
  }

  /** The shim borrows the compute bindings for work of its own, then puts them back. */
  function Borrowed(w: Wrapped, c: Capture): (w': Wrapped)
    requires w.tracked.Valid()
  {
    Emit(w, Sets(Borrow(c.sig, c.pso, c.counts)))
  }

  function Restored(w: Wrapped): (w': Wrapped) {
    Emit(w, Sets(Restore(w.tracked)))
  }

  /** The copy of the group counts, between a capture and its restore. */
  function CountsCopied(w: Wrapped, cap: Capture, loc: Loc): Wrapped
    requires w.tracked.Valid()
  {
    Restored(Emit(Borrowed(w, cap), [ReadArgs(loc, |w.open|)]))
  }

  function RecordStep(w: Wrapped, lowered: set<Handle>, cap: Capture, c: AppCmd): (w': Wrapped)
    requires w.Valid()
    requires c.Setting? ==> Admissible(w.tracked, c.s)
    ensures w'.Valid()
  {
    match c
    case Setting(s) =>
      TrackFollows(w.tracked, s);
      Emit(w.(tracked := Track(w.tracked, s),
              rqPso := if s.SetPipelineState? then LoweredOf(s.pso, lowered) else w.rqPso),
           [Set(s)])
    case Work(x) => Emit(Flush(w), [Op(x)])
    case Build(x) => Restored(Borrowed(Emit(Flush(w), [Op(x)]), cap))
    case IndirectRays(loc) =>
      Queue(Emit(w, [ReadArgs(loc, |w.open|)]), Slot(|w.open|), None)
    case IndirectCompute(loc) =>
      Queue(CountsCopied(w, cap, loc), Slot(|w.open|), w.rqPso)
    case StaleCompute(args) => Queue(Flush(w), Given(args), w.rqPso)
    case StaleRays(args) => Queue(Flush(w), Given(args), None)
  }

  /** What D3D12 asks of one command in this state. */
  ghost predicate StepOk(w: Wrapped, c: AppCmd) {
    match c
    case Setting(s) => Admissible(w.tracked, s)
    case Work(_) => true
    case Build(_) => true
    case IndirectRays(_) => RaysBound(w.tracked)
    case StaleRays(_) => RaysBound(w.tracked)
    case IndirectCompute(_) => LoweredBound(w)
    case StaleCompute(_) => LoweredBound(w)
  }

  /** A ray dispatch needs a state object bound, a lowered one its pipeline state. */
  predicate RaysBound(t: Tracked) { t.lastBoundStateObject && t.bindings.stateObject.Some? }

  predicate LoweredBound(w: Wrapped) {
    w.rqPso.Some? && LastPipeline(w.tracked) == Pso(w.rqPso.value)
  }

  ghost predicate RecordingOk(rec: seq<AppCmd>, initial: Option<Handle>, lowered: set<Handle>,
                              cap: Capture)
    decreases |rec|, 0
  {
    rec != [] ==>
      var front := rec[..|rec| - 1];
      RecordingOk(front, initial, lowered, cap)
      && StepOk(Record(front, initial, lowered, cap), rec[|rec| - 1])
  }

  ghost function Record(rec: seq<AppCmd>, initial: Option<Handle>, lowered: set<Handle>,
                        cap: Capture): (w: Wrapped)
    requires RecordingOk(rec, initial, lowered, cap)
    ensures w.Valid()
    decreases |rec|, 1
  {
    if rec == [] then Reset(initial, lowered)
    else RecordStep(Record(rec[..|rec| - 1], initial, lowered, cap), lowered, cap, rec[|rec| - 1])
  }

  // --- what submitting the result does -----------------------------------------

  /** A list being executed: its own state, memory, and the readbacks its copies filled. */
  datatype ListRun<M> = ListRun(bound: Bound, slots: map<nat, Args>, out: Outcome<M>)

  function RunCmd<M>(m: Machine<M>, r: ListRun<M>, c: RealCmd): (r': ListRun<M>)
    requires r.bound.Valid()
    ensures r'.bound.Valid()
  {
    match c
    case Set(s) => r.(bound := Apply(r.bound, s))
    case Op(w) => r.(out := Perform(m, w, r.bound, r.out))
    case ReadArgs(loc, slot) => r.(slots := r.slots[slot := m.read(loc, r.out.mem)])
  }

  function RunCmds<M>(m: Machine<M>, r: ListRun<M>, cs: seq<RealCmd>): (r': ListRun<M>)
    requires r.bound.Valid()
    ensures r'.bound.Valid()
    decreases |cs|
  {
    if cs == [] then r else RunCmd(m, RunCmds(m, r, cs[..|cs| - 1]), cs[|cs| - 1])
  }

  function RunList<M>(m: Machine<M>, l: RealList, o: Outcome<M>): (r: ListRun<M>)
    ensures r.bound.Valid()
  {
    RunCmds(m, ListRun(Fresh(l.initial), map[], o), l.cmds)
  }

  function PendingArgs(p: Pending, slots: map<nat, Args>): Args {
    match p.source
    case Given(args) => args
    case Slot(k) => if k in slots then slots[k] else NO_ARGS
  }

  /** The state of the dispatch-only list when its dispatch is recorded. */
  function PendingView(p: Pending): View
    requires |p.bindings.roots| == MAX_ROOT_PARAMS
  {
    var v := ViewOf(ApplyAll(Fresh(None), ReplayBindings(p.bindings)));
    if p.lowered.Some? then v.(pipeline := Pso(p.lowered.value)) else v
  }

  function IssueAll<M>(m: Machine<M>, ps: seq<Pending>, slots: map<nat, Args>,
                       o: Outcome<M>): Outcome<M>
    requires forall k :: 0 <= k < |ps| ==> |ps[k].bindings.roots| == MAX_ROOT_PARAMS
    decreases |ps|
  {
    if ps == [] then o
    else
      var p := ps[|ps| - 1];
      Issue(m, PendingArgs(p, slots), PendingView(p), IssueAll(m, ps[..|ps| - 1], slots, o))
  }

  /** How often the split waits: once for each segment with dispatches behind it. */
  function Waits(segs: seq<Segment>): nat {
    if segs == [] then 0
    else Waits(segs[..|segs| - 1]) + if segs[|segs| - 1].pendings == [] then 0 else 1
  }

  ghost predicate SegmentsValid(segs: seq<Segment>) {
    forall i, k :: 0 <= i < |segs| && 0 <= k < |segs[i].pendings| ==>
      |segs[i].pendings[k].bindings.roots| == MAX_ROOT_PARAMS
  }

  function RunSegment<M>(m: Machine<M>, seg: Segment, o: Outcome<M>): Outcome<M>
    requires forall k :: 0 <= k < |seg.pendings| ==> |seg.pendings[k].bindings.roots| == MAX_ROOT_PARAMS
  {
    var r := RunList(m, seg.list, o);
    IssueAll(m, seg.pendings, r.slots, r.out)
  }

  ghost function RunSegments<M>(m: Machine<M>, segs: seq<Segment>, o: Outcome<M>): Outcome<M>
    requires SegmentsValid(segs)
    decreases |segs|
  {
    if segs == [] then o
    else RunSegment(m, segs[|segs| - 1], RunSegments(m, segs[..|segs| - 1], o))
  }

  /** `Close`, then `SubmitSegmented`: every segment with its dispatches, then the tail. */
  ghost function RunSplit<M>(m: Machine<M>, w: Wrapped, mem: M): Outcome<M>
    requires w.Valid() && SegmentsValid(w.segments)
  {
    var c := Flush(w);
    assert SegmentsValid(c.segments);
    RunList(m, c.list, RunSegments(m, c.segments, Outcome(mem, []))).out
  }

  // --- the refinement --------------------------------------------------------------

  lemma {:induction false} RunCmdsConcat<M>(m: Machine<M>, r: ListRun<M>, xs: seq<RealCmd>, ys: seq<RealCmd>)
    requires r.bound.Valid()
    ensures RunCmds(m, r, xs + ys) == RunCmds(m, RunCmds(m, r, xs), ys)
    decreases |ys|
  {
    if ys == [] {
      assert xs + ys == xs;
    } else {
      assert (xs + ys)[..|xs + ys| - 1] == xs + ys[..|ys| - 1];
      RunCmdsConcat(m, r, xs, ys[..|ys| - 1]);
    }
  }

  lemma {:induction false} RunSets<M>(m: Machine<M>, r: ListRun<M>, ss: seq<Setter>)
    requires r.bound.Valid()
    ensures RunCmds(m, r, Sets(ss)) == r.(bound := ApplyAll(r.bound, ss))
    decreases |ss|
  {
    if ss != [] {
      assert Sets(ss)[..|ss| - 1] == Sets(ss[..|ss| - 1]);
      RunSets(m, r, ss[..|ss| - 1]);
    }
  }

  lemma RunOne<M>(m: Machine<M>, r: ListRun<M>, c: RealCmd)
    requires r.bound.Valid()
    ensures RunCmds(m, r, [c]) == RunCmd(m, r, c)
  {
    assert [c][..0] == [];
    assert RunCmds(m, r, [c][..0]) == r;
  }

  /** Where the open list stands when everything recorded so far has run. */
  ghost function OpenRun<M>(m: Machine<M>, w: Wrapped, mem: M): (r: ListRun<M>)
    requires SegmentsValid(w.segments)
    ensures r.bound.Valid()
  {
    RunList(m, w.list, RunSegments(m, w.segments, Outcome(mem, [])))
  }

  /** What the commands of a list leave bound in it, whatever work is among them. */
  function HeldAfter(b: Bound, cs: seq<RealCmd>): (b': Bound)
    requires b.Valid()
    ensures b'.Valid()
    decreases |cs|
  {
    if cs == [] then b
    else
      var before := HeldAfter(b, cs[..|cs| - 1]);
      if cs[|cs| - 1].Set? then Apply(before, cs[|cs| - 1].s) else before
  }

  /** The state a real list holds. */
  function Held(l: RealList): (b: Bound)
    ensures b.Valid()
  {
    HeldAfter(Fresh(l.initial), l.cmds)
  }

  lemma {:induction false} RunHolds<M>(m: Machine<M>, r: ListRun<M>, cs: seq<RealCmd>)
    requires r.bound.Valid()
    ensures RunCmds(m, r, cs).bound == HeldAfter(r.bound, cs)
    decreases |cs|
  {
    if cs != [] { RunHolds(m, r, cs[..|cs| - 1]); }
  }

  /**
   What the recording does with the lists it was split into: as it was meant,
   dispatches late, and each piece of work with the state its own list holds.
   */
  ghost function RunHeld<M>(m: Machine<M>, rec: seq<AppCmd>, initial: Option<Handle>,
                            lowered: set<Handle>, cap: Capture, mem: M): (s: Meaning<M>)
    requires RecordingOk(rec, initial, lowered, cap)
    ensures s.bound.Valid()
    decreases |rec|
  {
    if rec == [] then Meaning(Fresh(initial), mem, Outcome(mem, []))
    else
      var front := rec[..|rec| - 1];
      MeanStep(m, true, Held(Flush(Record(front, initial, lowered, cap)).list),
               RunHeld(m, front, initial, lowered, cap, mem), rec[|rec| - 1])
  }

  /**
   The wrapper's recording stands for the application's: the copy of the bindings
   is the application's, the lists have run everything up to the current run of
   dispatches, and the queued dispatches bring them to the present.
   */
  ghost predicate StandsFor<M>(m: Machine<M>, w: Wrapped, mem: M, s: Meaning<M>) {
    && w.Valid() && SegmentsValid(w.segments)
    && Follows(w.tracked, s.bound)
    && var r := OpenRun(m, w, mem);
    && r.out.mem == s.start
    && IssueAll(m, w.open, r.slots, r.out) == s.out
    && (forall k :: k in r.slots ==> k < |w.open|)
  }

  lemma StandsValid<M>(m: Machine<M>, w: Wrapped, mem: M, s: Meaning<M>)
    requires StandsFor(m, w, mem, s)
    ensures w.Valid() && SegmentsValid(w.segments) && s.bound.Valid()
  {}

  lemma EmitRuns<M>(m: Machine<M>, w: Wrapped, mem: M, cs: seq<RealCmd>)
    requires SegmentsValid(w.segments)
    ensures OpenRun(m, Emit(w, cs), mem) == RunCmds(m, OpenRun(m, w, mem), cs)
  {
    RunCmdsConcat(m, ListRun(Fresh(w.list.initial), map[],
                             RunSegments(m, w.segments, Outcome(mem, []))), w.list.cmds, cs);
  }

  lemma FlushStands<M>(m: Machine<M>, w: Wrapped, mem: M, s: Meaning<M>)
    requires StandsFor(m, w, mem, s)
    ensures StandsFor(m, Flush(w), mem, s.(start := s.out.mem))
    ensures Flush(w).tracked == w.tracked && Flush(w).rqPso == w.rqPso
  {
    if w.open != [] { FlushRuns(m, w, mem); }
  }

  /** Closing a segment runs its dispatches and opens a list that only sets state. */
  lemma FlushRuns<M>(m: Machine<M>, w: Wrapped, mem: M)
    requires w.Valid() && SegmentsValid(w.segments) && w.open != []
    ensures SegmentsValid(Flush(w).segments)
    ensures OpenRun(m, Flush(w), mem)
         == ListRun(ApplyAll(Fresh(None), ReplayAll(w.tracked)), map[],
                    IssueAll(m, w.open, OpenRun(m, w, mem).slots, OpenRun(m, w, mem).out))
  {
    hide Apply, ApplyAll, ReplayAll, Issue, IssueAll, RunCmds;
    var f := Flush(w);
    assert f.segments[..|f.segments| - 1] == w.segments;
    var o := RunSegments(m, f.segments, Outcome(mem, []));
    RunSets(m, ListRun(Fresh(None), map[], o), ReplayAll(w.tracked));
  }

  lemma IssueAllNone<M>(m: Machine<M>, slots: map<nat, Args>, o: Outcome<M>)
    ensures IssueAll(m, [], slots, o) == o
  {}

  lemma IssueAllNext<M>(m: Machine<M>, ps: seq<Pending>, k: nat, slots: map<nat, Args>, o: Outcome<M>)
    requires forall i :: 0 <= i < |ps| ==> |ps[i].bindings.roots| == MAX_ROOT_PARAMS
    requires k < |ps|
    ensures IssueAll(m, ps[..k + 1], slots, o)
         == Issue(m, PendingArgs(ps[k], slots), PendingView(ps[k]), IssueAll(m, ps[..k], slots, o))
  {
    hide Issue, Apply, ApplyAll, ReplayBindings, ViewOf;
    assert ps[..k + 1][..k] == ps[..k];
  }

  lemma {:induction false} IssueAllFrame<M>(m: Machine<M>, ps: seq<Pending>, slots: map<nat, Args>,
                                            n: nat, args: Args, o: Outcome<M>)
    requires forall k :: 0 <= k < |ps| ==> |ps[k].bindings.roots| == MAX_ROOT_PARAMS
    requires forall k :: 0 <= k < |ps| && ps[k].source.Slot? ==> ps[k].source.slot != n
    ensures IssueAll(m, ps, slots[n := args], o) == IssueAll(m, ps, slots, o)
    decreases |ps|
  {
    if ps != [] {
      IssueAllFrame(m, ps[..|ps| - 1], slots, n, args, o);
    }
  }

  /** One more dispatch behind the open list, issued with the state the application had. */
  lemma QueueStands<M>(m: Machine<M>, w: Wrapped, mem: M, s: Meaning<M>, source: Source,
                       carried: Option<Handle>, args: Args)
    requires w.Valid() && SegmentsValid(w.segments) && Follows(w.tracked, s.bound)
    requires source.Slot? ==> source.slot == |w.open|
    requires
      var r := OpenRun(m, w, mem);
      && r.out.mem == s.start
      && IssueAll(m, w.open, r.slots, r.out) == s.out
      && (forall k :: k in r.slots ==> k <= |w.open|)
      && args == PendingArgs(Pending(source, w.tracked.bindings, carried), r.slots)
    requires PendingView(Pending(source, w.tracked.bindings, carried)) == ViewOf(s.bound)
    ensures StandsFor(m, Queue(w, source, carried), mem,
              s.(out := Issue(m, args, ViewOf(s.bound), s.out)))
  {
    hide RunCmds, ApplyAll, Apply;
    var q := Queue(w, source, carried);
    assert q.open[..|q.open| - 1] == w.open;
    assert OpenRun(m, q, mem) == OpenRun(m, w, mem);
  }

  /** A queued dispatch sees what the application had bound when it recorded it. */
  lemma PendingSees(w: Wrapped, source: Source, app: Bound)
    requires w.Valid() && Follows(w.tracked, app)
    ensures RaysBound(w.tracked) ==>
      PendingView(Pending(source, w.tracked.bindings, None)) == ViewOf(app)
    ensures LoweredBound(w) ==>
      PendingView(Pending(source, w.tracked.bindings, w.rqPso)) == ViewOf(app)
  {
    DispatchListBound(w.tracked.bindings);
  }

  /** Setting state in the open list runs nothing. */
  lemma SetsRun<M>(m: Machine<M>, w: Wrapped, mem: M, ss: seq<Setter>)
    requires SegmentsValid(w.segments)
    ensures
      var r, r' := OpenRun(m, w, mem), OpenRun(m, Emit(w, Sets(ss)), mem);
      r'.out == r.out && r'.slots == r.slots
  {
    EmitRuns(m, w, mem, Sets(ss));
    RunSets(m, OpenRun(m, w, mem), ss);
  }

  lemma SettingStands<M>(m: Machine<M>, w: Wrapped, lowered: set<Handle>, cap: Capture, mem: M,
                         s: Meaning<M>, held: Bound, x: Setter)
    requires StandsFor(m, w, mem, s) && Admissible(w.tracked, x)
    ensures StandsFor(m, RecordStep(w, lowered, cap, Setting(x)), mem, MeanStep(m, true, held, s, Setting(x)))
  {
    hide IssueAll, Apply, Track, Follows;
    StillFollows(w.tracked, s.bound, x);
    assert CleanTracked(Track(w.tracked, x)) by { TrackFollows(w.tracked, x); }
    EmitOneRuns(m, w, mem, Set(x));
    var w' := RecordStep(w, lowered, cap, Setting(x));
    assert OpenRun(m, w', mem) == OpenRun(m, Emit(w, [Set(x)]), mem);
  }

  lemma EmitOneRuns<M>(m: Machine<M>, w: Wrapped, mem: M, c: RealCmd)
    requires SegmentsValid(w.segments)
    ensures OpenRun(m, Emit(w, [c]), mem) == RunCmd(m, OpenRun(m, w, mem), c)
  {
    EmitRuns(m, w, mem, [c]);
    RunOne(m, OpenRun(m, w, mem), c);
  }

  /** Work recorded with nothing queued runs in place, with what the list holds. */
  lemma OpStands<M>(m: Machine<M>, w: Wrapped, mem: M, s: Meaning<M>, x: nat)
    requires StandsFor(m, w, mem, s) && w.open == []
    ensures StandsFor(m, Emit(w, [Op(x)]), mem, MeanStep(m, true, Held(w.list), s, Work(x)))
  {
    hide RunCmds, ApplyAll, Apply, Held, Follows;
    EmitOneRuns(m, w, mem, Op(x));
    OpenHolds(m, w, mem);
    var r := OpenRun(m, w, mem);
    assert IssueAll(m, w.open, r.slots, r.out) == r.out;
  }

  lemma OpenHolds<M>(m: Machine<M>, w: Wrapped, mem: M)
    requires SegmentsValid(w.segments)
    ensures OpenRun(m, w, mem).bound == Held(w.list)
  {
    hide RunCmds, HeldAfter;
    RunHolds(m, ListRun(Fresh(w.list.initial), map[], RunSegments(m, w.segments, Outcome(mem, []))), w.list.cmds);
  }

  lemma WorkStands<M>(m: Machine<M>, w: Wrapped, mem: M, s: Meaning<M>, x: nat)
    requires StandsFor(m, w, mem, s)
    ensures StandsFor(m, Emit(Flush(w), [Op(x)]), mem, MeanStep(m, true, Held(Flush(w).list), s, Work(x)))
  {
    hide StandsFor, RunCmds, IssueAll, Held, Follows, ReplayAll, Flush, Emit, Perform, Apply;
    StandsValid(m, w, mem, s);
    FlushStands(m, w, mem, s);
    OpStands(m, Flush(w), mem, s.(start := s.out.mem), x);
  }

  /** A capture between two commands only changes what the list holds. */
  lemma CaptureStands<M>(m: Machine<M>, w: Wrapped, cap: Capture, mem: M, s: Meaning<M>)
    requires StandsFor(m, w, mem, s)
    ensures StandsFor(m, Restored(Borrowed(w, cap)), mem, s)
  {
    hide RunCmds, IssueAll, Follows, Restore, Borrow;
    SetsRun(m, w, mem, Borrow(cap.sig, cap.pso, cap.counts));
    SetsRun(m, Borrowed(w, cap), mem, Restore(w.tracked));
  }

  lemma BuildStands<M>(m: Machine<M>, w: Wrapped, cap: Capture, mem: M, s: Meaning<M>, x: nat)
    requires StandsFor(m, w, mem, s)
    ensures StandsFor(m, Restored(Borrowed(Emit(Flush(w), [Op(x)]), cap)), mem,
                      MeanStep(m, true, Held(Flush(w).list), s, Work(x)))
  {
    hide StandsFor, Restored, Borrowed, Held, MeanStep;
    StandsValid(m, w, mem, s);
    WorkStands(m, w, mem, s, x);
    CaptureStands(m, Emit(Flush(w), [Op(x)]), cap, mem, MeanStep(m, true, Held(Flush(w).list), s, Work(x)));
  }

  lemma IndirectRaysStands<M>(m: Machine<M>, w: Wrapped, lowered: set<Handle>, cap: Capture, mem: M,
                              s: Meaning<M>, held: Bound, loc: Loc)
    requires StandsFor(m, w, mem, s) && StepOk(w, IndirectRays(loc))
    ensures StandsFor(m, RecordStep(w, lowered, cap, IndirectRays(loc)), mem,
                      MeanStep(m, true, held, s, IndirectRays(loc)))
  {
    hide StandsFor, RunCmds, IssueAll, Follows;
    StandsValid(m, w, mem, s);
    var n := |w.open|;
    EmitOneRuns(m, w, mem, ReadArgs(loc, n));
    QueuedStands(m, w, Emit(w, [ReadArgs(loc, n)]), mem, s, loc, None);
  }

  lemma CountsRun<M>(m: Machine<M>, w: Wrapped, cap: Capture, mem: M, loc: Loc)
    requires w.tracked.Valid() && SegmentsValid(w.segments)
    ensures CountsCopied(w, cap, loc) == w.(list := CountsCopied(w, cap, loc).list)
    ensures
      var r, r' := OpenRun(m, w, mem), OpenRun(m, CountsCopied(w, cap, loc), mem);
      r'.out == r.out && r'.slots == r.slots[|w.open| := m.read(loc, r.out.mem)]
  {
    hide OpenRun, Restore, Borrow, Apply, ApplyAll;
    var n := |w.open|;
    var w1 := Borrowed(w, cap);
    var w2 := Emit(w1, [ReadArgs(loc, n)]);
    SetsRun(m, w, mem, Borrow(cap.sig, cap.pso, cap.counts));
    EmitOneRuns(m, w1, mem, ReadArgs(loc, n));
    SetsRun(m, w2, mem, Restore(w2.tracked));
  }

  lemma IndirectComputeStands<M>(m: Machine<M>, w: Wrapped, lowered: set<Handle>, cap: Capture, mem: M,
                                 s: Meaning<M>, held: Bound, loc: Loc)
    requires StandsFor(m, w, mem, s) && StepOk(w, IndirectCompute(loc))
    ensures StandsFor(m, RecordStep(w, lowered, cap, IndirectCompute(loc)), mem,
                      MeanStep(m, true, held, s, IndirectCompute(loc)))
  {
    hide StandsFor, OpenRun, Follows, Restored, Borrowed, Issue, RunCmds, IssueAll, Apply, Track, Flush, Held;
    StandsValid(m, w, mem, s);
    CountsRun(m, w, cap, mem, loc);
    QueuedStands(m, w, CountsCopied(w, cap, loc), mem, s, loc, w.rqPso);
  }

  /** A dispatch queued behind a list whose copy of its arguments has just been recorded. */
  lemma QueuedStands<M>(m: Machine<M>, w: Wrapped, w1: Wrapped, mem: M, s: Meaning<M>, loc: Loc,
                        carried: Option<Handle>)
    requires StandsFor(m, w, mem, s)
    requires w1 == w.(list := w1.list)
    requires
      var r, r1 := OpenRun(m, w, mem), OpenRun(m, w1, mem);
      r1.out == r.out && r1.slots == r.slots[|w.open| := m.read(loc, r.out.mem)]
    requires (carried.None? && RaysBound(w.tracked)) || (carried == w.rqPso && LoweredBound(w))
    ensures StandsFor(m, Queue(w1, Slot(|w.open|), carried), mem,
              s.(out := Issue(m, m.read(loc, s.start), ViewOf(s.bound), s.out)))
  {
    hide RunCmds, Apply, ApplyAll, Follows, Issue;
    var n := |w.open|;
    var r := OpenRun(m, w, mem);
    IssueAllFrame(m, w.open, r.slots, n, m.read(loc, r.out.mem), r.out);
    PendingSees(w, Slot(n), s.bound);
    QueueStands(m, w1, mem, s, Slot(n), carried, m.read(loc, s.start));
  }

  lemma StaleStands<M>(m: Machine<M>, w: Wrapped, mem: M, s: Meaning<M>, args: Args,
                       carried: Option<Handle>)
    requires StandsFor(m, w, mem, s)
    requires (carried.None? && RaysBound(w.tracked)) || (carried == w.rqPso && LoweredBound(w))
    ensures StandsFor(m, Queue(Flush(w), Given(args), carried), mem,
              Meaning(s.bound, s.out.mem, Issue(m, args, ViewOf(s.bound), s.out)))
  {
    hide RunCmds, Apply, ApplyAll, Follows, Issue, ReplayAll;
    FlushStands(m, w, mem, s);
    PendingSees(Flush(w), Given(args), s.bound);
    QueueStands(m, Flush(w), mem, s.(start := s.out.mem), Given(args), carried, args);
  }

  lemma StepStands<M>(m: Machine<M>, w: Wrapped, lowered: set<Handle>, cap: Capture, mem: M,
                      s: Meaning<M>, c: AppCmd)
    requires StandsFor(m, w, mem, s) && StepOk(w, c)
    ensures StandsFor(m, RecordStep(w, lowered, cap, c), mem,
                      MeanStep(m, true, Held(Flush(w).list), s, c))
  {
    hide StandsFor, Apply, Held, ReplayAll, Restored, Borrowed, Track, Issue, Perform, Flush, Emit, Queue, CountsCopied,
         RunCmds, IssueAll, Follows;
    StandsValid(m, w, mem, s);
    var held := Held(Flush(w).list);
    match c {
      case Setting(x) => SettingStands(m, w, lowered, cap, mem, s, held, x);
      case Work(x) => WorkStands(m, w, mem, s, x);
      case Build(x) => BuildStands(m, w, cap, mem, s, x);
      case IndirectRays(loc) => IndirectRaysStands(m, w, lowered, cap, mem, s, held, loc);
      case IndirectCompute(loc) => IndirectComputeStands(m, w, lowered, cap, mem, s, held, loc);
      case StaleCompute(args) => StaleStands(m, w, mem, s, args, w.rqPso);
      case StaleRays(args) => StaleStands(m, w, mem, s, args, None);
    }
  }

  lemma {:induction false} RecordStands<M>(m: Machine<M>, rec: seq<AppCmd>, initial: Option<Handle>,
                                           lowered: set<Handle>, cap: Capture, mem: M)
    requires RecordingOk(rec, initial, lowered, cap)
    ensures StandsFor(m, Record(rec, initial, lowered, cap), mem,
                      RunHeld(m, rec, initial, lowered, cap, mem))
    decreases |rec|
  {
    if rec == [] {
      UntrackedIsFresh(initial);
    } else {
      hide StandsFor, RecordStep, MeanStep, Held, Flush, StepOk;
      var front := rec[..|rec| - 1];
      RecordStands(m, front, initial, lowered, cap, mem);
      StepStands(m, Record(front, initial, lowered, cap), lowered, cap, mem,
                 RunHeld(m, front, initial, lowered, cap, mem), rec[|rec| - 1]);
    }
  }

  /**
   For every recording: submitting its segments runs the same work in the same
   order, each piece with the state its list holds, and the same dispatches, with
   the state the application had bound, their arguments read from memory as their
   run of dispatches found it.
   */
  lemma SplitRunsHeld<M>(m: Machine<M>, rec: seq<AppCmd>, initial: Option<Handle>,
                         lowered: set<Handle>, cap: Capture, mem: M)
    requires RecordingOk(rec, initial, lowered, cap)
    ensures SegmentsValid(Record(rec, initial, lowered, cap).segments)
    ensures RunSplit(m, Record(rec, initial, lowered, cap), mem)
         == RunHeld(m, rec, initial, lowered, cap, mem).out
  {
    hide RunCmds, ReplayAll, RunHeld, Record, Follows;
    RecordStands(m, rec, initial, lowered, cap, mem);
    var w := Record(rec, initial, lowered, cap);
    if w.open != [] { FlushRuns(m, w, mem); }
  }
}
