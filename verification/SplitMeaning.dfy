/**
 What a split keeps of what the recording meant.

 The continuation's list may hold less than the application bound: a pipeline
 replayed over a later state object, graphics parameters without a signature, a
 blend factor that was taken back, compute bindings a capture could not restore.
 `Marks` follows what is lost, command by command. Everything else is kept, for
 every recording; and all of it exactly when no work runs with something lost and
 no dispatch overwrites the arguments of a later one of its run.
 */
module SplitMeaning {
  import opened Options
  import opened ListState
  import opened Replay
  import opened Split

  // --- what is bound, and what the list holds ------------------------------------

  /** What the application has bound after these commands. */
  function App(rec: seq<AppCmd>, initial: Option<Handle>): (b: Bound)
    ensures b.Valid()
    decreases |rec|
  {
    if rec == [] then Fresh(initial)
    else
      var before := App(rec[..|rec| - 1], initial);
      if rec[|rec| - 1].Setting? then Apply(before, rec[|rec| - 1].s) else before
  }

  /** What the list holds that the next piece of work would be recorded into. */
  ghost function AtWork(rec: seq<AppCmd>, initial: Option<Handle>, lowered: set<Handle>, cap: Capture): (b: Bound)
    requires RecordingOk(rec, initial, lowered, cap)
    ensures b.Valid()
  {
    Held(Flush(Record(rec, initial, lowered, cap)).list)
  }

  lemma {:induction false} BoundIsApp<M>(m: Machine<M>, late: bool, rec: seq<AppCmd>, initial: Option<Handle>, mem: M)
    ensures RunApp(m, late, rec, initial, mem).bound == App(rec, initial)
    decreases |rec|
  {
    if rec != [] { BoundIsApp(m, late, rec[..|rec| - 1], initial, mem); }
  }

  lemma {:induction false} HeldBoundIsApp<M>(m: Machine<M>, rec: seq<AppCmd>, initial: Option<Handle>,
                                             lowered: set<Handle>, cap: Capture, mem: M)
    requires RecordingOk(rec, initial, lowered, cap)
    ensures RunHeld(m, rec, initial, lowered, cap, mem).bound == App(rec, initial)
    decreases |rec|
  {
    hide Record, StepOk, Held, Flush, Apply, Perform, Issue;
    if rec != [] { HeldBoundIsApp(m, rec[..|rec| - 1], initial, lowered, cap, mem); }
  }

  lemma {:induction false} HeldAfterSets(b: Bound, cs: seq<RealCmd>, ss: seq<Setter>)
    requires b.Valid()
    ensures HeldAfter(b, cs + Sets(ss)) == ApplyAll(HeldAfter(b, cs), ss)
    decreases |ss|
  {
    if ss == [] {
      assert cs + Sets(ss) == cs;
    } else {
      var n := |ss| - 1;
      assert (cs + Sets(ss))[..|cs + Sets(ss)| - 1] == cs + Sets(ss[..n]);
      HeldAfterSets(b, cs, ss[..n]);
    }
  }

  lemma HeldAfterOne(b: Bound, cs: seq<RealCmd>, c: RealCmd)
    requires b.Valid()
    ensures HeldAfter(b, cs + [c]) == if c.Set? then Apply(HeldAfter(b, cs), c.s) else HeldAfter(b, cs)
  {
    assert (cs + [c])[..|cs|] == cs;
  }

  // --- what is lost ------------------------------------------------------------------

  /** Of the graphics parameters, which ones, and what the list holds there. */
  datatype Lost = Lost(pipeline: bool, compute: bool, factor: bool, graphics: map<nat, RootArgument>)

  const NOTHING := Lost(false, false, false, map[])

  ghost predicate ArgumentFits(l: Lost, held: Bound, app: Bound, k: nat)
    requires held.Valid() && app.Valid() && k < MAX_ROOT_PARAMS
  {
    var h, a := held.graphics.arguments[k], app.graphics.arguments[k];
    if k in l.graphics then h == l.graphics[k] && h != a else h == a
  }

  /** Outside the marks the list holds what is bound; inside, it does not. */
  ghost predicate Fits(l: Lost, held: Bound, app: Bound) {
    && held.Valid() && app.Valid()
    && held.heaps == app.heaps && held.vertexBuffers == app.vertexBuffers
    && held.graphics.sig == app.graphics.sig
    && (l.pipeline <==> held.pipeline != app.pipeline)
    && (l.compute <==> held.compute != app.compute)
    && (l.factor <==> held.fixed.blendFactor != app.fixed.blendFactor)
    && held.fixed == app.fixed.(blendFactor := held.fixed.blendFactor)
    && (forall k :: k in l.graphics ==> k < MAX_ROOT_PARAMS)
    && (forall k :: 0 <= k < MAX_ROOT_PARAMS ==> ArgumentFits(l, held, app, k))
  }

  /** A continuation without a graphics root signature gets no parameters. */
  function GraphicsLost(t: Tracked): map<nat, RootArgument>
    requires |t.gfx.roots| == MAX_ROOT_PARAMS
  {
    map k: nat | 0 <= k < MAX_ROOT_PARAMS && t.gfx.rootSig.None? && ArgumentOf(t.gfx.roots[k]) != Unset :: Unset
  }

  /** If a segment is closed, what its continuation does not get back. */
  ghost function AfterFlush(l: Lost, w: Wrapped, app: Bound): Lost
    requires w.Valid()
  {
    if w.open == [] then l
    else Lost(!PipelineReplays(w.tracked), false,
              w.tracked.gfx.fixed.blendFactor != app.fixed.blendFactor, GraphicsLost(w.tracked))
  }

  function AfterCapture(l: Lost, t: Tracked): Lost {
    l.(pipeline := !PipelineRestores(t), compute := t.bindings.rootSig.None?)
  }

  /** The next setter of a slot ends its mark, unless it writes constants into the middle. */
  function AfterSetter(l: Lost, app: Bound, s: Setter): Lost {
    match s
    case SetPipelineState(_) => l.(pipeline := false)
    case SetPipelineState1(_) => l.(pipeline := false)
    case SetRootSignature(side, _) => if side.Compute? then l.(compute := false) else l.(graphics := map[])
    case SetRoot(side, k, v) => if side.Compute? then l else l.(graphics := AfterRoot(l.graphics, app, k, v))
    case OMSetBlendFactor(_) => l.(factor := false)
    case _ => l
  }

  function AfterRoot(lost: map<nat, RootArgument>, app: Bound, k: nat, v: RootValue): map<nat, RootArgument> {
    if k !in lost || k >= |app.graphics.arguments| then lost
    else if SetArgument(lost[k], v) == SetArgument(app.graphics.arguments[k], v) then lost - {k}
    else lost[k := SetArgument(lost[k], v)]
  }

  ghost function MarkStep(l: Lost, w: Wrapped, app: Bound, c: AppCmd): Lost
    requires w.Valid()
  {
    match c
    case Setting(s) => AfterSetter(l, app, s)
    case Work(_) => AfterFlush(l, w, app)
    case Build(_) => AfterCapture(AfterFlush(l, w, app), w.tracked)
    case IndirectRays(_) => l
    case IndirectCompute(_) => AfterCapture(l, w.tracked)
    case StaleCompute(_) => AfterFlush(l, w, app)
    case StaleRays(_) => AfterFlush(l, w, app)
  }

  ghost function Marks(rec: seq<AppCmd>, initial: Option<Handle>, lowered: set<Handle>, cap: Capture): Lost
    requires RecordingOk(rec, initial, lowered, cap)
    decreases |rec|
  {
    if rec == [] then NOTHING
    else
      var front := rec[..|rec| - 1];
      MarkStep(Marks(front, initial, lowered, cap), Record(front, initial, lowered, cap),
               App(front, initial), rec[|rec| - 1])
  }

  /** The compute parameters of a list without the application's signature stay lost. */
  ghost predicate ComputeFits(held: Bound, app: Bound) {
    held.compute != app.compute ==> held.compute.sig != app.compute.sig
  }

  /** The graphics parameters are left alone. */
  lemma ArgumentsStay(l: Lost, held: Bound, app: Bound, l': Lost, held': Bound, app': Bound)
    requires Fits(l, held, app) && held'.Valid() && app'.Valid() && l'.graphics == l.graphics
    requires held'.graphics == held.graphics && app'.graphics == app.graphics
    ensures forall k :: 0 <= k < MAX_ROOT_PARAMS ==> ArgumentFits(l', held', app', k)
  {
    forall k | 0 <= k < MAX_ROOT_PARAMS ensures ArgumentFits(l', held', app', k) {
      assert ArgumentFits(l, held, app, k);
    }
  }

  /** One is written. */
  lemma ArgumentsWritten(l: Lost, held: Bound, app: Bound, held': Bound, app': Bound, i: nat, v: RootValue)
    requires Fits(l, held, app) && held'.Valid() && app'.Valid() && i < MAX_ROOT_PARAMS
    requires held'.graphics.arguments == held.graphics.arguments[i := SetArgument(held.graphics.arguments[i], v)]
    requires app'.graphics.arguments == app.graphics.arguments[i := SetArgument(app.graphics.arguments[i], v)]
    ensures forall k :: 0 <= k < MAX_ROOT_PARAMS ==>
      ArgumentFits(l.(graphics := AfterRoot(l.graphics, app, i, v)), held', app', k)
  {
    hide SetArgument;
    var l' := l.(graphics := AfterRoot(l.graphics, app, i, v));
    forall k | 0 <= k < MAX_ROOT_PARAMS ensures ArgumentFits(l', held', app', k) {
      assert ArgumentFits(l, held, app, k);
    }
  }

  lemma RootFits(l: Lost, held: Bound, app: Bound, s: Setter)
    requires Fits(l, held, app) && ComputeFits(held, app) && s.SetRoot?
    ensures Fits(AfterSetter(l, app, s), Apply(held, s), Apply(app, s)) && ComputeFits(Apply(held, s), Apply(app, s))
  {
    hide SetArgument, ArgumentFits;
    var l', held', app' := AfterSetter(l, app, s), Apply(held, s), Apply(app, s);
    if s.side.Graphics? && s.index < MAX_ROOT_PARAMS {
      ArgumentsWritten(l, held, app, held', app', s.index, s.value);
    } else {
      ArgumentsStay(l, held, app, l', held', app');
      assert held'.compute.sig == held.compute.sig && app'.compute.sig == app.compute.sig;
    }
  }

  lemma SetterFits(l: Lost, held: Bound, app: Bound, s: Setter)
    requires Fits(l, held, app) && ComputeFits(held, app)
    ensures Fits(AfterSetter(l, app, s), Apply(held, s), Apply(app, s)) && ComputeFits(Apply(held, s), Apply(app, s))
  {
    hide SetArgument, ApplyRoot, WriteSlots, AfterRoot, NoArguments;
    if s.SetRoot? {
      RootFits(l, held, app, s);
    } else if s.SetRootSignature? && s.side.Graphics? {
    } else {
      hide ArgumentFits;
      ArgumentsStay(l, held, app, AfterSetter(l, app, s), Apply(held, s), Apply(app, s));
    }
  }

  lemma FlushFits(l: Lost, w: Wrapped, app: Bound)
    requires w.Valid() && Follows(w.tracked, app)
    ensures w.open != [] ==> Fits(AfterFlush(l, w, app), Replayed(w.tracked), app)
    ensures w.open != [] ==> Replayed(w.tracked).compute == app.compute
  {}

  lemma CaptureFits(l: Lost, held: Bound, app: Bound, t: Tracked, cap: Capture)
    requires Fits(l, held, app) && Follows(t, app)
    ensures
      var after := ApplyAll(ApplyAll(held, Borrow(cap.sig, cap.pso, cap.counts)), Restore(t));
      Fits(AfterCapture(l, t), after, app) && ComputeFits(after, app)
  {
    hide Apply, ApplyAll, Borrow, Restore;
    CaptureLeaves(held, t, cap.sig, cap.pso, cap.counts);
    var after := ApplyAll(ApplyAll(held, Borrow(cap.sig, cap.pso, cap.counts)), Restore(t));
    forall k | 0 <= k < MAX_ROOT_PARAMS ensures ArgumentFits(AfterCapture(l, t), after, app, k) {
      assert ArgumentFits(l, held, app, k);
    }
  }

  /** The list of a recording and what the application bound: outside the marks the same. */
  ghost predicate Right(l: Lost, w: Wrapped, app: Bound) {
    && w.Valid() && Follows(w.tracked, app)
    && Fits(l, Held(w.list), app) && ComputeFits(Held(w.list), app)
  }

  lemma SettingRight(l: Lost, w: Wrapped, app: Bound, lowered: set<Handle>, cap: Capture, s: Setter)
    requires Right(l, w, app) && Admissible(w.tracked, s)
    ensures Right(AfterSetter(l, app, s), RecordStep(w, lowered, cap, Setting(s)), Apply(app, s))
  {
    hide Apply, Fits, Follows, HeldAfter, Track, AfterSetter;
    HeldAfterOne(Fresh(w.list.initial), w.list.cmds, Set(s));
    SetterFits(l, Held(w.list), app, s);
    StillFollows(w.tracked, app, s);
  }

  lemma FlushRight(l: Lost, w: Wrapped, app: Bound)
    requires Right(l, w, app)
    ensures Right(AfterFlush(l, w, app), Flush(w), app)
  {
    assert HeldAfter(Fresh(None), []) == Fresh(None);
    hide Apply, ApplyAll, Fits, Follows, HeldAfter, ReplayAll, Replayed;
    if w.open != [] {
      FlushFits(l, w, app);
      HeldAfterSets(Fresh(None), [], ReplayAll(w.tracked));
      assert [] + Sets(ReplayAll(w.tracked)) == Sets(ReplayAll(w.tracked));
      ReplaySets(w.tracked);
    }
  }

  /** Work, or the copy of arguments, changes nothing a list holds. */
  lemma EmitRight(l: Lost, w: Wrapped, app: Bound, c: RealCmd)
    requires Right(l, w, app) && !c.Set?
    ensures Right(l, Emit(w, [c]), app)
  {
    hide Fits, Follows, HeldAfter;
    HeldAfterOne(Fresh(w.list.initial), w.list.cmds, c);
  }

  lemma CaptureRight(l: Lost, w: Wrapped, w': Wrapped, app: Bound, cap: Capture)
    requires Right(l, w, app) && w'.Valid()
    requires w' == Restored(Borrowed(w, cap)).(open := w'.open, segments := w'.segments)
    ensures Right(AfterCapture(l, w.tracked), w', app)
  {
    hide Apply, ApplyAll, Fits, Follows, HeldAfter, Borrow, Restore;
    HeldAfterSets(Fresh(w.list.initial), w.list.cmds, Borrow(cap.sig, cap.pso, cap.counts));
    HeldAfterSets(Fresh(w.list.initial), Borrowed(w, cap).list.cmds, Restore(w.tracked));
    CaptureFits(l, Held(w.list), app, w.tracked, cap);
  }

  lemma StepRight(l: Lost, w: Wrapped, app: Bound, lowered: set<Handle>, cap: Capture, c: AppCmd)
    requires Right(l, w, app) && StepOk(w, c)
    ensures Right(MarkStep(l, w, app, c), RecordStep(w, lowered, cap, c), if c.Setting? then Apply(app, c.s) else app)
  {
    hide Right, Apply, AfterFlush, AfterCapture, AfterSetter, Track, Held, Follows, Fits, Borrow, Restore, ReplayAll;
    RightValid(l, w, app);
    match c {
      case Setting(s) => SettingRight(l, w, app, lowered, cap, s);
      case Work(x) =>
        FlushRight(l, w, app);
        EmitRight(AfterFlush(l, w, app), Flush(w), app, Op(x));
      case Build(x) =>
        FlushRight(l, w, app);
        EmitRight(AfterFlush(l, w, app), Flush(w), app, Op(x));
        CaptureRight(AfterFlush(l, w, app), Emit(Flush(w), [Op(x)]), RecordStep(w, lowered, cap, c), app, cap);
      case IndirectRays(loc) =>
        EmitRight(l, w, app, ReadArgs(loc, |w.open|));
        QueueRight(l, Emit(w, [ReadArgs(loc, |w.open|)]), RecordStep(w, lowered, cap, c), app);
      case IndirectCompute(loc) => CountsRight(l, w, RecordStep(w, lowered, cap, c), app, cap, loc);
      case StaleCompute(args) =>
        FlushRight(l, w, app);
        QueueRight(AfterFlush(l, w, app), Flush(w), RecordStep(w, lowered, cap, c), app);
      case StaleRays(args) =>
        FlushRight(l, w, app);
        QueueRight(AfterFlush(l, w, app), Flush(w), RecordStep(w, lowered, cap, c), app);
    }
  }

  lemma RightValid(l: Lost, w: Wrapped, app: Bound)
    requires Right(l, w, app)
    ensures w.Valid() && app.Valid()
  {}

  /** Queueing a dispatch touches no list. */
  lemma QueueRight(l: Lost, w: Wrapped, w': Wrapped, app: Bound)
    requires Right(l, w, app) && w'.Valid() && w'.list == w.list && w'.tracked == w.tracked
    ensures Right(l, w', app)
  {}

  lemma CountsRight(l: Lost, w: Wrapped, w': Wrapped, app: Bound, cap: Capture, loc: Loc)
    requires Right(l, w, app) && w'.Valid()
    requires w' == CountsCopied(w, cap, loc).(open := w'.open)
    ensures Right(AfterCapture(l, w.tracked), w', app)
  {
    hide Apply, ApplyAll, Fits, Follows, HeldAfter, Borrow, Restore;
    var start := Fresh(w.list.initial);
    var w1 := Borrowed(w, cap);
    HeldAfterSets(start, w.list.cmds, Borrow(cap.sig, cap.pso, cap.counts));
    HeldAfterOne(start, w1.list.cmds, ReadArgs(loc, |w.open|));
    HeldAfterSets(start, w1.list.cmds + [ReadArgs(loc, |w.open|)], Restore(w.tracked));
    CaptureFits(l, Held(w.list), app, w.tracked, cap);
  }

  lemma {:induction false} RecordRight(rec: seq<AppCmd>, initial: Option<Handle>, lowered: set<Handle>, cap: Capture)
    requires RecordingOk(rec, initial, lowered, cap)
    ensures Right(Marks(rec, initial, lowered, cap), Record(rec, initial, lowered, cap), App(rec, initial))
    decreases |rec|
  {
    if rec == [] {
      UntrackedIsFresh(initial);
    } else {
      hide Right, RecordStep, MarkStep, Apply, StepOk;
      var front := rec[..|rec| - 1];
      RecordRight(front, initial, lowered, cap);
      RightValid(Marks(front, initial, lowered, cap), Record(front, initial, lowered, cap), App(front, initial));
      StepRight(Marks(front, initial, lowered, cap), Record(front, initial, lowered, cap), App(front, initial),
                lowered, cap, rec[|rec| - 1]);
    }
  }

  /** What is lost when the next piece of work runs. */
  ghost function LostAtWork(rec: seq<AppCmd>, initial: Option<Handle>, lowered: set<Handle>, cap: Capture): Lost
    requires RecordingOk(rec, initial, lowered, cap)
  {
    AfterFlush(Marks(rec, initial, lowered, cap), Record(rec, initial, lowered, cap), App(rec, initial))
  }

  /**
   Whatever was recorded: work recorded next runs with what the application has
   bound, slot by slot, exactly but for what is marked lost.
   */
  lemma LostExactly(rec: seq<AppCmd>, initial: Option<Handle>, lowered: set<Handle>, cap: Capture)
    requires RecordingOk(rec, initial, lowered, cap)
    ensures Fits(LostAtWork(rec, initial, lowered, cap), AtWork(rec, initial, lowered, cap), App(rec, initial))
  {
    hide Fits, Record, Marks, App, Held, Follows;
    RecordRight(rec, initial, lowered, cap);
    FlushRight(Marks(rec, initial, lowered, cap), Record(rec, initial, lowered, cap), App(rec, initial));
  }

  // --- every recording -----------------------------------------------------------------

  /** The same work or dispatch, with the same state outside what is lost. */
  ghost predicate EventAlike(l: Lost, e: Event, e': Event) {
    match e
    case Ran(w, held) => e'.Ran? && e'.work == w && Fits(l, held, e'.bound)
    case Dispatched(_, view) => e'.Dispatched? && e'.view == view
    case NotDrawn(view) => e' == e
  }

  /** What is lost at each event; every command but a setting makes one. */
  ghost function LostMarks(rec: seq<AppCmd>, initial: Option<Handle>, lowered: set<Handle>, cap: Capture): seq<Lost>
    requires RecordingOk(rec, initial, lowered, cap)
    decreases |rec|
  {
    if rec == [] then []
    else
      var front := rec[..|rec| - 1];
      var before := LostMarks(front, initial, lowered, cap);
      if rec[|rec| - 1].Setting? then before else before + [LostAtWork(front, initial, lowered, cap)]
  }

  /** Event by event. */
  ghost predicate Alike(lost: seq<Lost>, tr: seq<Event>, tr': seq<Event>) {
    && |tr| == |lost| == |tr'|
    && forall i :: 0 <= i < |lost| ==> EventAlike(lost[i], tr[i], tr'[i])
  }

  lemma AlikeNext(lost: seq<Lost>, l: Lost, tr: seq<Event>, tr': seq<Event>, t: seq<Event>, t': seq<Event>)
    requires Alike(lost, tr, tr')
    requires |t| == |tr| + 1 && |t'| == |tr'| + 1 && t[..|t| - 1] == tr && t'[..|t'| - 1] == tr'
    requires EventAlike(l, t[|t| - 1], t'[|t'| - 1])
    ensures Alike(lost + [l], t, t')
  {
    hide EventAlike;
    forall i | 0 <= i < |lost| ensures EventAlike((lost + [l])[i], t[i], t'[i]) {
      assert t[i] == tr[i] && t'[i] == tr'[i];
    }
  }

  lemma StepAlike<M>(m: Machine<M>, late: bool, held: Bound, h: Meaning<M>, d: Meaning<M>, l: Lost, c: AppCmd)
    requires h.bound.Valid() && h.bound == d.bound && |h.out.trace| == |d.out.trace|
    requires Fits(l, held, d.bound)
    ensures
      var t, t' := MeanStep(m, true, held, h, c).out.trace, MeanStep(m, late, d.bound, d, c).out.trace;
      if c.Setting? then t == h.out.trace && t' == d.out.trace
      else
        && |t| == |h.out.trace| + 1 && |t'| == |d.out.trace| + 1
        && t[..|t| - 1] == h.out.trace && t'[..|t'| - 1] == d.out.trace
        && EventAlike(l, t[|t| - 1], t'[|t'| - 1])
  {
    hide Fits, Apply, ViewOf;
  }

  lemma {:induction false} HeldAlike<M>(m: Machine<M>, late: bool, rec: seq<AppCmd>, initial: Option<Handle>,
                                        lowered: set<Handle>, cap: Capture, mem: M)
    requires RecordingOk(rec, initial, lowered, cap)
    ensures
      var h, d := RunHeld(m, rec, initial, lowered, cap, mem), RunApp(m, late, rec, initial, mem);
      && |h.out.trace| == |d.out.trace|
      && Alike(LostMarks(rec, initial, lowered, cap), h.out.trace, d.out.trace)
    decreases |rec|
  {
    if rec != [] {
      var front := rec[..|rec| - 1];
      assert RecordingOk(front, initial, lowered, cap);
      hide Fits, EventAlike, MeanStep, Held, Flush, Record, LostAtWork, StepOk, RecordingOk, Alike;
      HeldAlike(m, late, front, initial, lowered, cap, mem);
      HeldBoundIsApp(m, front, initial, lowered, cap, mem);
      BoundIsApp(m, late, front, initial, mem);
      LostExactly(front, initial, lowered, cap);
      var h, d := RunHeld(m, front, initial, lowered, cap, mem), RunApp(m, late, front, initial, mem);
      StepAlike(m, late, AtWork(front, initial, lowered, cap), h, d,
                LostAtWork(front, initial, lowered, cap), rec[|rec| - 1]);
      if !rec[|rec| - 1].Setting? {
        AlikeNext(LostMarks(front, initial, lowered, cap), LostAtWork(front, initial, lowered, cap),
                  h.out.trace, d.out.trace, RunHeld(m, rec, initial, lowered, cap, mem).out.trace,
                  RunApp(m, late, rec, initial, mem).out.trace);
      }
    }
  }

  /**
   For every recording and whatever the GPU does: the submission runs the same work
   and the same dispatches in the same order, each dispatch with the state the
   application had bound, each piece of work with that state outside what is lost.
   */
  lemma SplitKeepsRest<M>(m: Machine<M>, rec: seq<AppCmd>, initial: Option<Handle>, lowered: set<Handle>,
                          cap: Capture, mem: M)
    requires RecordingOk(rec, initial, lowered, cap)
    ensures SegmentsValid(Record(rec, initial, lowered, cap).segments)
    ensures Alike(LostMarks(rec, initial, lowered, cap), RunSplit(m, Record(rec, initial, lowered, cap), mem).trace,
                  RunApp(m, false, rec, initial, mem).out.trace)
  {
    hide Alike, LostMarks, RunHeld, RunApp, Record, RunSplit;
    SplitRunsHeld(m, rec, initial, lowered, cap, mem);
    HeldAlike(m, false, rec, initial, lowered, cap, mem);
  }

  // --- exactly what was meant --------------------------------------------------------------

  predicate ReadsArguments(c: AppCmd) { c.IndirectRays? || c.IndirectCompute? }

  /** No queued dispatch wrote the arguments of a later one of its run that is drawn. */
  ghost predicate NoHazard<M>(m: Machine<M>, rec: seq<AppCmd>, initial: Option<Handle>, mem: M)
    decreases |rec|
  {
    rec != [] ==>
      && NoHazard(m, rec[..|rec| - 1], initial, mem)
      && var s, c := RunApp(m, false, rec[..|rec| - 1], initial, mem), rec[|rec| - 1];
      && (ReadsArguments(c) && m.draws(|s.out.trace|) ==> m.read(c.loc, s.start) == m.read(c.loc, s.out.mem))
  }

  /** No work was recorded while something was marked lost. */
  ghost predicate NothingLost(rec: seq<AppCmd>, initial: Option<Handle>, lowered: set<Handle>, cap: Capture)
    requires RecordingOk(rec, initial, lowered, cap)
    decreases |rec|
  {
    rec != [] ==>
      var front := rec[..|rec| - 1];
      && NothingLost(front, initial, lowered, cap)
      && (Ordered(rec[|rec| - 1]) ==> LostAtWork(front, initial, lowered, cap) == NOTHING)
  }

  lemma MarkedDiffers(l: Lost, held: Bound, app: Bound, k: nat)
    requires Fits(l, held, app) && k in l.graphics
    ensures k < MAX_ROOT_PARAMS && held.graphics.arguments[k] != app.graphics.arguments[k]
  {
    assert ArgumentFits(l, held, app, k);
  }

  /** Nothing is marked exactly when the list holds what the application has bound. */
  lemma NothingMarked(l: Lost, held: Bound, app: Bound)
    requires Fits(l, held, app)
    ensures l == NOTHING <==> held == app
  {
    if l == NOTHING {
      forall k | 0 <= k < MAX_ROOT_PARAMS ensures held.graphics.arguments[k] == app.graphics.arguments[k] {
        assert ArgumentFits(l, held, app, k);
      }
      assert held.graphics.arguments == app.graphics.arguments;
      assert held.fixed == app.fixed;
    }
    if held == app {
      if k :| k in l.graphics { MarkedDiffers(l, held, app, k); }
      assert l.graphics == map[];
    }
  }

  /** One command: the same step exactly when it reads the same arguments and sees the same state. */
  lemma StepIsMeant<M>(m: Machine<M>, held: Bound, s: Meaning<M>, c: AppCmd)
    requires s.bound.Valid()
    ensures
      var h, d := MeanStep(m, true, held, s, c), MeanStep(m, false, s.bound, s, c);
      if (ReadsArguments(c) && m.draws(|s.out.trace|) ==> m.read(c.loc, s.start) == m.read(c.loc, s.out.mem))
         && (Ordered(c) ==> held == s.bound)
      then h == d
      else h.out.trace != d.out.trace
  {
    hide Apply, ViewOf;
    var h, d := MeanStep(m, true, held, s, c), MeanStep(m, false, s.bound, s, c);
    var n := |s.out.trace|;
    if Ordered(c) {
      assert h.out.trace[n] == Ran(c.w, held) && d.out.trace[n] == Ran(c.w, s.bound);
    } else if ReadsArguments(c) && m.draws(n) {
      assert h.out.trace[n] == Dispatched(m.read(c.loc, s.start), ViewOf(s.bound));
      assert d.out.trace[n] == Dispatched(m.read(c.loc, s.out.mem), ViewOf(s.bound));
    }
  }

  /** Traces that differ go on differing. */
  lemma StillDiffer<M>(m: Machine<M>, held: Bound, h: Meaning<M>, d: Meaning<M>, c: AppCmd)
    requires h.bound.Valid() && d.bound.Valid()
    requires |h.out.trace| == |d.out.trace| && h.out.trace != d.out.trace
    ensures MeanStep(m, true, held, h, c).out.trace != MeanStep(m, false, d.bound, d, c).out.trace
  {
    hide Apply, ViewOf;
    var t, t' := MeanStep(m, true, held, h, c).out.trace, MeanStep(m, false, d.bound, d, c).out.trace;
    assert t[..|h.out.trace|] == h.out.trace && t'[..|d.out.trace|] == d.out.trace;
  }

  lemma {:induction false} HeldIsMeant<M>(m: Machine<M>, rec: seq<AppCmd>, initial: Option<Handle>,
                                          lowered: set<Handle>, cap: Capture, mem: M)
    requires RecordingOk(rec, initial, lowered, cap)
    ensures
      var h, d := RunHeld(m, rec, initial, lowered, cap, mem), RunApp(m, false, rec, initial, mem);
      if NoHazard(m, rec, initial, mem) && NothingLost(rec, initial, lowered, cap) then h == d
      else h.out.trace != d.out.trace
    decreases |rec|
  {
    if rec != [] {
      hide MeanStep, Held, Flush, Record, StepOk, Alike, Fits, LostAtWork;
      var front, c := rec[..|rec| - 1], rec[|rec| - 1];
      HeldIsMeant(m, front, initial, lowered, cap, mem);
      HeldAlike(m, false, front, initial, lowered, cap, mem);
      BoundIsApp(m, false, front, initial, mem);
      var held := AtWork(front, initial, lowered, cap);
      LostExactly(front, initial, lowered, cap);
      NothingMarked(LostAtWork(front, initial, lowered, cap), held, App(front, initial));
      var h, d := RunHeld(m, front, initial, lowered, cap, mem), RunApp(m, false, front, initial, mem);
      if h == d {
        StepIsMeant(m, held, d, c);
      } else {
        HeldBoundIsApp(m, front, initial, lowered, cap, mem);
        StillDiffer(m, held, h, d, c);
      }
    }
  }

  /**
   Splitting preserves meaning: the submission runs the same work and dispatches,
   with the same arguments and the same bound state, and leaves the same memory, if
   and only if no queued dispatch writes the arguments of a later one before a
   barrier ends the run, and no work runs with something marked lost.
   */
  lemma SplitPreservesMeaning<M>(m: Machine<M>, rec: seq<AppCmd>, initial: Option<Handle>,
                                 lowered: set<Handle>, cap: Capture, mem: M)
    requires RecordingOk(rec, initial, lowered, cap)
    ensures SegmentsValid(Record(rec, initial, lowered, cap).segments)
    ensures RunSplit(m, Record(rec, initial, lowered, cap), mem)
         == RunApp(m, false, rec, initial, mem).out
       <==> NoHazard(m, rec, initial, mem) && NothingLost(rec, initial, lowered, cap)
  {
    hide RunHeld, RunApp, Record, RunSplit, NoHazard, NothingLost;
    SplitRunsHeld(m, rec, initial, lowered, cap, mem);
    HeldIsMeant(m, rec, initial, lowered, cap, mem);
  }

  // --- work that does not look at what is lost ------------------------------------------------

  /** Where something is lost the work does to memory what it would have done without. */
  ghost predicate WorkIgnoresLost<M(!new)>(m: Machine<M>, rec: seq<AppCmd>, initial: Option<Handle>,
                                           lowered: set<Handle>, cap: Capture)
    requires RecordingOk(rec, initial, lowered, cap)
    decreases |rec|
  {
    rec != [] ==>
      var front, c := rec[..|rec| - 1], rec[|rec| - 1];
      && WorkIgnoresLost(m, front, initial, lowered, cap)
      && (Ordered(c) ==> forall mem: M ::
            m.run(c.w, AtWork(front, initial, lowered, cap), mem) == m.run(c.w, App(front, initial), mem))
  }

  /** Dispatches with their arguments and their state; of work, which it was. */
  ghost predicate SameDispatches(tr: seq<Event>, tr': seq<Event>) {
    && |tr| == |tr'|
    && forall i :: 0 <= i < |tr| ==>
         if tr[i].Ran? then tr'[i].Ran? && tr'[i].work == tr[i].work else tr'[i] == tr[i]
  }

  lemma StepSame<M(!new)>(m: Machine<M>, held: Bound, h: Meaning<M>, d: Meaning<M>, c: AppCmd)
    requires h.bound.Valid() && h.bound == d.bound && h.start == d.start && h.out.mem == d.out.mem
    requires SameDispatches(h.out.trace, d.out.trace)
    requires ReadsArguments(c) && m.draws(|d.out.trace|) ==> m.read(c.loc, d.start) == m.read(c.loc, d.out.mem)
    requires Ordered(c) ==> m.run(c.w, held, d.out.mem) == m.run(c.w, d.bound, d.out.mem)
    ensures
      var h', d' := MeanStep(m, true, held, h, c), MeanStep(m, false, d.bound, d, c);
      && h'.start == d'.start && h'.out.mem == d'.out.mem
      && SameDispatches(h'.out.trace, d'.out.trace)
  {
    hide Apply, ViewOf;
  }

  lemma {:induction false} HeldSame<M(!new)>(m: Machine<M>, rec: seq<AppCmd>, initial: Option<Handle>,
                                             lowered: set<Handle>, cap: Capture, mem: M)
    requires RecordingOk(rec, initial, lowered, cap)
    requires NoHazard(m, rec, initial, mem) && WorkIgnoresLost(m, rec, initial, lowered, cap)
    ensures
      var h, d := RunHeld(m, rec, initial, lowered, cap, mem), RunApp(m, false, rec, initial, mem);
      && h.start == d.start && h.out.mem == d.out.mem
      && SameDispatches(h.out.trace, d.out.trace)
    decreases |rec|
  {
    if rec != [] {
      hide MeanStep, Held, Flush, Record, StepOk, SameDispatches;
      var front := rec[..|rec| - 1];
      HeldSame(m, front, initial, lowered, cap, mem);
      BoundIsApp(m, false, front, initial, mem);
      HeldBoundIsApp(m, front, initial, lowered, cap, mem);
      StepSame(m, AtWork(front, initial, lowered, cap), RunHeld(m, front, initial, lowered, cap, mem),
               RunApp(m, false, front, initial, mem), rec[|rec| - 1]);
    }
  }

  /**
   If nothing lost matters to the work it is lost for, a split that has no hazard
   makes every dispatch with the arguments it was meant to have, and leaves the
   memory the recording meant.
   */
  lemma SplitSameMemory<M(!new)>(m: Machine<M>, rec: seq<AppCmd>, initial: Option<Handle>,
                                 lowered: set<Handle>, cap: Capture, mem: M)
    requires RecordingOk(rec, initial, lowered, cap)
    requires NoHazard(m, rec, initial, mem) && WorkIgnoresLost(m, rec, initial, lowered, cap)
    ensures SegmentsValid(Record(rec, initial, lowered, cap).segments)
    ensures
      var split, meant := RunSplit(m, Record(rec, initial, lowered, cap), mem), RunApp(m, false, rec, initial, mem).out;
      split.mem == meant.mem && SameDispatches(split.trace, meant.trace)
  {
    hide RunHeld, RunApp, Record, RunSplit, NoHazard, WorkIgnoresLost, SameDispatches;
    SplitRunsHeld(m, rec, initial, lowered, cap, mem);
    HeldSame(m, rec, initial, lowered, cap, mem);
  }

  // --- the failing recordings -------------------------------------------------------------------

  lemma OneMore<M>(m: Machine<M>, rec: seq<AppCmd>, c: AppCmd, initial: Option<Handle>, lowered: set<Handle>,
                   cap: Capture, mem: M)
    requires RecordingOk(rec, initial, lowered, cap) && StepOk(Record(rec, initial, lowered, cap), c)
    ensures RecordingOk(rec + [c], initial, lowered, cap)
    ensures Record(rec + [c], initial, lowered, cap) == RecordStep(Record(rec, initial, lowered, cap), lowered, cap, c)
    ensures App(rec + [c], initial) == if c.Setting? then Apply(App(rec, initial), c.s) else App(rec, initial)
    ensures NothingLost(rec + [c], initial, lowered, cap) <==>
      && NothingLost(rec, initial, lowered, cap)
      && (Ordered(c) ==> LostAtWork(rec, initial, lowered, cap) == NOTHING)
    ensures
      var s := RunApp(m, false, rec, initial, mem);
      && RunApp(m, false, rec + [c], initial, mem) == MeanStep(m, false, s.bound, s, c)
      && (NoHazard(m, rec + [c], initial, mem) <==>
            && NoHazard(m, rec, initial, mem)
            && (ReadsArguments(c) && m.draws(|s.out.trace|) ==> m.read(c.loc, s.start) == m.read(c.loc, s.out.mem)))
  {
    hide RecordStep, Apply, MeanStep, StepOk, Held, Flush, LostAtWork;
    assert (rec + [c])[..|rec + [c]| - 1] == rec;
  }

  /** A state object, then an indirect dispatch: nothing lost so far, and one dispatch queued. */
  lemma BoundThenIndirect<M>(m: Machine<M>, initial: Option<Handle>, so: Handle, loc: Loc, lowered: set<Handle>,
                             cap: Capture, mem: M)
    ensures
      var bind: seq<AppCmd> := [] + [Setting(SetPipelineState1(Some(so)))];
      var rec := bind + [IndirectRays(loc)];
      && RecordingOk(rec, initial, lowered, cap) && NothingLost(rec, initial, lowered, cap)
      && NoHazard(m, rec, initial, mem)
      && App(rec, initial) == Apply(Fresh(initial), SetPipelineState1(Some(so)))
      && var w := Record(rec, initial, lowered, cap);
      && w.open != [] && RaysBound(w.tracked) && w.tracked.gfx.pso == initial
      && var s := RunApp(m, false, rec, initial, mem);
      s == MeanStep(m, false, App(rec, initial), Meaning(App(rec, initial), mem, Outcome(mem, [])), IndirectRays(loc))
  {
    hide Apply, Held;
    var set1 := Setting(SetPipelineState1(Some(so)));
    OneMore(m, [], set1, initial, lowered, cap, mem);
    OneMore(m, [] + [set1], IndirectRays(loc), initial, lowered, cap, mem);
  }

  /**
   A list reset with a pipeline state, a state object, one indirect dispatch and one
   barrier: the dispatch is right, the barrier's list has the pipeline state bound.
   */
  lemma BarrierSeesOldPipeline(pso: Handle, so: Handle, loc: Loc, x: nat, lowered: set<Handle>, cap: Capture)
    ensures
      var front := [Setting(SetPipelineState1(Some(so))), IndirectRays(loc)];
      var rec := front + [Work(x)];
      && RecordingOk(rec, Some(pso), lowered, cap) && !NothingLost(rec, Some(pso), lowered, cap)
      && App(front, Some(pso)).pipeline == StateObject(so)
      && AtWork(front, Some(pso), lowered, cap).pipeline == Pso(pso)
  {
    var front := [Setting(SetPipelineState1(Some(so))), IndirectRays(loc)];
    hide Record, RecordingOk, NothingLost, App, Held, Fits, LostAtWork, NoHazard, RunApp, MeanStep;
    BoundThenIndirect(COUNTING, Some(pso), so, loc, lowered, cap, 0);
    assert [] + [front[0]] + [front[1]] == front;
    OneMore(COUNTING, front, Work(x), Some(pso), lowered, cap, 0);
    LostExactly(front, Some(pso), lowered, cap);
    NothingMarked(LostAtWork(front, Some(pso), lowered, cap), AtWork(front, Some(pso), lowered, cap), App(front, Some(pso)));
    OldPipelineReplayed(Record(front, Some(pso), lowered, cap), pso);
  }

  lemma OldPipelineReplayed(w: Wrapped, pso: Handle)
    requires w.Valid() && w.open != [] && w.tracked.gfx.pso == Some(pso)
    ensures Held(Flush(w).list).pipeline == Pso(pso)
  {
    assert HeldAfter(Fresh(None), []) == Fresh(None);
    hide ReplayAll, HeldAfter, ApplyAll;
    HeldAfterSets(Fresh(None), [], ReplayAll(w.tracked));
    assert [] + Sets(ReplayAll(w.tracked)) == Sets(ReplayAll(w.tracked));
    ReplaySets(w.tracked);
  }

  /** A machine whose dispatches count, and whose argument buffer holds the count. */
  const COUNTING: Machine<nat> := Machine((w, b, mem) => mem, (loc, mem) => Args(mem + 1, 1, 1, 0),
                                          (args, view, mem) => mem + 1, n => true)

  /** Two indirect dispatches, the first writing the second's arguments, nothing between them. */
  lemma SecondReadsTooEarly(so: Handle, loc: Loc, lowered: set<Handle>, cap: Capture)
    ensures
      var rec := [Setting(SetPipelineState1(Some(so))), IndirectRays(loc), IndirectRays(loc)];
      && RecordingOk(rec, None, lowered, cap) && NothingLost(rec, None, lowered, cap)
      && !NoHazard(COUNTING, rec, None, 0)
  {
    var rec := [Setting(SetPipelineState1(Some(so))), IndirectRays(loc), IndirectRays(loc)];
    hide Record, RecordingOk, NothingLost, NoHazard, App, Held, Apply, RunApp, MeanStep, LostAtWork;
    BoundThenIndirect(COUNTING, None, so, loc, lowered, cap, 0);
    assert [] + [rec[0]] + [rec[1]] == rec[..2] && rec[..2] + [rec[2]] == rec;
    CountingStep(App(rec[..2], None), loc);
    OneMore(COUNTING, rec[..2], rec[2], None, lowered, cap, 0);
  }

  lemma CountingStep(b: Bound, loc: Loc)
    requires b.Valid()
    ensures
      var s := MeanStep(COUNTING, false, b, Meaning(b, 0, Outcome(0, [])), IndirectRays(loc));
      && s.start == 0 && s.out.mem == 1
      && COUNTING.draws(|s.out.trace|) && COUNTING.read(loc, 0) != COUNTING.read(loc, 1)
  {
    hide ViewOf;
  }
}
