/**
 Which recordings D3D12 allows, said of the application's own calls, and which lowered
 query the wrapper holds for a dispatch.
 */
module SplitLegal {
  import opened Options
  import opened ListState
  import opened Replay
  import opened Split
  import opened SplitMeaning

  /** The pipeline state last set, or the one the list was reset with. */
  function LastPso(rec: seq<AppCmd>, initial: Option<Handle>): Option<Handle> {
    if rec == [] then initial
    else
      match rec[|rec| - 1]
      case Setting(SetPipelineState(p)) => p
      case _ => LastPso(rec[..|rec| - 1], initial)
  }

  /** For every recording the wrapper holds exactly the lowered query of the pipeline state set last. */
  lemma {:induction false} LoweredHeld(rec: seq<AppCmd>, initial: Option<Handle>, lowered: set<Handle>, cap: Capture,
                                       p: Handle)
    requires RecordingOk(rec, initial, lowered, cap)
    ensures Record(rec, initial, lowered, cap).rqPso == Some(p) <==> p in lowered && LastPso(rec, initial) == Some(p)
    decreases |rec|
  {
    if rec != [] {
      hide StepOk, Track, Apply, ReplayAll, Borrow, Restore;
      var front, c := rec[..|rec| - 1], rec[|rec| - 1];
      LoweredHeld(front, initial, lowered, cap, p);
      StepHolds(Record(front, initial, lowered, cap), lowered, cap, c, p);
    }
  }

  lemma StepHolds(w: Wrapped, lowered: set<Handle>, cap: Capture, c: AppCmd, p: Handle)
    requires w.Valid() && StepOk(w, c)
    ensures RecordStep(w, lowered, cap, c).rqPso == Some(p) <==>
      match c
      case Setting(SetPipelineState(q)) => p in lowered && q == Some(p)
      case _ => w.rqPso == Some(p)
  {
    hide Track, Apply, ReplayAll, Borrow, Restore, Sets;
  }

  /** What is bound is a pipeline state only if it is the one set last. */
  lemma {:induction false} BoundPso(rec: seq<AppCmd>, initial: Option<Handle>, p: Handle)
    ensures App(rec, initial).pipeline == Pso(p) ==> LastPso(rec, initial) == Some(p)
    decreases |rec|
  {
    if rec != [] { BoundPso(rec[..|rec| - 1], initial, p); }
  }

  /** The application has bound what its dispatch needs: a state object for rays, a lowered pipeline for the others. */
  ghost predicate DispatchLegal(rec: seq<AppCmd>, initial: Option<Handle>, lowered: set<Handle>, c: AppCmd) {
    match c
    case IndirectRays(_) => App(rec, initial).pipeline.StateObject?
    case StaleRays(_) => App(rec, initial).pipeline.StateObject?
    case IndirectCompute(_) => App(rec, initial).pipeline.Pso? && App(rec, initial).pipeline.pso in lowered
    case StaleCompute(_) => App(rec, initial).pipeline.Pso? && App(rec, initial).pipeline.pso in lowered
    case _ => true
  }

  /** And that is exactly what a recording has to do: no other is ruled out. */
  lemma LegalExactly(rec: seq<AppCmd>, initial: Option<Handle>, lowered: set<Handle>, cap: Capture, c: AppCmd)
    requires RecordingOk(rec, initial, lowered, cap)
    ensures RecordingOk(rec + [c], initial, lowered, cap) <==>
      && DispatchLegal(rec, initial, lowered, c)
      && (c.Setting? ==> Admissible(Record(rec, initial, lowered, cap).tracked, c.s))
  {
    assert (rec + [c])[..|rec|] == rec;
    RecordFollows(rec, initial, lowered, cap);
    var w, app := Record(rec, initial, lowered, cap), App(rec, initial);
    hide Record, App, RecordStep;
    if app.pipeline.Pso? {
      BoundPso(rec, initial, app.pipeline.pso);
      LoweredHeld(rec, initial, lowered, cap, app.pipeline.pso);
    }
  }

  /** The tracked pipeline is what the application has bound. */
  lemma RecordFollows(rec: seq<AppCmd>, initial: Option<Handle>, lowered: set<Handle>, cap: Capture)
    requires RecordingOk(rec, initial, lowered, cap)
    ensures LastPipeline(Record(rec, initial, lowered, cap).tracked) == App(rec, initial).pipeline
  {
    hide Record, App, Fits, Held;
    RecordRight(rec, initial, lowered, cap);
  }

  /** A lowered pipeline bound and dispatched on: allowed, and its dispatch list has that pipeline. */
  lemma LoweredDispatch(p: Handle, loc: Loc, initial: Option<Handle>, lowered: set<Handle>, cap: Capture)
    requires p in lowered
    ensures
      var rec := [Setting(SetPipelineState(Some(p)))] + [IndirectCompute(loc)];
      && RecordingOk(rec, initial, lowered, cap)
      && var w := Record(rec, initial, lowered, cap);
      |w.open| == 1 && PendingView(w.open[0]).pipeline == Pso(p)
  {
    hide Record, RecordStep, PendingView;
    var bind := [Setting(SetPipelineState(Some(p)))];
    LoweredBind(p, initial, lowered, cap);
    LegalExactly(bind, initial, lowered, cap, IndirectCompute(loc));
    RecordNext(bind, initial, lowered, cap, IndirectCompute(loc));
    LoweredQueued(Record(bind, initial, lowered, cap), lowered, cap, loc, p);
  }

  lemma LoweredBind(p: Handle, initial: Option<Handle>, lowered: set<Handle>, cap: Capture)
    requires p in lowered
    ensures
      var bind := [Setting(SetPipelineState(Some(p)))];
      && RecordingOk(bind, initial, lowered, cap) && App(bind, initial).pipeline == Pso(p)
      && Record(bind, initial, lowered, cap).open == [] && Record(bind, initial, lowered, cap).rqPso == Some(p)
  {
    hide RecordStep, Apply, Fresh, Admissible;
    var set0 := Setting(SetPipelineState(Some(p)));
    assert [] + [set0] == [set0];
    assert Admissible(Record([], initial, lowered, cap).tracked, set0.s) && RecordingOk([], initial, lowered, cap) by {
      SetsPso(Record([], initial, lowered, cap), lowered, cap, App([], initial), p);
    }
    LegalExactly([], initial, lowered, cap, set0);
    RecordNext([], initial, lowered, cap, set0);
    SetsPso(Record([], initial, lowered, cap), lowered, cap, App([], initial), p);
    AppNext([], initial, set0);
  }

  lemma AppNext(rec: seq<AppCmd>, initial: Option<Handle>, c: AppCmd)
    ensures App(rec + [c], initial) == if c.Setting? then Apply(App(rec, initial), c.s) else App(rec, initial)
  {
    hide Apply;
    assert (rec + [c])[..|rec|] == rec;
  }

  lemma SetsPso(w: Wrapped, lowered: set<Handle>, cap: Capture, b: Bound, p: Handle)
    requires w.Valid() && b.Valid() && p in lowered
    ensures
      var c := SetPipelineState(Some(p));
      && Admissible(w.tracked, c) && Apply(b, c).pipeline == Pso(p)
      && var w' := RecordStep(w, lowered, cap, Setting(c));
      w'.open == w.open && w'.rqPso == Some(p)
  {
    hide Track;
  }

  lemma RecordNext(rec: seq<AppCmd>, initial: Option<Handle>, lowered: set<Handle>, cap: Capture, c: AppCmd)
    requires RecordingOk(rec + [c], initial, lowered, cap)
    ensures RecordingOk(rec, initial, lowered, cap)
    ensures StepOk(Record(rec, initial, lowered, cap), c)
    ensures Record(rec + [c], initial, lowered, cap)
         == RecordStep(Record(rec, initial, lowered, cap), lowered, cap, c)
  {
    hide RecordStep, StepOk;
    assert (rec + [c])[..|rec|] == rec;
  }

  lemma LoweredQueued(w: Wrapped, lowered: set<Handle>, cap: Capture, loc: Loc, p: Handle)
    requires w.Valid() && w.open == [] && w.rqPso == Some(p)
    ensures
      var w' := RecordStep(w, lowered, cap, IndirectCompute(loc));
      |w'.open| == 1 && PendingView(w'.open[0]).pipeline == Pso(p)
  {
    hide ReplayBindings, ApplyAll, ViewOf, Restore, Borrow, Sets;
  }

  // --- recordings that use each root parameter in one way ------------------------------------

  /** The command sets constants on that root parameter. */
  predicate SetsConstants(c: AppCmd, side: Side, i: nat) {
    c.Setting? && c.s.SetRoot? && c.s.side == side && c.s.index == i && c.s.value.ToConstants?
  }

  /** No parameter is set to constants and, elsewhere in the recording, to something else. */
  ghost predicate OneType(rec: seq<AppCmd>) {
    forall j, k ::
      (&& 0 <= j < |rec| && 0 <= k < |rec| && rec[j].Setting? && rec[j].s.SetRoot?
       && SetsConstants(rec[k], rec[j].s.side, rec[j].s.index)) ==> rec[j].s.value.ToConstants?
  }

  /** As many handles as the call counts, one for a range, and at most eight. */
  predicate TargetsFit(c: AppCmd) {
    c.Setting? && c.s.OMSetRenderTargets? ==>
      |c.s.handles| == (if c.s.single && c.s.count > 1 then 1 else c.s.count) && |c.s.handles| <= 8
  }

  /**
   Every recording that dispatches with what it needs bound, and uses each root parameter
   in one way, is one the theorems are about.
   */
  lemma {:induction false} OneTypeIsAllowed(rec: seq<AppCmd>, initial: Option<Handle>, lowered: set<Handle>, cap: Capture)
    requires OneType(rec)
    requires forall j :: 0 <= j < |rec| ==> TargetsFit(rec[j]) && DispatchLegal(rec[..j], initial, lowered, rec[j])
    ensures RecordingOk(rec, initial, lowered, cap)
    decreases |rec|
  {
    if rec != [] {
      hide DispatchLegal, RecordStep, Record, SetsConstants;
      var n := |rec| - 1;
      var front, c := rec[..n], rec[n];
      assert rec == front + [c];
      assert forall j :: 0 <= j < n ==> front[j] == rec[j] && front[..j] == rec[..j];
      OneTypeIsAllowed(front, initial, lowered, cap);
      if c.Setting? { SetterAllowed(front, initial, lowered, cap, c.s); }
      LegalExactly(front, initial, lowered, cap, c);
    }
  }

  lemma SetterAllowed(front: seq<AppCmd>, initial: Option<Handle>, lowered: set<Handle>, cap: Capture, s: Setter)
    requires RecordingOk(front, initial, lowered, cap) && OneType(front + [Setting(s)]) && TargetsFit(Setting(s))
    ensures Admissible(Record(front, initial, lowered, cap).tracked, s)
  {
    hide Record, SetsConstants;
    var t, rec := Record(front, initial, lowered, cap).tracked, front + [Setting(s)];
    assert rec[|front|] == Setting(s) && forall j :: 0 <= j < |front| ==> rec[j] == front[j];
    if s.SetRoot? && s.index < MAX_ROOT_PARAMS {
      KindWasSet(front, initial, lowered, cap, s.side, s.index);
    }
  }

  function RootsOf(t: Tracked, side: Side): seq<RootParam> {
    if side.Compute? then t.bindings.roots else t.gfx.roots
  }

  /** A parameter is tracked as constants only if it was set to some. */
  lemma {:induction false} KindWasSet(rec: seq<AppCmd>, initial: Option<Handle>, lowered: set<Handle>, cap: Capture,
                                      side: Side, i: nat)
    requires RecordingOk(rec, initial, lowered, cap) && i < MAX_ROOT_PARAMS
    ensures
      var ps := RootsOf(Record(rec, initial, lowered, cap).tracked, side);
      |ps| == MAX_ROOT_PARAMS &&
      (ps[i].kind == KConstants ==> exists j :: 0 <= j < |rec| && SetsConstants(rec[j], side, i))
    decreases |rec|
  {
    hide StepOk, SetsConstants, RecordStep;
    if rec != [] {
      var n := |rec| - 1;
      var front, c := rec[..n], rec[n];
      KindWasSet(front, initial, lowered, cap, side, i);
      KindNext(Record(front, initial, lowered, cap), lowered, cap, c, side, i);
      assert forall j :: 0 <= j < n ==> front[j] == rec[j];
    }
  }

  lemma KindNext(w: Wrapped, lowered: set<Handle>, cap: Capture, c: AppCmd, side: Side, i: nat)
    requires w.Valid() && StepOk(w, c) && i < MAX_ROOT_PARAMS
    ensures
      var ps, ps' := RootsOf(w.tracked, side), RootsOf(RecordStep(w, lowered, cap, c).tracked, side);
      |ps| == |ps'| == MAX_ROOT_PARAMS &&
      (ps'[i].kind == KConstants ==> ps[i].kind == KConstants || SetsConstants(c, side, i))
  {
    hide WriteWords, WriteSlots, SetFixed, Overwrite, Restore, Borrow, Sets;
  }
}
