/**
 `Dxr11Bindings::Replay`, `Dxr11GfxState::Replay` and
 `RestoreComputeAfterCapture`: what they record, and exactly when a list that
 received them has the state the application bound.
 */
module Replay {
  import opened Options
  import opened ListState

  function When(c: bool, s: Setter): seq<Setter> { if c then [s] else [] }

  function RootSetter(side: Side, i: nat, p: RootParam): seq<Setter> {
    match p.kind
    case KNone => []
    case KTable => [SetRoot(side, i, ToTable(p.table))]
    case KCbv => [SetRoot(side, i, ToCbv(p.address))]
    case KSrv => [SetRoot(side, i, ToSrv(p.address))]
    case KUav => [SetRoot(side, i, ToUav(p.address))]
    case KConstants => When(p.constants != [], SetRoot(side, i, ToConstants(p.constants, 0)))
  }

  /** The first `n` root parameters, in slot order. */
  function ReplayRoots(side: Side, ps: seq<RootParam>, n: nat): seq<Setter>
    requires n <= |ps|
  {
    if n == 0 then [] else ReplayRoots(side, ps, n - 1) + RootSetter(side, n - 1, ps[n - 1])
  }

  function BufferSetter(i: nat, view: Option<Handle>): seq<Setter> {
    When(view.Some?, IASetVertexBuffers(i, [view]))
  }

  function ReplayBuffers(vbs: seq<Option<Handle>>, n: nat): seq<Setter>
    requires n <= |vbs|
  {
    if n == 0 then [] else ReplayBuffers(vbs, n - 1) + BufferSetter(n - 1, vbs[n - 1])
  }

  /** Heaps, then the root signature (which clears the parameters), then they, then the object. */
  function ReplayBindings(b: Bindings): seq<Setter> {
    When(b.heaps != [], SetDescriptorHeaps(b.heaps))
    + When(b.rootSig.Some?, SetRootSignature(Compute, b.rootSig))
    + ReplayRoots(Compute, b.roots, |b.roots|)
    + When(b.stateObject.Some?, SetPipelineState1(b.stateObject))
  }

  function ReplayGraphicsRoots(g: Gfx): seq<Setter> {
    if g.rootSig.None? then []
    else [SetRootSignature(Graphics, g.rootSig)] + ReplayRoots(Graphics, g.roots, |g.roots|)
  }

  /** The one-value state in the order it is replayed, each only if the application ever set it. */
  function FixedSetter(f: Fixed, k: nat): (ss: seq<Setter>)
    ensures |ss| <= 1
  {
    match k
    case 0 => if f.topology.Some? then [IASetPrimitiveTopology(f.topology.value)] else []
    case 1 => When(f.viewports != [], RSSetViewports(f.viewports))
    case 2 => When(f.scissors != [], RSSetScissorRects(f.scissors))
    case 3 => When(f.blendFactor.Some?, OMSetBlendFactor(f.blendFactor))
    case 4 => if f.stencilRef.Some? then [OMSetStencilRef(f.stencilRef.value)] else []
    case 5 =>
      if f.targets.None? then []
      else [OMSetRenderTargets(f.targets.value.count, f.targets.value.handles,
                               f.targets.value.single, f.targets.value.dsv)]
    case 6 => When(f.indexBuffer.Some?, IASetIndexBuffer(f.indexBuffer))
    case 7 => if f.depthBounds.Some? then [OMSetDepthBounds(f.depthBounds.value)] else []
    case 8 => if f.viewInstanceMask.Some? then [SetViewInstanceMask(f.viewInstanceMask.value)] else []
    case _ => []
  }

  function ReplayFixed(f: Fixed, lo: nat, hi: nat): seq<Setter>
    requires lo <= hi
  {
    if lo == hi then [] else ReplayFixed(f, lo, hi - 1) + FixedSetter(f, hi - 1)
  }

  function ReplayGfx(g: Gfx): seq<Setter>
    requires |g.rtHandles| == MAX_RTS
  {
    When(g.pso.Some?, SetPipelineState(g.pso))
    + ReplayGraphicsRoots(g)
    + ReplayFixed(FixedOf(g), 0, 7)
    + ReplayBuffers(g.vbs, |g.vbs|)
    + ReplayFixed(FixedOf(g), 7, 9)
  }

  /** What a continuation segment starts with. */
  function ReplayAll(t: Tracked): seq<Setter>
    requires t.Valid()
  {
    ReplayBindings(t.bindings) + ReplayGfx(t.gfx)
  }

  // --- one part at a time ----------------------------------------------------

  function SideOf(b: Bound, side: Side): RootBinding {
    if side.Compute? then b.compute else b.graphics
  }

  function WithSide(b: Bound, side: Side, r: RootBinding): Bound {
    if side.Compute? then b.(compute := r) else b.(graphics := r)
  }

  /** What a parameter that held `was` holds after `p` has been replayed over it. */
  function Over(was: RootArgument, p: RootParam): RootArgument {
    match p.kind
    case KNone => was
    case KTable => Table(p.table)
    case KCbv => Cbv(p.address)
    case KSrv => Srv(p.address)
    case KUav => Uav(p.address)
    case KConstants => if p.constants == [] then was else SetArgument(was, ToConstants(p.constants, 0))
  }

  function Overlay(was: seq<RootArgument>, ps: seq<RootParam>): (r: seq<RootArgument>)
    requires |was| == |ps|
    ensures |r| == |was| && forall k :: 0 <= k < |r| ==> r[k] == Over(was[k], ps[k])
  {
    seq(|was|, k requires 0 <= k < |was| => Over(was[k], ps[k]))
  }

  /** Over nothing, the replay gives what was tracked. */
  lemma OverlayNothing(ps: seq<RootParam>)
    requires |ps| == MAX_ROOT_PARAMS
    ensures Overlay(NoArguments(), ps) == ArgumentsOf(ps)
  {
    forall k | 0 <= k < |ps| ensures Over(Unset, ps[k]) == ArgumentOf(ps[k]) {
      assert WriteWords([], ps[k].constants, 0) == ps[k].constants;
    }
  }

  /** The first `n` parameters replayed. */
  function FrontReplayed(b: Bound, side: Side, ps: seq<RootParam>, n: nat): (b': Bound)
    requires b.Valid() && |ps| == MAX_ROOT_PARAMS && n <= |ps|
    ensures b'.Valid()
  {
    var was := SideOf(b, side).arguments;
    WithSide(b, side, SideOf(b, side).(arguments := Overlay(was, ps)[..n] + was[n..]))
  }

  lemma {:induction false} ReplayRootsSets(b: Bound, side: Side, ps: seq<RootParam>, n: nat)
    requires b.Valid() && |ps| == MAX_ROOT_PARAMS && n <= |ps|
    ensures ApplyAll(b, ReplayRoots(side, ps, n)) == FrontReplayed(b, side, ps, n)
  {
    if n == 0 {
      var was := SideOf(b, side).arguments;
      assert Overlay(was, ps)[..0] + was[0..] == was;
    } else {
      hide Apply, ApplyAll, RootSetter, FrontReplayed;
      ReplayRootsSets(b, side, ps, n - 1);
      var b' := Then(b, ReplayRoots(side, ps, n - 1), RootSetter(side, n - 1, ps[n - 1]));
      RootSetterSets(FrontReplayed(b, side, ps, n - 1), side, n - 1, ps[n - 1]);
      FrontNext(b, side, ps, n);
    }
  }

  lemma FrontNext(b: Bound, side: Side, ps: seq<RootParam>, n: nat)
    requires b.Valid() && |ps| == MAX_ROOT_PARAMS && 0 < n <= |ps|
    ensures
      var mid := FrontReplayed(b, side, ps, n - 1);
      var held := SideOf(mid, side).arguments;
      FrontReplayed(b, side, ps, n)
      == WithSide(mid, side, SideOf(mid, side).(arguments := held[n - 1 := Over(held[n - 1], ps[n - 1])]))
  {
    hide Over;
    var was := SideOf(b, side).arguments;
    Extend(Overlay(was, ps), was, n);
  }

  lemma Extend<T>(now: seq<T>, none: seq<T>, n: nat)
    requires |now| == |none| && 0 < n <= |now|
    ensures (now[..n - 1] + none[n - 1..])[n - 1 := now[n - 1]] == now[..n] + none[n..]
    ensures (now[..n - 1] + none[n - 1..])[n - 1] == none[n - 1]
  {}

  lemma RootSetterSets(b: Bound, side: Side, i: nat, p: RootParam)
    requires b.Valid() && i < MAX_ROOT_PARAMS
    ensures
      var ss, was := RootSetter(side, i, p), SideOf(b, side).arguments;
      (if ss == [] then b else Apply(b, ss[0]))
      == WithSide(b, side, SideOf(b, side).(arguments := was[i := Over(was[i], p)]))
  {
    var ss, was := RootSetter(side, i, p), SideOf(b, side).arguments;
    RootSetterIs(was[i], side, i, p);
    if ss == [] { assert was[i := was[i]] == was; }
    hide RootSetter, SetArgument, Over;
  }

  lemma RootSetterIs(was: RootArgument, side: Side, i: nat, p: RootParam)
    ensures
      var ss := RootSetter(side, i, p);
      if ss == [] then Over(was, p) == was
      else |ss| == 1 && ss[0].SetRoot? && ss[0].side == side && ss[0].index == i
           && SetArgument(was, ss[0].value) == Over(was, p)
  {}

  /** A list of at most one setter. */
  lemma ApplyOne(b: Bound, ss: seq<Setter>)
    requires b.Valid() && |ss| <= 1
    ensures ApplyAll(b, ss) == if ss == [] then b else Apply(b, ss[0])
  {
    if |ss| == 1 {
      assert ss[..0] == [];
      assert ApplyAll(b, ss[..0]) == b;
    }
  }

  lemma {:induction false} ReplayBuffersSets(b: Bound, vbs: seq<Option<Handle>>, n: nat)
    requires b.Valid() && |vbs| == MAX_VBS && n <= |vbs|
    requires b.vertexBuffers == NoBuffers()
    ensures ApplyAll(b, ReplayBuffers(vbs, n)) == b.(vertexBuffers := vbs[..n] + NoBuffers()[n..])
  {
    if n == 0 {
      assert vbs[..0] + NoBuffers()[0..] == NoBuffers();
    } else {
      ReplayBuffersSets(b, vbs, n - 1);
      var mid := ApplyAll(b, ReplayBuffers(vbs, n - 1));
      var b' := Then(b, ReplayBuffers(vbs, n - 1), BufferSetter(n - 1, vbs[n - 1]));
      BufferSetterSets(mid, n - 1, vbs[n - 1]);
      Extend(vbs, NoBuffers(), n);
    }
  }

  lemma BufferSetterSets(b: Bound, i: nat, view: Option<Handle>)
    requires b.Valid() && i < MAX_VBS && b.vertexBuffers[i] == None
    ensures var ss := BufferSetter(i, view);
      (if ss == [] then b else Apply(b, ss[0]))
      == b.(vertexBuffers := b.vertexBuffers[i := view])
  {
    assert WriteSlots(b.vertexBuffers, [view], i) == b.vertexBuffers[i := view];
    assert b.vertexBuffers[i := None] == b.vertexBuffers;
  }

  /** The first `k` of the one-value fields, the others as in a fresh list. */
  function FixedFront(f: Fixed, k: nat): Fixed {
    Fixed(if k > 0 then f.topology else None,
          if k > 1 then f.viewports else [],
          if k > 2 then f.scissors else [],
          if k > 3 then f.blendFactor else None,
          if k > 4 then f.stencilRef else None,
          if k > 5 then f.targets else None,
          if k > 6 then f.indexBuffer else None,
          if k > 7 then f.depthBounds else None,
          if k > 8 then f.viewInstanceMask else None)
  }

  lemma FixedSetterSets(b: Bound, f: Fixed, k: nat)
    requires b.Valid() && b.fixed == FixedFront(f, k)
    ensures var ss := FixedSetter(f, k);
      (if ss == [] then b else Apply(b, ss[0])) == b.(fixed := FixedFront(f, k + 1))
  {}

  lemma {:induction false} ReplayFixedSets(b: Bound, f: Fixed, lo: nat, hi: nat)
    requires b.Valid() && lo <= hi && b.fixed == FixedFront(f, lo)
    ensures ApplyAll(b, ReplayFixed(f, lo, hi)) == b.(fixed := FixedFront(f, hi))
  {
    if lo < hi {
      ReplayFixedSets(b, f, lo, hi - 1);
      var b' := Then(b, ReplayFixed(f, lo, hi - 1), FixedSetter(f, hi - 1));
      FixedSetterSets(ApplyAll(b, ReplayFixed(f, lo, hi - 1)), f, hi - 1);
    }
  }

  lemma ReplayBindingsSets(b: Bound, t: Bindings)
    requires b.Valid() && |t.roots| == MAX_ROOT_PARAMS
    ensures ApplyAll(b, ReplayBindings(t)) == b.(
      heaps := if t.heaps != [] then t.heaps else b.heaps,
      compute := if t.rootSig.Some? then RootBinding(t.rootSig, ArgumentsOf(t.roots))
                 else b.compute.(arguments := Overlay(b.compute.arguments, t.roots)),
      pipeline := if t.stateObject.Some? then StateObject(t.stateObject.value) else b.pipeline)
  {
    var h := When(t.heaps != [], SetDescriptorHeaps(t.heaps));
    var s := When(t.rootSig.Some?, SetRootSignature(Compute, t.rootSig));
    var r := ReplayRoots(Compute, t.roots, |t.roots|);
    var o := When(t.stateObject.Some?, SetPipelineState1(t.stateObject));
    ReplayHeadSets(b, h, s, t);
    var b2 := ApplyAll(b, h + s);
    ApplyAllConcat(b, h + s, r);
    ReplayAllRootsSets(b2, Compute, t.roots);
    OverlayNothing(t.roots);
    var b4 := Then(b, h + s + r, o);
  }

  lemma ReplayHeadSets(b: Bound, h: seq<Setter>, s: seq<Setter>, t: Bindings)
    requires b.Valid()
    requires h == When(t.heaps != [], SetDescriptorHeaps(t.heaps))
    requires s == When(t.rootSig.Some?, SetRootSignature(Compute, t.rootSig))
    ensures ApplyAll(b, h + s) == b.(
      heaps := if t.heaps != [] then t.heaps else b.heaps,
      compute := if t.rootSig.Some? then RootBinding(t.rootSig, NoArguments()) else b.compute)
  {
    ApplyOne(b, h);
    var b2 := Then(b, h, s);
  }

  lemma ReplayAllRootsSets(b: Bound, side: Side, ps: seq<RootParam>)
    requires b.Valid() && |ps| == MAX_ROOT_PARAMS
    ensures
      var was := SideOf(b, side).arguments;
      ApplyAll(b, ReplayRoots(side, ps, |ps|))
      == WithSide(b, side, SideOf(b, side).(arguments := Overlay(was, ps)))
  {
    var was := SideOf(b, side).arguments;
    ReplayRootsSets(b, side, ps, |ps|);
    assert Overlay(was, ps)[..|ps|] + was[|ps|..] == Overlay(was, ps);
  }

  /** One more part after `xs`. */
  lemma Then(b: Bound, xs: seq<Setter>, one: seq<Setter>) returns (b': Bound)
    requires b.Valid() && |one| <= 1
    ensures b'.Valid() && b' == ApplyAll(b, xs + one)
    ensures b' == if one == [] then ApplyAll(b, xs) else Apply(ApplyAll(b, xs), one[0])
  {
    ApplyAllConcat(b, xs, one);
    ApplyOne(ApplyAll(b, xs), one);
    b' := ApplyAll(b, xs + one);
  }

  lemma ReplayGraphicsRootsSets(b: Bound, g: Gfx)
    requires b.Valid() && |g.roots| == MAX_ROOT_PARAMS
    requires b.graphics == RootBinding(None, NoArguments())
    ensures ApplyAll(b, ReplayGraphicsRoots(g))
         == if g.rootSig.None? then b
            else b.(graphics := RootBinding(g.rootSig, ArgumentsOf(g.roots)))
  {
    if g.rootSig.Some? {
      var sig := [SetRootSignature(Graphics, g.rootSig)];
      ApplyAllConcat(b, sig, ReplayRoots(Graphics, g.roots, |g.roots|));
      ApplyOne(b, sig);
      ReplayAllRootsSets(ApplyAll(b, sig), Graphics, g.roots);
      OverlayNothing(g.roots);
    }
  }

  lemma ReplayGfxSets(b: Bound, g: Gfx)
    requires b.Valid() && |g.rtHandles| == MAX_RTS && |g.roots| == MAX_ROOT_PARAMS && |g.vbs| == MAX_VBS
    requires b.graphics == RootBinding(None, NoArguments())
    requires b.fixed == NO_FIXED && b.vertexBuffers == NoBuffers()
    ensures ApplyAll(b, ReplayGfx(g)) == b.(
      pipeline := if g.pso.Some? then Pso(g.pso.value) else b.pipeline,
      graphics := if g.rootSig.None? then b.graphics
                  else RootBinding(g.rootSig, ArgumentsOf(g.roots)),
      fixed := FixedOf(g),
      vertexBuffers := g.vbs)
  {
    var p := When(g.pso.Some?, SetPipelineState(g.pso));
    var r := ReplayGraphicsRoots(g);
    var f := FixedOf(g);
    var early, late := ReplayFixed(f, 0, 7), ReplayFixed(f, 7, 9);
    var v := ReplayBuffers(g.vbs, |g.vbs|);
    ApplyOne(b, p);
    ApplyAllConcat(b, p, r);
    ReplayGraphicsRootsSets(ApplyAll(b, p), g);
    ApplyAllConcat(b, p + r, early);
    ReplayFixedSets(ApplyAll(b, p + r), f, 0, 7);
    ApplyAllConcat(b, p + r + early, v);
    ReplayAllBuffersSets(ApplyAll(b, p + r + early), g.vbs);
    ApplyAllConcat(b, p + r + early + v, late);
    ReplayFixedSets(ApplyAll(b, p + r + early + v), f, 7, 9);
  }

  lemma ReplayAllBuffersSets(b: Bound, vbs: seq<Option<Handle>>)
    requires b.Valid() && |vbs| == MAX_VBS
    requires b.vertexBuffers == NoBuffers()
    ensures ApplyAll(b, ReplayBuffers(vbs, |vbs|)) == b.(vertexBuffers := vbs)
  {
    hide Apply, ApplyAll, ReplayBuffers;
    ReplayBuffersSets(b, vbs, |vbs|);
    assert vbs[..MAX_VBS] + NoBuffers()[MAX_VBS..] == vbs;
  }

  // --- the exact conditions -----------------------------------------------------

  /** What a fresh list holds once the continuation's replay has been recorded into it. */
  function Replayed(t: Tracked): (b: Bound)
    requires t.Valid()
    ensures b.Valid()
  {
    BoundOf(t).(
      pipeline := if t.gfx.pso.Some? then Pso(t.gfx.pso.value) else ObjectSlot(t.bindings.stateObject),
      graphics := if t.gfx.rootSig.None? then RootBinding(None, NoArguments())
                  else BoundOf(t).graphics)
  }

  lemma ReplaySets(t: Tracked)
    requires t.Valid()
    ensures ApplyAll(Fresh(None), ReplayAll(t)) == Replayed(t)
  {
    hide Apply, ApplyAll, ReplayBindings, ReplayGfx, ArgumentsOf, FixedOf;
    ApplyAllConcat(Fresh(None), ReplayBindings(t.bindings), ReplayGfx(t.gfx));
    FreshBindingsSets(t.bindings);
    ReplayGfxSets(ApplyAll(Fresh(None), ReplayBindings(t.bindings)), t.gfx);
  }

  /** Into a fresh list, signature or not. */
  lemma FreshBindingsSets(t: Bindings)
    requires |t.roots| == MAX_ROOT_PARAMS
    ensures ApplyAll(Fresh(None), ReplayBindings(t)) == Fresh(None).(
      heaps := t.heaps,
      compute := RootBinding(t.rootSig, ArgumentsOf(t.roots)),
      pipeline := ObjectSlot(t.stateObject))
  {
    hide Apply, ApplyAll, ReplayBindings, ArgumentsOf, Overlay;
    ReplayBindingsSets(Fresh(None), t);
    OverlayNothing(t.roots);
  }

  /**
   The pipeline state is replayed after the state object, so it wins the slot
   they share: right only when the application bound it last, or never.
   */
  predicate PipelineReplays(t: Tracked) {
    if t.lastBoundStateObject then t.gfx.pso.None?
    else t.gfx.pso.Some? || t.bindings.stateObject.None?
  }

  /** Graphics root parameters are replayed only under a graphics root signature. */
  predicate GraphicsReplays(t: Tracked)
    requires t.Valid()
  {
    t.gfx.rootSig.None? ==>
      forall k :: 0 <= k < MAX_ROOT_PARAMS ==> ArgumentOf(t.gfx.roots[k]) == Unset
  }

  /** A continuation has the application's state back exactly when both conditions hold. */
  lemma ReplayRestoresExactly(t: Tracked)
    requires t.Valid()
    ensures ApplyAll(Fresh(None), ReplayAll(t)) == BoundOf(t)
       <==> PipelineReplays(t) && GraphicsReplays(t)
  {
    hide Apply, ApplyAll, ReplayAll, ReplayBindings;
    ReplaySets(t);
    if t.gfx.rootSig.None? {
      var args := BoundOf(t).graphics.arguments;
      if GraphicsReplays(t) {
        assert args == NoArguments();
      } else {
        var k :| 0 <= k < MAX_ROOT_PARAMS && ArgumentOf(t.gfx.roots[k]) != Unset;
        assert args[k] != NoArguments()[k];
      }
    }
  }

  /**
   The failing case: a pipeline state, then a state object for the rays. After
   the replay the continuation has the pipeline state bound.
   */
  lemma PipelineSlotLost(pso: Handle, so: Handle)
    ensures
      var t := Track(Track(Untracked(None), SetPipelineState(Some(pso))), SetPipelineState1(Some(so)));
      && BoundOf(t).pipeline == StateObject(so)
      && ApplyAll(Fresh(None), ReplayAll(t)).pipeline == Pso(pso)
  {
    var t := Track(Track(Untracked(None), SetPipelineState(Some(pso))), SetPipelineState1(Some(so)));
    hide ApplyAll, ReplayAll;
    ReplaySets(t);
  }

  /** What a dispatch-only list holds: the compute half. */
  lemma DispatchListBound(b: Bindings)
    requires |b.roots| == MAX_ROOT_PARAMS
    ensures
      var d := ApplyAll(Fresh(None), ReplayBindings(b));
      && d.heaps == b.heaps
      && d.compute == RootBinding(b.rootSig, ArgumentsOf(b.roots))
      && d.pipeline == ObjectSlot(b.stateObject)
  {
    hide Apply, ApplyAll, ReplayBindings, ArgumentsOf;
    FreshBindingsSets(b);
  }

  // --- after a capture borrowed the compute bindings --------------------------------

  /** `RestoreComputeAfterCapture`: the pipeline bound last is set last. */
  function Restore(t: Tracked): seq<Setter> {
    ReplayBindings(t.bindings)
    + (if t.lastBoundStateObject
       then When(t.bindings.stateObject.Some?, SetPipelineState1(t.bindings.stateObject))
       else When(t.gfx.pso.Some?, SetPipelineState(t.gfx.pso)))
  }

  /** A capture binds its own root signature, pipeline and one view. */
  function Borrow(sig: Handle, pso: Handle, counts: Handle): seq<Setter> {
    [SetRootSignature(Compute, Some(sig)), SetPipelineState(Some(pso)),
     SetRoot(Compute, 0, ToUav(counts))]
  }

  /** There is something to put back in both slots the capture took. */
  predicate CaptureRestores(t: Tracked) {
    t.bindings.rootSig.Some? && PipelineRestores(t)
  }

  predicate PipelineRestores(t: Tracked) {
    if t.lastBoundStateObject then t.bindings.stateObject.Some? else t.gfx.pso.Some?
  }

  lemma BorrowTakes(b: Bound, sig: Handle, pso: Handle, counts: Handle)
    requires b.Valid()
    ensures ApplyAll(b, Borrow(sig, pso, counts)) == b.(
      compute := RootBinding(Some(sig), NoArguments()[0 := Uav(counts)]), pipeline := Pso(pso))
  {
    var s := Borrow(sig, pso, counts);
    var b1 := Then(b, [], [s[0]]);
    var b2 := Then(b, [s[0]], [s[1]]);
    var b3 := Then(b, [s[0], s[1]], [s[2]]);
    assert [] + [s[0]] == [s[0]];
    assert [s[0]] + [s[1]] == [s[0], s[1]];
    assert [s[0], s[1]] + [s[2]] == s;
  }

  /** What a capture and its restore leave in the two slots the capture took. */
  function LeftCompute(t: Tracked, sig: Handle, counts: Handle): (r: RootBinding)
    requires t.Valid()
    ensures |r.arguments| == MAX_ROOT_PARAMS
  {
    if t.bindings.rootSig.Some? then RootBinding(t.bindings.rootSig, ArgumentsOf(t.bindings.roots))
    else RootBinding(Some(sig), Overlay(NoArguments()[0 := Uav(counts)], t.bindings.roots))
  }

  function LeftPipeline(t: Tracked, pso: Handle): Pipeline {
    if PipelineRestores(t) then LastPipeline(t)
    else if t.bindings.stateObject.Some? then StateObject(t.bindings.stateObject.value)
    else Pso(pso)
  }

  /** Over any state, whatever the list had lost before. */
  lemma CaptureLeaves(b: Bound, t: Tracked, sig: Handle, pso: Handle, counts: Handle)
    requires b.Valid() && t.Valid()
    ensures ApplyAll(ApplyAll(b, Borrow(sig, pso, counts)), Restore(t)) == b.(
      heaps := if t.bindings.heaps != [] then t.bindings.heaps else b.heaps,
      compute := LeftCompute(t, sig, counts),
      pipeline := LeftPipeline(t, pso))
  {
    hide Apply, ApplyAll, Restore, Borrow, Overlay, ArgumentsOf;
    BorrowTakes(b, sig, pso, counts);
    RestoreSets(ApplyAll(b, Borrow(sig, pso, counts)), t);
  }

  lemma RestoreSets(b: Bound, t: Tracked)
    requires b.Valid() && t.Valid()
    ensures ApplyAll(b, Restore(t)) == b.(
      heaps := if t.bindings.heaps != [] then t.bindings.heaps else b.heaps,
      compute := if t.bindings.rootSig.Some? then RootBinding(t.bindings.rootSig, ArgumentsOf(t.bindings.roots))
                 else b.compute.(arguments := Overlay(b.compute.arguments, t.bindings.roots)),
      pipeline := if PipelineRestores(t) then LastPipeline(t)
                  else if t.bindings.stateObject.Some? then StateObject(t.bindings.stateObject.value)
                  else b.pipeline)
  {
    var last := if t.lastBoundStateObject
                then When(t.bindings.stateObject.Some?, SetPipelineState1(t.bindings.stateObject))
                else When(t.gfx.pso.Some?, SetPipelineState(t.gfx.pso));
    hide ApplyAll, ReplayBindings, Overlay, ArgumentsOf;
    var after := Then(b, ReplayBindings(t.bindings), last);
    ReplayBindingsSets(b, t.bindings);
  }

  /**
   After a capture the application's state is back exactly when it had a compute
   root signature and a pipeline to give back.
   */
  lemma CaptureRestoresExactly(t: Tracked, sig: Handle, pso: Handle, counts: Handle)
    requires t.Valid()
    ensures
      var after := ApplyAll(ApplyAll(BoundOf(t), Borrow(sig, pso, counts)), Restore(t));
      after == BoundOf(t) <==> CaptureRestores(t)
  {
    hide Apply, ApplyAll, Restore, Borrow;
    CaptureLeaves(BoundOf(t), t, sig, pso, counts);
  }
}
