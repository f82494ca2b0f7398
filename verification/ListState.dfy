/**
 The binding state of a D3D12 command list, as the runtime holds it, and the
 copy of it the wrapper keeps (`Dxr11Bindings`, `Dxr11GfxState`) so that a fresh
 list can be given it back after a split.

 Two views of one recording meet here: `Apply` is what a setter does to a real
 list, `Track` is what the wrapper writes down when it forwards that setter.
 */
module ListState {
  import opened Options

  type Handle = nat      // a COM object, a descriptor handle or a GPU address
  type Word = w: nat | w < 0x1_0000_0000 witness 0

  const MAX_ROOT_PARAMS := 64
  const MAX_VBS := 32
  const MAX_RTS := 8

  datatype Side = Compute | Graphics

  // --- what the runtime holds --------------------------------------------

  datatype RootArgument =
    | Unset
    | Table(handle: Handle)
    | Constants(words: seq<Word>)
    | Cbv(address: Handle)
    | Srv(address: Handle)
    | Uav(address: Handle)

  /** A pipeline state and a state object replace each other: one slot. */
  datatype Pipeline = NoPipeline | Pso(pso: Handle) | StateObject(so: Handle)

  datatype RootBinding = RootBinding(sig: Option<Handle>, arguments: seq<RootArgument>)

  datatype Targets = Targets(count: nat, handles: seq<Handle>, single: bool, dsv: Option<Handle>)

  /** The state that is one value each, last write wins. */
  datatype Fixed = Fixed(
    topology: Option<Handle>,
    viewports: seq<Handle>,
    scissors: seq<Handle>,
    blendFactor: Option<Handle>,
    stencilRef: Option<Handle>,
    targets: Option<Targets>,
    indexBuffer: Option<Handle>,
    depthBounds: Option<Handle>,
    viewInstanceMask: Option<Handle>)

  datatype Bound = Bound(
    heaps: seq<Handle>,
    compute: RootBinding,
    graphics: RootBinding,
    pipeline: Pipeline,
    fixed: Fixed,
    vertexBuffers: seq<Option<Handle>>)
  {
    ghost predicate Valid() {
      && |compute.arguments| == MAX_ROOT_PARAMS
      && |graphics.arguments| == MAX_ROOT_PARAMS
      && |vertexBuffers| == MAX_VBS
    }
  }

  function NoArguments(): (r: seq<RootArgument>)
    ensures |r| == MAX_ROOT_PARAMS && forall k :: 0 <= k < MAX_ROOT_PARAMS ==> r[k] == Unset
  {
    seq(MAX_ROOT_PARAMS, _ => Unset)
  }

  const NO_FIXED := Fixed(None, [], [], None, None, None, None, None, None)

  function NoBuffers(): (r: seq<Option<Handle>>)
    ensures |r| == MAX_VBS && forall k :: 0 <= k < MAX_VBS ==> r[k] == None
  {
    seq(MAX_VBS, _ => None)
  }

  /** A list just created or reset, with the initial pipeline state it was given. */
  function Fresh(initial: Option<Handle>): (b: Bound)
    ensures b.Valid()
  {
    Bound([], RootBinding(None, NoArguments()), RootBinding(None, NoArguments()),
          PsoSlot(initial), NO_FIXED, NoBuffers())
  }

  function PsoSlot(p: Option<Handle>): Pipeline {
    if p.Some? then Pso(p.value) else NoPipeline
  }

  function ObjectSlot(s: Option<Handle>): Pipeline {
    if s.Some? then StateObject(s.value) else NoPipeline
  }

  // --- setters -------------------------------------------------------------

  /** One descriptor, one constant block or one root view: what a root parameter is set to. */
  datatype RootValue =
    | ToTable(handle: Handle)
    | ToConstants(words: seq<Word>, offset: nat)
    | ToCbv(address: Handle)
    | ToSrv(address: Handle)
    | ToUav(address: Handle)

  datatype Setter =
    | SetDescriptorHeaps(heaps: seq<Handle>)
    | SetRootSignature(side: Side, sig: Option<Handle>)
    | SetRoot(side: Side, index: nat, value: RootValue)
    | SetPipelineState(pso: Option<Handle>)
    | SetPipelineState1(so: Option<Handle>)
    | IASetPrimitiveTopology(topology: Handle)
    | RSSetViewports(viewports: seq<Handle>)
    | RSSetScissorRects(scissors: seq<Handle>)
    | OMSetBlendFactor(factor: Option<Handle>)   // null: the default factor again
    | OMSetStencilRef(stencil: Handle)
    | OMSetRenderTargets(count: nat, handles: seq<Handle>, single: bool, dsv: Option<Handle>)
    | IASetIndexBuffer(view: Option<Handle>)
    | IASetVertexBuffers(start: nat, views: seq<Option<Handle>>)
    | OMSetDepthBounds(bounds: Handle)
    | SetViewInstanceMask(mask: Handle)

  /** With a single handle the array holds one entry describing a contiguous range. */
  function HandleCount(count: nat, single: bool): nat {
    if single then (if count == 0 then 0 else 1) else count
  }

  /** What D3D12 asks of a setter whatever the list's state. */
  predicate WellFormed(s: Setter) {
    s.OMSetRenderTargets? ==>
      |s.handles| == HandleCount(s.count, s.single) && |s.handles| <= MAX_RTS
  }

  /** `data` written at `offset`, growing with zeros: a root constant never written reads 0. */
  function WriteWords(prev: seq<Word>, data: seq<Word>, offset: nat): (r: seq<Word>)
    ensures |r| == if |prev| < offset + |data| then offset + |data| else |prev|
    ensures forall k :: 0 <= k < |r| ==>
      r[k] == if offset <= k < offset + |data| then data[k - offset]
              else if k < |prev| then prev[k] else 0
  {
    if offset + |data| <= |prev| then prev[..offset] + data + prev[offset + |data|..]
    else if offset <= |prev| then prev[..offset] + data
    else prev + seq(offset - |prev|, _ => 0) + data
  }

  /** `views` written over the slots from `start`, as far as there are slots. */
  function WriteSlots(prev: seq<Option<Handle>>, views: seq<Option<Handle>>,
                      start: nat): (r: seq<Option<Handle>>)
    ensures |r| == |prev|
    ensures forall k :: 0 <= k < |r| ==>
      r[k] == if start <= k < start + |views| then views[k - start] else prev[k]
  {
    seq(|prev|, k requires 0 <= k < |prev| =>
      if start <= k < start + |views| then views[k - start] else prev[k])
  }

  /** A parameter that held `was`, after `v` is set on it. */
  function SetArgument(was: RootArgument, v: RootValue): RootArgument {
    match v
    case ToTable(h) => Table(h)
    case ToCbv(a) => Cbv(a)
    case ToSrv(a) => Srv(a)
    case ToUav(a) => Uav(a)
    case ToConstants(words, offset) =>
      var all := WriteWords(if was.Constants? then was.words else [], words, offset);
      if all == [] then Unset else Constants(all)
  }

  function ApplyRoot(r: RootBinding, index: nat, v: RootValue): (r': RootBinding)
    ensures |r'.arguments| == |r.arguments|
  {
    if index >= |r.arguments| then r
    else r.(arguments := r.arguments[index := SetArgument(r.arguments[index], v)])
  }

  /** The setters whose value is one field, last write wins. */
  function SetFixed(f: Fixed, s: Setter): Fixed {
    match s
    case IASetPrimitiveTopology(t) => f.(topology := Some(t))
    case RSSetViewports(v) => f.(viewports := v)
    case RSSetScissorRects(r) => f.(scissors := r)
    case OMSetBlendFactor(c) => f.(blendFactor := c)
    case OMSetStencilRef(r) => f.(stencilRef := Some(r))
    case OMSetRenderTargets(n, h, single, dsv) => f.(targets := Some(Targets(n, h, single, dsv)))
    case IASetIndexBuffer(v) => f.(indexBuffer := v)
    case OMSetDepthBounds(d) => f.(depthBounds := Some(d))
    case SetViewInstanceMask(m) => f.(viewInstanceMask := Some(m))
    case _ => f
  }

  /** What a setter does to the list it is recorded into. */
  function Apply(b: Bound, s: Setter): (b': Bound)
    requires b.Valid()
    ensures b'.Valid()
  {
    match s
    case SetDescriptorHeaps(heaps) => b.(heaps := heaps)
    case SetRootSignature(side, sig) =>
      // a root signature clears the parameters
      if side.Compute? then b.(compute := RootBinding(sig, NoArguments()))
      else b.(graphics := RootBinding(sig, NoArguments()))
    case SetRoot(side, i, v) =>
      if side.Compute? then b.(compute := ApplyRoot(b.compute, i, v))
      else b.(graphics := ApplyRoot(b.graphics, i, v))
    case SetPipelineState(p) => b.(pipeline := PsoSlot(p))
    case SetPipelineState1(o) => b.(pipeline := ObjectSlot(o))
    case IASetVertexBuffers(start, views) =>
      b.(vertexBuffers := WriteSlots(b.vertexBuffers, views, start))
    case _ => b.(fixed := SetFixed(b.fixed, s))
  }

  function ApplyAll(b: Bound, ss: seq<Setter>): (b': Bound)
    requires b.Valid()
    ensures b'.Valid()
    decreases |ss|
  {
    if ss == [] then b else Apply(ApplyAll(b, ss[..|ss| - 1]), ss[|ss| - 1])
  }

  lemma {:induction false} ApplyAllConcat(b: Bound, xs: seq<Setter>, ys: seq<Setter>)
    requires b.Valid()
    ensures ApplyAll(b, xs + ys) == ApplyAll(ApplyAll(b, xs), ys)
    decreases |ys|
  {
    if ys == [] {
      assert xs + ys == xs;
    } else {
      var n := |xs + ys| - 1;
      assert (xs + ys)[..n] == xs + ys[..|ys| - 1];
      ApplyAllConcat(b, xs, ys[..|ys| - 1]);
    }
  }

  // --- what the wrapper writes down -----------------------------------------

  datatype Kind = KNone | KTable | KConstants | KCbv | KSrv | KUav

  /** `Dxr11RootParam`: the constants stay when the kind changes. */
  datatype RootParam = RootParam(kind: Kind, table: Handle, address: Handle, constants: seq<Word>)

  const NO_PARAM := RootParam(KNone, 0, 0, [])

  function NoParams(): (r: seq<RootParam>)
    ensures |r| == MAX_ROOT_PARAMS && forall k :: 0 <= k < MAX_ROOT_PARAMS ==> r[k] == NO_PARAM
  {
    seq(MAX_ROOT_PARAMS, _ => NO_PARAM)
  }

  /** `Dxr11Bindings`: the compute half, all that DispatchRays uses. */
  datatype Bindings = Bindings(
    rootSig: Option<Handle>,
    stateObject: Option<Handle>,
    heaps: seq<Handle>,
    roots: seq<RootParam>)

  /** `Dxr11GfxState`: everything else; a flag and its value are one option here. */
  datatype Gfx = Gfx(
    pso: Option<Handle>,
    rootSig: Option<Handle>,
    roots: seq<RootParam>,
    fixed: Fixed,
    rtHandles: seq<Handle>,
    vbs: seq<Option<Handle>>)

  datatype Tracked = Tracked(
    bindings: Bindings,
    gfx: Gfx,
    lastBoundStateObject: bool)
  {
    ghost predicate Valid() {
      && |bindings.roots| == MAX_ROOT_PARAMS
      && |gfx.roots| == MAX_ROOT_PARAMS
      && |gfx.vbs| == MAX_VBS
      && |gfx.rtHandles| == MAX_RTS
    }
  }


  /** `Reset`: nothing tracked but the initial pipeline state. */
  function Untracked(initial: Option<Handle>): (t: Tracked)
    ensures t.Valid()
  {
    Tracked(Bindings(None, None, [], NoParams()),
            Gfx(initial, None, NoParams(), NO_FIXED, seq(MAX_RTS, _ => 0), NoBuffers()), false)
  }

  function SetParam(p: RootParam, v: RootValue): RootParam {
    match v
    case ToTable(h) => p.(kind := KTable, table := h)
    case ToCbv(a) => p.(kind := KCbv, address := a)
    case ToSrv(a) => p.(kind := KSrv, address := a)
    case ToUav(a) => p.(kind := KUav, address := a)
    case ToConstants(words, offset) =>
      p.(kind := KConstants, constants := WriteWords(p.constants, words, offset))
  }

  function TrackRoot(roots: seq<RootParam>, index: nat, v: RootValue): (r: seq<RootParam>)
    ensures |r| == |roots|
  {
    if index >= |roots| then roots else roots[index := SetParam(roots[index], v)]
  }

  /** `handles` written over the front of `prev`; what lies behind them stays. */
  function Overwrite(prev: seq<Handle>, handles: seq<Handle>): (r: seq<Handle>)
    ensures |r| == |prev|
    ensures |handles| <= |prev| ==> r[..|handles|] == handles
  {
    if |handles| <= |prev| then handles + prev[|handles|..] else handles[..|prev|]
  }

  function TrackBindings(b: Bindings, s: Setter): (b': Bindings)
    ensures |b.roots| == MAX_ROOT_PARAMS ==> |b'.roots| == MAX_ROOT_PARAMS
  {
    match s
    case SetDescriptorHeaps(heaps) => b.(heaps := heaps)
    case SetRootSignature(Compute, sig) => b.(rootSig := sig, roots := NoParams())
    case SetRoot(Compute, i, v) => b.(roots := TrackRoot(b.roots, i, v))
    case SetPipelineState1(o) => b.(stateObject := o)
    case _ => b
  }

  function TrackGfx(g: Gfx, s: Setter): (g': Gfx)
    ensures |g.roots| == MAX_ROOT_PARAMS ==> |g'.roots| == MAX_ROOT_PARAMS
    ensures |g'.vbs| == |g.vbs| && |g'.rtHandles| == |g.rtHandles|
  {
    match s
    case SetRootSignature(Graphics, sig) => g.(rootSig := sig, roots := NoParams())
    case SetRoot(Graphics, i, v) => g.(roots := TrackRoot(g.roots, i, v))
    case SetPipelineState(p) => g.(pso := p)
    case IASetVertexBuffers(start, views) => g.(vbs := WriteSlots(g.vbs, views, start))
    case OMSetBlendFactor(c) => if c.None? then g else g.(fixed := SetFixed(g.fixed, s))
    case OMSetRenderTargets(n, h, single, dsv) =>
      // the handles go to the front of the fixed array, the rest of it stays
      g.(fixed := SetFixed(g.fixed, OMSetRenderTargets(n, [], single, dsv)),
         rtHandles := Overwrite(g.rtHandles, h))
    case _ => g.(fixed := SetFixed(g.fixed, s))
  }

  /** What the wrapper writes down as it forwards a setter. */
  function Track(t: Tracked, s: Setter): (t': Tracked)
    requires t.Valid()
    ensures t'.Valid()
  {
    Tracked(TrackBindings(t.bindings, s), TrackGfx(t.gfx, s),
            if s.SetPipelineState1? then true
            else if s.SetPipelineState? then false else t.lastBoundStateObject)
  }

  // --- when the copy is the real thing ----------------------------------------

  function ArgumentOf(p: RootParam): RootArgument {
    match p.kind
    case KNone => Unset
    case KTable => Table(p.table)
    case KCbv => Cbv(p.address)
    case KSrv => Srv(p.address)
    case KUav => Uav(p.address)
    case KConstants => if p.constants == [] then Unset else Constants(p.constants)
  }

  function ArgumentsOf(ps: seq<RootParam>): (r: seq<RootArgument>)
    ensures |r| == |ps|
    ensures forall k :: 0 <= k < |ps| ==> r[k] == ArgumentOf(ps[k])
  {
    seq(|ps|, k requires 0 <= k < |ps| => ArgumentOf(ps[k]))
  }

  /** The handles behind the tracked target count, as the replay passes them. */
  function FixedOf(g: Gfx): Fixed
    requires |g.rtHandles| == MAX_RTS
  {
    if g.fixed.targets.None? then g.fixed
    else
      var t := g.fixed.targets.value;
      var n := HandleCount(t.count, t.single);
      g.fixed.(targets := Some(t.(handles := g.rtHandles[..if n <= MAX_RTS then n else MAX_RTS])))
  }

  /** The pipeline the application bound last. */
  function LastPipeline(t: Tracked): Pipeline {
    if t.lastBoundStateObject then ObjectSlot(t.bindings.stateObject) else PsoSlot(t.gfx.pso)
  }

  /** Everything the application has bound, read off the copy. */
  function BoundOf(t: Tracked): (b: Bound)
    requires t.Valid()
    ensures b.Valid()
  {
    Bound(t.bindings.heaps,
          RootBinding(t.bindings.rootSig, ArgumentsOf(t.bindings.roots)),
          RootBinding(t.gfx.rootSig, ArgumentsOf(t.gfx.roots)),
          LastPipeline(t), FixedOf(t.gfx), t.gfx.vbs)
  }

  /** A parameter never set to constants holds none: what a root signature's fixed types give. */
  ghost predicate Clean(ps: seq<RootParam>) {
    forall k :: 0 <= k < |ps| && ps[k].kind != KConstants ==> ps[k].constants == []
  }

  /** The tracked targets hold a count; their handles are in the array. */
  ghost predicate TargetsBare(g: Gfx) {
    g.fixed.targets.Some? ==>
      && g.fixed.targets.value.handles == []
      && HandleCount(g.fixed.targets.value.count, g.fixed.targets.value.single) <= MAX_RTS
  }

  ghost predicate CleanTracked(t: Tracked) {
    Clean(t.bindings.roots) && Clean(t.gfx.roots) && TargetsBare(t.gfx)
  }

  /** A root signature gives each parameter one type, so no setter changes a parameter's kind. */
  predicate KeepsKind(ps: seq<RootParam>, index: nat, v: RootValue) {
    index < |ps| && ps[index].kind == KConstants ==> v.ToConstants?
  }

  /** What D3D12 asks of a setter in a list with this state. */
  predicate Admissible(t: Tracked, s: Setter) {
    && WellFormed(s)
    && (s.SetRoot? ==>
          KeepsKind(if s.side.Compute? then t.bindings.roots else t.gfx.roots, s.index, s.value))
  }

  lemma ParamFollows(p: RootParam, v: RootValue)
    requires (p.kind != KConstants ==> p.constants == []) && (p.kind == KConstants ==> v.ToConstants?)
    ensures SetParam(p, v).kind != KConstants ==> SetParam(p, v).constants == []
    ensures ArgumentOf(SetParam(p, v)) == SetArgument(ArgumentOf(p), v)
  {}

  lemma TrackRootFollows(ps: seq<RootParam>, sig: Option<Handle>, index: nat, v: RootValue)
    requires |ps| == MAX_ROOT_PARAMS && Clean(ps) && KeepsKind(ps, index, v)
    ensures Clean(TrackRoot(ps, index, v))
    ensures RootBinding(sig, ArgumentsOf(TrackRoot(ps, index, v)))
         == ApplyRoot(RootBinding(sig, ArgumentsOf(ps)), index, v)
  {
    hide SetParam, SetArgument, ArgumentOf, ArgumentsOf;
    if index < |ps| {
      ParamFollows(ps[index], v);
      ArgumentsNext(ps, index, SetParam(ps[index], v));
    }
  }

  lemma ArgumentsNext(ps: seq<RootParam>, index: nat, p: RootParam)
    requires index < |ps|
    ensures ArgumentsOf(ps[index := p]) == ArgumentsOf(ps)[index := ArgumentOf(p)]
  {
    hide ArgumentOf;
  }

  lemma TrackBindingsFollows(t: Tracked, s: Setter)
    requires t.Valid() && Clean(t.bindings.roots) && Admissible(t, s)
    ensures Clean(TrackBindings(t.bindings, s).roots)
    ensures
      var b := TrackBindings(t.bindings, s);
      var held := Apply(BoundOf(t), s);
      b.heaps == held.heaps && RootBinding(b.rootSig, ArgumentsOf(b.roots)) == held.compute
  {
    assert ArgumentsOf(NoParams()) == NoArguments();
    if s.SetRoot? && s.side.Compute? {
      TrackRootFollows(t.bindings.roots, t.bindings.rootSig, s.index, s.value);
    }
  }

  lemma TrackGfxFollows(t: Tracked, s: Setter)
    requires t.Valid() && CleanTracked(t) && Admissible(t, s)
    ensures Clean(TrackGfx(t.gfx, s).roots)
    ensures
      var g := TrackGfx(t.gfx, s);
      var held := Apply(BoundOf(t), s);
      g.vbs == held.vertexBuffers && RootBinding(g.rootSig, ArgumentsOf(g.roots)) == held.graphics
  {
    assert ArgumentsOf(NoParams()) == NoArguments();
    if s.SetRoot? && s.side.Graphics? {
      TrackRootFollows(t.gfx.roots, t.gfx.rootSig, s.index, s.value);
    }
  }

  /** A null blend factor is forwarded and not written down: what was written before stays. */
  predicate KeepsFactor(t: Tracked, s: Setter) {
    s.OMSetBlendFactor? && s.factor.None? && t.gfx.fixed.blendFactor.Some?
  }

  /** The same but for the blend factor. */
  ghost predicate SameButFactor(b: Bound, b': Bound) {
    b == b'.(fixed := b'.fixed.(blendFactor := b.fixed.blendFactor))
  }

  lemma TrackFixedFollows(t: Tracked, s: Setter)
    requires t.Valid() && CleanTracked(t) && Admissible(t, s)
    ensures
      var held := Apply(BoundOf(t), s).fixed;
      FixedOf(TrackGfx(t.gfx, s))
      == if KeepsFactor(t, s) then held.(blendFactor := t.gfx.fixed.blendFactor) else held
    ensures TargetsBare(TrackGfx(t.gfx, s))
  {
    hide TrackRoot, ApplyRoot, SetParam, SetArgument, ArgumentOf, WriteSlots, Clean;
  }

  lemma TrackPipelineFollows(t: Tracked, s: Setter)
    requires t.Valid()
    ensures LastPipeline(Track(t, s)) == Apply(BoundOf(t), s).pipeline
  {}

  /**
   Forwarding a setter and writing it down keep the copy equal to the list, but
   for a null blend factor after one that was not.
   */
  lemma TrackFollows(t: Tracked, s: Setter)
    requires t.Valid() && CleanTracked(t) && Admissible(t, s)
    ensures CleanTracked(Track(t, s))
    ensures BoundOf(Track(t, s)) == Apply(BoundOf(t), s) <==> !KeepsFactor(t, s)
    ensures SameButFactor(BoundOf(Track(t, s)), Apply(BoundOf(t), s))
  {
    TrackBindingsFollows(t, s);
    TrackGfxFollows(t, s);
    TrackFixedFollows(t, s);
    TrackPipelineFollows(t, s);
  }

  /** The failing case: a factor, then none. The list is back at the default, the copy is not. */
  lemma OldFactorKept(factor: Handle)
    ensures
      var red, none := OMSetBlendFactor(Some(factor)), OMSetBlendFactor(None);
      && Apply(Apply(Fresh(None), red), none).fixed.blendFactor == None
      && BoundOf(Track(Track(Untracked(None), red), none)).fixed.blendFactor == Some(factor)
  {}

  /** The copy of what the application bound, over any number of setters. */
  ghost predicate Follows(t: Tracked, app: Bound) {
    t.Valid() && app.Valid() && SameButFactor(BoundOf(t), app)
  }

  lemma StillFollows(t: Tracked, app: Bound, s: Setter)
    requires Follows(t, app) && CleanTracked(t) && Admissible(t, s)
    ensures Follows(Track(t, s), Apply(app, s))
    ensures s.OMSetBlendFactor? ==> Apply(app, s).fixed.blendFactor == s.factor
    ensures !s.OMSetBlendFactor? ==> Apply(app, s).fixed.blendFactor == app.fixed.blendFactor
  {
    TrackFollows(t, s);
    ApplyButFactor(BoundOf(t), app, s);
  }

  lemma ApplyButFactor(b: Bound, b': Bound, s: Setter)
    requires b.Valid() && b'.Valid() && SameButFactor(b, b')
    ensures SameButFactor(Apply(b, s), Apply(b', s))
  {}

  lemma UntrackedIsFresh(initial: Option<Handle>)
    ensures CleanTracked(Untracked(initial))
    ensures BoundOf(Untracked(initial)) == Fresh(initial)
  {
    assert ArgumentsOf(NoParams()) == NoArguments();
  }
}
