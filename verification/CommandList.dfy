/**
 The wrapper itself (`Dxr11CommandList`): a mutable object whose methods do, step
 by step and in the source's order, what `Split.RecordStep` says, and whose
 submission loop does what `Split.RunSplit` says. With that, what is proved
 about `Split` holds of the object.
 */
module CommandList {
  import opened Options
  import opened ListState
  import opened Replay
  import opened Split

  // --- the replay loops ---------------------------------------------------------

  method RecordRoots(side: Side, roots: seq<RootParam>) returns (cl: seq<Setter>)
    ensures cl == ReplayRoots(side, roots, |roots|)
  {
    cl := [];
    for i := 0 to |roots|
      invariant cl == ReplayRoots(side, roots, i)
    {
      var r := roots[i];
      match r.kind {
        case KNone =>
        case KTable => cl := cl + [SetRoot(side, i, ToTable(r.table))];
        case KCbv => cl := cl + [SetRoot(side, i, ToCbv(r.address))];
        case KSrv => cl := cl + [SetRoot(side, i, ToSrv(r.address))];
        case KUav => cl := cl + [SetRoot(side, i, ToUav(r.address))];
        case KConstants =>
          if r.constants != [] {
            cl := cl + [SetRoot(side, i, ToConstants(r.constants, 0))];
          }
      }
    }
  }

  method RecordBindings(b: Bindings) returns (cl: seq<Setter>)
    ensures cl == ReplayBindings(b)
  {
    var heaps, sig, so := [], [], [];
    if b.heaps != [] { heaps := [SetDescriptorHeaps(b.heaps)]; }
    if b.rootSig.Some? { sig := [SetRootSignature(Compute, b.rootSig)]; }
    var roots := RecordRoots(Compute, b.roots);
    if b.stateObject.Some? { so := [SetPipelineState1(b.stateObject)]; }
    cl := heaps + sig + roots + so;
  }

  method RecordBuffers(vbs: seq<Option<Handle>>) returns (cl: seq<Setter>)
    ensures cl == ReplayBuffers(vbs, |vbs|)
  {
    cl := [];
    for i := 0 to |vbs|
      invariant cl == ReplayBuffers(vbs, i)
    {
      if vbs[i].Some? { cl := cl + [IASetVertexBuffers(i, [vbs[i]])]; }
    }
  }

  /** The one-value state from field `lo` to field `hi`, in the order the source sets it. */
  method RecordFixed(g: Gfx, lo: nat, hi: nat) returns (cl: seq<Setter>)
    requires |g.rtHandles| == MAX_RTS && lo <= hi
    ensures cl == ReplayFixed(FixedOf(g), lo, hi)
  {
    var f := g.fixed;
    cl := [];
    for k := lo to hi
      invariant cl == ReplayFixed(FixedOf(g), lo, k)
    {
      if k == 0 && f.topology.Some? { cl := cl + [IASetPrimitiveTopology(f.topology.value)]; }
      if k == 1 && f.viewports != [] { cl := cl + [RSSetViewports(f.viewports)]; }
      if k == 2 && f.scissors != [] { cl := cl + [RSSetScissorRects(f.scissors)]; }
      if k == 3 && f.blendFactor.Some? { cl := cl + [OMSetBlendFactor(f.blendFactor)]; }
      if k == 4 && f.stencilRef.Some? { cl := cl + [OMSetStencilRef(f.stencilRef.value)]; }
      if k == 5 && f.targets.Some? {
        var t := f.targets.value;
        var n := HandleCount(t.count, t.single);
        cl := cl + [OMSetRenderTargets(t.count, g.rtHandles[..if n <= MAX_RTS then n else MAX_RTS],
                                       t.single, t.dsv)];
      }
      if k == 6 && f.indexBuffer.Some? { cl := cl + [IASetIndexBuffer(f.indexBuffer)]; }
      if k == 7 && f.depthBounds.Some? { cl := cl + [OMSetDepthBounds(f.depthBounds.value)]; }
      if k == 8 && f.viewInstanceMask.Some? {
        cl := cl + [SetViewInstanceMask(f.viewInstanceMask.value)];
      }
    }
  }

  method RecordGfx(g: Gfx) returns (cl: seq<Setter>)
    requires |g.rtHandles| == MAX_RTS
    ensures cl == ReplayGfx(g)
  {
    var pso, sig := [], [];
    if g.pso.Some? { pso := [SetPipelineState(g.pso)]; }
    if g.rootSig.Some? {
      var roots := RecordRoots(Graphics, g.roots);
      sig := [SetRootSignature(Graphics, g.rootSig)] + roots;
    }
    var early := RecordFixed(g, 0, 7);
    var buffers := RecordBuffers(g.vbs);
    var late := RecordFixed(g, 7, 9);
    cl := pso + sig + early + buffers + late;
  }

  // --- a queue that runs what it is given, in order -----------------------------------

  /** The GPU behind one queue, and how often the CPU waited for it. */
  class Gpu<M> {
    const machine: Machine<M>
    var out: Outcome<M>
    var waits: nat

    constructor (machine: Machine<M>, mem: M)
      ensures this.machine == machine && out == Outcome(mem, []) && waits == 0
    {
      this.machine, out, waits := machine, Outcome(mem, []), 0;
    }

    /** Runs a list; what its copies put into the readback buffers comes back with the wait. */
    method Submit(list: RealList) returns (readback: map<nat, Args>)
      modifies this`out
      ensures out == RunList(machine, list, old(out)).out
      ensures readback == RunList(machine, list, old(out)).slots
    {
      var r := RunList(machine, list, out);
      out, readback := r.out, r.slots;
    }

    method Wait()
      modifies this`waits
      ensures waits == old(waits) + 1
    {
      waits := waits + 1;
    }

    /** A dispatch-only list: state set, then one ray dispatch. */
    method SubmitDispatch(setters: seq<Setter>, lowered: Option<Handle>, args: Args)
      requires machine.draws(|out.trace|)
      modifies this`out
      ensures
        var v := ViewOf(ApplyAll(Fresh(None), setters));
        out == Issue(machine, args, if lowered.Some? then v.(pipeline := Pso(lowered.value)) else v,
                     old(out))
    {
      var v := ViewOf(ApplyAll(Fresh(None), setters));
      v := if lowered.Some? then v.(pipeline := Pso(lowered.value)) else v;
      out := Outcome(if args.Empty() then out.mem else machine.dispatch(args, v, out.mem),
                     out.trace + [Dispatched(args, v)]);
    }

    /** Nothing is submitted for a dispatch whose scenes cannot be brought. */
    method Skip(view: View)
      requires !machine.draws(|out.trace|)
      modifies this`out
      ensures forall args :: out == Issue(machine, args, view, old(out))
    {
      out := Outcome(out.mem, out.trace + [NotDrawn(view)]);
    }
  }

  // --- the wrapper ------------------------------------------------------------------

  class CommandList {
    const lowered: set<Handle>    // the pipeline states that carry a lowered query
    const capture: Capture

    var bindings: Bindings
    var gfx: Gfx
    var rqPso: Option<Handle>
    var lastBoundStateObject: bool
    var recording: RealList
    var openPendings: seq<Pending>
    var segments: seq<Segment>

    ghost function State(): Wrapped
      reads this
    {
      Wrapped(Tracked(bindings, gfx, lastBoundStateObject), rqPso, recording, openPendings, segments)
    }

    ghost predicate Valid()
      reads this
    {
      State().Valid() && SegmentsValid(segments)
    }

    constructor (initial: Option<Handle>, lowered: set<Handle>, capture: Capture)
      ensures Valid() && State() == Split.Reset(initial, lowered)
      ensures this.lowered == lowered && this.capture == capture
    {
      this.lowered, this.capture := lowered, capture;
      UntrackedIsFresh(initial);
      var t := Untracked(initial);
      bindings, gfx, lastBoundStateObject := t.bindings, t.gfx, false;
      rqPso := LoweredOf(initial, lowered);
      recording, openPendings, segments := RealList(initial, []), [], [];
    }

    /** A fresh recording: whatever was split, queued or bound is gone. */
    method Reset(initial: Option<Handle>)
      modifies this
      ensures Valid() && State() == Split.Reset(initial, lowered)
    {
      UntrackedIsFresh(initial);
      segments, openPendings := [], [];
      var t := Untracked(initial);
      bindings, gfx := t.bindings, t.gfx;
      rqPso := LoweredOf(initial, lowered);
      lastBoundStateObject := false;
      recording := RealList(initial, []);
    }

    // --- setters: write down, forward ------------------------------------------

    method SetRootSignature(side: Side, sig: Option<Handle>)
      requires Valid()
      modifies this
      ensures Valid()
      ensures State() == RecordStep(old(State()), lowered, capture, Setting(Setter.SetRootSignature(side, sig)))
    {
      TrackFollows(State().tracked, Setter.SetRootSignature(side, sig));
      // setting a root signature clears the parameters, so forget them too
      var none := if side.Compute? then bindings.roots else gfx.roots;
      for i := 0 to MAX_ROOT_PARAMS
        invariant |none| == MAX_ROOT_PARAMS
        invariant forall k :: 0 <= k < i ==> none[k] == NO_PARAM
      {
        none := none[i := NO_PARAM];
      }
      assert none == NoParams();
      if side.Compute? {
        bindings := bindings.(rootSig := sig, roots := none);
      } else {
        gfx := gfx.(rootSig := sig, roots := none);
      }
      recording := recording.(cmds := recording.cmds + [Set(Setter.SetRootSignature(side, sig))]);
    }

    /** A table, a view or constants on one root parameter. */
    method SetRoot(side: Side, index: nat, value: RootValue)
      requires Valid()
      requires Admissible(State().tracked, Setter.SetRoot(side, index, value))
      modifies this
      ensures Valid()
      ensures State() == RecordStep(old(State()), lowered, capture, Setting(Setter.SetRoot(side, index, value)))
    {
      TrackFollows(State().tracked, Setter.SetRoot(side, index, value));
      if index < MAX_ROOT_PARAMS {
        var p := if side.Compute? then bindings.roots[index] else gfx.roots[index];
        match value {
          case ToTable(h) => p := p.(kind := KTable, table := h);
          case ToCbv(a) => p := p.(kind := KCbv, address := a);
          case ToSrv(a) => p := p.(kind := KSrv, address := a);
          case ToUav(a) => p := p.(kind := KUav, address := a);
          case ToConstants(words, offset) =>
            var c := CopyConstants(p.constants, words, offset);
            p := p.(kind := KConstants, constants := c);
        }
        if side.Compute? {
          bindings := bindings.(roots := bindings.roots[index := p]);
        } else {
          gfx := gfx.(roots := gfx.roots[index := p]);
        }
      }
      recording := recording.(cmds := recording.cmds + [Set(Setter.SetRoot(side, index, value))]);
    }

    /** Resize with zeros to reach, then copy over. */
    static method CopyConstants(prev: seq<Word>, words: seq<Word>, offset: nat) returns (c: seq<Word>)
      ensures c == WriteWords(prev, words, offset)
    {
      c := prev;
      while |c| < offset + |words|
        invariant |prev| <= |c|
        invariant |c| <= |prev| || |c| <= offset + |words|
        invariant forall k :: 0 <= k < |c| ==> c[k] == if k < |prev| then prev[k] else 0
      {
        c := c + [0];
      }
      ghost var zeros := c;
      for k := 0 to |words|
        invariant |c| == |zeros|
        invariant forall j :: 0 <= j < |c| ==>
          c[j] == if offset <= j < offset + k then words[j - offset] else zeros[j]
      {
        c := c[offset + k := words[k]];
      }
      assert c == WriteWords(prev, words, offset);
    }

    method SetPipelineState(p: Option<Handle>)
      requires Valid()
      modifies this
      ensures Valid()
      ensures State() == RecordStep(old(State()), lowered, capture, Setting(Setter.SetPipelineState(p)))
    {
      TrackFollows(State().tracked, Setter.SetPipelineState(p));
      rqPso := LoweredOf(p, lowered);
      gfx := gfx.(pso := p);
      lastBoundStateObject := false;
      recording := recording.(cmds := recording.cmds + [Set(Setter.SetPipelineState(p))]);
    }

    method SetPipelineState1(s: Option<Handle>)
      requires Valid()
      modifies this
      ensures Valid()
      ensures State() == RecordStep(old(State()), lowered, capture, Setting(Setter.SetPipelineState1(s)))
    {
      TrackFollows(State().tracked, Setter.SetPipelineState1(s));
      bindings := bindings.(stateObject := s);
      lastBoundStateObject := true;
      recording := recording.(cmds := recording.cmds + [Set(Setter.SetPipelineState1(s))]);
    }

    method IASetVertexBuffers(start: nat, views: seq<Option<Handle>>)
      requires Valid()
      modifies this
      ensures Valid()
      ensures State() == RecordStep(old(State()), lowered, capture, Setting(Setter.IASetVertexBuffers(start, views)))
    {
      TrackFollows(State().tracked, Setter.IASetVertexBuffers(start, views));
      var vbs := gfx.vbs;
      var i := 0;
      while i < |views|
        invariant 0 <= i <= |views| && |vbs| == MAX_VBS
        invariant forall k :: 0 <= k < MAX_VBS ==>
          vbs[k] == if start <= k < start + i then views[k - start] else gfx.vbs[k]
      {
        var slot := start + i;
        if slot >= MAX_VBS { break; }
        vbs := vbs[slot := views[i]];
        i := i + 1;
      }
      assert vbs == WriteSlots(gfx.vbs, views, start);
      gfx := gfx.(vbs := vbs);
      recording := recording.(cmds := recording.cmds + [Set(Setter.IASetVertexBuffers(start, views))]);
    }

    method OMSetRenderTargets(n: nat, handles: seq<Handle>, single: bool, dsv: Option<Handle>)
      requires Valid()
      requires WellFormed(Setter.OMSetRenderTargets(n, handles, single, dsv))
      modifies this
      ensures Valid()
      ensures State() == RecordStep(old(State()), lowered, capture,
                           Setting(Setter.OMSetRenderTargets(n, handles, single, dsv)))
    {
      var s := Setter.OMSetRenderTargets(n, handles, single, dsv);
      TrackFollows(State().tracked, s);
      var rts := gfx.rtHandles;
      for i := 0 to |handles|
        invariant |rts| == MAX_RTS
        invariant forall k :: 0 <= k < MAX_RTS ==>
          rts[k] == if k < i then handles[k] else gfx.rtHandles[k]
      {
        rts := rts[i := handles[i]];
      }
      assert rts == Overwrite(gfx.rtHandles, handles);
      gfx := gfx.(fixed := gfx.fixed.(targets := Some(Targets(n, [], single, dsv))), rtHandles := rts);
      recording := recording.(cmds := recording.cmds + [Set(s)]);
    }

    /** The heaps, and every setter whose value is one field of the graphics state. */
    method SetField(s: Setter)
      requires Valid()
      requires !s.SetRootSignature? && !s.SetRoot? && !s.SetPipelineState? && !s.SetPipelineState1?
      requires !s.IASetVertexBuffers? && !s.OMSetRenderTargets?
      modifies this
      ensures Valid()
      ensures State() == RecordStep(old(State()), lowered, capture, Setting(s))
    {
      TrackFollows(State().tracked, s);
      if s.SetDescriptorHeaps? {
        bindings := bindings.(heaps := s.heaps);
      } else if s != OMSetBlendFactor(None) {
        gfx := gfx.(fixed := SetFixed(gfx.fixed, s));
      }
      recording := recording.(cmds := recording.cmds + [Set(s)]);
    }

    // --- work and dispatches ----------------------------------------------------

    method FlushQueuedSplit()
      requires Valid()
      modifies this
      ensures Valid() && State() == Flush(old(State()))
    {
      if openPendings == [] { return; }
      segments := segments + [Segment(recording, openPendings)];
      openPendings := [];
      var compute := RecordBindings(bindings);
      var graphics := RecordGfx(gfx);
      recording := RealList(None, Sets(compute + graphics));
    }

    method WorkBarrier()
      requires Valid()
      modifies this
      ensures Valid() && State() == Flush(old(State()))
    {
      if openPendings != [] { FlushQueuedSplit(); }
    }

    /** A draw, a copy, a barrier: anything that must be ordered after a queued dispatch. */
    method RecordWork(w: nat)
      requires Valid()
      modifies this
      ensures Valid() && State() == RecordStep(old(State()), lowered, capture, Work(w))
    {
      WorkBarrier();
      recording := recording.(cmds := recording.cmds + [Op(w)]);
    }

    method RestoreComputeAfterCapture()
      requires Valid()
      modifies this`recording
      ensures Valid() && State() == Restored(old(State()))
    {
      var cl := RecordBindings(bindings);
      var last := [];
      if lastBoundStateObject {
        if bindings.stateObject.Some? { last := [Setter.SetPipelineState1(bindings.stateObject)]; }
      } else if gfx.pso.Some? {
        last := [Setter.SetPipelineState(gfx.pso)];
      }
      recording := recording.(cmds := recording.cmds + Sets(cl + last));
    }

    method RecordBuild(w: nat)
      requires Valid()
      modifies this
      ensures Valid() && State() == RecordStep(old(State()), lowered, capture, Build(w))
    {
      WorkBarrier();
      recording := recording.(cmds := recording.cmds + [Op(w)]);
      recording := recording.(cmds := recording.cmds + Sets(Borrow(capture.sig, capture.pso, capture.counts)));
      RestoreComputeAfterCapture();
    }

    method QueueSplit(loc: Loc)
      requires Valid()
      modifies this
      ensures Valid() && State() == RecordStep(old(State()), lowered, capture, IndirectRays(loc))
    {
      recording := recording.(cmds := recording.cmds + [ReadArgs(loc, |openPendings|)]);
      openPendings := openPendings + [Pending(Slot(|openPendings|), bindings, None)];
    }

    method QueueIndirectCompute(loc: Loc)
      requires Valid()
      modifies this
      ensures Valid() && State() == RecordStep(old(State()), lowered, capture, IndirectCompute(loc))
    {
      recording := recording.(cmds := recording.cmds + Sets(Borrow(capture.sig, capture.pso, capture.counts)));
      recording := recording.(cmds := recording.cmds + [ReadArgs(loc, |openPendings|)]);
      RestoreComputeAfterCapture();
      openPendings := openPendings + [Pending(Slot(|openPendings|), bindings, rqPso)];
    }

    /** Deferred, unless a scene was never seen being built. */
    method QueueStaleCompute(args: Args, builds: seq<nat>) returns (queued: bool)
      requires Valid()
      modifies this`openPendings
      ensures queued <==> rqPso.Some? && 0 !in builds
      ensures Valid() && State() == if queued then Queue(old(State()), Given(args), rqPso) else old(State())
    {
      if rqPso.None? { return false; }
      for k := 0 to |builds|
        invariant 0 !in builds[..k]
      {
        if builds[k] == 0 { return false; }
      }
      openPendings := openPendings + [Pending(Given(args), bindings, rqPso)];
      queued := true;
    }

    /** `Dispatch` of a lowered pipeline whose scene is not read from its latest build. */
    method DispatchStale(args: Args, builds: seq<nat>) returns (queued: bool)
      requires Valid() && rqPso.Some?
      modifies this
      ensures queued <==> 0 !in builds
      ensures Valid()
      ensures State() == if queued then RecordStep(old(State()), lowered, capture, StaleCompute(args))
                         else Flush(old(State()))
    {
      WorkBarrier();
      queued := QueueStaleCompute(args, builds);
    }

    method QueueStaleRays(args: Args, builds: seq<nat>) returns (queued: bool)
      requires Valid()
      modifies this`openPendings
      ensures queued <==> builds != [] && 0 !in builds
      ensures Valid() && State() == if queued then Queue(old(State()), Given(args), None) else old(State())
    {
      if builds == [] { return false; }
      for k := 0 to |builds|
        invariant 0 !in builds[..k]
      {
        if builds[k] == 0 { return false; }
      }
      openPendings := openPendings + [Pending(Given(args), bindings, None)];
      queued := true;
    }

    /** `DispatchRays` whose scenes are resolved and not read from their latest builds. */
    method DispatchRaysStale(args: Args, builds: seq<nat>) returns (queued: bool)
      requires Valid()
      modifies this
      ensures queued <==> builds != [] && 0 !in builds
      ensures Valid()
      ensures State() == if queued then RecordStep(old(State()), lowered, capture, StaleRays(args))
                         else Flush(old(State()))
    {
      WorkBarrier();
      queued := QueueStaleRays(args, builds);
    }

    method Close()
      requires Valid()
      modifies this
      ensures Valid() && State() == Flush(old(State()))
    {
      FlushQueuedSplit();
    }

    // --- submission --------------------------------------------------------------

    /** The dispatches queued behind a segment, with the arguments it copied out. */
    static method Issues<M>(gpu: Gpu<M>, pendings: seq<Pending>, readback: map<nat, Args>)
      requires forall k :: 0 <= k < |pendings| ==> |pendings[k].bindings.roots| == MAX_ROOT_PARAMS
      modifies gpu
      ensures gpu.out == IssueAll(gpu.machine, pendings, readback, old(gpu.out))
      ensures gpu.waits == old(gpu.waits)
    {
      hide Issue, IssueAll, Apply, ApplyAll, ReplayBindings, ViewOf;
      IssueAllNone(gpu.machine, readback, gpu.out);
      for k := 0 to |pendings|
        invariant gpu.waits == old(gpu.waits)
        invariant gpu.out == IssueAll(gpu.machine, pendings[..k], readback, old(gpu.out))
      {
        var p := pendings[k];
        var args := PendingArgs(p, readback);
        var cl := RecordBindings(p.bindings);
        if gpu.machine.draws(|gpu.out.trace|) {
          gpu.SubmitDispatch(cl, p.lowered, args);
        } else {
          gpu.Skip(PendingView(p));
        }
        IssueAllNext(gpu.machine, pendings, k, readback, old(gpu.out));
      }
      assert pendings[..|pendings|] == pendings;
    }

    /** One segment, and if dispatches are queued behind it one wait, and they. */
    static method Dispatches<M>(gpu: Gpu<M>, seg: Segment)
      requires forall k :: 0 <= k < |seg.pendings| ==> |seg.pendings[k].bindings.roots| == MAX_ROOT_PARAMS
      modifies gpu
      ensures gpu.out == RunSegment(gpu.machine, seg, old(gpu.out))
      ensures gpu.waits == old(gpu.waits) + if seg.pendings == [] then 0 else 1
    {
      hide RunList, Issue, Apply, ApplyAll, RunCmds;
      var readback := gpu.Submit(seg.list);
      if seg.pendings != [] {
        gpu.Wait();
        Issues(gpu, seg.pendings, readback);
      }
    }

    /** Every segment with its dispatches, then the tail. Of a closed list. */
    method SubmitSegmented<M>(gpu: Gpu<M>)
      requires Valid() && openPendings == [] && gpu.out.trace == []
      modifies gpu
      ensures gpu.out == RunSplit(gpu.machine, State(), old(gpu.out.mem))
      ensures gpu.waits == old(gpu.waits) + Waits(segments)
    {
      hide RunSegment, Issue, IssueAll, Apply, ApplyAll, RunCmds;
      ghost var start := gpu.out;
      for i := 0 to |segments|
        invariant SegmentsValid(segments[..i])
        invariant gpu.out == RunSegments(gpu.machine, segments[..i], start)
        invariant gpu.waits == old(gpu.waits) + Waits(segments[..i])
      {
        Dispatches(gpu, segments[i]);
        assert segments[..i + 1][..i] == segments[..i];
      }
      assert segments[..|segments|] == segments;
      var _ := gpu.Submit(recording);
    }
  }
}
