/**
 The tracker over whole runs: what is known, kept, pruned, parsed and drawn in every
 state a run reaches.
 */
module AsTrackerRuns {
  import opened Options
  import opened Readback
  import opened AsLog
  import opened AsParse
  import opened AsTracker
  import opened AsTrackerWorld
  import opened AsTrackerReads
  import opened AsTrackerBuilds

  // --- the theorems ---------------------------------------------------------------------------------------------

  /**
   What is known is the build it claims: over every run of builds, copies, reads at
   once, late, out of order and on demand.
   */
  lemma {:induction false} KnownIsItsBuild(actions: seq<Action>, a: Addr)
    requires Runs(actions)
    ensures
      var w := After(actions);
      a in w.t.readOf ==>
        && (a, w.t.readOf[a]) in w.truth
        && a in w.t.tlas && w.t.tlas[a] == Parse(Seen(w.log, w.truth[(a, w.t.readOf[a])]))
  {
    hide Inv, Parse, Seen, Runs, After;
    EveryRunKeeps(actions);
    if a in After(actions).t.readOf { KnownIs(After(actions), a); }
  }

  /** The kept instances of a build (`InstancesAt`) are exactly those of that build, unless it was decoded late. */
  lemma {:induction false} InstancesAtIsItsBuild(actions: seq<Action>, a: Addr, k: Kept)
    requires Runs(actions)
    ensures
      var w := After(actions);
      a in w.t.instHist && k in w.t.instHist[a] ==> KeptOk(w, a, k)
  {
    hide Runs, After, KeptOk;
    EveryRunKeeps(actions);
  }

  /**
   Pruning is invisible: a read in flight finds, for each of its instances, the
   structure the whole log gives; and for any older question about a bottom-level
   structure the pruned log gives that or nothing.
   */
  lemma {:induction false} ReadsSeeTheWholeLog(actions: seq<Action>, r: Read<Copy>, d: Desc, a: Addr, asOf: nat)
    requires Runs(actions)
    ensures
      var w := After(actions);
      && (!TopThen(w.log, w.tops, a, asOf) ==>
            BlasAt(At(w.t.hist, a, []), asOf) in {BlasAt(At(w.log, a, []), asOf), None})
      && (r in w.t.pending ==>
            && (r.key.tlas, r.key.build) in w.truth
            && (d in w.truth[(r.key.tlas, r.key.build)].descs ==>
                  BlasAt(At(w.t.hist, d.blas, []), r.key.asOf) == BlasAt(At(w.log, d.blas, []), r.key.asOf)))
  {
    hide Runs, After, Inv;
    EveryRunKeeps(actions);
    var w := After(actions);
    OldAnswers(w, a, asOf);
    if r in w.t.pending { PendingIs(w, r); }
  }

  lemma OldAnswers(w: World, a: Addr, asOf: nat)
    requires Inv(w)
    ensures !TopThen(w.log, w.tops, a, asOf) ==>
      EntryAt(At(w.t.hist, a, []), asOf) in {EntryAt(At(w.log, a, []), asOf), None}
  {
    assert LogAt(w.t.asSerial, w.tops, a, At(w.t.hist, a, []), At(w.log, a, []));
    assert OldAnswer(w.tops, a, At(w.t.hist, a, []), At(w.log, a, []), asOf);
  }

  /** A stamped read's copy was submitted before the signal it is stamped with, on that queue. */
  lemma {:induction false} StampsFollowCopies(actions: seq<Action>, r: Read<Copy>)
    requires Runs(actions)
    ensures
      var w := After(actions);
      r in w.t.pending && r.fence != 0 ==>
        r.queue in w.gpu.queues && SentThen(w.gpu.queues[r.queue], r.id, r.fence)
  {
    hide Inv, Runs, After;
    EveryRunKeeps(actions);
    if r in After(actions).t.pending { PendingIs(After(actions), r); }
  }

  lemma {:induction false} StillPending(t: Tracker, g: Gpu, buffers: map<nat, seq<Desc>>, rs: seq<Read<Copy>>, r: Read<Copy>)
    requires r in rs && !Passed(g, r)
    ensures r in SettleDone(t, g, buffers, rs).pending
  {
    hide Settle, Passed;
    var n := |rs| - 1;
    assert rs == rs[..n] + [rs[n]];
    if r in rs[..n] { StillPending(t, g, buffers, rs[..n], r); }
    SettlePending(SettleDone(t, g, buffers, rs[..n]), rs[n].key, At(buffers, rs[n].id, []));
  }

  lemma LearnPending(t: Tracker, a: Addr, build: nat, asOf: nat, descs: seq<Desc>)
    ensures Learn(t, a, build, asOf, descs).pending == t.pending
  {
    hide ParseAt, Remember;
  }

  lemma LearnOlderPending(t: Tracker, a: Addr, build: nat, asOf: nat, descs: seq<Desc>)
    ensures LearnOlder(t, a, build, asOf, descs).pending == t.pending
  {
    hide ParseAt, Remember;
  }

  lemma SettlePending(t: Tracker, k: Copy, descs: seq<Desc>)
    ensures Settle(t, k, descs).pending == t.pending
  {
    hide Learn, LearnOlder;
    LearnPending(t, k.tlas, k.build, k.asOf, descs);
    LearnOlderPending(t, k.tlas, k.build, k.asOf, descs);
  }

  /** No readback is parsed before the GPU has executed its copy, by the hook after a submission */
  lemma {:induction false} HookParsesOnlyWhatRan(actions: seq<Action>, call: nat, signalled: bool, r: Read<Copy>)
    requires Runs(actions)
    ensures
      var w := After(actions);
      (&& Enabled(w, Leave(call, signalled))
       && r in Submitted(w, call, signalled).t.pending
       && r !in Step(w, Leave(call, signalled)).t.pending) ==> HasRun(w.gpu, r.id)
  {
    hide Inv, Runs, After, HasRun;
    EveryRunKeeps(actions);
    var w := After(actions);
    if Enabled(w, Leave(call, signalled)) && r in Submitted(w, call, signalled).t.pending
      && r !in Step(w, Leave(call, signalled)).t.pending {
      LeaveParsesOnlyWhatRan(w, call, signalled, r);
    }
  }

  lemma LeaveParsesOnlyWhatRan(w: World, call: nat, signalled: bool, r: Read<Copy>)
    requires Inv(w) && Enabled(w, Leave(call, signalled))
    requires r in Submitted(w, call, signalled).t.pending
    requires r !in Step(w, Leave(call, signalled)).t.pending
    ensures HasRun(w.gpu, r.id)
  {
    var w1 := Submitted(w, call, signalled);
    LeaveStepIs(w, call, signalled);
    hide Inv, Step, SettleDone, Quiet, Submitted, Signals, AllSent, Recorded, HasRun, ReadOk, PendingOk, GpuOk, Passed;
    SubmittedKeeps(w, call, signalled);
    InvReads(w);
    LeaveRecorded(w, call, Signals(w, call, signalled));
    PendingIs(w1, r);
    if !Passed(w1.gpu, r) { StillPending(w1.t, w1.gpu, w.buffers, w1.t.pending, r); }
    PassedHasRun(w1.gpu, r);
    assert Quiet(w.gpu, w1.gpu) by { SubmittedQuiet(w, call, signalled); }
    QuietHasRun(w.gpu, w1.gpu, r.id);
  }

  lemma LeaveStepIs(w: World, call: nat, signalled: bool)
    requires Enabled(w, Leave(call, signalled))
    ensures
      var w1 := Submitted(w, call, signalled);
      Step(w, Leave(call, signalled)) == w1.(t := SettleDone(w1.t, w1.gpu, w.buffers, w1.t.pending))
  {
    hide Submitted, SettleDone;
  }

  lemma SubmittedQuiet(w: World, call: nat, signalled: bool)
    requires call in w.gpu.calls && w.gpu.calls[call].queue in w.gpu.queues
    requires Quiet(w.gpu, Readback.Leave(w.gpu, call, Signals(w, call, signalled)))
    ensures Quiet(w.gpu, Submitted(w, call, signalled).gpu)
  {}

  /** nor on demand at a split, of any read the code takes for its own list's. */
  lemma {:induction false} SplitParsesOnlyWhatRan(actions: seq<Action>, call: nat, d: Deferred, k: nat, r: Read<Copy>)
    requires Runs(actions)
    ensures
      var w := After(actions);
      (&& Enabled(w, Bring(call, d, k))
       && r in w.t.pending
       && r !in Step(w, Bring(call, d, k)).t.pending) ==> HasRun(w.gpu, r.id)
  {
    hide Inv, AtSegment, Step, HasRun, Runs, After, Learns;
    EveryRunKeeps(actions);
    if Enabled(After(actions), Bring(call, d, k)) { BringStepKeeps(After(actions), Bring(call, d, k)); }
  }

  /** Supersession over every run. */
  lemma {:induction false} ReachableSerials(actions: seq<Action>)
    requires Runs(actions)
    ensures BuildsInOrder(After(actions).t)
  {
    hide Step, After, Runs;
    EveryRunKeeps(actions);
  }

  // What a build is made of never changes.

  ghost predicate Remembers(w: World, w': World) {
    && w.t.tlasSerial <= w'.t.tlasSerial
    && (forall b :: b in w.truth ==>
          b in w'.truth && w'.truth[b] == w.truth[b] && Seen(w'.log, w.truth[b]) == Seen(w.log, w.truth[b]))
    && (forall b :: b in w'.truth && b !in w.truth ==> b.1 > w.t.tlasSerial)
    && (forall a :: a in w.t.lastBuilt ==>
          a in w'.t.lastBuilt && (w'.t.lastBuilt[a] == w.t.lastBuilt[a] || w'.t.lastBuilt[a] > w.t.tlasSerial))
  }

  lemma RemembersMore(w: World, w1: World, w2: World)
    requires Remembers(w, w1) && Remembers(w1, w2) && BuildsInOrder(w.t)
    ensures Remembers(w, w2)
  {
    hide Seen;
    forall a | a in w.t.lastBuilt
      ensures a in w2.t.lastBuilt && (w2.t.lastBuilt[a] == w.t.lastBuilt[a] || w2.t.lastBuilt[a] > w.t.tlasSerial)
    {
      assert a in w1.t.lastBuilt;
    }
  }

  /** Steps that leave builds and logs alone. */
  lemma SameRemembers(w: World, w': World)
    requires w'.log == w.log && w'.truth == w.truth
    requires w'.t.tlasSerial == w.t.tlasSerial && w'.t.lastBuilt == w.t.lastBuilt
    ensures Remembers(w, w')
  {}

  /** One more entry in the log, and perhaps a new build of `a`. */
  lemma GrowthRemembers(w: World, w': World, a: Addr, e: Entry)
    requires Inv(w) && e.serial == w.t.asSerial + 1
    requires w'.log == w.log || w'.log == Append(w.log, a, e)
    requires w'.truth == w.truth
      || ((a, w.t.tlasSerial + 1) in w'.truth
          && w'.truth == w.truth[(a, w.t.tlasSerial + 1) := w'.truth[(a, w.t.tlasSerial + 1)]])
    requires w.t.tlasSerial <= w'.t.tlasSerial
    requires w'.t.lastBuilt == w.t.lastBuilt || w'.t.lastBuilt == w.t.lastBuilt[a := w.t.tlasSerial + 1]
    ensures Remembers(w, w')
  {
    hide Append, Seen;
    forall b | b in w.truth
      ensures b in w'.truth && w'.truth[b] == w.truth[b] && Seen(w'.log, w.truth[b]) == Seen(w.log, w.truth[b])
    {
      SeenStays(w.log, a, e, w.truth[b]);
    }
  }

  /** The build serials after a copy. */
  ghost predicate Grew(t: Tracker, t': Tracker, dst: Addr) {
    && t.tlasSerial <= t'.tlasSerial
    && (t'.lastBuilt == t.lastBuilt || t'.lastBuilt == t.lastBuilt[dst := t.tlasSerial + 1])
  }

  lemma CopyTopGrew(t: Tracker, dst: Addr, src: Addr, same: bool)
    ensures Grew(t, CopyTop(t, dst, src, same), dst)
  {
    hide RememberCopy;
  }

  lemma NoteCopyGrew(t: Tracker, dst: Addr, src: Addr, mode: CopyMode)
    ensures Grew(t, NoteCopy(t, dst, src, mode), dst)
  {
    hide CopyTop, CopiedInfo;
    CopyTopGrew(CopyBottom(t, dst, src, mode == CloneOrCompact), dst, src, mode == CloneOrCompact);
  }

  lemma CopyStepParts(w: World, dst: Addr, src: Addr, mode: CopyMode)
    requires dst != src && mode != Deserialize
    ensures
      var w' := Step(w, CopyStructure(dst, src, mode));
      && w'.t == NoteCopy(w.t, dst, src, mode)
      && w'.log == LogAfterCopy(w, dst, src, mode) && w'.truth == TruthAfterCopy(w, dst, src, mode)
  {
    hide NoteCopy, LogAfterCopy, TruthAfterCopy, CopyRebuilds;
  }

  lemma CopyGrowth(w: World, dst: Addr, src: Addr, mode: CopyMode)
    ensures
      var log, e := LogAfterCopy(w, dst, src, mode), Entry(w.t.asSerial + 1, CopyIs(w, src, mode));
      log == w.log || log == Append(w.log, dst, e)
    ensures
      var truth, b := TruthAfterCopy(w, dst, src, mode), (dst, w.t.tlasSerial + 1);
      truth == w.truth || (b in truth && truth == w.truth[b := truth[b]])
  {
    hide Append, CopyIs;
  }

  lemma CopyRemembers(w: World, dst: Addr, src: Addr, mode: CopyMode)
    requires Inv(w) && dst != src && mode != Deserialize
    ensures Remembers(w, Step(w, CopyStructure(dst, src, mode)))
  {
    hide Inv, Step, CopyIs, NoteCopy, Remembers, Append, LogAfterCopy, TruthAfterCopy;
    CopyStepParts(w, dst, src, mode);
    CopyGrows(w, Step(w, CopyStructure(dst, src, mode)), dst, src, mode);
  }

  lemma CopyGrows(w: World, w': World, dst: Addr, src: Addr, mode: CopyMode)
    requires Inv(w) && w'.t == NoteCopy(w.t, dst, src, mode)
    requires w'.log == LogAfterCopy(w, dst, src, mode) && w'.truth == TruthAfterCopy(w, dst, src, mode)
    ensures Remembers(w, w')
  {
    NoteCopyGrew(w.t, dst, src, mode);
    CopyGrowth(w, dst, src, mode);
    hide Inv, CopyIs, NoteCopy, Remembers, Append, LogAfterCopy, TruthAfterCopy;
    GrowthRemembers(w, w', dst, Entry(w.t.asSerial + 1, CopyIs(w, src, mode)));
  }

  lemma LearnsRemembers(w: World, w': World)
    requires Learns(w, w')
    ensures Remembers(w, w')
  {}

  lemma LeaveRemembers(w: World, action: Action)
    requires Inv(w) && Enabled(w, action) && action.Leave?
    ensures Remembers(w, Step(w, action))
  {
    hide Inv, SettleDone, AllSent, Signals, Readback.Leave, LeaveReads;
    var w1 := Submitted(w, action.call, action.signalled);
    SubmittedKeeps(w, action.call, action.signalled);
    assert w1.t.pending[..|w1.t.pending|] == w1.t.pending;
    SettleDoneKeeps(w1, |w1.t.pending|);
    SameRemembers(w, Step(w, action));
  }

  lemma BringRemembers(w: World, action: Action)
    requires Inv(w) && Enabled(w, action) && action.Bring?
    ensures Remembers(w, Step(w, action))
  {
    hide Inv, Step, AtSegment;
    BringStepKeeps(w, action);
    LearnsRemembers(w, Step(w, action));
  }

  lemma DeserializeRemembers(w: World, w': World, dst: Addr)
    requires Inv(w) && dst != 0 && w'.t == DeserializeStep(w, dst).t && w'.log == DeserializeStep(w, dst).log
    requires w'.truth == DeserializeStep(w, dst).truth
      || ((dst, w.t.tlasSerial + 1) in w'.truth
          && w'.truth == w.truth[(dst, w.t.tlasSerial + 1) := w'.truth[(dst, w.t.tlasSerial + 1)]])
    ensures Remembers(w, w')
  {
    DeserializedTables(w, dst);
    hide Inv, NoteCopy, DeserializeStep;
    GrowthRemembers(w, w', dst, Entry(w.t.asSerial + 1, UNKNOWN_DESERIALIZED));
  }

  lemma DecodeRemembers(w: World, d: Deserialized, descs: seq<Desc>)
    ensures Remembers(w, DecodeStep(w, d, descs))
  {
    hide Remembers, ParseAt, Remember;
    SameRemembers(w, DecodeStep(w, d, descs));
  }

  /** No step changes what a build was made of, or how its instances look in the log. */
  lemma StepRemembers(w: World, action: Action)
    requires Inv(w) && Enabled(w, action)
    ensures Remembers(w, Step(w, action))
  {
    hide Inv, Remembers, Step;
    match action {
      case BuildBottom(_, _, _) => BuildRemembers(w, action);
      case BuildTop(_, _, _) => BuildRemembers(w, action);
      case CopyStructure(_, _, _) => CopyStepRemembers(w, action);
      case DeserializeTop(_, _) => CopyStepRemembers(w, action);
      case DeserializeOther(_) => CopyStepRemembers(w, action);
      case Bring(_, _, _) => BringRemembers(w, action);
      case Leave(_, _) => LeaveRemembers(w, action);
      case _ => OtherRemembers(w, action);
    }
  }

  lemma BuildRemembers(w: World, action: Action)
    requires Inv(w) && Enabled(w, action) && (action.BuildBottom? || action.BuildTop?)
    ensures Remembers(w, Step(w, action))
  {
    hide Inv, Remembers, Append, PointsBelow, Open;
    GrowthRemembers(w, Step(w, action), action.a,
                    Entry(w.t.asSerial + 1, if action.BuildBottom? then action.info else UNKNOWN_COPY));
  }

  lemma CopyStepRemembers(w: World, action: Action)
    requires Inv(w) && Enabled(w, action)
    requires action.CopyStructure? || action.DeserializeTop? || action.DeserializeOther?
    ensures Remembers(w, Step(w, action))
  {
    hide Inv, Remembers, PointsBelow, DeserializeStep, NoteCopy, LogAfterCopy, TruthAfterCopy, CopyRebuilds;
    if action.CopyStructure? {
      CopyRemembers(w, action.dst, action.src, action.mode);
    } else {
      DeserializeRemembers(w, Step(w, action), action.dst);
    }
  }

  /** Steps that build and copy nothing. */
  lemma OtherRemembers(w: World, action: Action)
    requires Inv(w) && Enabled(w, action)
    requires !action.BuildBottom? && !action.BuildTop? && !action.CopyStructure? && !action.DeserializeTop?
    requires !action.DeserializeOther? && !action.Bring? && !action.Leave?
    ensures Remembers(w, Step(w, action))
  {
    hide Inv, Remembers, AsTracker.ReadNow, Readback.Exec, Readback.Enter, BuffersAfter, DecodeStep, Open, DeferredNow,
         ByOthers, NotePending, Drop;
    if action.Decode? {
      DecodeRemembers(w, action.d, action.descs);
    } else {
      if action.ReadNow? {
        NoteSame(w.t, action.a, w.truth[(action.a, w.t.lastBuilt[action.a])].descs);
      } else if action.RecordCopy? {
        PendingSame(w.t, action.a, w.next, action.owner, ListOf(w.gpu, action.owner));
      }
      SameRemembers(w, Step(w, action));
    }
  }

  lemma PendingSame(t: Tracker, a: Addr, id: nat, owner: nat, at: Listing)
    ensures NotePending(t, a, id, owner, at).lastBuilt == t.lastBuilt
    ensures NotePending(t, a, id, owner, at).tlasSerial == t.tlasSerial
  {
    hide At;
  }

  lemma NoteSame(t: Tracker, a: Addr, descs: seq<Desc>)
    ensures AsTracker.ReadNow(t, a, descs).lastBuilt == t.lastBuilt
    ensures AsTracker.ReadNow(t, a, descs).tlasSerial == t.tlasSerial
  {
    hide Learn, Guess;
    var build, asOf := At(t.lastBuilt, a, 0), At(t.tlasAsSerial, a, 0);
    var t' := if a in t.tlasAsSerial then t else t.(tlasAsSerial := t.tlasAsSerial[a := 0]);
    LearnSame(t, a, build, 0, []);
    LearnSame(t', a, build, asOf, descs);
  }

  lemma LearnSame(t: Tracker, a: Addr, build: nat, asOf: nat, descs: seq<Desc>)
    ensures Learn(t, a, build, asOf, descs).lastBuilt == t.lastBuilt
    ensures Learn(t, a, build, asOf, descs).tlasSerial == t.tlasSerial
    ensures Guess(t, a, asOf, descs).lastBuilt == t.lastBuilt
    ensures Guess(t, a, asOf, descs).tlasSerial == t.tlasSerial
  {
    hide ParseAt, Remember;
  }

  /** Nor does any run. */
  lemma {:induction false} RunRemembers(before: seq<Action>, rest: seq<Action>)
    requires Runs(before + rest)
    ensures Runs(before) && Remembers(After(before), After(before + rest))
    decreases |rest|
  {
    hide Inv, Remembers, Step, Enabled;
    if rest == [] {
      assert before + rest == before;
      SameRemembers(After(before), After(before));
    } else {
      var n := |rest| - 1;
      var all, front := before + rest, before + rest[..n];
      assert all[..|all| - 1] == front;
      RunRemembers(before, rest[..n]);
      EveryRunKeeps(front);
      StepRemembers(After(front), all[|all| - 1]);
      ReachableSerials(before);
      RemembersMore(After(before), After(front), After(all));
    }
  }

  /**
   A dispatch recorded on its scenes and deferred to submit: whatever was built,
   copied, deserialized or read since, when its segment is done and a scene's build is
   brought back, what the scene is drawn from is the parse of exactly the instances of
   the build that was its latest when the dispatch was recorded. Otherwise it is not
   drawn.
   */
  lemma {:induction false} DeferredDrawsItsBuild(before: seq<Action>, owner: nat, scenes: seq<Addr>, rest: seq<Action>, call: nat, k: nat)
    requires Runs(before) && Enabled(After(before), Defer(owner, scenes)) && k < |scenes|
    requires Runs(before + [Defer(owner, scenes)] + rest)
    ensures
      var w0, w := After(before), After(before + [Defer(owner, scenes)] + rest);
      var d := DeferredNow(w0, owner, scenes);
      AtSegment(w, call, d) ==>
        var scene, build := d.builds[k].0, d.builds[k].1;
        var (ok, t) := AsTracker.Bring(w.t, w.gpu, w.buffers, scene, build, owner, 0);
        && scene == scenes[k] && build == w0.t.lastBuilt[scene]
        && (ok ==>
              && (scene, build) in w0.truth
              && scene in t.tlas && t.tlas[scene] == Parse(Seen(w0.log, w0.truth[(scene, build)])))
  {
    hide Inv, Parse, Seen, AsTracker.Bring, Runs, After, Remembers, Enabled, Step, AtSegment, DeferredNow;
    DeferredRun(before, owner, scenes, rest);
    var w0, w := After(before), After(before + [Defer(owner, scenes)] + rest);
    DeferredIs(w0, owner, scenes, k);
    if AtSegment(w, call, DeferredNow(w0, owner, scenes)) {
      DeferredMeans(w0, w, owner, scenes, call, k);
    }
  }

  /** Where a dispatch is recorded and wherever a run goes from there. */
  lemma {:induction false} DeferredRun(before: seq<Action>, owner: nat, scenes: seq<Addr>, rest: seq<Action>)
    requires Runs(before) && Enabled(After(before), Defer(owner, scenes))
    requires Runs(before + [Defer(owner, scenes)] + rest)
    ensures
      var w0, w := After(before), After(before + [Defer(owner, scenes)] + rest);
      && Inv(w0) && Inv(w) && Remembers(w0, w)
      && forall a :: a in scenes ==> a in w0.t.lastBuilt
  {
    DeferEnabled(After(before), owner, scenes);
    hide Inv, Runs, After, Remembers, Enabled, Step;
    var all, more := before + [Defer(owner, scenes)] + rest, [Defer(owner, scenes)] + rest;
    assert all == before + more;
    RunFrom(before, more, all);
  }

  lemma DeferEnabled(w: World, owner: nat, scenes: seq<Addr>)
    requires Enabled(w, Defer(owner, scenes))
    ensures forall a :: a in scenes ==> a in w.t.lastBuilt
  {}

  lemma {:induction false} RunFrom(before: seq<Action>, more: seq<Action>, all: seq<Action>)
    requires all == before + more && Runs(before) && Runs(all)
    ensures Inv(After(before)) && Inv(After(all)) && Remembers(After(before), After(all))
  {
    hide Inv, Runs, After, Remembers, Step;
    EveryRunKeeps(all);
    EveryRunKeeps(before);
    RunRemembers(before, more);
  }

  lemma DeferredIs(w: World, owner: nat, scenes: seq<Addr>, k: nat)
    requires k < |scenes| && forall a :: a in scenes ==> a in w.t.lastBuilt
    ensures
      var d := DeferredNow(w, owner, scenes);
      scenes[k] in w.t.lastBuilt && d.owner == owner && |d.builds| == |scenes|
      && d.builds[k] == (scenes[k], w.t.lastBuilt[scenes[k]])
  {
    assert scenes[k] in scenes;
  }

  lemma DeferredMeans(w0: World, w: World, owner: nat, scenes: seq<Addr>, call: nat, k: nat)
    requires Inv(w0) && Inv(w) && Remembers(w0, w) && k < |scenes|
    requires (forall a :: a in scenes ==> a in w0.t.lastBuilt) && AtSegment(w, call, DeferredNow(w0, owner, scenes))
    ensures scenes[k] in w0.t.lastBuilt
    ensures
      var scene, build := scenes[k], w0.t.lastBuilt[scenes[k]];
      var (ok, t) := AsTracker.Bring(w.t, w.gpu, w.buffers, scene, build, owner, 0);
      ok ==>
        && (scene, build) in w0.truth
        && scene in t.tlas && t.tlas[scene] == Parse(Seen(w0.log, w0.truth[(scene, build)]))
  {
    DeferredIs(w0, owner, scenes, k);
    hide Inv, Parse, Seen, AsTracker.Bring, Remembers, AtSegment, DeferredNow;
    var scene, build := scenes[k], w0.t.lastBuilt[scenes[k]];
    SceneRan(w, call, DeferredNow(w0, owner, scenes), k);
    BringMeans(w, scene, build, owner);
    LatestIsSerial(w0, scene);
    SameThen(w0, w, (scene, build));
  }

  lemma LatestIsSerial(w: World, a: Addr)
    requires Inv(w) && a in w.t.lastBuilt
    ensures w.t.lastBuilt[a] <= w.t.tlasSerial
  {
    assert InOrder(w.t, a);
  }

  /** A build there was already: made of the same then as now. */
  lemma SameThen(w0: World, w: World, b: Build)
    requires Remembers(w0, w) && b.1 <= w0.t.tlasSerial
    ensures b in w.truth ==> b in w0.truth && Parse(Seen(w.log, w.truth[b])) == Parse(Seen(w0.log, w0.truth[b]))
  {
    hide Parse, Seen;
  }

  lemma BringMeans(w: World, a: Addr, build: nat, list: nat)
    requires Inv(w) && ReadsRan(w, list, build)
    ensures
      var (ok, t) := AsTracker.Bring(w.t, w.gpu, w.buffers, a, build, list, 0);
      ok ==>
        && (a, build) in w.truth
        && a in t.tlas && t.tlas[a] == Parse(Seen(w.log, w.truth[(a, build)]))
  {
    hide Inv, Parse, Seen, AsTracker.Bring, ReadsRan;
    BringKeeps(w, a, build, list, 0);
    var (ok, t) := AsTracker.Bring(w.t, w.gpu, w.buffers, a, build, list, 0);
    KnownIs(w.(t := t), a);
  }

  /** One more step of a run. */
  lemma {:induction false} RunsNext(actions: seq<Action>, action: Action)
    requires Runs(actions) && Enabled(After(actions), action)
    ensures Runs(actions + [action]) && After(actions + [action]) == Step(After(actions), action)
  {
    hide Enabled, Step;
    assert (actions + [action])[..|actions|] == actions;
  }
}
