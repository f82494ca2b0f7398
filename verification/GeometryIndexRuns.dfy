/**
 A GeometryIndex() dispatch deferred to submit, over whole runs: from the instances a
 scene was built with, through the tracker, the labels and the table copy, to the word
 its hits read.
 */
module GeometryIndexRuns {
  import opened AsLog
  import opened Options
  import opened AsParse
  import opened AsTracker
  import opened AsTrackerWorld
  import opened SceneLabels
  import opened Labels
  import opened GeomTable
  import opened GeometryIndex
  import opened AsTrackerReads
  import opened AsTrackerBuilds
  import opened AsTrackerRuns
  import opened AsTrackerScenes

  /** The dispatch that is deferred there, with the builds its scenes have. */
  ghost function DispatchOf(before: seq<Action>, owner: nat, scenes: seq<Addr>): (d: Deferred)
    requires Runs(before) && Enabled(After(before), Defer(owner, scenes))
    ensures |d.builds| == |scenes| && forall i :: 0 <= i < |scenes| ==>
      scenes[i] in After(before).t.lastBuilt && d.builds[i] == (scenes[i], After(before).t.lastBuilt[scenes[i]])
  {
    assert forall i :: 0 <= i < |scenes| ==> scenes[i] in scenes;
    DeferredNow(After(before), owner, scenes)
  }

  /** The dispatch is drawn: its scenes are brought and found current, and the copy carries their labels. */
  ghost predicate Drawn(w: World, d: Deferred, scenes: seq<Addr>, args: seq<TraceArgs>, plan: Plan, info: Info, app: Table)
    requires plan.Copy? && WellFormed(info.groups)
  {
    var (ok, t) := BringAll(w.t, w.gpu, w.buffers, d.builds, d.owner);
    && ok && (forall j :: 0 <= j < |scenes| ==> Current(t, scenes[j]))
    && Carries(plan.meta, info.groups, Hits(t, scenes, true, args), app.Records())
  }

  /** The build of the structure that was recorded last before that. */
  ghost predicate IsLatest(log: Log, e: Entry, asOf: nat) {
    e in log && e.serial < asOf && forall x :: x in log && x.serial < asOf ==> x.serial <= e.serial
  }

  /**
   Whatever was built, copied, pruned, read or submitted since the dispatch was recorded,
   and however the threads of the table copy interleave: when it is drawn, a hit on
   geometry `g` of an instance of the build that was its scene's latest when it was
   recorded reads `g`. That is a geometry of the structure's latest build among those
   recorded before the instance's, and the hit lands where the DXR formula puts it.
   */
  lemma {:induction false} DeferredHitReadsItsGeometry(
      before: seq<Action>, owner: nat, scenes: seq<Addr>, rest: seq<Action>, call: nat, i: nat, args: seq<TraceArgs>,
      plan: Plan, info: Info, app: Table, src: seq<Word>, buf: seq<Word>, n: nat, schedule: seq<nat>,
      desc: Desc, e: Entry, g: nat, q: TraceArgs, k: nat)
    requires Runs(before) && Enabled(After(before), Defer(owner, scenes)) && i < |scenes|
    requires Runs(before + [Defer(owner, scenes)] + rest)
    requires Legal(info, app) && app.stride != 0 && plan.Copy? && Wide(plan.p, info, app)
    requires Buffers(plan, src, buf) && Completes(plan.p, src, plan.meta, buf, n, schedule)
    requires desc.blas != 0 && q in args
    requires g < e.info.geometryCount || (e.info.geometryCount == 0 && g == 0)
    ensures
      var w0, w := After(before), After(before + [Defer(owner, scenes)] + rest);
      var d := DispatchOf(before, owner, scenes);
      (AtSegment(w, call, d) && Drawn(w, d, scenes, args, plan, info, app)) ==>
        && d.builds[i] in w0.truth
        && var build := w0.truth[d.builds[i]];
           (desc in build.descs && IsLatest(AsTracker.At(w0.log, desc.blas, []), e, build.asOf)) ==>
             ReadsBack(plan, info, src, buf, n, schedule, DxrRecord(desc.contribution, g, q), k, g)
  {
    hide DxrRecord, Parse, Seen, Drawn, Runs, After, Enabled, AtSegment, DispatchOf, ReadsBack, Completes, Buffers, Legal,
         Wide, IsLatest, Inv;
    LegalIs(info, app);
    var x := Instance(true, desc.contribution, Some(e.info));
    DeferredInstanceReads(before, owner, scenes, rest, call, i, args, plan, info, app, src, buf, n, schedule, x, g, q, k);
    EveryRunKeeps(before);
    var w0, b := After(before), DispatchOf(before, owner, scenes).builds[i];
    if b in w0.truth && desc in w0.truth[b].descs
      && IsLatest(AsTracker.At(w0.log, desc.blas, []), e, w0.truth[b].asOf)
    {
      SeenOf(w0, w0.truth[b], desc, e);
    }
  }

  lemma LegalIs(info: Info, app: Table)
    requires Legal(info, app)
    ensures WellFormed(info.groups)
  {}

  /** What an instance description stands for. */
  lemma SeenOf(w: World, tr: Truth, desc: Desc, e: Entry)
    requires Inv(w) && desc in tr.descs && desc.blas != 0
    requires IsLatest(AsTracker.At(w.log, desc.blas, []), e, tr.asOf)
    ensures Instance(true, desc.contribution, Some(e.info)) in Seen(w.log, tr)
  {
    assert LogAt(w.t.asSerial, w.tops, desc.blas, AsTracker.At(w.t.hist, desc.blas, []), AsTracker.At(w.log, desc.blas, []));
    ResolvedIsLatest(w.log, desc, tr.asOf, e);
    var k :| 0 <= k < |tr.descs| && tr.descs[k] == desc;
    assert Seen(w.log, tr)[k] == ResolveOne(w.log, desc, tr.asOf);
  }

  /** The same of an instance as the parse sees it. */
  lemma {:induction false} DeferredInstanceReads(
      before: seq<Action>, owner: nat, scenes: seq<Addr>, rest: seq<Action>, call: nat, i: nat, args: seq<TraceArgs>,
      plan: Plan, info: Info, app: Table, src: seq<Word>, buf: seq<Word>, n: nat, schedule: seq<nat>,
      x: Instance, g: nat, q: TraceArgs, k: nat)
    requires Runs(before) && Enabled(After(before), Defer(owner, scenes)) && i < |scenes|
    requires Runs(before + [Defer(owner, scenes)] + rest)
    requires Legal(info, app) && app.stride != 0 && plan.Copy? && Wide(plan.p, info, app)
    requires Buffers(plan, src, buf) && Completes(plan.p, src, plan.meta, buf, n, schedule)
    requires x.HasGeometry(g) && q in args
    ensures
      var w0, w := After(before), After(before + [Defer(owner, scenes)] + rest);
      var d := DispatchOf(before, owner, scenes);
      (AtSegment(w, call, d) && Drawn(w, d, scenes, args, plan, info, app)) ==>
        && d.builds[i] in w0.truth
        && (x in Seen(w0.log, w0.truth[d.builds[i]]) ==>
              ReadsBack(plan, info, src, buf, n, schedule, HitRecord(x, g, q), k, g))
  {
    assert forall a :: a in scenes ==> a in After(before).t.lastBuilt;
    assert WellFormed(info.groups);
    DeferredIs(After(before), owner, scenes, i);
    hide Parse, Seen, BringAll, Runs, After, Enabled, AtSegment, DeferredNow, Current, Hits, Carries, ReadsBack, Completes,
         Buffers, Legal, Wide, HitRecord;
    CurrentScenesAreTheirs(before, owner, scenes, rest, call, i);
    var w0, w := After(before), After(before + [Defer(owner, scenes)] + rest);
    var d := DeferredNow(w0, owner, scenes);
    if AtSegment(w, call, d) && Drawn(w, d, scenes, args, plan, info, app) {
      var t := BringAll(w.t, w.gpu, w.buffers, d.builds, owner).1;
      var b := d.builds[i];
      assert Chosen(t, scenes, true, b.0) by { hide Live; }
      if x in Seen(w0.log, w0.truth[b]) {
        InstanceReadsItsGeometry(t, scenes, true, args, plan, info, app, src, buf, n, schedule, b.0,
                                 Seen(w0.log, w0.truth[b]), x, g, q, k);
      }
    }
  }

  // --- a scene never seen being built ---------------------------------------------------

  /**
   A dispatch that is not deferred is served as soon as some of its scenes are read and
   none of those is stale. Over every run that is all of its scenes, each at its latest
   build, exactly when every one of them has been read at all.
   */
  lemma {:induction false} ServedCovers(actions: seq<Action>, bound: seq<Addr>)
    requires Runs(actions)
    ensures
      var t := After(actions).t;
      Readable(t, bound, true) ==>
        ((forall a :: a in bound ==> a in t.tlas) <==> (forall a :: a in bound ==> Current(t, a)))
  {
    hide Inv, Runs, After, Parse, IsUnknown;
    EveryRunKeeps(actions);
    var w := After(actions);
    if Readable(w.t, bound, true) {
      forall a | a in bound && a in w.t.tlas ensures Current(w.t, a) {
        assert Chosen(w.t, bound, true, a);
      }
      forall a | a in bound && Current(w.t, a) ensures a in w.t.tlas { KnownIs(w, a); }
    }
  }

  function ReadRun(owner: nat): seq<Action> {
    [] + [BuildTop(1, [], owner)] + [ReadNow(1)]
  }

  lemma ReadRunRuns(owner: nat)
    ensures Runs(ReadRun(owner))
    ensures
      var t := After(ReadRun(owner)).t;
      && t.tlas == map[1 := Parse([])] && t.readOf == map[1 := 1] == t.lastBuilt
      && Parse([]).unknownBlas == 0 && Parse([]).classes == {}
  {
    var built := [] + [BuildTop(1, [], owner)];
    RunsNext([], BuildTop(1, [], owner));
    RunsNext(built, ReadNow(1));
    var w := After(built);
    assert After(ReadRun(owner)).t == NoteEmpty(w.t, 1);
    EmptyLearned(w.t);
  }

  /** Structure 2 is passed over: it was built before anything was seen, and nothing lands anywhere for it. */
  lemma UnreadSceneIsPassedOver(owner: nat, args: seq<TraceArgs>)
    ensures Runs(ReadRun(owner))
    ensures
      var t := After(ReadRun(owner)).t;
      Readable(t, [1, 2], true) && 2 !in t.tlas && 2 !in t.lastBuilt && Hits(t, [1, 2], true, args) == {}
  {
    ReadRunRuns(owner);
    hide Runs, After, Parse;
    var t := After(ReadRun(owner)).t;
    assert Chosen(t, [1, 2], true, 1) && Current(t, 1);
  }

  lemma EmptyLearned(t: Tracker)
    requires 1 in t.lastBuilt
    ensures
      var t' := NoteEmpty(t, 1);
      && t'.tlas == t.tlas[1 := Parse([])] && t'.readOf == t.readOf[1 := t.lastBuilt[1]] && t'.lastBuilt == t.lastBuilt
      && Parse([]).unknownBlas == 0 && Parse([]).classes == {}
  {
    assert Resolve(t.hist, [], t.asSerial + 1) == [];
    hide Remember;
  }
}
