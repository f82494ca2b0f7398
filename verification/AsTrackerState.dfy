/**
 The tables of `proxy/as_tracker.cpp` as they are: maps and lists that the calls
 update in place, with the loops the source has. Each call leaves exactly the state
 that the functions of `AsTracker` describe, over which the runs are proved.
 */
module AsTrackerState {
  import opened Options
  import opened GpuQueue
  import opened Readback
  import opened AsLog
  import opened AsParse
  import opened AsTracker
  import opened SceneLabels
  import Labels
  import RecordTable

  /** What kind of geometry a description says; a null pointer says nothing. */
  datatype Geometry = NullDesc | TriangleDesc | ProceduralDesc

  /** The loop over the geometry descriptions in `NoteBuild`. */
  method InfoOf(geometries: seq<Geometry>) returns (info: BlasInfo)
    requires |geometries| <= 0x100_0000
    ensures info.geometryCount == |geometries| && info.origin == 0
    ensures info.kind in {Triangles, Mixed} <==> TriangleDesc in geometries
    ensures info.kind in {Procedural, Mixed} <==> ProceduralDesc in geometries
  {
    var sawTri, sawProc := false, false;
    for i := 0 to |geometries|
      invariant sawTri <==> TriangleDesc in geometries[..i]
      invariant sawProc <==> ProceduralDesc in geometries[..i]
    {
      if geometries[i] == ProceduralDesc { sawProc := true; }
      else if geometries[i] == TriangleDesc { sawTri := true; }
    }
    assert geometries[..|geometries|] == geometries;
    var kind := if sawTri && sawProc then Mixed else if sawProc then Procedural
                else if sawTri then Triangles else Unknown;
    info := BlasInfo(kind, |geometries|, 0);
  }

  /** What the floor is after the first reads, and some of the structures. */
  ghost predicate FloorOver(t: Tracker, n: nat, seen: set<Addr>, floor: nat)
    requires n <= |t.pending|
  {
    && floor <= t.asSerial + 1
    && (forall i :: 0 <= i < n && t.pending[i].key.asOf != 0 ==> floor <= t.pending[i].key.asOf)
    && (forall a :: a in seen && a in t.tlasAsSerial && !Current(t, a) ==> floor <= t.tlasAsSerial[a])
    && (|| floor == t.asSerial + 1
        || (exists r :: r in t.pending && r.key.asOf == floor)
        || (exists a :: a in t.tlasAsSerial && !Current(t, a) && t.tlasAsSerial[a] == floor))
  }

  /** Does the structure count: named, or, when none are, live? */
  predicate Counts(t: Tracker, only: Option<seq<Addr>>, a: Addr) {
    a in t.tlas && match only case Some(scenes) => a in scenes case None => Live(t, a)
  }

  /** Is it what is known of a structure that counts? */
  ghost predicate Judged(t: Tracker, only: Option<seq<Addr>>, x: TlasInfo) {
    exists a :: Counts(t, only, a) && t.tlas[a] == x
  }

  /** Everything is known of it, it answers for itself, and agrees with every other that counts. */
  ghost predicate Agrees(t: Tracker, only: Option<seq<Addr>>, a: Addr)
    requires a in t.tlas
  {
    && t.tlas[a].unknownBlas == 0 && !t.tlas[a].constantsConflict
    && forall b, slot: nat :: Counts(t, only, b) && slot < |t.tlas[a].constants| && slot < |t.tlas[b].constants| ==>
         !RecordTable.Disagree(t.tlas[a].constants[slot], t.tlas[b].constants[slot])
  }

  lemma CountedAgree(t: Tracker, only: Option<seq<Addr>>, ts: seq<TlasInfo>)
    requires forall x :: x in ts ==> Judged(t, only, x)
    requires forall a :: Counts(t, only, a) ==> t.tlas[a] in ts
    ensures (!RecordTable.AnyUnknown(ts) && !RecordTable.OwnConflict(ts) && !RecordTable.CrossConflict(ts))
      <==> forall a :: Counts(t, only, a) ==> Agrees(t, only, a)
  {
    hide Live, RecordTable.Disagree;
    if !RecordTable.AnyUnknown(ts) && !RecordTable.OwnConflict(ts) && !RecordTable.CrossConflict(ts) {
      forall a | Counts(t, only, a) ensures Agrees(t, only, a) {
        var i :| 0 <= i < |ts| && ts[i] == t.tlas[a];
        forall b, slot: nat |
          Counts(t, only, b) && slot < |t.tlas[a].constants| && slot < |t.tlas[b].constants|
          ensures !RecordTable.Disagree(t.tlas[a].constants[slot], t.tlas[b].constants[slot])
        {
          var j :| 0 <= j < |ts| && ts[j] == t.tlas[b];
          assert !RecordTable.Disagree(ts[i].constants[slot], ts[j].constants[slot]);
        }
      }
    }
    if forall a :: Counts(t, only, a) ==> Agrees(t, only, a) {
      forall i | 0 <= i < |ts| ensures ts[i].unknownBlas == 0 && !ts[i].constantsConflict {
        assert Judged(t, only, ts[i]);
        var a :| Counts(t, only, a) && t.tlas[a] == ts[i];
        assert Agrees(t, only, a);
      }
      forall i, j, slot: nat | 0 <= i < |ts| && 0 <= j < |ts| && slot < |ts[i].constants| && slot < |ts[j].constants|
        ensures !RecordTable.Disagree(ts[i].constants[slot], ts[j].constants[slot])
      {
        assert Judged(t, only, ts[i]) && Judged(t, only, ts[j]);
        var a :| Counts(t, only, a) && t.tlas[a] == ts[i];
        var b :| Counts(t, only, b) && t.tlas[b] == ts[j];
        assert Agrees(t, only, a);
      }
    }
  }

  class State {
    var asSerial: nat
    var hist: map<Addr, Log>
    var tlasSerial: nat
    var lastBuilt: map<Addr, nat>
    var firstBuilt: map<Addr, nat>
    var buildCount: map<Addr, nat>
    var tlasAsSerial: map<Addr, nat>
    var tlas: map<Addr, TlasInfo>
    var readOf: map<Addr, nat>
    var alias: map<Addr, Alias>
    var instHist: map<Addr, seq<Kept>>
    var pending: seq<Read<Copy>>
    var fences: map<nat, nat>   // per queue, the last value signalled on its fence

    function Value(): Tracker
      reads this
    {
      Tracker(asSerial, hist, tlasSerial, lastBuilt, firstBuilt, buildCount, tlasAsSerial, tlas, readOf, alias,
              instHist, pending)
    }

    constructor ()
      ensures Value() == EMPTY && fences == map[]
    {
      asSerial, hist, tlasSerial, lastBuilt, firstBuilt, buildCount := 0, map[], 0, map[], map[], map[];
      tlasAsSerial, tlas, readOf, alias, instHist, pending, fences := map[], map[], map[], map[], map[], [], map[];
    }

    /** `CurrentLocked`. */
    method CurrentLocked(a: Addr) returns (current: bool)
      ensures current == Current(Value(), a)
    {
      current := a in lastBuilt && a in readOf && readOf[a] == lastBuilt[a];
    }

    /** `LiveLocked`: the window, and the loop over what has been read. */
    method LiveLocked(a: Addr) returns (live: bool)
      ensures live == Live(Value(), a)
    {
      if a !in lastBuilt { return true; }
      if lastBuilt[a] + LIVE_WINDOW < tlasSerial { return false; }
      var left := tlas.Keys;
      while left != {}
        invariant left <= tlas.Keys
        invariant forall b :: b in tlas && b !in left ==> !Supersedes(Value(), b, a)
      {
        var b :| b in left;
        left := left - {b};
        if b != a && b in firstBuilt && b in buildCount
           && firstBuilt[b] > lastBuilt[a] && buildCount[b] >= SUPERSEDE_BUILDS
        {
          assert Supersedes(Value(), b, a);
          return false;
        }
      }
      live := true;
    }

    /** The structures `TableWouldBeWrong` judges over: exactly those named, or every live one. */
    method Counted(only: Option<seq<Addr>>) returns (ts: seq<TlasInfo>)
      ensures forall x :: x in ts ==> Judged(Value(), only, x)
      ensures forall a :: Counts(Value(), only, a) ==> tlas[a] in ts
    {
      ts := [];
      var left := tlas.Keys;
      while left != {}
        invariant left <= tlas.Keys
        invariant forall x :: x in ts ==> Judged(Value(), only, x)
        invariant forall a :: Counts(Value(), only, a) && a !in left ==> tlas[a] in ts
      {
        hide Live;
        var a :| a in left;
        left := left - {a};
        var counts := false;
        if only.Some? { counts := a in only.value; } else { counts := LiveLocked(a); }
        assert counts == Counts(Value(), only, a);
        hide Counts;
        if counts {
          assert Judged(Value(), only, tlas[a]);
          ts := ts + [tlas[a]];
        }
      }
    }

    /** The constants part of `TableWouldBeWrong`, over those. */
    method TableWouldBeWrong(only: Option<seq<Addr>>) returns (v: RecordTable.Verdict)
      ensures v == RecordTable.Fine <==> forall a :: Counts(Value(), only, a) ==> Agrees(Value(), only, a)
    {
      var ts := Counted(only);
      v := RecordTable.TableWouldBeWrong(ts);
      CountedAgree(Value(), only, ts);
    }

    /** The first loop of `GeometryLabels` and `PairClasses`: does a bound structure count? */
    method AnyBoundLocked(bound: seq<Addr>, exact: bool) returns (any: bool)
      ensures any == AnyBound(Value(), bound, exact)
    {
      any := exact;
      for i := 0 to |bound|
        invariant any <==> exact || exists k :: 0 <= k < i && bound[k] in tlas
      {
        if bound[i] in tlas { any := true; }
      }
    }

    /** The second one: every structure that has been read, and whether it counts and is current. */
    method ScenesLocked(bound: seq<Addr>, exact: bool) returns (scenes: seq<Labels.Scene>)
      ensures AllScenes(Value(), bound, exact, scenes)
    {
      var any := AnyBoundLocked(bound, exact);
      scenes := [];
      var left := tlas.Keys;
      while left != {}
        invariant left <= tlas.Keys
        invariant forall x :: x in scenes ==> IsScene(Value(), bound, exact, x)
        invariant forall a :: a in tlas && a !in left ==> SceneOf(Value(), bound, exact, a) in scenes
      {
        hide Live, Current, AnyBound;
        var a :| a in left;
        left := left - {a};
        var counts := a in bound;
        if !any { counts := LiveLocked(a); }
        var current := CurrentLocked(a);
        assert counts == Chosen(Value(), bound, exact, a);
        hide Chosen;
        var x := Labels.Scene(tlas[a], counts, current);
        assert x == SceneOf(Value(), bound, exact, a) && IsScene(Value(), bound, exact, x);
        scenes := scenes + [x];
      }
    }

    /** `GeometryLabels`. */
    method GeometryLabels(args: seq<Labels.TraceArgs>, records: nat, bound: seq<Addr>, exact: bool)
      returns (out: seq<int>, any: bool, stale: bool)
      ensures |out| == records && Labels.Labelled(out, Hits(Value(), bound, exact, args))
      ensures any <==> IsRead(Value(), bound, exact)
      ensures stale <==> IsStale(Value(), bound, exact)
    {
      var scenes := ScenesLocked(bound, exact);
      ScenesHits(Value(), bound, exact, scenes, args);
      ScenesRead(Value(), bound, exact, scenes);
      hide AllScenes, Hits, IsRead, IsStale, Labels.Says, Labels.LandedAll;
      out, any, stale := Labels.GeometryLabels(scenes, args, records);
    }

    /** `PairClasses`. */
    method PairClasses(pairs: seq<Labels.TraceArgs>, records: nat, bound: seq<Addr>, exact: bool) returns (out: seq<int>)
      requires records <= Labels.BEYOND
      ensures Labels.IdsOf(out, pairs, ChosenClasses(Value(), bound, exact), records)
    {
      var scenes := ScenesLocked(bound, exact);
      ScenesClasses(Value(), bound, exact, scenes);
      hide AllScenes, ChosenClasses, Labels.Counted;
      out := Labels.PairClasses(pairs, records, scenes);
    }

    /** `UnknownBlas`. */
    method UnknownBlas(bound: seq<Addr>, exact: bool) returns (unknown: bool)
      ensures unknown <==> IsUnknown(Value(), bound, exact)
    {
      var left := tlas.Keys;
      while left != {}
        invariant left <= tlas.Keys
        invariant forall a :: a in tlas && a !in left && tlas[a].unknownBlas != 0 ==>
          !(if exact then a in bound else Live(Value(), a))
      {
        hide Live;
        var a :| a in left;
        left := left - {a};
        if tlas[a].unknownBlas != 0 {
          var counts := a in bound;
          if !exact { counts := LiveLocked(a); }
          if counts { return true; }
        }
      }
      unknown := false;
    }

    /** The two loops of `NoteBuild` that find what may still be asked. */
    method FindFloor() returns (floor: nat)
      ensures IsFloor(Value(), floor)
    {
      floor := asSerial + 1;
      for i := 0 to |pending|
        invariant FloorOver(Value(), i, {}, floor)
      {
        if pending[i].key.asOf != 0 && pending[i].key.asOf < floor {
          assert pending[i] in pending;
          floor := pending[i].key.asOf;
        }
      }
      var left := tlasAsSerial.Keys;
      assert tlasAsSerial.Keys - left == {};
      while left != {}
        invariant left <= tlasAsSerial.Keys
        invariant FloorOver(Value(), |pending|, tlasAsSerial.Keys - left, floor)
      {
        var a :| a in left;
        var current := CurrentLocked(a);
        if tlasAsSerial[a] < floor && !current { floor := tlasAsSerial[a]; }
        assert tlasAsSerial.Keys - (left - {a}) == tlasAsSerial.Keys - left + {a};
        left := left - {a};
      }
      assert tlasAsSerial.Keys - left == tlasAsSerial.Keys;
    }

    /** `NoteBuild`, bottom level: the log grows, and is pruned of what nothing can ask. */
    method NoteBottom(a: Addr, info: BlasInfo) returns (ghost floor: nat)
      modifies this`asSerial, this`hist
      ensures IsFloor(old(Value()), floor)
      ensures Value() == BuildBottom(old(Value()), a, info, floor)
    {
      var lowest := FindFloor();
      floor := lowest;
      asSerial := asSerial + 1;
      var h := (if a in hist then hist[a] else []) + [Entry(asSerial, info)];
      var kept := Prune(h, lowest);
      hist := hist[a := kept];
    }

    /** `NoteBuild`, top level. */
    method NoteTop(a: Addr)
      modifies this`asSerial, this`tlasAsSerial, this`tlasSerial, this`lastBuilt, this`firstBuilt, this`buildCount
      ensures Value() == BuildTop(old(Value()), a)
    {
      asSerial := asSerial + 1;
      tlasAsSerial := tlasAsSerial[a := asSerial];
      NextSerial(a);
    }

    method NextSerial(a: Addr)
      modifies this`tlasSerial, this`lastBuilt, this`firstBuilt, this`buildCount
      ensures Value() == NextBuild(old(Value()), a)
    {
      tlasSerial := tlasSerial + 1;
      lastBuilt := lastBuilt[a := tlasSerial];
      if a !in firstBuilt { firstBuilt := firstBuilt[a := tlasSerial]; }
      buildCount := buildCount[a := (if a in buildCount then buildCount[a] else 0) + 1];
    }

    /** Each instance's structure, as of then; then the records. */
    method ParseLocked(descs: seq<Desc>, asOf: nat) returns (t: TlasInfo)
      ensures t == ParseAt(Value(), descs, asOf)
    {
      var at := if asOf == 0 then asSerial + 1 else asOf;
      var insts := [];
      for i := 0 to |descs|
        invariant insts == Resolve(hist, descs[..i], at)
      {
        var d := descs[i];
        var found := None;
        if d.blas in hist { found := BlasAtLocked(hist[d.blas], at); }
        insts := insts + [Instance(d.blas != 0, d.contribution, found)];
        assert descs[..i + 1] == descs[..i] + [d];
        assert insts[i] == ResolveOne(hist, d, at);
      }
      assert descs[..|descs|] == descs;
      t := AsParse.ParseLocked(insts);
    }

    method RememberLocked(a: Addr, k: Kept)
      modifies this`instHist
      ensures instHist == Remember(old(instHist), a, k)
    {
      if k.build == 0 { return; }
      var h := if a in instHist then instHist[a] else [];
      for i := 0 to |h|
        invariant forall j :: 0 <= j < i ==> h[j].build != k.build
      {
        if h[i].build == k.build { return; }
      }
      h := Insert(h, k);
      if |h| > INST_HIST { h := h[|h| - INST_HIST..]; }
      instHist := instHist[a := h];
    }

    method RememberCopyLocked(a: Addr, build: nat, src: Addr, srcBuild: nat)
      modifies this`instHist
      ensures instHist == RememberCopy(old(instHist), a, build, src, srcBuild)
    {
      var h := if src in instHist then instHist[src] else [];
      for i := 0 to |h|
        invariant EntryOf(h, srcBuild) == EntryOf(h[i..], srcBuild)
      {
        if h[i].build == srcBuild {
          RememberLocked(a, h[i].(build := build));
          return;
        }
      }
    }

    method LearnLocked(a: Addr, build: nat, asOf: nat, descs: seq<Desc>)
      modifies this`tlas, this`readOf, this`instHist
      ensures Value() == Learn(old(Value()), a, build, asOf, descs)
    {
      var info := ParseLocked(descs, asOf);
      hide ParseAt, Remember;
      tlas := tlas[a := info];
      readOf := readOf[a := build];
      RememberLocked(a, Kept(build, asOf, descs, info.rows));
    }

    method LearnOlderLocked(a: Addr, build: nat, asOf: nat, descs: seq<Desc>)
      modifies this`instHist
      ensures Value() == LearnOlder(old(Value()), a, build, asOf, descs)
    {
      var older := ParseLocked(descs, asOf);
      hide ParseAt, Remember;
      RememberLocked(a, Kept(build, asOf, descs, older.rows));
    }

    method NoteInstances(a: Addr, descs: seq<Desc>)
      modifies this`tlas, this`readOf, this`instHist, this`tlasAsSerial
      ensures Value() == AsTracker.NoteInstances(old(Value()), a, descs)
    {
      if a == 0 || descs == [] { return; }
      hide Learn, Guess;
      if a !in tlasAsSerial { tlasAsSerial := tlasAsSerial[a := 0]; }
      if a in lastBuilt {
        LearnLocked(a, lastBuilt[a], tlasAsSerial[a], descs);
      } else {
        GuessLocked(a, tlasAsSerial[a], descs);
      }
    }

    method NoteEmpty(a: Addr)
      modifies this`tlas, this`readOf, this`instHist
      ensures Value() == AsTracker.NoteEmpty(old(Value()), a)
    {
      if a == 0 { return; }
      hide Learn, Guess;
      if a in lastBuilt {
        LearnLocked(a, lastBuilt[a], 0, []);
      } else {
        GuessLocked(a, 0, []);
      }
    }

    method GuessLocked(a: Addr, asOf: nat, descs: seq<Desc>)
      modifies this`tlas
      ensures Value() == Guess(old(Value()), a, asOf, descs)
    {
      var info := ParseLocked(descs, asOf);
      hide ParseAt;
      tlas := tlas[a := info];
    }

    method NotePendingInstances(a: Addr, id: nat, owner: nat, at: Listing)
      modifies this`pending
      ensures Value() == NotePending(old(Value()), a, id, owner, at)
    {
      if a == 0 { return; }
      var build := if a in lastBuilt then lastBuilt[a] else 0;
      var asOf := if a in tlasAsSerial then tlasAsSerial[a] else 0;
      pending := pending + [Read(id, Copy(a, build, asOf), owner, at.recording, at.segment, 0, 0)];
    }

    method DropUnsubmitted(owner: nat)
      modifies this`pending
      ensures Value() == old(Value()).(pending := Drop(old(pending), owner))
    {
      pending := DropLoop(pending, owner);
    }

    /** The first half of `AfterSubmit`: the reads of the submitted lists are stamped. */
    method StampReads(ghost g: Gpu, ghost c: nat, queue: nat, lists: seq<nat>, signalled: bool)
      requires c in g.calls && g.calls[c].queue == queue && queue in g.queues
      requires g.calls[c].lists.Keys == Listed(lists)
      requires FencesMatch(g, fences, pending) && GpuOk(g)
      modifies this`pending, this`fences
      ensures
        var signal := signalled && AnyToStamp(old(pending), g.calls[c].lists.Keys);
        && pending == (if signal then LeaveReads(g, old(pending), c) else old(pending))
        && (signal ==> FencesMatch(Leave(g, c, true), fences, pending))
        && (!signal ==> fences == old(fences))
    {
      var any := FindUnstamped(pending, lists);
      if !any || !signalled { return; }
      var value := (if queue in fences then fences[queue] else 0) + 1;
      assert value == StampValue(g, queue) by { assert FenceIs(g, fences, queue); }
      LeaveFences(g, c, fences, pending);
      fences := fences[queue := value];
      pending := StampSubmitted(pending, lists, queue, value);
    }

    /** Is the queue the read went out on past its fence? */
    method IsDone(ghost g: Gpu, completed: map<nat, nat>, r: Read<Copy>) returns (done: bool)
      requires FencesMatch(g, fences, pending) && Answers(g, completed) && r in pending
      ensures done == Passed(g, r)
    {
      done := r.fence != 0 && r.queue in fences && r.queue in completed && completed[r.queue] >= r.fence;
    }

    /** The second half: whatever the GPU is past is parsed, each on its own queue. */
    method ParseDone(ghost g: Gpu, completed: map<nat, nat>, buffers: map<nat, seq<Desc>>)
      requires FencesMatch(g, fences, pending) && Answers(g, completed)
      modifies this`pending, this`tlas, this`readOf, this`instHist
      ensures Value() == SettleDone(old(Value()), g, buffers, old(pending))
    {
      ghost var was := Value();
      var all := pending;
      var still := [];
      SettleNone(was, g, buffers);
      for i := 0 to |all|
        invariant all == old(pending) && pending == all
        invariant Value().(pending := still) == SettleDone(was, g, buffers, all[..i])
      {
        hide SettleDone, FencesMatch, Answers;
        still := SettleAt(g, completed, buffers, was, i, still);
      }
      assert all[..|all|] == all;
      pending := still;
    }

    /** One turn of its loop. */
    method SettleAt(ghost g: Gpu, completed: map<nat, nat>, buffers: map<nat, seq<Desc>>, ghost was: Tracker,
                    i: nat, still: seq<Read<Copy>>)
      returns (still': seq<Read<Copy>>)
      requires FencesMatch(g, fences, pending) && Answers(g, completed) && i < |pending|
      requires Value().(pending := still) == SettleDone(was, g, buffers, pending[..i])
      modifies this`tlas, this`readOf, this`instHist
      ensures Value().(pending := still') == SettleDone(was, g, buffers, pending[..i + 1])
    {
      hide SettleDone, Settle, Passed, FencesMatch, Answers;
      assert pending[i] in pending;
      SettleNext(was, g, buffers, pending, i, Value(), still);
      still' := SettleOne(g, completed, buffers, pending[i], still);
    }

    /** One read: parsed if its fence has passed, kept if not. */
    method SettleOne(ghost g: Gpu, completed: map<nat, nat>, buffers: map<nat, seq<Desc>>, r: Read<Copy>,
                     still: seq<Read<Copy>>)
      returns (still': seq<Read<Copy>>)
      requires FencesMatch(g, fences, pending) && Answers(g, completed) && r in pending
      modifies this`tlas, this`readOf, this`instHist
      ensures Passed(g, r) ==> Value() == Settle(old(Value()), r.key, At(buffers, r.id, [])) && still' == still
      ensures !Passed(g, r) ==> Value() == old(Value()) && still' == still + [r]
    {
      hide Settle, Passed;
      var done := IsDone(g, completed, r);
      if done {
        SettleLocked(r.key, At(buffers, r.id, []));
        still' := still;
      } else {
        still' := still + [r];
      }
    }

    method SettleLocked(k: Copy, descs: seq<Desc>)
      modifies this`tlas, this`readOf, this`instHist
      ensures Value() == Settle(old(Value()), k, descs)
    {
      hide Learn, LearnOlder;
      if k.tlas !in readOf || readOf[k.tlas] <= k.build {
        LearnLocked(k.tlas, k.build, k.asOf, descs);
      } else {
        LearnOlderLocked(k.tlas, k.build, k.asOf, descs);
      }
    }

    /** `AfterSubmit`: the step `Leave` of the runs. */
    method AfterSubmit(ghost g: Gpu, ghost c: nat, queue: nat, lists: seq<nat>, signalled: bool,
                       completed: map<nat, nat>, buffers: map<nat, seq<Desc>>)
      requires c in g.calls && g.calls[c].queue == queue && queue in g.queues
      requires g.calls[c].lists.Keys == Listed(lists)
      requires FencesMatch(g, fences, pending) && GpuOk(g) && Answers(g, completed)
      modifies this`pending, this`fences, this`tlas, this`readOf, this`instHist
      ensures
        var signal := signalled && AnyToStamp(old(pending), g.calls[c].lists.Keys);
        var stamped := if signal then LeaveReads(g, old(pending), c) else old(pending);
        Value() == SettleDone(old(Value()).(pending := stamped), Leave(g, c, signal), buffers, stamped)
    {
      hide SettleDone, FencesMatch, Answers, AnyToStamp, LeaveReads, GpuOk, Leave;
      ghost var signal := signalled && AnyToStamp(pending, g.calls[c].lists.Keys);
      LeaveFencesSame(g, c, fences, pending, completed, signal);
      StampReads(g, c, queue, lists, signalled);
      ParseDone(Leave(g, c, signal), completed, buffers);
    }

    /** `BringToBuildLocked`. */
    method BringToBuildLocked(ghost g: Gpu, completed: map<nat, nat>, buffers: map<nat, seq<Desc>>, a: Addr,
                              build: nat, list: nat, depth: nat)
      returns (ok: bool)
      requires FencesMatch(g, fences, pending) && Answers(g, completed) && depth <= MAX_DEPTH
      modifies this`pending, this`tlas, this`readOf, this`instHist
      ensures (ok, Value()) == Bring(old(Value()), g, buffers, a, build, list, depth)
      ensures forall r :: r in pending ==> r in old(pending)
      decreases MAX_DEPTH - depth
    {
      hide BringRead, LearnCopy;
      if a in readOf && readOf[a] == build { return true; }
      if a in alias && alias[a].build == build && depth < MAX_DEPTH {
        var al := alias[a];
        ok := BringToBuildLocked(g, completed, buffers, al.src, al.srcBuild, list, depth + 1);
        if !ok { return false; }
        if al.src !in tlas { return false; }
        CopyKnown(a, build, al.src, al.srcBuild);
        return true;
      }
      ok := BringFromRead(g, completed, buffers, a, build, list);
    }

    method CopyKnown(a: Addr, build: nat, src: Addr, srcBuild: nat)
      requires src in tlas
      modifies this`tlas, this`readOf, this`instHist
      ensures Value() == LearnCopy(old(Value()), a, build, src, srcBuild)
    {
      tlas := tlas[a := tlas[src]];
      readOf := readOf[a := build];
      RememberCopyLocked(a, build, src, srcBuild);
    }

    /** Its loop over the reads, up to the first of that build. */
    method BringFromRead(ghost g: Gpu, completed: map<nat, nat>, buffers: map<nat, seq<Desc>>, a: Addr,
                         build: nat, list: nat)
      returns (ok: bool)
      requires FencesMatch(g, fences, pending) && Answers(g, completed)
      modifies this`pending, this`tlas, this`readOf, this`instHist
      ensures (ok, Value()) == BringRead(old(Value()), g, buffers, a, build, list)
      ensures forall r :: r in pending ==> r in old(pending)
    {
      for i := 0 to |pending|
        invariant Value() == old(Value()) && pending == old(pending)
        invariant FindRead(pending[..i], a, build).None?
      {
        assert pending[..i + 1][..i] == pending[..i];
        var r := pending[i];
        if r.key.tlas == a && r.key.build == build {
          FindReadIs(pending, a, build, i);
          assert r in pending;
          var done := r.owner == list;
          if !done { done := IsDone(g, completed, r); }
          if !done { return false; }
          ghost var was := Value();
          LearnLocked(a, build, r.key.asOf, At(buffers, r.id, []));
          pending := pending[..i] + pending[i + 1..];
          assert Value() == TakeRead(was, buffers, i);
          return true;
        }
      }
      assert pending[..|pending|] == pending;
      ok := false;
    }

    /** `NoteCopy`, with its cases in order. */
    method CopyStructure(dst: Addr, src: Addr, mode: CopyMode)
      modifies this
      ensures Value() == NoteCopy(old(Value()), dst, src, mode) && fences == old(fences)
    {
      if dst == 0 || mode == SerializeOrDecode { return; }
      hide DeserializeInto, CopyTop, CopyBottom;
      if mode == Deserialize {
        DeserializeLocked(dst);
        return;
      }
      var same := mode == CloneOrCompact;
      var srcTlas := same && src in lastBuilt;
      CopyBottomLocked(dst, src, srcTlas, same);
      CopyTopLocked(dst, src, srcTlas, same);
    }

    method DeserializeLocked(dst: Addr)
      modifies this
      ensures Value() == DeserializeInto(old(Value()), dst) && fences == old(fences)
    {
      hide NextBuild, AppendBlas, Forget;
      ghost var t1 := AppendBlas(Value(), dst, UNKNOWN_DESERIALIZED);
      AppendLocked(dst, UNKNOWN_DESERIALIZED);
      assert Value() == t1;
      ghost var t2 := t1.(asSerial := t1.asSerial + 1, tlasAsSerial := t1.tlasAsSerial[dst := t1.asSerial + 1],
                          alias := t1.alias - {dst});
      asSerial := asSerial + 1;
      tlasAsSerial := tlasAsSerial[dst := asSerial];
      alias := alias - {dst};
      assert Value() == t2;
      NextSerial(dst);
      ForgetLocked(dst);
    }

    /** `ApplyDecoded`, of a decode that is of a top-level structure. */
    method ApplyDecodedTop(dst: Addr, blasSerial: nat, tlasSerial: nat, descs: seq<Desc>)
      modifies this`hist, this`tlas, this`readOf, this`instHist
      ensures Value() == DecodedTop(old(Value()), dst, blasSerial, tlasSerial, descs)
    {
      hide Learn, LearnOlder;
      EraseLocked(dst, blasSerial);
      var asOf := if dst in tlasAsSerial then tlasAsSerial[dst] else 0;
      if dst in lastBuilt && lastBuilt[dst] == tlasSerial {
        LearnLocked(dst, tlasSerial, asOf, descs);
      } else {
        LearnOlderLocked(dst, tlasSerial, asOf, descs);
      }
    }

    /** `ApplyDecoded`, of a decode that is of a bottom-level structure. */
    method ApplyDecodedBottom(dst: Addr, blasSerial: nat, tlasSerial: nat, wasTlas: bool, info: BlasInfo)
      modifies this`hist, this`lastBuilt, this`firstBuilt, this`buildCount, this`tlas, this`tlasAsSerial, this`instHist
      ensures Value() == DecodedBottom(old(Value()), dst, blasSerial, tlasSerial, wasTlas, info)
    {
      hide TlasReread, RereadAll, NotTop;
      DecodeEntryLocked(dst, blasSerial, info);
      NotTopLocked(dst, tlasSerial, wasTlas);
      RereadLocked();
    }

    /** Its entry from the deserialize says what it is. */
    method DecodeEntryLocked(dst: Addr, serial: nat, info: BlasInfo)
      modifies this`hist
      ensures Value() == old(Value()).(hist := old(hist)[dst := WithDecoded(At(old(hist), dst, []), serial, info)])
    {
      var log := if dst in hist then hist[dst] else [];
      var next: Log := [];
      for i := 0 to |log|
        invariant next == WithDecoded(log[..i], serial, info)
      {
        assert log[..i + 1] == log[..i] + [log[i]];
        next := next + [if log[i].serial == serial then Entry(serial, info) else log[i]];
      }
      assert log[..|log|] == log;
      hist := hist[dst := next];
    }

    method NotTopLocked(dst: Addr, tlasSerial: nat, wasTlas: bool)
      modifies this`lastBuilt, this`firstBuilt, this`buildCount, this`tlas, this`tlasAsSerial
      ensures Value() == NotTop(old(Value()), dst, tlasSerial, wasTlas)
    {
      if !wasTlas && dst in lastBuilt && lastBuilt[dst] == tlasSerial {
        lastBuilt := lastBuilt - {dst};
        firstBuilt := firstBuilt - {dst};
        buildCount := buildCount - {dst};
        tlas := tlas - {dst};
        tlasAsSerial := tlasAsSerial - {dst};
      }
    }

    /** Every read that met it unknown, read again from its instances. */
    method RereadLocked()
      modifies this`tlas, this`instHist
      ensures Value() == old(Value()).(tlas := TlasReread(old(Value())),
        instHist := map a | a in old(instHist) :: RereadAll(old(Value()), old(instHist)[a]))
    {
      ghost var was := Value();
      var left := instHist.Keys;
      while left != {}
        invariant left <= was.instHist.Keys == instHist.Keys
        invariant Value() == was.(tlas := tlas, instHist := instHist)
        invariant forall a :: a in instHist ==>
          instHist[a] == if a in left then was.instHist[a] else RereadAll(was, was.instHist[a])
        invariant TlasSoFar(was, tlas, left)
      {
        hide TlasSoFar, RereadAll;
        var a :| a in left;
        ghost var before := tlas;
        RereadHist(was, a);
        TlasNext(was, before, tlas, left, a);
        left := left - {a};
      }
      TlasDone(was, tlas);
    }

    /** Those of one structure. */
    method RereadHist(ghost was: Tracker, a: Addr)
      requires a in instHist && Value() == was.(tlas := tlas, instHist := instHist)
      modifies this`tlas, this`instHist
      ensures Value() == was.(tlas := tlas, instHist := instHist)
      ensures instHist == old(instHist)[a := RereadAll(was, old(instHist)[a])]
      ensures tlas == TlasAfter(was, old(tlas), a, old(instHist)[a])
    {
      var h := instHist[a];
      var next: seq<Kept> := [];
      for i := 0 to |h|
        invariant instHist == old(instHist) && Value() == was.(tlas := tlas, instHist := instHist)
        invariant next == RereadAll(was, h[..i]) && tlas == TlasAfter(was, old(tlas), a, h[..i])
      {
        hide Reread, TlasAfter, KnownByIt;
        assert h[..i + 1] == h[..i] + [h[i]];
        TlasAfterNext(was, old(tlas), a, h, i);
        var k := RereadOne(was, a, h[i]);
        next := next + [k];
      }
      assert h[..|h|] == h;
      instHist := instHist[a := next];
    }

    /** One of them; it is also what is known of the structure, if it is of the build that is. */
    method RereadOne(ghost was: Tracker, a: Addr, k: Kept) returns (k': Kept)
      requires Value() == was.(tlas := tlas, instHist := instHist)
      modifies this`tlas
      ensures k' == Reread(was, k) && Value() == was.(tlas := tlas, instHist := instHist)
      ensures tlas == if KnownByIt(was, a, k) then old(tlas)[a := ParseAt(was, k.descs, k.asOf)] else old(tlas)
    {
      hide Meets, ParseAt;
      var meets := MeetsLocked(k);
      if !meets { return k; }
      ParseApart(was, tlas, instHist, k.descs, k.asOf);
      var info := ParseLocked(k.descs, k.asOf);
      if a in readOf && readOf[a] == k.build { tlas := tlas[a := info]; }
      k' := k.(rows := info.rows);
    }

    method MeetsLocked(k: Kept) returns (meets: bool)
      ensures meets == Meets(k)
    {
      meets := false;
      for i := 0 to |k.rows|
        invariant meets <==> exists j :: 0 <= j < i && k.rows[j].active && k.rows[j].geometries == 0
      {
        meets := meets || (k.rows[i].active && k.rows[i].geometries == 0);
      }
      meets := meets && k.descs != [];
    }

    /** Its log loses the entry the deserialize made, and goes with the last one. */
    method EraseLocked(dst: Addr, serial: nat)
      modifies this`hist
      ensures Value() == EraseEntry(old(Value()), dst, serial)
    {
      var log := if dst in hist then hist[dst] else [];
      var left: Log := [];
      for i := 0 to |log|
        invariant left == WithoutEntry(log[..i], serial)
      {
        assert log[..i + 1][..i] == log[..i];
        if log[i].serial != serial { left := left + [log[i]]; }
      }
      assert log[..|log|] == log;
      hist := if left == [] then hist - {dst} else hist[dst := left];
    }

    method ForgetLocked(a: Addr)
      modifies this`tlas, this`readOf
      ensures Value() == Forget(old(Value()), a)
    {
      tlas := tlas - {a};
      readOf := readOf - {a};
    }

    method CopyBottomLocked(dst: Addr, src: Addr, srcTlas: bool, same: bool)
      requires srcTlas == (same && src in lastBuilt)
      modifies this`asSerial, this`hist
      ensures Value() == CopyBottom(old(Value()), dst, src, same)
    {
      var srcBlas := same && src in hist && hist[src] != [];
      var info := UNKNOWN_COPY;
      if srcBlas {
        info := hist[src][|hist[src]| - 1].info;
        if info.kind != Unknown { info := info.(origin := 1); }
      }
      assert info == CopiedInfo(Value(), src, same);
      hide CopiedInfo, AppendBlas;
      if srcBlas || !srcTlas { AppendLocked(dst, info); }
    }

    method AppendLocked(a: Addr, info: BlasInfo)
      modifies this`asSerial, this`hist
      ensures Value() == AppendBlas(old(Value()), a, info)
    {
      asSerial := asSerial + 1;
      hist := hist[a := (if a in hist then hist[a] else []) + [Entry(asSerial, info)]];
    }

    method CopyTopLocked(dst: Addr, src: Addr, srcTlas: bool, ghost same: bool)
      requires srcTlas == (same && src in lastBuilt)
      modifies this
      ensures Value() == CopyTop(old(Value()), dst, src, same) && fences == old(fences)
    {
      if !srcTlas && dst !in lastBuilt { return; }
      ghost var t1 := NextBuild(Value().(alias := alias - {dst}), dst);
      NextBuildHas(Value(), t1, dst, src);
      hide NextBuild, LearnCopy;
      alias := alias - {dst};
      NextSerial(dst);
      assert Value() == t1;
      if !srcTlas {
        ForgetLocked(dst);
        return;
      }
      tlasAsSerial := tlasAsSerial[dst := if src in tlasAsSerial then tlasAsSerial[src] else 0];
      ghost var t2 := t1.(tlasAsSerial := t1.tlasAsSerial[dst := At(t1.tlasAsSerial, src, 0)]);
      assert Value() == t2;
      CopyBuilt(dst, src);
    }

    /** What is known of the source's build is known of the copy's; or where to look for it is. */
    method CopyBuilt(dst: Addr, src: Addr)
      requires dst in lastBuilt && src in lastBuilt
      modifies this`tlas, this`readOf, this`instHist, this`alias
      ensures Value()
        == (var t := old(Value());
            if Current(t, src) && src in t.tlas then LearnCopy(t, dst, t.lastBuilt[dst], src, t.lastBuilt[src])
            else t.(readOf := t.readOf - {dst},
                    alias := t.alias[dst := Alias(src, t.lastBuilt[src], t.lastBuilt[dst])]))
    {
      hide LearnCopy;
      var current := CurrentLocked(src);
      if current && src in tlas {
        CopyKnown(dst, lastBuilt[dst], src, lastBuilt[src]);
      } else {
        readOf := readOf - {dst};
        alias := alias[dst := Alias(src, lastBuilt[src], lastBuilt[dst])];
      }
    }
  }

  /** What is known of a structure once these of its kept reads have been looked at again. */
  ghost function TlasAfter(t: Tracker, tlas: map<Addr, TlasInfo>, a: Addr, h: seq<Kept>): map<Addr, TlasInfo> {
    if a !in t.readOf || LastMet(h, t.readOf[a]).None? then tlas
    else tlas[a := ParseAt(t, LastMet(h, t.readOf[a]).value.descs, LastMet(h, t.readOf[a]).value.asOf)]
  }

  ghost predicate KnownByIt(t: Tracker, a: Addr, k: Kept) {
    Meets(k) && a in t.readOf && t.readOf[a] == k.build
  }

  lemma TlasAfterNext(t: Tracker, tlas: map<Addr, TlasInfo>, a: Addr, h: seq<Kept>, i: nat)
    requires i < |h|
    ensures TlasAfter(t, tlas, a, h[..i + 1])
         == if KnownByIt(t, a, h[i]) then TlasAfter(t, tlas, a, h[..i])[a := ParseAt(t, h[i].descs, h[i].asOf)]
            else TlasAfter(t, tlas, a, h[..i])
  {
    hide Meets, ParseAt;
    assert h[..i + 1][..i] == h[..i] && h[..i + 1][i] == h[i];
  }

  /** What is known once all but these structures have been looked at again. */
  ghost predicate TlasSoFar(t: Tracker, tlas: map<Addr, TlasInfo>, left: set<Addr>) {
    forall a ::
      if a in left then Same(t.tlas, tlas, a) else Same(TlasReread(t), tlas, a)
  }

  ghost predicate Same(m: map<Addr, TlasInfo>, m': map<Addr, TlasInfo>, a: Addr) {
    (a in m <==> a in m') && (a in m ==> m[a] == m'[a])
  }

  lemma TlasNext(t: Tracker, tlas: map<Addr, TlasInfo>, tlas': map<Addr, TlasInfo>, left: set<Addr>, a: Addr)
    requires TlasSoFar(t, tlas, left) && a in left && a in t.instHist
    requires tlas' == TlasAfter(t, tlas, a, t.instHist[a])
    ensures TlasSoFar(t, tlas', left - {a})
  {
    hide ParseAt;
    forall b ensures if b in left - {a} then Same(t.tlas, tlas', b) else Same(TlasReread(t), tlas', b) {
      assert if b in left then Same(t.tlas, tlas, b) else Same(TlasReread(t), tlas, b);
    }
  }

  lemma TlasDone(t: Tracker, tlas: map<Addr, TlasInfo>)
    requires TlasSoFar(t, tlas, {})
    ensures tlas == TlasReread(t)
  {
    hide TlasReread;
    forall a ensures a in tlas <==> a in TlasReread(t) {
      assert if a in {} then Same(t.tlas, tlas, a) else Same(TlasReread(t), tlas, a);
    }
    forall a | a in tlas ensures tlas[a] == TlasReread(t)[a] {
      assert if a in {} then Same(t.tlas, tlas, a) else Same(TlasReread(t), tlas, a);
    }
    assert tlas.Keys == TlasReread(t).Keys;
  }

  lemma ParseApart(t: Tracker, tlas: map<Addr, TlasInfo>, instHist: map<Addr, seq<Kept>>, descs: seq<Desc>, asOf: nat)
    ensures ParseAt(t.(tlas := tlas, instHist := instHist), descs, asOf) == ParseAt(t, descs, asOf)
  {
    hide Parse, Resolve;
  }

  /** A signal that has not run yet changes no completed value. */
  lemma LeaveFencesSame(g: Gpu, c: nat, fences: map<nat, nat>, pending: seq<Read<Copy>>, completed: map<nat, nat>,
                        signal: bool)
    requires c in g.calls && g.calls[c].queue in g.queues && GpuOk(g)
    requires FencesMatch(g, fences, pending) && Answers(g, completed)
    ensures Answers(Leave(g, c, signal), completed)
    ensures !signal ==> FencesMatch(Leave(g, c, signal), fences, pending)
  {
    hide SignalNext, Completed, FenceIs, GpuOk, LastSignal;
    QueueOk(g, g.calls[c].queue);
    SignalValid(g.queues[g.calls[c].queue]);
    var g' := Leave(g, c, signal);
    if !signal {
      assert g'.queues == g.queues;
      forall q | q in g'.queues ensures FenceIs(g', fences, q) {
        assert FenceIs(g, fences, q);
        SameFence(g, g', fences, q);
      }
    }
  }

  lemma QueueOk(g: Gpu, q: nat)
    requires GpuOk(g) && q in g.queues
    ensures GpuQueue.Valid(g.queues[q])
  {}

  lemma SameFence(g: Gpu, g': Gpu, fences: map<nat, nat>, q: nat)
    requires q in g.queues && g'.queues == g.queues && FenceIs(g, fences, q)
    ensures FenceIs(g', fences, q)
  {}

  lemma NextBuildHas(t: Tracker, t': Tracker, dst: Addr, src: Addr)
    requires t' == NextBuild(t.(alias := t.alias - {dst}), dst)
    ensures dst in t'.lastBuilt && (src in t.lastBuilt ==> src in t'.lastBuilt)
  {}

  /** The first read of a build, once the ones before it are not. */
  lemma {:induction false} FindReadIs(rs: seq<Read<Copy>>, a: Addr, build: nat, i: nat)
    requires i < |rs| && IsFor(rs[i], a, build) && FindRead(rs[..i], a, build).None?
    ensures FindRead(rs, a, build) == Some(i)
  {
    var n := |rs| - 1;
    if i < n {
      assert rs[..n][..i] == rs[..i];
      FindReadIs(rs[..n], a, build, i);
    } else {
      assert rs[..n] == rs[..i];
    }
  }

  lemma ParsePending(t: Tracker, still: seq<Read<Copy>>, descs: seq<Desc>, asOf: nat)
    ensures ParseAt(t.(pending := still), descs, asOf) == ParseAt(t, descs, asOf)
  {
    hide Parse, Resolve;
  }

  /** What one read teaches does not depend on the list. */
  lemma SettlePendingApart(t: Tracker, still: seq<Read<Copy>>, k: Copy, descs: seq<Desc>)
    ensures Settle(t.(pending := still), k, descs) == Settle(t, k, descs).(pending := still)
  {
    LearnApart(t, still, k, descs);
    LearnOlderApart(t, still, k, descs);
    hide Learn, LearnOlder;
  }

  lemma LearnApart(t: Tracker, still: seq<Read<Copy>>, k: Copy, descs: seq<Desc>)
    ensures Learn(t.(pending := still), k.tlas, k.build, k.asOf, descs)
         == Learn(t, k.tlas, k.build, k.asOf, descs).(pending := still)
  {
    ParsePending(t, still, descs, k.asOf);
    hide ParseAt, Remember;
  }

  lemma LearnOlderApart(t: Tracker, still: seq<Read<Copy>>, k: Copy, descs: seq<Desc>)
    ensures LearnOlder(t.(pending := still), k.tlas, k.build, k.asOf, descs)
         == LearnOlder(t, k.tlas, k.build, k.asOf, descs).(pending := still)
  {
    ParsePending(t, still, descs, k.asOf);
    hide ParseAt, Remember;
  }

  lemma SettleNone(t: Tracker, g: Gpu, buffers: map<nat, seq<Desc>>)
    ensures SettleDone(t, g, buffers, []) == t.(pending := [])
  {}

  /** One more read of the loop. */
  lemma SettleNext(t: Tracker, g: Gpu, buffers: map<nat, seq<Desc>>, rs: seq<Read<Copy>>, i: nat, now: Tracker,
                   still: seq<Read<Copy>>)
    requires i < |rs| && now.(pending := still) == SettleDone(t, g, buffers, rs[..i])
    ensures
      if Passed(g, rs[i])
      then Settle(now, rs[i].key, At(buffers, rs[i].id, [])).(pending := still) == SettleDone(t, g, buffers, rs[..i + 1])
      else now.(pending := still + [rs[i]]) == SettleDone(t, g, buffers, rs[..i + 1])
  {
    assert rs[..i + 1][..i] == rs[..i] && rs[..i + 1][i] == rs[i];
    SettlePendingApart(now, still, rs[i].key, At(buffers, rs[i].id, []));
    hide Settle, Passed;
  }
}
