/**
 What they keep when structures are built, copied, deserialized and decoded; and so
 over every run.
 */
module AsTrackerBuilds {
  import opened Readback
  import opened AsLog
  import opened AsParse
  import opened AsTracker
  import opened AsTrackerWorld
  import opened AsTrackerReads

  // --- noting a build ------------------------------------------------------------------------------------

  lemma NotingIs(w: World, a: Addr)
    requires Inv(w) && a in w.noting
    ensures NotingOk(w, a) && TruthOk(w) && LogsOk(w)
  {}

  /** Calls that built are over. */
  lemma LessNoting(w: World, noting: map<Addr, Noter>)
    requires Inv(w) && NotesByCalls(w.noting, noting)
    ensures Inv(w.(noting := noting))
  {
    var w' := w.(noting := noting);
    NotesStay(w, w');
    hide PendingAll, KnownAll, KeptAll, AliasAll, NotingAll, BuffersOk, ReadOk, LogsOk, BuildsInOrder, RecordsOk, TruthOk,
         NotesByCalls;
    PendingStay(w, w');
    AliasStay(w, w');
    BuffersStay(w, w');
    KnownStay(w, w');
    FewerIs(w, w');
    RecordsStay(w, w');
    TruthStays(w, w');
    LogsStay(w, w');
  }

  lemma NotesStay(w: World, w': World)
    requires NotingAll(w) && NotesByCalls(w.noting, w'.noting) && w' == w.(noting := w'.noting)
    ensures NotingAll(w')
  {
    hide Answered;
    forall b | b in w'.noting ensures NotingOk(w', b) { assert NotingOk(w, b); }
  }

  lemma EndStepKeeps(w: World, action: Action)
    requires Inv(w) && Enabled(w, action) && action.EndBuild?
    ensures Inv(Step(w, action))
  {
    hide Inv;
    LessNoting(w, ByOthers(w.noting, action.owner));
  }

  /** Instances the CPU can see are read while the build is recorded. */
  lemma ReadNowKeeps(w: World, action: Action)
    requires Inv(w) && Enabled(w, action) && action.ReadNow?
    ensures Inv(Step(w, action))
  {
    var a := action.a;
    var tr := w.truth[(a, w.t.lastBuilt[a])];
    var asOf := if tr.descs == [] then 0 else At(w.t.tlasAsSerial, a, 0);
    NotingIs(w, a);
    LessNoting(w, w.noting - {a});
    if a != 0 {
      if tr.descs == [] { ParseEmpty(w.t, w.log, tr, asOf); } else { ParseIsTrue(w.t, w.log, tr); }
      NoteIsLearn(w.t, a, tr.descs);
      hide Inv, Remember, Parse, Seen, ParseAt, LogsOk, TruthOk, NotingOk, AsTracker.ReadNow;
      var w1 := w.(noting := w.noting - {a});
      assert ParseAt(w1.t, tr.descs, asOf) == Parse(Seen(w1.log, tr));
      LearnKeeps(w1, a, w.t.lastBuilt[a], asOf, tr.descs);
    }
  }

  /** A copy of the instances is recorded beside the build. */
  lemma RecordCopyKeeps(w: World, action: Action)
    requires Inv(w) && Enabled(w, action) && action.RecordCopy?
    ensures Inv(Step(w, action))
  {
    var w', a := Step(w, action), action.a;
    var r := w'.t.pending[|w.t.pending|];
    NotingIs(w, a);
    assert PendingAll(w') by { RecordPending(w, w', a, r); }
    assert BuffersOk(w') by { RecordBuffers(w, w', a); }
    assert NotingAll(w') by { RecordNoting(w, w', a, r); }
    assert AllOk(w'.gpu, w'.t.pending) by { NewReadOk(w.gpu, r); }
    assert RecordsOk(w') by { RecordDeferred(w, w', a, r); }
    AliasStay(w, w');
    KnownStay(w, w');
    hide PendingAll, KnownAll, KeptAll, AliasAll, NotingAll, BuffersOk, AllOk, LogAt, NotingOk, RecordsOk;
    assert BuildsInOrder(w'.t) && TruthOk(w') && LogsOk(w') by { hide Step; SerialsStay(w, w'); }
  }

  /** Its build is newer than every dispatch its list has deferred. */
  lemma RecordDeferred(w: World, w': World, a: Addr, r: Read<Copy>)
    requires RecordsOk(w) && a in w.noting && a in w.t.lastBuilt && w.noting[a] == ByCall(r.owner)
    requires r.recording == ListOf(w.gpu, r.owner).recording && r.key.build == w.t.lastBuilt[a]
    requires w'.t == w.t.(pending := w.t.pending + [r]) && w'.noting == w.noting - {a}
    requires w'.log == w.log && w'.truth == w.truth && w'.tops == w.tops && w'.gpu == w.gpu
    requires w'.decodes == w.decodes && w'.deferred == w.deferred
    ensures RecordsOk(w')
  {
    hide PointsBelow;
    forall d | d in w'.deferred ensures DeferredOk(w', d) { assert DeferredOk(w, d); }
    forall d | d in w'.decodes ensures DecodeOk(w', d) { assert DecodeOk(w, d); }
  }

  /** The parts about serials and logs. */
  lemma SerialsStay(w: World, w': World)
    requires BuildsInOrder(w.t) && TruthOk(w) && LogsOk(w)
    requires w'.t == w.t.(pending := w'.t.pending) && w'.truth == w.truth && w'.log == w.log && w'.tops == w.tops
    ensures BuildsInOrder(w'.t) && TruthOk(w') && LogsOk(w')
  {
    hide LogAt;
  }

  lemma RecordPending(w: World, w': World, a: Addr, r: Read<Copy>)
    requires PendingAll(w) && TruthOk(w) && NotingOk(w, a) && w'.t == w.t.(pending := w.t.pending + [r])
    requires w'.log == w.log && w'.truth == w.truth && r.key == Copy(a, w.t.lastBuilt[a], w.t.tlasAsSerial[a])
    requires r.id !in w.copies && w'.copies == w.copies[r.id := (a, w.t.lastBuilt[a])]
    ensures PendingAll(w')
  {
    hide Answered;
    forall x | x in w'.t.pending ensures PendingOk(w', x) {
      if x != r { assert x in w.t.pending && PendingOk(w, x); }
    }
  }

  lemma RecordBuffers(w: World, w': World, a: Addr)
    requires Inv(w) && a in w.t.lastBuilt && (a, w.t.lastBuilt[a]) in w.truth
    requires w'.gpu == w.gpu && w'.truth == w.truth && w'.next == w.next + 1
    requires w'.copies == w.copies[w.next := (a, w.t.lastBuilt[a])] && w'.buffers.Keys == w.buffers.Keys + {w.next}
    requires forall id :: id in w.buffers && id != w.next ==> w'.buffers[id] == w.buffers[id]
    ensures BuffersOk(w')
  {
    forall id | id in w'.copies ensures BufferOk(w', id) {
      if id in w.copies {
        assert BufferOk(w, id) && id != w.next;
      }
    }
    forall q, i, id | q in w'.gpu.queues && RunAt(w'.gpu.queues[q], id, i) ensures id in w'.copies {
      assert id in w.copies;
    }
  }

  lemma RecordNoting(w: World, w': World, a: Addr, r: Read<Copy>)
    requires NotingAll(w) && w'.noting == w.noting - {a} && w'.truth == w.truth && w'.log == w.log
    requires w'.t == w.t.(pending := w.t.pending + [r]) && r.key.tlas == a
    ensures NotingAll(w')
  {
    hide Answered;
    forall b | b in w'.noting ensures NotingOk(w', b) { assert NotingOk(w, b); }
  }

  // --- builds -----------------------------------------------------------------------------------------------

  /** Everything a parse can still ask is from there on. */
  ghost predicate AskedFrom(w: World, floor: nat) {
    && floor <= w.t.asSerial + 1
    && (forall r :: r in w.t.pending ==> floor <= r.key.asOf)
    && (forall a :: a in w.noting ==> a in w.t.tlasAsSerial && floor <= w.t.tlasAsSerial[a])
  }

  /** The floor `NoteBuild` prunes to leaves out nothing that is still asked. */
  lemma FloorIsAsked(w: World, floor: nat)
    requires Inv(w) && IsFloor(w.t, floor)
    ensures AskedFrom(w, floor)
  {
    hide Answered;
    forall r | r in w.t.pending ensures floor <= r.key.asOf { assert PendingOk(w, r); }
    forall a | a in w.noting ensures a in w.t.tlasAsSerial && floor <= w.t.tlasAsSerial[a] {
      assert NotingOk(w, a) && !Current(w.t, a);
    }
  }

  /** What was known stays true when the log grows. */
  lemma KnownGrows(w: World, w': World, a: Addr, e: Entry)
    requires KnownAll(w) && KeptAll(w) && TruthOk(w) && e.serial > w.t.asSerial
    requires w'.log == Append(w.log, a, e) && w'.truth == w.truth && w'.late == w.late
    requires w'.t.tlas == w.t.tlas && w'.t.readOf == w.t.readOf && w'.t.instHist == w.t.instHist
    ensures KnownAll(w') && KeptAll(w')
  {
    hide Parse, Seen, RowsOf, Append;
    forall b ensures KnownOk(w', b) {
      assert KnownOk(w, b);
      if b in w.t.readOf { SeenStays(w.log, a, e, w.truth[(b, w.t.readOf[b])]); }
    }
    forall b, k | b in w'.t.instHist && k in w'.t.instHist[b] ensures KeptOk(w', b, k) {
      assert KeptOk(w, b, k);
      SeenStays(w.log, a, e, w.truth[(b, k.build)]);
    }
  }

  /** So do the questions still asked. */
  lemma AskedGrow(w: World, w': World, a: Addr, e: Entry, floor: nat)
    requires LogsOk(w) && TruthOk(w) && PendingAll(w) && NotingAll(w) && AskedFrom(w, floor)
    requires e.serial == w.t.asSerial + 1
    requires w'.log == Append(w.log, a, e) && w'.truth == w.truth && w'.copies == w.copies && w'.noting == w.noting
    requires
      var h := At(w.t.hist, a, []) + [e];
      w'.t == w.t.(asSerial := w'.t.asSerial, hist := w.t.hist[a := h[KeepFrom(h, floor)..]])
    ensures PendingAll(w') && NotingAll(w')
  {
    hide Answered, KeepFrom, LogAt, Append, UpTo;
    forall r | r in w'.t.pending ensures PendingOk(w', r) {
      assert PendingOk(w, r);
      AnsweredAfter(w, a, e, floor, w.truth[(r.key.tlas, r.key.build)]);
    }
    forall b | b in w'.noting ensures NotingOk(w', b) {
      assert NotingOk(w, b);
      AnsweredAfter(w, a, e, floor, w.truth[(b, w.t.lastBuilt[b])]);
    }
  }

  /** An entry recorded after a build is none it points at. */
  lemma PointsStay(log: map<Addr, Log>, tops: set<(Addr, nat)>, descs: seq<Desc>, asOf: nat, a: Addr, e: Entry)
    requires PointsBelow(log, tops, descs, asOf) && e.serial >= asOf
    ensures PointsBelow(Append(log, a, e), tops, descs, asOf)
    ensures PointsBelow(Append(log, a, e), tops + {(a, e.serial)}, descs, asOf)
  {
    AppendKeepsAnswer(At(log, a, []), e, asOf);
    forall d | d in descs
      ensures !TopThen(Append(log, a, e), tops, d.blas, asOf)
      ensures !TopThen(Append(log, a, e), tops + {(a, e.serial)}, d.blas, asOf)
    {
      assert !TopThen(log, tops, d.blas, asOf);
      EntryAtFound(At(log, d.blas, []), asOf);
    }
  }

  lemma RecordsGrow(w: World, w': World, a: Addr, e: Entry)
    requires RecordsOk(w) && TruthOk(w) && e.serial == w.t.asSerial + 1
    requires w' == w.(t := w.t.(asSerial := w'.t.asSerial, hist := w'.t.hist), log := Append(w.log, a, e))
    ensures RecordsOk(w')
  {
    hide PointsBelow, Append;
    forall b | b in w'.truth ensures PointsBelow(w'.log, w'.tops, w'.truth[b].descs, w'.truth[b].asOf) {
      PointsStay(w.log, w.tops, w.truth[b].descs, w.truth[b].asOf, a, e);
    }
    forall d | d in w'.deferred ensures DeferredOk(w', d) { assert DeferredOk(w, d); }
    forall d | d in w'.decodes ensures DecodeOk(w', d) { assert DecodeOk(w, d); }
  }

  /** One more bottom-level entry, pruned for a floor that nothing asks below. */
  lemma AppendKeeps(w: World, a: Addr, info: BlasInfo, floor: nat)
    requires Inv(w) && AskedFrom(w, floor)
    ensures Inv(w.(t := AsTracker.BuildBottom(w.t, a, info, floor),
                   log := Append(w.log, a, Entry(w.t.asSerial + 1, info))))
  {
    var e := Entry(w.t.asSerial + 1, info);
    var w' := w.(t := AsTracker.BuildBottom(w.t, a, info, floor), log := Append(w.log, a, e));
    AskedGrow(w, w', a, e, floor);
    KnownGrows(w, w', a, e);
    AppendLogsOk(w, w', a, e, floor);
    RecordsGrow(w, w', a, e);
    AliasStay(w, w');
    BuffersStay(w, w');
    assert TruthOk(w') by { TruthLater(w, w'); }
    InOrderLater(w.t, w'.t);
    hide PendingAll, KnownAll, KeptAll, AliasAll, NotingAll, BuffersOk, ReadOk, LogsOk, KeepFrom, AskedFrom, Append,
         BuildsInOrder, TruthOk, RecordsOk;
  }

  lemma TruthLater(w: World, w': World)
    requires TruthOk(w) && w'.truth == w.truth && w'.t.tlasSerial == w.t.tlasSerial
    requires w'.t.lastBuilt == w.t.lastBuilt && w'.t.tlasAsSerial == w.t.tlasAsSerial
    requires w'.t.asSerial >= w.t.asSerial
    ensures TruthOk(w')
  {}

  lemma BuildBottomKeeps(w: World, action: Action)
    requires Inv(w) && Enabled(w, action) && action.BuildBottom?
    ensures Inv(Step(w, action))
  {
    hide Inv, IsFloor, AskedFrom, KeepFrom;
    FloorIsAsked(w, action.floor);
    AppendKeeps(w, action.a, action.info, action.floor);
  }

  /** The serial moves on. */
  lemma LogsLater(w: World, w': World)
    requires LogsOk(w) && w'.log == w.log && w'.t.hist == w.t.hist && w.t.asSerial <= w'.t.asSerial && w'.tops == w.tops
    ensures LogsOk(w')
  {
    hide LogAt;
    forall a ensures LogAt(w'.t.asSerial, w'.tops, a, At(w'.t.hist, a, []), At(w'.log, a, [])) {
      LogAtLater(w.t.asSerial, w'.t.asSerial, w.tops, a, At(w.t.hist, a, []), At(w.log, a, []));
    }
  }

  /** A build under the next serial; `w'` may say what it is made of, and forgets nothing. */
  ghost predicate NewBuild(w: World, w': World, a: Addr) {
    && w'.log == w.log && w'.t.hist == w.t.hist && w'.t.pending == w.t.pending && w'.copies == w.copies
    && w'.t.tlasSerial == w.t.tlasSerial + 1
    && w'.t.lastBuilt == w.t.lastBuilt[a := w'.t.tlasSerial]
    && w'.gpu == w.gpu && w'.buffers == w.buffers && w'.next == w.next
    && w'.tops == w.tops && w'.decodes == w.decodes && w'.late == w.late && w'.deferred == w.deferred
    && (w'.truth == w.truth
        || ((a, w'.t.tlasSerial) in w'.truth
            && w'.truth == w.truth[(a, w'.t.tlasSerial) := w'.truth[(a, w'.t.tlasSerial)]]))
  }

  lemma NewBuildPending(w: World, w': World, a: Addr)
    requires PendingAll(w) && TruthOk(w) && NewBuild(w, w', a)
    ensures PendingAll(w')
  {
    hide Answered;
    forall r | r in w'.t.pending ensures PendingOk(w', r) { assert PendingOk(w, r); }
  }

  lemma NewBuildKnown(w: World, w': World, a: Addr)
    requires KnownAll(w) && KeptAll(w) && TruthOk(w) && NewBuild(w, w', a)
    requires w'.t.instHist == w.t.instHist
    requires forall b :: b in w'.t.readOf ==>
      b in w.t.readOf && w'.t.readOf[b] == w.t.readOf[b] && (b in w.t.tlas ==> b in w'.t.tlas && w'.t.tlas[b] == w.t.tlas[b])
    ensures KnownAll(w') && KeptAll(w')
  {
    hide Parse, Seen, RowsOf;
    forall b ensures KnownOk(w', b) { assert KnownOk(w, b); }
    forall b, k | b in w'.t.instHist && k in w'.t.instHist[b] ensures KeptOk(w', b, k) { assert KeptOk(w, b, k); }
  }

  lemma NewBuildAlias(w: World, w': World, a: Addr)
    requires AliasAll(w) && TruthOk(w) && NewBuild(w, w', a)
    requires forall b :: b in w'.t.alias ==> b in w.t.alias && w'.t.alias[b] == w.t.alias[b]
    ensures AliasAll(w')
  {
    forall b ensures AliasOk(w', b) { assert AliasOk(w, b); }
  }

  lemma NewBuildBuffers(w: World, w': World, a: Addr)
    requires BuffersOk(w) && TruthOk(w) && NewBuild(w, w', a)
    ensures BuffersOk(w')
  {
    hide HasRun;
    forall id | id in w'.copies ensures BufferOk(w', id) { assert BufferOk(w, id); }
  }

  /** The new build is newer than every dispatch deferred and every structure being decoded. */
  lemma NewBuildRecords(w: World, w': World, a: Addr)
    requires RecordsOk(w) && TruthOk(w) && NewBuild(w, w', a)
    requires forall b :: b != a ==> (b in w'.noting <==> b in w.noting)
    requires forall b :: b != a && b in w.noting ==> w'.noting[b] == w.noting[b]
    requires a in w'.noting ==> w'.noting[a].ByCall?
    requires (a, w'.t.tlasSerial) in w'.truth ==>
      var tr := w'.truth[(a, w'.t.tlasSerial)];
      PointsBelow(w.log, w.tops, tr.descs, tr.asOf)
    ensures RecordsOk(w')
  {
    hide PointsBelow;
    assert PointsAll(w') by {
      forall b | b in w'.truth ensures PointsBelow(w'.log, w'.tops, w'.truth[b].descs, w'.truth[b].asOf) {
        if b != (a, w'.t.tlasSerial) { assert b in w.truth && w'.truth[b] == w.truth[b]; }
      }
    }
    forall d | d in w'.deferred ensures DeferredOk(w', d) { assert DeferredOk(w, d); }
    forall d | d in w'.decodes ensures DecodeOk(w', d) { assert DecodeOk(w, d); }
  }

  /** Other structures that wait to be noted still do. */
  lemma NewBuildNoting(w: World, w': World, a: Addr)
    requires NotingAll(w) && TruthOk(w) && NewBuild(w, w', a)
    requires w'.noting.Keys <= w.noting.Keys + {a}
    requires forall b :: b != a && b in w.t.tlasAsSerial ==>
      b in w'.t.tlasAsSerial && w'.t.tlasAsSerial[b] == w.t.tlasAsSerial[b]
    requires forall b :: b in w'.t.readOf && b != a ==> b in w.t.readOf && w'.t.readOf[b] == w.t.readOf[b]
    requires forall b :: b in w'.t.alias && b != a ==> b in w.t.alias && w'.t.alias[b] == w.t.alias[b]
    requires a in w'.noting ==> NotingOk(w', a)
    ensures NotingAll(w')
  {
    hide Answered;
    forall b | b in w'.noting ensures NotingOk(w', b) { if b != a { assert NotingOk(w, b); } }
  }

  lemma NewBuildKeeps(w: World, w': World, a: Addr)
    requires Inv(w) && NewBuild(w, w', a)
    requires BuildsInOrder(w'.t) && TruthOk(w') && LogsOk(w')
    requires KnownAll(w') && KeptAll(w') && AliasAll(w') && NotingAll(w') && RecordsOk(w')
    ensures Inv(w')
  {
    NewBuildPending(w, w', a);
    NewBuildBuffers(w, w', a);
    hide PendingAll, KnownAll, KeptAll, AliasAll, NotingAll, BuffersOk, ReadOk, LogsOk, BuildsInOrder, TruthOk,
         RecordsOk;
  }

  lemma BuildTopIs(w: World, action: Action)
    requires Enabled(w, action) && action.BuildTop?
    ensures
      var w', a := Step(w, action), action.a;
      && NewBuild(w, w', a) && w'.t == AsTracker.BuildTop(w.t, a) && w'.log == w.log
      && w'.noting == w.noting[a := ByCall(action.owner)]
      && (a, w'.t.tlasSerial) in w'.truth
      && w'.truth[(a, w'.t.tlasSerial)].asOf == w.t.asSerial + 1
      && PointsBelow(w.log, w.tops, w'.truth[(a, w'.t.tlasSerial)].descs, w.t.asSerial + 1)
  {
    hide PointsBelow, Open;
  }

  lemma InvSerials(w: World)
    requires Inv(w)
    ensures BuildsInOrder(w.t) && TruthOk(w) && LogsOk(w)
  {}

  lemma BuildTopSerials(w: World, w': World, a: Addr)
    requires Inv(w) && NewBuild(w, w', a) && w'.t == AsTracker.BuildTop(w.t, a) && w'.log == w.log
    requires (a, w'.t.tlasSerial) in w'.truth && w'.truth[(a, w'.t.tlasSerial)].asOf == w.t.asSerial + 1
    ensures BuildsInOrder(w'.t) && TruthOk(w') && LogsOk(w')
  {
    hide Inv, LogsOk, BuildsInOrder;
    InvSerials(w);
    LogsLater(w, w');
    NextBuildInOrder(w.t, w'.t, a);
    BuildTopTruth(w, w', a);
  }

  lemma BuildTopTruth(w: World, w': World, a: Addr)
    requires TruthOk(w) && NewBuild(w, w', a) && w'.t == AsTracker.BuildTop(w.t, a)
    requires (a, w'.t.tlasSerial) in w'.truth && w'.truth[(a, w'.t.tlasSerial)].asOf == w.t.asSerial + 1
    ensures TruthOk(w')
  {
    NewBuildTruth(w, w', a);
  }

  /** A top-level build: nothing of it is known until its call notes it. */
  lemma BuildTopKeeps(w: World, action: Action)
    requires Inv(w) && Enabled(w, action) && action.BuildTop?
    ensures Inv(Step(w, action))
  {
    var w', a := Step(w, action), action.a;
    BuildTopIs(w, action);
    hide Step, Enabled, Inv, NewBuild, PointsBelow, BuildsInOrder, TruthOk, LogsOk, NotingAll, RecordsOk;
    BuildTopSerials(w, w', a);
    BuildTopKnown(w, w', a);
    BuildTopNoted(w, w', a, action.owner);
    NewBuildKeeps(w, w', a);
  }

  lemma BuildTopKnown(w: World, w': World, a: Addr)
    requires Inv(w) && NewBuild(w, w', a) && w'.t == AsTracker.BuildTop(w.t, a)
    ensures KnownAll(w') && KeptAll(w') && AliasAll(w')
  {
    assert TruthOk(w) && KnownAll(w) && KeptAll(w) && AliasAll(w);
    hide Inv, TruthOk, NewBuild, KnownAll, KeptAll, AliasAll;
    NewBuildKnown(w, w', a);
    NewBuildAlias(w, w', a);
  }

  lemma BuildTopNoted(w: World, w': World, a: Addr, owner: nat)
    requires Inv(w) && NewBuild(w, w', a) && w'.t == AsTracker.BuildTop(w.t, a)
    requires w'.noting == w.noting[a := ByCall(owner)] && (a, w'.t.tlasSerial) in w'.truth
    requires w'.truth[(a, w'.t.tlasSerial)].asOf == w.t.asSerial + 1
    requires PointsBelow(w.log, w.tops, w'.truth[(a, w'.t.tlasSerial)].descs, w.t.asSerial + 1)
    ensures NotingAll(w') && RecordsOk(w')
  {
    BuildTopNotes(w, w', a);
    assert TruthOk(w) && NotingAll(w) && RecordsOk(w);
    hide Inv, TruthOk, NewBuild, NotingAll, RecordsOk, NotingOk, PointsBelow;
    NewBuildNoting(w, w', a);
    NewBuildRecords(w, w', a);
  }

  /** The new build's question is about the log as it is. */
  lemma NewBuildTruth(w: World, w': World, a: Addr)
    requires TruthOk(w) && NewBuild(w, w', a) && w'.t.asSerial >= w.t.asSerial
    requires forall b :: b != a && b in w.t.lastBuilt && b in w.t.tlasAsSerial ==>
      b in w'.t.tlasAsSerial && w'.t.tlasAsSerial[b] == w.t.tlasAsSerial[b]
    requires forall b :: b in w'.t.tlasAsSerial ==> w'.t.tlasAsSerial[b] <= w'.t.asSerial
    requires (a, w'.t.tlasSerial) in w'.truth ==>
      a in w'.t.tlasAsSerial && 0 < w'.truth[(a, w'.t.tlasSerial)].asOf == w'.t.tlasAsSerial[a]
    ensures TruthOk(w')
  {
    var key := (a, w'.t.tlasSerial);
    assert key !in w.truth;
    forall b | b in w'.truth ensures 0 < b.1 <= w'.t.tlasSerial && 0 < w'.truth[b].asOf <= w'.t.asSerial {
      if b != key { assert b in w.truth && w'.truth[b] == w.truth[b]; }
    }
  }

  lemma InOrderLater(t: Tracker, t': Tracker)
    requires BuildsInOrder(t)
    requires t'.lastBuilt == t.lastBuilt && t'.firstBuilt == t.firstBuilt && t'.buildCount == t.buildCount
    requires t'.tlasAsSerial == t.tlasAsSerial && t'.tlasSerial == t.tlasSerial
    ensures BuildsInOrder(t')
  {}

  lemma BuildTopNotes(w: World, w': World, a: Addr)
    requires Inv(w) && NewBuild(w, w', a)
    requires (a, w'.t.tlasSerial) in w'.truth && a in w'.t.tlasAsSerial && w'.t.tlasAsSerial[a] == w.t.asSerial + 1
    requires w'.truth[(a, w'.t.tlasSerial)].asOf == w.t.asSerial + 1
    requires PointsBelow(w.log, w.tops, w'.truth[(a, w'.t.tlasSerial)].descs, w.t.asSerial + 1)
    requires w'.t.readOf == w.t.readOf && w'.t.alias == w.t.alias
    ensures NotingOk(w', a)
  {
    AnsweredNow(w, w'.truth[(a, w'.t.tlasSerial)]);
    hide Answered, LogAt, PointsBelow;
    assert KnownOk(w, a) && AliasOk(w, a);
    forall r | r in w.t.pending && r.key.tlas == a ensures r.key.build != w'.t.lastBuilt[a] {
      assert PendingOk(w, r);
    }
  }

  // --- copies of structures ------------------------------------------------------------------------------------

  /** The common part of copying over `dst`: a new build, whose place in the log is `place`. */
  ghost predicate Rebuilt(w: World, w': World, dst: Addr, place: nat) {
    && NewBuild(w, w', dst)
    && w'.t == NextBuild(w.t, dst).(alias := w.t.alias - {dst}, asSerial := w'.t.asSerial,
                                    tlasAsSerial := w.t.tlasAsSerial[dst := place])
    && w.t.asSerial <= w'.t.asSerial <= w.t.asSerial + 1 && place <= w'.t.asSerial
    && w'.noting == w.noting - {dst}
    && ((dst, w'.t.tlasSerial) in w'.truth ==>
          var tr := w'.truth[(dst, w'.t.tlasSerial)];
          0 < tr.asOf == place && PointsBelow(w.log, w.tops, tr.descs, tr.asOf))
  }

  lemma RebuiltSerials(w: World, w': World, dst: Addr, place: nat)
    requires Inv(w) && Rebuilt(w, w', dst, place)
    ensures BuildsInOrder(w'.t) && TruthOk(w') && LogsOk(w')
  {
    hide PendingAll, KnownAll, KeptAll, AliasAll, NotingAll, BuffersOk, ReadOk, LogAt, PointsBelow, RecordsOk;
    NextBuildInOrder(w.t, w'.t, dst);
    NewBuildTruth(w, w', dst);
    LogsLater(w, w');
  }

  lemma RebuiltKeeps(w: World, w': World, dst: Addr, place: nat)
    requires Inv(w) && Rebuilt(w, w', dst, place)
    ensures Inv(w')
  {
    hide PendingAll, KnownAll, KeptAll, AliasAll, NotingAll, BuffersOk, ReadOk, LogsOk, BuildsInOrder,
         PointsBelow, RecordsOk;
    RebuiltSerials(w, w', dst, place);
    NewBuildNoting(w, w', dst);
    NewBuildKnown(w, w', dst);
    NewBuildAlias(w, w', dst);
    NewBuildRecords(w, w', dst);
    hide Inv, TruthOk, NewBuild;
    NewBuildKeeps(w, w', dst);
  }

  /** Forgetting what is known of a structure. */
  lemma ForgetKeeps(w: World, a: Addr)
    requires Inv(w)
    ensures Inv(w.(t := Forget(w.t, a)))
  {
    var w' := w.(t := Forget(w.t, a));
    forall b ensures KnownOk(w', b) { assert KnownOk(w, b); }
    forall b, k | b in w'.t.instHist && k in w'.t.instHist[b] ensures KeptOk(w', b, k) { assert KeptOk(w, b, k); }
    forall b | b in w.noting ensures NotLatest(w', b) { assert NotingOk(w, b); }
    hide KnownAll, KeptAll, NotingAll, BuildsInOrder, TruthOk, LogsOk, PendingAll, AliasAll, AllOk, BuffersOk, RecordsOk;
    LearnsKeeps(w, w');
  }

  /** The tables after remembering where a copy was made of. */
  function WithAlias(t: Tracker, dst: Addr, src: Addr): Tracker
    requires src in t.lastBuilt && dst in t.lastBuilt
  {
    t.(readOf := t.readOf - {dst}, alias := t.alias[dst := Alias(src, t.lastBuilt[src], t.lastBuilt[dst])])
  }

  /** Remembering where a copy was made of, until a read of its source arrives. */
  lemma AliasKeeps(w: World, dst: Addr, src: Addr)
    requires Inv(w) && dst in w.t.lastBuilt && src in w.t.lastBuilt && dst !in w.noting
    requires w.t.lastBuilt[src] < w.t.lastBuilt[dst]
    requires (src, w.t.lastBuilt[src]) in w.truth ==>
      (dst, w.t.lastBuilt[dst]) in w.truth
      && w.truth[(dst, w.t.lastBuilt[dst])] == w.truth[(src, w.t.lastBuilt[src])]
    ensures Inv(w.(t := WithAlias(w.t, dst, src)))
  {
    var w' := w.(t := WithAlias(w.t, dst, src));
    assert w'.t == w.t.(readOf := w'.t.readOf, alias := w'.t.alias);
    hide PendingAll, KnownAll, KeptAll, AliasAll, NotingAll, BuffersOk, ReadOk, LogsOk, BuildsInOrder, RecordsOk, TruthOk,
         WithAlias;
    AliasAdded(w, w', dst, src);
    PendingStay(w, w');
    BuffersStay(w, w');
    FewerIs(w, w');
    RecordsStay(w, w');
    InOrderLater(w.t, w'.t);
    TruthStays(w, w');
    LogsStay(w, w');
  }

  lemma AliasAdded(w: World, w': World, dst: Addr, src: Addr)
    requires KnownAll(w) && KeptAll(w) && AliasAll(w) && NotingAll(w) && BuildsInOrder(w.t)
    requires dst in w.t.lastBuilt && src in w.t.lastBuilt && dst !in w.noting
    requires w.t.lastBuilt[src] < w.t.lastBuilt[dst] && w' == w.(t := WithAlias(w.t, dst, src))
    requires (src, w.t.lastBuilt[src]) in w.truth ==>
      (dst, w.t.lastBuilt[dst]) in w.truth
      && w.truth[(dst, w.t.lastBuilt[dst])] == w.truth[(src, w.t.lastBuilt[src])]
    ensures KnownAll(w') && KeptAll(w') && AliasAll(w') && NotingAll(w')
  {
    hide Answered, Parse, Seen, RowsOf;
    assert InOrder(w.t, dst);
    forall b ensures KnownOk(w', b) { assert KnownOk(w, b); }
    forall b, k | b in w'.t.instHist && k in w'.t.instHist[b] ensures KeptOk(w', b, k) { assert KeptOk(w, b, k); }
    forall b ensures AliasOk(w', b) { assert AliasOk(w, b); }
    forall b | b in w'.noting ensures NotingOk(w', b) { assert NotingOk(w, b); }
  }

  // The step, piece by piece.

  function AfterBottom(w: World, dst: Addr, src: Addr, same: bool): World {
    if (same && HasBlas(w.t, src)) || !(same && src in w.t.lastBuilt)
    then w.(t := CopyBottom(w.t, dst, src, same),
            log := Append(w.log, dst, Entry(w.t.asSerial + 1, CopiedInfo(w.t, src, same))))
    else w
  }

  /** An entry that is only appended. */
  lemma AppendOnlyKeeps(w: World, a: Addr, info: BlasInfo)
    requires Inv(w)
    ensures Inv(w.(t := AppendBlas(w.t, a, info), log := Append(w.log, a, Entry(w.t.asSerial + 1, info))))
  {
    hide Inv, AskedFrom, AppendBlas, AsTracker.BuildBottom, Append;
    AppendPrunesNothing(w.t, a, info);
    NothingAskedBelow(w);
    AppendKeeps(w, a, info, 0);
  }

  lemma AppendPrunesNothing(t: Tracker, a: Addr, info: BlasInfo)
    ensures AppendBlas(t, a, info) == AsTracker.BuildBottom(t, a, info, 0)
  {
    var h := At(t.hist, a, []) + [Entry(t.asSerial + 1, info)];
    KeepFromZero(h);
    assert h[0..] == h;
  }

  lemma NothingAskedBelow(w: World)
    requires Inv(w)
    ensures AskedFrom(w, 0)
  {
    forall a | a in w.noting ensures a in w.t.tlasAsSerial { assert NotingOk(w, a); }
  }

  lemma AfterBottomKeeps(w: World, dst: Addr, src: Addr, same: bool)
    requires Inv(w)
    ensures Inv(AfterBottom(w, dst, src, same))
    ensures AfterBottom(w, dst, src, same).t.lastBuilt == w.t.lastBuilt
    ensures AfterBottom(w, dst, src, same).t.tlasSerial == w.t.tlasSerial
    ensures AfterBottom(w, dst, src, same).noting == w.noting
  {
    hide Inv, Append;
    AppendOnlyKeeps(w, dst, CopiedInfo(w.t, src, same));
  }

  /** DESERIALIZE, and a copy of what is not known: a new build of which nothing is known. */
  lemma UnknownCopyKeeps(w: World, dst: Addr, deserialized: bool)
    requires Inv(w) && (!deserialized ==> dst in w.t.lastBuilt)
    ensures Inv(UnknownDone(w, dst, deserialized))
  {
    var t1 := UnknownPlace(w.t, dst, deserialized);
    var w2 := w.(t := NextBuild(t1.(alias := t1.alias - {dst}), dst), noting := w.noting - {dst});
    assert !deserialized ==> InOrder(w.t, dst);
    UnknownIsRebuilt(w, dst, deserialized);
    hide Inv, Rebuilt, Forget, NextBuild;
    RebuiltKeeps(w, w2, dst, t1.tlasAsSerial[dst]);
    ForgetKeeps(w2, dst);
  }

  /** The state after such a copy. */
  function UnknownDone(w: World, dst: Addr, deserialized: bool): World {
    var t1 := UnknownPlace(w.t, dst, deserialized);
    w.(t := Forget(NextBuild(t1.(alias := t1.alias - {dst}), dst), dst), noting := w.noting - {dst})
  }

  /** A deserialize is a build recorded now; a copy of something unknown keeps the old place. */
  function UnknownPlace(t: Tracker, dst: Addr, deserialized: bool): Tracker {
    if deserialized
    then t.(asSerial := t.asSerial + 1, tlasAsSerial := t.tlasAsSerial[dst := t.asSerial + 1]) else t
  }

  lemma UnknownIsRebuilt(w: World, dst: Addr, deserialized: bool)
    requires TruthOk(w) && (!deserialized ==> dst in w.t.tlasAsSerial)
    ensures
      var t1 := UnknownPlace(w.t, dst, deserialized);
      && dst in t1.tlasAsSerial
      && Rebuilt(w, w.(t := NextBuild(t1.(alias := t1.alias - {dst}), dst), noting := w.noting - {dst}), dst,
                 t1.tlasAsSerial[dst])
  {
    UnknownTracker(w.t, dst, deserialized);
    var t1 := UnknownPlace(w.t, dst, deserialized);
    var w' := w.(t := NextBuild(t1.(alias := t1.alias - {dst}), dst), noting := w.noting - {dst});
    assert t1.tlasAsSerial[dst] <= t1.asSerial && (dst, w.t.tlasSerial + 1) !in w.truth;
    hide TruthOk, UnknownPlace;
    assert NewBuild(w, w', dst);
    hide NewBuild, NextBuild;
  }

  lemma UnknownTracker(t: Tracker, dst: Addr, deserialized: bool)
    requires deserialized || dst in t.tlasAsSerial
    ensures
      var t1 := UnknownPlace(t, dst, deserialized);
      && dst in t1.tlasAsSerial && t.asSerial <= t1.asSerial <= t.asSerial + 1
      && (deserialized ==> t1.tlasAsSerial[dst] == t1.asSerial)
      && (!deserialized ==> t1.tlasAsSerial[dst] == t.tlasAsSerial[dst])
      && NextBuild(t1.(alias := t1.alias - {dst}), dst)
        == NextBuild(t, dst).(alias := t.alias - {dst}, asSerial := t1.asSerial,
                              tlasAsSerial := t.tlasAsSerial[dst := t1.tlasAsSerial[dst]])
  {
    if !deserialized { assert t.tlasAsSerial[dst := t.tlasAsSerial[dst]] == t.tlasAsSerial; }
  }

  /** The new build of a copy, before what is known of the source is looked at. */
  function CopyBuilt(w: World, dst: Addr, src: Addr): World {
    w.(t := NextBuild(w.t.(alias := w.t.alias - {dst}), dst)
              .(tlasAsSerial := w.t.tlasAsSerial[dst := At(w.t.tlasAsSerial, src, 0)]),
       truth := TruthAfterCopy(w, dst, src, CloneOrCompact),
       noting := w.noting - {dst})
  }

  lemma CopyBuiltKeeps(w: World, dst: Addr, src: Addr)
    requires Inv(w) && dst != 0 && src in w.t.lastBuilt && dst != src
    ensures Inv(CopyBuilt(w, dst, src))
  {
    var place := At(w.t.tlasAsSerial, src, 0);
    assert InOrder(w.t, src);
    CopyIsRebuilt(w, dst, src);
    hide Inv, Rebuilt, CopyBuilt;
    RebuiltKeeps(w, CopyBuilt(w, dst, src), dst, place);
  }

  lemma CopyIsRebuilt(w: World, dst: Addr, src: Addr)
    requires TruthOk(w) && PointsAll(w) && src in w.t.lastBuilt && src in w.t.tlasAsSerial && dst != 0 && dst != src
    ensures Rebuilt(w, CopyBuilt(w, dst, src), dst, At(w.t.tlasAsSerial, src, 0))
  {
    CopyIsNewBuild(w, dst, src);
    hide NewBuild, PointsBelow;
  }

  lemma CopyIsNewBuild(w: World, dst: Addr, src: Addr)
    requires TruthOk(w) && dst != 0 && dst != src
    ensures NewBuild(w, CopyBuilt(w, dst, src), dst)
    ensures (dst, w.t.tlasSerial + 1) in CopyBuilt(w, dst, src).truth ==>
      (src in w.t.lastBuilt && (src, w.t.lastBuilt[src]) in w.truth
       && CopyBuilt(w, dst, src).truth[(dst, w.t.tlasSerial + 1)] == w.truth[(src, w.t.lastBuilt[src])])
  {}

  /** CLONE and COMPACT of a top-level structure. */
  lemma CopyTopKeeps(w: World, dst: Addr, src: Addr)
    requires Inv(w) && dst != 0 && src in w.t.lastBuilt && dst != src
    ensures
      Inv(w.(t := CopyTop(w.t, dst, src, true), truth := TruthAfterCopy(w, dst, src, CloneOrCompact),
             noting := w.noting - {dst}))
  {
    CopyBuiltKeeps(w, dst, src);
    var w2 := CopyBuilt(w, dst, src);
    CopyBuiltIs(w, dst, src);
    if Current(w2.t, src) && src in w2.t.tlas {
      KnownIs(w2, src);
      hide Inv, LearnCopy, CopyBuilt, Parse, Seen;
      LearnCopyKeeps(w2, dst, w2.t.lastBuilt[dst], src, w2.t.lastBuilt[src]);
    } else {
      hide Inv, LearnCopy, CopyBuilt;
      AliasKeeps(w2, dst, src);
    }
  }

  /** The rest of `CopyTop`, from the new build on. */
  lemma CopyBuiltIs(w: World, dst: Addr, src: Addr)
    requires Inv(w) && dst != 0 && src in w.t.lastBuilt && dst != src
    ensures
      var w2 := CopyBuilt(w, dst, src);
      var t2 := w2.t;
      && w2.truth == TruthAfterCopy(w, dst, src, CloneOrCompact) && w2.noting == w.noting - {dst}
      && w2 == w.(t := w2.t, truth := w2.truth, noting := w2.noting)
      && src in t2.lastBuilt && dst in t2.lastBuilt && t2.lastBuilt[src] < t2.lastBuilt[dst]
      && ((src, t2.lastBuilt[src]) in w2.truth ==>
            (dst, t2.lastBuilt[dst]) in w2.truth
            && w2.truth[(dst, t2.lastBuilt[dst])] == w2.truth[(src, t2.lastBuilt[src])])
      && CopyTop(w.t, dst, src, true)
           == if Current(t2, src) && src in t2.tlas then LearnCopy(t2, dst, t2.lastBuilt[dst], src, t2.lastBuilt[src])
              else t2.(readOf := t2.readOf - {dst},
                       alias := t2.alias[dst := Alias(src, t2.lastBuilt[src], t2.lastBuilt[dst])])
  {
    assert w.t.lastBuilt[src] <= w.t.tlasSerial by { assert InOrder(w.t, src); }
    hide Inv, LearnCopy;
  }

  lemma DeserializeStepIs(w: World, dst: Addr)
    requires dst != 0
    ensures DeserializeStep(w, dst) == UnknownDone(WithUnknown(w, dst), dst, true)
  {
    hide Append, AppendBlas, NextBuild, Forget;
  }

  /** The entry in the log that a deserialize makes. */
  function WithUnknown(w: World, dst: Addr): World {
    w.(t := AppendBlas(w.t, dst, UNKNOWN_DESERIALIZED),
       log := Append(w.log, dst, Entry(w.t.asSerial + 1, UNKNOWN_DESERIALIZED)))
  }

  lemma DeserializeKeeps(w: World, dst: Addr)
    requires Inv(w) && dst != 0
    ensures Inv(DeserializeStep(w, dst))
  {
    hide Inv, DeserializeStep, UnknownDone;
    DeserializeStepIs(w, dst);
    AppendOnlyKeeps(w, dst, UNKNOWN_DESERIALIZED);
    hide WithUnknown;
    UnknownCopyKeeps(WithUnknown(w, dst), dst, true);
  }

  /** What the tables say after it. */
  lemma DeserializedTables(w: World, dst: Addr)
    requires dst != 0
    ensures
      var t, t' := w.t, DeserializeStep(w, dst).t;
      && t'.tlasSerial == t.tlasSerial + 1 && t'.asSerial == t.asSerial + 2
      && t'.lastBuilt == t.lastBuilt[dst := t.tlasSerial + 1]
      && t'.tlasAsSerial == t.tlasAsSerial[dst := t.asSerial + 2]
      && t'.hist == t.hist[dst := At(t.hist, dst, []) + [Entry(t.asSerial + 1, UNKNOWN_DESERIALIZED)]]
      && dst !in t'.readOf && dst !in t'.alias && t'.pending == t.pending
      && DeserializeStep(w, dst) == w.(t := t', log := DeserializeStep(w, dst).log, noting := w.noting - {dst})
      && DeserializeStep(w, dst).log == Append(w.log, dst, Entry(t.asSerial + 1, UNKNOWN_DESERIALIZED))
  {
    hide Append;
  }

  /** Of a top-level structure: the build has its instances, and waits for its decode. */
  lemma DeserializeTopKeeps(w: World, action: Action)
    requires Inv(w) && Enabled(w, action) && action.DeserializeTop?
    ensures Inv(Step(w, action))
  {
    hide Inv, Enabled, Step, DeserializeStep, TopKnown, PointsBelow;
    TopEnabled(w, action);
    TopStepIs(w, action);
    TopKnownKeeps(w, action.dst, action.descs);
  }

  lemma TopEnabled(w: World, action: Action)
    requires Enabled(w, action) && action.DeserializeTop?
    ensures action.dst != 0 && PointsBelow(w.log, w.tops, action.descs, w.t.asSerial + 1)
    ensures forall d :: d in action.descs ==> d.blas != action.dst
  {
    hide PointsBelow;
  }

  lemma TopKnownKeeps(w: World, dst: Addr, descs: seq<Desc>)
    requires Inv(w) && dst != 0 && PointsBelow(w.log, w.tops, descs, w.t.asSerial + 1)
    requires forall d :: d in descs ==> d.blas != dst
    ensures Inv(TopKnown(w, DeserializeStep(w, dst), dst, Truth(descs, w.t.asSerial + 2, w.t.tlasSerial + 1)))
  {
    hide Inv, PointsBelow, Answered, DeserializeStep, Append, TopKnown, TruthOk, BuildsInOrder, LogsOk;
    var tr := Truth(descs, w.t.asSerial + 2, w.t.tlasSerial + 1);
    InvSerials(w);
    DeserializeKeeps(w, dst);
    DeserializedTruths(w, dst, tr);
    JustIs(w, dst);
    TopAdded(w, DeserializeStep(w, dst), dst, tr);
  }

  lemma TopStepIs(w: World, action: Action)
    requires Enabled(w, action) && action.DeserializeTop?
    ensures Step(w, action) == TopKnown(w, DeserializeStep(w, action.dst), action.dst,
                                        Truth(action.descs, w.t.asSerial + 2, w.t.tlasSerial + 1))
  {
    TopStepEffect(w, action);
    assert action.dst != 0;
    hide Step, Enabled;
    DeserializedTables(w, action.dst);
    hide DeserializeStep, Append;
  }

  lemma TopStepEffect(w: World, action: Action)
    requires Enabled(w, action) && action.DeserializeTop?
    ensures Step(w, action) == DeserializeTopStep(w, action.dst, action.descs)
  {
    hide DeserializeTopStep, PointsBelow;
  }

  lemma JustIs(w: World, dst: Addr)
    requires dst != 0
    ensures
      var w1, e := DeserializeStep(w, dst), Entry(w.t.asSerial + 1, UNKNOWN_DESERIALIZED);
      && JustDeserialized(w, w1, dst) && w1.log == Append(w.log, dst, e)
      && w1.t.hist == w.t.hist[dst := At(w.t.hist, dst, []) + [e]]
  {
    DeserializedTables(w, dst);
    hide DeserializeStep, Append;
  }

  lemma DeserializedTruths(w: World, dst: Addr, tr: Truth)
    requires Inv(w) && PointsBelow(w.log, w.tops, tr.descs, w.t.asSerial + 1)
    requires tr.asOf == w.t.asSerial + 2 && forall d :: d in tr.descs ==> d.blas != dst
    ensures
      var e := Entry(w.t.asSerial + 1, UNKNOWN_DESERIALIZED);
      var log', tops' := Append(w.log, dst, e), w.tops + {(dst, e.serial)};
      && PointsBelow(log', tops', tr.descs, tr.asOf)
      && Answered(w.t.hist[dst := At(w.t.hist, dst, []) + [e]], log', tr)
      && (forall b :: b in w.truth ==> PointsBelow(log', tops', w.truth[b].descs, w.truth[b].asOf))
  {
    assert TruthOk(w) && LogsOk(w) && PointsAll(w);
    hide Inv, LogsOk, PointsBelow, Answered, Append;
    forall b | b in w.truth
      ensures PointsBelow(Append(w.log, dst, Entry(w.t.asSerial + 1, UNKNOWN_DESERIALIZED)),
                          w.tops + {(dst, w.t.asSerial + 1)}, w.truth[b].descs, w.truth[b].asOf)
    {
      PointsStay(w.log, w.tops, w.truth[b].descs, w.truth[b].asOf, dst,
                 Entry(w.t.asSerial + 1, UNKNOWN_DESERIALIZED));
    }
    DeserializedPoints(w, dst, tr.descs);
    DeserializedAnswered(w, dst, tr);
  }

  /** Its instances point at structures that were there before, none of them where it is now. */
  lemma DeserializedPoints(w: World, dst: Addr, descs: seq<Desc>)
    requires LogsOk(w) && PointsBelow(w.log, w.tops, descs, w.t.asSerial + 1) && forall d :: d in descs ==> d.blas != dst
    ensures
      var e := Entry(w.t.asSerial + 1, UNKNOWN_DESERIALIZED);
      PointsBelow(Append(w.log, dst, e), w.tops + {(dst, e.serial)}, descs, w.t.asSerial + 2)
  {
    var e := Entry(w.t.asSerial + 1, UNKNOWN_DESERIALIZED);
    var log', tops' := Append(w.log, dst, e), w.tops + {(dst, e.serial)};
    forall d | d in descs ensures !TopThen(log', tops', d.blas, w.t.asSerial + 2) {
      assert !TopThen(w.log, w.tops, d.blas, w.t.asSerial + 1);
      assert LogAt(w.t.asSerial, w.tops, d.blas, At(w.t.hist, d.blas, []), At(w.log, d.blas, []));
      LastAnswer(At(w.log, d.blas, []), w.t.asSerial, w.t.asSerial + 1);
      LastAnswer(At(w.log, d.blas, []), w.t.asSerial, w.t.asSerial + 2);
    }
  }

  lemma DeserializedAnswered(w: World, dst: Addr, tr: Truth)
    requires LogsOk(w) && PointsBelow(w.log, w.tops, tr.descs, w.t.asSerial + 1)
    requires tr.asOf == w.t.asSerial + 2 && forall d :: d in tr.descs ==> d.blas != dst
    ensures
      var e := Entry(w.t.asSerial + 1, UNKNOWN_DESERIALIZED);
      Answered(w.t.hist[dst := At(w.t.hist, dst, []) + [e]], Append(w.log, dst, e), tr)
  {
    forall d | d in tr.descs ensures !TopThen(w.log, w.tops, d.blas, tr.asOf) {
      assert !TopThen(w.log, w.tops, d.blas, w.t.asSerial + 1);
      assert LogAt(w.t.asSerial, w.tops, d.blas, At(w.t.hist, d.blas, []), At(w.log, d.blas, []));
      LastAnswer(At(w.log, d.blas, []), w.t.asSerial, w.t.asSerial + 1);
      LastAnswer(At(w.log, d.blas, []), w.t.asSerial, tr.asOf);
    }
    AnsweredNow(w, tr);
    forall d | d in tr.descs
      ensures EntryAt(At(w.t.hist, d.blas, []), tr.asOf) == EntryAt(At(w.log, d.blas, []), tr.asOf)
    {}
  }

  /** What is then said of the build: its instances, who is to note it, and that its entry is none. */
  function TopKnown(w: World, w1: World, dst: Addr, tr: Truth): World {
    w1.(truth := w.truth[(dst, w1.t.tlasSerial) := tr], noting := w.noting[dst := ByDecode],
        decodes := w.decodes + {Deserialized(dst, w.t.asSerial + 1, w1.t.tlasSerial)},
        tops := w.tops + {(dst, w.t.asSerial + 1)})
  }

  /** The state after the deserialize alone. */
  ghost predicate JustDeserialized(w: World, w1: World, dst: Addr) {
    && w1.truth == w.truth && w1.decodes == w.decodes && w1.tops == w.tops && w1.copies == w.copies
    && w1.noting == w.noting - {dst}
    && w1.t.tlasSerial == w.t.tlasSerial + 1 && w1.t.asSerial == w.t.asSerial + 2 && w1.t.pending == w.t.pending
    && dst in w1.t.lastBuilt && w1.t.lastBuilt[dst] == w1.t.tlasSerial
    && dst in w1.t.tlasAsSerial && w1.t.tlasAsSerial[dst] == w1.t.asSerial
    && dst !in w1.t.readOf && dst !in w1.t.alias
  }

  lemma TopAdded(w: World, w1: World, dst: Addr, tr: Truth)
    requires Inv(w1) && TruthOk(w) && JustDeserialized(w, w1, dst)
    requires tr.asOf == w1.t.asSerial && tr.origin == w1.t.tlasSerial && Answered(w1.t.hist, w1.log, tr)
    requires PointsBelow(w1.log, w1.tops + {(dst, w.t.asSerial + 1)}, tr.descs, tr.asOf)
    requires forall b :: b in w.truth ==>
      PointsBelow(w1.log, w1.tops + {(dst, w.t.asSerial + 1)}, w.truth[b].descs, w.truth[b].asOf)
    ensures Inv(TopKnown(w, w1, dst, tr))
  {
    var w' := TopKnown(w, w1, dst, tr);
    hide BuildsInOrder, TruthOk, LogsOk, PendingAll, KnownAll, KeptAll, AliasAll, NotingAll, AllOk, BuffersOk, RecordsOk,
         PointsBelow, Answered;
    TopTruth(w, w1, dst, tr);
    MoreTops(w1, w');
    MoreTruth(w1, w', (dst, w1.t.tlasSerial));
    MoreTruthStay(w1, w', (dst, w1.t.tlasSerial));
    TopNoted(w, w1, dst, tr);
    TopRecords(w, w1, w', dst, tr);
  }

  lemma TopTruth(w: World, w1: World, dst: Addr, tr: Truth)
    requires TruthOk(w) && TruthOk(w1) && LogsOk(w1) && JustDeserialized(w, w1, dst) && tr.asOf == w1.t.asSerial
    ensures TruthOk(TopKnown(w, w1, dst, tr)) && (dst, w1.t.tlasSerial) !in w.truth
    ensures forall x :: x in TopKnown(w, w1, dst, tr).tops ==> x.1 <= w1.t.asSerial
  {
    hide LogAt;
  }

  lemma MoreTruthStay(w: World, w': World, b': Build)
    requires PendingAll(w) && AliasAll(w) && BuffersOk(w)
    requires b' !in w.truth && b' in w'.truth && w'.truth == w.truth[b' := w'.truth[b']]
    requires w'.t == w.t && w'.log == w.log && w'.copies == w.copies && w'.buffers == w.buffers && w'.gpu == w.gpu
    requires w'.next == w.next && b'.1 == w.t.tlasSerial
    ensures PendingAll(w') && AliasAll(w') && BuffersOk(w')
  {
    hide Answered, HasRun;
    forall r | r in w'.t.pending ensures PendingOk(w', r) { assert PendingOk(w, r); }
    forall a ensures AliasOk(w', a) { assert AliasOk(w, a); }
    forall id | id in w'.copies ensures BufferOk(w', id) { assert BufferOk(w, id); }
  }

  lemma TopNoted(w: World, w1: World, dst: Addr, tr: Truth)
    requires NotingAll(w1) && PendingAll(w1) && TruthOk(w) && JustDeserialized(w, w1, dst)
    requires tr.asOf == w1.t.asSerial && Answered(w1.t.hist, w1.log, tr)
    ensures NotingAll(TopKnown(w, w1, dst, tr))
  {
    hide Answered;
    var w' := TopKnown(w, w1, dst, tr);
    forall r | r in w'.t.pending && r.key.tlas == dst ensures r.key.build != w'.t.lastBuilt[dst] {
      assert PendingOk(w1, r);
    }
    forall a | a in w'.noting ensures NotingOk(w', a) {
      if a != dst { assert NotingOk(w1, a); }
    }
  }

  lemma MoreTops(w: World, w': World)
    requires LogsOk(w) && w'.log == w.log && w'.t == w.t && w.tops <= w'.tops
    requires forall x :: x in w'.tops ==> x.1 <= w'.t.asSerial
    ensures LogsOk(w')
  {
    forall a ensures LogAt(w'.t.asSerial, w'.tops, a, At(w'.t.hist, a, []), At(w'.log, a, [])) {
      assert LogAt(w.t.asSerial, w.tops, a, At(w.t.hist, a, []), At(w.log, a, []));
      forall asOf ensures OldAnswer(w'.tops, a, At(w'.t.hist, a, []), At(w'.log, a, []), asOf) {
        assert OldAnswer(w.tops, a, At(w.t.hist, a, []), At(w.log, a, []), asOf);
      }
    }
  }

  lemma MoreTruth(w: World, w': World, b': Build)
    requires KnownAll(w) && KeptAll(w) && b' !in w.truth && b' in w'.truth && w'.truth == w.truth[b' := w'.truth[b']]
    requires w'.log == w.log && w'.t == w.t && w'.late == w.late
    ensures KnownAll(w') && KeptAll(w')
  {
    hide Parse, Seen, RowsOf;
    forall a ensures KnownOk(w', a) { assert KnownOk(w, a); }
    forall a, k | a in w'.t.instHist && k in w'.t.instHist[a] ensures KeptOk(w', a, k) { assert KeptOk(w, a, k); }
  }

  lemma TopRecords(w: World, w1: World, w': World, dst: Addr, tr: Truth)
    requires RecordsOk(w1) && TruthOk(w) && JustDeserialized(w, w1, dst) && tr.origin == w1.t.tlasSerial
    requires PointsBelow(w1.log, w1.tops + {(dst, w.t.asSerial + 1)}, tr.descs, tr.asOf)
    requires forall b :: b in w.truth ==>
      PointsBelow(w1.log, w1.tops + {(dst, w.t.asSerial + 1)}, w.truth[b].descs, w.truth[b].asOf)
    requires w' == TopKnown(w, w1, dst, tr)
    ensures RecordsOk(w')
  {
    hide PointsBelow;
    forall d | d in w'.deferred ensures DeferredOk(w', d) { assert DeferredOk(w1, d); }
    forall d | d in w'.decodes ensures DecodeOk(w', d) {
      if d in w.decodes { assert DecodeOk(w1, d); }
    }
    forall d, d' | d in w'.decodes && d' in w'.decodes && d.tlasSerial == d'.tlasSerial ensures d == d' {
      if d in w.decodes { assert DecodeOk(w1, d); }
      if d' in w.decodes { assert DecodeOk(w1, d'); }
    }
  }

  /** What the step is, of a copy that is neither a deserialize nor only bytes. */
  lemma CopyStepFields(w: World, dst: Addr, src: Addr, mode: CopyMode)
    requires dst != src && mode != Deserialize
    ensures Step(w, CopyStructure(dst, src, mode))
         == w.(t := NoteCopy(w.t, dst, src, mode), log := LogAfterCopy(w, dst, src, mode),
               truth := TruthAfterCopy(w, dst, src, mode),
               noting := if CopyRebuilds(w, dst, src, mode) then w.noting - {dst} else w.noting)
  {
    hide NoteCopy, LogAfterCopy, TruthAfterCopy, CopyRebuilds;
  }

  /** What `NoteCopy` writes into the log is what the copy is. */
  lemma CopyWritten(w: World, src: Addr, mode: CopyMode)
    ensures CopiedInfo(w.t, src, mode == CloneOrCompact) == CopyIs(w, src, mode)
  {}

  lemma CopyStepIs(w: World, dst: Addr, src: Addr, mode: CopyMode)
    requires dst != src && dst != 0 && mode in {CloneOrCompact, OtherMode}
    ensures
      var same := mode == CloneOrCompact;
      var w1 := AfterBottom(w, dst, src, same);
      Step(w, CopyStructure(dst, src, mode))
        == if !(same && src in w.t.lastBuilt) && dst !in w.t.lastBuilt then w1
           else w1.(t := CopyTop(w1.t, dst, src, same), truth := TruthAfterCopy(w1, dst, src, mode),
                    noting := w.noting - {dst})
  {
    hide Step, Append, CopiedInfo, CopyIs, CopyTop;
    CopyStepFields(w, dst, src, mode);
    CopyWritten(w, src, mode);
    var t1 := AfterBottom(w, dst, src, mode == CloneOrCompact).t;
    if !(mode == CloneOrCompact && src in t1.lastBuilt) && dst !in t1.lastBuilt {
      CopyTopNothing(t1, dst, src, mode == CloneOrCompact);
    }
  }

  lemma CopyTopNothing(t: Tracker, dst: Addr, src: Addr, same: bool)
    requires !(same && src in t.lastBuilt) && dst !in t.lastBuilt
    ensures CopyTop(t, dst, src, same) == t
  {}

  lemma CopyStepKeeps(w: World, dst: Addr, src: Addr, mode: CopyMode)
    requires Inv(w) && dst != src && mode != Deserialize
    ensures Inv(Step(w, CopyStructure(dst, src, mode)))
  {
    if dst == 0 || mode == SerializeOrDecode {
      assert Step(w, CopyStructure(dst, src, mode)) == w;
    } else {
      hide Inv, Step, AfterBottom, NextBuild, LearnCopy;
      var same := mode == CloneOrCompact;
      var w1 := AfterBottom(w, dst, src, same);
      CopyStepIs(w, dst, src, mode);
      AfterBottomKeeps(w, dst, src, same);
      if same && src in w.t.lastBuilt {
        CopyTopKeeps(w1, dst, src);
      } else if dst in w.t.lastBuilt {
        UnknownCopyKeeps(w1, dst, false);
      }
    }
  }

  // --- decodes ---------------------------------------------------------------------------------------------

  lemma ErasedAnswered(t: Tracker, log: map<Addr, Log>, tops: set<(Addr, nat)>, dst: Addr, serial: nat, tr: Truth)
    requires Answered(t.hist, log, tr) && PointsBelow(log, tops, tr.descs, tr.asOf) && (dst, serial) in tops
    ensures Answered(EraseEntry(t, dst, serial).hist, log, tr)
  {
    WithoutEntryAnswers(At(t.hist, dst, []), serial, tr.asOf);
    forall d | d in tr.descs
      ensures EntryAt(At(EraseEntry(t, dst, serial).hist, d.blas, []), tr.asOf) == EntryAt(At(log, d.blas, []), tr.asOf)
    {
      assert !TopThen(log, tops, d.blas, tr.asOf);
    }
  }

  lemma ErasedLogAt(asSerial: nat, tops: set<(Addr, nat)>, a: Addr, kept: Log, log: Log, serial: nat)
    requires LogAt(asSerial, tops, a, kept, log) && (a, serial) in tops
    ensures LogAt(asSerial, tops, a, WithoutEntry(kept, serial), log)
  {
    WithoutEntryIs(kept, serial);
    forall i | 0 <= i < |WithoutEntry(kept, serial)| ensures WithoutEntry(kept, serial)[i].serial <= asSerial {
      assert WithoutEntry(kept, serial)[i] in kept;
    }
    forall asOf ensures OldAnswer(tops, a, WithoutEntry(kept, serial), log, asOf) {
      assert OldAnswer(tops, a, kept, log, asOf);
      WithoutEntryAnswers(kept, serial, asOf);
    }
  }

  /** The entry of a structure that is a top-level one goes, and no answer with it. */
  lemma ErasedLogs(w: World, w': World, d: Deserialized)
    requires LogsOk(w) && RecordsOk(w) && d in w.decodes && w' == w.(t := EraseEntry(w.t, d.dst, d.blasSerial))
    ensures LogsOk(w')
  {
    assert DecodeOk(w, d);
    hide LogAt;
    ErasedLogAt(w.t.asSerial, w.tops, d.dst, At(w.t.hist, d.dst, []), At(w.log, d.dst, []), d.blasSerial);
    forall a ensures LogAt(w'.t.asSerial, w'.tops, a, At(w'.t.hist, a, []), At(w'.log, a, [])) {
      assert LogAt(w.t.asSerial, w.tops, a, At(w.t.hist, a, []), At(w.log, a, []));
    }
  }

  lemma EraseKeeps(w: World, d: Deserialized)
    requires Inv(w) && d in w.decodes
    ensures Inv(w.(t := EraseEntry(w.t, d.dst, d.blasSerial)))
  {
    var w' := w.(t := EraseEntry(w.t, d.dst, d.blasSerial));
    assert w'.t == w.t.(hist := w'.t.hist);
    assert DecodeOk(w, d);
    ErasedLogs(w, w', d);
    ErasedAsked(w, w', d);
    hide PendingAll, KnownAll, KeptAll, AliasAll, NotingAll, BuffersOk, ReadOk, LogsOk, BuildsInOrder, RecordsOk, EraseEntry,
         TruthOk;
    KnownStay(w, w');
    AliasStay(w, w');
    BuffersStay(w, w');
    FewerIs(w, w');
    RecordsStay(w, w');
    InOrderLater(w.t, w'.t);
    TruthStays(w, w');
  }

  lemma ErasedAsked(w: World, w': World, d: Deserialized)
    requires PendingAll(w) && NotingAll(w) && PointsAll(w) && (d.dst, d.blasSerial) in w.tops
    requires w' == w.(t := EraseEntry(w.t, d.dst, d.blasSerial))
    ensures PendingAll(w') && NotingAll(w')
  {
    hide Answered, PointsBelow;
    forall r | r in w'.t.pending ensures PendingOk(w', r) {
      assert PendingOk(w, r);
      ErasedAnswered(w.t, w.log, w.tops, d.dst, d.blasSerial, w.truth[(r.key.tlas, r.key.build)]);
    }
    forall a | a in w'.noting ensures NotingOk(w', a) {
      assert NotingOk(w, a);
      ErasedAnswered(w.t, w.log, w.tops, d.dst, d.blasSerial, w.truth[(a, w.t.lastBuilt[a])]);
    }
  }

  /** The decode is had: it is asked for no more, and what came late is marked. */
  lemma DecodeHad(w: World, w': World, d: Deserialized)
    requires Inv(w) && d in w.decodes
    requires w' == w.(decodes := w.decodes - {d}, late := w'.late,
                      noting := if InTime(w, d) then w.noting - {d.dst} else w.noting)
    requires w.late <= w'.late
    ensures Inv(w')
  {
    PendingStay(w, w');
    AliasStay(w, w');
    BuffersStay(w, w');
    KnownStay(w, w');
    assert NotingAll(w') by {
      hide Answered;
      forall b | b in w'.noting ensures NotingOk(w', b) { assert NotingOk(w, b); }
    }
    assert RecordsOk(w') by {
      hide PointsBelow;
      forall x | x in w'.deferred ensures DeferredOk(w', x) { assert DeferredOk(w, x); }
      forall x | x in w'.decodes ensures DecodeOk(w', x) { assert DecodeOk(w, x) && DecodeOk(w, d); }
    }
    hide PendingAll, KnownAll, KeptAll, AliasAll, NotingAll, BuffersOk, ReadOk, LogAt, RecordsOk;
    assert BuildsInOrder(w'.t) && TruthOk(w') && LogsOk(w');
  }

  lemma DecodeIs(w: World, d: Deserialized)
    requires Inv(w) && d in w.decodes
    ensures DecodeOk(w, d) && TruthOk(w)
    ensures d.dst in w.noting ==> NotingOk(w, d.dst)
  {}

  /** The structure was not built again: what is known of it becomes this build. */
  lemma InTimeKeeps(w: World, d: Deserialized, descs: seq<Desc>)
    requires Inv(w) && Enabled(w, Decode(d, descs)) && InTime(w, d)
    ensures Inv(Step(w, Decode(d, descs)))
  {
    var w1 := w.(t := EraseEntry(w.t, d.dst, d.blasSerial));
    var w2 := w1.(decodes := w.decodes - {d}, noting := w.noting - {d.dst});
    var asOf := At(w.t.tlasAsSerial, d.dst, 0);
    EraseKeeps(w, d);
    InTimeTrue(w1, d, descs);
    InTimeIs(w, d, descs);
    hide Inv, ParseAt, Parse, Seen, EraseEntry, Learn, Step, Enabled;
    DecodeHad(w1, w2, d);
    LearnKeeps(w2, d.dst, d.tlasSerial, asOf, descs);
  }

  /** What the decode gives is the build, as of its own serial. */
  lemma InTimeTrue(w: World, d: Deserialized, descs: seq<Desc>)
    requires Inv(w) && d in w.decodes && InTime(w, d)
    requires (d.dst, d.tlasSerial) in w.truth ==> descs == w.truth[(d.dst, d.tlasSerial)].descs
    ensures (d.dst, d.tlasSerial) in w.truth && descs == w.truth[(d.dst, d.tlasSerial)].descs
    ensures ParseAt(w.t, descs, At(w.t.tlasAsSerial, d.dst, 0)) == Parse(Seen(w.log, w.truth[(d.dst, d.tlasSerial)]))
  {
    DecodeIs(w, d);
    hide Inv, Answered, ParseAt, Parse, Seen;
    ParseIsTrue(w.t, w.log, w.truth[(d.dst, d.tlasSerial)]);
  }

  lemma InTimeIs(w: World, d: Deserialized, descs: seq<Desc>)
    requires Enabled(w, Decode(d, descs)) && InTime(w, d)
    ensures
      var t1 := EraseEntry(w.t, d.dst, d.blasSerial);
      && t1 == w.t.(hist := t1.hist)
      && Step(w, Decode(d, descs))
         == w.(decodes := w.decodes - {d}, noting := w.noting - {d.dst},
               t := Learn(t1, d.dst, d.tlasSerial, At(w.t.tlasAsSerial, d.dst, 0), descs))
  {
    hide Learn, LearnOlder, WithoutEntry;
  }

  /** It was: the instances are filed under the build they are of, or are taken for, and nothing else. */
  lemma LateKeeps(w: World, d: Deserialized, descs: seq<Desc>)
    requires Inv(w) && Enabled(w, Decode(d, descs)) && !InTime(w, d)
    ensures Inv(Step(w, Decode(d, descs)))
  {
    var w1 := w.(t := EraseEntry(w.t, d.dst, d.blasSerial));
    var w2 := w1.(decodes := w.decodes - {d}, late := w.late + {d.tlasSerial});
    var k := LateKept(w, d, descs);
    assert d in w.decodes && w1.t.lastBuilt == w.t.lastBuilt;
    LateIs(w, d, descs);
    hide Inv, Step, Enabled, ParseAt, Remember, EraseEntry;
    EraseKeeps(w, d);
    DecodeIs(w1, d);
    hide TruthOk, NotingOk, KeptOk;
    DecodeHad(w1, w2, d);
    assert KeptOk(w2, d.dst, k) by { LateKeptOk(w1, w2, d, k); }
    hide DecodeOk;
    FiledKeeps(w2, d.dst, k);
  }

  lemma LateKeptOk(w: World, w': World, d: Deserialized, k: Kept)
    requires DecodeOk(w, d) && w'.truth == w.truth && w'.late == w.late + {d.tlasSerial} && k.build == d.tlasSerial
    ensures KeptOk(w', d.dst, k)
  {}

  /** What a late decode files. */
  ghost function LateKept(w: World, d: Deserialized, descs: seq<Desc>): Kept {
    var asOf := At(w.t.tlasAsSerial, d.dst, 0);
    Kept(d.tlasSerial, asOf, descs, ParseAt(EraseEntry(w.t, d.dst, d.blasSerial), descs, asOf).rows)
  }

  lemma LateIs(w: World, d: Deserialized, descs: seq<Desc>)
    requires Enabled(w, Decode(d, descs)) && !InTime(w, d)
    ensures
      var t1, k := EraseEntry(w.t, d.dst, d.blasSerial), LateKept(w, d, descs);
      && t1 == w.t.(hist := t1.hist)
      && Step(w, Decode(d, descs))
         == w.(t := t1.(instHist := Remember(w.t.instHist, d.dst, k)), decodes := w.decodes - {d},
               late := w.late + {d.tlasSerial})
  {
    hide ParseAt, Remember, WithoutEntry;
  }

  lemma DecodeStepKeeps(w: World, action: Action)
    requires Inv(w) && Enabled(w, action) && action.Decode?
    ensures Inv(Step(w, action))
  {
    hide Inv, Step;
    if InTime(w, action.d) {
      InTimeKeeps(w, action.d, action.descs);
    } else {
      LateKeeps(w, action.d, action.descs);
    }
  }

  lemma StepKeeps(w: World, action: Action)
    requires Inv(w) && Enabled(w, action)
    ensures Inv(Step(w, action))
  {
    match action {
      case CopyStructure(dst, src, mode) => CopyStepKeeps(w, dst, src, mode);
      case DeserializeOther(dst) => DeserializeKeeps(w, dst);
      case _ =>
        hide Inv, Step, Enabled;
        match action {
          case BuildBottom(_, _, _) => BuildBottomKeeps(w, action);
          case BuildTop(_, _, _) => BuildTopKeeps(w, action);
          case ReadNow(_) => ReadNowKeeps(w, action);
          case RecordCopy(_, _, _) => RecordCopyKeeps(w, action);
          case EndBuild(_) => EndStepKeeps(w, action);
          case DeserializeTop(_, _) => DeserializeTopKeeps(w, action);
          case Decode(_, _) => DecodeStepKeeps(w, action);
          case Defer(_, _) => DeferStepKeeps(w, action);
          case CloseSegment(_) => CloseStepKeeps(w, action);
          case ResetList(_) => ResetStepKeeps(w, action);
          case Exec(_, _) => ExecStepKeeps(w, action);
          case Leave(_, _) => LeaveStepKeeps(w, action);
          case Bring(_, _, _) => BringStepKeeps(w, action);
          case Work(_) => WorkStepKeeps(w, action);
          case _ => GpuStepKeeps(w, action);
        }
    }
  }

  lemma {:induction false} EveryRunKeeps(actions: seq<Action>)
    requires Runs(actions)
    ensures Inv(After(actions))
    decreases |actions|
  {
    hide Inv, Step, Enabled;
    StartKeeps();
    if actions != [] {
      var front, last := actions[..|actions| - 1], actions[|actions| - 1];
      EveryRunKeeps(front);
      StepKeeps(After(front), last);
    }
  }

  lemma StartKeeps()
    ensures Inv(START)
  {}
}
