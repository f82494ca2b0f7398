/**
 Which builds' instances are kept (`RememberLocked` in `proxy/as_tracker.cpp`): of each
 structure the newest eight that were read, in order; over every run.
 */
module AsTrackerKept {
  import opened AsLog
  import opened Options
  import opened Readback
  import opened AsParse
  import opened AsTracker
  import opened AsTrackerWorld
  import opened AsTrackerReads
  import opened AsTrackerRuns

  /** At most eight, by build. */
  ghost predicate InOrderOfBuild(h: seq<Kept>) {
    && |h| <= 8
    && forall i, j :: 0 <= i < j < |h| ==> h[i].build < h[j].build
  }

  /** That build's instances are kept, or those of eight newer ones. */
  ghost predicate KeptOrNewer(h: seq<Kept>, build: nat) {
    || (exists x :: x in h && x.build == build)
    || (|h| == 8 && forall x :: x in h ==> x.build > build)
  }

  lemma {:induction false} InsertOrdered(h: seq<Kept>, k: Kept)
    requires (forall i, j :: 0 <= i < j < |h| ==> h[i].build < h[j].build)
    requires !HasBuild(h, k.build)
    ensures
      var h' := Insert(h, k);
      |h'| == |h| + 1 && forall i, j :: 0 <= i < j < |h'| ==> h'[i].build < h'[j].build
  {
    if h != [] {
      var n := |h| - 1;
      var front := h[..n];
      assert forall i :: 0 <= i < n ==> front[i] == h[i];
      InsertOrdered(front, k);
      var before := Insert(front, k);
      forall i | 0 <= i < |before| && h[n].build >= k.build ensures before[i].build < h[n].build {
        InsertFound(front, k, before[i]);
        assert h[n].build != k.build;
        if before[i] in front {
          var j :| 0 <= j < n && front[j] == before[i];
          assert h[j].build < h[n].build;
        }
      }
    }
  }

  /** One more: what is kept are the newest eight of those there were and the new one. */
  lemma RememberKeepsNewest(m: map<Addr, seq<Kept>>, a: Addr, k: Kept)
    requires InOrderOfBuild(At(m, a, []))
    ensures
      var h, h' := At(m, a, []), At(Remember(m, a, k), a, []);
      && InOrderOfBuild(h')
      && (k.build == 0 || (exists x :: x in h && x.build == k.build) ==> h' == h)
      && (k.build != 0 && (forall x :: x in h ==> x.build != k.build) ==>
            && (forall x :: x in h' ==> x in h || x == k)
            && forall x :: x in h || x == k ==> x in h' || (|h'| == 8 && forall y :: y in h' ==> y.build > x.build))
    ensures forall b :: b != a ==> At(Remember(m, a, k), b, []) == At(m, b, [])
  {
    hide Insert;
    var h := At(m, a, []);
    if k.build != 0 && !HasBuild(h, k.build) {
      InsertInto(h, k);
      NewestEight(Insert(h, k));
    }
  }

  lemma NewestEight(all: seq<Kept>)
    requires |all| <= 9 && forall i, j :: 0 <= i < j < |all| ==> all[i].build < all[j].build
    ensures
      var h' := if |all| > INST_HIST then all[|all| - INST_HIST..] else all;
      && InOrderOfBuild(h') && (forall x :: x in h' ==> x in all)
      && forall x :: x in all ==> x in h' || (|h'| == 8 && forall y :: y in h' ==> y.build > x.build)
  {
    if |all| > INST_HIST {
      assert all == [all[0]] + all[1..];
    }
  }

  /** So every list stays in order, and what was kept stays so until eight newer are. */
  ghost predicate Files(m: map<Addr, seq<Kept>>, m': map<Addr, seq<Kept>>) {
    forall a :: InOrderOfBuild(At(m, a, [])) ==> FilesOne(At(m, a, []), At(m', a, []))
  }

  ghost predicate FilesOne(h: seq<Kept>, h': seq<Kept>) {
    InOrderOfBuild(h') && forall build :: KeptOrNewer(h, build) ==> KeptOrNewer(h', build)
  }

  lemma FilesNothing(m: map<Addr, seq<Kept>>)
    ensures Files(m, m)
  {}

  lemma FilesMore(m: map<Addr, seq<Kept>>, m1: map<Addr, seq<Kept>>, m2: map<Addr, seq<Kept>>)
    requires Files(m, m1) && Files(m1, m2)
    ensures Files(m, m2)
  {
    hide InOrderOfBuild, KeptOrNewer;
  }

  /** Remembering files the entry, too. */
  lemma RememberFiles(m: map<Addr, seq<Kept>>, a: Addr, k: Kept)
    ensures Files(m, Remember(m, a, k))
    ensures k.build != 0 && InOrderOfBuild(At(m, a, [])) ==> KeptOrNewer(At(Remember(m, a, k), a, []), k.build)
  {
    hide FilesOne, KeptOrNewer, Insert, InOrderOfBuild;
    var h, h' := At(m, a, []), At(Remember(m, a, k), a, []);
    if InOrderOfBuild(h) {
      RememberKeepsNewest(m, a, k);
      if k.build != 0 && !HasBuild(h, k.build) {
        StaysKept(h, k);
      } else {
        SameKept(h, k.build);
      }
    }
    forall b | InOrderOfBuild(At(m, b, [])) ensures FilesOne(At(m, b, []), At(Remember(m, a, k), b, [])) {
      if b != a { SameKept(At(m, b, []), 0); }
    }
  }

  lemma SameKept(h: seq<Kept>, build: nat)
    requires InOrderOfBuild(h)
    ensures FilesOne(h, h) && (HasBuild(h, build) ==> KeptOrNewer(h, build))
  {}

  lemma StaysKept(h: seq<Kept>, k: Kept)
    requires InOrderOfBuild(h) && !HasBuild(h, k.build)
    ensures
      var all := Insert(h, k);
      var h' := if |all| > INST_HIST then all[|all| - INST_HIST..] else all;
      FilesOne(h, h') && KeptOrNewer(h', k.build)
  {
    hide Insert, KeptOrNewer, InOrderOfBuild, HasBuild;
    var all := Insert(h, k);
    InsertInto(h, k);
    NewestEight(all);
    NewestKept(all, k);
    var h' := if |all| > INST_HIST then all[|all| - INST_HIST..] else all;
    forall build | KeptOrNewer(h, build) ensures KeptOrNewer(h', build) { OneMoreKept(h, k, all, build); }
  }

  lemma InsertInto(h: seq<Kept>, k: Kept)
    requires InOrderOfBuild(h) && !HasBuild(h, k.build)
    ensures
      var all := Insert(h, k);
      && |h| <= 8 && |all| == |h| + 1 && (forall i, j :: 0 <= i < j < |all| ==> all[i].build < all[j].build)
      && forall x :: x in all <==> x in h || x == k
  {
    hide Insert;
    InsertOrdered(h, k);
    forall x ensures x in Insert(h, k) <==> x in h || x == k { InsertFound(h, k, x); }
  }

  /** Of what there is, each is among the newest eight, or those are newer. */
  lemma NewestKept(all: seq<Kept>, x: Kept)
    requires |all| <= 9 && x in all && forall i, j :: 0 <= i < j < |all| ==> all[i].build < all[j].build
    ensures KeptOrNewer(if |all| > INST_HIST then all[|all| - INST_HIST..] else all, x.build)
  {
    if |all| > INST_HIST { assert all == [all[0]] + all[1..]; }
  }

  lemma OneMoreKept(h: seq<Kept>, k: Kept, all: seq<Kept>, build: nat)
    requires |h| <= 8 && |all| == |h| + 1 && KeptOrNewer(h, build)
    requires forall i, j :: 0 <= i < j < |all| ==> all[i].build < all[j].build
    requires forall x :: x in all <==> x in h || x == k
    ensures KeptOrNewer(if |all| > INST_HIST then all[|all| - INST_HIST..] else all, build)
  {
    if x :| x in h && x.build == build {
      NewestKept(all, x);
    } else {
      var h' := all[1..];
      forall y | y in h' ensures y.build > build {
        var i :| 0 <= i < |h'| && h'[i] == y;
        assert all[0].build < all[i + 1].build;
        if y == k { assert all[0] in all && all[0] in h; } else { assert y in all; }
      }
    }
  }

  // --- what each step files ------------------------------------------------------------------

  lemma LearnFiles(t: Tracker, a: Addr, build: nat, asOf: nat, descs: seq<Desc>)
    ensures Files(t.instHist, Learn(t, a, build, asOf, descs).instHist)
    ensures Files(t.instHist, LearnOlder(t, a, build, asOf, descs).instHist)
    ensures build != 0 && InOrderOfBuild(At(t.instHist, a, [])) ==>
      && KeptOrNewer(At(Learn(t, a, build, asOf, descs).instHist, a, []), build)
      && KeptOrNewer(At(LearnOlder(t, a, build, asOf, descs).instHist, a, []), build)
  {
    hide ParseAt, Remember, Files, KeptOrNewer, InOrderOfBuild;
    RememberFiles(t.instHist, a, Kept(build, asOf, descs, ParseAt(t, descs, asOf).rows));
  }

  lemma CopyFiles(t: Tracker, a: Addr, build: nat, src: Addr, srcBuild: nat)
    requires src in t.tlas
    ensures Files(t.instHist, LearnCopy(t, a, build, src, srcBuild).instHist)
  {
    hide Remember, Files;
    match EntryOf(At(t.instHist, src, []), srcBuild)
    case None => FilesNothing(t.instHist);
    case Some(k) => RememberFiles(t.instHist, a, k.(build := build));
  }

  /** A copy's build gets its source's entry, if the source's build is kept; or has one, or eight newer are kept. */
  lemma CopyIsKept(m: map<Addr, seq<Kept>>, a: Addr, build: nat, src: Addr, k: Kept)
    requires InOrderOfBuild(At(m, a, [])) && InOrderOfBuild(At(m, src, [])) && build != 0 && k in At(m, src, [])
    ensures
      var h := At(RememberCopy(m, a, build, src, k.build), a, []);
      && KeptOrNewer(h, build)
      && ((forall x :: x in At(m, a, []) ==> x.build != build) ==>
            k.(build := build) in h || (|h| == 8 && forall y :: y in h ==> y.build > build))
  {
    hide Remember, KeptOrNewer;
    EntryIs(At(m, src, []), k);
    RememberFiles(m, a, k.(build := build));
    RememberKeepsNewest(m, a, k.(build := build));
  }

  lemma {:induction false} EntryIs(h: seq<Kept>, k: Kept)
    requires (forall i, j :: 0 <= i < j < |h| ==> h[i].build < h[j].build) && k in h
    ensures EntryOf(h, k.build) == Some(k)
  {
    if h[0] != k {
      assert h == [h[0]] + h[1..];
      EntryIs(h[1..], k);
    }
  }

  lemma ReadNowFiles(t: Tracker, a: Addr, descs: seq<Desc>)
    ensures Files(t.instHist, AsTracker.ReadNow(t, a, descs).instHist)
  {
    hide Learn, ParseAt, Files;
    FilesNothing(t.instHist);
    var t' := if a in t.tlasAsSerial then t else t.(tlasAsSerial := t.tlasAsSerial[a := 0]);
    LearnFiles(t', a, At(t.lastBuilt, a, 0), At(t.tlasAsSerial, a, 0), descs);
    LearnFiles(t, a, At(t.lastBuilt, a, 0), 0, []);
  }

  lemma SettleFiles(t: Tracker, k: Copy, descs: seq<Desc>)
    ensures Files(t.instHist, Settle(t, k, descs).instHist)
    ensures k.build != 0 && InOrderOfBuild(At(t.instHist, k.tlas, [])) ==>
      KeptOrNewer(At(Settle(t, k, descs).instHist, k.tlas, []), k.build)
  {
    hide Learn, LearnOlder, Files, KeptOrNewer, InOrderOfBuild;
    LearnFiles(t, k.tlas, k.build, k.asOf, descs);
  }

  lemma {:induction false} SettleDoneFiles(t: Tracker, g: Gpu, buffers: map<nat, seq<Desc>>, rs: seq<Read<Copy>>)
    ensures Files(t.instHist, SettleDone(t, g, buffers, rs).instHist)
    ensures forall r :: r in rs && Passed(g, r) && r.key.build != 0 && InOrderOfBuild(At(t.instHist, r.key.tlas, [])) ==>
      KeptOrNewer(At(SettleDone(t, g, buffers, rs).instHist, r.key.tlas, []), r.key.build)
  {
    hide Settle, Passed, KeptOrNewer, InOrderOfBuild;
    FilesNothing(t.instHist);
    if rs != [] {
      var n := |rs| - 1;
      var before, last := SettleDone(t, g, buffers, rs[..n]), rs[n];
      assert rs == rs[..n] + [last];
      SettleDoneFiles(t, g, buffers, rs[..n]);
      SettleFiles(before, last.key, At(buffers, last.id, []));
      var after := SettleDone(t, g, buffers, rs);
      assert Files(before.instHist, after.instHist) by { FilesNothing(before.instHist); }
      FilesMore(t.instHist, before.instHist, after.instHist);
    }
  }

  lemma {:induction false} BringFiles(t: Tracker, g: Gpu, buffers: map<nat, seq<Desc>>, a: Addr, build: nat, list: nat,
                                      depth: nat)
    requires depth <= MAX_DEPTH
    ensures Files(t.instHist, AsTracker.Bring(t, g, buffers, a, build, list, depth).1.instHist)
    decreases MAX_DEPTH - depth
  {
    hide BringRead, LearnCopy, Files;
    FilesNothing(t.instHist);
    BringReadFiles(t, g, buffers, a, build, list);
    if a in t.alias && depth < MAX_DEPTH {
      var al := t.alias[a];
      BringFiles(t, g, buffers, al.src, al.srcBuild, list, depth + 1);
      var t1 := AsTracker.Bring(t, g, buffers, al.src, al.srcBuild, list, depth + 1).1;
      if al.src in t1.tlas {
        CopyFiles(t1, a, build, al.src, al.srcBuild);
        FilesMore(t.instHist, t1.instHist, LearnCopy(t1, a, build, al.src, al.srcBuild).instHist);
      }
    }
  }

  lemma BringReadFiles(t: Tracker, g: Gpu, buffers: map<nat, seq<Desc>>, a: Addr, build: nat, list: nat)
    ensures Files(t.instHist, BringRead(t, g, buffers, a, build, list).1.instHist)
  {
    hide Learn, Passed, Files;
    FilesNothing(t.instHist);
    var at := FindRead(t.pending, a, build);
    if at.Some? {
      var r := t.pending[at.value];
      LearnFiles(t, r.key.tlas, r.key.build, r.key.asOf, At(buffers, r.id, []));
    }
  }

  lemma NoteCopyFiles(t: Tracker, dst: Addr, src: Addr, mode: CopyMode)
    ensures Files(t.instHist, NoteCopy(t, dst, src, mode).instHist)
  {
    hide CopyTop, CopyBottom, DeserializeInto, Files;
    FilesNothing(t.instHist);
    var same := mode == CloneOrCompact;
    assert CopyBottom(t, dst, src, same).instHist == t.instHist && DeserializeInto(t, dst).instHist == t.instHist by {
      SameFiles(t, dst, src, same);
    }
    CopyTopFiles(CopyBottom(t, dst, src, same), dst, src, same);
  }

  lemma SameFiles(t: Tracker, dst: Addr, src: Addr, same: bool)
    ensures CopyBottom(t, dst, src, same).instHist == t.instHist && DeserializeInto(t, dst).instHist == t.instHist
  {}

  lemma CopyTopFiles(t: Tracker, dst: Addr, src: Addr, same: bool)
    ensures Files(t.instHist, CopyTop(t, dst, src, same).instHist)
  {
    hide LearnCopy, Files;
    FilesNothing(t.instHist);
    var t1 := NextBuild(t.(alias := t.alias - {dst}), dst);
    var t2 := t1.(tlasAsSerial := t1.tlasAsSerial[dst := At(t1.tlasAsSerial, src, 0)]);
    if src in t2.tlas && src in t2.lastBuilt { CopyFiles(t2, dst, t2.lastBuilt[dst], src, t2.lastBuilt[src]); }
  }

  lemma DecodedFiles(t: Tracker, d: Deserialized, descs: seq<Desc>)
    ensures Files(t.instHist, DecodedTop(t, d.dst, d.blasSerial, d.tlasSerial, descs).instHist)
  {
    hide Learn, LearnOlder, Files;
    LearnFiles(EraseEntry(t, d.dst, d.blasSerial), d.dst, d.tlasSerial, At(t.tlasAsSerial, d.dst, 0), descs);
  }

  lemma ReadNowStepFiles(w: World, action: Action)
    requires Enabled(w, action) && action.ReadNow?
    ensures Files(w.t.instHist, Step(w, action).t.instHist)
  {
    hide Files, AsTracker.ReadNow;
    ReadNowFiles(w.t, action.a, w.truth[(action.a, w.t.lastBuilt[action.a])].descs);
  }

  lemma CopyStepFiles(w: World, action: Action)
    requires Enabled(w, action) && (action.CopyStructure? || action.DeserializeTop? || action.DeserializeOther?)
    ensures Files(w.t.instHist, Step(w, action).t.instHist)
  {
    hide Files, NoteCopy, LogAfterCopy, TruthAfterCopy, CopyRebuilds, PointsBelow, Append;
    if action.CopyStructure? {
      NoteCopyFiles(w.t, action.dst, action.src, action.mode);
    } else {
      NoteCopyFiles(w.t, action.dst, 0, Deserialize);
    }
  }

  lemma LeaveFiles(w: World, action: Action)
    requires Enabled(w, action) && action.Leave?
    ensures Files(w.t.instHist, Step(w, action).t.instHist)
  {
    hide Files, SettleDone, Signals, Readback.Leave, LeaveReads, AllSent;
    var w1 := Submitted(w, action.call, action.signalled);
    LeaveStepIs(w, action.call, action.signalled);
    SettleDoneFiles(w1.t, w1.gpu, w.buffers, w1.t.pending);
  }

  lemma BringStepFiles(w: World, action: Action)
    requires Enabled(w, action) && action.Bring?
    ensures Files(w.t.instHist, Step(w, action).t.instHist)
  {
    hide Files, AsTracker.Bring, AtSegment;
    var b := action.dispatch.builds[action.k];
    BringFiles(w.t, w.gpu, w.buffers, b.0, b.1, action.dispatch.owner, 0);
  }

  lemma StepFiles(w: World, action: Action)
    requires Enabled(w, action)
    ensures Files(w.t.instHist, Step(w, action).t.instHist)
  {
    hide Files, Step, Enabled;
    if action.ReadNow? {
      ReadNowStepFiles(w, action);
    } else if action.CopyStructure? || action.DeserializeTop? || action.DeserializeOther? {
      CopyStepFiles(w, action);
    } else if action.Decode? {
      DecodeStepFiles(w, action);
    } else if action.Leave? {
      LeaveFiles(w, action);
    } else if action.Bring? {
      BringStepFiles(w, action);
    } else {
      OtherStepFiles(w, action);
    }
  }

  lemma DecodeStepFiles(w: World, action: Action)
    requires Enabled(w, action) && action.Decode?
    ensures Files(w.t.instHist, Step(w, action).t.instHist)
  {
    hide Files, DecodedTop;
    DecodedFiles(w.t, action.d, action.descs);
  }

  lemma OtherStepFiles(w: World, action: Action)
    requires Enabled(w, action) && !action.ReadNow? && !action.CopyStructure? && !action.DeserializeTop?
    requires !action.DeserializeOther? && !action.Decode? && !action.Leave? && !action.Bring?
    ensures Files(w.t.instHist, Step(w, action).t.instHist)
  {
    hide Files, Readback.Exec, Readback.Enter, BuffersAfter, Open, DeferredNow, ByOthers, Drop, IsFloor, PointsBelow,
         KeepFrom, CanEnter;
    FilesNothing(w.t.instHist);
  }

  /**
   Over every run: of each structure at most eight builds' instances are kept, in order;
   and what was kept stays so until those of eight newer builds are.
   */
  lemma {:induction false} NewestEightStay(before: seq<Action>, rest: seq<Action>, a: Addr, build: nat)
    requires Runs(before + rest)
    ensures Runs(before) && InOrderOfBuild(At(After(before).t.instHist, a, []))
    ensures InOrderOfBuild(At(After(before + rest).t.instHist, a, []))
    ensures
      KeptOrNewer(At(After(before).t.instHist, a, []), build)
      ==> KeptOrNewer(At(After(before + rest).t.instHist, a, []), build)
    decreases |before + rest|, |rest|
  {
    hide Step, Enabled, InOrderOfBuild, KeptOrNewer, Files;
    if rest == [] {
      assert before + rest == before;
      KeptInOrder(before, a);
    } else {
      var n := |rest| - 1;
      var all, front := before + rest, before + rest[..n];
      assert all[..|all| - 1] == front;
      NewestEightStay(before, rest[..n], a, build);
      StepFiles(After(front), all[|all| - 1]);
      FilesIs(After(front).t.instHist, After(all).t.instHist, a, build);
    }
  }

  lemma {:induction false} KeptInOrder(actions: seq<Action>, a: Addr)
    requires Runs(actions)
    ensures InOrderOfBuild(At(After(actions).t.instHist, a, []))
  {
    hide Step, Enabled, Files;
    if actions != [] {
      var n := |actions| - 1;
      KeptInOrder(actions[..n], a);
      StepFiles(After(actions[..n]), actions[n]);
      FilesIs(After(actions[..n]).t.instHist, After(actions).t.instHist, a, 0);
    }
  }

  lemma FilesIs(m: map<Addr, seq<Kept>>, m': map<Addr, seq<Kept>>, a: Addr, build: nat)
    requires Files(m, m') && InOrderOfBuild(At(m, a, []))
    ensures InOrderOfBuild(At(m', a, []))
    ensures KeptOrNewer(At(m, a, []), build) ==> KeptOrNewer(At(m', a, []), build)
  {
    hide InOrderOfBuild, KeptOrNewer;
    assert FilesOne(At(m, a, []), At(m', a, []));
  }

  /** And every read the hook finds done is kept, or eight newer builds are. */
  lemma {:induction false} HookKeeps(actions: seq<Action>, call: nat, signalled: bool, r: Read<Copy>)
    requires Runs(actions) && Enabled(After(actions), Leave(call, signalled))
    requires r.key.build != 0
    requires
      var w1 := Submitted(After(actions), call, signalled);
      r in w1.t.pending && Passed(w1.gpu, r)
    ensures KeptOrNewer(At(Step(After(actions), Leave(call, signalled)).t.instHist, r.key.tlas, []), r.key.build)
  {
    hide Runs, After, SettleDone, Signals, Readback.Leave, LeaveReads, AllSent, Passed, InOrderOfBuild, KeptOrNewer, Files;
    var w := After(actions);
    KeptInOrder(actions, r.key.tlas);
    var w1 := Submitted(w, call, signalled);
    LeaveStepIs(w, call, signalled);
    SettleDoneFiles(w1.t, w1.gpu, w.buffers, w1.t.pending);
  }
}
