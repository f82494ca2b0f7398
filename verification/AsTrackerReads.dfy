/**
 What the tracker's state and its world keep when reads are parsed: late, out of
 order, on demand or through a chain of copies, while lists are recorded, submitted
 and executed.
 */
module AsTrackerReads {
  import opened GpuQueue
  import opened Readback
  import opened AsParse
  import opened AsTracker
  import opened AsTrackerWorld

  // --- reads ----------------------------------------------------------------------------

  lemma {:induction false} InsertFound(h: seq<Kept>, k: Kept, x: Kept)
    ensures x in Insert(h, k) <==> x in h || x == k
  {
    if h != [] {
      var n := |h| - 1;
      assert h == h[..n] + [h[n]];
      InsertFound(h[..n], k, x);
    }
  }

  /** What is remembered was, or is the new entry. */
  lemma RememberFound(m: map<Addr, seq<Kept>>, a: Addr, k: Kept, b: Addr, x: Kept)
    requires b in Remember(m, a, k) && x in Remember(m, a, k)[b]
    ensures (b in m && x in m[b]) || (b == a && x == k)
  {
    hide Insert;
    InsertFound(At(m, a, []), k, x);
  }

  lemma {:induction false} EntryFound(h: seq<Kept>, build: nat)
    ensures EntryOf(h, build).Some? ==> EntryOf(h, build).value in h && EntryOf(h, build).value.build == build
  {
    if h != [] { EntryFound(h[1..], build); }
  }

  lemma KeptNext(w: World, w': World, a: Addr, k: Kept)
    requires KeptAll(w) && KeptOk(w, a, k) && w'.log == w.log && w'.truth == w.truth && w'.late == w.late
    requires w'.t.instHist == Remember(w.t.instHist, a, k)
    ensures KeptAll(w')
  {
    hide Remember, Seen, RowsOf;
    forall b, x | b in w'.t.instHist && x in w'.t.instHist[b] ensures KeptOk(w', b, x) {
      RememberFound(w.t.instHist, a, k, b, x);
      assert KeptOk(w, b, x);
    }
  }

  /** A copy's entry is its source's. */
  lemma KeptCopy(w: World, w': World, a: Addr, build: nat, src: Addr, srcBuild: nat)
    requires KeptAll(w) && w'.log == w.log && w'.truth == w.truth && w'.late == w.late
    requires (src, srcBuild) in w.truth && (a, build) in w.truth && w.truth[(a, build)] == w.truth[(src, srcBuild)]
    requires w'.t.instHist == RememberCopy(w.t.instHist, a, build, src, srcBuild)
    ensures KeptAll(w')
  {
    hide Remember, Seen, RowsOf, EntryOf;
    EntryFound(At(w.t.instHist, src, []), srcBuild);
    match EntryOf(At(w.t.instHist, src, []), srcBuild)
    case None =>
      forall b, x | b in w'.t.instHist && x in w'.t.instHist[b] ensures KeptOk(w', b, x) {
        assert KeptOk(w, b, x);
      }
    case Some(k) =>
      assert KeptOk(w, src, k);
      assert KeptOk(w, a, k.(build := build));
      KeptNext(w, w', a, k.(build := build));
  }

  /** Only what is known changed, and some reads are done. */
  ghost predicate Learns(w: World, w': World) {
    && w' == w.(t := w.t.(tlas := w'.t.tlas, readOf := w'.t.readOf, instHist := w'.t.instHist,
                          pending := w'.t.pending))
    && (forall r :: r in w'.t.pending ==> r in w.t.pending)
  }

  /** Nothing it could know of the latest build, where that was not noted yet. */
  ghost predicate NotLatest(w: World, a: Addr) {
    a in w.t.readOf && a in w.t.lastBuilt ==> w.t.readOf[a] != w.t.lastBuilt[a]
  }

  // What a part of the invariant says is about the tables it names, and no others.

  lemma PendingStay(w: World, w': World)
    requires PendingAll(w) && w'.t.hist == w.t.hist && w'.log == w.log && w'.truth == w.truth && w'.copies == w.copies
    requires forall r :: r in w'.t.pending ==> r in w.t.pending
    ensures PendingAll(w')
  {
    hide Answered;
    forall r | r in w'.t.pending ensures PendingOk(w', r) { assert PendingOk(w, r); }
  }

  lemma AliasStay(w: World, w': World)
    requires AliasAll(w) && w'.t.alias == w.t.alias && w'.truth == w.truth && w'.t.tlasSerial == w.t.tlasSerial
    ensures AliasAll(w')
  {
    forall a ensures AliasOk(w', a) { assert AliasOk(w, a); }
  }

  lemma NotingStay(w: World, w': World)
    requires NotingAll(w) && w'.noting == w.noting && w'.truth == w.truth && w'.log == w.log
    requires w'.t.hist == w.t.hist && w'.t.lastBuilt == w.t.lastBuilt && w'.t.tlasAsSerial == w.t.tlasAsSerial
    requires w'.t.alias == w.t.alias && forall r :: r in w'.t.pending ==> r in w.t.pending
    requires forall a :: a in w.noting ==> NotLatest(w', a)
    ensures NotingAll(w')
  {
    hide Answered;
    forall a | a in w'.noting ensures NotingOk(w', a) { assert NotingOk(w, a) && NotLatest(w', a); }
  }

  /** The same copy, whatever its stamp. */
  ghost predicate SamePlace(w: World, r': Read<Copy>) {
    exists r :: r in w.t.pending && r.key == r'.key && r.owner == r'.owner && r.recording == r'.recording
             && r.segment == r'.segment
  }

  ghost predicate FewerReads(w: World, w': World) {
    forall r :: r in w'.t.pending ==> SamePlace(w, r)
  }

  /** Builds noted by the calls that made them; nothing else about who is to note what. */
  ghost predicate NotesByCalls(noting: map<Addr, Noter>, noting': map<Addr, Noter>) {
    && (forall a :: a in noting' ==> a in noting && noting'[a] == noting[a])
    && (forall a :: a in noting && noting[a] == ByDecode ==> a in noting')
  }

  lemma DeferredStay(w: World, w': World)
    requires DeferredAll(w) && FewerReads(w, w') && w'.deferred == w.deferred
    requires w'.t.lastBuilt == w.t.lastBuilt && w'.t.tlasSerial == w.t.tlasSerial
    requires NotesByCalls(w.noting, w'.noting) && w'.gpu.lists == w.gpu.lists
    ensures DeferredAll(w')
  {
    forall d | d in w'.deferred ensures DeferredOk(w', d) {
      assert DeferredOk(w, d);
      forall r | r in w'.t.pending && r.owner == d.owner && r.recording == d.recording && r.key.build <= d.at
        ensures r.segment <= d.segment
      {
        assert SamePlace(w, r);
      }
    }
  }

  lemma RecordsStay(w: World, w': World)
    requires RecordsOk(w) && FewerReads(w, w') && NotesByCalls(w.noting, w'.noting)
    requires w'.log == w.log && w'.truth == w.truth && w'.tops == w.tops
    requires w'.decodes == w.decodes && w'.deferred == w.deferred && w'.gpu.lists == w.gpu.lists
    requires w'.t.lastBuilt == w.t.lastBuilt && w'.t.tlasSerial == w.t.tlasSerial
    ensures RecordsOk(w')
  {
    DeferredStay(w, w');
    hide DeferredAll, PointsBelow, FewerReads;
    forall d | d in w'.decodes ensures DecodeOk(w', d) { assert DecodeOk(w, d); }
  }

  lemma FewerIs(w: World, w': World)
    requires forall r :: r in w'.t.pending ==> r in w.t.pending
    ensures FewerReads(w, w')
  {
    forall r | r in w'.t.pending ensures SamePlace(w, r) { assert r in w.t.pending; }
  }

  lemma LearnsKeeps(w: World, w': World)
    requires Inv(w) && Learns(w, w') && KnownAll(w') && KeptAll(w')
    requires forall a :: a in w.noting ==> NotLatest(w', a)
    ensures Inv(w')
  {
    PendingStay(w, w');
    AliasStay(w, w');
    NotingStay(w, w');
    BuffersStay(w, w');
    FewerIs(w, w');
    RecordsStay(w, w');
    hide PendingAll, KnownAll, KeptAll, AliasAll, NotingAll, BuffersOk, LogAt, ReadOk, GpuOk, NotLatest, RecordsOk;
  }

  lemma BuffersStay(w: World, w': World)
    requires BuffersOk(w) && w'.copies == w.copies && w'.buffers == w.buffers && w'.gpu == w.gpu
    requires w'.truth == w.truth && w'.next == w.next
    ensures BuffersOk(w')
  {
    forall id | id in w'.copies ensures BufferOk(w', id) { BufferStays(w, w', id); }
  }

  lemma BufferStays(w: World, w': World, id: nat)
    requires id in w.copies && BufferOk(w, id)
    requires w'.copies == w.copies && w'.buffers == w.buffers && w'.gpu == w.gpu && w'.truth == w.truth
    ensures BufferOk(w', id)
  {}

  /** Reading a build's own instances. */
  lemma LearnKeeps(w: World, a: Addr, build: nat, asOf: nat, descs: seq<Desc>)
    requires Inv(w) && (a, build) in w.truth && descs == w.truth[(a, build)].descs
    requires descs == [] || asOf == w.truth[(a, build)].asOf
    requires ParseAt(w.t, descs, asOf) == Parse(Seen(w.log, w.truth[(a, build)]))
    requires a in w.noting && a in w.t.lastBuilt ==> build != w.t.lastBuilt[a]
    ensures Inv(w.(t := Learn(w.t, a, build, asOf, descs)))
  {
    var w', info := w.(t := Learn(w.t, a, build, asOf, descs)), ParseAt(w.t, descs, asOf);
    hide BuildsInOrder, TruthOk, LogsOk, PendingAll, AliasAll, AllOk, BuffersOk, RecordsOk, Remember, ParseAt, Seen;
    assert KeptOk(w, a, Kept(build, asOf, descs, info.rows));
    KeptNext(w, w', a, Kept(build, asOf, descs, info.rows));
    forall b ensures KnownOk(w', b) { assert KnownOk(w, b); }
    forall b | b in w.noting ensures NotLatest(w', b) { assert NotingOk(w, b); }
    hide KnownAll, KeptAll, NotingAll, Parse;
    LearnsKeeps(w, w');
  }

  /** One more entry among the kept, and nothing else. */
  lemma FiledKeeps(w: World, a: Addr, k: Kept)
    requires Inv(w) && KeptOk(w, a, k)
    ensures Inv(w.(t := w.t.(instHist := Remember(w.t.instHist, a, k))))
  {
    var w' := w.(t := w.t.(instHist := Remember(w.t.instHist, a, k)));
    hide BuildsInOrder, TruthOk, LogsOk, PendingAll, AliasAll, AllOk, BuffersOk, RecordsOk, Remember, Seen;
    KeptNext(w, w', a, k);
    forall b ensures KnownOk(w', b) { assert KnownOk(w, b); }
    forall b | b in w.noting ensures NotLatest(w', b) { assert NotingOk(w, b); }
    hide KnownAll, KeptAll, NotingAll, Parse;
    LearnsKeeps(w, w');
  }

  lemma LearnOlderKeeps(w: World, a: Addr, build: nat, asOf: nat, descs: seq<Desc>)
    requires Inv(w) && (a, build) in w.truth && descs == w.truth[(a, build)].descs
    requires descs == [] || asOf == w.truth[(a, build)].asOf
    requires ParseAt(w.t, descs, asOf) == Parse(Seen(w.log, w.truth[(a, build)]))
    ensures Inv(w.(t := LearnOlder(w.t, a, build, asOf, descs)))
  {
    hide Inv, Remember, ParseAt, Seen;
    var k := Kept(build, asOf, descs, ParseAt(w.t, descs, asOf).rows);
    assert KeptOk(w, a, k);
    hide KeptOk;
    FiledKeeps(w, a, k);
  }

  /** Reading a copy's instances off its source. */
  lemma LearnCopyKeeps(w: World, a: Addr, build: nat, src: Addr, srcBuild: nat)
    requires Inv(w) && src in w.t.readOf && w.t.readOf[src] == srcBuild && src in w.t.tlas
    requires (src, srcBuild) in w.truth && (a, build) in w.truth && w.truth[(a, build)] == w.truth[(src, srcBuild)]
    requires a in w.noting && a in w.t.lastBuilt ==> build != w.t.lastBuilt[a]
    ensures Inv(w.(t := LearnCopy(w.t, a, build, src, srcBuild)))
  {
    var w' := w.(t := LearnCopy(w.t, a, build, src, srcBuild));
    hide BuildsInOrder, TruthOk, LogsOk, PendingAll, AliasAll, AllOk, BuffersOk, RecordsOk, RememberCopy, Seen, Parse;
    KeptCopy(w, w', a, build, src, srcBuild);
    assert KnownOk(w, src);
    forall b ensures KnownOk(w', b) { assert KnownOk(w, b); }
    forall b | b in w.noting ensures NotLatest(w', b) { assert NotingOk(w, b); }
    hide KnownAll, KeptAll, NotingAll;
    LearnsKeeps(w, w');
  }

  /** Fewer reads. */
  lemma FewerKeeps(w: World, pending: seq<Read<Copy>>)
    requires Inv(w) && forall r :: r in pending ==> r in w.t.pending
    ensures
      var w' := w.(t := w.t.(pending := pending));
      Inv(w') && Learns(w, w')
  {
    var w' := w.(t := w.t.(pending := pending));
    forall b ensures KnownOk(w', b) { assert KnownOk(w, b); }
    forall b, k | b in w'.t.instHist && k in w'.t.instHist[b] ensures KeptOk(w', b, k) { assert KeptOk(w, b, k); }
    forall b | b in w.noting ensures NotLatest(w', b) { assert NotingOk(w, b); }
    hide KnownAll, KeptAll, NotingAll, BuildsInOrder, TruthOk, LogsOk, PendingAll, AliasAll, AllOk, BuffersOk, RecordsOk;
    LearnsKeeps(w, w');
  }

  // --- reads that are done --------------------------------------------------------------------

  /** What a read that has run holds, parsed as of its own question, is its build. */
  lemma RanReadIsTrue(w: World, r: Read<Copy>)
    requires Inv(w) && PendingOk(w, r) && HasRun(w.gpu, r.id)
    ensures
      var tr := w.truth[(r.key.tlas, r.key.build)];
      && At(w.buffers, r.id, []) == tr.descs
      && ParseAt(w.t, tr.descs, r.key.asOf) == Parse(Seen(w.log, tr))
  {
    assert BufferOk(w, r.id);
    ParseIsTrue(w.t, w.log, w.truth[(r.key.tlas, r.key.build)]);
  }

  /** The same read in a state that has learnt more. */
  lemma RanReadStays(w: World, w': World, r: Read<Copy>)
    requires Learns(w, w') && PendingOk(w, r)
    ensures PendingOk(w', r)
  {
    hide Answered;
  }

  lemma PendingIs(w: World, r: Read<Copy>)
    requires Inv(w) && r in w.t.pending
    ensures PendingOk(w, r) && ReadOk(w.gpu, r) && GpuOk(w.gpu)
  {}

  lemma NotLatestOf(w: World, r: Read<Copy>)
    requires Inv(w) && r in w.t.pending
    ensures r.key.tlas in w.noting && r.key.tlas in w.t.lastBuilt ==> r.key.build != w.t.lastBuilt[r.key.tlas]
  {
    if r.key.tlas in w.noting { assert NotingOk(w, r.key.tlas); }
  }

  /** One read settled; `w` is where the loop started. */
  lemma SettleKeeps(w: World, w1: World, r: Read<Copy>)
    requires Inv(w) && Inv(w1) && Learns(w, w1) && r in w.t.pending && HasRun(w.gpu, r.id)
    ensures
      var w2 := w1.(t := Settle(w1.t, r.key, At(w.buffers, r.id, [])));
      Inv(w2) && Learns(w, w2)
  {
    SettleTrue(w, w1, r);
    SettleLearns(w1, r.key, At(w.buffers, r.id, []));
    LearnsMore(w, w1, w1.(t := Settle(w1.t, r.key, At(w.buffers, r.id, []))));
    hide Inv, Parse, Seen, Learn, LearnOlder, HasRun, ParseAt, Learns;
    if r.key.tlas !in w1.t.readOf || w1.t.readOf[r.key.tlas] <= r.key.build {
      LearnKeeps(w1, r.key.tlas, r.key.build, r.key.asOf, At(w.buffers, r.id, []));
    } else {
      LearnOlderKeeps(w1, r.key.tlas, r.key.build, r.key.asOf, At(w.buffers, r.id, []));
    }
  }

  /** What it holds is its build, in the state reached meanwhile too. */
  lemma SettleTrue(w: World, w1: World, r: Read<Copy>)
    requires Inv(w) && Inv(w1) && Learns(w, w1) && r in w.t.pending && HasRun(w.gpu, r.id)
    ensures
      var b, descs := (r.key.tlas, r.key.build), At(w.buffers, r.id, []);
      && b in w1.truth && descs == w1.truth[b].descs && r.key.asOf == w1.truth[b].asOf
      && ParseAt(w1.t, descs, r.key.asOf) == Parse(Seen(w1.log, w1.truth[b]))
      && (r.key.tlas in w1.noting && r.key.tlas in w1.t.lastBuilt ==> r.key.build != w1.t.lastBuilt[r.key.tlas])
  {
    hide Inv, Parse, Seen, HasRun, Answered, ReadOk, ParseAt;
    PendingIs(w, r);
    RanReadStays(w, w1, r);
    RanReadIsTrue(w1, r);
    NotLatestOf(w, r);
  }

  lemma SettleLearns(w: World, k: Copy, descs: seq<Desc>)
    ensures Learns(w, w.(t := Settle(w.t, k, descs)))
  {
    hide ParseAt, Remember;
  }

  /** One read that is not done goes back into the list. */
  lemma StillKeeps(w: World, w1: World, r: Read<Copy>)
    requires Inv(w) && Inv(w1) && Learns(w, w1) && r in w.t.pending
    ensures
      var w2 := w1.(t := w1.t.(pending := w1.t.pending + [r]));
      Inv(w2) && Learns(w, w2)
  {
    var w2 := w1.(t := w1.t.(pending := w1.t.pending + [r]));
    assert KnownAll(w2) by { forall a ensures KnownOk(w2, a) { assert KnownOk(w1, a); } }
    assert KeptAll(w2) by {
      forall a, k | a in w2.t.instHist && k in w2.t.instHist[a] ensures KeptOk(w2, a, k) {
        assert KeptOk(w1, a, k);
      }
    }
    forall a | a in w.noting ensures NotLatest(w2, a) { assert NotingOk(w1, a); }
    hide Inv, KnownAll, KeptAll;
    LearnsKeeps(w, w2);
  }

  /** The second loop of `AfterSubmit`, over the first `n` reads. */
  lemma {:induction false} SettleDoneKeeps(w: World, n: nat)
    requires Inv(w) && n <= |w.t.pending|
    ensures
      var w' := w.(t := SettleDone(w.t, w.gpu, w.buffers, w.t.pending[..n]));
      Inv(w') && Learns(w, w')
  {
    hide Inv, Settle, ReadOk, PendingOk;
    if n == 0 {
      FewerKeeps(w, []);
    } else {
      var rs, r := w.t.pending[..n], w.t.pending[n - 1];
      assert rs[..n - 1] == w.t.pending[..n - 1] && rs[n - 1] == r && r in w.t.pending;
      SettleDoneKeeps(w, n - 1);
      var w1 := w.(t := SettleDone(w.t, w.gpu, w.buffers, w.t.pending[..n - 1]));
      if Passed(w.gpu, r) {
        PendingIs(w, r);
        PassedHasRun(w.gpu, r);
        SettleKeeps(w, w1, r);
      } else {
        StillKeeps(w, w1, r);
      }
    }
  }

  /** What a step of the queues may do: more work, nothing executed. */
  ghost predicate Quiet(g: Gpu, g': Gpu) {
    forall q :: q in g'.queues ==> QueueQuiet(g, g', q)
  }

  ghost predicate QueueQuiet(g: Gpu, g': Gpu, q: nat)
    requires q in g'.queues
  {
    g'.queues[q].done == 0 ||
    (q in g.queues && g'.queues[q].done == g.queues[q].done && g.queues[q].done <= |g.queues[q].items|
     && g.queues[q].items <= g'.queues[q].items)
  }

  lemma QuietHasRun(g: Gpu, g': Gpu, id: nat)
    requires Quiet(g, g') && HasRun(g', id)
    ensures HasRun(g, id)
  {
    var q :| q in g'.queues && HasRunOn(g'.queues[q], id);
    var i :| i < g'.queues[q].done && RunAt(g'.queues[q], id, i);
    assert QueueQuiet(g, g', q);
    assert RunAt(g.queues[q], id, i);
    assert HasRunOn(g.queues[q], id);
  }

  /** Every copy a queue was given is one that was recorded. */
  ghost predicate Recorded(g: Gpu, copies: map<nat, Build>) {
    forall q, i, id :: q in g.queues && RunAt(g.queues[q], id, i) ==> id in copies
  }

  lemma QuietBuffers(w: World, w': World)
    requires BuffersOk(w) && Quiet(w.gpu, w'.gpu) && Recorded(w'.gpu, w.copies)
    requires w'.copies == w.copies && w'.buffers == w.buffers && w'.truth == w.truth && w'.next == w.next
    ensures BuffersOk(w')
  {
    hide HasRun, Quiet;
    forall id | id in w'.copies ensures BufferOk(w', id) {
      assert BufferOk(w, id);
      if HasRun(w'.gpu, id) { QuietHasRun(w.gpu, w'.gpu, id); }
    }
  }

  /** The same reads, stamped or not. */
  ghost predicate Restamped(was: seq<Read<Copy>>, now: seq<Read<Copy>>) {
    && |now| == |was|
    && forall i :: 0 <= i < |was| ==>
         && now[i].key == was[i].key && now[i].id == was[i].id && now[i].owner == was[i].owner
         && now[i].recording == was[i].recording && now[i].segment == was[i].segment
  }

  lemma RestampedFewer(w: World, w': World)
    requires Restamped(w.t.pending, w'.t.pending)
    ensures FewerReads(w, w')
  {
    forall r | r in w'.t.pending ensures SamePlace(w, r) {
      var i :| 0 <= i < |w'.t.pending| && w'.t.pending[i] == r;
      assert w.t.pending[i] in w.t.pending;
    }
  }

  /** A step that changes queues, buffers and the stamps of the reads. */
  lemma StampKeeps(w: World, w': World)
    requires Inv(w) && BuffersOk(w') && AllOk(w'.gpu, w'.t.pending)
    requires w' == w.(gpu := w'.gpu, buffers := w'.buffers, t := w.t.(pending := w'.t.pending))
    requires w'.gpu.lists == w.gpu.lists
    requires Restamped(w.t.pending, w'.t.pending)
    ensures Inv(w')
  {
    assert PendingAll(w') by { StampsStay(w, w'); }
    AliasStay(w, w');
    assert NotingAll(w') by { NotingStamps(w, w'); }
    assert KnownAll(w') && KeptAll(w') by { KnownStay(w, w'); }
    RestampedFewer(w, w');
    RecordsStay(w, w');
    hide PendingAll, KnownAll, KeptAll, AliasAll, NotingAll, BuffersOk, AllOk, LogAt, RecordsOk;
    assert BuildsInOrder(w'.t) && TruthOk(w') && LogsOk(w');
  }

  /** A step of the queues alone, but for the stamps. */
  lemma QuietKeeps(w: World, w': World)
    requires Inv(w) && Quiet(w.gpu, w'.gpu) && Recorded(w'.gpu, w.copies)
    requires w' == w.(gpu := w'.gpu, t := w.t.(pending := w'.t.pending)) && w'.gpu.lists == w.gpu.lists
    requires AllOk(w'.gpu, w'.t.pending)
    requires Restamped(w.t.pending, w'.t.pending)
    ensures Inv(w')
  {
    QuietBuffers(w, w');
    hide Inv, BuffersOk, Quiet, Recorded, AllOk;
    StampKeeps(w, w');
  }

  lemma StampsStay(w: World, w': World)
    requires PendingAll(w) && w'.t.hist == w.t.hist && w'.log == w.log && w'.truth == w.truth && w'.copies == w.copies
    requires Restamped(w.t.pending, w'.t.pending)
    ensures PendingAll(w')
  {
    hide Answered;
    forall r | r in w'.t.pending ensures PendingOk(w', r) {
      var i :| 0 <= i < |w'.t.pending| && w'.t.pending[i] == r;
      assert PendingOk(w, w.t.pending[i]);
    }
  }

  lemma NotingStamps(w: World, w': World)
    requires NotingAll(w) && w'.noting == w.noting && w'.truth == w.truth && w'.log == w.log
    requires w'.t == w.t.(pending := w'.t.pending) && Restamped(w.t.pending, w'.t.pending)
    ensures NotingAll(w')
  {
    hide Answered;
    forall a | a in w'.noting ensures NotingOk(w', a) {
      assert NotingOk(w, a);
      forall r | r in w'.t.pending && r.key.tlas == a ensures r.key.build != w'.t.lastBuilt[a] {
        var i :| 0 <= i < |w'.t.pending| && w'.t.pending[i] == r;
        assert w.t.pending[i] in w.t.pending;
      }
    }
  }

  lemma TruthStays(w: World, w': World)
    requires TruthOk(w) && w'.truth == w.truth
    requires w'.t.lastBuilt == w.t.lastBuilt && w'.t.tlasAsSerial == w.t.tlasAsSerial
    requires w'.t.asSerial == w.t.asSerial && w'.t.tlasSerial == w.t.tlasSerial
    ensures TruthOk(w')
  {}

  lemma LogsStay(w: World, w': World)
    requires LogsOk(w) && w'.t.hist == w.t.hist && w'.log == w.log && w'.tops == w.tops
    requires w'.t.asSerial == w.t.asSerial
    ensures LogsOk(w')
  {
    hide LogAt;
    forall a ensures LogAt(w'.t.asSerial, w'.tops, a, At(w'.t.hist, a, []), At(w'.log, a, [])) {
      assert LogAt(w.t.asSerial, w.tops, a, At(w.t.hist, a, []), At(w.log, a, []));
    }
  }

  lemma KnownStay(w: World, w': World)
    requires KnownAll(w) && KeptAll(w) && w'.log == w.log && w'.truth == w.truth && w.late <= w'.late
    requires w'.t.tlas == w.t.tlas && w'.t.readOf == w.t.readOf && w'.t.instHist == w.t.instHist
    ensures KnownAll(w') && KeptAll(w')
  {
    hide Parse, Seen, RowsOf;
    forall a ensures KnownOk(w', a) { assert KnownOk(w, a); }
    forall a, k | a in w'.t.instHist && k in w'.t.instHist[a] ensures KeptOk(w', a, k) { assert KeptOk(w, a, k); }
  }

  // --- every step keeps the invariant -----------------------------------------------------------

  lemma GpuStepKeeps(w: World, action: Action)
    requires Inv(w) && Enabled(w, action)
    requires action.Enter? || action.Wait? || action.NewQueue?
    ensures Inv(Step(w, action))
  {
    hide Inv, Recorded, Quiet, ReadOk;
    InvReads(w);
    match action {
      case Enter(c, queue, owners) => EnterKeeps(w.gpu, c, queue, owners, w.t.pending);
      case Wait(c, owner) => WaitKeeps(w.gpu, c, owner, w.t.pending);
      case NewQueue(queue) => NewQueueKeeps(w.gpu, queue, w.t.pending);
    }
    SameQueuesQuiet(w.gpu, Step(w, action).gpu, w.copies);
    QuietKeeps(w, Step(w, action));
  }

  /** The same queues, or a new one with nothing in it. */
  lemma SameQueuesQuiet(g: Gpu, g': Gpu, copies: map<nat, Build>)
    requires GpuOk(g) && Recorded(g, copies)
    requires forall q :: q in g'.queues ==>
      (q in g.queues && g'.queues[q] == g.queues[q]) || g'.queues[q] == Queue([], 0)
    ensures Quiet(g, g') && Recorded(g', copies)
  {
    forall q, i, id | q in g'.queues && RunAt(g'.queues[q], id, i) ensures id in copies {
      assert RunAt(g.queues[q], id, i);
    }
  }

  lemma InvReads(w: World)
    requires Inv(w)
    ensures AllOk(w.gpu, w.t.pending) && Recorded(w.gpu, w.copies)
  {}

  lemma ExecRecorded(w: World, c: nat, owner: nat)
    requires Inv(w) && c in w.gpu.calls && owner in w.gpu.calls[c].lists && w.gpu.calls[c].queue in w.gpu.queues
    ensures
      var g' := Readback.Exec(w.gpu, w.t.pending, c, owner);
      Quiet(w.gpu, g') && Recorded(g', w.copies)
  {
    var g', queue := Readback.Exec(w.gpu, w.t.pending, c, owner), w.gpu.calls[c].queue;
    assert GpuOk(w.gpu);
    forall q, i, id | q in g'.queues && RunAt(g'.queues[q], id, i) ensures id in w.copies {
      if i < |w.gpu.queues[q].items| {
        assert RunAt(w.gpu.queues[q], id, i);
      } else {
        var r :| r in w.t.pending && r.id == id;
        assert PendingOk(w, r);
      }
    }
  }

  lemma ExecStepKeeps(w: World, action: Action)
    requires Inv(w) && Enabled(w, action) && action.Exec?
    ensures Inv(Step(w, action))
  {
    hide Inv, Quiet, Recorded, ReadOk;
    ExecRecorded(w, action.call, action.owner);
    InvReads(w);
    ExecKeeps(w.gpu, w.t.pending, action.call, action.owner);
    QuietKeeps(w, Step(w, action));
  }

  /** The GPU executes one item, and the copies in it fill their buffers. */
  lemma WorkStepKeeps(w: World, action: Action)
    requires Inv(w) && Enabled(w, action) && action.Work?
    ensures Inv(Step(w, action))
  {
    hide Inv, ReadOk, BuffersOk, BuffersAfter;
    InvReads(w);
    WorkKeeps(w.gpu, action.queue, w.t.pending);
    WorkBuffers(w, action.queue);
    StampKeeps(w, Step(w, action));
  }

  lemma WorkBuffers(w: World, queue: nat)
    requires Inv(w) && queue in w.gpu.queues
    ensures BuffersOk(w.(gpu := Readback.Work(w.gpu, queue), buffers := BuffersAfter(w, queue)))
  {
    var w' := w.(gpu := Readback.Work(w.gpu, queue), buffers := BuffersAfter(w, queue));
    forall id | id in w'.copies ensures BufferOk(w', id) {
      assert BufferOk(w, id);
      assert w'.buffers[id] == Copied(w, queue, id);
      if HasRun(w'.gpu, id) { WorkRuns(w.gpu, queue, id); }
    }
    forall q, i, id | q in w'.gpu.queues && RunAt(w'.gpu.queues[q], id, i) ensures id in w'.copies {
      assert RunAt(w.gpu.queues[q], id, i);
    }
  }

  /** What has run after one more item ran before, or is in that item. */
  lemma WorkRuns(g: Gpu, queue: nat, id: nat)
    requires GpuOk(g) && queue in g.queues && HasRun(Readback.Work(g, queue), id)
    ensures HasRun(g, id) || RunsNow(g, queue, id)
  {
    var g' := Readback.Work(g, queue);
    var q :| q in g'.queues && HasRunOn(g'.queues[q], id);
    var i :| i < g'.queues[q].done && RunAt(g'.queues[q], id, i);
    assert RunAt(g.queues[q], id, i);
    if i < g.queues[q].done { assert HasRunOn(g.queues[q], id); }
  }

  // --- lists being recorded -----------------------------------------------------------------------

  /** Some list closed a segment or was reset. */
  lemma ListsChange(w: World, w': World)
    requires Inv(w) && AllOk(w'.gpu, w'.t.pending) && RecordsOk(w')
    requires w' == w.(gpu := w.gpu.(lists := w'.gpu.lists), t := w.t.(pending := w'.t.pending))
    requires forall r :: r in w'.t.pending ==> r in w.t.pending
    ensures Inv(w')
  {
    PendingStay(w, w');
    AliasStay(w, w');
    KnownStay(w, w');
    BuffersOfQueues(w, w');
    assert NotingAll(w') by {
      hide Answered;
      forall a | a in w'.noting ensures NotingOk(w', a) { assert NotingOk(w, a); }
    }
    hide PendingAll, KnownAll, KeptAll, AliasAll, NotingAll, BuffersOk, AllOk, LogAt, RecordsOk;
    assert BuildsInOrder(w'.t) && TruthOk(w') && LogsOk(w');
  }

  lemma BuffersOfQueues(w: World, w': World)
    requires BuffersOk(w) && w'.gpu.queues == w.gpu.queues
    requires w'.copies == w.copies && w'.buffers == w.buffers && w'.truth == w.truth && w'.next == w.next
    ensures BuffersOk(w')
  {
    forall id | id in w'.copies ensures BufferOk(w', id) {
      assert BufferOk(w, id) && (HasRun(w'.gpu, id) ==> HasRun(w.gpu, id));
    }
  }

  lemma ResetDeferred(w: World, w': World, owner: nat)
    requires RecordsOk(w) && w' == w.(gpu := Readback.Reset(w.gpu, owner), t := w.t.(pending := w'.t.pending))
    requires forall r :: r in w'.t.pending ==> r in w.t.pending
    ensures RecordsOk(w')
  {
    hide PointsBelow;
    forall d | d in w'.deferred ensures DeferredOk(w', d) { assert DeferredOk(w, d); }
    forall d | d in w'.decodes ensures DecodeOk(w', d) { assert DecodeOk(w, d); }
  }

  lemma CloseDeferred(w: World, owner: nat)
    requires RecordsOk(w)
    ensures RecordsOk(w.(gpu := Readback.CloseSegment(w.gpu, owner)))
  {
    hide PointsBelow;
    var w' := w.(gpu := Readback.CloseSegment(w.gpu, owner));
    forall d | d in w'.deferred ensures DeferredOk(w', d) { assert DeferredOk(w, d); }
    forall d | d in w'.decodes ensures DecodeOk(w', d) { assert DecodeOk(w, d); }
  }

  lemma InvRecords(w: World)
    requires Inv(w)
    ensures RecordsOk(w)
  {}

  lemma ResetStepKeeps(w: World, action: Action)
    requires Inv(w) && Enabled(w, action) && action.ResetList?
    ensures Inv(Step(w, action))
  {
    hide Inv, ReadOk, InBuild, RecordsOk;
    InvReads(w);
    InvRecords(w);
    forall r | r in Drop(w.t.pending, action.owner) ensures r in w.t.pending {
      DropFound(w.t.pending, action.owner, r);
    }
    ResetKeeps(w.gpu, action.owner, w.t.pending);
    ResetDeferred(w, Step(w, action), action.owner);
    ListsChange(w, Step(w, action));
  }

  lemma CloseStepKeeps(w: World, action: Action)
    requires Inv(w) && Enabled(w, action) && action.CloseSegment?
    ensures Inv(Step(w, action))
  {
    hide Inv, ReadOk, InBuild, RecordsOk;
    InvReads(w);
    InvRecords(w);
    CloseKeeps(w.gpu, action.owner, w.t.pending);
    CloseDeferred(w, action.owner);
    ListsChange(w, Step(w, action));
  }

  /** Of a list's copies, those of builds a dispatch on it may ask for are not in later segments. */
  lemma ReadsInSegment(w: World, owner: nat)
    requires AllOk(w.gpu, w.t.pending)
    ensures forall r :: r in w.t.pending && r.owner == owner && r.recording == ListOf(w.gpu, owner).recording ==>
      r.segment <= ListOf(w.gpu, owner).segment
  {
    forall r | r in w.t.pending && r.owner == owner && r.recording == ListOf(w.gpu, owner).recording
      ensures r.segment <= ListOf(w.gpu, owner).segment
    {
      assert ReadOk(w.gpu, r);
    }
  }

  lemma NewDeferredOk(w: World, owner: nat, scenes: seq<Addr>)
    requires BuildsInOrder(w.t) && AllOk(w.gpu, w.t.pending) && !InBuild(w, owner)
    requires forall a :: a in scenes ==> a in w.t.lastBuilt
    ensures DeferredOk(w, DeferredNow(w, owner, scenes))
  {
    ReadsInSegment(w, owner);
    hide AllOk;
    var d := DeferredNow(w, owner, scenes);
    forall b | b in d.builds ensures b.1 <= d.at {
      var k :| 0 <= k < |d.builds| && d.builds[k] == b;
      assert scenes[k] in scenes && InOrder(w.t, scenes[k]);
    }
  }

  lemma DeferStepKeeps(w: World, action: Action)
    requires Inv(w) && Enabled(w, action) && action.Defer?
    ensures Inv(Step(w, action))
  {
    var w' := Step(w, action);
    NewDeferredOk(w, action.owner, action.scenes);
    assert w' == w.(deferred := w.deferred + {DeferredNow(w, action.owner, action.scenes)});
    InvRecords(w);
    hide DeferredNow, DeferredOk, RecordsOk, Inv, Step, Enabled;
    MoreDeferred(w, w');
    OnlyDeferred(w, w');
  }

  lemma OnlyDeferred(w: World, w': World)
    requires Inv(w) && w' == w.(deferred := w'.deferred) && RecordsOk(w')
    ensures Inv(w')
  {
    PendingStay(w, w');
    AliasStay(w, w');
    KnownStay(w, w');
    BuffersStay(w, w');
    forall a | a in w.noting ensures NotLatest(w', a) { assert NotingOk(w, a); }
    NotingStay(w, w');
    hide PendingAll, KnownAll, KeptAll, AliasAll, NotingAll, BuffersOk, AllOk, LogAt, RecordsOk;
    assert BuildsInOrder(w'.t) && TruthOk(w') && LogsOk(w');
  }

  lemma MoreDeferred(w: World, w': World)
    requires RecordsOk(w) && w' == w.(deferred := w'.deferred)
    requires forall d :: d in w'.deferred ==> d in w.deferred || DeferredOk(w, d)
    ensures RecordsOk(w')
  {
    hide PointsBelow;
    forall d | d in w'.deferred ensures DeferredOk(w', d) { assert DeferredOk(w, d); }
    forall d | d in w'.decodes ensures DecodeOk(w', d) { assert DecodeOk(w, d); }
  }

  /** The hook: the reads of its lists are stamped, and those past their fences parsed. */
  lemma LeaveStepKeeps(w: World, action: Action)
    requires Inv(w) && Enabled(w, action) && action.Leave?
    ensures Inv(Step(w, action))
  {
    hide Inv, SettleDone, Signals;
    var w1 := Submitted(w, action.call, action.signalled);
    SubmittedKeeps(w, action.call, action.signalled);
    assert w1.t.pending[..|w1.t.pending|] == w1.t.pending;
    SettleDoneKeeps(w1, |w1.t.pending|);
  }

  lemma SubmittedKeeps(w: World, c: nat, signalled: bool)
    requires Inv(w) && c in w.gpu.calls && w.gpu.calls[c].queue in w.gpu.queues && AllSent(w.gpu, c)
    ensures Inv(Submitted(w, c, signalled))
  {
    var w1, signal := Submitted(w, c, signalled), Signals(w, c, signalled);
    InvReads(w);
    LeaveRecorded(w, c, signal);
    hide Inv, Quiet, Recorded, AllOk, AllSent, Readback.Leave;
    LeaveKeeps(w.gpu, w.t.pending, c, signal);
    QuietKeeps(w, w1);
  }

  lemma LeaveRecorded(w: World, c: nat, signal: bool)
    requires GpuOk(w.gpu) && Recorded(w.gpu, w.copies) && c in w.gpu.calls && w.gpu.calls[c].queue in w.gpu.queues
    ensures
      var g' := Readback.Leave(w.gpu, c, signal);
      Quiet(w.gpu, g') && Recorded(g', w.copies)
  {
    var g' := Readback.Leave(w.gpu, c, signal);
    forall q, i, id | q in g'.queues && RunAt(g'.queues[q], id, i) ensures id in w.copies {
      assert RunAt(w.gpu.queues[q], id, i);
    }
  }

  // --- on demand -------------------------------------------------------------------------------------

  /** Every copy this list has of a build up to that one was executed. */
  ghost predicate ReadsRan(w: World, list: nat, build: nat) {
    forall r :: r in w.t.pending && r.owner == list && r.key.build <= build ==> HasRun(w.gpu, r.id)
  }

  /**
   What the code relies on when it takes any read of the list being split. The read's
   build is no newer than the dispatch's, so it was recorded before the dispatch: in
   its segment, an earlier one, or an earlier recording, which went to the same queue.
   */
  lemma SegmentsRan(w: World, call: nat, d: Deferred)
    requires Inv(w) && AtSegment(w, call, d)
    ensures ReadsRan(w, d.owner, d.at)
  {
    forall r | r in w.t.pending && r.owner == d.owner && r.key.build <= d.at ensures HasRun(w.gpu, r.id) {
      assert ReadOk(w.gpu, r) && DeferredOk(w, d);
      hide HasRun, SentThen, InCall;
      WaitedHasRun(w.gpu, r, call);
    }
  }

  /** Every read it may take has run. */
  lemma TakenHasRun(w: World, list: nat, build: nat, r: Read<Copy>)
    requires Inv(w) && r in w.t.pending && r.key.build <= build && ReadsRan(w, list, build)
    requires r.owner == list || Passed(w.gpu, r)
    ensures HasRun(w.gpu, r.id)
  {
    hide Inv, ReadOk;
    PendingIs(w, r);
    if r.owner != list { PassedHasRun(w.gpu, r); }
  }

  /** The reads that are gone were executed by the GPU. */
  ghost predicate TakenRan(w: World, left: seq<Read<Copy>>) {
    forall r :: r in w.t.pending && r !in left ==> HasRun(w.gpu, r.id)
  }

  /** One read taken and parsed. */
  lemma TakeKeeps(w: World, r: Read<Copy>)
    requires Inv(w) && r in w.t.pending && HasRun(w.gpu, r.id)
    ensures
      var w' := w.(t := Learn(w.t, r.key.tlas, r.key.build, r.key.asOf, At(w.buffers, r.id, [])));
      Inv(w') && Learns(w, w')
  {
    hide Inv, Remember, ParseAt, Parse, Seen, HasRun, Answered;
    PendingIs(w, r);
    RanReadIsTrue(w, r);
    NotLatestOf(w, r);
    LearnKeeps(w, r.key.tlas, r.key.build, r.key.asOf, At(w.buffers, r.id, []));
  }

  lemma TakeReadKeeps(w: World, i: nat)
    requires Inv(w) && i < |w.t.pending| && HasRun(w.gpu, w.t.pending[i].id)
    ensures
      var t', key := TakeRead(w.t, w.buffers, i), w.t.pending[i].key;
      && Inv(w.(t := t')) && Learns(w, w.(t := t'))
      && t'.readOf == w.t.readOf[key.tlas := key.build] && t'.alias == w.t.alias
      && TakenRan(w, t'.pending)
  {
    var r := w.t.pending[i];
    var rest := w.t.pending[..i] + w.t.pending[i + 1..];
    var t1 := Learn(w.t, r.key.tlas, r.key.build, r.key.asOf, At(w.buffers, r.id, []));
    LearnMeans(w.t, r.key.tlas, r.key.build, r.key.asOf, At(w.buffers, r.id, []));
    assert TakenRan(w, rest) by { RestTaken(w, i); }
    hide Inv, Learn, Learns, HasRun, TakenRan;
    TakeKeeps(w, r);
    FewerKeeps(w.(t := t1), rest);
    LearnsMore(w, w.(t := t1), w.(t := t1.(pending := rest)));
  }

  lemma RestTaken(w: World, i: nat)
    requires i < |w.t.pending| && HasRun(w.gpu, w.t.pending[i].id)
    ensures TakenRan(w, w.t.pending[..i] + w.t.pending[i + 1..])
  {
    hide HasRun;
    assert w.t.pending == w.t.pending[..i] + [w.t.pending[i]] + w.t.pending[i + 1..];
  }

  lemma BringReadKeeps(w: World, a: Addr, build: nat, list: nat)
    requires Inv(w) && ReadsRan(w, list, build)
    ensures
      var (ok, t') := BringRead(w.t, w.gpu, w.buffers, a, build, list);
      var w' := w.(t := t');
      && Inv(w') && Learns(w, w')
      && (ok ==> a in t'.readOf && t'.readOf[a] == build)
      && t'.alias == w.t.alias
      && TakenRan(w, t'.pending)
  {
    hide Inv, TakeRead, Learns, ReadsRan, HasRun;
    var at := FindRead(w.t.pending, a, build);
    if at.Some? && (w.t.pending[at.value].owner == list || Passed(w.gpu, w.t.pending[at.value])) {
      assert w.t.pending[at.value] in w.t.pending;
      TakenHasRun(w, list, build, w.t.pending[at.value]);
      TakeReadKeeps(w, at.value);
    } else {
      LearnsNothing(w);
    }
  }

  lemma LearnsMore(w: World, w1: World, w2: World)
    requires Learns(w, w1) && Learns(w1, w2)
    ensures Learns(w, w2)
  {}

  lemma LearnsNothing(w: World)
    ensures Learns(w, w)
  {}

  lemma LearnMeans(t: Tracker, a: Addr, build: nat, asOf: nat, descs: seq<Desc>)
    ensures
      var t' := Learn(t, a, build, asOf, descs);
      t'.readOf == t.readOf[a := build] && t'.alias == t.alias && t'.pending == t.pending
  {}

  /** A build that a chain of copies leads back from is not one its structure still has to note. */
  lemma AliasNotLatest(w: World, a: Addr)
    requires Inv(w) && a in w.t.alias
    ensures AliasOk(w, a)
    ensures a in w.noting && a in w.t.lastBuilt ==> w.t.alias[a].build != w.t.lastBuilt[a]
  {
    if a in w.noting { assert NotingOk(w, a); }
  }

  lemma KnownIs(w: World, a: Addr)
    requires Inv(w)
    ensures KnownOk(w, a)
  {}

  lemma ReadsRanStay(w: World, list: nat, build: nat, less: nat)
    requires ReadsRan(w, list, build) && less <= build
    ensures ReadsRan(w, list, less)
  {}

  /** The source's build was brought, and the copy reads it off. */
  lemma AliasBrought(w: World, w1: World, a: Addr, build: nat, src: Addr, srcBuild: nat)
    requires Inv(w1) && Learns(w, w1) && TakenRan(w, w1.t.pending)
    requires src in w1.t.readOf && w1.t.readOf[src] == srcBuild && src in w1.t.tlas
    requires a in w1.t.alias && w1.t.alias[a] == Alias(src, srcBuild, build)
    ensures
      var t' := LearnCopy(w1.t, a, build, src, srcBuild);
      var w' := w.(t := t');
      && Inv(w') && Learns(w, w') && TakenRan(w, t'.pending)
      && a in t'.readOf && t'.readOf[a] == build && t'.alias == w1.t.alias
  {
    KnownIs(w1, src);
    AliasNotLatest(w1, a);
    var w' := w1.(t := LearnCopy(w1.t, a, build, src, srcBuild));
    assert Learns(w1, w') by { hide RememberCopy; }
    LearnsMore(w, w1, w');
    assert w' == w.(t := w'.t);
    hide Inv, Parse, Seen, RememberCopy, Learns, TakenRan;
    LearnCopyKeeps(w1, a, build, src, srcBuild);
  }

  /**
   `BringToBuild` ends, however long the chain of copies; it keeps what is known true;
   and when it succeeds, what is known is that build and no other.
   */
  lemma {:induction false} BringKeeps(w: World, a: Addr, build: nat, list: nat, depth: nat)
    requires Inv(w) && ReadsRan(w, list, build) && depth <= MAX_DEPTH
    ensures
      var (ok, t') := AsTracker.Bring(w.t, w.gpu, w.buffers, a, build, list, depth);
      var w' := w.(t := t');
      && Inv(w') && Learns(w, w')
      && (ok ==> a in t'.readOf && t'.readOf[a] == build)
      && t'.alias == w.t.alias
      && TakenRan(w, t'.pending)
    decreases MAX_DEPTH - depth
  {
    hide Inv, BringRead, LearnCopy, ReadsRan, AliasOk;
    if a in w.t.readOf && w.t.readOf[a] == build {
    } else if a in w.t.alias && w.t.alias[a].build == build && depth < MAX_DEPTH {
      hide Learns, TakenRan;
      var al := w.t.alias[a];
      AliasOlder(w, a);
      ReadsRanStay(w, list, build, al.srcBuild);
      BringKeeps(w, al.src, al.srcBuild, list, depth + 1);
      var (ok, t1) := AsTracker.Bring(w.t, w.gpu, w.buffers, al.src, al.srcBuild, list, depth + 1);
      if ok && al.src in t1.tlas { AliasBrought(w, w.(t := t1), a, build, al.src, al.srcBuild); }
    } else {
      BringReadKeeps(w, a, build, list);
    }
  }

  lemma AliasOlder(w: World, a: Addr)
    requires Inv(w) && a in w.t.alias
    ensures w.t.alias[a].srcBuild < w.t.alias[a].build
  {
    assert AliasOk(w, a);
  }

  /** The build of one of its scenes is no newer than the dispatch. */
  lemma SceneRan(w: World, call: nat, d: Deferred, k: nat)
    requires Inv(w) && AtSegment(w, call, d) && k < |d.builds|
    ensures ReadsRan(w, d.owner, d.builds[k].1)
  {
    SegmentsRan(w, call, d);
    assert DeferredOk(w, d) && d.builds[k] in d.builds;
    hide Inv, ReadsRan;
    ReadsRanStay(w, d.owner, d.at, d.builds[k].1);
  }

  lemma BringStepKeeps(w: World, action: Action)
    requires Inv(w) && Enabled(w, action) && action.Bring?
    ensures Inv(Step(w, action))
    ensures Learns(w, Step(w, action)) && TakenRan(w, Step(w, action).t.pending)
  {
    hide Inv, AtSegment, AsTracker.Bring, ReadsRan, Learns, TakenRan;
    var d := action.dispatch;
    SceneRan(w, action.call, d, action.k);
    BringKeeps(w, d.builds[action.k].0, d.builds[action.k].1, d.owner, 0);
  }
}
