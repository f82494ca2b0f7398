/**
 What becomes known: a read that has run, at the hook after the next submission; a
 build asked for at a split, and exactly when it can be had; and which builds'
 instances are kept.
 */
module AsTrackerKnown {
  import opened GpuQueue
  import opened Readback
  import opened AsParse
  import opened AsTracker
  import opened AsTrackerWorld
  import opened AsTrackerReads
  import opened AsTrackerBuilds
  import opened AsTrackerRuns

  // --- at the hook ------------------------------------------------------------------------

  /** A read of the structure that is past its fence. */
  ghost predicate DoneOf(g: Gpu, r: Read<Copy>, a: Addr) {
    Passed(g, r) && r.key.tlas == a
  }

  /** After those reads: the newest build of what was known and of those past their fences. */
  ghost predicate Newest(before: map<Addr, nat>, after: map<Addr, nat>, g: Gpu, rs: seq<Read<Copy>>, a: Addr) {
    && (a in after <==> a in before || exists r :: r in rs && DoneOf(g, r, a))
    && (a in after ==>
          && (a in before ==> before[a] <= after[a])
          && (forall r :: r in rs && DoneOf(g, r, a) ==> r.key.build <= after[a])
          && (|| (a in before && after[a] == before[a])
              || exists r :: r in rs && DoneOf(g, r, a) && r.key.build == after[a]))
  }

  lemma SettleReads(t: Tracker, k: Copy, descs: seq<Desc>)
    ensures
      var t' := Settle(t, k, descs);
      t'.readOf == if k.tlas in t.readOf && t.readOf[k.tlas] > k.build then t.readOf else t.readOf[k.tlas := k.build]
  {
    hide Learn, LearnOlder;
    LearnMeans(t, k.tlas, k.build, k.asOf, descs);
    LearnOlderReads(t, k.tlas, k.build, k.asOf, descs);
  }

  lemma LearnOlderReads(t: Tracker, a: Addr, build: nat, asOf: nat, descs: seq<Desc>)
    ensures LearnOlder(t, a, build, asOf, descs).readOf == t.readOf
  {
    hide ParseAt, Remember;
  }

  lemma {:induction false} SettleDoneReads(t: Tracker, g: Gpu, buffers: map<nat, seq<Desc>>, rs: seq<Read<Copy>>,
                                           a: Addr)
    ensures Newest(t.readOf, SettleDone(t, g, buffers, rs).readOf, g, rs, a)
  {
    hide Settle, Passed;
    if rs != [] {
      var n := |rs| - 1;
      var front, r := rs[..n], rs[n];
      assert rs == front + [r];
      SettleDoneReads(t, g, buffers, front, a);
      var before := SettleDone(t, g, buffers, front);
      SettleReads(before, r.key, At(buffers, r.id, []));
      NewestNext(t.readOf, before.readOf, SettleDone(t, g, buffers, rs).readOf, g, front, r, a);
    }
  }

  lemma NewestNext(before: map<Addr, nat>, mid: map<Addr, nat>, after: map<Addr, nat>, g: Gpu,
                   front: seq<Read<Copy>>, r: Read<Copy>, a: Addr)
    requires Newest(before, mid, g, front, a)
    requires after == if !Passed(g, r) || (r.key.tlas in mid && mid[r.key.tlas] > r.key.build) then mid
                      else mid[r.key.tlas := r.key.build]
    ensures Newest(before, after, g, front + [r], a)
  {
    hide Passed;
    var rs := front + [r];
    assert forall x :: x in rs <==> x in front || x == r;
    if DoneOf(g, r, a) {
      assert r in rs;
    } else {
      assert forall x :: x in rs && DoneOf(g, x, a) ==> x in front;
    }
  }

  lemma {:induction false} SettleDoneLeft(t: Tracker, g: Gpu, buffers: map<nat, seq<Desc>>, rs: seq<Read<Copy>>)
    ensures forall r :: r in SettleDone(t, g, buffers, rs).pending <==> r in rs && !Passed(g, r)
  {
    hide Settle, Passed;
    if rs != [] {
      var n := |rs| - 1;
      assert rs == rs[..n] + [rs[n]];
      SettleDoneLeft(t, g, buffers, rs[..n]);
      SettlePending(SettleDone(t, g, buffers, rs[..n]), rs[n].key, At(buffers, rs[n].id, []));
    }
  }

  /**
   After the hook, in any state: each structure is known at the newest build of the one
   it was known at and those of its reads that are past their fences; and exactly the
   other reads are still to come.
   */
  lemma HookKnowsTheNewest(w: World, call: nat, signalled: bool, a: Addr)
    requires Enabled(w, Leave(call, signalled))
    ensures
      var w1, w' := Submitted(w, call, signalled), Step(w, Leave(call, signalled));
      && Newest(w.t.readOf, w'.t.readOf, w1.gpu, w1.t.pending, a)
      && forall r :: r in w'.t.pending <==> r in w1.t.pending && !Passed(w1.gpu, r)
  {
    hide SettleDone, Newest, Passed, AllSent, Signals, Readback.Leave, LeaveReads;
    var w1 := Submitted(w, call, signalled);
    LeaveStepIs(w, call, signalled);
    SettleDoneReads(w1.t, w1.gpu, w.buffers, w1.t.pending, a);
    SettleDoneLeft(w1.t, w1.gpu, w.buffers, w1.t.pending);
  }

  /** What the hook makes of a read first: one of its lists that has no stamp gets one. */
  ghost predicate HookStamped(w: World, call: nat, signalled: bool, r: Read<Copy>, r': Read<Copy>)
    requires call in w.gpu.calls && w.gpu.calls[call].queue in w.gpu.queues
  {
    var queue, items := w.gpu.calls[call].queue, Submitted(w, call, signalled).gpu.queues[w.gpu.calls[call].queue].items;
    if signalled && r.fence == 0 && r.owner in w.gpu.calls[call].lists
    then && r' == r.(queue := queue, fence := r'.fence) && r'.fence > 0
         && items == w.gpu.queues[queue].items + [Signal(r'.fence)]
    else r' == r
  }

  lemma HookStamps(w: World, call: nat, signalled: bool)
    requires Enabled(w, Leave(call, signalled))
    ensures
      var now := Submitted(w, call, signalled).t.pending;
      && |now| == |w.t.pending|
      && forall i :: 0 <= i < |now| ==> HookStamped(w, call, signalled, w.t.pending[i], now[i])
  {
    hide AllSent, LastSignal;
    var now := Submitted(w, call, signalled).t.pending;
    forall i | 0 <= i < |now| ensures HookStamped(w, call, signalled, w.t.pending[i], now[i]) {
      if !Signals(w, call, signalled) { assert now == w.t.pending; }
    }
  }

  /** The GPU has executed a signal of that value, or a later one, on the read's queue. */
  ghost predicate StampRan(w: World, r: Read<Copy>) {
    r.queue in w.gpu.queues && w.gpu.queues[r.queue].done <= |w.gpu.queues[r.queue].items|
    && SignalRan(w.gpu.queues[r.queue], r.fence)
  }

  /**
   Over every run: a stamped read whose signal the GPU has executed is done with by the
   next hook, of whatever submission, and its structure is then known at its build or a
   newer one.
   */
  lemma {:induction false} StampedReadBecomesKnown(actions: seq<Action>, call: nat, signalled: bool, r: Read<Copy>)
    requires Runs(actions) && Enabled(After(actions), Leave(call, signalled))
    requires r in After(actions).t.pending && r.fence != 0 && StampRan(After(actions), r)
    ensures
      var t := Step(After(actions), Leave(call, signalled)).t;
      r !in t.pending && r.key.tlas in t.readOf && t.readOf[r.key.tlas] >= r.key.build
  {
    hide Runs, After, Inv, Step, Enabled;
    EveryRunKeeps(actions);
    StampedReadKnown(After(actions), call, signalled, r);
  }

  lemma StampedReadKnown(w: World, call: nat, signalled: bool, r: Read<Copy>)
    requires Inv(w) && Enabled(w, Leave(call, signalled))
    requires r in w.t.pending && r.fence != 0 && StampRan(w, r)
    ensures
      var t := Step(w, Leave(call, signalled)).t;
      r !in t.pending && r.key.tlas in t.readOf && t.readOf[r.key.tlas] >= r.key.build
  {
    hide Inv, Step, Submitted, Passed, SignalRan, AllSent;
    PendingIs(w, r);
    PassedExactly(w.gpu, r);
    var w1 := Submitted(w, call, signalled);
    StillPassed(w, call, signalled, r);
    HookStamps(w, call, signalled);
    var i :| 0 <= i < |w.t.pending| && w.t.pending[i] == r;
    assert HookStamped(w, call, signalled, w.t.pending[i], w1.t.pending[i]);
    assert DoneOf(w1.gpu, r, r.key.tlas);
    HookKnowsTheNewest(w, call, signalled, r.key.tlas);
  }

  /** A signal more changes nothing about what is past its fence. */
  lemma StillPassed(w: World, call: nat, signalled: bool, r: Read<Copy>)
    requires GpuOk(w.gpu) && call in w.gpu.calls && w.gpu.calls[call].queue in w.gpu.queues
    ensures Passed(Submitted(w, call, signalled).gpu, r) == Passed(w.gpu, r)
  {
    hide Signals, Completed, SignalNext, LeaveReads;
    var queue := w.gpu.calls[call].queue;
    SignalValid(w.gpu.queues[queue]);
    assert Submitted(w, call, signalled).gpu.queues
        == if Signals(w, call, signalled) then w.gpu.queues[queue := SignalNext(w.gpu.queues[queue])] else w.gpu.queues;
  }

  // --- on demand ----------------------------------------------------------------------------

  predicate KnownAt(t: Tracker, b: Build) {
    b.0 in t.readOf && t.readOf[b.0] == b.1
  }

  /** The first is a copy of the second, and nothing is known of the first. */
  predicate CopyOf(t: Tracker, b: Build, c: Build) {
    !KnownAt(t, b) && b.0 in t.alias && t.alias[b.0] == Alias(c.0, c.1, b.1)
  }

  predicate IsCopy(t: Tracker, b: Build) {
    b.0 in t.alias && t.alias[b.0].build == b.1
  }

  /** The first read of the build there is was recorded by that list, or is past its fence. */
  ghost predicate CanRead(t: Tracker, g: Gpu, b: Build, list: nat) {
    exists i :: 0 <= i < |t.pending| && IsFor(t.pending[i], b.0, b.1)
      && (forall j :: 0 <= j < i ==> !IsFor(t.pending[j], b.0, b.1))
      && (t.pending[i].owner == list || Passed(g, t.pending[i]))
  }

  /**
   A chain of at most `most` builds, each a copy of the next, down to one that is known,
   or can be read and is, as far as that is looked at, not a copy.
   */
  ghost predicate Leads(t: Tracker, g: Gpu, list: nat, p: seq<Build>, most: nat) {
    && 0 < |p| <= most
    && (forall i :: 0 <= i < |p| - 1 ==> CopyOf(t, p[i], p[i + 1]))
    && EndsWell(t, g, list, p[|p| - 1], |p|, most)
  }

  ghost predicate EndsWell(t: Tracker, g: Gpu, list: nat, b: Build, length: nat, most: nat) {
    if KnownAt(t, b) then length == 1 || b.0 in t.tlas
    else (length == most || !IsCopy(t, b)) && CanRead(t, g, b, list)
  }

  /** One step further down. */
  lemma LeadsOn(t: Tracker, g: Gpu, list: nat, b: Build, c: Build, p: seq<Build>, most: nat)
    requires CopyOf(t, b, c) && Leads(t, g, list, p, most) && p[0] == c
    requires KnownAt(t, c) ==> c.0 in t.tlas
    ensures Leads(t, g, list, [b] + p, most + 1)
  {
    hide CanRead, IsCopy, KnownAt, CopyOf;
    var q := [b] + p;
    if |p| > 1 { assert CopyOf(t, p[0], p[1]); }
    assert q[|q| - 1] == p[|p| - 1];
    if |p| > 1 && KnownAt(t, p[|p| - 1]) { assert p[|p| - 1].0 in t.tlas; }
    forall i | 0 <= i < |q| - 1 ensures CopyOf(t, q[i], q[i + 1]) {
      if i > 0 { assert CopyOf(t, p[i - 1], p[i]); }
    }
  }

  lemma LeadsFrom(t: Tracker, g: Gpu, list: nat, p: seq<Build>, most: nat)
    requires Leads(t, g, list, p, most) && !KnownAt(t, p[0]) && IsCopy(t, p[0]) && most > 1
    ensures
      var c := (t.alias[p[0].0].src, t.alias[p[0].0].srcBuild);
      |p| > 1 && p[1] == c && Leads(t, g, list, p[1..], most - 1) && (KnownAt(t, c) ==> c.0 in t.tlas)
  {
    hide CanRead;
    assert |p| > 1;
    assert CopyOf(t, p[0], p[1]);
    var q := p[1..];
    forall i | 0 <= i < |q| - 1 ensures CopyOf(t, q[i], q[i + 1]) { assert CopyOf(t, p[i + 1], p[i + 2]); }
    if |p| > 2 { assert CopyOf(t, p[1], p[2]); }
  }

  ghost predicate Reachable(t: Tracker, g: Gpu, list: nat, b: Build, most: nat) {
    exists p :: |p| > 0 && p[0] == b && Leads(t, g, list, p, most)
  }

  lemma CanReadIs(t: Tracker, g: Gpu, buffers: map<nat, seq<Desc>>, b: Build, list: nat)
    ensures BringRead(t, g, buffers, b.0, b.1, list).0 <==> CanRead(t, g, b, list)
    ensures BringRead(t, g, buffers, b.0, b.1, list).0 ==> b.0 in BringRead(t, g, buffers, b.0, b.1, list).1.tlas
    ensures !BringRead(t, g, buffers, b.0, b.1, list).0 ==> BringRead(t, g, buffers, b.0, b.1, list).1 == t
  {
    hide ParseAt, Remember, Passed;
    var i := FindRead(t.pending, b.0, b.1);
    if i.Some? { assert IsFor(t.pending[i.value], b.0, b.1); }
  }

  /**
   A build asked for at a split can be had exactly when the copies lead, over the tables
   as they are, at most eight deep, to a build that is known or to one whose first read
   was recorded by the list being split or is past its fence. When it cannot, nothing
   changes.
   */
  lemma {:induction false} BringSucceedsExactly(t: Tracker, g: Gpu, buffers: map<nat, seq<Desc>>, a: Addr, build: nat,
                                                list: nat, depth: nat)
    requires depth <= MAX_DEPTH
    ensures
      var (ok, t') := AsTracker.Bring(t, g, buffers, a, build, list, depth);
      && (ok <==> Reachable(t, g, list, (a, build), 9 - depth))
      && (ok && !KnownAt(t, (a, build)) ==> a in t'.tlas)
      && (!ok || KnownAt(t, (a, build)) ==> t' == t)
    decreases MAX_DEPTH - depth
  {
    hide BringRead, CanRead, LearnCopy, Leads;
    var b := (a, build);
    if KnownAt(t, b) {
      KnownLeads(t, g, list, b, 9 - depth);
    } else if IsCopy(t, b) && depth < MAX_DEPTH {
      var c := (t.alias[a].src, t.alias[a].srcBuild);
      BringSucceedsExactly(t, g, buffers, c.0, c.1, list, depth + 1);
      CopyLeads(t, g, list, b, c, 8 - depth);
      BringCopyIs(t, g, buffers, a, build, list, depth);
    } else {
      CanReadIs(t, g, buffers, b, list);
      ReadLeads(t, g, list, b, 9 - depth);
    }
  }

  lemma BringCopyIs(t: Tracker, g: Gpu, buffers: map<nat, seq<Desc>>, a: Addr, build: nat, list: nat, depth: nat)
    requires depth < MAX_DEPTH && !KnownAt(t, (a, build)) && IsCopy(t, (a, build))
    ensures
      var al := t.alias[a];
      var (ok, t1) := AsTracker.Bring(t, g, buffers, al.src, al.srcBuild, list, depth + 1);
      && (AsTracker.Bring(t, g, buffers, a, build, list, depth)
          == if ok && al.src in t1.tlas then (true, LearnCopy(t1, a, build, al.src, al.srcBuild)) else (false, t1))
      && (ok && al.src in t1.tlas ==> a in LearnCopy(t1, a, build, al.src, al.srcBuild).tlas)
  {
    hide BringRead, RememberCopy;
  }

  lemma KnownLeads(t: Tracker, g: Gpu, list: nat, b: Build, most: nat)
    requires KnownAt(t, b) && most > 0
    ensures Reachable(t, g, list, b, most)
  {
    hide CanRead;
    assert Leads(t, g, list, [b], most);
  }

  lemma ReadLeads(t: Tracker, g: Gpu, list: nat, b: Build, most: nat)
    requires !KnownAt(t, b) && most > 0 && (most == 1 || !IsCopy(t, b))
    ensures Reachable(t, g, list, b, most) <==> CanRead(t, g, b, list)
  {
    hide CanRead;
    if CanRead(t, g, b, list) { assert Leads(t, g, list, [b], most); }
    forall p | |p| > 0 && p[0] == b && Leads(t, g, list, p, most) ensures CanRead(t, g, b, list) {
      if |p| > 1 { assert CopyOf(t, p[0], p[1]); }
    }
  }

  lemma CopyLeads(t: Tracker, g: Gpu, list: nat, b: Build, c: Build, most: nat)
    requires !KnownAt(t, b) && IsCopy(t, b) && c == (t.alias[b.0].src, t.alias[b.0].srcBuild) && most > 0
    ensures Reachable(t, g, list, b, most + 1) <==>
      Reachable(t, g, list, c, most) && (KnownAt(t, c) ==> c.0 in t.tlas)
  {
    hide CanRead, Leads;
    assert CopyOf(t, b, c);
    if Reachable(t, g, list, c, most) && (KnownAt(t, c) ==> c.0 in t.tlas) {
      var p :| |p| > 0 && p[0] == c && Leads(t, g, list, p, most);
      LeadsOn(t, g, list, b, c, p, most);
      assert ([b] + p)[0] == b;
    }
    forall p | |p| > 0 && p[0] == b && Leads(t, g, list, p, most + 1)
      ensures Reachable(t, g, list, c, most) && (KnownAt(t, c) ==> c.0 in t.tlas)
    {
      LeadsFrom(t, g, list, p, most + 1);
      assert p[1..][0] == c;
    }
  }

  /** Afterwards one read of the last build of the chain is done with, unless that was known; no other is. */
  ghost predicate TakenFrom(t: Tracker, t': Tracker, b: Build) {
    if KnownAt(t, b) then t'.pending == t.pending
    else exists i :: 0 <= i < |t.pending| && IsFor(t.pending[i], b.0, b.1)
           && t'.pending == t.pending[..i] + t.pending[i + 1..]
  }

  ghost predicate TakenAlong(t: Tracker, t': Tracker, g: Gpu, list: nat, b: Build, most: nat) {
    exists p :: |p| > 0 && p[0] == b && Leads(t, g, list, p, most) && TakenFrom(t, t', p[|p| - 1])
  }

  lemma {:induction false} BringTakesOneRead(t: Tracker, g: Gpu, buffers: map<nat, seq<Desc>>, a: Addr, build: nat,
                                             list: nat, depth: nat)
    requires depth <= MAX_DEPTH && AsTracker.Bring(t, g, buffers, a, build, list, depth).0
    ensures TakenAlong(t, AsTracker.Bring(t, g, buffers, a, build, list, depth).1, g, list, (a, build), 9 - depth)
    decreases MAX_DEPTH - depth
  {
    hide BringRead, CanRead, LearnCopy, Leads, TakenFrom;
    var b := (a, build);
    BringSucceedsExactly(t, g, buffers, a, build, list, depth);
    if KnownAt(t, b) {
      TakenNothing(t, g, list, b, 9 - depth);
    } else if IsCopy(t, b) && depth < MAX_DEPTH {
      var c := (t.alias[a].src, t.alias[a].srcBuild);
      CopyLeads(t, g, list, b, c, 8 - depth);
      BringCopyIs(t, g, buffers, a, build, list, depth);
      BringTakesOneRead(t, g, buffers, c.0, c.1, list, depth + 1);
      var t1 := AsTracker.Bring(t, g, buffers, c.0, c.1, list, depth + 1).1;
      var p :| |p| > 0 && p[0] == c && Leads(t, g, list, p, 8 - depth) && TakenFrom(t, t1, p[|p| - 1]);
      LeadsOn(t, g, list, b, c, p, 8 - depth);
      var q := [b] + p;
      assert q[0] == b && q[|q| - 1] == p[|p| - 1];
      CopiedPending(t, t1, a, build, c.0, c.1, p[|p| - 1]);
    } else {
      ReadTaken(t, g, buffers, b, list, 9 - depth);
    }
  }

  lemma TakenNothing(t: Tracker, g: Gpu, list: nat, b: Build, most: nat)
    requires KnownAt(t, b) && most > 0
    ensures TakenAlong(t, t, g, list, b, most)
  {
    hide CanRead;
    assert Leads(t, g, list, [b], most) && TakenFrom(t, t, b);
  }

  lemma CopiedPending(t: Tracker, t1: Tracker, a: Addr, build: nat, src: Addr, srcBuild: nat, b: Build)
    requires src in t1.tlas && TakenFrom(t, t1, b)
    ensures TakenFrom(t, LearnCopy(t1, a, build, src, srcBuild), b)
  {
    hide RememberCopy;
  }

  lemma ReadTaken(t: Tracker, g: Gpu, buffers: map<nat, seq<Desc>>, b: Build, list: nat, most: nat)
    requires !KnownAt(t, b) && most > 0 && (most == 1 || !IsCopy(t, b))
    requires BringRead(t, g, buffers, b.0, b.1, list).0
    ensures TakenAlong(t, BringRead(t, g, buffers, b.0, b.1, list).1, g, list, b, most)
  {
    CanReadIs(t, g, buffers, b, list);
    hide CanRead, Learn, Passed;
    assert Leads(t, g, list, [b], most);
    var i := FindRead(t.pending, b.0, b.1).value;
    var t' := BringRead(t, g, buffers, b.0, b.1, list).1;
    assert t'.pending == t.pending[..i] + t.pending[i + 1..];
    assert TakenFrom(t, t', b);
    assert [b][|[b]| - 1] == b;
  }

  // --- at once, and copies ------------------------------------------------------------------

  /** Instances read at once make the latest build known, in any state. */
  lemma ReadNowIsCurrent(w: World, a: Addr)
    requires Enabled(w, Action.ReadNow(a)) && a != 0
    ensures
      var t := Step(w, Action.ReadNow(a)).t;
      && Current(t, a) && t.lastBuilt == w.t.lastBuilt && t.pending == w.t.pending
      && forall b :: b != a ==> (b in t.readOf <==> b in w.t.readOf) && (b in t.readOf ==> t.readOf[b] == w.t.readOf[b])
  {
    hide ParseAt, Remember;
  }

  /** Of a structure never seen being built there is a parse, against its place in the log or else now, and no build. */
  lemma ReadUnbuilt(t: Tracker, a: Addr, descs: seq<Desc>)
    requires a != 0 && a !in t.lastBuilt
    ensures
      var t', asOf := AsTracker.ReadNow(t, a, descs), if descs == [] then 0 else At(t.tlasAsSerial, a, 0);
      && t'.tlas == t.tlas[a := Parse(Resolve(t.hist, descs, if asOf == 0 then t.asSerial + 1 else asOf))]
      && t'.readOf == t.readOf && t'.instHist == t.instHist && !Current(t', a)
  {
    hide Parse;
  }

  /** A recorded copy is one more read to come, of the latest build, in the segment being recorded. */
  lemma RecordedIsPending(w: World, a: Addr, owner: nat, junk: seq<Desc>)
    requires Inv(w) && Enabled(w, RecordCopy(a, owner, junk))
    ensures
      var w' := Step(w, RecordCopy(a, owner, junk));
      var r := Read(w.next, Copy(a, w.t.lastBuilt[a], w'.truth[(a, w.t.lastBuilt[a])].asOf), owner,
                    ListOf(w.gpu, owner).recording, ListOf(w.gpu, owner).segment, 0, 0);
      (a, w.t.lastBuilt[a]) in w'.truth && w'.t.pending == w.t.pending + [r] && w'.t.readOf == w.t.readOf
  {
    assert NotingOk(w, a);
  }

  /**
   A CLONE or COMPACT is known at its latest build exactly when its source is, and then
   as the same; otherwise its build leads to the source's. A copy of what is not known
   is not known.
   */
  lemma CopyIsKnownAsItsSource(w: World, dst: Addr, src: Addr, mode: CopyMode)
    requires Inv(w) && Enabled(w, CopyStructure(dst, src, mode)) && dst != 0 && mode != SerializeOrDecode
    requires dst in w.t.lastBuilt || (mode == CloneOrCompact && src in w.t.lastBuilt)
    ensures
      var t := Step(w, CopyStructure(dst, src, mode)).t;
      && t.tlasSerial == w.t.tlasSerial + 1 && t.lastBuilt == w.t.lastBuilt[dst := t.tlasSerial]
      && if mode == CloneOrCompact && src in w.t.lastBuilt then
           && (Current(t, dst) <==> Current(w.t, src))
           && (Current(w.t, src) ==> dst in t.tlas && src in w.t.tlas && t.tlas[dst] == w.t.tlas[src])
           && (!Current(w.t, src) ==> CopyOf(t, (dst, t.lastBuilt[dst]), (src, w.t.lastBuilt[src])))
         else dst !in t.tlas && dst !in t.readOf && dst !in t.alias
  {
    var same, t1 := mode == CloneOrCompact, CopyBottom(w.t, dst, src, mode == CloneOrCompact);
    if Current(w.t, src) { assert KnownOk(w, src); }
    hide Inv, CopyBottom, CopyTop, Parse, Seen, KnownOk;
    CopyStepFields(w, dst, src, mode);
    CopyBottomTables(w.t, dst, src, same);
    CopyTopTables(t1, dst, src, same);
  }

  lemma CopyBottomTables(t: Tracker, dst: Addr, src: Addr, same: bool)
    ensures
      var t' := CopyBottom(t, dst, src, same);
      && t'.tlasSerial == t.tlasSerial && t'.lastBuilt == t.lastBuilt && t'.readOf == t.readOf
      && t'.tlas == t.tlas && t'.alias == t.alias
  {}

  lemma CopyTopTables(t: Tracker, dst: Addr, src: Addr, same: bool)
    requires dst != src && (dst in t.lastBuilt || (same && src in t.lastBuilt))
    requires Current(t, src) ==> src in t.tlas
    ensures
      var t' := CopyTop(t, dst, src, same);
      && t'.tlasSerial == t.tlasSerial + 1 && t'.lastBuilt == t.lastBuilt[dst := t'.tlasSerial]
      && if same && src in t.lastBuilt then
           && (Current(t', dst) <==> Current(t, src))
           && (Current(t, src) ==> dst in t'.tlas && t'.tlas[dst] == t.tlas[src])
           && (!Current(t, src) ==> CopyOf(t', (dst, t'.lastBuilt[dst]), (src, t.lastBuilt[src])))
         else dst !in t'.tlas && dst !in t'.readOf && dst !in t'.alias
  {
    hide RememberCopy;
  }
}
