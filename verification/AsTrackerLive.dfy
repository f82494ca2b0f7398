/**
 Which structures are live (`LiveLocked` in `proxy/as_tracker.cpp`), said of a run: of
 the top-level builds there were, in their order, and of nothing the tracker counts.
 */
module AsTrackerLive {
  import opened AsLog
  import opened Readback
  import opened AsParse
  import opened AsTracker
  import opened AsTrackerWorld
  import opened AsTrackerReads
  import opened AsTrackerBuilds

  /**
   The structure of each top-level build, in order: built, deserialized, or copied from a
   top-level structure, or over one.
   */
  function TopBuilds(actions: seq<Action>): seq<Addr> {
    if actions == [] then []
    else
      var front := TopBuilds(actions[..|actions| - 1]);
      front + BuiltBy(actions[|actions| - 1], front)
  }

  function BuiltBy(action: Action, front: seq<Addr>): seq<Addr> {
    match action
    case BuildTop(a, _, _) => [a]
    case DeserializeTop(dst, _) => [dst]
    case DeserializeOther(dst) => [dst]
    case CopyStructure(dst, src, mode) =>
      if dst != 0 && mode != SerializeOrDecode && (dst in front || (mode == CloneOrCompact && src in front))
      then [dst] else []
    case _ => []
  }

  /** The serials the tracker keeps are the places and the number of a structure's builds. */
  ghost predicate Counts(t: Tracker, bs: seq<Addr>) {
    && t.tlasSerial == |bs|
    && forall a :: CountsOne(t, bs, a)
  }

  ghost predicate CountsOne(t: Tracker, bs: seq<Addr>, a: Addr) {
    && (a in t.lastBuilt <==> a in bs) && (a in t.firstBuilt <==> a in bs) && (a in t.buildCount <==> a in bs)
    && (a in bs ==>
          && 0 < t.firstBuilt[a] <= t.lastBuilt[a] <= |bs|
          && bs[t.firstBuilt[a] - 1] == a == bs[t.lastBuilt[a] - 1]
          && (forall i :: 0 <= i < |bs| && bs[i] == a ==> t.firstBuilt[a] - 1 <= i < t.lastBuilt[a])
          && t.buildCount[a] == multiset(bs)[a])
  }

  /** One build more. */
  lemma CountsNext(t: Tracker, t': Tracker, bs: seq<Addr>, a: Addr)
    requires Counts(t, bs) && SameTables(t', NextBuild(t, a))
    ensures Counts(t', bs + [a])
  {
    var bs' := bs + [a];
    forall b ensures CountsOne(t', bs', b) {
      assert CountsOne(t, bs, b);
      assert b in bs' <==> b in bs || b == a;
      if b == a { assert bs'[|bs|] == a; }
      assert multiset(bs')[b] == multiset(bs)[b] + (if b == a then 1 else 0);
      if b !in bs { assert multiset(bs)[b] == 0; }
    }
  }

  /** The tables that count builds. */
  ghost predicate SameTables(t: Tracker, t': Tracker) {
    && t.tlasSerial == t'.tlasSerial && t.lastBuilt == t'.lastBuilt
    && t.firstBuilt == t'.firstBuilt && t.buildCount == t'.buildCount
  }

  lemma CountsSame(t: Tracker, t': Tracker, bs: seq<Addr>)
    requires Counts(t, bs) && SameTables(t', t)
    ensures Counts(t', bs + [])
  {
    assert bs + [] == bs;
    forall a ensures CountsOne(t', bs, a) { assert CountsOne(t, bs, a); }
  }

  lemma CountsIn(t: Tracker, bs: seq<Addr>, a: Addr)
    requires Counts(t, bs)
    ensures a in t.lastBuilt <==> a in bs
  {
    assert CountsOne(t, bs, a);
  }

  // --- each step ------------------------------------------------------------------------

  lemma CopyTables(t: Tracker, dst: Addr, src: Addr, mode: CopyMode)
    requires mode != Deserialize && dst != src
    ensures
      SameTables(NoteCopy(t, dst, src, mode),
                 if dst != 0 && mode != SerializeOrDecode
                    && (dst in t.lastBuilt || (mode == CloneOrCompact && src in t.lastBuilt))
                 then NextBuild(t, dst) else t)
  {
    hide CopyBottom, CopyTop;
    BottomTables(t, dst, src, mode == CloneOrCompact);
    TopTables(CopyBottom(t, dst, src, mode == CloneOrCompact), dst, src, mode == CloneOrCompact);
  }

  lemma BottomTables(t: Tracker, dst: Addr, src: Addr, same: bool)
    ensures SameTables(CopyBottom(t, dst, src, same), t)
  {}

  lemma TopTables(t: Tracker, dst: Addr, src: Addr, same: bool)
    requires dst != src
    ensures
      SameTables(CopyTop(t, dst, src, same),
                 if dst in t.lastBuilt || (same && src in t.lastBuilt) then NextBuild(t, dst) else t)
  {
    hide NextBuild, LearnCopy, Current, At;
    if dst in t.lastBuilt || (same && src in t.lastBuilt) {
      TopIsNext(t, dst, src, same);
      NextTables(t, t.(alias := t.alias - {dst}), dst);
    }
  }

  lemma TopIsNext(t: Tracker, dst: Addr, src: Addr, same: bool)
    requires dst != src && (dst in t.lastBuilt || (same && src in t.lastBuilt))
    ensures SameTables(CopyTop(t, dst, src, same), NextBuild(t.(alias := t.alias - {dst}), dst))
  {
    hide LearnCopy, Current, At;
    var t1 := NextBuild(t.(alias := t.alias - {dst}), dst);
    var t2 := t1.(tlasAsSerial := t1.tlasAsSerial[dst := At(t1.tlasAsSerial, src, 0)]);
    if same && src in t.lastBuilt && src in t2.tlas {
      CopiedTables(t2, dst, t2.lastBuilt[dst], src, t2.lastBuilt[src]);
    }
  }

  lemma CopiedTables(t: Tracker, a: Addr, build: nat, src: Addr, srcBuild: nat)
    requires src in t.tlas
    ensures SameTables(LearnCopy(t, a, build, src, srcBuild), t)
  {
    hide RememberCopy;
  }

  lemma DeserializeTables(t: Tracker, dst: Addr)
    requires dst != 0
    ensures SameTables(NoteCopy(t, dst, 0, Deserialize), NextBuild(t, dst))
  {
    hide NextBuild, At;
    var t1 := AppendBlas(t, dst, UNKNOWN_DESERIALIZED);
    var t2 := t1.(asSerial := t1.asSerial + 1, tlasAsSerial := t1.tlasAsSerial[dst := t1.asSerial + 1],
                  alias := t1.alias - {dst});
    NextTables(t, t2, dst);
  }

  lemma NextTables(t: Tracker, t': Tracker, a: Addr)
    requires SameTables(t, t')
    ensures SameTables(NextBuild(t, a), NextBuild(t', a))
  {}

  lemma BuildStep(w: World, action: Action, bs: seq<Addr>)
    requires Inv(w) && Enabled(w, action) && Counts(w.t, bs) && (action.BuildTop? || action.BuildBottom?)
    ensures Counts(Step(w, action).t, bs + BuiltBy(action, bs))
  {
    hide Inv, Counts, Open, IsFloor, PointsBelow, KeepFrom;
    if action.BuildTop? {
      CountsNext(w.t, Step(w, action).t, bs, action.a);
    } else {
      CountsSame(w.t, Step(w, action).t, bs);
    }
  }

  lemma CopyStep(w: World, action: Action, bs: seq<Addr>)
    requires Inv(w) && Enabled(w, action) && Counts(w.t, bs)
    requires action.CopyStructure? || action.DeserializeTop? || action.DeserializeOther?
    ensures Counts(Step(w, action).t, bs + BuiltBy(action, bs))
  {
    hide Inv, Counts, NoteCopy, NextBuild, LogAfterCopy, TruthAfterCopy, CopyRebuilds, PointsBelow, Append;
    var t' := Step(w, action).t;
    CountsIn(w.t, bs, action.dst);
    if action.CopyStructure? {
      CountsIn(w.t, bs, action.src);
      CopyTables(w.t, action.dst, action.src, action.mode);
      if SameTables(t', w.t) { CountsSame(w.t, t', bs); }
    } else {
      DeserializeTables(w.t, action.dst);
    }
    if SameTables(t', NextBuild(w.t, action.dst)) { CountsNext(w.t, t', bs, action.dst); }
  }

  lemma ReadNowTables(t: Tracker, a: Addr, descs: seq<Desc>)
    ensures SameTables(AsTracker.ReadNow(t, a, descs), t)
  {
    hide Learn, Guess;
    var t' := if a in t.tlasAsSerial then t else t.(tlasAsSerial := t.tlasAsSerial[a := 0]);
    LearnTables(t, a, At(t.lastBuilt, a, 0), 0, []);
    LearnTables(t', a, At(t.lastBuilt, a, 0), At(t.tlasAsSerial, a, 0), descs);
  }

  lemma LearnTables(t: Tracker, a: Addr, build: nat, asOf: nat, descs: seq<Desc>)
    ensures SameTables(Learn(t, a, build, asOf, descs), t) && SameTables(LearnOlder(t, a, build, asOf, descs), t)
    ensures SameTables(Guess(t, a, asOf, descs), t)
  {
    hide ParseAt, Remember;
  }

  lemma DecodeTables(w: World, d: Deserialized, descs: seq<Desc>)
    ensures SameTables(DecodeStep(w, d, descs).t, w.t)
  {
    hide Learn, LearnOlder;
    LearnTables(EraseEntry(w.t, d.dst, d.blasSerial), d.dst, d.tlasSerial, At(w.t.tlasAsSerial, d.dst, 0), descs);
  }

  /** Steps that build nothing. */
  lemma OtherStep(w: World, action: Action, bs: seq<Addr>)
    requires Inv(w) && Enabled(w, action) && Counts(w.t, bs)
    requires !action.BuildBottom? && !action.BuildTop? && !action.CopyStructure? && !action.DeserializeTop?
    requires !action.DeserializeOther?
    ensures Counts(Step(w, action).t, bs + BuiltBy(action, bs))
  {
    hide Inv, Counts, Step, Enabled;
    if action.Leave? {
      LeaveTables(w, action);
    } else if action.Bring? {
      BringStepKeeps(w, action);
    } else {
      QuietTables(w, action);
    }
    CountsSame(w.t, Step(w, action).t, bs);
  }

  lemma LeaveTables(w: World, action: Action)
    requires Inv(w) && Enabled(w, action) && action.Leave?
    ensures SameTables(Step(w, action).t, w.t)
  {
    hide Inv, SettleDone, AllSent, Signals, Readback.Leave, LeaveReads;
    var w1 := Submitted(w, action.call, action.signalled);
    SubmittedKeeps(w, action.call, action.signalled);
    assert w1.t.pending[..|w1.t.pending|] == w1.t.pending;
    SettleDoneKeeps(w1, |w1.t.pending|);
  }

  lemma QuietTables(w: World, action: Action)
    requires Enabled(w, action)
    requires !action.BuildBottom? && !action.BuildTop? && !action.CopyStructure? && !action.DeserializeTop?
    requires !action.DeserializeOther? && !action.Bring? && !action.Leave?
    ensures SameTables(Step(w, action).t, w.t)
  {
    hide SameTables, AsTracker.ReadNow, Readback.Exec, Readback.Enter, BuffersAfter, Open, DeferredNow, ByOthers, Drop,
         DecodeStep, NotePending, CanEnter;
    if action.ReadNow? {
      ReadNowTables(w.t, action.a, w.truth[(action.a, w.t.lastBuilt[action.a])].descs);
    } else if action.Decode? {
      DecodeTables(w, action.d, action.descs);
    } else if action.RecordCopy? {
      NotePendingTables(w.t, action.a, w.next, action.owner, ListOf(w.gpu, action.owner));
    } else {
      PendingTables(w.t, Step(w, action).t.pending);
    }
  }

  lemma PendingTables(t: Tracker, pending: seq<Read<Copy>>)
    ensures SameTables(t.(pending := pending), t)
  {}

  lemma NotePendingTables(t: Tracker, a: Addr, id: nat, owner: nat, at: Listing)
    ensures SameTables(NotePending(t, a, id, owner, at), t)
  {
    hide At;
  }

  /** Over every run the serials are those of the builds there were. */
  lemma {:induction false} SerialsCountBuilds(actions: seq<Action>)
    requires Runs(actions)
    ensures Counts(After(actions).t, TopBuilds(actions))
  {
    hide Inv, Counts, Step, Enabled, BuiltBy;
    if actions == [] {
      EmptyCounts();
    } else {
      var n := |actions| - 1;
      var w, action, bs := After(actions[..n]), actions[n], TopBuilds(actions[..n]);
      SerialsCountBuilds(actions[..n]);
      EveryRunKeeps(actions[..n]);
      if action.BuildBottom? || action.BuildTop? {
        BuildStep(w, action, bs);
      } else if action.CopyStructure? || action.DeserializeTop? || action.DeserializeOther? {
        CopyStep(w, action, bs);
      } else {
        OtherStep(w, action, bs);
      }
    }
  }

  lemma EmptyCounts()
    ensures Counts(START.t, [])
  {
    forall a ensures CountsOne(START.t, [], a) {}
  }

  // --- what that means --------------------------------------------------------------------

  /** It was built among the last 65 builds. */
  ghost predicate BuiltLately(bs: seq<Addr>, a: Addr) {
    exists i :: 0 <= i < |bs| && |bs| - 65 <= i && bs[i] == a
  }

  /** All its builds came after all of `a`'s. */
  ghost predicate CameAfter(bs: seq<Addr>, b: Addr, a: Addr) {
    b in bs && forall i, j :: 0 <= i < |bs| && 0 <= j < |bs| && bs[i] == a && bs[j] == b ==> i < j
  }

  /**
   Over every run: a structure is live unless 65 others were built since, or some
   structure that has been read was first built after its last build and at least four
   times. One never seen being built is.
   */
  lemma {:induction false} LiveExactly(actions: seq<Action>, a: Addr)
    requires Runs(actions)
    ensures
      var t, bs := After(actions).t, TopBuilds(actions);
      Live(t, a) <==>
        a in bs ==>
          && BuiltLately(bs, a)
          && forall b :: b in t.tlas && CameAfter(bs, b, a) ==> multiset(bs)[b] < 4
  {
    SerialsCountBuilds(actions);
    hide Runs, After, TopBuilds;
    LiveMeans(After(actions).t, TopBuilds(actions), a);
  }

  lemma LiveMeans(t: Tracker, bs: seq<Addr>, a: Addr)
    requires Counts(t, bs)
    ensures Live(t, a) <==>
      a in bs ==> BuiltLately(bs, a) && forall b :: b in t.tlas && CameAfter(bs, b, a) ==> multiset(bs)[b] < 4
  {
    hide CameAfter, BuiltLately;
    assert CountsOne(t, bs, a);
    if a in bs {
      LatelyMeans(t, bs, a);
      forall b ensures Supersedes(t, b, a) <==> b in t.tlas && CameAfter(bs, b, a) && multiset(bs)[b] >= 4 {
        SupersedesMeans(t, bs, b, a);
      }
    }
  }

  lemma LatelyMeans(t: Tracker, bs: seq<Addr>, a: Addr)
    requires CountsOne(t, bs, a) && t.tlasSerial == |bs| && a in bs
    ensures BuiltLately(bs, a) <==> t.lastBuilt[a] + LIVE_WINDOW >= t.tlasSerial
  {
    if t.lastBuilt[a] + LIVE_WINDOW >= t.tlasSerial { assert bs[t.lastBuilt[a] - 1] == a; }
  }

  lemma SupersedesMeans(t: Tracker, bs: seq<Addr>, b: Addr, a: Addr)
    requires Counts(t, bs) && a in bs
    ensures Supersedes(t, b, a) <==> b in t.tlas && CameAfter(bs, b, a) && multiset(bs)[b] >= 4
  {
    assert CountsOne(t, bs, a) && CountsOne(t, bs, b);
    if b in bs {
      assert bs[t.lastBuilt[a] - 1] == a && bs[t.firstBuilt[b] - 1] == b;
    }
  }
}
