/**
 The decisions about the hit group table (`TableWouldBeWrong`,
 `RecordConstantsTable`, `GeometryLabels`, `PairClasses` in
 `proxy/as_tracker.cpp`), over the structures that count, in any order.
 */
module RecordTable {
  import opened AsLog
  import opened AsParse

  // --- can one table answer every hit? ----------------------------------------

  /**
   A table answers every hit of an instance: geometry g of it lands on record
   g + contribution, and that record has to say (g, contribution).
   */
  ghost predicate AnswersInstance(table: nat -> (nat, nat), x: Instance) {
    forall g: nat :: x.HasGeometry(g) ==> table(x.contribution + g) == (g, x.contribution as nat)
  }

  ghost predicate Answers(table: nat -> (nat, nat), scenes: seq<seq<Instance>>) {
    forall s, i :: 0 <= s < |scenes| && 0 <= i < |scenes[s]| ==> AnswersInstance(table, scenes[s][i])
  }

  ghost function ParseAll(scenes: seq<seq<Instance>>): (ts: seq<TlasInfo>)
    ensures |ts| == |scenes| && forall s :: 0 <= s < |scenes| ==> ts[s] == Parse(scenes[s])
  {
    seq(|scenes|, s requires 0 <= s < |scenes| => Parse(scenes[s]))
  }

  /** The pair the first structure that has the record puts there. */
  function MergedAt(ts: seq<TlasInfo>, slot: nat): RecordConstants {
    if ts == [] then NO_CONSTANTS
    else
      var front, t := MergedAt(ts[..|ts| - 1], slot), ts[|ts| - 1];
      if front.taken || slot >= |t.constants| || !t.constants[slot].taken then front
      else t.constants[slot]
  }

  function MergedSize(ts: seq<TlasInfo>): nat {
    if ts == [] then 0
    else
      var front, n := MergedSize(ts[..|ts| - 1]), |ts[|ts| - 1].constants|;
      if n > front then n else front
  }

  function Table(ts: seq<TlasInfo>): (r: seq<RecordConstants>)
    ensures |r| == MergedSize(ts) && forall k :: 0 <= k < |r| ==> r[k] == MergedAt(ts, k)
  {
    seq(MergedSize(ts), k requires 0 <= k => MergedAt(ts, k))
  }

  ghost predicate Disagree(a: RecordConstants, b: RecordConstants) {
    a.taken && b.taken && (a.geometryIndex, a.instanceContribution) != (b.geometryIndex, b.instanceContribution)
  }

  ghost predicate CrossConflict(ts: seq<TlasInfo>) {
    exists s, u, slot: nat :: 0 <= s < |ts| && 0 <= u < |ts| && slot < |ts[s].constants|
      && slot < |ts[u].constants| && Disagree(ts[s].constants[slot], ts[u].constants[slot])
  }

  ghost predicate OwnConflict(ts: seq<TlasInfo>) {
    exists s :: 0 <= s < |ts| && ts[s].constantsConflict
  }

  ghost predicate AnyUnknown(ts: seq<TlasInfo>) {
    exists s :: 0 <= s < |ts| && ts[s].unknownBlas > 0
  }

  datatype Verdict = Fine | RefusedUnknown | RefusedOneTlas | RefusedCrossLive

  lemma {:induction false} MergedFound(ts: seq<TlasInfo>, slot: nat)
    ensures MergedAt(ts, slot).taken ==>
      exists s :: 0 <= s < |ts| && slot < |ts[s].constants| && MergedAt(ts, slot) == ts[s].constants[slot]
    ensures !MergedAt(ts, slot).taken ==>
      MergedAt(ts, slot) == NO_CONSTANTS
      && forall s :: 0 <= s < |ts| && slot < |ts[s].constants| ==> !ts[s].constants[slot].taken
    ensures MergedAt(ts, slot).taken ==> slot < MergedSize(ts)
  {
    if ts != [] {
      var n := |ts| - 1;
      MergedFound(ts[..n], slot);
      if MergedAt(ts[..n], slot).taken {
        var s :| 0 <= s < n && slot < |ts[..n][s].constants|
              && MergedAt(ts[..n], slot) == ts[..n][s].constants[slot];
        assert ts[s] == ts[..n][s];
      }
      forall s | 0 <= s < |ts| && slot < |ts[s].constants| && !MergedAt(ts, slot).taken
        ensures !ts[s].constants[slot].taken
      {
        if s < n { assert ts[..n][s] == ts[s]; }
      }
    }
  }

  /** Comparing with what is merged so far finds exactly the disagreements with an earlier structure. */
  lemma CrossNext(ts: seq<TlasInfo>)
    requires ts != [] && !CrossConflict(ts[..|ts| - 1])
    ensures
      var n := |ts| - 1;
      CrossConflict(ts) <==>
        exists slot: nat :: slot < |ts[n].constants| && Disagree(MergedAt(ts[..n], slot), ts[n].constants[slot])
  {
    var n := |ts| - 1;
    var front := ts[..n];
    if exists slot: nat :: slot < |ts[n].constants| && Disagree(MergedAt(front, slot), ts[n].constants[slot]) {
      var slot: nat :| slot < |ts[n].constants| && Disagree(MergedAt(front, slot), ts[n].constants[slot]);
      MergedFound(front, slot);
      var s :| 0 <= s < n && slot < |front[s].constants| && MergedAt(front, slot) == front[s].constants[slot];
      assert Disagree(ts[s].constants[slot], ts[n].constants[slot]);
    } else {
      forall s, u, slot: nat | 0 <= s < |ts| && 0 <= u < |ts| && slot < |ts[s].constants|
        && slot < |ts[u].constants|
        ensures !Disagree(ts[s].constants[slot], ts[u].constants[slot])
      {
        MergedFound(front, slot);
        if MergedAt(front, slot).taken {
          var w :| 0 <= w < n && slot < |front[w].constants| && MergedAt(front, slot) == front[w].constants[slot];
          if s < n { assert !Disagree(front[s].constants[slot], front[w].constants[slot]); }
          if u < n { assert !Disagree(front[u].constants[slot], front[w].constants[slot]); }
        } else {
          if s < n { assert !front[s].constants[slot].taken; }
          if u < n { assert !front[u].constants[slot].taken; }
        }
      }
    }
  }

  /** The constants part of `TableWouldBeWrong`, over the structures that count. */
  method TableWouldBeWrong(ts: seq<TlasInfo>) returns (v: Verdict)
    ensures v == Fine <==> !AnyUnknown(ts) && !OwnConflict(ts) && !CrossConflict(ts)
    ensures v == RefusedUnknown ==> AnyUnknown(ts)
    ensures v == RefusedOneTlas ==> OwnConflict(ts)
    ensures v == RefusedCrossLive ==> CrossConflict(ts)
  {
    hide Disagree, MergedAt, MergedSize, CrossConflict;
    NothingMerged();
    var merged: seq<RecordConstants> := [];
    for s := 0 to |ts|
      invariant |merged| == MergedSize(ts[..s])
      invariant forall k :: 0 <= k < |merged| ==> merged[k] == MergedAt(ts[..s], k)
      invariant forall u :: 0 <= u < s ==> ts[u].unknownBlas == 0 && !ts[u].constantsConflict
      invariant !CrossConflict(ts[..s])
    {
      hide Disagree, MergedAt, MergedSize, CrossConflict;
      ghost var done := ts[..s + 1];
      assert done[..s] == ts[..s] && done[s] == ts[s] && done == ts[..s] + [ts[s]];
      var t := ts[s];
      if t.unknownBlas > 0 { return RefusedUnknown; }
      if t.constantsConflict { return RefusedOneTlas; }
      CrossNext(done);
      var clash;
      merged, clash := Merge(ts[..s], t, merged);
      if clash {
        PrefixConflict(ts, s + 1);
        return RefusedCrossLive;
      }
    }
    assert ts[..|ts|] == ts;
    v := Fine;
  }

  lemma NothingMerged()
    ensures MergedSize([]) == 0 && !CrossConflict([])
  {}

  lemma PrefixConflict(ts: seq<TlasInfo>, n: nat)
    requires n <= |ts| && CrossConflict(ts[..n])
    ensures CrossConflict(ts)
  {
    var s, u, slot: nat :| 0 <= s < n && 0 <= u < n && slot < |ts[..n][s].constants|
      && slot < |ts[..n][u].constants| && Disagree(ts[..n][s].constants[slot], ts[..n][u].constants[slot]);
    assert Disagree(ts[s].constants[slot], ts[u].constants[slot]);
  }

  /** One structure more. */
  lemma MergedNext(front: seq<TlasInfo>, t: TlasInfo)
    ensures MergedSize(front + [t]) == if |t.constants| > MergedSize(front) then |t.constants| else MergedSize(front)
    ensures forall k: nat ::
      MergedAt(front + [t], k) == (if !MergedAt(front, k).taken && k < |t.constants| && t.constants[k].taken
                                   then t.constants[k] else MergedAt(front, k))
  {
    assert (front + [t])[..|front|] == front;
  }

  /** One structure's records into the merged ones, stopping at the first disagreement. */
  method Merge(ghost front: seq<TlasInfo>, t: TlasInfo, merged: seq<RecordConstants>)
    returns (out: seq<RecordConstants>, clash: bool)
    requires |merged| == MergedSize(front)
    requires forall k :: 0 <= k < |merged| ==> merged[k] == MergedAt(front, k)
    ensures clash <==> exists slot: nat ::
      slot < |t.constants| && Disagree(MergedAt(front, slot), t.constants[slot])
    ensures !clash ==> |out| == MergedSize(front + [t])
    ensures !clash ==> forall k :: 0 <= k < |out| ==> out[k] == MergedAt(front + [t], k)
  {
    hide MergedAt, MergedSize;
    MergedNext(front, t);
    out := merged;
    if |out| < |t.constants| { out := out + seq(|t.constants| - |out|, _ => NO_CONSTANTS); }
    forall k | |merged| <= k < |out| ensures MergedAt(front, k) == NO_CONSTANTS { MergedFound(front, k); }
    for i := 0 to |t.constants|
      invariant |out| == MergedSize(front + [t])
      invariant forall k :: 0 <= k < |out| ==>
        out[k] == if k < i then MergedAt(front + [t], k) else MergedAt(front, k)
      invariant forall slot: nat :: slot < i ==> !Disagree(MergedAt(front, slot), t.constants[slot])
    {
      var a := t.constants[i];
      if a.taken {
        if !out[i].taken {
          out := out[i := a];
        } else if out[i].geometryIndex != a.geometryIndex
               || out[i].instanceContribution != a.instanceContribution {
          return out, true;
        }
      }
    }
    clash := false;
  }

  /** `RecordConstantsTable`: first come first served, sized to the largest. */
  method RecordConstantsTable(ts: seq<TlasInfo>) returns (out: seq<RecordConstants>)
    ensures out == Table(ts)
  {
    out := [];
    for s := 0 to |ts|
      invariant |out| == MergedSize(ts[..s])
      invariant forall k :: 0 <= k < |out| ==> out[k] == MergedAt(ts[..s], k)
    {
      var t := ts[s];
      ghost var before := out;
      assert ts[..s + 1][..s] == ts[..s];
      forall k | |before| <= k ensures MergedAt(ts[..s], k) == NO_CONSTANTS { MergedFound(ts[..s], k); }
      if |out| < |t.constants| { out := out + seq(|t.constants| - |out|, _ => NO_CONSTANTS); }
      for i := 0 to |t.constants|
        invariant |out| == MergedSize(ts[..s + 1])
        invariant forall k :: 0 <= k < |out| ==>
          out[k] == if k < i then MergedAt(ts[..s + 1], k) else MergedAt(ts[..s], k)
      {
        if t.constants[i].taken && !out[i].taken { out := out[i := t.constants[i]]; }
      }
    }
    assert ts[..|ts|] == ts;
  }

  function Lookup(table: seq<RecordConstants>): nat -> (nat, nat) {
    (k: nat) => if k < |table| then (table[k].geometryIndex, table[k].instanceContribution) else (0, 0)
  }

  /** What lands on a record is in its own structure's table, and so in the merged one. */
  lemma HitIsInTable(scenes: seq<seq<Instance>>, s: nat, i: nat, slot: nat)
    requires s < |scenes| && i < |scenes[s]| && scenes[s][i].Hits(slot)
    requires !OwnConflict(ParseAll(scenes)) && !CrossConflict(ParseAll(scenes))
    ensures slot < |Table(ParseAll(scenes))|
    ensures
      var c := scenes[s][i].contribution;
      Table(ParseAll(scenes))[slot] == RecordConstants(slot - c, c, true)
  {
    var ts := ParseAll(scenes);
    assert !ts[s].constantsConflict;
    HitsBelowExtent(scenes[s], i, slot);
    AgreesWithFirst(scenes[s], i, slot);
    MergedFound(ts, slot);
    assert ts[s].constants[slot].taken;
    var u :| 0 <= u < |ts| && slot < |ts[u].constants| && MergedAt(ts, slot) == ts[u].constants[slot];
    assert !Disagree(ts[u].constants[slot], ts[s].constants[slot]);
  }

  /** When it does not refuse, the merged table answers every hit. */
  lemma TableAnswers(scenes: seq<seq<Instance>>)
    requires !OwnConflict(ParseAll(scenes)) && !CrossConflict(ParseAll(scenes))
    ensures Answers(Lookup(Table(ParseAll(scenes))), scenes)
  {
    hide Table, Lookup, ParseAll, OwnConflict, CrossConflict, AnswersInstance;
    forall s, i | 0 <= s < |scenes| && 0 <= i < |scenes[s]|
      ensures AnswersInstance(Lookup(Table(ParseAll(scenes))), scenes[s][i])
    {
      TableAnswersInstance(scenes, s, i);
    }
  }

  lemma TableAnswersInstance(scenes: seq<seq<Instance>>, s: nat, i: nat)
    requires !OwnConflict(ParseAll(scenes)) && !CrossConflict(ParseAll(scenes))
    requires s < |scenes| && i < |scenes[s]|
    ensures AnswersInstance(Lookup(Table(ParseAll(scenes))), scenes[s][i])
  {
    hide Table, ParseAll, OwnConflict, CrossConflict;
    var x := scenes[s][i];
    forall g: nat | x.HasGeometry(g)
      ensures Lookup(Table(ParseAll(scenes)))(x.contribution + g) == (g, x.contribution as nat)
    {
      HitIsInTable(scenes, s, i, x.contribution + g);
    }
  }

  /** Two hits on one record with different pairs leave no table. */
  lemma ClashLeavesNone(scenes: seq<seq<Instance>>, s: nat, i: nat, u: nat, j: nat, slot: nat)
    requires s < |scenes| && i < |scenes[s]| && scenes[s][i].Hits(slot)
    requires u < |scenes| && j < |scenes[u]| && scenes[u][j].Hits(slot)
    requires scenes[s][i].contribution != scenes[u][j].contribution
    ensures !exists table: nat -> (nat, nat) :: Answers(table, scenes)
  {
    forall table: nat -> (nat, nat) ensures !Answers(table, scenes) {
      assert AnswersInstance(table, scenes[s][i]) ==> table(slot).1 == scenes[s][i].contribution;
      assert AnswersInstance(table, scenes[u][j]) ==> table(slot).1 == scenes[u][j].contribution;
    }
  }

  lemma OwnConflictLeavesNone(scenes: seq<seq<Instance>>)
    requires OwnConflict(ParseAll(scenes))
    ensures !exists table: nat -> (nat, nat) :: Answers(table, scenes)
  {
    hide Answers;
    var s :| 0 <= s < |scenes| && Parse(scenes[s]).constantsConflict;
    var i, j, slot: nat :| 0 <= i < |scenes[s]| && 0 <= j < |scenes[s]| && scenes[s][i].Hits(slot)
      && scenes[s][j].Hits(slot) && scenes[s][i].contribution != scenes[s][j].contribution;
    ClashLeavesNone(scenes, s, i, s, j, slot);
  }

  /** The instance that put the pair on a record. */
  lemma WhoPutIt(scenes: seq<seq<Instance>>, s: nat, slot: nat) returns (i: nat)
    requires s < |scenes| && slot < |ParseAll(scenes)[s].constants| && ParseAll(scenes)[s].constants[slot].taken
    ensures i < |scenes[s]| && scenes[s][i].Hits(slot)
    ensures ParseAll(scenes)[s].constants[slot]
         == RecordConstants(slot - scenes[s][i].contribution, scenes[s][i].contribution, true)
  {
    var insts := scenes[s];
    FirstHitFound(insts, slot);
    i :| 0 <= i < |insts| && insts[i].Hits(slot) && FirstHit(insts, slot)
      == RecordConstants(slot - insts[i].contribution, insts[i].contribution, true);
  }

  lemma CrossConflictLeavesNone(scenes: seq<seq<Instance>>)
    requires CrossConflict(ParseAll(scenes))
    ensures !exists table: nat -> (nat, nat) :: Answers(table, scenes)
  {
    hide Answers, Parse, Instance.Hits;
    var ts := ParseAll(scenes);
    var s, u, slot: nat :| 0 <= s < |ts| && 0 <= u < |ts| && slot < |ts[s].constants|
      && slot < |ts[u].constants| && Disagree(ts[s].constants[slot], ts[u].constants[slot]);
    var i := WhoPutIt(scenes, s, slot);
    var j := WhoPutIt(scenes, u, slot);
    ClashLeavesNone(scenes, s, i, u, j, slot);
  }

  lemma {:induction false} NoneUnknown(insts: seq<Instance>, i: nat)
    requires UnknownCount(insts) == 0 && i < |insts| && insts[i].active
    ensures insts[i].Known()
  {
    var n := |insts| - 1;
    if i < n {
      assert insts[..n][i] == insts[i];
      NoneUnknown(insts[..n], i);
    }
  }

  /** With nothing unknown, every active instance is one whose structure was found. */
  lemma AllFound(scenes: seq<seq<Instance>>)
    requires !AnyUnknown(ParseAll(scenes))
    ensures forall s, i ::
      (0 <= s < |scenes| && 0 <= i < |scenes[s]| && scenes[s][i].active) ==> scenes[s][i].Known()
  {
    forall s, i | 0 <= s < |scenes| && 0 <= i < |scenes[s]| && scenes[s][i].active
      ensures scenes[s][i].Known()
    {
      assert ParseAll(scenes)[s].unknownBlas == 0;
      NoneUnknown(scenes[s], i);
    }
  }

  /**
   With no unknown bottom-level structure among the scenes that count: every hit is
   one of a structure that was found; the table is refused if and only if no map
   from record to (geometry, contribution) answers every hit; and when it is not
   refused, `RecordConstantsTable` is such a map.
   */
  lemma RefusesExactly(scenes: seq<seq<Instance>>)
    requires !AnyUnknown(ParseAll(scenes))
    ensures forall s, i ::
      (0 <= s < |scenes| && 0 <= i < |scenes[s]| && scenes[s][i].active) ==> scenes[s][i].Known()
    ensures (OwnConflict(ParseAll(scenes)) || CrossConflict(ParseAll(scenes)))
      <==> !(exists table: nat -> (nat, nat) :: Answers(table, scenes))
    ensures !(OwnConflict(ParseAll(scenes)) || CrossConflict(ParseAll(scenes)))
      ==> Answers(Lookup(Table(ParseAll(scenes))), scenes)
  {
    hide Answers, Table, Lookup, CrossConflict, OwnConflict, AnyUnknown;
    AllFound(scenes);
    if OwnConflict(ParseAll(scenes)) {
      OwnConflictLeavesNone(scenes);
    } else if CrossConflict(ParseAll(scenes)) {
      CrossConflictLeavesNone(scenes);
    } else {
      TableAnswers(scenes);
    }
  }

  // --- procedural shaders, per structure ------------------------------------------

  /** Both kinds of geometry on one record of one structure. */
  ghost predicate MixedRecord(insts: seq<Instance>) {
    exists i, j, slot: nat :: 0 <= i < |insts| && 0 <= j < |insts| && insts[i].Hits(slot)
      && insts[j].Hits(slot) && HasKind(insts[i], Triangles) && HasKind(insts[j], Procedural)
  }

  lemma {:induction false} ReachFound(insts: seq<Instance>, slot: nat)
    ensures ReachOf(insts, slot).triangles <==>
      exists i :: 0 <= i < |insts| && insts[i].Hits(slot) && HasKind(insts[i], Triangles)
    ensures ReachOf(insts, slot).procedural <==>
      exists i :: 0 <= i < |insts| && insts[i].Hits(slot) && HasKind(insts[i], Procedural)
  {
    if insts != [] {
      var n := |insts| - 1;
      ReachFound(insts[..n], slot);
      forall i | 0 <= i < n ensures insts[..n][i] == insts[i] {}
      assert forall i :: 0 <= i < n && insts[i].Hits(slot) ==> insts[..n][i].Hits(slot);
      assert forall i :: 0 <= i < n && insts[..n][i].Hits(slot) ==> insts[i].Hits(slot);
    }
  }

  /** The second part of `TableWouldBeWrong`, for a shader that commits procedural hits. */
  method KindsWouldBeWrong(ts: seq<TlasInfo>, commitsProcedural: bool) returns (refused: bool)
    ensures refused <==> (commitsProcedural
      && exists s, k :: 0 <= s < |ts| && 0 <= k < |ts[s].reach| && ts[s].reach[k] == Reach(true, true))
  {
    if !commitsProcedural { return false; }
    for s := 0 to |ts|
      invariant forall u, k :: 0 <= u < s && 0 <= k < |ts[u].reach| ==> ts[u].reach[k] != Reach(true, true)
    {
      for k := 0 to |ts[s].reach|
        invariant forall j :: 0 <= j < k ==> ts[s].reach[j] != Reach(true, true)
      {
        if ts[s].reach[k].triangles && ts[s].reach[k].procedural { return true; }
      }
    }
    refused := false;
  }

  /** Which refuses exactly a structure that routes both kinds to one record. */
  lemma KindsRefuseExactly(insts: seq<Instance>)
    ensures MixedRecord(insts) <==>
      exists k :: 0 <= k < |Parse(insts).reach| && Parse(insts).reach[k] == Reach(true, true)
  {
    var reach := Parse(insts).reach;
    if k :| 0 <= k < |reach| && reach[k] == Reach(true, true) {
      ReachFound(insts, k);
    }
    if MixedRecord(insts) {
      var i, j, slot: nat :| 0 <= i < |insts| && 0 <= j < |insts| && insts[i].Hits(slot)
        && insts[j].Hits(slot) && HasKind(insts[i], Triangles) && HasKind(insts[j], Procedural);
      HitsBelowExtent(insts, i, slot);
      ReachFound(insts, slot);
      assert reach[slot] == Reach(true, true);
    }
  }
}
