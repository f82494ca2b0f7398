/**
 Deserialized top-level structures over whole runs: what a decode makes known, in time
 and late, and exactly when the rows a late one files are those of its build.
 */
module AsTrackerDecodes {
  import opened Options
  import opened Readback
  import opened AsLog
  import opened AsParse
  import opened AsTracker
  import opened AsTrackerWorld
  import opened AsTrackerBuilds
  import opened AsTrackerRuns

  // --- deserialized top-level structures -------------------------------------------------------------------

  /** A structure built or deserialized again since: a decode still to come is of an older build, for good. */
  lemma {:induction false} BuiltAgainStays(before: seq<Action>, rest: seq<Action>, dst: Addr, serial: nat)
    requires Runs(before + rest) && Runs(before)
    ensures
      var w, w' := After(before), After(before + rest);
      dst in w.t.lastBuilt && serial < w.t.lastBuilt[dst] ==>
        dst in w'.t.lastBuilt && serial < w'.t.lastBuilt[dst]
  {
    hide Runs, After;
    RunRemembers(before, rest);
    ReachableSerials(before);
    if dst in After(before).t.lastBuilt { assert InOrder(After(before).t, dst); }
  }

  /**
   A decode in time makes exactly the deserialized build known, and the latest: its
   instances, parsed against the bottom level as it was when it was recorded, whatever
   was built or pruned since. Nothing else that is known changes.
   */
  lemma {:induction false} DecodeInTime(actions: seq<Action>, d: Deserialized, descs: seq<Desc>)
    requires Runs(actions)
    ensures
      var w := After(actions);
      (Enabled(w, Decode(d, descs)) && InTime(w, d)) ==>
        var w', b := Step(w, Decode(d, descs)), (d.dst, d.tlasSerial);
        && b in w.truth && descs == w.truth[b].descs
        && w'.t.readOf == w.t.readOf[d.dst := d.tlasSerial]
        && w'.t.tlas == w.t.tlas[d.dst := Parse(Seen(w.log, w.truth[b]))]
        && Current(w'.t, d.dst)
  {
    hide Inv, Runs, After, Step, Enabled, Parse, Seen;
    EveryRunKeeps(actions);
    var w := After(actions);
    if Enabled(w, Decode(d, descs)) && InTime(w, d) { InTimeMeans(w, d, descs); }
  }

  lemma InTimeMeans(w: World, d: Deserialized, descs: seq<Desc>)
    requires Inv(w) && Enabled(w, Decode(d, descs)) && InTime(w, d)
    ensures
      var w', b := Step(w, Decode(d, descs)), (d.dst, d.tlasSerial);
      && b in w.truth && descs == w.truth[b].descs
      && w'.t.readOf == w.t.readOf[d.dst := d.tlasSerial]
      && w'.t.tlas == w.t.tlas[d.dst := Parse(Seen(w.log, w.truth[b]))]
      && Current(w'.t, d.dst)
  {
    ErasedInTime(w, d, descs);
    InTimeIs(w, d, descs);
    hide Inv, Step, Enabled, Parse, Seen, ParseAt, EraseEntry, Remember;
  }

  /** Without the log entry of the deserialize, the instances parse to what their build is. */
  lemma ErasedInTime(w: World, d: Deserialized, descs: seq<Desc>)
    requires Inv(w) && Enabled(w, Decode(d, descs)) && InTime(w, d)
    ensures (d.dst, d.tlasSerial) in w.truth && descs == w.truth[(d.dst, d.tlasSerial)].descs
    ensures
      var t1 := EraseEntry(w.t, d.dst, d.blasSerial);
      && t1.lastBuilt == w.t.lastBuilt
      && ParseAt(t1, descs, At(w.t.tlasAsSerial, d.dst, 0)) == Parse(Seen(w.log, w.truth[(d.dst, d.tlasSerial)]))
  {
    var t1 := EraseEntry(w.t, d.dst, d.blasSerial);
    assert t1 == w.t.(hist := t1.hist);
    assert d in w.decodes && ((d.dst, d.tlasSerial) in w.truth ==> descs == w.truth[(d.dst, d.tlasSerial)].descs);
    hide Inv, Enabled, Parse, Seen, ParseAt, EraseEntry;
    EraseKeeps(w, d);
    InTimeTrue(w.(t := t1), d, descs);
  }

  /**
   One that comes after the structure was built again, at any time since: what is known
   of every structure, and so which are current and live, stays as it was.
   */
  lemma {:induction false} DecodeLate(before: seq<Action>, rest: seq<Action>, d: Deserialized, descs: seq<Desc>)
    requires Runs(before) && Runs(before + rest)
    ensures
      var w0, w := After(before), After(before + rest);
      (d.dst in w0.t.lastBuilt && d.tlasSerial < w0.t.lastBuilt[d.dst] && Enabled(w, Decode(d, descs))) ==>
        var t, t' := w.t, Step(w, Decode(d, descs)).t;
        && t'.tlas == t.tlas && t'.readOf == t.readOf && t'.pending == t.pending
        && (forall a :: Current(t', a) <==> Current(t, a))
        && (forall a :: Live(t', a) <==> Live(t, a))
  {
    hide Runs, After, Step, Enabled, Current, Live;
    BuiltAgainStays(before, rest, d.dst, d.tlasSerial);
    var w := After(before + rest);
    if Enabled(w, Decode(d, descs)) && !InTime(w, d) { LateChangesNothing(w, d, descs); }
  }

  lemma LateChangesNothing(w: World, d: Deserialized, descs: seq<Desc>)
    requires Enabled(w, Decode(d, descs)) && !InTime(w, d)
    ensures
      var t, t' := w.t, Step(w, Decode(d, descs)).t;
      && t'.tlas == t.tlas && t'.readOf == t.readOf && t'.pending == t.pending
      && (forall a :: Current(t', a) <==> Current(t, a))
      && (forall a :: Live(t', a) <==> Live(t, a))
  {
    LateIs(w, d, descs);
    hide Step, Enabled, EraseEntry, Remember, ParseAt, LateKept;
    var t, t' := w.t, Step(w, Decode(d, descs)).t;
    forall a ensures Live(t', a) <==> Live(t, a) {
      assert forall b :: Supersedes(t', b, a) <==> Supersedes(t, b, a);
    }
  }

  /** The rows a late decode files: parsed as of the latest build, not the one they are filed under. */
  ghost function LateRows(w: World, d: Deserialized, descs: seq<Desc>): seq<Row> {
    LateKept(w, d, descs).rows
  }

  /** As of when; 0 means now. */
  function LateAsOf(w: World, d: Deserialized): nat {
    if At(w.t.tlasAsSerial, d.dst, 0) == 0 then w.t.asSerial + 1 else w.t.tlasAsSerial[d.dst]
  }

  /** What a row says of a structure: nothing if it was not found or is unknown, else its kind and geometries. */
  function Look(found: Option<BlasInfo>): Option<(Kind, nat)> {
    match found
    case None => None
    case Some(b) =>
      if b.kind == Unknown then None else Some((b.kind, if b.geometryCount == 0 then 1 else b.geometryCount))
  }

  /** What the log says of a structure as of then. */
  function FoundIn(log: map<Addr, Log>, a: Addr, asOf: nat): Option<BlasInfo> {
    if a in log then BlasAt(log[a], asOf) else None
  }

  /** An instance's structure looks now, in the log as kept, as it did in the log of its build. */
  ghost predicate LooksSame(w: World, d: Deserialized, tr: Truth, x: Desc) {
    || x.blas == 0
    || Look(FoundIn(EraseEntry(w.t, d.dst, d.blasSerial).hist, x.blas, LateAsOf(w, d)))
       == Look(FoundIn(w.log, x.blas, tr.asOf))
  }

  /** Two instances that differ only in what their structure was make the same row exactly when it looks the same. */
  lemma RowsLook(x: Instance, y: Instance)
    requires x.active == y.active && x.contribution == y.contribution
    ensures RowOf(x) == RowOf(y) <==> !x.active || Look(x.found) == Look(y.found)
  {
    if x.active && x.Known() && y.Known() && RowOf(x) == RowOf(y) {
      assert x.Geometries() == y.Geometries() && x.Bits() == y.Bits();
      assert x.found.value.kind == y.found.value.kind;
    }
  }

  /**
   What a late decode files is the build it is filed under exactly when the decode is
   of that build's instances and each one's structure still looks as it did then.
   */
  lemma LateRowsExactly(w: World, d: Deserialized, descs: seq<Desc>, tr: Truth)
    ensures
      (descs == tr.descs && LateRows(w, d, descs) == RowsOf(Seen(w.log, tr)))
      <==> (descs == tr.descs && forall i :: 0 <= i < |descs| ==> LooksSame(w, d, tr, descs[i]))
  {
    assert EraseEntry(w.t, d.dst, d.blasSerial).asSerial == w.t.asSerial;
    hide EraseEntry;
    var hist, asOf := EraseEntry(w.t, d.dst, d.blasSerial).hist, LateAsOf(w, d);
    var now, then_ := Resolve(hist, descs, asOf), Resolve(w.log, descs, tr.asOf);
    assert LateRows(w, d, descs) == RowsOf(now);
    forall i | 0 <= i < |descs|
      ensures RowsOf(now)[i] == RowsOf(then_)[i] <==> LooksSame(w, d, tr, descs[i])
    {
      assert now[i] == ResolveOne(hist, descs[i], asOf) && then_[i] == ResolveOne(w.log, descs[i], tr.asOf);
      RowsLook(now[i], then_[i]);
    }
  }

  /** No build or copy of that structure from then on. */
  predicate UntouchedSince(log: map<Addr, Log>, a: Addr, since: nat) {
    forall i :: 0 <= i < |At(log, a, [])| ==> At(log, a, [])[i].serial < since
  }

  /**
   Which a caller has, over every run, when none of the instances' structures was built
   or copied since the older of the two builds was recorded.
   */
  lemma {:induction false} LateRowsRight(actions: seq<Action>, d: Deserialized)
    requires Runs(actions)
    ensures
      var w, b := After(actions), (d.dst, d.tlasSerial);
      && (d in w.decodes ==> b in w.truth)
      && (d in w.decodes && (forall x :: x in w.truth[b].descs ==>
            UntouchedSince(w.log, x.blas, w.truth[b].asOf) && UntouchedSince(w.log, x.blas, LateAsOf(w, d))) ==>
            LateRows(w, d, w.truth[b].descs) == RowsOf(Seen(w.log, w.truth[b])))
  {
    hide Inv, Runs, After, UntouchedSince, LateRows, Seen, RowsOf, LateAsOf;
    EveryRunKeeps(actions);
    var w, b := After(actions), (d.dst, d.tlasSerial);
    if d in w.decodes {
      DecodeIs(w, d);
      if forall x :: x in w.truth[b].descs ==>
        UntouchedSince(w.log, x.blas, w.truth[b].asOf) && UntouchedSince(w.log, x.blas, LateAsOf(w, d))
      {
        UntouchedRight(w, d, w.truth[b]);
      }
    }
  }

  lemma UntouchedRight(w: World, d: Deserialized, tr: Truth)
    requires Inv(w) && d in w.decodes && (d.dst, d.tlasSerial) in w.truth && tr == w.truth[(d.dst, d.tlasSerial)]
    requires forall x :: x in tr.descs ==>
      UntouchedSince(w.log, x.blas, tr.asOf) && UntouchedSince(w.log, x.blas, LateAsOf(w, d))
    ensures LateRows(w, d, tr.descs) == RowsOf(Seen(w.log, tr))
  {
    var w1 := w.(t := EraseEntry(w.t, d.dst, d.blasSerial));
    EraseKeeps(w, d);
    forall i | 0 <= i < |tr.descs| ensures LooksSame(w, d, tr, tr.descs[i]) {
      assert tr.descs[i] in tr.descs && PointsBelow(w.log, w.tops, tr.descs, tr.asOf);
      hide Inv, PointsBelow, EraseEntry, UntouchedSince, LateAsOf;
      UntouchedLooks(w1, tr.descs[i], tr, LateAsOf(w, d));
    }
    hide Inv, EraseEntry;
    LateRowsExactly(w, d, tr.descs, tr);
  }

  lemma UntouchedLooks(w: World, x: Desc, tr: Truth, asOf: nat)
    requires Inv(w) && x in tr.descs && PointsBelow(w.log, w.tops, tr.descs, tr.asOf)
    requires UntouchedSince(w.log, x.blas, tr.asOf) && UntouchedSince(w.log, x.blas, asOf)
    ensures ResolveOne(w.t.hist, x, asOf) == ResolveOne(w.log, x, tr.asOf)
  {
    var kept, log := At(w.t.hist, x.blas, []), At(w.log, x.blas, []);
    assert !TopThen(w.log, w.tops, x.blas, tr.asOf);
    assert LogAt(w.t.asSerial, w.tops, x.blas, kept, log);
    assert OldAnswer(w.tops, x.blas, kept, log, asOf);
  }

  // The failing run: structure 9 has one geometry, a scene that points at it is
  // deserialized to 5, 9 is built again with two geometries, then 5.

  const ONE := BlasInfo(Triangles, 1, 0)
  const TWO := BlasInfo(Triangles, 2, 0)
  const POINTS_AT_9: seq<Desc> := [Desc(9, 0)]

  function LateRun(owner: nat): seq<Action> {
    [] + [BuildBottom(9, ONE, 1)] + [DeserializeTop(5, POINTS_AT_9)] + [BuildBottom(9, TWO, 3)] + [BuildTop(5, [], owner)]
  }

  lemma BuiltFirst()
    ensures Enabled(START, BuildBottom(9, ONE, 1))
    ensures
      var log := map[9 := [Entry(1, ONE)]];
      Step(START, BuildBottom(9, ONE, 1)) == START.(t := EMPTY.(asSerial := 1, hist := log), log := log)
  {
    assert ([] + [Entry(1, ONE)])[0..] == [Entry(1, ONE)];
  }

  /** The world after the deserialize, as far as the rest of the run looks at it. */
  ghost predicate Deserialized5(w: World) {
    && At(w.log, 9, []) == [Entry(1, ONE)] == At(w.t.hist, 9, [])
    && w.t.asSerial == 3 && w.t.tlasSerial == 1 && w.t.lastBuilt == map[5 := 1] && w.t.tlasAsSerial == map[5 := 3]
    && w.t.readOf == map[] && w.t.pending == [] && w.noting == map[5 := ByDecode] && w.gpu == IDLE
    && w.truth == map[(5, 1) := Truth(POINTS_AT_9, 3, 1)] && w.decodes == {Deserialized(5, 2, 1)}
  }

  lemma DeserializedSecond(w: World)
    requires w == START.(t := EMPTY.(asSerial := 1, hist := map[9 := [Entry(1, ONE)]]), log := map[9 := [Entry(1, ONE)]])
    ensures Enabled(w, DeserializeTop(5, POINTS_AT_9)) && Deserialized5(Step(w, DeserializeTop(5, POINTS_AT_9)))
  {
    assert Enabled(w, DeserializeTop(5, POINTS_AT_9));
    TopStepIs(w, DeserializeTop(5, POINTS_AT_9));
    DeserializedTables(w, 5);
    hide Step, DeserializeStep, Enabled;
    DeserializedReadOf(w);
  }

  lemma DeserializedReadOf(w: World)
    requires w.t.readOf == map[]
    ensures DeserializeStep(w, 5).t.readOf == map[]
  {}

  /** 9 and 5 are built again: the floor keeps what the first build is still to be asked. */
  ghost predicate BuiltAgain(w: World) {
    && At(w.log, 9, []) == [Entry(1, ONE), Entry(4, TWO)] == At(w.t.hist, 9, [])
    && w.t.lastBuilt == map[5 := 2] && w.t.tlasAsSerial == map[5 := 5]
    && (5, 1) in w.truth && w.truth[(5, 1)] == Truth(POINTS_AT_9, 3, 1) && w.decodes == {Deserialized(5, 2, 1)}
  }

  lemma BuiltThird(w: World)
    requires Deserialized5(w)
    ensures Enabled(w, BuildBottom(9, TWO, 3))
    ensures
      var w' := Step(w, BuildBottom(9, TWO, 3));
      && At(w'.log, 9, []) == [Entry(1, ONE), Entry(4, TWO)] == At(w'.t.hist, 9, [])
      && w' == w.(t := w.t.(asSerial := 4, hist := w'.t.hist), log := w'.log)
  {
    assert 5 in w.t.tlasAsSerial && !Current(w.t, 5) && w.t.tlasAsSerial[5] == 3;
    var h := [Entry(1, ONE)] + [Entry(4, TWO)];
    assert h[..1] == [Entry(1, ONE)] && KeepFrom(h, 3) == 0 && h[0..] == h;
    assert h == [Entry(1, ONE), Entry(4, TWO)];
  }

  lemma BuiltFourth(w: World, w3: World, owner: nat)
    requires Deserialized5(w) && At(w3.log, 9, []) == [Entry(1, ONE), Entry(4, TWO)] == At(w3.t.hist, 9, [])
    requires w3 == w.(t := w.t.(asSerial := 4, hist := w3.t.hist), log := w3.log)
    ensures Enabled(w3, BuildTop(5, [], owner)) && BuiltAgain(Step(w3, BuildTop(5, [], owner)))
  {}

  /** All of it is a run, and leaves the decode to come late. */
  lemma LateRunRuns(owner: nat)
    ensures Runs(LateRun(owner)) && BuiltAgain(After(LateRun(owner)))
  {
    BuiltFirst();
    hide Enabled, Step, BuiltAgain;
    var one := [] + [BuildBottom(9, ONE, 1)];
    var two := one + [DeserializeTop(5, POINTS_AT_9)];
    var three := two + [BuildBottom(9, TWO, 3)];
    RunsNext([], BuildBottom(9, ONE, 1));
    hide Runs, After;
    DeserializedSecond(After(one));
    hide Deserialized5;
    RunsNext(one, DeserializeTop(5, POINTS_AT_9));
    BuiltThird(After(two));
    RunsNext(two, BuildBottom(9, TWO, 3));
    BuiltFourth(After(two), After(three), owner);
    RunsNext(three, BuildTop(5, [], owner));
  }

  /** The decode files one row of two geometries under a build whose instance has one. */
  lemma LateRowsWrong(owner: nat)
    ensures Runs(LateRun(owner))
    ensures
      var w, d := After(LateRun(owner)), Deserialized(5, 2, 1);
      && Enabled(w, Decode(d, POINTS_AT_9)) && !InTime(w, d) && (5, 1) in w.truth
      && LateRows(w, d, POINTS_AT_9) != RowsOf(Seen(w.log, w.truth[(5, 1)]))
  {
    LateRunRuns(owner);
    hide Runs, After;
    var w, d := After(LateRun(owner)), Deserialized(5, 2, 1);
    var log := [Entry(1, ONE), Entry(4, TWO)];
    assert log[..1] == [Entry(1, ONE)];
    assert EntryAt(log, 5) == Some(Entry(4, TWO)) && EntryAt(log[..1], 3) == Some(Entry(1, ONE)) == EntryAt(log, 3);
    assert !LooksSame(w, d, w.truth[(5, 1)], POINTS_AT_9[0]);
    hide LateRows, Seen, RowsOf, LooksSame;
    LateRowsExactly(w, d, POINTS_AT_9, w.truth[(5, 1)]);
  }
}
