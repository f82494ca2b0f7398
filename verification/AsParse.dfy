/**
 What the instance descriptions of a top-level structure say about hit group
 records (`ParseLocked` and `TlasInfo` in `proxy/as_tracker.cpp`).

 With the geometry multiplier at 1 and no ray contribution, the DXR Functional
 Spec ("Hit group table indexing") puts geometry g of an instance on record
 g + InstanceContributionToHitGroupIndex.
 */
module AsParse {
  import opened Options
  import opened AsLog

  type Addr = nat

  /** InstanceContributionToHitGroupIndex is a 24 bit field. */
  type Contribution = n: nat | n < 0x100_0000

  /** The two fields of an instance description that matter here; address 0 is inactive. */
  datatype Desc = Desc(blas: Addr, contribution: Contribution)

  /** An instance with what its structure was when its top-level build was recorded. */
  datatype Instance = Instance(active: bool, contribution: Contribution, found: Option<BlasInfo>)
  {
    /** How many records it occupies; a structure of unknown geometry counts as one. */
    function Geometries(): (n: nat)
      ensures n > 0
    {
      if found.None? || found.value.geometryCount == 0 then 1 else found.value.geometryCount
    }

    predicate Known() { active && found.Some? && found.value.kind != Unknown }

    /** Is that a geometry of it? The structure's, as many as it was built with; one, when that is not known. */
    predicate HasGeometry(g: int) {
      && active && found.Some?
      && (0 <= g < found.value.geometryCount || (found.value.geometryCount == 0 && g == 0))
    }

    /** Does a hit on one of its geometries land on the record? Geometry g does on contribution + g. */
    predicate Hits(slot: nat) { HasGeometry(slot - contribution) }

    function Bits(): Reach {
      if !active || found.None? then NO_REACH
      else Reach(found.value.kind in {Triangles, Mixed}, found.value.kind in {Procedural, Mixed})
    }
  }

  /** Which kinds of geometry reach a record. */
  datatype Reach = Reach(triangles: bool, procedural: bool)

  const NO_REACH := Reach(false, false)

  function Join(a: Reach, b: Reach): Reach {
    Reach(a.triangles || b.triangles, a.procedural || b.procedural)
  }

  datatype RecordConstants = RecordConstants(geometryIndex: nat, instanceContribution: nat, taken: bool)

  const NO_CONSTANTS := RecordConstants(0, 0, false)

  datatype Row = Row(active: bool, contribution: nat, geometries: nat, reach: Reach)

  /** The classes are kept sorted and without duplicates: a set. */
  datatype TlasInfo = TlasInfo(
    valid: bool,
    instanceCount: nat,
    maxContribution: nat,
    recordCount: nat,
    constants: seq<RecordConstants>,
    constantsConflict: bool,
    anyTriangles: bool,
    anyProcedural: bool,
    unknownBlas: nat,
    reach: seq<Reach>,
    classes: set<(nat, nat)>,
    rows: seq<Row>)

  // --- what each part is, over the instances in order -----------------------------

  function MaxContribution(insts: seq<Instance>): nat {
    if insts == [] then 0
    else
      var front, x := MaxContribution(insts[..|insts| - 1]), insts[|insts| - 1];
      if x.active && x.contribution > front then x.contribution else front
  }

  /** One past the last record an active instance occupies. */
  function Extent(insts: seq<Instance>): nat {
    if insts == [] then 0
    else
      var front, x := Extent(insts[..|insts| - 1]), insts[|insts| - 1];
      if x.active && x.contribution + x.Geometries() > front then x.contribution + x.Geometries() else front
  }

  function RecordCount(insts: seq<Instance>): nat {
    if Extent(insts) == 0 then 1 else Extent(insts)
  }

  /** The pair the first instance that hits the record puts there. */
  function FirstHit(insts: seq<Instance>, slot: nat): RecordConstants {
    if insts == [] then NO_CONSTANTS
    else
      var front, x := FirstHit(insts[..|insts| - 1], slot), insts[|insts| - 1];
      if front.taken || !x.Hits(slot) then front
      else RecordConstants(slot - x.contribution, x.contribution, true)
  }

  /** Two instances put different pairs on one record. */
  ghost predicate Conflicts(insts: seq<Instance>) {
    exists i, j, slot: nat :: 0 <= i < |insts| && 0 <= j < |insts|
      && insts[i].Hits(slot) && insts[j].Hits(slot) && insts[i].contribution != insts[j].contribution
  }

  function ReachOf(insts: seq<Instance>, slot: nat): Reach {
    if insts == [] then NO_REACH
    else
      var front, x := ReachOf(insts[..|insts| - 1], slot), insts[|insts| - 1];
      if x.Hits(slot) then Join(front, x.Bits()) else front
  }

  function AnyBits(insts: seq<Instance>): Reach {
    if insts == [] then NO_REACH
    else Join(AnyBits(insts[..|insts| - 1]), insts[|insts| - 1].Bits())
  }

  function UnknownCount(insts: seq<Instance>): nat {
    if insts == [] then 0
    else
      var x := insts[|insts| - 1];
      UnknownCount(insts[..|insts| - 1]) + if x.active && !x.Known() then 1 else 0
  }

  function Classes(insts: seq<Instance>): set<(nat, nat)> {
    set x | x in insts && x.active && x.found.Some? :: (x.contribution as nat, x.Geometries())
  }

  function RowOf(x: Instance): Row {
    if !x.active then Row(false, 0, 0, NO_REACH)
    else if x.found.None? then Row(true, x.contribution, 0, NO_REACH)
    else Row(true, x.contribution, if x.found.value.kind == Unknown then 0 else x.Geometries(), x.Bits())
  }

  function RowsOf(insts: seq<Instance>): (r: seq<Row>)
    ensures |r| == |insts| && forall i :: 0 <= i < |insts| ==> r[i] == RowOf(insts[i])
  {
    seq(|insts|, i requires 0 <= i < |insts| => RowOf(insts[i]))
  }

  function ConstantsOf(insts: seq<Instance>, n: nat): (r: seq<RecordConstants>)
    ensures |r| == n && forall k :: 0 <= k < n ==> r[k] == FirstHit(insts, k)
  {
    seq(n, k requires 0 <= k => FirstHit(insts, k))
  }

  function ReachesOf(insts: seq<Instance>, n: nat): (r: seq<Reach>)
    ensures |r| == n && forall k :: 0 <= k < n ==> r[k] == ReachOf(insts, k)
  {
    seq(n, k requires 0 <= k => ReachOf(insts, k))
  }

  ghost function Parse(insts: seq<Instance>): TlasInfo {
    TlasInfo(true, |insts|, MaxContribution(insts), RecordCount(insts),
             ConstantsOf(insts, RecordCount(insts)), Conflicts(insts),
             AnyBits(insts).triangles, AnyBits(insts).procedural, UnknownCount(insts),
             ReachesOf(insts, RecordCount(insts)), Classes(insts), RowsOf(insts))
  }

  /** Each instance's structure, looked up in the logs as of the top-level build. */
  function Resolve(logs: map<Addr, Log>, descs: seq<Desc>, asOf: nat): (insts: seq<Instance>)
    ensures |insts| == |descs|
    ensures forall i :: 0 <= i < |descs| ==> insts[i] == ResolveOne(logs, descs[i], asOf)
  {
    seq(|descs|, i requires 0 <= i < |descs| => ResolveOne(logs, descs[i], asOf))
  }

  function ResolveOne(logs: map<Addr, Log>, d: Desc, asOf: nat): Instance {
    Instance(d.blas != 0, d.contribution,
             if d.blas in logs then BlasAt(logs[d.blas], asOf) else None)
  }

  // --- facts about the parts ---------------------------------------------------------

  /**
   The records an instance is given are exactly those its geometries land on; its row
   says how many, where and of what kinds.
   */
  lemma GeometriesAre(x: Instance, g: nat)
    ensures x.active && x.found.Some? ==> (g < x.Geometries() <==> x.HasGeometry(g))
    ensures g < RowOf(x).geometries <==> x.HasGeometry(g) && x.found.value.kind != Unknown
    ensures RowOf(x).active == x.active && RowOf(x).contribution == if x.active then x.contribution else 0
    ensures RowOf(x).reach == Reach(HasKind(x, Triangles), HasKind(x, Procedural))
  {}

  /** The record count is one past the last record an instance is placed on: no more records than that. */
  lemma {:induction false} ExtentReached(insts: seq<Instance>)
    ensures Extent(insts) == 0 <==> forall i :: 0 <= i < |insts| ==> !insts[i].active
    ensures Extent(insts) > 0 ==> exists i :: 0 <= i < |insts| && EndsAt(insts[i], Extent(insts) - 1)
    ensures forall i, slot: nat :: 0 <= i < |insts| && EndsAt(insts[i], slot) ==> slot < Extent(insts)
  {
    if insts != [] {
      var n := |insts| - 1;
      var front := insts[..n];
      ExtentReached(front);
      assert forall i :: 0 <= i < n ==> front[i] == insts[i];
      if insts[n].active { assert EndsAt(insts[n], insts[n].contribution + insts[n].Geometries() - 1); }
      if Extent(insts) == Extent(front) > 0 {
        var i :| 0 <= i < n && EndsAt(front[i], Extent(front) - 1);
        assert EndsAt(insts[i], Extent(insts) - 1);
      }
    }
  }

  /** The instance's last geometry lands there; one whose structure was not found has its contribution alone. */
  ghost predicate EndsAt(x: Instance, slot: nat) {
    && x.active
    && if x.found.None? then slot == x.contribution else x.Hits(slot) && !x.Hits(slot + 1)
  }

  lemma {:induction false} MaxContributionFound(insts: seq<Instance>)
    ensures forall i :: 0 <= i < |insts| && insts[i].active ==> insts[i].contribution <= MaxContribution(insts)
    ensures MaxContribution(insts) > 0 ==>
      exists i :: 0 <= i < |insts| && insts[i].active && insts[i].contribution == MaxContribution(insts)
  {
    if insts != [] {
      var n := |insts| - 1;
      var front := insts[..n];
      MaxContributionFound(front);
      assert forall i :: 0 <= i < n ==> front[i] == insts[i];
    }
  }

  /** Some active instance has that kind of geometry. */
  ghost predicate Holds(insts: seq<Instance>, kind: Kind) {
    exists i :: 0 <= i < |insts| && HasKind(insts[i], kind)
  }

  predicate HasKind(x: Instance, kind: Kind) {
    x.active && x.found.Some? && x.found.value.kind in {kind, Mixed}
  }

  lemma {:induction false} AnyBitsFound(insts: seq<Instance>)
    ensures AnyBits(insts).triangles <==> Holds(insts, Triangles)
    ensures AnyBits(insts).procedural <==> Holds(insts, Procedural)
  {
    if insts != [] {
      var n := |insts| - 1;
      var front := insts[..n];
      AnyBitsFound(front);
      forall kind | kind in {Triangles, Procedural}
        ensures Holds(insts, kind) <==> Holds(front, kind) || HasKind(insts[n], kind)
      {
        assert forall i :: 0 <= i < n ==> front[i] == insts[i];
        if Holds(front, kind) {
          var i :| 0 <= i < n && HasKind(front[i], kind);
          assert HasKind(insts[i], kind);
        }
        if HasKind(insts[n], kind) { assert Holds(insts, kind); }
      }
    }
  }

  /** The instances whose geometry is not known. */
  ghost function UnknownOnes(insts: seq<Instance>): set<int> {
    set i | 0 <= i < |insts| && insts[i].active && (insts[i].found.None? || insts[i].found.value.kind == Unknown)
  }

  /** Each is counted, once. */
  lemma {:induction false} UnknownCounted(insts: seq<Instance>)
    ensures UnknownCount(insts) == |UnknownOnes(insts)|
  {
    if insts != [] {
      var n := |insts| - 1;
      UnknownCounted(insts[..n]);
      assert UnknownOnes(insts[..n]) == UnknownOnes(insts) - {n};
    }
  }

  lemma {:induction false} HitsBelowExtent(insts: seq<Instance>, i: nat, slot: nat)
    requires i < |insts| && insts[i].Hits(slot)
    ensures slot < Extent(insts) == RecordCount(insts)
  {
    var n := |insts| - 1;
    if i < n {
      assert insts[..n][i] == insts[i];
      HitsBelowExtent(insts[..n], i, slot);
    }
  }

  lemma {:induction false} FirstHitFound(insts: seq<Instance>, slot: nat)
    ensures FirstHit(insts, slot).taken <==> exists i :: 0 <= i < |insts| && insts[i].Hits(slot)
    ensures FirstHit(insts, slot).taken ==>
      exists i :: 0 <= i < |insts| && insts[i].Hits(slot)
        && FirstHit(insts, slot) == RecordConstants(slot - insts[i].contribution, insts[i].contribution, true)
    ensures !FirstHit(insts, slot).taken ==> FirstHit(insts, slot) == NO_CONSTANTS
  {
    if insts != [] {
      var n := |insts| - 1;
      FirstHitFound(insts[..n], slot);
      if FirstHit(insts[..n], slot).taken {
        var i :| 0 <= i < n && insts[..n][i].Hits(slot) && FirstHit(insts[..n], slot)
              == RecordConstants(slot - insts[..n][i].contribution, insts[..n][i].contribution, true);
        assert insts[i].Hits(slot);
      } else {
        forall i | 0 <= i < n ensures !insts[i].Hits(slot) {
          assert insts[..n][i] == insts[i];
        }
      }
    }
  }

  /** Without a conflict, every instance that hits a record agrees with the first one. */
  lemma AgreesWithFirst(insts: seq<Instance>, i: nat, slot: nat)
    requires i < |insts| && insts[i].Hits(slot) && !Conflicts(insts)
    ensures FirstHit(insts, slot) == RecordConstants(slot - insts[i].contribution, insts[i].contribution, true)
  {
    FirstHitFound(insts, slot);
    var j :| 0 <= j < |insts| && insts[j].Hits(slot) && FirstHit(insts, slot)
          == RecordConstants(slot - insts[j].contribution, insts[j].contribution, true);
  }

  lemma ConflictsNext(insts: seq<Instance>)
    requires insts != []
    ensures
      var n := |insts| - 1;
      Conflicts(insts) <==>
        || Conflicts(insts[..n])
        || exists slot: nat :: insts[n].Hits(slot) && FirstHit(insts[..n], slot).taken
             && FirstHit(insts[..n], slot).instanceContribution != insts[n].contribution
  {
    var n := |insts| - 1;
    var front, x := insts[..n], insts[n];
    if Conflicts(front) {
      var i, j, slot: nat :| 0 <= i < n && 0 <= j < n && front[i].Hits(slot) && front[j].Hits(slot)
        && front[i].contribution != front[j].contribution;
      assert insts[i].Hits(slot) && insts[j].Hits(slot);
    } else if exists slot: nat :: x.Hits(slot) && FirstHit(front, slot).taken
                && FirstHit(front, slot).instanceContribution != x.contribution {
      var slot: nat :| x.Hits(slot) && FirstHit(front, slot).taken
                && FirstHit(front, slot).instanceContribution != x.contribution;
      FirstHitFound(front, slot);
      var i :| 0 <= i < n && front[i].Hits(slot) && FirstHit(front, slot)
            == RecordConstants(slot - front[i].contribution, front[i].contribution, true);
      assert insts[i].Hits(slot);
    } else {
      forall i, j, slot: nat | 0 <= i <= n && 0 <= j <= n && insts[i].Hits(slot) && insts[j].Hits(slot)
        ensures insts[i].contribution == insts[j].contribution
      {
        if i < n {
          assert front[i].Hits(slot);
          AgreesWithFirst(front, i, slot);
        }
        if j < n {
          assert front[j].Hits(slot);
          AgreesWithFirst(front, j, slot);
        }
      }
    }
  }

  lemma RowsNext(insts: seq<Instance>)
    requires insts != []
    ensures RowsOf(insts) == RowsOf(insts[..|insts| - 1]) + [RowOf(insts[|insts| - 1])]
  {}

  lemma ClassesNext(insts: seq<Instance>)
    requires insts != []
    ensures
      var x := insts[|insts| - 1];
      Classes(insts) == Classes(insts[..|insts| - 1])
        + if x.active && x.found.Some? then {(x.contribution as nat, x.Geometries())} else {}
  {
    var n := |insts| - 1;
    assert insts == insts[..n] + [insts[n]];
  }

  /**
   An instance is of the structure's latest build among those recorded before its own; it
   is inactive without an address.
   */
  lemma ResolvedIsLatest(logs: map<Addr, Log>, d: Desc, asOf: nat, e: Entry)
    requires d.blas in logs && Sorted(logs[d.blas]) && e in logs[d.blas] && e.serial < asOf
    requires forall x :: x in logs[d.blas] && x.serial < asOf ==> x.serial <= e.serial
    ensures ResolveOne(logs, d, asOf) == Instance(d.blas != 0, d.contribution, Some(e.info))
  {
    var log := logs[d.blas];
    var i :| 0 <= i < |log| && log[i] == e;
    if i + 1 < |log| { assert log[i + 1] in log; }
    BlasAtIsLatest(log, asOf);
  }

  /** Two logs that answer alike for every instance parse alike. */
  lemma ResolveSame(logs: map<Addr, Log>, logs': map<Addr, Log>, descs: seq<Desc>, asOf: nat)
    requires forall d :: d in descs ==> ResolveOne(logs, d, asOf) == ResolveOne(logs', d, asOf)
    ensures Resolve(logs, descs, asOf) == Resolve(logs', descs, asOf)
  {}

  // --- ParseLocked -------------------------------------------------------------------

  /** The first loop: how many records the instances need. */
  method CountRecords(insts: seq<Instance>) returns (maxContribution: nat, recordCount: nat)
    ensures maxContribution == MaxContribution(insts) && recordCount == RecordCount(insts)
  {
    maxContribution, recordCount := 0, 0;
    for i := 0 to |insts|
      invariant maxContribution == MaxContribution(insts[..i])
      invariant recordCount == Extent(insts[..i])
    {
      assert insts[..i + 1][..i] == insts[..i];
      if insts[i].active {
        var ic := insts[i].contribution;
        if ic > maxContribution { maxContribution := ic; }
        var end := ic + insts[i].Geometries();
        if end > recordCount { recordCount := end; }
      }
    }
    assert insts[..|insts|] == insts;
    if recordCount == 0 { recordCount := 1; }
  }

  /** The inner loop: one instance's geometries onto the records, first come first served. */
  method PlaceInstance(x: Instance, constants: seq<RecordConstants>, reach: seq<Reach>, conflict: bool)
    returns (constants': seq<RecordConstants>, reach': seq<Reach>, conflict': bool)
    requires x.active && x.found.Some?
    requires |constants| == |reach| && x.contribution + x.Geometries() <= |constants|
    requires forall k :: 0 <= k < |constants| && constants[k].taken ==>
      constants[k].geometryIndex + constants[k].instanceContribution == k
    ensures |constants'| == |constants| && |reach'| == |reach|
    ensures forall k :: 0 <= k < |constants| ==>
      constants'[k] == if x.Hits(k) && !constants[k].taken
                       then RecordConstants(k - x.contribution, x.contribution, true) else constants[k]
    ensures forall k :: 0 <= k < |reach| ==>
      reach'[k] == if x.Hits(k) then Join(reach[k], x.Bits()) else reach[k]
    ensures conflict' <==> (conflict || exists k ::
      0 <= k < |constants| && x.Hits(k) && constants[k].taken
      && constants[k].instanceContribution != x.contribution)
  {
    var ic := x.contribution as nat;
    constants', reach', conflict' := constants, reach, conflict;
    for gi := 0 to x.Geometries()
      invariant |constants'| == |constants| && |reach'| == |reach|
      invariant forall k :: 0 <= k < |constants| ==>
        constants'[k] == if ic <= k < ic + gi && !constants[k].taken
                         then RecordConstants(k - ic, ic, true) else constants[k]
      invariant forall k :: 0 <= k < |reach| ==>
        reach'[k] == if ic <= k < ic + gi then Join(reach[k], x.Bits()) else reach[k]
      invariant conflict' <==> (conflict || exists k ::
        0 <= k < |constants| && ic <= k < ic + gi && constants[k].taken
        && constants[k].instanceContribution != ic)
    {
      var slot := ic + gi;
      if slot >= |constants'| { break; }
      reach' := reach'[slot := Join(reach'[slot], x.Bits())];
      var rc := constants'[slot];
      if rc.taken {
        if rc.geometryIndex != gi || rc.instanceContribution != ic {
          assert constants[slot].instanceContribution != ic;
          conflict' := true;
        }
      } else {
        constants' := constants'[slot := RecordConstants(gi, ic, true)];
      }
    }
  }

  /** What has been gathered from the first `i` instances, for a table of `n` records. */
  ghost predicate Gathered(insts: seq<Instance>, n: nat, constants: seq<RecordConstants>,
                           reach: seq<Reach>, conflict: bool)
  {
    && |constants| == |reach| == n
    && (forall k :: 0 <= k < n ==> constants[k] == FirstHit(insts, k))
    && (forall k :: 0 <= k < n ==> reach[k] == ReachOf(insts, k))
    && (conflict <==> Conflicts(insts))
  }

  lemma GatheredSkips(insts: seq<Instance>, x: Instance, n: nat, constants: seq<RecordConstants>,
                      reach: seq<Reach>, conflict: bool)
    requires Gathered(insts, n, constants, reach, conflict)
    requires !x.active || x.found.None?
    ensures Gathered(insts + [x], n, constants, reach, conflict)
  {
    var next := insts + [x];
    assert next[..|insts|] == insts;
    ConflictsNext(next);
  }

  method GatherInstance(ghost insts: seq<Instance>, x: Instance, constants: seq<RecordConstants>,
                        reach: seq<Reach>, conflict: bool)
    returns (constants': seq<RecordConstants>, reach': seq<Reach>, conflict': bool)
    requires x.active && x.found.Some?
    requires Gathered(insts, |constants|, constants, reach, conflict)
    requires x.contribution + x.Geometries() <= |constants|
    ensures |constants'| == |constants|
    ensures Gathered(insts + [x], |constants|, constants', reach', conflict')
  {
    ghost var next := insts + [x];
    assert next[..|insts|] == insts && next[|insts|] == x;
    ConflictsNext(next);
    TakenSums(insts, |constants|, constants);
    constants', reach', conflict' := PlaceInstance(x, constants, reach, conflict);
  }

  /** The counters beside the records: bits of all the instances, unknown ones, classes, rows. */
  ghost predicate Tallied(insts: seq<Instance>, any: Reach, unknown: nat, classes: set<(nat, nat)>, rows: seq<Row>) {
    && any == AnyBits(insts) && unknown == UnknownCount(insts)
    && classes == Classes(insts) && rows == RowsOf(insts)
  }

  method TallyInstance(ghost insts: seq<Instance>, x: Instance, any: Reach, unknown: nat,
                       classes: set<(nat, nat)>, rows: seq<Row>)
    returns (any': Reach, unknown': nat, classes': set<(nat, nat)>, rows': seq<Row>)
    requires Tallied(insts, any, unknown, classes, rows)
    ensures Tallied(insts + [x], any', unknown', classes', rows')
  {
    ghost var next := insts + [x];
    assert next[..|insts|] == insts && next[|insts|] == x;
    RowsNext(next);
    ClassesNext(next);
    any', unknown', classes', rows' := any, unknown, classes, rows + [RowOf(x)];
    if x.active && x.found.None? {
      unknown' := unknown + 1;
    } else if x.active {
      if x.found.value.kind == Unknown { unknown' := unknown + 1; }
      any' := Join(any, x.Bits());
      classes' := classes + {(x.contribution as nat, x.Geometries())};
    }
  }

  /** `ParseLocked` of the instances and the structures found for them. */
  method ParseLocked(insts: seq<Instance>) returns (t: TlasInfo)
    ensures t == Parse(insts)
  {
    var maxContribution, n := CountRecords(insts);
    var constants := seq(n, _ => NO_CONSTANTS);
    var reach := seq(n, _ => NO_REACH);
    var conflict, any, unknown := false, NO_REACH, 0;
    var classes: set<(nat, nat)> := {};
    var rows: seq<Row> := [];
    for i := 0 to |insts|
      invariant |constants| == n
      invariant Gathered(insts[..i], n, constants, reach, conflict)
      invariant Tallied(insts[..i], any, unknown, classes, rows)
    {
      hide Gathered, Tallied, RecordCount;
      assert insts[..i + 1] == insts[..i] + [insts[i]];
      var x := insts[i];
      any, unknown, classes, rows := TallyInstance(insts[..i], x, any, unknown, classes, rows);
      if x.active && x.found.Some? {
        FitsExtent(insts, i);
        constants, reach, conflict := GatherInstance(insts[..i], x, constants, reach, conflict);
      } else {
        GatheredSkips(insts[..i], x, n, constants, reach, conflict);
      }
    }
    assert insts[..|insts|] == insts;
    assert constants == ConstantsOf(insts, n);
    assert reach == ReachesOf(insts, n);
    t := TlasInfo(true, |insts|, maxContribution, n, constants, conflict, any.triangles, any.procedural,
                  unknown, reach, classes, rows);
  }

  lemma {:induction false} FitsExtent(insts: seq<Instance>, i: nat)
    requires i < |insts| && insts[i].active
    ensures insts[i].contribution + insts[i].Geometries() <= RecordCount(insts)
  {
    var n := |insts| - 1;
    if i < n {
      assert insts[..n][i] == insts[i];
      FitsExtent(insts[..n], i);
    }
  }

  lemma TakenSums(insts: seq<Instance>, n: nat, constants: seq<RecordConstants>)
    requires |constants| == n && forall k :: 0 <= k < n ==> constants[k] == FirstHit(insts, k)
    ensures forall k :: 0 <= k < n && constants[k].taken ==>
      constants[k].geometryIndex + constants[k].instanceContribution == k
  {
    forall k | 0 <= k < n && constants[k].taken
      ensures constants[k].geometryIndex + constants[k].instanceContribution == k
    {
      FirstHitFound(insts, k);
    }
  }
}
