/**
 A dispatch whose hit shaders read GeometryIndex() (`RecordTable` in
 `proxy/geom_index_so.cpp`): the table copy it is issued against, or why it is not, and
 what its hits read. From the instances of a build to the word a shader loads.
 */
module GeometryIndex {
  import opened Options
  import opened AsParse
  import opened AsTracker
  import opened SceneLabels
  import opened Labels
  import opened GeomTable
  import AsTrackerState

  /** The state object: were its TraceRay arguments all found, and the hit groups that were extended. */
  datatype Info = Info(dynamicTraceArgs: bool, groups: seq<Group>, recordBytes: nat)

  /** The application's hit group table, in bytes. */
  datatype Table = Table(size: nat, stride: nat)
  {
    /** Cut to 32 bits. */
    function Records(): nat { if stride == 0 then 0 else size / stride % WRAP }
  }

  /** D3D12: strides are multiples of 32 and no record is over 4096 bytes; a label is inside its record. */
  ghost predicate Legal(info: Info, app: Table) {
    && app.stride % 32 == 0 && app.stride <= 4096 && info.recordBytes <= 4096
    && WellFormed(info.groups)
    && forall k :: 0 <= k < |info.groups| ==>
         info.groups[k].offset % 4 == 0 && info.groups[k].offset + 4 <= info.recordBytes
  }

  datatype Plan = Unchanged | Refused(shared: bool) | Copy(p: Params, meta: seq<Word>)

  /** Two geometries on one of the records. */
  ghost predicate Shared(hits: set<(nat, nat)>, records: nat) {
    exists g, h :: g in hits && h in hits && g.1 == h.1 < records && g.0 != h.0
  }

  /** The metadata carries a right label for every record. */
  ghost predicate Carries(meta: seq<Word>, groups: seq<Group>, hits: set<(nat, nat)>, records: nat)
    requires WellFormed(groups)
  {
    exists labels: seq<int> ::
      |labels| == records && Labelled(labels, hits) && -2 !in labels && IsMeta(meta, groups, labels)
  }

  /** A copy of every record, wide enough for the labels. */
  ghost predicate Wide(p: Params, info: Info, app: Table) {
    && p.records == app.Records() && p.groups == |info.groups|
    && p.SrcStride() == app.stride <= p.DstStride() && p.dstWords % 8 == 0
    && forall k :: 0 <= k < |info.groups| ==> LabelFits(p, info.groups[k].offset)
  }

  /** Are the structures the labels come from all read, from their latest build, and all of known geometry? */
  ghost predicate Readable(t: Tracker, bound: seq<Addr>, exact: bool) {
    IsRead(t, bound, exact) && !IsStale(t, bound, exact) && !IsUnknown(t, bound, exact)
  }

  lemma SharedLabels(labels: seq<int>, hits: set<(nat, nat)>)
    requires Labelled(labels, hits)
    ensures -2 in labels <==> Shared(hits, |labels|)
  {
    if -2 in labels {
      var r :| 0 <= r < |labels| && labels[r] == -2;
      assert Says(labels[r], hits, r);
    }
    if Shared(hits, |labels|) {
      var g, h :| g in hits && h in hits && g.1 == h.1 < |labels| && g.0 != h.0;
      assert Says(labels[g.1], hits, g.1);
    }
  }

  /** `RecordTable`: every refusal in its order, or the copy to make. */
  method RecordTable(state: AsTrackerState.State, info: Info, args: seq<TraceArgs>, app: Table, bound: seq<Addr>,
                     exact: bool)
    returns (plan: Plan)
    requires Legal(info, app)
    ensures
      var t, hits := state.Value(), Hits(state.Value(), bound, exact, args);
      && (plan == Unchanged <==> !info.dynamicTraceArgs && app.stride != 0 && app.Records() == 0)
      && (plan == Refused(false) <==>
            || info.dynamicTraceArgs || app.stride == 0
            || (app.Records() != 0 && !Readable(t, bound, exact)))
      && (plan == Refused(true) ==> Shared(hits, app.Records()))
      && (plan.Copy? ==>
            && !Shared(hits, app.Records()) && Wide(plan.p, info, app)
            && Carries(plan.meta, info.groups, hits, app.Records()))
  {
    if info.dynamicTraceArgs { return Refused(false); }
    if app.stride == 0 { return Refused(false); }
    var records := app.Records();
    if records == 0 { return Unchanged; }
    var labels, any, stale := state.GeometryLabels(args, records, bound, exact);
    var unknown := state.UnknownBlas(bound, exact);
    hide Hits, IsRead, IsStale, IsUnknown, Labelled, Shared, Wide, Carries, Legal, Labels.Says;
    if any && !stale && unknown { return Refused(false); }
    if !any || stale { return Refused(false); }
    plan := LabelledTable(info, app, labels, Hits(state.Value(), bound, exact, args));
  }

  /** Its last part: a record that two geometries share is refused, else the stride holds the labels. */
  method LabelledTable(info: Info, app: Table, labels: seq<int>, ghost hits: set<(nat, nat)>) returns (plan: Plan)
    requires Legal(info, app) && app.stride != 0 && |labels| == app.Records() && Labelled(labels, hits)
    ensures plan == Refused(true) <==> Shared(hits, app.Records())
    ensures plan == Refused(true) || plan.Copy?
    ensures plan.Copy? ==> Wide(plan.p, info, app) && Carries(plan.meta, info.groups, hits, app.Records())
  {
    SharedLabels(labels, hits);
    hide Labelled, Shared, Table.Records;
    for r := 0 to |labels|
      invariant -2 !in labels[..r]
    {
      if labels[r] == -2 { return Refused(true); }
    }
    assert labels[..|labels|] == labels;
    TableParamsWide(info, app);
    hide TableParams, Wide, Legal;
    var meta := BuildMeta(info.groups, labels);
    plan := Plan.Copy(TableParams(info, app), meta);
  }

  /** The stride is rounded up to what D3D12 asks of a record. */
  function TableParams(info: Info, app: Table): Params {
    var bytes := if app.stride > info.recordBytes then app.stride else info.recordBytes;
    Params(app.Records(), app.stride / 4, (bytes + 31) / 32 * 8, |info.groups|)
  }

  lemma TableParamsWide(info: Info, app: Table)
    requires Legal(info, app)
    ensures Wide(TableParams(info, app), info, app)
  {
    var bytes := if app.stride > info.recordBytes then app.stride else info.recordBytes;
    RoundedUp(bytes);
    hide Table.Records;
    forall k | 0 <= k < |info.groups| ensures LabelFits(TableParams(info, app), info.groups[k].offset) {
      assert info.groups[k].offset + 4 <= info.recordBytes <= bytes;
    }
  }

  lemma RoundedUp(bytes: nat)
    ensures bytes <= 4 * ((bytes + 31) / 32 * 8) && ((bytes + 31) / 32 * 8) % 8 == 0
  {}

  // --- what a hit reads ------------------------------------------------------------------

  /** The buffers of the pass: the application's table is as large as it says, all within 32-bit addresses. */
  ghost predicate Buffers(plan: Plan, src: seq<Word>, buf: seq<Word>)
    requires plan.Copy?
  {
    && GeomTable.Row(plan.p.records, plan.p.srcWords) <= |src| && 4 * |src| <= WRAP
    && GeomTable.Row(plan.p.records, plan.p.dstWords) == |buf| && 4 * |buf| <= WRAP
    && 4 * |plan.meta| <= WRAP
  }

  lemma PlanFits(plan: Plan, info: Info, app: Table, hits: set<(nat, nat)>, src: seq<Word>, buf: seq<Word>)
    requires Legal(info, app) && app.stride != 0 && plan.Copy? && Wide(plan.p, info, app)
    requires Carries(plan.meta, info.groups, hits, app.Records()) && Buffers(plan, src, buf)
    ensures Fits(plan.p, src, plan.meta, |buf|)
  {
    hide GeomTable.Row, Labelled, IsMeta, LabelFits, Table.Records, WellFormed;
    var labels :| |labels| == app.Records() && Labelled(labels, hits) && -2 !in labels
      && IsMeta(plan.meta, info.groups, labels);
    MetaOffsets(plan.meta, info.groups, labels);
    forall k | 0 <= k < plan.p.groups ensures LabelFits(plan.p, plan.meta[9 * k + 8]) {
      assert plan.meta[9 * k + 8] == info.groups[k].offset;
    }
  }

  /** Where the metadata says the labels go. */
  lemma MetaOffsets(meta: seq<Word>, groups: seq<Group>, labels: seq<int>)
    requires WellFormed(groups) && IsMeta(meta, groups, labels)
    ensures |meta| == 9 * |groups| + |labels|
    ensures forall k :: 0 <= k < |groups| ==> meta[9 * k + 8] == groups[k].offset
  {
    forall k | 0 <= k < |groups| ensures meta[9 * k + 8] == groups[k].offset { assert GroupAt(meta, k, groups[k]); }
  }

  /** On a record that carries the identifier of group `k`, its shader then reads `g` at the group's offset. */
  ghost predicate ReadsBack(plan: Plan, info: Info, src: seq<Word>, buf: seq<Word>, n: nat, schedule: seq<nat>, r: nat,
                            k: nat, g: nat)
    requires plan.Copy? && Completes(plan.p, src, plan.meta, buf, n, schedule)
  {
    (r < plan.p.records && k < |info.groups| && FirstMatch(plan.p, src, plan.meta, r, plan.p.groups) == Some(k)) ==>
      var at, after := GeomTable.Row(r, plan.p.dstWords) + info.groups[k].offset / 4,
                       Result(plan.p, src, plan.meta, buf, n, schedule);
      at < |after| && after[at] == g
  }

  /**
   End to end for one scene. A hit on geometry `g` of one of its instances, traced with
   arguments the labels were made for, lands on a record by the DXR formula; the shader
   of the group whose identifier that record carries reads `g` there.
   */
  lemma InstanceReadsItsGeometry(t: Tracker, bound: seq<Addr>, exact: bool, args: seq<TraceArgs>, plan: Plan,
                                 info: Info, app: Table, src: seq<Word>, buf: seq<Word>, n: nat, schedule: seq<nat>,
                                 a: Addr, insts: seq<Instance>, x: Instance, g: nat, q: TraceArgs, k: nat)
    requires Legal(info, app) && app.stride != 0 && plan.Copy? && Wide(plan.p, info, app)
    requires Carries(plan.meta, info.groups, Hits(t, bound, exact, args), app.Records())
    requires Buffers(plan, src, buf) && Completes(plan.p, src, plan.meta, buf, n, schedule)
    requires Chosen(t, bound, exact, a) && t.tlas[a] == Parse(insts)
    requires x in insts && x.HasGeometry(g) && q in args
    ensures ReadsBack(plan, info, src, buf, n, schedule, HitRecord(x, g, q), k, g)
  {
    var hits, r := Hits(t, bound, exact, args), HitRecord(x, g, q);
    assert InstanceHit(insts, args, g, r);
    ParsedHits(insts, args, g, r);
    assert (g, r) in hits by { hide Parse, LandedOf, Chosen; }
    PlanFits(plan, info, app, hits, src, buf);
    hide Parse, Hits, GeomTable.Row, FirstMatch, Labelled, Completes, Result, Buffers, Fits;
    var labels :| |labels| == app.Records() && Labelled(labels, hits) && -2 !in labels
      && IsMeta(plan.meta, info.groups, labels);
    if r < plan.p.records {
      HitReadsItsGeometry(hits, labels, info.groups, plan.p, src, plan.meta, buf, n, schedule, g, r, k);
    }
  }
}
