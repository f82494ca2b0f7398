/**
 What a hit group record of an APPLICATION's own table has to say
 (`GeometryLabels` and `PairClasses` in `proxy/as_tracker.cpp`). With its trace
 arguments, geometry g of an instance lands on record

   ray contribution + multiplier * g + instance contribution

 (DXR Functional Spec, "Hit group table indexing"; the first two are 4 bits each).
 */
module Labels {
  import opened AsParse

  /** (contribution, geometry count), one per distinct pair the instances carry. */
  type Class = (nat, nat)

  /** The two 32-bit arguments of a `TraceRay`; DXR uses their low 4 bits. */
  datatype TraceArgs = TraceArgs(ray: nat, multiplier: nat)

  /** 15 + 15 * 2^24 + 2^24 is far below 2^64, so the sum in 64 bits is exact. */
  function Index(c: Class, g: nat, p: TraceArgs): nat {
    p.ray % 16 + (p.multiplier % 16) * g + c.0
  }

  /** A structure whose instances were read: does it count here, and is that its latest build? */
  datatype Scene = Scene(info: TlasInfo, counts: bool, current: bool)

  // --- which geometry lands where: sets of (geometry, record) ------------------------

  ghost function Landed(c: Class, n: nat, args: seq<TraceArgs>): set<(nat, nat)> {
    set g, p | 0 <= g < n && p in args :: (g, Index(c, g, p))
  }

  ghost function LandedOf(classes: set<Class>, args: seq<TraceArgs>): set<(nat, nat)> {
    set c, h | c in classes && h in Landed(c, c.1, args) :: h
  }

  ghost function LandedAll(scenes: seq<Scene>, args: seq<TraceArgs>): set<(nat, nat)> {
    set s, h | 0 <= s < |scenes| && scenes[s].counts && h in LandedOf(scenes[s].info.classes, args) :: h
  }

  /** DXR: the record of a hit on geometry `g` of an instance with that contribution, traced with these arguments. */
  function DxrRecord(contribution: nat, g: nat, p: TraceArgs): nat {
    p.ray % 16 + (p.multiplier % 16) * g + contribution
  }

  function HitRecord(x: Instance, g: nat, p: TraceArgs): nat { DxrRecord(x.contribution, g, p) }

  /** Some instance whose structure was found has its geometry `g` hit on record `r`. */
  ghost predicate InstanceHit(insts: seq<Instance>, args: seq<TraceArgs>, g: nat, r: nat) {
    exists x, p :: x in insts && x.HasGeometry(g) && p in args && r == HitRecord(x, g, p)
  }

  /** What the classes of a parse say lands where is exactly what its instances' hits do. */
  lemma ParsedHits(insts: seq<Instance>, args: seq<TraceArgs>, g: nat, r: nat)
    ensures (g, r) in LandedOf(Parse(insts).classes, args) <==> InstanceHit(insts, args, g, r)
  {
    var classes := Classes(insts);
    if InstanceHit(insts, args, g, r) {
      var x, p :| x in insts && x.HasGeometry(g) && p in args && r == HitRecord(x, g, p);
      var c: Class := (x.contribution as nat, x.Geometries());
      assert c in classes && (g, Index(c, g, p)) in Landed(c, c.1, args);
    }
    if (g, r) in LandedOf(classes, args) {
      var c :| c in classes && (g, r) in Landed(c, c.1, args);
      var x :| x in insts && x.active && x.found.Some? && c == (x.contribution as nat, x.Geometries());
      var h, p :| 0 <= h < c.1 && p in args && (g, r) == (h, Index(c, h, p));
      assert r == HitRecord(x, g, p);
    }
  }

  /** `answer` is right for a record that the hits reach with these geometries. */
  ghost predicate Says(answer: int, hits: set<(nat, nat)>, record: nat) {
    && answer >= -2
    && (answer == -1 <==> forall h :: h in hits ==> h.1 != record)
    && (answer >= 0 ==> (answer, record) in hits)
    && (answer >= 0 ==> forall h :: h in hits && h.1 == record ==> h.0 == answer)
    && (answer == -2 <==> exists g, h :: g in hits && h in hits && g.1 == h.1 == record && g.0 != h.0)
  }

  ghost predicate Labelled(out: seq<int>, hits: set<(nat, nat)>) {
    forall i :: 0 <= i < |out| ==> Says(out[i], hits, i)
  }

  /** One hit more on its record: the label takes it in. */
  lemma SaysNext(answer: int, hits: set<(nat, nat)>, record: nat, h: (nat, nat), answer': int)
    requires Says(answer, hits, record)
    requires answer' == if h.1 != record then answer else if answer == -1 || answer == h.0 then h.0 else -2
    ensures Says(answer', hits + {h}, record)
  {
    var more := hits + {h};
    if h.1 == record {
      assert h in more;
      if answer >= 0 && answer != h.0 {
        var g := (answer, record);
        assert g in more && h in more && g.1 == h.1 && g.0 != h.0;
      }
      if answer == -2 {
        var a, b :| a in hits && b in hits && a.1 == b.1 == record && a.0 != b.0;
        assert a in more && b in more;
      }
    }
  }

  /** The innermost loop, over the trace arguments. */
  method LabelPairs(out: seq<int>, ghost hits: set<(nat, nat)>, c: Class, g: nat, args: seq<TraceArgs>)
    returns (out': seq<int>)
    requires Labelled(out, hits)
    ensures |out'| == |out|
    ensures Labelled(out', hits + set p | p in args :: (g, Index(c, g, p)))
  {
    out' := out;
    ghost var seen: set<(nat, nat)> := hits;
    assert seen == hits + set p | p in args[..0] :: (g, Index(c, g, p));
    for k := 0 to |args|
      invariant |out'| == |out| && Labelled(out', seen)
      invariant seen == hits + set p | p in args[..k] :: (g, Index(c, g, p))
    {
      var index := Index(c, g, args[k]);
      ghost var before: set<(nat, nat)>, was := seen, out';
      seen := seen + {(g, index)};
      assert args[..k + 1] == args[..k] + [args[k]];
      if index < |out'| {
        var l := out'[index];
        if l == -1 { out' := out'[index := g]; }
        else if l != g { out' := out'[index := -2]; }
      }
      forall i | 0 <= i < |out'| ensures Says(out'[i], seen, i) {
        assert Says(was[i], before, i);
        SaysNext(was[i], before, i, (g, index), out'[i]);
      }
    }
    assert args[..|args|] == args;
  }

  method LabelClass(out: seq<int>, ghost hits: set<(nat, nat)>, c: Class, args: seq<TraceArgs>)
    returns (out': seq<int>)
    requires Labelled(out, hits)
    ensures |out'| == |out| && Labelled(out', hits + Landed(c, c.1, args))
  {
    hide Labelled;
    out' := out;
    assert hits + Landed(c, 0, args) == hits;
    for g := 0 to c.1
      invariant |out'| == |out| && Labelled(out', hits + Landed(c, g, args))
    {
      out' := LabelPairs(out', hits + Landed(c, g, args), c, g, args);
      assert hits + Landed(c, g + 1, args)
          == (hits + Landed(c, g, args)) + set p | p in args :: (g, Index(c, g, p));
    }
  }

  method LabelClasses(out: seq<int>, ghost hits: set<(nat, nat)>, classes: set<Class>, args: seq<TraceArgs>)
    returns (out': seq<int>)
    requires Labelled(out, hits)
    ensures |out'| == |out| && Labelled(out', hits + LandedOf(classes, args))
  {
    hide Labelled, Landed;
    out' := out;
    var left := classes;
    assert classes - left == {};
    assert hits + LandedOf({}, args) == hits;
    while left != {}
      invariant left <= classes
      invariant |out'| == |out| && Labelled(out', hits + LandedOf(classes - left, args))
    {
      var c :| c in left;
      out' := LabelClass(out', hits + LandedOf(classes - left, args), c, args);
      assert hits + LandedOf(classes - (left - {c}), args)
          == (hits + LandedOf(classes - left, args)) + Landed(c, c.1, args);
      left := left - {c};
    }
    assert classes - left == classes;
  }

  /**
   `GeometryLabels`: for every record the geometry all hits on it have, -1 when none
   lands there, -2 exactly when two differ; whatever order structures, classes and
   arguments come in.
   */
  method GeometryLabels(scenes: seq<Scene>, args: seq<TraceArgs>, records: nat)
    returns (out: seq<int>, any: bool, stale: bool)
    ensures |out| == records
    ensures forall i :: 0 <= i < records ==> Says(out[i], LandedAll(scenes, args), i)
    ensures any <==> exists s :: 0 <= s < |scenes| && scenes[s].counts
    ensures stale <==> exists s :: 0 <= s < |scenes| && scenes[s].counts && !scenes[s].current
  {
    out, any, stale := seq(records, _ => -1), false, false;
    assert Labelled(out, LandedAll(scenes[..0], args));
    for s := 0 to |scenes|
      invariant |out| == records && Labelled(out, LandedAll(scenes[..s], args))
      invariant any <==> exists u :: 0 <= u < s && scenes[u].counts
      invariant stale <==> exists u :: 0 <= u < s && scenes[u].counts && !scenes[u].current
    {
      hide Labelled, LandedOf;
      LandedNext(scenes, s, args);
      if scenes[s].counts {
        any := true;
        if !scenes[s].current { stale := true; }
        out := LabelClasses(out, LandedAll(scenes[..s], args), scenes[s].info.classes, args);
      }
    }
    assert scenes[..|scenes|] == scenes;
  }

  lemma LandedNext(scenes: seq<Scene>, s: nat, args: seq<TraceArgs>)
    requires s < |scenes|
    ensures LandedAll(scenes[..s + 1], args) == LandedAll(scenes[..s], args)
      + if scenes[s].counts then LandedOf(scenes[s].info.classes, args) else {}
  {
    hide LandedOf;
    var next := scenes[..s + 1];
    assert next[s] == scenes[s];
    forall h | h in LandedAll(scenes[..s], args) ensures h in LandedAll(next, args) {
      var u :| 0 <= u < s && scenes[..s][u].counts && h in LandedOf(scenes[..s][u].info.classes, args);
      assert next[u] == scenes[..s][u];
    }
    forall h | h in LandedAll(next, args)
      ensures h in LandedAll(scenes[..s], args)
        || (scenes[s].counts && h in LandedOf(scenes[s].info.classes, args))
    {
      var u :| 0 <= u < |next| && next[u].counts && h in LandedOf(next[u].info.classes, args);
      if u < s { assert next[u] == scenes[..s][u]; }
    }
  }

  ghost function Counting(scenes: seq<Scene>): set<Scene> { set x | x in scenes && x.counts }

  /** Which hits there are follows from the set of scenes that count, not their order. */
  lemma OrderDoesNotMatter(scenes: seq<Scene>, other: seq<Scene>, args: seq<TraceArgs>, brgs: seq<TraceArgs>,
                           answer: int, answer': int, record: nat)
    requires Counting(scenes) == Counting(other) && Elements(args) == Elements(brgs)
    ensures
      (&& Says(answer, LandedAll(scenes, args), record)
       && Says(answer', LandedAll(other, brgs), record)) ==> answer == answer'
  {
    hide Says;
    SameLanded(scenes, other, args, brgs);
    if Says(answer, LandedAll(scenes, args), record) && Says(answer', LandedAll(other, brgs), record) {
      SaysOne(answer, answer', LandedAll(scenes, args), record);
    }
  }

  lemma SameLanded(scenes: seq<Scene>, other: seq<Scene>, args: seq<TraceArgs>, brgs: seq<TraceArgs>)
    requires Counting(scenes) == Counting(other) && Elements(args) == Elements(brgs)
    ensures LandedAll(scenes, args) == LandedAll(other, brgs)
  {
    forall p ensures p in args <==> p in brgs {
      assert p in args <==> p in Elements(args);
      assert p in brgs <==> p in Elements(brgs);
    }
    forall c: Class, n: nat ensures Landed(c, n, args) == Landed(c, n, brgs) {}
    forall classes: set<Class> ensures LandedOf(classes, args) == LandedOf(classes, brgs) {}
    forall h | h in LandedAll(scenes, args) ensures h in LandedAll(other, brgs) {
      var s :| 0 <= s < |scenes| && scenes[s].counts && h in LandedOf(scenes[s].info.classes, args);
      assert scenes[s] in Counting(other);
    }
    forall h | h in LandedAll(other, brgs) ensures h in LandedAll(scenes, args) {
      var s :| 0 <= s < |other| && other[s].counts && h in LandedOf(other[s].info.classes, brgs);
      assert other[s] in Counting(scenes);
    }
  }

  /** A record has one right answer. */
  lemma SaysOne(answer: int, answer': int, hits: set<(nat, nat)>, record: nat)
    requires Says(answer, hits, record) && Says(answer', hits, record)
    ensures answer == answer'
  {
    if answer >= 0 && answer' >= 0 { assert (answer, record) in hits; }
  }

  // --- pairs of trace arguments that can share records --------------------------------

  /** In place of a record at or past the limit; limits are 32 bit, so it is none below one. */
  const BEYOND: nat := 0xFFFF_FFFF

  function Slot(c: Class, g: nat, p: TraceArgs, records: nat): nat {
    if Index(c, g, p) < records then Index(c, g, p) else BEYOND
  }

  /** The first `n` geometries of a class, where the arguments put them. */
  function ClassSlots(c: Class, n: nat, p: TraceArgs, records: nat): (r: seq<nat>)
    ensures |r| == n && forall g :: 0 <= g < n ==> r[g] == Slot(c, g, p, records)
  {
    seq(n, g requires 0 <= g => Slot(c, g, p, records))
  }

  function Signature(classes: seq<Class>, p: TraceArgs, records: nat): seq<nat> {
    if classes == [] then []
    else
      var n := |classes| - 1;
      Signature(classes[..n], p, records) + ClassSlots(classes[n], classes[n].1, p, records)
  }

  function Elements<T(==)>(xs: seq<T>): set<T> {
    set x | x in xs
  }

  /** Does a hit with these arguments use a record below the limit? */
  ghost predicate Uses(classes: set<Class>, p: TraceArgs, records: nat) {
    exists c, g: nat :: c in classes && g < c.1 && Index(c, g, p) < records
  }

  /** The record a hit uses is the same, or neither uses one below the limit. */
  predicate SameRecord(c: Class, g: nat, p: TraceArgs, q: TraceArgs, records: nat) {
    || Index(c, g, p) == Index(c, g, q)
    || (Index(c, g, p) >= records && Index(c, g, q) >= records)
  }

  /** Both put every hit on the same record below the limit, or both put it past it. */
  ghost predicate SameRecords(classes: set<Class>, p: TraceArgs, q: TraceArgs, records: nat) {
    forall c, g: nat :: c in classes && g < c.1 ==> SameRecord(c, g, p, q, records)
  }

  /** Two of a class's geometries written down alike are on the same records. */
  lemma SameClassSlots(c: Class, p: TraceArgs, q: TraceArgs, records: nat)
    requires records <= BEYOND
    ensures ClassSlots(c, c.1, p, records) == ClassSlots(c, c.1, q, records)
      <==> forall g: nat :: g < c.1 ==> SameRecord(c, g, p, q, records)
  {
    var a, b := ClassSlots(c, c.1, p, records), ClassSlots(c, c.1, q, records);
    forall g: nat | g < c.1 ensures a[g] == b[g] <==> SameRecord(c, g, p, q, records) {
      assert a[g] == Slot(c, g, p, records) && b[g] == Slot(c, g, q, records);
    }
  }

  lemma {:induction false} SameSignature(classes: seq<Class>, p: TraceArgs, q: TraceArgs, records: nat)
    requires records <= BEYOND
    ensures |Signature(classes, p, records)| == |Signature(classes, q, records)|
    ensures Signature(classes, p, records) == Signature(classes, q, records)
      <==> SameRecords(Elements(classes), p, q, records)
  {
    if classes != [] {
      hide SameRecord;
      var n := |classes| - 1;
      var front, c := classes[..n], classes[n];
      SameSignature(front, p, q, records);
      SameClassSlots(c, p, q, records);
      SplitSame(Signature(front, p, records), ClassSlots(c, c.1, p, records),
                Signature(front, q, records), ClassSlots(c, c.1, q, records));
      assert classes == front + [c];
      assert Elements(classes) == Elements(front) + {c};
    }
  }

  lemma SplitSame<T>(a: seq<T>, b: seq<T>, c: seq<T>, d: seq<T>)
    requires |a| == |c|
    ensures a + b == c + d <==> a == c && b == d
  {
    if a + b == c + d {
      assert a == (a + b)[..|a|] && b == (a + b)[|a|..];
      assert c == (c + d)[..|c|] && d == (c + d)[|c|..];
    }
  }

  /** The two inner loops: one pair's signature, and whether any hit uses it. */
  method Sign(classes: seq<Class>, p: TraceArgs, records: nat) returns (signature: seq<nat>, some: bool)
    ensures signature == Signature(classes, p, records)
    ensures some <==> Uses(Elements(classes), p, records)
  {
    signature, some := [], false;
    for k := 0 to |classes|
      invariant signature == Signature(classes[..k], p, records)
      invariant some <==> Uses(Elements(classes[..k]), p, records)
    {
      var c := classes[k];
      ghost var front := classes[..k];
      assert classes[..k + 1] == front + [c] && (front + [c])[..k] == front;
      assert Elements(front + [c]) == Elements(front) + {c};
      ghost var before, had := signature, some;
      for g := 0 to c.1
        invariant signature == before + ClassSlots(c, g, p, records)
        invariant some <==> (had || exists h: nat :: h < g && Index(c, h, p) < records)
      {
        signature := signature + [Slot(c, g, p, records)];
        some := some || Index(c, g, p) < records;
      }
    }
    assert classes[..|classes|] == classes;
  }

  /** The classes of the scenes that count. */
  ghost function Counted(scenes: seq<Scene>): set<Class> {
    set s, c | 0 <= s < |scenes| && scenes[s].counts && c in scenes[s].info.classes :: c
  }

  method Listed(classes: set<Class>) returns (list: seq<Class>)
    ensures Elements(list) == classes
  {
    list := [];
    var left := classes;
    while left != {}
      invariant left <= classes && Elements(list) == classes - left
    {
      var c :| c in left;
      assert Elements(list + [c]) == Elements(list) + {c};
      list, left := list + [c], left - {c};
    }
  }

  method GatherClasses(scenes: seq<Scene>) returns (classes: seq<Class>)
    ensures Elements(classes) == Counted(scenes)
  {
    classes := [];
    for s := 0 to |scenes|
      invariant Elements(classes) == Counted(scenes[..s])
    {
      assert scenes[..s + 1] == scenes[..s] + [scenes[s]];
      if scenes[s].counts {
        var more := Listed(scenes[s].info.classes);
        assert Elements(classes + more) == Elements(classes) + Elements(more);
        classes := classes + more;
      }
    }
    assert scenes[..|scenes|] == scenes;
  }

  /** What has been given out for the first pairs: an id names a signature. */
  ghost predicate Numbered(classes: seq<Class>, pairs: seq<TraceArgs>, records: nat,
                           ids: map<seq<nat>, nat>, out: seq<int>)
  {
    && |out| == |pairs|
    && (forall s, t :: s in ids && t in ids && ids[s] == ids[t] ==> s == t)
    && (forall k :: 0 <= k < |out| ==>
          if Uses(Elements(classes), pairs[k], records)
          then Signature(classes, pairs[k], records) in ids && out[k] == ids[Signature(classes, pairs[k], records)]
          else out[k] == -1)
  }

  /** And the next id is the number there are. */
  ghost predicate UpTo(ids: map<seq<nat>, nat>, out: seq<int>) {
    && (forall s :: s in ids ==> ids[s] < |ids|)
    && (forall id: nat :: id < |ids| ==> id in out)
    && (forall k :: 0 <= k < |out| ==> out[k] < |ids| && DenseAt(out, k))
  }

  /** Does one of the pairs up to this one have the id? */
  ghost predicate Given(out: seq<int>, k: nat, id: nat)
    requires k < |out|
  {
    id in out[..k + 1]
  }

  /** Every smaller id was given out before. */
  ghost predicate DenseAt(out: seq<int>, k: nat)
    requires k < |out|
  {
    forall id: nat :: id <= out[k] ==> Given(out, k, id)
  }

  /** A pair that uses no record, or whose signature has an id. */
  lemma UpToGiven(ids: map<seq<nat>, nat>, out: seq<int>, id: int)
    requires UpTo(ids, out) && id < |ids|
    ensures UpTo(ids, out + [id])
  {
    var next := out + [id];
    forall k | 0 <= k < |next| ensures next[k] < |ids| && DenseAt(next, k) {
      if k < |out| {
        assert next[..k + 1] == out[..k + 1] && DenseAt(out, k);
        forall id: nat | id <= next[k] ensures Given(next, k, id) { assert Given(out, k, id); }
      } else {
        assert next[..k + 1] == next;
      }
    }
  }

  lemma UpToNew(ids: map<seq<nat>, nat>, out: seq<int>, s: seq<nat>)
    requires UpTo(ids, out) && s !in ids
    ensures UpTo(ids[s := |ids|], out + [|ids|])
  {
    var next, ids' := out + [|ids|], ids[s := |ids|];
    assert next[|out|] == |ids|;
    forall id: nat | id < |ids'| ensures id in next {
      if id < |ids| { assert id in out; }
    }
    forall k | 0 <= k < |next| ensures next[k] < |ids'| && DenseAt(next, k) {
      if k < |out| {
        assert next[..k + 1] == out[..k + 1] && DenseAt(out, k);
        forall id: nat | id <= next[k] ensures Given(next, k, id) { assert Given(out, k, id); }
      } else {
        assert next[..k + 1] == next;
      }
    }
  }

  /**
   Pairs of trace arguments share an id exactly when they put every hit on the same
   record below the limit; ids count from 0 in order of appearance; -1 for a pair that
   puts none below it.
   */
  ghost predicate IdsOf(out: seq<int>, pairs: seq<TraceArgs>, classes: set<Class>, records: nat) {
    && |out| == |pairs|
    && (forall k :: 0 <= k < |out| ==>
          out[k] >= -1 && (out[k] == -1 <==> !Uses(classes, pairs[k], records)))
    && (forall j, k :: 0 <= j < |out| && 0 <= k < |out| && out[j] >= 0 && out[k] >= 0 ==>
          (out[j] == out[k] <==> SameRecords(classes, pairs[j], pairs[k], records)))
    && (forall k :: 0 <= k < |out| ==> DenseAt(out, k))
  }

  /** `PairClasses`. */
  method PairClasses(pairs: seq<TraceArgs>, records: nat, scenes: seq<Scene>) returns (out: seq<int>)
    requires records <= BEYOND
    ensures IdsOf(out, pairs, Counted(scenes), records)
  {
    var classes := GatherClasses(scenes);
    out := [];
    var ids: map<seq<nat>, nat> := map[];
    for k := 0 to |pairs|
      invariant Numbered(classes, pairs[..k], records, ids, out) && UpTo(ids, out)
    {
      hide UpTo, Numbered, Uses, Signature;
      assert pairs[..k + 1] == pairs[..k] + [pairs[k]];
      var signature, some := Sign(classes, pairs[k], records);
      IdsBounded(ids, out);
      if !some {
        NumberedNext(classes, pairs[..k], records, ids, out, pairs[k], ids, -1);
        UpToGiven(ids, out, -1);
        out := out + [-1];
      } else {
        if signature !in ids {
          UpToNew(ids, out, signature);
          NumberedNext(classes, pairs[..k], records, ids, out, pairs[k], ids[signature := |ids|], |ids|);
          ids := ids[signature := |ids|];
        } else {
          UpToGiven(ids, out, ids[signature]);
          NumberedNext(classes, pairs[..k], records, ids, out, pairs[k], ids, ids[signature]);
        }
        out := out + [ids[signature]];
      }
    }
    assert pairs[..|pairs|] == pairs;
    NumberedMeans(classes, pairs, records, ids, out);
  }

  lemma NumberedNext(classes: seq<Class>, pairs: seq<TraceArgs>, records: nat, ids: map<seq<nat>, nat>,
                     out: seq<int>, p: TraceArgs, ids': map<seq<nat>, nat>, id: int)
    requires Numbered(classes, pairs, records, ids, out)
    requires forall s :: s in ids ==> ids[s] < |ids|
    requires ids' == ids || (Signature(classes, p, records) !in ids
                             && ids' == ids[Signature(classes, p, records) := |ids|])
    requires
      if Uses(Elements(classes), p, records)
      then Signature(classes, p, records) in ids' && id == ids'[Signature(classes, p, records)]
      else id == -1
    ensures Numbered(classes, pairs + [p], records, ids', out + [id])
  {
    hide Uses, Signature;
  }

  lemma IdsBounded(ids: map<seq<nat>, nat>, out: seq<int>)
    requires UpTo(ids, out)
    ensures forall s :: s in ids ==> ids[s] < |ids|
  {}

  lemma NumberedMeans(classes: seq<Class>, pairs: seq<TraceArgs>, records: nat, ids: map<seq<nat>, nat>,
                      out: seq<int>)
    requires Numbered(classes, pairs, records, ids, out) && records <= BEYOND
    ensures forall k :: 0 <= k < |out| ==>
      out[k] >= -1 && (out[k] == -1 <==> !Uses(Elements(classes), pairs[k], records))
    ensures forall j, k :: 0 <= j < |out| && 0 <= k < |out| && out[j] >= 0 && out[k] >= 0 ==>
      (out[j] == out[k] <==> SameRecords(Elements(classes), pairs[j], pairs[k], records))
  {
    hide Uses, Signature, SameRecords;
    forall j, k | 0 <= j < |out| && 0 <= k < |out| && out[j] >= 0 && out[k] >= 0
      ensures out[j] == out[k] <==> SameRecords(Elements(classes), pairs[j], pairs[k], records)
    {
      SameSignature(classes, pairs[j], pairs[k], records);
    }
  }
}
