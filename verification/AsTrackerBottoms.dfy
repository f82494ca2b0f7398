/**
 Deserialized bottom-level structures over whole runs: what a decode, and reading again
 every kept read that met one, makes of what is known.
 */
module AsTrackerBottoms {
  import opened Options
  import opened AsLog
  import opened AsParse
  import opened AsTracker
  import opened AsTrackerWorld
  import opened AsTrackerReads
  import opened AsTrackerBuilds
  import opened AsTrackerKept

  /** A bottom-level entry of the log of which nothing was known. */
  ghost predicate Undecoded(w: World, dst: Addr, serial: nat) {
    && (dst, serial) !in w.tops
    && forall i :: 0 <= i < |At(w.log, dst, [])| && At(w.log, dst, [])[i].serial == serial ==>
         At(w.log, dst, [])[i].info.kind == Unknown
  }

  /** The whole log, once it is known what that entry was. */
  function DecodedLog(w: World, dst: Addr, serial: nat, info: BlasInfo): map<Addr, Log> {
    w.log[dst := WithDecoded(At(w.log, dst, []), serial, info)]
  }

  predicate IsUnknown(found: Option<BlasInfo>) {
    found.None? || found.value.kind == Unknown
  }

  /** The same instances; of each one's structure the same, or nothing. */
  ghost predicate Blurs(insts: seq<Instance>, seen: seq<Instance>) {
    |insts| == |seen| && forall i :: 0 <= i < |insts| ==> BlursOne(insts[i], seen[i])
  }

  predicate BlursOne(x: Instance, y: Instance) {
    && x.active == y.active && x.contribution == y.contribution
    && (x.active ==> x.found == y.found || IsUnknown(x.found))
  }

  // --- what is seen of one instance ------------------------------------------------------

  /** With the entry decoded the log gives what it gave, or what was decoded where it gave nothing. */
  lemma SeenDecoded(w: World, dst: Addr, serial: nat, info: BlasInfo, d: Desc, asOf: nat)
    requires Undecoded(w, dst, serial)
    ensures BlursOne(ResolveOne(w.log, d, asOf), ResolveOne(DecodedLog(w, dst, serial, info), d, asOf))
  {
    if d.blas == dst {
      var log := At(w.log, dst, []);
      WithDecodedAnswers(log, serial, info, asOf);
      EntryAtFound(log, asOf);
    }
  }

  /** And the pruned log, decoded too, gives that or nothing. */
  lemma KeptDecoded(w: World, dst: Addr, serial: nat, info: BlasInfo, d: Desc, asOf: nat)
    requires LogsOk(w) && !TopThen(w.log, w.tops, d.blas, asOf)
    ensures
      var hist := w.t.hist[dst := WithDecoded(At(w.t.hist, dst, []), serial, info)];
      && BlursOne(ResolveOne(hist, d, asOf), ResolveOne(DecodedLog(w, dst, serial, info), d, asOf))
      && (EntryAt(At(w.t.hist, d.blas, []), asOf).Some? ==>
            ResolveOne(hist, d, asOf) == ResolveOne(DecodedLog(w, dst, serial, info), d, asOf))
  {
    var kept, log := At(w.t.hist, d.blas, []), At(w.log, d.blas, []);
    assert LogAt(w.t.asSerial, w.tops, d.blas, kept, log);
    assert OldAnswer(w.tops, d.blas, kept, log, asOf);
    WithDecodedAnswers(kept, serial, info, asOf);
    WithDecodedAnswers(log, serial, info, asOf);
  }

  // --- instances that are inactive say nothing --------------------------------------------------

  ghost predicate SameActives(insts: seq<Instance>, other: seq<Instance>) {
    |insts| == |other| && forall i :: 0 <= i < |insts| ==> SameIfActive(insts[i], other[i])
  }

  predicate SameIfActive(x: Instance, y: Instance) {
    x.active == y.active && x.contribution == y.contribution && (x.active ==> x.found == y.found)
  }

  lemma SameFront(insts: seq<Instance>, other: seq<Instance>)
    requires SameActives(insts, other) && insts != []
    ensures SameActives(insts[..|insts| - 1], other[..|insts| - 1])
    ensures SameIfActive(insts[|insts| - 1], other[|insts| - 1])
  {
    var front, front' := insts[..|insts| - 1], other[..|insts| - 1];
    forall i | 0 <= i < |front| ensures SameIfActive(front[i], front'[i]) {
      assert SameIfActive(insts[i], other[i]);
    }
  }

  lemma {:induction false} SameCounts(insts: seq<Instance>, other: seq<Instance>)
    requires SameActives(insts, other)
    ensures MaxContribution(insts) == MaxContribution(other) && Extent(insts) == Extent(other)
    ensures AnyBits(insts) == AnyBits(other) && UnknownCount(insts) == UnknownCount(other)
  {
    if insts != [] {
      SameFront(insts, other);
      hide SameActives;
      SameCounts(insts[..|insts| - 1], other[..|insts| - 1]);
    }
  }

  lemma {:induction false} SameSlot(insts: seq<Instance>, other: seq<Instance>, slot: nat)
    requires SameActives(insts, other)
    ensures FirstHit(insts, slot) == FirstHit(other, slot) && ReachOf(insts, slot) == ReachOf(other, slot)
  {
    if insts != [] {
      SameFront(insts, other);
      hide SameActives;
      SameSlot(insts[..|insts| - 1], other[..|insts| - 1], slot);
    }
  }

  /** One way; the other is the same. */
  lemma ConflictsAlike(insts: seq<Instance>, other: seq<Instance>)
    requires SameActives(insts, other) && Conflicts(insts)
    ensures Conflicts(other)
  {
    var i, j, slot: nat :| 0 <= i < |insts| && 0 <= j < |insts| && insts[i].Hits(slot) && insts[j].Hits(slot)
      && insts[i].contribution != insts[j].contribution;
    assert SameIfActive(insts[i], other[i]) && SameIfActive(insts[j], other[j]);
    assert other[i].Hits(slot) && other[j].Hits(slot);
  }

  lemma ClassesAlike(insts: seq<Instance>, other: seq<Instance>)
    requires SameActives(insts, other)
    ensures Classes(insts) <= Classes(other)
  {
    forall c | c in Classes(insts) ensures c in Classes(other) {
      var x :| x in insts && x.active && x.found.Some? && c == (x.contribution as nat, x.Geometries());
      var i :| 0 <= i < |insts| && insts[i] == x;
      assert SameIfActive(insts[i], other[i]) && other[i] in other;
    }
  }

  lemma SameSame(insts: seq<Instance>, other: seq<Instance>)
    requires SameActives(insts, other)
    ensures SameActives(other, insts)
  {
    forall i | 0 <= i < |insts| ensures SameIfActive(other[i], insts[i]) { assert SameIfActive(insts[i], other[i]); }
  }

  lemma ParseSame(insts: seq<Instance>, other: seq<Instance>)
    requires SameActives(insts, other)
    ensures Parse(insts) == Parse(other)
  {
    hide SameActives, FirstHit, ReachOf, Conflicts, Classes, RowsOf, ConstantsOf, ReachesOf;
    SameCounts(insts, other);
    SameSame(insts, other);
    ClassesAlike(insts, other);
    ClassesAlike(other, insts);
    if Conflicts(insts) { ConflictsAlike(insts, other); }
    if Conflicts(other) { ConflictsAlike(other, insts); }
    SameRecords(insts, other, RecordCount(insts));
    SameRows(insts, other);
  }

  lemma SameRecords(insts: seq<Instance>, other: seq<Instance>, n: nat)
    requires SameActives(insts, other)
    ensures ConstantsOf(insts, n) == ConstantsOf(other, n) && ReachesOf(insts, n) == ReachesOf(other, n)
  {
    hide SameActives, FirstHit, ReachOf;
    forall slot: nat ensures FirstHit(insts, slot) == FirstHit(other, slot) && ReachOf(insts, slot) == ReachOf(other, slot) {
      SameSlot(insts, other, slot);
    }
  }

  lemma SameRows(insts: seq<Instance>, other: seq<Instance>)
    requires SameActives(insts, other)
    ensures RowsOf(insts) == RowsOf(other) && |insts| == |other|
  {
    forall i | 0 <= i < |insts| ensures RowOf(insts[i]) == RowOf(other[i]) { assert SameIfActive(insts[i], other[i]); }
  }

  /** Where nothing is unknown nothing is blurred. */
  lemma {:induction false} NoneUnknown(insts: seq<Instance>, i: nat)
    requires i < |insts| && UnknownCount(insts) == 0 && insts[i].active
    ensures insts[i].Known()
  {
    var n := |insts| - 1;
    if i < n {
      assert insts[..n][i] == insts[i];
      NoneUnknown(insts[..n], i);
    }
  }

  lemma KnownIsSeen(insts: seq<Instance>, seen: seq<Instance>)
    requires Blurs(insts, seen)
    ensures Parse(insts).unknownBlas == 0 ==> Parse(insts) == Parse(seen)
  {
    if UnknownCount(insts) == 0 {
      forall i | 0 <= i < |insts| ensures SameIfActive(insts[i], seen[i]) {
        assert BlursOne(insts[i], seen[i]);
        if insts[i].active { NoneUnknown(insts, i); }
      }
      ParseSame(insts, seen);
    }
  }

  // --- after a decode ---------------------------------------------------------------------------

  /** The tables after a bottom-level decode, before anything is read again. */
  function Before(w: World, dst: Addr, serial: nat, tlasSerial: nat, wasTlas: bool, info: BlasInfo): Tracker {
    NotTop(w.t.(hist := w.t.hist[dst := WithDecoded(At(w.t.hist, dst, []), serial, info)]), dst, tlasSerial, wasTlas)
  }

  /** What reading a build again sees. */
  lemma RereadBlurs(w: World, dst: Addr, serial: nat, info: BlasInfo, tr: Truth)
    requires LogsOk(w) && PointsBelow(w.log, w.tops, tr.descs, tr.asOf)
    ensures
      var hist := w.t.hist[dst := WithDecoded(At(w.t.hist, dst, []), serial, info)];
      var again, seen := Resolve(hist, tr.descs, tr.asOf), Seen(DecodedLog(w, dst, serial, info), tr);
      && Blurs(again, seen)
      && forall i :: 0 <= i < |again| && EntryAt(At(w.t.hist, tr.descs[i].blas, []), tr.asOf).Some? ==> again[i] == seen[i]
  {
    hide LogsOk;
    var hist := w.t.hist[dst := WithDecoded(At(w.t.hist, dst, []), serial, info)];
    var again, seen := Resolve(hist, tr.descs, tr.asOf), Seen(DecodedLog(w, dst, serial, info), tr);
    forall i | 0 <= i < |again|
      ensures BlursOne(again[i], seen[i])
      ensures EntryAt(At(w.t.hist, tr.descs[i].blas, []), tr.asOf).Some? ==> again[i] == seen[i]
    {
      assert tr.descs[i] in tr.descs;
      KeptDecoded(w, dst, serial, info, tr.descs[i], tr.asOf);
    }
  }

  /** What was seen of a build before. */
  lemma SeenBlurs(w: World, dst: Addr, serial: nat, info: BlasInfo, tr: Truth)
    requires Undecoded(w, dst, serial)
    ensures Blurs(Seen(w.log, tr), Seen(DecodedLog(w, dst, serial, info), tr))
  {
    var was, seen := Seen(w.log, tr), Seen(DecodedLog(w, dst, serial, info), tr);
    forall i | 0 <= i < |was| ensures BlursOne(was[i], seen[i]) {
      SeenDecoded(w, dst, serial, info, tr.descs[i], tr.asOf);
    }
  }

  /** A kept row is that of its instance; or of one of which nothing is known, the log having been pruned of it. */
  ghost predicate RowFits(w: World, tr: Truth, row: Row, seen: seq<Instance>, i: nat)
    requires i < |seen| == |tr.descs|
  {
    || row == RowOf(seen[i])
    || (&& seen[i].active && row == Row(true, seen[i].contribution, 0, NO_REACH)
        && EntryAt(At(w.t.hist, tr.descs[i].blas, []), tr.asOf).None?)
  }

  ghost predicate RowsFit(w: World, tr: Truth, rows: seq<Row>, seen: seq<Instance>)
    requires |seen| == |tr.descs|
  {
    |rows| == |seen| && forall i :: 0 <= i < |rows| ==> RowFits(w, tr, rows[i], seen, i)
  }

  lemma BlurredRow(x: Instance, y: Instance)
    requires BlursOne(x, y)
    ensures RowOf(x) == RowOf(y) || (y.active && IsUnknown(x.found) && RowOf(x) == Row(true, y.contribution, 0, NO_REACH))
    ensures RowOf(x) != RowOf(y) ==> x.active && RowOf(x).active && RowOf(x).geometries == 0
  {}

  lemma KeptAgain(w: World, dst: Addr, serial: nat, tlasSerial: nat, wasTlas: bool, info: BlasInfo, a: Addr, k: Kept)
    requires Inv(w) && Undecoded(w, dst, serial) && (a, k.build) in w.truth
    requires IsOfBuild(w, a, k)
    ensures
      var tr := w.truth[(a, k.build)];
      RowsFit(w, tr, Reread(Before(w, dst, serial, tlasSerial, wasTlas, info), k).rows,
              Seen(DecodedLog(w, dst, serial, info), tr))
  {
    var t, tr := Before(w, dst, serial, tlasSerial, wasTlas, info), w.truth[(a, k.build)];
    var seen := Seen(DecodedLog(w, dst, serial, info), tr);
    assert LogsOk(w) && PointsBelow(w.log, w.tops, tr.descs, tr.asOf) && tr.asOf > 0;
    assert t.hist == w.t.hist[dst := WithDecoded(At(w.t.hist, dst, []), serial, info)] && t.asSerial == w.t.asSerial;
    RereadBlurs(w, dst, serial, info, tr);
    SeenBlurs(w, dst, serial, info, tr);
    hide Inv, LogsOk, PointsBelow, Undecoded, Before, DecodedLog, BlursOne, RowOf;
    var again, was := Resolve(t.hist, tr.descs, tr.asOf), Seen(w.log, tr);
    if Meets(k) {
      assert Reread(t, k).rows == RowsOf(again);
      forall i | 0 <= i < |tr.descs| ensures RowFits(w, tr, RowsOf(again)[i], seen, i) {
        assert BlursOne(again[i], seen[i]);
        BlurredRow(again[i], seen[i]);
      }
    } else {
      forall i | 0 <= i < |tr.descs| ensures RowFits(w, tr, k.rows[i], seen, i) {
        assert BlursOne(was[i], seen[i]);
        BlurredRow(was[i], seen[i]);
      }
    }
  }

  /** Is what is said of a build what its instances are, or less? */
  ghost predicate SaysNoOther(info: TlasInfo, seen: seq<Instance>) {
    exists insts :: Blurs(insts, seen) && info == Parse(insts)
  }

  lemma BeforeIs(w: World, dst: Addr, serial: nat, tlasSerial: nat, wasTlas: bool, info: BlasInfo)
    ensures
      var t := Before(w, dst, serial, tlasSerial, wasTlas, info);
      && t.hist == w.t.hist[dst := WithDecoded(At(w.t.hist, dst, []), serial, info)] && t.asSerial == w.t.asSerial
      && t.readOf == w.t.readOf && t.instHist == w.t.instHist
      && (forall a :: a in t.tlas ==> a in w.t.tlas && t.tlas[a] == w.t.tlas[a])
  {
    hide WithDecoded;
  }

  lemma BottomTlas(w: World, dst: Addr, serial: nat, tlasSerial: nat, wasTlas: bool, info: BlasInfo)
    ensures
      DecodedBottom(w.t, dst, serial, tlasSerial, wasTlas, info).tlas
      == TlasReread(Before(w, dst, serial, tlasSerial, wasTlas, info))
  {
    hide TlasReread, RereadAll, NotTop, WithDecoded;
  }

  lemma BuildIs(w: World, b: Build)
    requires Inv(w) && b in w.truth
    ensures LogsOk(w) && PointsBelow(w.log, w.tops, w.truth[b].descs, w.truth[b].asOf) && w.truth[b].asOf > 0
  {}

  lemma KnownAgain(w: World, dst: Addr, serial: nat, tlasSerial: nat, wasTlas: bool, info: BlasInfo, a: Addr)
    requires Inv(w) && Undecoded(w, dst, serial)
    requires a in w.t.readOf && (a, w.t.readOf[a]) in w.truth && w.truth[(a, w.t.readOf[a])].origin !in w.late
    ensures
      var t := DecodedBottom(w.t, dst, serial, tlasSerial, wasTlas, info);
      a in t.tlas ==>
        SaysNoOther(t.tlas[a], Seen(DecodedLog(w, dst, serial, info), w.truth[(a, w.t.readOf[a])]))
  {
    hide Inv, LogsOk, PointsBelow, Undecoded, Before, DecodedBottom, DecodedLog, Blurs, Parse, ParseAt, Seen, KnownMet;
    var t2, tr := Before(w, dst, serial, tlasSerial, wasTlas, info), w.truth[(a, w.t.readOf[a])];
    BeforeIs(w, dst, serial, tlasSerial, wasTlas, info);
    BottomTlas(w, dst, serial, tlasSerial, wasTlas, info);
    BuildIs(w, (a, w.t.readOf[a]));
    RereadBlurs(w, dst, serial, info, tr);
    SeenBlurs(w, dst, serial, info, tr);
    KnownIs(w, a);
    var seen := Seen(DecodedLog(w, dst, serial, info), tr);
    if KnownMet(t2, a).Some? {
      MetIs(w, t2, a);
      SaysOf(Resolve(t2.hist, tr.descs, tr.asOf), seen);
    } else {
      SaysOf(Seen(w.log, tr), seen);
    }
  }

  lemma SaysOf(insts: seq<Instance>, seen: seq<Instance>)
    requires Blurs(insts, seen)
    ensures SaysNoOther(Parse(insts), seen)
  {
    hide Blurs, Parse;
  }

  /** What is read again for a structure are its build's own instances. */
  lemma MetIs(w: World, t: Tracker, a: Addr)
    requires Inv(w) && t.readOf == w.t.readOf && t.instHist == w.t.instHist && KnownMet(t, a).Some?
    requires a in w.t.readOf && (a, w.t.readOf[a]) in w.truth && w.truth[(a, w.t.readOf[a])].origin !in w.late
    requires w.truth[(a, w.t.readOf[a])].asOf > 0
    ensures
      var k, tr := KnownMet(t, a).value, w.truth[(a, w.t.readOf[a])];
      ParseAt(t, k.descs, k.asOf) == Parse(Resolve(t.hist, tr.descs, tr.asOf))
  {
    var k := KnownMet(t, a).value;
    assert k in w.t.instHist[a] && KeptOk(w, a, k);
    hide Inv, Parse;
  }

  /**
   Over every run: when a bottom-level structure of which nothing was known is decoded,
   whichever it is and whatever it turns out to be, and every kept read that met
   something unknown is read again, then each kept row is that of its instance in its
   build, or says nothing where the log was pruned; what is known of each structure says
   of each of its build's instances what it is or nothing; and where nothing is unknown
   it is exactly the build. Builds decoded late apart.
   */
  lemma {:induction false} DecodeSaysNoOther(actions: seq<Action>, dst: Addr, serial: nat, tlasSerial: nat,
                                             wasTlas: bool, info: BlasInfo, a: Addr, i: nat)
    requires Runs(actions)
    ensures
      var w := After(actions);
      Undecoded(w, dst, serial) ==>
        var t, log := DecodedBottom(w.t, dst, serial, tlasSerial, wasTlas, info), DecodedLog(w, dst, serial, info);
        && (a in t.instHist && i < |t.instHist[a]| ==>
              var b := (a, t.instHist[a][i].build);
              && b in w.truth
              && (w.truth[b].origin !in w.late ==>
                    RowsFit(w, w.truth[b], t.instHist[a][i].rows, Seen(log, w.truth[b]))))
        && (a in t.readOf && a in t.tlas ==>
              var b := (a, t.readOf[a]);
              && b in w.truth
              && (w.truth[b].origin !in w.late ==>
                    && SaysNoOther(t.tlas[a], Seen(log, w.truth[b]))
                    && (t.tlas[a].unknownBlas == 0 ==> t.tlas[a] == Parse(Seen(log, w.truth[b])))))
  {
    hide Inv, Runs, After, Undecoded, Parse, Seen, SaysNoOther, RowsFit, TlasReread;
    EveryRunKeeps(actions);
    var w := After(actions);
    if Undecoded(w, dst, serial) {
      var t2 := Before(w, dst, serial, tlasSerial, wasTlas, info);
      assert t2.instHist == w.t.instHist && t2.readOf == w.t.readOf;
      if a in w.t.instHist && i < |w.t.instHist[a]| {
        KeptIs(w, a, i);
        var k := w.t.instHist[a][i];
        if w.truth[(a, k.build)].origin !in w.late {
          KeptAgain(w, dst, serial, tlasSerial, wasTlas, info, a, k);
        }
      }
      if a in w.t.readOf {
        KnownIs(w, a);
        if w.truth[(a, w.t.readOf[a])].origin !in w.late {
          KnownAgain(w, dst, serial, tlasSerial, wasTlas, info, a);
          ExactWhereKnown(w, dst, serial, tlasSerial, wasTlas, info, a);
        }
      }
    }
  }

  lemma KeptIs(w: World, a: Addr, i: nat)
    requires Inv(w) && a in w.t.instHist && i < |w.t.instHist[a]|
    ensures KeptOk(w, a, w.t.instHist[a][i])
  {}

  lemma ExactWhereKnown(w: World, dst: Addr, serial: nat, tlasSerial: nat, wasTlas: bool, info: BlasInfo, a: Addr)
    requires a in w.t.readOf && (a, w.t.readOf[a]) in w.truth
    ensures
      var t, seen := DecodedBottom(w.t, dst, serial, tlasSerial, wasTlas, info),
                     Seen(DecodedLog(w, dst, serial, info), w.truth[(a, w.t.readOf[a])]);
      (a in t.tlas && SaysNoOther(t.tlas[a], seen) && t.tlas[a].unknownBlas == 0) ==> t.tlas[a] == Parse(seen)
  {
    hide DecodedBottom, Seen, Blurs, Parse;
    var t, seen := DecodedBottom(w.t, dst, serial, tlasSerial, wasTlas, info),
                   Seen(DecodedLog(w, dst, serial, info), w.truth[(a, w.t.readOf[a])]);
    if a in t.tlas && SaysNoOther(t.tlas[a], seen) {
      var insts :| Blurs(insts, seen) && t.tlas[a] == Parse(insts);
      KnownIsSeen(insts, seen);
    }
  }

  /** The kept read of what is known met something unknown. */
  ghost predicate MetUnknown(w: World, a: Addr, k: Kept) {
    && a in w.t.readOf && a in w.t.instHist && k in w.t.instHist[a] && k.build == w.t.readOf[a]
    && k.descs != [] && exists i :: 0 <= i < |k.rows| && k.rows[i].active && k.rows[i].geometries == 0
  }

  /**
   Over every run: a structure known at a build whose kept read met something unknown is
   read again by the decode, and what is known of it is then exactly its build, wherever
   the log still has its instances' structures. Builds decoded late apart.
   */
  lemma {:induction false} DecodeMakesKnown(actions: seq<Action>, dst: Addr, serial: nat, tlasSerial: nat,
                                            wasTlas: bool, info: BlasInfo, a: Addr, k: Kept)
    requires Runs(actions)
    ensures
      var w := After(actions);
      (&& Undecoded(w, dst, serial) && MetUnknown(w, a, k)
       && (forall d :: d in k.descs && d.blas != 0 ==> EntryAt(At(w.t.hist, d.blas, []), k.asOf).Some?)) ==>
        var t, b := DecodedBottom(w.t, dst, serial, tlasSerial, wasTlas, info), (a, k.build);
        && b in w.truth
        && (w.truth[b].origin !in w.late ==>
              a in t.tlas && t.tlas[a] == Parse(Seen(DecodedLog(w, dst, serial, info), w.truth[b])))
  {
    hide Inv, Runs, After, Undecoded, Parse, Seen, DecodedBottom, DecodedLog, InOrderOfBuild;
    EveryRunKeeps(actions);
    var w := After(actions);
    if MetUnknown(w, a, k) && (forall d :: d in k.descs && d.blas != 0 ==>
                                 EntryAt(At(w.t.hist, d.blas, []), k.asOf).Some?)
    {
      KeptInOrder(actions, a);
      KnownIs(w, a);
      if w.truth[(a, k.build)].origin !in w.late {
        ReadAgain(w, dst, serial, tlasSerial, wasTlas, info, a, k);
      }
    }
  }

  lemma ReadAgain(w: World, dst: Addr, serial: nat, tlasSerial: nat, wasTlas: bool, info: BlasInfo, a: Addr, k: Kept)
    requires Inv(w) && MetUnknown(w, a, k) && InOrderOfBuild(w.t.instHist[a])
    requires (a, k.build) in w.truth && w.truth[(a, k.build)].origin !in w.late
    requires forall d :: d in k.descs && d.blas != 0 ==> EntryAt(At(w.t.hist, d.blas, []), k.asOf).Some?
    ensures
      var t := DecodedBottom(w.t, dst, serial, tlasSerial, wasTlas, info);
      a in t.tlas && t.tlas[a] == Parse(Seen(DecodedLog(w, dst, serial, info), w.truth[(a, k.build)]))
  {
    var t2, tr := Before(w, dst, serial, tlasSerial, wasTlas, info), w.truth[(a, k.build)];
    assert KeptOk(w, a, k);
    MetIsKnown(w.t.instHist[a], k);
    hide Inv, LogsOk, PointsBelow, Before, DecodedBottom, DecodedLog, Parse, ParseAt, Seen, InOrderOfBuild, LastMet;
    BeforeIs(w, dst, serial, tlasSerial, wasTlas, info);
    BottomTlas(w, dst, serial, tlasSerial, wasTlas, info);
    BuildIs(w, (a, k.build));
    MetIs(w, t2, a);
    RereadBlurs(w, dst, serial, info, tr);
    RereadSees(w, dst, serial, info, tr);
  }

  lemma RereadSees(w: World, dst: Addr, serial: nat, info: BlasInfo, tr: Truth)
    requires LogsOk(w) && PointsBelow(w.log, w.tops, tr.descs, tr.asOf)
    requires forall d :: d in tr.descs && d.blas != 0 ==> EntryAt(At(w.t.hist, d.blas, []), tr.asOf).Some?
    ensures
      var hist := w.t.hist[dst := WithDecoded(At(w.t.hist, dst, []), serial, info)];
      Parse(Resolve(hist, tr.descs, tr.asOf)) == Parse(Seen(DecodedLog(w, dst, serial, info), tr))
  {
    hide Parse, LogsOk, PointsBelow;
    RereadBlurs(w, dst, serial, info, tr);
    var hist := w.t.hist[dst := WithDecoded(At(w.t.hist, dst, []), serial, info)];
    var again, seen := Resolve(hist, tr.descs, tr.asOf), Seen(DecodedLog(w, dst, serial, info), tr);
    forall i | 0 <= i < |again| ensures SameIfActive(again[i], seen[i]) {
      assert BlursOne(again[i], seen[i]) && tr.descs[i] in tr.descs;
    }
    ParseSame(again, seen);
  }

  /** The only kept read of its build is the one that is read again. */
  lemma {:induction false} MetIsKnown(h: seq<Kept>, k: Kept)
    requires (forall i, j :: 0 <= i < j < |h| ==> h[i].build < h[j].build) && k in h && Meets(k)
    ensures LastMet(h, k.build) == Some(k)
  {
    var n := |h| - 1;
    assert h == h[..n] + [h[n]];
    if h[n] != k { MetIsKnown(h[..n], k); }
  }

  /**
   A deserialize over what was no top-level structure, and its decode as a bottom-level
   one, come to a build of that structure: the log has it, and no top-level build of it
   is left.
   */
  lemma DeserializeAndDecodeIsBuild(t: Tracker, dst: Addr, info: BlasInfo)
    requires dst !in t.lastBuilt && dst !in t.firstBuilt && dst !in t.buildCount && dst !in t.tlasAsSerial
    requires forall e :: e in At(t.hist, dst, []) ==> e.serial <= t.asSerial
    ensures
      var t' := DecodedBottom(DeserializeInto(t, dst), dst, t.asSerial + 1, t.tlasSerial + 1, false, info);
      && t'.hist == AppendBlas(t, dst, info).hist
      && t'.lastBuilt == t.lastBuilt && t'.firstBuilt == t.firstBuilt && t'.buildCount == t.buildCount
      && t'.tlasAsSerial == t.tlasAsSerial
  {
    hide DecodedBottom, DeserializeInto, WithDecoded;
    DeserializedIs(t, dst);
    DecodedBottomIs(DeserializeInto(t, dst), dst, t.asSerial + 1, t.tlasSerial + 1, info);
    LastDecoded(At(t.hist, dst, []), t.asSerial + 1, info);
    PutAndTaken(t.lastBuilt, dst, t.tlasSerial + 1);
    PutAndTaken(t.firstBuilt, dst, t.tlasSerial + 1);
    PutAndTaken(t.buildCount, dst, 1);
    PutAndTaken(t.tlasAsSerial, dst, t.asSerial + 2);
  }

  lemma PutAndTaken(m: map<Addr, nat>, a: Addr, n: nat)
    requires a !in m
    ensures m[a := n] - {a} == m
  {}

  lemma LastDecoded(log: Log, serial: nat, info: BlasInfo)
    requires forall e :: e in log ==> e.serial < serial
    ensures WithDecoded(log + [Entry(serial, UNKNOWN_DESERIALIZED)], serial, info) == log + [Entry(serial, info)]
  {
    forall i | 0 <= i < |log| ensures log[i].serial != serial { assert log[i] in log; }
  }

  lemma DeserializedIs(t: Tracker, dst: Addr)
    requires dst !in t.lastBuilt && dst !in t.firstBuilt && dst !in t.buildCount
    ensures
      var t', serial := DeserializeInto(t, dst), t.tlasSerial + 1;
      && t'.hist == t.hist[dst := At(t.hist, dst, []) + [Entry(t.asSerial + 1, UNKNOWN_DESERIALIZED)]]
      && t'.lastBuilt == t.lastBuilt[dst := serial] && t'.firstBuilt == t.firstBuilt[dst := serial]
      && t'.buildCount == t.buildCount[dst := 1] && t'.tlasAsSerial == t.tlasAsSerial[dst := t.asSerial + 2]
  {}

  lemma DecodedBottomIs(t: Tracker, dst: Addr, blasSerial: nat, tlasSerial: nat, info: BlasInfo)
    requires dst in t.lastBuilt && t.lastBuilt[dst] == tlasSerial
    ensures
      var t' := DecodedBottom(t, dst, blasSerial, tlasSerial, false, info);
      && t'.hist == t.hist[dst := WithDecoded(At(t.hist, dst, []), blasSerial, info)]
      && t'.lastBuilt == t.lastBuilt - {dst} && t'.firstBuilt == t.firstBuilt - {dst}
      && t'.buildCount == t.buildCount - {dst} && t'.tlasAsSerial == t.tlasAsSerial - {dst}
  {
    hide WithDecoded, TlasReread, RereadAll;
  }
}
