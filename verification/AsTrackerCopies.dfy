/**
 What an instance finds of a bottom-level structure that was built, copied or
 deserialized: over every run, looked up by a top-level build recorded next.
 */
module AsTrackerCopies {
  import opened Options
  import opened AsLog
  import opened AsParse
  import opened AsTracker
  import opened AsTrackerWorld
  import opened AsTrackerBuilds

  /** An instance, in a top-level build recorded next. */
  function Next(t: Tracker, a: Addr, c: Contribution): Instance {
    ResolveOne(t.hist, Desc(a, c), t.asSerial + 1)
  }

  /** It finds the last entry of the log, whatever that is. */
  lemma NextIsLast(w: World, a: Addr, c: Contribution)
    requires Inv(w)
    ensures
      var h := At(w.t.hist, a, []);
      Next(w.t, a, c).found == if h == [] then None else Some(h[|h| - 1].info)
  {
    assert LogAt(w.t.asSerial, w.tops, a, At(w.t.hist, a, []), At(w.log, a, []));
    LastAnswer(At(w.t.hist, a, []), w.t.asSerial, w.t.asSerial + 1);
  }

  lemma CopyHist(t: Tracker, dst: Addr, src: Addr, mode: CopyMode)
    requires dst != 0 && mode in {CloneOrCompact, OtherMode}
    ensures NoteCopy(t, dst, src, mode).hist == CopyBottom(t, dst, src, mode == CloneOrCompact).hist
  {
    hide CopyBottom, CopyTop;
    CopyTopHist(CopyBottom(t, dst, src, mode == CloneOrCompact), dst, src, mode == CloneOrCompact);
  }

  lemma CopyTopHist(t: Tracker, dst: Addr, src: Addr, same: bool)
    ensures CopyTop(t, dst, src, same).hist == t.hist
  {
    hide RememberCopy;
  }

  /** The last entry of each log after `NoteCopy`. */
  lemma CopyLast(t: Tracker, dst: Addr, src: Addr, mode: CopyMode, a: Addr)
    requires dst != 0 && mode in {CloneOrCompact, OtherMode}
    ensures
      var same, h, h' := mode == CloneOrCompact, At(t.hist, a, []), At(NoteCopy(t, dst, src, mode).hist, a, []);
      if a == dst && (same ==> HasBlas(t, src) || src !in t.lastBuilt)
      then h' != [] && h'[|h'| - 1].info == CopiedInfo(t, src, same) else h' == h
  {
    hide NoteCopy, CopiedInfo, CopyBottom, HasBlas, At;
    CopyHist(t, dst, src, mode);
    CopyBottomLast(t, dst, src, mode == CloneOrCompact, a);
  }

  lemma CopyBottomLast(t: Tracker, dst: Addr, src: Addr, same: bool, a: Addr)
    ensures
      var h, h' := At(t.hist, a, []), At(CopyBottom(t, dst, src, same).hist, a, []);
      if a == dst && (same ==> HasBlas(t, src) || src !in t.lastBuilt)
      then h' != [] && h'[|h'| - 1].info == CopiedInfo(t, src, same) else h' == h
  {
    hide CopiedInfo, HasBlas;
  }

  /**
   A CLONE or COMPACT is found to have its source's kind and as many geometries; of a
   top-level structure it changes nothing; any other copy is of nothing known. All else
   is found as before.
   */
  lemma {:induction false} CopyIsFoundAsItsSource(actions: seq<Action>, dst: Addr, src: Addr, mode: CopyMode,
                                                  c: Contribution)
    requires Runs(actions) && Enabled(After(actions), CopyStructure(dst, src, mode))
    requires dst != 0 && mode != SerializeOrDecode
    ensures
      var w, w' := After(actions), Step(After(actions), CopyStructure(dst, src, mode));
      var source, copy := Next(w.t, src, c).found, Next(w'.t, dst, c).found;
      && (mode == CloneOrCompact && source.Some? ==>
            copy.Some? && copy.value.kind == source.value.kind
            && copy.value.geometryCount == source.value.geometryCount)
      && (mode == CloneOrCompact && source.None? && src in w.t.lastBuilt ==> copy == Next(w.t, dst, c).found)
      && ((mode != CloneOrCompact || (source.None? && src !in w.t.lastBuilt)) ==>
            copy.Some? && copy.value.kind == Unknown && copy.value.geometryCount == 0)
      && (forall a :: a != dst ==> Next(w'.t, a, c) == Next(w.t, a, c))
  {
    hide Inv, Runs, After, Step, NoteCopy;
    var action := CopyStructure(dst, src, mode);
    EveryRunKeeps(actions);
    var w := After(actions);
    CopyEnabled(w, dst, src, mode);
    CopyStepKeeps(w, dst, src, mode);
    CopyStepFields(w, dst, src, mode);
    var w' := Step(w, action);
    NextIsLast(w, src, c);
    NextIsLast(w', dst, c);
    NextIsLast(w, dst, c);
    CopyLast(w.t, dst, src, mode, dst);
    forall a | a != dst ensures Next(w'.t, a, c) == Next(w.t, a, c) {
      NextIsLast(w, a, c);
      NextIsLast(w', a, c);
      CopyLast(w.t, dst, src, mode, a);
    }
  }

  lemma CopyEnabled(w: World, dst: Addr, src: Addr, mode: CopyMode)
    requires Enabled(w, CopyStructure(dst, src, mode))
    ensures dst != src && mode != Deserialize
  {}

  /** A build is found as what it was built with, and all else as before. */
  lemma {:induction false} BuildIsFound(actions: seq<Action>, b: Addr, info: BlasInfo, floor: nat, c: Contribution)
    requires Runs(actions) && Enabled(After(actions), Action.BuildBottom(b, info, floor))
    ensures
      var w, w' := After(actions), Step(After(actions), Action.BuildBottom(b, info, floor));
      Next(w'.t, b, c).found == Some(info) && forall a :: a != b ==> Next(w'.t, a, c) == Next(w.t, a, c)
  {
    hide Inv, Runs, After;
    EveryRunKeeps(actions);
    var w := After(actions);
    var action := Action.BuildBottom(b, info, floor);
    BuildBottomKeeps(w, action);
    var w' := Step(w, action);
    BuiltLast(w.t, b, info, floor);
    NextIsLast(w', b, c);
    forall a | a != b ensures Next(w'.t, a, c) == Next(w.t, a, c) {
      NextIsLast(w, a, c);
      NextIsLast(w', a, c);
    }
  }

  lemma BuiltLast(t: Tracker, b: Addr, info: BlasInfo, floor: nat)
    ensures
      var h := At(AsTracker.BuildBottom(t, b, info, floor).hist, b, []);
      h != [] && h[|h| - 1].info == info
  {}

  /** A deserialized structure is found as one nothing is known of, until it is decoded. */
  lemma {:induction false} DeserializedIsFoundUnknown(actions: seq<Action>, dst: Addr, c: Contribution)
    requires Runs(actions) && Enabled(After(actions), DeserializeOther(dst))
    ensures
      var w, w' := After(actions), Step(After(actions), DeserializeOther(dst));
      && Next(w'.t, dst, c).found == Some(BlasInfo(Unknown, 0, 2))
      && (forall a :: a != dst ==> Next(w'.t, a, c) == Next(w.t, a, c))
      && dst !in w'.t.tlas && dst !in w'.t.readOf && dst in w'.t.lastBuilt && w'.t.lastBuilt[dst] == w'.t.tlasSerial
  {
    hide Inv, Runs, After;
    EveryRunKeeps(actions);
    var w := After(actions);
    StepKeeps(w, DeserializeOther(dst));
    var w' := Step(w, DeserializeOther(dst));
    DeserializedLast(w.t, dst);
    NextIsLast(w', dst, c);
    forall a | a != dst ensures Next(w'.t, a, c) == Next(w.t, a, c) {
      NextIsLast(w, a, c);
      NextIsLast(w', a, c);
    }
  }

  lemma DeserializedLast(t: Tracker, dst: Addr)
    ensures
      var t' := DeserializeInto(t, dst);
      && t'.hist == t.hist[dst := At(t.hist, dst, []) + [Entry(t.asSerial + 1, BlasInfo(Unknown, 0, 2))]]
      && t'.tlas == t.tlas - {dst} && t'.readOf == t.readOf - {dst}
      && t'.tlasSerial == t.tlasSerial + 1 && t'.lastBuilt == t.lastBuilt[dst := t.tlasSerial + 1]
  {}

  /** A decode of a top-level structure, in time or late, takes exactly the deserialize's entry out of the logs. */
  lemma DecodeErases(w: World, d: Deserialized, descs: seq<Desc>, a: Addr, e: Entry)
    requires Inv(w) && Enabled(w, Decode(d, descs))
    ensures
      e in At(Step(w, Decode(d, descs)).t.hist, a, [])
      <==> e in At(w.t.hist, a, []) && !(a == d.dst && e.serial == d.blasSerial)
  {
    hide DecodedTop, EraseEntry, WithoutEntry, InTime;
    DecodedHist(w.t, d, descs);
    ErasedEntry(w, d.dst, d.blasSerial, a, e);
  }

  lemma DecodedHist(t: Tracker, d: Deserialized, descs: seq<Desc>)
    ensures
      DecodedTop(t, d.dst, d.blasSerial, d.tlasSerial, descs).hist == EraseEntry(t, d.dst, d.blasSerial).hist
  {
    hide EraseEntry, Learn, LearnOlder, At;
    LearnHist(EraseEntry(t, d.dst, d.blasSerial), d.dst, d.tlasSerial, At(t.tlasAsSerial, d.dst, 0), descs);
  }

  lemma LearnHist(t: Tracker, a: Addr, build: nat, asOf: nat, descs: seq<Desc>)
    ensures Learn(t, a, build, asOf, descs).hist == t.hist && LearnOlder(t, a, build, asOf, descs).hist == t.hist
  {
    hide ParseAt, Remember;
  }

  lemma ErasedEntry(w: World, dst: Addr, serial: nat, a: Addr, e: Entry)
    requires Inv(w)
    ensures
      e in At(EraseEntry(w.t, dst, serial).hist, a, []) <==> e in At(w.t.hist, a, []) && !(a == dst && e.serial == serial)
  {
    var log := At(w.t.hist, dst, []);
    assert LogAt(w.t.asSerial, w.tops, dst, log, At(w.log, dst, []));
    WithoutEntryIs(log, serial);
  }
}
