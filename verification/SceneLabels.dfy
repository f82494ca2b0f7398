/**
 Which top-level structures the labels are made from (`GeometryLabels`, `PairClasses`
 and `UnknownBlas` in `proxy/as_tracker.cpp`): the scenes a dispatch was resolved to, or
 every live one.
 */
module SceneLabels {
  import opened AsParse
  import opened AsTracker
  import opened Labels

  /** Exactly these, or one of them has been read. */
  predicate AnyBound(t: Tracker, bound: seq<Addr>, exact: bool) {
    exact || exists a :: a in bound && a in t.tlas
  }

  predicate Chosen(t: Tracker, bound: seq<Addr>, exact: bool, a: Addr) {
    a in t.tlas && if AnyBound(t, bound, exact) then a in bound else Live(t, a)
  }

  function SceneOf(t: Tracker, bound: seq<Addr>, exact: bool, a: Addr): Scene
    requires a in t.tlas
  {
    Scene(t.tlas[a], Chosen(t, bound, exact, a), Current(t, a))
  }

  /** Every structure that has been read, in some order. */
  ghost predicate AllScenes(t: Tracker, bound: seq<Addr>, exact: bool, scenes: seq<Scene>) {
    && (forall a :: a in t.tlas ==> SceneOf(t, bound, exact, a) in scenes)
    && (forall x :: x in scenes ==> IsScene(t, bound, exact, x))
  }

  ghost predicate IsScene(t: Tracker, bound: seq<Addr>, exact: bool, x: Scene) {
    exists a :: a in t.tlas && x == SceneOf(t, bound, exact, a)
  }

  /** Which geometry of the chosen structures' instances lands on which record. */
  ghost function Hits(t: Tracker, bound: seq<Addr>, exact: bool, args: seq<TraceArgs>): set<(nat, nat)> {
    set a, h | a in t.tlas && Chosen(t, bound, exact, a) && h in LandedOf(t.tlas[a].classes, args) :: h
  }

  ghost function ChosenClasses(t: Tracker, bound: seq<Addr>, exact: bool): set<Class> {
    set a, c | a in t.tlas && Chosen(t, bound, exact, a) && c in t.tlas[a].classes :: c
  }

  lemma ScenesHits(t: Tracker, bound: seq<Addr>, exact: bool, scenes: seq<Scene>, args: seq<TraceArgs>)
    requires AllScenes(t, bound, exact, scenes)
    ensures LandedAll(scenes, args) == Hits(t, bound, exact, args)
  {
    hide LandedOf, Chosen, Current;
    forall h | h in LandedAll(scenes, args) ensures h in Hits(t, bound, exact, args) {
      var s :| 0 <= s < |scenes| && scenes[s].counts && h in LandedOf(scenes[s].info.classes, args);
      assert scenes[s] in scenes && IsScene(t, bound, exact, scenes[s]);
    }
    forall h | h in Hits(t, bound, exact, args) ensures h in LandedAll(scenes, args) {
      var a :| a in t.tlas && Chosen(t, bound, exact, a) && h in LandedOf(t.tlas[a].classes, args);
      var s :| 0 <= s < |scenes| && scenes[s] == SceneOf(t, bound, exact, a);
    }
  }

  lemma ScenesClasses(t: Tracker, bound: seq<Addr>, exact: bool, scenes: seq<Scene>)
    requires AllScenes(t, bound, exact, scenes)
    ensures Counted(scenes) == ChosenClasses(t, bound, exact)
  {
    hide Chosen, Current;
    forall c | c in Counted(scenes) ensures c in ChosenClasses(t, bound, exact) {
      var s :| 0 <= s < |scenes| && scenes[s].counts && c in scenes[s].info.classes;
      assert scenes[s] in scenes && IsScene(t, bound, exact, scenes[s]);
    }
    forall c | c in ChosenClasses(t, bound, exact) ensures c in Counted(scenes) {
      var a :| a in t.tlas && Chosen(t, bound, exact, a) && c in t.tlas[a].classes;
      var s :| 0 <= s < |scenes| && scenes[s] == SceneOf(t, bound, exact, a);
    }
  }

  /** Was anything it is made from read, and from an older build than the latest? */
  ghost predicate IsRead(t: Tracker, bound: seq<Addr>, exact: bool) {
    exists a :: Chosen(t, bound, exact, a)
  }

  ghost predicate IsStale(t: Tracker, bound: seq<Addr>, exact: bool) {
    exists a :: Chosen(t, bound, exact, a) && !Current(t, a)
  }

  lemma ScenesRead(t: Tracker, bound: seq<Addr>, exact: bool, scenes: seq<Scene>)
    requires AllScenes(t, bound, exact, scenes)
    ensures IsRead(t, bound, exact) <==> exists s :: 0 <= s < |scenes| && scenes[s].counts
    ensures IsStale(t, bound, exact) <==> exists s :: 0 <= s < |scenes| && scenes[s].counts && !scenes[s].current
  {
    hide AnyBound, Live, Current;
    forall s | 0 <= s < |scenes| && scenes[s].counts
      ensures IsRead(t, bound, exact) && (!scenes[s].current ==> IsStale(t, bound, exact))
    {
      assert scenes[s] in scenes && IsScene(t, bound, exact, scenes[s]);
      var a :| a in t.tlas && scenes[s] == SceneOf(t, bound, exact, a);
      assert Chosen(t, bound, exact, a);
    }
    forall a | Chosen(t, bound, exact, a)
      ensures exists s :: 0 <= s < |scenes| && scenes[s].counts && scenes[s].current == Current(t, a)
    {
      var s :| 0 <= s < |scenes| && scenes[s] == SceneOf(t, bound, exact, a);
    }
  }

  /** `UnknownBlas` chooses by `exact` alone. */
  ghost predicate IsUnknown(t: Tracker, bound: seq<Addr>, exact: bool) {
    exists a :: a in t.tlas && t.tlas[a].unknownBlas != 0 && if exact then a in bound else Live(t, a)
  }

  /**
   Labels made from every live structure answer the hits of any scenes that are live: a
   dispatch whose scenes are not known is served by more, not by others.
   */
  lemma UnresolvedAnswersAll(t: Tracker, bound: seq<Addr>, args: seq<TraceArgs>, out: seq<int>, h: (nat, nat))
    requires forall a :: a in bound && a in t.tlas ==> Live(t, a)
    requires Labelled(out, Hits(t, [], false, args)) && -2 !in out
    requires h in Hits(t, bound, true, args) && h.1 < |out|
    ensures out[h.1] == h.0
  {
    hide Live, LandedOf;
    var a :| a in t.tlas && Chosen(t, bound, true, a) && h in LandedOf(t.tlas[a].classes, args);
    assert Chosen(t, [], false, a);
    assert h in Hits(t, [], false, args) && Says(out[h.1], Hits(t, [], false, args), h.1);
  }

  /** Of scenes that are known, some of which are read, only those count, asked for exactly or not; none is passed over. */
  lemma ResolvedCountsItsScenes(t: Tracker, bound: seq<Addr>, exact: bool, a: Addr)
    requires exists b :: b in bound && b in t.tlas
    ensures Chosen(t, bound, exact, a) <==> a in bound && a in t.tlas
  {
    hide Live;
  }
}
