/**
 How many times a split waits: once for each maximal run of dispatches with no
 ordered work between them, counted here from the recording alone.
 */
module SplitRuns {
  import opened Options
  import opened ListState
  import opened Replay
  import opened Split

  predicate Dispatch(c: AppCmd) { !Ordered(c) && !c.Setting? }

  /** A direct dispatch passes a work barrier before it is deferred, so it starts a run. */
  predicate Direct(c: AppCmd) { c.StaleCompute? || c.StaleRays? }

  /** No earlier dispatch reaches `i` without ordered work on the way. */
  ghost predicate StartsRun(rec: seq<AppCmd>, i: nat)
    requires i < |rec|
  {
    && Dispatch(rec[i])
    && (Direct(rec[i]) || !Reaches(rec, i))
  }

  ghost predicate Reaches(rec: seq<AppCmd>, i: nat)
    requires i <= |rec|
  {
    exists j :: 0 <= j < i && Dispatch(rec[j]) && forall k :: j < k < i ==> !Ordered(rec[k])
  }

  ghost function RunStarts(rec: seq<AppCmd>): set<int> {
    set i | 0 <= i < |rec| && StartsRun(rec, i)
  }

  lemma ReachesNext(rec: seq<AppCmd>)
    requires rec != []
    ensures
      var n := |rec| - 1;
      Reaches(rec, |rec|) <==> Dispatch(rec[n]) || (!Ordered(rec[n]) && Reaches(rec[..n], n))
  {
    var n := |rec| - 1;
    PrefixReaches(rec, n, n);
    if Dispatch(rec[n]) {
    } else if !Ordered(rec[n]) && Reaches(rec, n) {
      var j :| 0 <= j < n && Dispatch(rec[j]) && forall k :: j < k < n ==> !Ordered(rec[k]);
      assert forall k :: j < k < |rec| ==> !Ordered(rec[k]);
    }
  }

  /** What comes later does not change where a run started. */
  lemma PrefixReaches(rec: seq<AppCmd>, n: nat, i: nat)
    requires i <= n <= |rec|
    ensures Reaches(rec[..n], i) <==> Reaches(rec, i)
  {
    if Reaches(rec, i) {
      var j :| 0 <= j < i && Dispatch(rec[j]) && forall k :: j < k < i ==> !Ordered(rec[k]);
      assert Dispatch(rec[..n][j]);
      forall k | j < k < i ensures !Ordered(rec[..n][k]) { assert rec[..n][k] == rec[k]; }
    }
    if Reaches(rec[..n], i) {
      var j :| 0 <= j < i && Dispatch(rec[..n][j]) && forall k :: j < k < i ==> !Ordered(rec[..n][k]);
      assert Dispatch(rec[j]);
      forall k | j < k < i ensures !Ordered(rec[k]) { assert rec[..n][k] == rec[k]; }
    }
  }

  lemma RunStartsNext(rec: seq<AppCmd>)
    requires rec != []
    ensures
      var n := |rec| - 1;
      |RunStarts(rec)| == |RunStarts(rec[..n])| + if StartsRun(rec, n) then 1 else 0
  {
    var n := |rec| - 1;
    forall i | 0 <= i < n ensures StartsRun(rec, i) <==> StartsRun(rec[..n], i) {
      PrefixReaches(rec, n, i);
    }
    assert RunStarts(rec) == RunStarts(rec[..n]) + if StartsRun(rec, n) then {n} else {};
  }

  ghost predicate NeverEmpty(segs: seq<Segment>) {
    forall i :: 0 <= i < |segs| ==> segs[i].pendings != []
  }

  /** What one command does to the queue of dispatches and to the segments. */
  lemma StepQueues(w: Wrapped, lowered: set<Handle>, cap: Capture, c: AppCmd)
    requires w.Valid() && StepOk(w, c)
    ensures
      var w' := RecordStep(w, lowered, cap, c);
      && (Ordered(c) || Direct(c) ==> w'.segments == Flush(w).segments)
      && (!(Ordered(c) || Direct(c)) ==> w'.segments == w.segments)
      && (Ordered(c) ==> w'.open == [])
      && (Dispatch(c) ==> w'.open != [])
      && (c.Setting? ==> w'.open == w.open)
  {}

  /** One segment closed or open for each run so far, and one open exactly inside a run. */
  ghost predicate Counts(rec: seq<AppCmd>, w: Wrapped) {
    && |w.segments| + (if w.open != [] then 1 else 0) == |RunStarts(rec)|
    && (w.open != [] <==> Reaches(rec, |rec|))
    && NeverEmpty(w.segments)
  }

  lemma StepCounts(rec: seq<AppCmd>, w: Wrapped, lowered: set<Handle>, cap: Capture)
    requires rec != [] && w.Valid() && StepOk(w, rec[|rec| - 1])
    requires Counts(rec[..|rec| - 1], w)
    ensures Counts(rec, RecordStep(w, lowered, cap, rec[|rec| - 1]))
  {
    hide RecordStep, Reaches, RunStarts;
    var n := |rec| - 1;
    RunStartsNext(rec);
    ReachesNext(rec);
    PrefixReaches(rec, n, n);
    StepQueues(w, lowered, cap, rec[n]);
  }

  lemma {:induction false} RecordCountsRuns(rec: seq<AppCmd>, initial: Option<Handle>,
                                            lowered: set<Handle>, cap: Capture)
    requires RecordingOk(rec, initial, lowered, cap)
    ensures Counts(rec, Record(rec, initial, lowered, cap))
    decreases |rec|
  {
    if rec != [] {
      hide RecordStep, Counts;
      var n := |rec| - 1;
      RecordCountsRuns(rec[..n], initial, lowered, cap);
      StepCounts(rec, Record(rec[..n], initial, lowered, cap), lowered, cap);
    }
  }

  /**
   A closed recording has one segment, hence one wait, for each maximal run of
   dispatches, and no segment without a dispatch.
   */
  lemma SegmentsAreRuns(rec: seq<AppCmd>, initial: Option<Handle>, lowered: set<Handle>, cap: Capture)
    requires RecordingOk(rec, initial, lowered, cap)
    ensures
      var segs := Flush(Record(rec, initial, lowered, cap)).segments;
      |segs| == |RunStarts(rec)| && NeverEmpty(segs)
  {
    hide Record, RecordingOk, RunStarts, ReplayAll, Reaches;
    RecordCountsRuns(rec, initial, lowered, cap);
  }

  lemma {:induction false} NonEmptyWaits(segs: seq<Segment>)
    requires NeverEmpty(segs)
    ensures Waits(segs) == |segs|
  {
    if segs != [] { NonEmptyWaits(segs[..|segs| - 1]); }
  }

  /** So a submission waits once per maximal run of dispatches. */
  lemma OneWaitPerRun(rec: seq<AppCmd>, initial: Option<Handle>, lowered: set<Handle>, cap: Capture)
    requires RecordingOk(rec, initial, lowered, cap)
    ensures Waits(Flush(Record(rec, initial, lowered, cap)).segments) == |RunStarts(rec)|
  {
    hide Record, Flush, RunStarts;
    SegmentsAreRuns(rec, initial, lowered, cap);
    NonEmptyWaits(Flush(Record(rec, initial, lowered, cap)).segments);
  }
}
