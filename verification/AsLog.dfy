/**
 The log of bottom-level builds (`g_blasHist` in `proxy/as_tracker.cpp`): per
 address the builds it has had, oldest first, each with its serial. A top-level
 build is parsed against the structures as they were when it was RECORDED, so the
 log is kept, and pruned of what no parse can still ask for.
 */
module AsLog {
  import opened Options

  datatype Kind = Unknown | Triangles | Procedural | Mixed

  /** D3D12 allows at most 2^24 geometries in a bottom-level structure. */
  type GeometryCount = n: nat | n <= 0x100_0000

  datatype BlasInfo = BlasInfo(kind: Kind, geometryCount: GeometryCount, origin: nat)

  datatype Entry = Entry(serial: nat, info: BlasInfo)

  type Log = seq<Entry>

  ghost predicate Sorted(log: Log) {
    forall i, j :: 0 <= i < j < |log| ==> log[i].serial < log[j].serial
  }

  /** The latest build before `asOf`. */
  function EntryAt(log: Log, asOf: nat): Option<Entry> {
    if log == [] then None
    else if log[|log| - 1].serial < asOf then Some(log[|log| - 1])
    else EntryAt(log[..|log| - 1], asOf)
  }

  /** The structure as a build recorded at `asOf` saw it. */
  function BlasAt(log: Log, asOf: nat): Option<BlasInfo> {
    match EntryAt(log, asOf)
    case None => None
    case Some(e) => Some(e.info)
  }

  /** `BlasAtLocked`: the loop keeps the last entry that is old enough. */
  method BlasAtLocked(log: Log, asOf: nat) returns (found: Option<BlasInfo>)
    ensures found == BlasAt(log, asOf)
  {
    found := None;
    for i := 0 to |log|
      invariant found == BlasAt(log[..i], asOf)
    {
      assert log[..i + 1][..i] == log[..i];
      if log[i].serial < asOf {
        found := Some(log[i].info);
      }
    }
    assert log[..|log|] == log;
  }

  /** In a log in order, that is the entry with the largest serial below `asOf`. */
  lemma {:induction false} BlasAtIsLatest(log: Log, asOf: nat)
    requires Sorted(log)
    ensures BlasAt(log, asOf) == None <==> forall i :: 0 <= i < |log| ==> log[i].serial >= asOf
    ensures forall i ::
      (0 <= i < |log| && log[i].serial < asOf && (i + 1 < |log| ==> log[i + 1].serial >= asOf)) ==>
        BlasAt(log, asOf) == Some(log[i].info)
  {
    if log != [] {
      var n := |log| - 1;
      BlasAtIsLatest(log[..n], asOf);
      forall i | 0 <= i < |log| && log[i].serial < asOf && (i + 1 < |log| ==> log[i + 1].serial >= asOf)
        ensures BlasAt(log, asOf) == Some(log[i].info)
      {
        if i < n {
          assert log[n].serial >= asOf by {
            if i + 1 < n { assert log[i + 1].serial < log[n].serial; }
          }
          assert log[..n][i] == log[i];
          if i + 1 < n { assert log[..n][i + 1] == log[i + 1]; }
        }
      }
      if log[n].serial >= asOf {
        forall i | 0 <= i < |log| && BlasAt(log, asOf) == None ensures log[i].serial >= asOf {
          if i < n { assert log[..n][i] == log[i]; }
        }
      }
    }
  }

  // --- pruning -------------------------------------------------------------------

  /** Where to keep from: the last entry, other than the first, older than `floor`. */
  function KeepFrom(log: Log, floor: nat): (k: nat)
    ensures k == 0 || k < |log|
    ensures k > 0 ==> log[k].serial < floor
  {
    if |log| <= 1 then 0
    else if log[|log| - 1].serial < floor then |log| - 1
    else KeepFrom(log[..|log| - 1], floor)
  }

  /** The loop of `NoteBuild`, and the erase after it. */
  method Prune(log: Log, floor: nat) returns (kept: Log)
    ensures kept == log[KeepFrom(log, floor)..]
  {
    var keepFrom := 0;
    var i := 0;
    while i + 1 < |log|
      invariant 0 <= i && (|log| == 0 ==> i == 0) && (|log| > 0 ==> i < |log|)
      invariant keepFrom <= |log|
      invariant |log| > 0 ==> keepFrom == KeepFrom(log[..i + 1], floor)
      decreases |log| - i
    {
      assert log[..i + 2][..i + 1] == log[..i + 1];
      if log[i + 1].serial < floor { keepFrom := i + 1; }
      i := i + 1;
    }
    if |log| > 0 { assert log[..i + 1] == log; }
    kept := log[keepFrom..];
  }

  /** A pruned log answers like the whole one from its start on, and never wrongly before. */
  lemma {:induction false} KeptAnswers(log: Log, k: nat, asOf: nat)
    requires Sorted(log) && k <= |log|
    ensures EntryAt(log[k..], asOf) in {EntryAt(log, asOf), None}
    ensures (k == 0 || (k < |log| && log[k].serial < asOf)) ==> EntryAt(log[k..], asOf) == EntryAt(log, asOf)
    decreases |log|
  {
    if k == 0 {
      assert log[0..] == log;
    } else if k < |log| {
      var n := |log| - 1;
      if log[n].serial >= asOf {
        assert log[k..][..n - k] == log[..n][k..];
        KeptAnswers(log[..n], k, asOf);
        if k < n { assert log[..n][k] == log[k]; }
      }
    }
  }

  /**
   Pruning is invisible: from the floor on, the pruned log finds for every
   question the structure the whole log gives; for older ones that, or nothing.
   */
  lemma PruningIsInvisible(log: Log, floor: nat, asOf: nat)
    requires Sorted(log)
    ensures
      var kept := log[KeepFrom(log, floor)..];
      && EntryAt(kept, asOf) in {EntryAt(log, asOf), None}
      && (asOf >= floor ==> EntryAt(kept, asOf) == EntryAt(log, asOf))
  {
    KeptAnswers(log, KeepFrom(log, floor), asOf);
  }

  /** And tight: behind the first entry that is kept there is none that no question from the floor on can ask for. */
  lemma {:induction false} PruningIsTight(log: Log, floor: nat)
    requires Sorted(log)
    ensures forall i :: KeepFrom(log, floor) < i < |log| ==> log[i].serial >= floor
  {
    if |log| > 1 {
      var n := |log| - 1;
      PruningIsTight(log[..n], floor);
      assert forall i :: 0 <= i < n ==> log[..n][i] == log[i];
    }
  }

  /** A build recorded after the question changes no answer to it. */
  lemma AppendKeepsAnswer(log: Log, e: Entry, asOf: nat)
    requires e.serial >= asOf
    ensures EntryAt(log + [e], asOf) == EntryAt(log, asOf)
  {
    assert (log + [e])[..|log|] == log;
  }

  lemma AppendSorted(log: Log, e: Entry)
    requires Sorted(log) && forall i :: 0 <= i < |log| ==> log[i].serial < e.serial
    ensures Sorted(log + [e])
  {}

  /** One more build, and pruning to a floor: what is asked from there on is answered as before. */
  lemma AppendAndPrune(log: Log, e: Entry, floor: nat, asked: nat)
    requires Sorted(log) && (forall i :: 0 <= i < |log| ==> log[i].serial < e.serial)
    ensures
      var next := log + [e];
      var kept := next[KeepFrom(next, floor)..];
      && kept != [] && kept[|kept| - 1] == e && Sorted(kept)
      && (floor <= asked <= e.serial ==> EntryAt(kept, asked) == EntryAt(log, asked))
      && (asked <= e.serial ==> EntryAt(kept, asked) in {EntryAt(log, asked), None})
      && (asked > e.serial ==> EntryAt(kept, asked) == Some(e))
  {
    var next := log + [e];
    AppendSorted(log, e);
    PruningIsInvisible(next, floor, asked);
    if asked <= e.serial { AppendKeepsAnswer(log, e, asked); }
  }

  // --- an entry that turns out to be none ---------------------------------------------

  /** The log without the entry that a deserialize made. */
  function WithoutEntry(log: Log, serial: nat): Log {
    if log == [] then []
    else
      var n := |log| - 1;
      WithoutEntry(log[..n], serial) + if log[n].serial == serial then [] else [log[n]]
  }

  lemma {:induction false} WithoutEntryIs(log: Log, serial: nat)
    requires Sorted(log)
    ensures Sorted(WithoutEntry(log, serial))
    ensures forall e :: e in WithoutEntry(log, serial) <==> e in log && e.serial != serial
  {
    if log != [] {
      var n := |log| - 1;
      WithoutEntryIs(log[..n], serial);
      assert log == log[..n] + [log[n]];
      var front := WithoutEntry(log[..n], serial);
      forall i | 0 <= i < |front| ensures front[i].serial < log[n].serial { assert front[i] in log[..n]; }
    }
  }

  /** Only the questions it was the answer to are answered otherwise. */
  lemma {:induction false} WithoutEntryAnswers(log: Log, serial: nat, asOf: nat)
    ensures
      var x := EntryAt(log, asOf);
      (x.None? || x.value.serial != serial) ==> EntryAt(WithoutEntry(log, serial), asOf) == x
  {
    if log != [] {
      var n := |log| - 1;
      WithoutEntryAnswers(log[..n], serial, asOf);
      var front := WithoutEntry(log[..n], serial);
      assert (front + [log[n]])[..|front|] == front;
      assert front + [] == front;
    }
  }

  /** The log with what a decode found out about the structure of one entry. */
  function WithDecoded(log: Log, serial: nat, info: BlasInfo): (r: Log)
    ensures |r| == |log|
    ensures forall i :: 0 <= i < |log| ==> r[i] == DecodedEntry(log[i], serial, info)
  {
    seq(|log|, i requires 0 <= i < |log| => DecodedEntry(log[i], serial, info))
  }

  function DecodedEntry(e: Entry, serial: nat, info: BlasInfo): Entry {
    if e.serial == serial then Entry(serial, info) else e
  }

  lemma {:induction false} WithDecodedAnswers(log: Log, serial: nat, info: BlasInfo, asOf: nat)
    ensures
      var x := EntryAt(log, asOf);
      EntryAt(WithDecoded(log, serial, info), asOf)
      == if x.None? then None else Some(DecodedEntry(x.value, serial, info))
  {
    if log != [] {
      var n := |log| - 1;
      WithDecodedAnswers(log[..n], serial, info, asOf);
      assert WithDecoded(log, serial, info)[..n] == WithDecoded(log[..n], serial, info);
    }
  }

  /** The answer is an entry of the log, older than the question. */
  lemma {:induction false} EntryAtFound(log: Log, asOf: nat)
    ensures EntryAt(log, asOf).Some? ==> EntryAt(log, asOf).value in log && EntryAt(log, asOf).value.serial < asOf
  {
    if log != [] { EntryAtFound(log[..|log| - 1], asOf); }
  }
}
