/**
 The tracker over whole runs: builds, copies, deserialized structures, reads that
 arrive late, on demand or out of order, dispatches deferred to a split, on several
 lists and queues. Beside its state stands what it is about: every bottom-level
 build there was (the log, unpruned) and what each top-level build was made of.
 */
module AsTrackerWorld {
  import opened Options
  import opened GpuQueue
  import opened Readback
  import opened AsLog
  import opened AsParse
  import opened AsTracker

  /** A build of a top-level structure: its address and serial. */
  type Build = (Addr, nat)

  /** The instances it was made of, recorded when the log was at `asOf`; `origin` is shared by its copies. */
  datatype Truth = Truth(descs: seq<Desc>, asOf: nat, origin: nat)

  /** Who is still to say what the latest build of a structure is made of. */
  datatype Noter = ByCall(owner: nat) | ByDecode

  /**
   A dispatch deferred to submit: where it was recorded, the build serial then, and
   the builds its scenes had.
   */
  datatype Deferred = Deferred(owner: nat, recording: nat, segment: nat, at: nat, builds: seq<Build>)

  /** A top-level structure deserialized and not decoded yet: its entry in the log, and its build. */
  datatype Deserialized = Deserialized(dst: Addr, blasSerial: nat, tlasSerial: nat)

  /**
   `noting`: built, and what of is not noted yet. `tops`: log entries of structures
   that are top-level ones. `late`: builds decoded after their structure was built
   again. `copies`, `buffers`: per read, the build it copies, and what its buffer
   holds. A build with no entry in `truth` is one of which the shim cannot know
   anything.
   */
  datatype World = World(
    t: Tracker,
    log: map<Addr, Log>,
    tops: set<(Addr, nat)>,
    truth: map<Build, Truth>,
    noting: map<Addr, Noter>,
    decodes: set<Deserialized>,
    late: set<nat>,
    deferred: set<Deferred>,
    gpu: Gpu,
    copies: map<nat, Build>,
    buffers: map<nat, seq<Desc>>,
    next: nat)

  datatype Action =
    | BuildBottom(a: Addr, info: BlasInfo, floor: nat)
    | BuildTop(a: Addr, descs: seq<Desc>, owner: nat)
    | ReadNow(a: Addr)
    | RecordCopy(a: Addr, owner: nat, junk: seq<Desc>)
    | EndBuild(owner: nat)
    | CopyStructure(dst: Addr, src: Addr, mode: CopyMode)
    | DeserializeTop(dst: Addr, descs: seq<Desc>)
    | DeserializeOther(dst: Addr)
    | Decode(d: Deserialized, descs: seq<Desc>)
    | Defer(owner: nat, scenes: seq<Addr>)
    | CloseSegment(owner: nat)
    | ResetList(owner: nat)
    | Enter(call: nat, queue: nat, owners: set<nat>)
    | Exec(call: nat, owner: nat)
    | Wait(call: nat, owner: nat)
    | Leave(call: nat, signalled: bool)
    | Bring(call: nat, dispatch: Deferred, k: nat)
    | Work(queue: nat)
    | NewQueue(queue: nat)

  // --- one step -----------------------------------------------------------------------

  function Append(log: map<Addr, Log>, a: Addr, e: Entry): map<Addr, Log> {
    log[a := At(log, a, []) + [e]]
  }

  /** The structures those instances point at were bottom-level ones then. */
  ghost predicate PointsBelow(log: map<Addr, Log>, tops: set<(Addr, nat)>, descs: seq<Desc>, asOf: nat) {
    forall d :: d in descs ==> !TopThen(log, tops, d.blas, asOf)
  }

  ghost predicate TopThen(log: map<Addr, Log>, tops: set<(Addr, nat)>, a: Addr, asOf: nat) {
    var x := EntryAt(At(log, a, []), asOf);
    x.Some? && (a, x.value.serial) in tops
  }

  /** A call that builds on this list has not returned. */
  ghost predicate InBuild(w: World, owner: nat) {
    exists a :: a in w.noting && w.noting[a] == ByCall(owner)
  }

  /** No call executes the list, and none that builds on it is going on: one thread records it. */
  ghost predicate Open(w: World, owner: nat) {
    !Busy(w.gpu, owner) && !InBuild(w, owner)
  }

  /** Its segment is done: what `SubmitSegmented` waits for before it looks at the dispatch. */
  ghost predicate AtSegment(w: World, call: nat, d: Deferred) {
    && d in w.deferred && call in w.gpu.calls && d.owner in w.gpu.calls[call].lists
    && d.recording == ListOf(w.gpu, d.owner).recording
    && d.segment < w.gpu.calls[call].lists[d.owner].waited
  }

  /**
   A list is recorded by one thread, while no call executes it; instances point at
   bottom-level structures; a structure is not copied onto itself; what a decode in
   time sees is the structure it is of.
   */
  ghost predicate Enabled(w: World, action: Action) {
    match action
    case BuildBottom(_, _, floor) => IsFloor(w.t, floor)
    case BuildTop(_, descs, owner) =>
      Open(w, owner) && PointsBelow(w.log, w.tops, descs, w.t.asSerial + 1)
    case ReadNow(a) => a in w.noting && w.noting[a].ByCall? && a in w.t.lastBuilt && (a, w.t.lastBuilt[a]) in w.truth
    case RecordCopy(a, owner, _) =>
      a != 0 && a in w.noting && w.noting[a] == ByCall(owner) && a in w.t.lastBuilt && !Busy(w.gpu, owner)
    case EndBuild(_) => true
    case CopyStructure(dst, src, mode) => dst != src && mode != Deserialize
    case DeserializeTop(dst, descs) =>
      && dst != 0 && PointsBelow(w.log, w.tops, descs, w.t.asSerial + 1)
      && forall d :: d in descs ==> d.blas != dst
    case DeserializeOther(dst) => dst != 0
    case Decode(d, descs) =>
      && d in w.decodes
      && (InTime(w, d) && (d.dst, d.tlasSerial) in w.truth ==> descs == w.truth[(d.dst, d.tlasSerial)].descs)
    case Defer(owner, scenes) => Open(w, owner) && forall a :: a in scenes ==> a in w.t.lastBuilt
    case CloseSegment(owner) => Open(w, owner)
    case ResetList(owner) => Open(w, owner)
    case Enter(c, queue, owners) => c !in w.gpu.calls && CanEnter(w.gpu, queue, owners)
    case Exec(c, owner) => c in w.gpu.calls && owner in w.gpu.calls[c].lists && w.gpu.calls[c].queue in w.gpu.queues
    case Wait(c, owner) => c in w.gpu.calls && owner in w.gpu.calls[c].lists && Waited(w.gpu, c, owner)
    case Leave(c, _) => c in w.gpu.calls && w.gpu.calls[c].queue in w.gpu.queues && AllSent(w.gpu, c)
    case Bring(c, d, k) => AtSegment(w, c, d) && k < |d.builds|
    case Work(queue) => queue in w.gpu.queues
    case NewQueue(queue) => queue !in w.gpu.queues
  }

  /** The structure was not built again since. */
  predicate InTime(w: World, d: Deserialized) {
    d.dst in w.t.lastBuilt && w.t.lastBuilt[d.dst] == d.tlasSerial
  }

  /** What the log says of a copy: what its source was last built with, or that it is not known. */
  function CopyIs(w: World, src: Addr, mode: CopyMode): BlasInfo {
    if mode == CloneOrCompact && src in w.t.hist && w.t.hist[src] != [] then
      var last := w.t.hist[src][|w.t.hist[src]| - 1].info;
      BlasInfo(last.kind, last.geometryCount, if last.kind == Unknown then last.origin else 1)
    else BlasInfo(Unknown, 0, 3)
  }

  /** The log after `NoteCopy`: a copy of a top-level structure has no entry, unless its source has one. */
  function LogAfterCopy(w: World, dst: Addr, src: Addr, mode: CopyMode): map<Addr, Log> {
    if dst == 0 || mode == SerializeOrDecode then w.log
    else if mode == CloneOrCompact && !HasBlas(w.t, src) && src in w.t.lastBuilt then w.log
    else Append(w.log, dst, Entry(w.t.asSerial + 1, CopyIs(w, src, mode)))
  }

  /** Is the copy a new build of a top-level structure? */
  predicate CopyRebuilds(w: World, dst: Addr, src: Addr, mode: CopyMode) {
    && dst != 0 && mode != SerializeOrDecode
    && (dst in w.t.lastBuilt || (mode == CloneOrCompact && src in w.t.lastBuilt))
  }

  /** A copy of a top-level structure is made of what its source's latest build is made of. */
  function TruthAfterCopy(w: World, dst: Addr, src: Addr, mode: CopyMode): map<Build, Truth> {
    if dst != 0 && mode == CloneOrCompact && src in w.t.lastBuilt && (src, w.t.lastBuilt[src]) in w.truth
    then w.truth[(dst, w.t.tlasSerial + 1) := w.truth[(src, w.t.lastBuilt[src])]]
    else w.truth
  }

  /** The GPU executes the copies of the queue's next item. */
  ghost predicate RunsNow(g: Gpu, queue: nat, id: nat)
    requires queue in g.queues
  {
    g.queues[queue].done < |g.queues[queue].items| && RunAt(g.queues[queue], id, g.queues[queue].done)
  }

  ghost function Copied(w: World, queue: nat, id: nat): seq<Desc>
    requires queue in w.gpu.queues && id in w.buffers
  {
    if RunsNow(w.gpu, queue, id) && id in w.copies && w.copies[id] in w.truth
    then w.truth[w.copies[id]].descs else w.buffers[id]
  }

  ghost function BuffersAfter(w: World, queue: nat): (b: map<nat, seq<Desc>>)
    requires queue in w.gpu.queues
    ensures b.Keys == w.buffers.Keys && forall id :: id in b ==> b[id] == Copied(w, queue, id)
  {
    map id | id in w.buffers :: Copied(w, queue, id)
  }

  ghost predicate Signals(w: World, c: nat, signalled: bool)
    requires c in w.gpu.calls
  {
    signalled && AnyToStamp(w.t.pending, w.gpu.calls[c].lists.Keys)
  }

  ghost function Submitted(w: World, c: nat, signalled: bool): World
    requires c in w.gpu.calls && w.gpu.calls[c].queue in w.gpu.queues
  {
    if Signals(w, c, signalled)
    then w.(gpu := Readback.Leave(w.gpu, c, true), t := w.t.(pending := LeaveReads(w.gpu, w.t.pending, c)))
    else w.(gpu := Readback.Leave(w.gpu, c, false))
  }

  /** A deserialize: a new build, and an entry of a structure not known. */
  function DeserializeStep(w: World, dst: Addr): World {
    w.(t := NoteCopy(w.t, dst, 0, Deserialize),
       log := Append(w.log, dst, Entry(w.t.asSerial + 1, UNKNOWN_DESERIALIZED)),
       noting := w.noting - {dst})
  }

  /** Of a top-level structure, and what it is made of. */
  function DeserializeTopStep(w: World, dst: Addr, descs: seq<Desc>): World {
    var blas, tlas := w.t.asSerial + 1, w.t.tlasSerial + 1;
    DeserializeStep(w, dst).(
      truth := w.truth[(dst, tlas) := Truth(descs, w.t.asSerial + 2, tlas)],
      noting := w.noting[dst := ByDecode],
      decodes := w.decodes + {Deserialized(dst, blas, tlas)},
      tops := w.tops + {(dst, blas)})
  }

  ghost function DecodeStep(w: World, d: Deserialized, descs: seq<Desc>): World {
    w.(t := DecodedTop(w.t, d.dst, d.blasSerial, d.tlasSerial, descs),
       decodes := w.decodes - {d},
       noting := if InTime(w, d) then w.noting - {d.dst} else w.noting,
       late := if InTime(w, d) then w.late else w.late + {d.tlasSerial})
  }

  function BuildsOf(t: Tracker, scenes: seq<Addr>): (bs: seq<Build>)
    requires forall a :: a in scenes ==> a in t.lastBuilt
    ensures |bs| == |scenes| && forall k :: 0 <= k < |scenes| ==> bs[k] == (scenes[k], t.lastBuilt[scenes[k]])
  {
    seq(|scenes|, k requires 0 <= k < |scenes| => (scenes[k], t.lastBuilt[scenes[k]]))
  }

  function DeferredNow(w: World, owner: nat, scenes: seq<Addr>): Deferred
    requires forall a :: a in scenes ==> a in w.t.lastBuilt
  {
    var at := ListOf(w.gpu, owner);
    Deferred(owner, at.recording, at.segment, w.t.tlasSerial, BuildsOf(w.t, scenes))
  }

  function ByOthers(noting: map<Addr, Noter>, owner: nat): map<Addr, Noter> {
    map a | a in noting && noting[a] != ByCall(owner) :: noting[a]
  }

  ghost function Step(w: World, action: Action): World
    requires Enabled(w, action)
  {
    match action
    case BuildBottom(a, info, floor) =>
      w.(t := AsTracker.BuildBottom(w.t, a, info, floor), log := Append(w.log, a, Entry(w.t.asSerial + 1, info)))
    case BuildTop(a, descs, owner) =>
      w.(t := AsTracker.BuildTop(w.t, a), noting := w.noting[a := ByCall(owner)],
         truth := w.truth[(a, w.t.tlasSerial + 1) := Truth(descs, w.t.asSerial + 1, w.t.tlasSerial + 1)])
    case ReadNow(a) =>
      w.(t := AsTracker.ReadNow(w.t, a, w.truth[(a, w.t.lastBuilt[a])].descs), noting := w.noting - {a})
    case RecordCopy(a, owner, junk) =>
      w.(t := NotePending(w.t, a, w.next, owner, ListOf(w.gpu, owner)), noting := w.noting - {a},
         copies := w.copies[w.next := (a, w.t.lastBuilt[a])], buffers := w.buffers[w.next := junk], next := w.next + 1)
    case EndBuild(owner) => w.(noting := ByOthers(w.noting, owner))
    case CopyStructure(dst, src, mode) =>
      w.(t := NoteCopy(w.t, dst, src, mode), log := LogAfterCopy(w, dst, src, mode),
         truth := TruthAfterCopy(w, dst, src, mode),
         noting := if CopyRebuilds(w, dst, src, mode) then w.noting - {dst} else w.noting)
    case DeserializeTop(dst, descs) => DeserializeTopStep(w, dst, descs)
    case DeserializeOther(dst) => DeserializeStep(w, dst)
    case Decode(d, descs) => DecodeStep(w, d, descs)
    case Defer(owner, scenes) => w.(deferred := w.deferred + {DeferredNow(w, owner, scenes)})
    case CloseSegment(owner) => w.(gpu := Readback.CloseSegment(w.gpu, owner))
    case ResetList(owner) =>
      w.(gpu := Readback.Reset(w.gpu, owner), t := w.t.(pending := Drop(w.t.pending, owner)))
    case Enter(c, queue, owners) => w.(gpu := Readback.Enter(w.gpu, c, queue, owners))
    case Exec(c, owner) => w.(gpu := Readback.Exec(w.gpu, w.t.pending, c, owner))
    case Wait(c, owner) => w.(gpu := Readback.Wait(w.gpu, c, owner))
    case Leave(c, signalled) =>
      var w1 := Submitted(w, c, signalled);
      w1.(t := SettleDone(w1.t, w1.gpu, w.buffers, w1.t.pending))
    case Bring(_, d, k) =>
      w.(t := AsTracker.Bring(w.t, w.gpu, w.buffers, d.builds[k].0, d.builds[k].1, d.owner, 0).1)
    case Work(queue) => w.(gpu := Readback.Work(w.gpu, queue), buffers := BuffersAfter(w, queue))
    case NewQueue(queue) => w.(gpu := w.gpu.(queues := w.gpu.queues[queue := Queue([], 0)]))
  }

  const START := World(EMPTY, map[], {}, map[], map[], {}, {}, {}, IDLE, map[], map[], 0)

  ghost predicate Runs(actions: seq<Action>)
    decreases |actions|, 0
  {
    actions == [] ||
    (var n := |actions| - 1;
     Runs(actions[..n]) && Enabled(After(actions[..n]), actions[n]))
  }

  ghost function After(actions: seq<Action>): World
    requires Runs(actions)
    decreases |actions|, 1
  {
    if actions == [] then START
    else
      var n := |actions| - 1;
      Step(After(actions[..n]), actions[n])
  }

  // --- the invariant ---------------------------------------------------------------------

  /** What a parse against the whole log sees of a build. */
  function Seen(log: map<Addr, Log>, tr: Truth): seq<Instance> {
    Resolve(log, tr.descs, tr.asOf)
  }

  /** Entries in order, and none from the future. */
  ghost predicate UpTo(log: Log, asSerial: nat) {
    Sorted(log) && forall i :: 0 <= i < |log| ==> log[i].serial <= asSerial
  }

  /**
   What is kept of a log. An old question finds what the whole log gives, or nothing,
   unless what it is about was a top-level structure; and so does one asked now.
   */
  ghost predicate LogAt(asSerial: nat, tops: set<(Addr, nat)>, a: Addr, kept: Log, log: Log) {
    && UpTo(log, asSerial) && UpTo(kept, asSerial)
    && (forall asOf :: OldAnswer(tops, a, kept, log, asOf))
    && (log != [] && (a, log[|log| - 1].serial) !in tops ==>
          kept != [] && kept[|kept| - 1] == log[|log| - 1])
  }

  ghost predicate OldAnswer(tops: set<(Addr, nat)>, a: Addr, kept: Log, log: Log, asOf: nat) {
    var x := EntryAt(log, asOf);
    && (x.None? ==> EntryAt(kept, asOf).None?)
    && (x.Some? && (a, x.value.serial) !in tops ==> EntryAt(kept, asOf) in {x, None})
  }

  ghost predicate LogsOk(w: World) {
    && (forall a :: LogAt(w.t.asSerial, w.tops, a, At(w.t.hist, a, []), At(w.log, a, [])))
    && (forall x :: x in w.tops ==> x.1 <= w.t.asSerial)
  }

  /** For each of its instances, the pruned log still finds what the whole one does. */
  ghost predicate Answered(hist: map<Addr, Log>, log: map<Addr, Log>, tr: Truth) {
    forall d :: d in tr.descs ==> EntryAt(At(hist, d.blas, []), tr.asOf) == EntryAt(At(log, d.blas, []), tr.asOf)
  }

  ghost predicate TruthOk(w: World) {
    && (forall b :: b in w.truth ==> 0 < b.1 <= w.t.tlasSerial && 0 < w.truth[b].asOf <= w.t.asSerial)
    && (forall a :: a in w.t.lastBuilt && (a, w.t.lastBuilt[a]) in w.truth ==>
          a in w.t.tlasAsSerial && 0 < w.truth[(a, w.t.lastBuilt[a])].asOf == w.t.tlasAsSerial[a])
    && (forall a :: a in w.t.tlasAsSerial ==> w.t.tlasAsSerial[a] <= w.t.asSerial)
  }

  /** What a build is made of points at bottom-level structures. */
  ghost predicate PointsAll(w: World) {
    forall b :: b in w.truth ==> PointsBelow(w.log, w.tops, w.truth[b].descs, w.truth[b].asOf)
  }

  /** A read in flight is of a build there was, and its question can still be answered. */
  ghost predicate PendingOk(w: World, r: Read<Copy>) {
    && (r.key.tlas, r.key.build) in w.truth
    && 0 < r.key.asOf == w.truth[(r.key.tlas, r.key.build)].asOf
    && Answered(w.t.hist, w.log, w.truth[(r.key.tlas, r.key.build)])
    && r.id in w.copies && w.copies[r.id] == (r.key.tlas, r.key.build)
  }

  ghost predicate PendingAll(w: World) {
    forall r :: r in w.t.pending ==> PendingOk(w, r)
  }

  /** What is known of the structure is the parse of exactly the build it claims. */
  ghost predicate KnownOk(w: World, a: Addr) {
    a in w.t.readOf ==>
      && (a, w.t.readOf[a]) in w.truth
      && a in w.t.tlas && w.t.tlas[a] == Parse(Seen(w.log, w.truth[(a, w.t.readOf[a])]))
  }

  /** Nothing of the latest build is known, asked or copied while it is not noted. */
  ghost predicate NotingOk(w: World, a: Addr) {
    && a in w.t.lastBuilt && a in w.t.tlasAsSerial && (a, w.t.lastBuilt[a]) in w.truth
    && Answered(w.t.hist, w.log, w.truth[(a, w.t.lastBuilt[a])])
    && (a in w.t.readOf ==> w.t.readOf[a] != w.t.lastBuilt[a])
    && (a in w.t.alias ==> w.t.alias[a].build != w.t.lastBuilt[a])
    && (forall r :: r in w.t.pending && r.key.tlas == a ==> r.key.build != w.t.lastBuilt[a])
  }

  /** A copy is made of what its source is made of, and the source's build is older. */
  ghost predicate AliasOk(w: World, a: Addr) {
    a in w.t.alias ==>
      var al := w.t.alias[a];
      && al.srcBuild < al.build <= w.t.tlasSerial
      && ((al.src, al.srcBuild) in w.truth ==>
            (a, al.build) in w.truth && w.truth[(a, al.build)] == w.truth[(al.src, al.srcBuild)])
  }

  /** The kept instances of a build are exactly those of that build, unless it was decoded late. */
  ghost predicate KeptOk(w: World, a: Addr, k: Kept) {
    && (a, k.build) in w.truth
    && (w.truth[(a, k.build)].origin !in w.late ==> IsOfBuild(w, a, k))
  }

  ghost predicate IsOfBuild(w: World, a: Addr, k: Kept)
    requires (a, k.build) in w.truth
  {
    && k.descs == w.truth[(a, k.build)].descs && (k.descs == [] || k.asOf == w.truth[(a, k.build)].asOf)
    && k.rows == RowsOf(Seen(w.log, w.truth[(a, k.build)]))
  }

  ghost predicate KeptAll(w: World) {
    forall a, k :: a in w.t.instHist && k in w.t.instHist[a] ==> KeptOk(w, a, k)
  }

  ghost predicate KnownAll(w: World) {
    forall a :: KnownOk(w, a)
  }

  ghost predicate AliasAll(w: World) {
    forall a :: AliasOk(w, a)
  }

  ghost predicate NotingAll(w: World) {
    forall a :: a in w.noting ==> NotingOk(w, a)
  }

  /** Once its copy has run, a buffer holds the instances of its build. */
  ghost predicate BufferOk(w: World, id: nat)
    requires id in w.copies
  {
    && id in w.buffers
    && (w.copies[id] in w.truth && HasRun(w.gpu, id) ==> w.buffers[id] == w.truth[w.copies[id]].descs)
  }

  ghost predicate BuffersOk(w: World) {
    && (forall id :: id in w.copies ==> id < w.next && w.copies[id] in w.truth)
    && (forall id :: id in w.copies ==> BufferOk(w, id))
    && (forall q, i, id :: q in w.gpu.queues && RunAt(w.gpu.queues[q], id, i) ==> id in w.copies)
  }

  /** A deserialize not decoded yet is a build there was, and while it is the latest it waits to be noted. */
  ghost predicate DecodeOk(w: World, d: Deserialized) {
    && (d.dst, d.blasSerial) in w.tops && (d.dst, d.tlasSerial) in w.truth
    && w.truth[(d.dst, d.tlasSerial)].origin == d.tlasSerial
    && (InTime(w, d) ==> d.dst in w.noting && w.noting[d.dst] == ByDecode)
  }

  ghost predicate DecodesOk(w: World) {
    && (forall d :: d in w.decodes ==> DecodeOk(w, d))
    && (forall d, d' :: d in w.decodes && d' in w.decodes && d.tlasSerial == d'.tlasSerial ==> d == d')
  }

  /**
   In the recording a dispatch is part of, the copies of builds it may ask for lie in
   its segment or before; what is recorded after it is of later builds.
   */
  ghost predicate DeferredOk(w: World, d: Deferred) {
    var l := ListOf(w.gpu, d.owner);
    && d.recording <= l.recording && (d.recording == l.recording ==> d.segment <= l.segment)
    && d.at <= w.t.tlasSerial && (forall b :: b in d.builds ==> b.1 <= d.at)
    && (forall r :: r in w.t.pending && r.owner == d.owner && r.recording == d.recording && r.key.build <= d.at ==>
          r.segment <= d.segment)
    && (d.recording == l.recording ==>
          forall a :: a in w.noting && w.noting[a] == ByCall(d.owner) && a in w.t.lastBuilt ==> w.t.lastBuilt[a] > d.at)
  }

  ghost predicate DeferredAll(w: World) {
    forall d :: d in w.deferred ==> DeferredOk(w, d)
  }

  ghost predicate RecordsOk(w: World) {
    PointsAll(w) && DecodesOk(w) && DeferredAll(w)
  }

  ghost predicate Inv(w: World) {
    && BuildsInOrder(w.t) && TruthOk(w) && LogsOk(w)
    && PendingAll(w) && KnownAll(w) && KeptAll(w) && AliasAll(w) && NotingAll(w)
    && AllOk(w.gpu, w.t.pending) && BuffersOk(w) && RecordsOk(w)
  }

  // --- the log grows ---------------------------------------------------------------------

  /** A later entry changes nothing that was seen before it. */
  lemma SeenStays(log: map<Addr, Log>, a: Addr, e: Entry, tr: Truth)
    requires e.serial >= tr.asOf
    ensures Seen(Append(log, a, e), tr) == Seen(log, tr)
  {
    AppendKeepsAnswer(At(log, a, []), e, tr.asOf);
    forall d: Desc ensures ResolveOne(Append(log, a, e), d, tr.asOf) == ResolveOne(log, d, tr.asOf) {}
  }

  /** The pruned log parses as the whole one does. */
  lemma ParseIsTrue(t: Tracker, log: map<Addr, Log>, tr: Truth)
    requires 0 < tr.asOf && Answered(t.hist, log, tr)
    ensures ParseAt(t, tr.descs, tr.asOf) == Parse(Seen(log, tr))
  {
    forall d | d in tr.descs ensures ResolveOne(t.hist, d, tr.asOf) == ResolveOne(log, d, tr.asOf) {
      assert EntryAt(At(t.hist, d.blas, []), tr.asOf) == EntryAt(At(log, d.blas, []), tr.asOf);
    }
    ResolveSame(t.hist, log, tr.descs, tr.asOf);
  }

  /** With no instances there is nothing to look up. */
  lemma ParseEmpty(t: Tracker, log: map<Addr, Log>, tr: Truth, asOf: nat)
    requires tr.descs == []
    ensures ParseAt(t, [], asOf) == Parse(Seen(log, tr))
  {
    var now := if asOf == 0 then t.asSerial + 1 else asOf;
    assert Resolve(t.hist, [], now) == [] == Seen(log, tr);
  }

  /** After the last entry there is nothing newer. */
  lemma LastAnswer(log: Log, asSerial: nat, asOf: nat)
    requires UpTo(log, asSerial) && asOf > asSerial
    ensures EntryAt(log, asOf) == if log == [] then None else Some(log[|log| - 1])
  {}

  /** What is asked now is answered as by the whole log. */
  lemma AnsweredNow(w: World, tr: Truth)
    requires LogsOk(w) && tr.asOf > w.t.asSerial && PointsBelow(w.log, w.tops, tr.descs, tr.asOf)
    ensures Answered(w.t.hist, w.log, tr)
  {
    forall d | d in tr.descs
      ensures EntryAt(At(w.t.hist, d.blas, []), tr.asOf) == EntryAt(At(w.log, d.blas, []), tr.asOf)
    {
      var kept, log := At(w.t.hist, d.blas, []), At(w.log, d.blas, []);
      assert LogAt(w.t.asSerial, w.tops, d.blas, kept, log);
      assert !TopThen(w.log, w.tops, d.blas, tr.asOf);
      LastAnswer(log, w.t.asSerial, tr.asOf);
      LastAnswer(kept, w.t.asSerial, tr.asOf);
      assert OldAnswer(w.tops, d.blas, kept, log, tr.asOf);
    }
  }

  /** Appending, and pruning for a floor: a question from there on is answered as before. */
  lemma AnsweredAfter(w: World, a: Addr, e: Entry, floor: nat, tr: Truth)
    requires LogsOk(w) && Answered(w.t.hist, w.log, tr)
    requires e.serial == w.t.asSerial + 1 && floor <= tr.asOf <= e.serial
    ensures
      var h := At(w.t.hist, a, []) + [e];
      Answered(w.t.hist[a := h[KeepFrom(h, floor)..]], Append(w.log, a, e), tr)
  {
    var kept, log := At(w.t.hist, a, []), At(w.log, a, []);
    assert UpTo(kept, w.t.asSerial) by { assert LogAt(w.t.asSerial, w.tops, a, kept, log); }
    hide KeepFrom, LogsOk, LogAt, UpTo, EntryAt;
    PrunedAnswer(w.t.asSerial, kept, e, floor, tr.asOf);
    AppendKeepsAnswer(log, e, tr.asOf);
  }

  /** One more entry in a log, and in what is kept of it. */
  lemma AppendLogAt(asSerial: nat, tops: set<(Addr, nat)>, a: Addr, kept: Log, log: Log, e: Entry, floor: nat)
    requires LogAt(asSerial, tops, a, kept, log) && e.serial == asSerial + 1 && floor <= asSerial + 1
    ensures
      var h := kept + [e];
      LogAt(asSerial + 1, tops, a, h[KeepFrom(h, floor)..], log + [e])
  {
    var h := kept + [e];
    var kept', log' := h[KeepFrom(h, floor)..], log + [e];
    AppendUpTo(log, e, 0);
    AppendUpTo(kept, e, floor);
    KeepFromZero(log');
    assert log'[0..] == log';
    assert UpTo(kept, asSerial) && UpTo(log, asSerial);
    PrunedAnswer(asSerial, kept, e, floor, 0);
    hide KeepFrom, UpTo, EntryAt;
    forall asOf ensures OldAnswer(tops, a, kept', log', asOf) {
      assert OldAnswer(tops, a, kept, log, asOf);
      OldAnswerNext(asSerial, tops, a, kept, log, e, floor, asOf);
    }
    hide OldAnswer;
  }

  lemma OldAnswerNext(asSerial: nat, tops: set<(Addr, nat)>, a: Addr, kept: Log, log: Log, e: Entry, floor: nat,
                      asOf: nat)
    requires UpTo(kept, asSerial) && UpTo(log, asSerial) && e.serial == asSerial + 1
    requires OldAnswer(tops, a, kept, log, asOf)
    ensures
      var h := kept + [e];
      OldAnswer(tops, a, h[KeepFrom(h, floor)..], log + [e], asOf)
  {
    PrunedAnswer(asSerial, kept, e, floor, asOf);
    PrunedAnswer(asSerial, log, e, 0, asOf);
    KeepFromZero(log + [e]);
    assert (log + [e])[0..] == log + [e];
    hide KeepFrom, UpTo, EntryAt;
  }

  lemma AppendUpTo(log: Log, e: Entry, floor: nat)
    requires e.serial > 0 && UpTo(log, e.serial - 1)
    ensures
      var h := log + [e];
      UpTo(h[KeepFrom(h, floor)..], e.serial)
  {
    AppendSorted(log, e);
  }

  lemma PrunedAnswer(asSerial: nat, log: Log, e: Entry, floor: nat, asOf: nat)
    requires UpTo(log, asSerial) && e.serial == asSerial + 1
    ensures
      var h := log + [e];
      var kept := h[KeepFrom(h, floor)..];
      && kept != [] && kept[|kept| - 1] == e
      && (asOf <= e.serial ==> EntryAt(kept, asOf) in {EntryAt(log, asOf), None})
      && (floor <= asOf <= e.serial ==> EntryAt(kept, asOf) == EntryAt(log, asOf))
      && (asOf > e.serial ==> EntryAt(kept, asOf) == Some(e))
  {
    hide KeepFrom;
    AppendAndPrune(log, e, floor, asOf);
  }

  /** The serial moves on. */
  lemma LogAtLater(asSerial: nat, later: nat, tops: set<(Addr, nat)>, a: Addr, kept: Log, log: Log)
    requires LogAt(asSerial, tops, a, kept, log) && asSerial <= later
    ensures LogAt(later, tops, a, kept, log)
  {}

  lemma AppendLogsOk(w: World, w': World, a: Addr, e: Entry, floor: nat)
    requires LogsOk(w) && e.serial == w.t.asSerial + 1 && floor <= w.t.asSerial + 1
    requires w'.log == Append(w.log, a, e) && w'.t.asSerial == w.t.asSerial + 1 && w'.tops == w.tops
    requires
      var h := At(w.t.hist, a, []) + [e];
      w'.t.hist == w.t.hist[a := h[KeepFrom(h, floor)..]]
    ensures LogsOk(w')
  {
    hide KeepFrom, LogAt;
    forall b ensures LogAt(w'.t.asSerial, w'.tops, b, At(w'.t.hist, b, []), At(w'.log, b, [])) {
      if b == a {
        AppendLogAt(w.t.asSerial, w.tops, a, At(w.t.hist, a, []), At(w.log, a, []), e, floor);
      } else {
        LogAtLater(w.t.asSerial, w'.t.asSerial, w.tops, b, At(w.t.hist, b, []), At(w.log, b, []));
      }
    }
  }

  /** Nothing at all is pruned for 0. */
  lemma {:induction false} KeepFromZero(log: Log)
    ensures KeepFrom(log, 0) == 0
  {
    if |log| > 1 { KeepFromZero(log[..|log| - 1]); }
  }
}
