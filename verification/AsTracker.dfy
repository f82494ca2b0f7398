/**
 The acceleration structure tracker (`proxy/as_tracker.cpp`) on values: what each
 call does to its tables. `tlas` holds what is known of a top-level structure (a
 structure that is not `valid` is not in it), and `readOf` the build that is of.
 */
module AsTracker {
  import opened Options
  import opened AsLog
  import opened AsParse
  import opened Readback

  const LIVE_WINDOW: nat := 64
  const SUPERSEDE_BUILDS: nat := 4
  const MAX_DEPTH: nat := 8
  const INST_HIST: nat := 8

  /** A copy of the instances of one build, on its way to the CPU; `asOf` as for a parse. */
  datatype Copy = Copy(tlas: Addr, build: nat, asOf: nat)

  /** Build `build` of a structure is build `srcBuild` of `src`. */
  datatype Alias = Alias(src: Addr, srcBuild: nat, build: nat)

  /** The instances of one build that was read, and their rows. */
  datatype Kept = Kept(build: nat, asOf: nat, descs: seq<Desc>, rows: seq<Row>)

  datatype CopyMode = CloneOrCompact | Deserialize | SerializeOrDecode | OtherMode

  datatype Tracker = Tracker(
    asSerial: nat,
    hist: map<Addr, Log>,
    tlasSerial: nat,
    lastBuilt: map<Addr, nat>,
    firstBuilt: map<Addr, nat>,
    buildCount: map<Addr, nat>,
    tlasAsSerial: map<Addr, nat>,
    tlas: map<Addr, TlasInfo>,
    readOf: map<Addr, nat>,
    alias: map<Addr, Alias>,
    instHist: map<Addr, seq<Kept>>,
    pending: seq<Read<Copy>>)

  const EMPTY := Tracker(0, map[], 0, map[], map[], map[], map[], map[], map[], map[], map[], [])

  function At<V>(m: map<Addr, V>, a: Addr, otherwise: V): V {
    if a in m then m[a] else otherwise
  }

  // --- which structures count -----------------------------------------------------------

  /** Was what is known read from the latest build? */
  predicate Current(t: Tracker, a: Addr) {
    a in t.lastBuilt && a in t.readOf && t.readOf[a] == t.lastBuilt[a]
  }

  /** `b` did not exist when `a` was last built, was read, and was built four times since. */
  predicate Supersedes(t: Tracker, b: Addr, a: Addr) {
    && b != a && b in t.tlas && a in t.lastBuilt
    && b in t.firstBuilt && b in t.buildCount
    && t.firstBuilt[b] > t.lastBuilt[a] && t.buildCount[b] >= SUPERSEDE_BUILDS
  }

  /** `LiveLocked`. */
  predicate Live(t: Tracker, a: Addr) {
    a in t.lastBuilt ==>
      && t.lastBuilt[a] + LIVE_WINDOW >= t.tlasSerial
      && forall b :: b in t.tlas ==> !Supersedes(t, b, a)
  }

  // --- builds ------------------------------------------------------------------------------

  /** The oldest question a parse can still ask: now, of a pending read, or of one to come. */
  ghost predicate IsFloor(t: Tracker, floor: nat) {
    && floor <= t.asSerial + 1
    && (forall r :: r in t.pending && r.key.asOf != 0 ==> floor <= r.key.asOf)
    && (forall a :: a in t.tlasAsSerial && !Current(t, a) ==> floor <= t.tlasAsSerial[a])
    && (|| floor == t.asSerial + 1
        || (exists r :: r in t.pending && r.key.asOf == floor)
        || (exists a :: a in t.tlasAsSerial && !Current(t, a) && t.tlasAsSerial[a] == floor))
  }

  /** `NoteBuild` of a bottom-level structure. */
  function BuildBottom(t: Tracker, a: Addr, info: BlasInfo, floor: nat): Tracker {
    var h := At(t.hist, a, []) + [Entry(t.asSerial + 1, info)];
    t.(asSerial := t.asSerial + 1, hist := t.hist[a := h[KeepFrom(h, floor)..]])
  }

  /** A build of a top-level structure gets the next serial. */
  function NextBuild(t: Tracker, a: Addr): Tracker {
    t.(tlasSerial := t.tlasSerial + 1,
       lastBuilt := t.lastBuilt[a := t.tlasSerial + 1],
       firstBuilt := if a in t.firstBuilt then t.firstBuilt else t.firstBuilt[a := t.tlasSerial + 1],
       buildCount := t.buildCount[a := At(t.buildCount, a, 0) + 1])
  }

  /** `NoteBuild` of a top-level structure. */
  function BuildTop(t: Tracker, a: Addr): Tracker {
    NextBuild(t.(asSerial := t.asSerial + 1, tlasAsSerial := t.tlasAsSerial[a := t.asSerial + 1]), a)
  }

  // --- reads ----------------------------------------------------------------------------------

  /** `ParseLocked`, against the bottom-level structures as of then (0: now). */
  ghost function ParseAt(t: Tracker, descs: seq<Desc>, asOf: nat): TlasInfo {
    Parse(Resolve(t.hist, descs, if asOf == 0 then t.asSerial + 1 else asOf))
  }

  /** Into a list sorted by build. */
  function Insert(h: seq<Kept>, k: Kept): seq<Kept> {
    if h == [] then [k]
    else
      var n := |h| - 1;
      if h[n].build < k.build then h + [k] else Insert(h[..n], k) + [h[n]]
  }

  predicate HasBuild(h: seq<Kept>, build: nat) {
    exists i :: 0 <= i < |h| && h[i].build == build
  }

  /** `RememberLocked`: the instances of the last few builds that were read. */
  function Remember(m: map<Addr, seq<Kept>>, a: Addr, k: Kept): map<Addr, seq<Kept>> {
    var h := At(m, a, []);
    if k.build == 0 || HasBuild(h, k.build) then m
    else
      var h' := Insert(h, k);
      m[a := if |h'| > INST_HIST then h'[|h'| - INST_HIST..] else h']
  }

  /** `RememberCopyLocked`: the source's entry as the copy's. */
  function RememberCopy(m: map<Addr, seq<Kept>>, a: Addr, build: nat, src: Addr, srcBuild: nat): map<Addr, seq<Kept>> {
    match EntryOf(At(m, src, []), srcBuild)
    case None => m
    case Some(k) => Remember(m, a, k.(build := build))
  }

  function EntryOf(h: seq<Kept>, build: nat): Option<Kept> {
    if h == [] then None
    else if h[0].build == build then Some(h[0])
    else EntryOf(h[1..], build)
  }

  /** What is known becomes that build's instances, and they are kept. */
  ghost function Learn(t: Tracker, a: Addr, build: nat, asOf: nat, descs: seq<Desc>): Tracker {
    var info := ParseAt(t, descs, asOf);
    t.(tlas := t.tlas[a := info], readOf := t.readOf[a := build],
       instHist := Remember(t.instHist, a, Kept(build, asOf, descs, info.rows)))
  }

  /** An older build's read: kept, and nothing else. */
  ghost function LearnOlder(t: Tracker, a: Addr, build: nat, asOf: nat, descs: seq<Desc>): Tracker {
    t.(instHist := Remember(t.instHist, a, Kept(build, asOf, descs, ParseAt(t, descs, asOf).rows)))
  }

  /** The instances of another structure's build, which this build is a copy of. */
  function LearnCopy(t: Tracker, a: Addr, build: nat, src: Addr, srcBuild: nat): Tracker
    requires src in t.tlas
  {
    t.(tlas := t.tlas[a := t.tlas[src]], readOf := t.readOf[a := build],
       instHist := RememberCopy(t.instHist, a, build, src, srcBuild))
  }

  /** What a parse says, of a structure never seen being built. */
  ghost function Guess(t: Tracker, a: Addr, asOf: nat, descs: seq<Desc>): Tracker {
    t.(tlas := t.tlas[a := ParseAt(t, descs, asOf)])
  }

  /** `NoteInstances`. Looking up the structure's place in the log makes it one. */
  ghost function NoteInstances(t: Tracker, a: Addr, descs: seq<Desc>): Tracker {
    if a == 0 || descs == [] then t
    else
      var asOf := At(t.tlasAsSerial, a, 0);
      var t' := if a in t.tlasAsSerial then t else t.(tlasAsSerial := t.tlasAsSerial[a := 0]);
      if a in t.lastBuilt then Learn(t', a, t.lastBuilt[a], asOf, descs) else Guess(t', a, asOf, descs)
  }

  /** `NoteEmpty`. */
  ghost function NoteEmpty(t: Tracker, a: Addr): Tracker {
    if a == 0 then t
    else if a in t.lastBuilt then Learn(t, a, t.lastBuilt[a], 0, []) else Guess(t, a, 0, [])
  }

  /** One or the other, as the build has instances. */
  ghost function ReadNow(t: Tracker, a: Addr, descs: seq<Desc>): Tracker {
    if descs == [] then NoteEmpty(t, a) else NoteInstances(t, a, descs)
  }

  /** Of a structure that was built. */
  lemma NoteIsLearn(t: Tracker, a: Addr, descs: seq<Desc>)
    requires a != 0 && a in t.lastBuilt && a in t.tlasAsSerial
    ensures ReadNow(t, a, descs)
         == Learn(t, a, t.lastBuilt[a], if descs == [] then 0 else At(t.tlasAsSerial, a, 0), descs)
  {
    hide ParseAt, Remember;
  }

  /** `NotePendingInstances`, of a copy of some instances. */
  function NotePending(t: Tracker, a: Addr, id: nat, owner: nat, at: Listing): Tracker {
    var key := Copy(a, At(t.lastBuilt, a, 0), At(t.tlasAsSerial, a, 0));
    if a == 0 then t
    else t.(pending := t.pending + [Read(id, key, owner, at.recording, at.segment, 0, 0)])
  }

  /** One read that is done, in `AfterSubmit`: an older one never replaces a newer one. */
  ghost function Settle(t: Tracker, k: Copy, descs: seq<Desc>): Tracker {
    if k.tlas !in t.readOf || t.readOf[k.tlas] <= k.build
    then Learn(t, k.tlas, k.build, k.asOf, descs)
    else LearnOlder(t, k.tlas, k.build, k.asOf, descs)
  }

  /** The second loop of `AfterSubmit`, over the first reads of the list. */
  ghost function SettleDone(t: Tracker, g: Gpu, buffers: map<nat, seq<Desc>>, rs: seq<Read<Copy>>): Tracker {
    if rs == [] then t.(pending := [])
    else
      var n := |rs| - 1;
      var before := SettleDone(t, g, buffers, rs[..n]);
      if Passed(g, rs[n]) then Settle(before, rs[n].key, At(buffers, rs[n].id, []))
      else before.(pending := before.pending + [rs[n]])
  }

  // --- on demand ----------------------------------------------------------------------------------

  predicate IsFor(r: Read<Copy>, a: Addr, build: nat) {
    r.key.tlas == a && r.key.build == build
  }

  /** The first read of that build. */
  function FindRead(rs: seq<Read<Copy>>, a: Addr, build: nat): (i: Option<nat>)
    ensures i.Some? ==> i.value < |rs| && IsFor(rs[i.value], a, build)
    ensures i.Some? ==> forall j :: 0 <= j < i.value ==> !IsFor(rs[j], a, build)
    ensures i.None? ==> forall j :: 0 <= j < |rs| ==> !IsFor(rs[j], a, build)
  {
    if rs == [] then None
    else
      var n := |rs| - 1;
      if FindRead(rs[..n], a, build).Some? then FindRead(rs[..n], a, build)
      else if IsFor(rs[n], a, build) then Some(n)
      else None
  }

  /** `BringToBuildLocked`: make what is known the instances of that build, if it can be had. */
  ghost function Bring(t: Tracker, g: Gpu, buffers: map<nat, seq<Desc>>, a: Addr, build: nat, list: nat,
                       depth: nat): (bool, Tracker)
    requires depth <= MAX_DEPTH
    decreases MAX_DEPTH - depth
  {
    if a in t.readOf && t.readOf[a] == build then (true, t)
    else if a in t.alias && t.alias[a].build == build && depth < MAX_DEPTH then
      var al := t.alias[a];
      var (ok, t') := Bring(t, g, buffers, al.src, al.srcBuild, list, depth + 1);
      if !ok || al.src !in t'.tlas then (false, t')
      else (true, LearnCopy(t', a, build, al.src, al.srcBuild))
    else BringRead(t, g, buffers, a, build, list)
  }

  /** A read parsed and done with. */
  ghost function TakeRead(t: Tracker, buffers: map<nat, seq<Desc>>, i: nat): Tracker
    requires i < |t.pending|
  {
    var r := t.pending[i];
    Learn(t, r.key.tlas, r.key.build, r.key.asOf, At(buffers, r.id, []))
      .(pending := t.pending[..i] + t.pending[i + 1..])
  }

  /** From a read that has run: recorded in the list being split, or past its fence. */
  ghost function BringRead(t: Tracker, g: Gpu, buffers: map<nat, seq<Desc>>, a: Addr, build: nat,
                           list: nat): (bool, Tracker)
  {
    match FindRead(t.pending, a, build)
    case None => (false, t)
    case Some(i) =>
      if t.pending[i].owner != list && !Passed(g, t.pending[i]) then (false, t)
      else (true, TakeRead(t, buffers, i))
  }

  // --- copies of structures ---------------------------------------------------------------------------

  const UNKNOWN_COPY := BlasInfo(Unknown, 0, 3)
  const UNKNOWN_DESERIALIZED := BlasInfo(Unknown, 0, 2)

  predicate HasBlas(t: Tracker, a: Addr) { a in t.hist && t.hist[a] != [] }

  /** What a copied bottom-level structure holds. */
  function CopiedInfo(t: Tracker, src: Addr, same: bool): BlasInfo {
    if same && HasBlas(t, src) then
      var info := t.hist[src][|t.hist[src]| - 1].info;
      if info.kind != Unknown then info.(origin := 1) else info
    else UNKNOWN_COPY
  }

  function AppendBlas(t: Tracker, a: Addr, info: BlasInfo): Tracker {
    t.(asSerial := t.asSerial + 1, hist := t.hist[a := At(t.hist, a, []) + [Entry(t.asSerial + 1, info)]])
  }

  /** Nothing is known of it any more. */
  function Forget(t: Tracker, a: Addr): Tracker {
    t.(tlas := t.tlas - {a}, readOf := t.readOf - {a})
  }

  /** The two parts of `NoteCopy` after its DESERIALIZE case: the bottom level, */
  function CopyBottom(t: Tracker, dst: Addr, src: Addr, same: bool): Tracker {
    if (same && HasBlas(t, src)) || !(same && src in t.lastBuilt)
    then AppendBlas(t, dst, CopiedInfo(t, src, same)) else t
  }

  /** and the top one: a new build of `dst` that is the source's latest. */
  function CopyTop(t: Tracker, dst: Addr, src: Addr, same: bool): Tracker {
    if !(same && src in t.lastBuilt) && dst !in t.lastBuilt then t
    else
      var t1 := NextBuild(t.(alias := t.alias - {dst}), dst);
      if !(same && src in t.lastBuilt) then Forget(t1, dst)
      else
        var t2 := t1.(tlasAsSerial := t1.tlasAsSerial[dst := At(t1.tlasAsSerial, src, 0)]);
        if Current(t2, src) && src in t2.tlas then LearnCopy(t2, dst, t2.lastBuilt[dst], src, t2.lastBuilt[src])
        else t2.(readOf := t2.readOf - {dst},
                 alias := t2.alias[dst := Alias(src, t2.lastBuilt[src], t2.lastBuilt[dst])])
  }

  /** Which level, and what it holds, only a decode will tell: both, and nothing known. */
  function DeserializeInto(t: Tracker, dst: Addr): Tracker {
    var t1 := AppendBlas(t, dst, UNKNOWN_DESERIALIZED);
    var t2 := t1.(asSerial := t1.asSerial + 1, tlasAsSerial := t1.tlasAsSerial[dst := t1.asSerial + 1],
                  alias := t1.alias - {dst});
    Forget(NextBuild(t2, dst), dst)
  }

  /** `NoteCopy`. */
  function NoteCopy(t: Tracker, dst: Addr, src: Addr, mode: CopyMode): Tracker {
    if dst == 0 || mode == SerializeOrDecode then t
    else if mode == Deserialize then DeserializeInto(t, dst)
    else CopyTop(CopyBottom(t, dst, src, mode == CloneOrCompact), dst, src, mode == CloneOrCompact)
  }

  // --- the decode of a deserialized top-level structure ---------------------------------------------------

  /** The deserialize was of no bottom-level structure: its entry in the log goes. */
  function EraseEntry(t: Tracker, dst: Addr, serial: nat): Tracker {
    var log := WithoutEntry(At(t.hist, dst, []), serial);
    t.(hist := if log == [] then t.hist - {dst} else t.hist[dst := log])
  }

  /**
   The top-level case of `ApplyDecoded`, of the deserialize with those serials. Both
   branches parse as of the latest build of the structure, whichever build that is.
   */
  ghost function DecodedTop(t: Tracker, dst: Addr, blasSerial: nat, tlasSerial: nat, descs: seq<Desc>): Tracker {
    var t1 := EraseEntry(t, dst, blasSerial);
    var asOf := At(t.tlasAsSerial, dst, 0);
    if dst in t.lastBuilt && t.lastBuilt[dst] == tlasSerial
    then Learn(t1, dst, tlasSerial, asOf, descs)
    else LearnOlder(t1, dst, tlasSerial, asOf, descs)
  }

  // --- the decode of a deserialized bottom-level structure ------------------------------------------------

  /** The deserialize was of no top-level structure: nothing is left of its build, if that was all there was. */
  function NotTop(t: Tracker, dst: Addr, tlasSerial: nat, wasTlas: bool): Tracker {
    if !wasTlas && dst in t.lastBuilt && t.lastBuilt[dst] == tlasSerial
    then t.(lastBuilt := t.lastBuilt - {dst}, firstBuilt := t.firstBuilt - {dst}, buildCount := t.buildCount - {dst},
            tlas := t.tlas - {dst}, tlasAsSerial := t.tlasAsSerial - {dst})
    else t
  }

  /** Did the read meet a structure of unknown geometry? */
  predicate Meets(k: Kept) {
    k.descs != [] && exists i :: 0 <= i < |k.rows| && k.rows[i].active && k.rows[i].geometries == 0
  }

  ghost function Reread(t: Tracker, k: Kept): Kept {
    if Meets(k) then k.(rows := ParseAt(t, k.descs, k.asOf).rows) else k
  }

  ghost function RereadAll(t: Tracker, h: seq<Kept>): (r: seq<Kept>)
    ensures |r| == |h| && forall i :: 0 <= i < |h| ==> r[i] == Reread(t, h[i])
  {
    seq(|h|, i requires 0 <= i < |h| => Reread(t, h[i]))
  }

  /** The last of that build that is read again. */
  function LastMet(h: seq<Kept>, build: nat): (k: Option<Kept>)
    ensures k.Some? ==> k.value in h && k.value.build == build && Meets(k.value)
  {
    if h == [] then None
    else
      var n := |h| - 1;
      if h[n].build == build && Meets(h[n]) then Some(h[n]) else LastMet(h[..n], build)
  }

  function KnownMet(t: Tracker, a: Addr): Option<Kept> {
    if a in t.readOf && a in t.instHist then LastMet(t.instHist[a], t.readOf[a]) else None
  }

  ghost function TlasReread(t: Tracker): map<Addr, TlasInfo> {
    map a | a in t.tlas.Keys + t.instHist.Keys && (a in t.tlas || KnownMet(t, a).Some?) ::
      if KnownMet(t, a).Some? then ParseAt(t, KnownMet(t, a).value.descs, KnownMet(t, a).value.asOf) else t.tlas[a]
  }

  /** The bottom-level case of `ApplyDecoded`: every kept read that met something unknown is read again. */
  ghost function DecodedBottom(t: Tracker, dst: Addr, blasSerial: nat, tlasSerial: nat, wasTlas: bool,
                               info: BlasInfo): Tracker {
    var t1 := t.(hist := t.hist[dst := WithDecoded(At(t.hist, dst, []), blasSerial, info)]);
    var t2 := NotTop(t1, dst, tlasSerial, wasTlas);
    t2.(tlas := TlasReread(t2), instHist := map a | a in t2.instHist :: RereadAll(t2, t2.instHist[a]))
  }

  // --- supersession -----------------------------------------------------------------------------------------

  /** What every reachable state keeps of a structure's serials, */
  ghost predicate InOrder(t: Tracker, a: Addr)
    requires a in t.lastBuilt
  {
    && a in t.firstBuilt && a in t.buildCount && a in t.tlasAsSerial
    && 0 < t.firstBuilt[a] <= t.lastBuilt[a] <= t.tlasSerial && t.buildCount[a] > 0
  }

  /** and of all. */
  ghost predicate BuildsInOrder(t: Tracker) {
    && (forall a :: a in t.firstBuilt ==> a in t.lastBuilt)
    && (forall a :: a in t.lastBuilt ==> InOrder(t, a))
  }

  /** The next build keeps the serials in order, given its own place in the log. */
  lemma NextBuildInOrder(t: Tracker, t': Tracker, a: Addr)
    requires BuildsInOrder(t)
    requires t'.tlasSerial == NextBuild(t, a).tlasSerial && t'.lastBuilt == NextBuild(t, a).lastBuilt
    requires t'.firstBuilt == NextBuild(t, a).firstBuilt && t'.buildCount == NextBuild(t, a).buildCount
    requires t.tlasAsSerial.Keys + {a} <= t'.tlasAsSerial.Keys
    ensures BuildsInOrder(t')
  {
    forall b | b in t'.lastBuilt ensures InOrder(t', b) {
      if b in t.lastBuilt { assert InOrder(t, b); }
    }
  }

  /** A strict partial order. */
  lemma SupersessionIsStrictOrder(t: Tracker, a: Addr, b: Addr, c: Addr)
    requires BuildsInOrder(t)
    ensures !Supersedes(t, a, a)
    ensures Supersedes(t, b, a) ==> !Supersedes(t, a, b)
    ensures Supersedes(t, c, b) && Supersedes(t, b, a) ==> Supersedes(t, c, a)
  {}

  /** The structure built last is live. */
  lemma LatestIsLive(t: Tracker, a: Addr)
    requires BuildsInOrder(t) && a in t.lastBuilt && t.lastBuilt[a] == t.tlasSerial
    ensures Live(t, a)
  {
    forall b | b in t.tlas ensures !Supersedes(t, b, a) {
      if b in t.firstBuilt { assert InOrder(t, b); }
    }
  }

  /** Two structures an engine keeps alive together: neither supersedes the other. */
  lemma BothStay(t: Tracker, a: Addr, b: Addr)
    requires BuildsInOrder(t) && a in t.lastBuilt && b in t.lastBuilt
    requires t.lastBuilt[a] >= t.firstBuilt[b] && t.lastBuilt[b] >= t.firstBuilt[a]
    ensures !Supersedes(t, a, b) && !Supersedes(t, b, a)
  {}

  // --- a dispatch on several scenes ------------------------------------------------------------------------

  /**
   The builds a successful `Bring` makes known: of the structure, and of what its build
   is a copy of, down the chain of copies. Read off the tables before the call.
   */
  function Chain(readOf: map<Addr, nat>, alias: map<Addr, Alias>, a: Addr, build: nat, depth: nat): map<Addr, nat>
    requires depth <= MAX_DEPTH
    decreases MAX_DEPTH - depth
  {
    if a in readOf && readOf[a] == build then map[]
    else if a in alias && alias[a].build == build && depth < MAX_DEPTH then
      Chain(readOf, alias, alias[a].src, alias[a].srcBuild, depth + 1)[a := build]
    else map[a := build]
  }

  /** Those, and no others. */
  lemma {:induction false} BringReads(t: Tracker, g: Gpu, buffers: map<nat, seq<Desc>>, a: Addr, build: nat,
                                      list: nat, depth: nat)
    requires depth <= MAX_DEPTH && Bring(t, g, buffers, a, build, list, depth).0
    ensures
      var t' := Bring(t, g, buffers, a, build, list, depth).1;
      t'.readOf == t.readOf + Chain(t.readOf, t.alias, a, build, depth) && t'.alias == t.alias
    decreases MAX_DEPTH - depth
  {
    hide BringRead, LearnCopy;
    if a in t.readOf && t.readOf[a] == build {
    } else if a in t.alias && t.alias[a].build == build && depth < MAX_DEPTH {
      var al := t.alias[a];
      BringAliasIs(t, g, buffers, a, build, list, depth);
      hide Bring;
      BringReads(t, g, buffers, al.src, al.srcBuild, list, depth + 1);
      LearnCopyReads(Bring(t, g, buffers, al.src, al.srcBuild, list, depth + 1).1, a, build, al.src, al.srcBuild);
      OneMoreRead(t.readOf, Chain(t.readOf, t.alias, al.src, al.srcBuild, depth + 1), a, build);
      hide Chain;
    } else {
      BringReadReads(t, g, buffers, a, build, list);
      OneMoreRead(t.readOf, map[], a, build);
    }
  }

  lemma BringAliasIs(t: Tracker, g: Gpu, buffers: map<nat, seq<Desc>>, a: Addr, build: nat, list: nat, depth: nat)
    requires depth < MAX_DEPTH && Bring(t, g, buffers, a, build, list, depth).0
    requires !(a in t.readOf && t.readOf[a] == build) && a in t.alias && t.alias[a].build == build
    ensures
      var al := t.alias[a];
      var (ok, t') := Bring(t, g, buffers, al.src, al.srcBuild, list, depth + 1);
      ok && al.src in t'.tlas
      && Bring(t, g, buffers, a, build, list, depth).1 == LearnCopy(t', a, build, al.src, al.srcBuild)
  {
    hide LearnCopy, BringRead;
  }

  lemma OneMoreRead(readOf: map<Addr, nat>, chain: map<Addr, nat>, a: Addr, build: nat)
    ensures (readOf + chain)[a := build] == readOf + chain[a := build] && readOf + map[] == readOf
  {}

  lemma LearnCopyReads(t: Tracker, a: Addr, build: nat, src: Addr, srcBuild: nat)
    requires src in t.tlas
    ensures
      var t' := LearnCopy(t, a, build, src, srcBuild);
      t'.readOf == t.readOf[a := build] && t'.alias == t.alias
  {
    hide RememberCopy;
  }

  /** No bring builds anything. */
  lemma {:induction false} BringSameBuilt(t: Tracker, g: Gpu, buffers: map<nat, seq<Desc>>, a: Addr, build: nat,
                                          list: nat, depth: nat)
    requires depth <= MAX_DEPTH
    ensures Bring(t, g, buffers, a, build, list, depth).1.lastBuilt == t.lastBuilt
    decreases MAX_DEPTH - depth
  {
    hide ParseAt, Remember, RememberCopy, FindRead, Passed, LearnCopy, BringRead;
    BringReadSame(t, g, buffers, a, build, list);
    LearnCopySame();
    if !(a in t.readOf && t.readOf[a] == build) && a in t.alias && t.alias[a].build == build && depth < MAX_DEPTH {
      BringSameBuilt(t, g, buffers, t.alias[a].src, t.alias[a].srcBuild, list, depth + 1);
    }
  }

  lemma BringReadSame(t: Tracker, g: Gpu, buffers: map<nat, seq<Desc>>, a: Addr, build: nat, list: nat)
    ensures BringRead(t, g, buffers, a, build, list).1.lastBuilt == t.lastBuilt
  {
    hide ParseAt, Remember, FindRead, Passed;
  }

  lemma LearnCopySame()
    ensures forall t: Tracker, a, build, src, srcBuild | src in t.tlas ::
      LearnCopy(t, a, build, src, srcBuild).lastBuilt == t.lastBuilt
  {
    hide RememberCopy;
  }

  lemma BringReadReads(t: Tracker, g: Gpu, buffers: map<nat, seq<Desc>>, a: Addr, build: nat, list: nat)
    requires BringRead(t, g, buffers, a, build, list).0
    ensures
      var t' := BringRead(t, g, buffers, a, build, list).1;
      t'.readOf == t.readOf[a := build] && t'.alias == t.alias
  {
    hide ParseAt, Remember, Passed;
  }

  /** The scenes of one dispatch, each brought to its build in turn, up to the first that cannot be. */
  ghost function BringAll(t: Tracker, g: Gpu, buffers: map<nat, seq<Desc>>, builds: seq<(Addr, nat)>,
                          list: nat): (bool, Tracker)
  {
    if builds == [] then (true, t)
    else
      var n := |builds| - 1;
      var (ok, t1) := BringAll(t, g, buffers, builds[..n], list);
      if !ok then (false, t1) else Bring(t1, g, buffers, builds[n].0, builds[n].1, list, 0)
  }

  /** What is then known of each structure. */
  function ChainAll(readOf: map<Addr, nat>, alias: map<Addr, Alias>, builds: seq<(Addr, nat)>): map<Addr, nat> {
    if builds == [] then readOf
    else
      var n := |builds| - 1;
      var before := ChainAll(readOf, alias, builds[..n]);
      before + Chain(before, alias, builds[n].0, builds[n].1, 0)
  }

  lemma {:induction false} BringAllReads(t: Tracker, g: Gpu, buffers: map<nat, seq<Desc>>, builds: seq<(Addr, nat)>,
                                         list: nat)
    requires BringAll(t, g, buffers, builds, list).0
    ensures
      var t' := BringAll(t, g, buffers, builds, list).1;
      t'.readOf == ChainAll(t.readOf, t.alias, builds) && t'.alias == t.alias
  {
    hide Bring, Chain;
    if builds != [] {
      var n := |builds| - 1;
      BringAllReads(t, g, buffers, builds[..n], list);
      BringReads(BringAll(t, g, buffers, builds[..n], list).1, g, buffers, builds[n].0, builds[n].1, list, 0);
    }
  }

  predicate AllAt(readOf: map<Addr, nat>, builds: seq<(Addr, nat)>) {
    forall k :: 0 <= k < |builds| ==> builds[k].0 in readOf && readOf[builds[k].0] == builds[k].1
  }

  /**
   Any number of scenes brought to their builds one after the other: afterwards every one
   is at its build exactly when none is moved, through copies, by a later one; which the
   tables say before the first call.
   */
  lemma AllScenesStay(t: Tracker, g: Gpu, buffers: map<nat, seq<Desc>>, builds: seq<(Addr, nat)>, list: nat)
    requires BringAll(t, g, buffers, builds, list).0
    ensures
      AllAt(BringAll(t, g, buffers, builds, list).1.readOf, builds) <==> AllAt(ChainAll(t.readOf, t.alias, builds), builds)
  {
    BringAllReads(t, g, buffers, builds, list);
  }

  /** Of two, the first: unless the second is, through copies, made of another build of it. */
  lemma FirstSceneStays(t: Tracker, g: Gpu, buffers: map<nat, seq<Desc>>, a: Addr, buildA: nat, c: Addr,
                        buildC: nat, list: nat)
    requires a in t.readOf && t.readOf[a] == buildA
    requires Bring(t, g, buffers, c, buildC, list, 0).0
    ensures
      var chain := Chain(t.readOf, t.alias, c, buildC, 0);
      var t' := Bring(t, g, buffers, c, buildC, list, 0).1;
      a in t'.readOf && (t'.readOf[a] == buildA <==> !(a in chain && chain[a] != buildA))
  {
    BringReads(t, g, buffers, c, buildC, list, 0);
  }

  /** Calls that lead there: structure 1 is built and its read recorded, cloned to 2, built again and read. */
  function Cloned(): Tracker {
    NoteCopy(NotePending(BuildTop(EMPTY, 1), 1, 0, 7, Listing(0, 0)), 2, 1, CloneOrCompact)
  }

  ghost function ClonedThenRebuilt(descs: seq<Desc>): Tracker {
    ReadNow(BuildTop(Cloned(), 1), 1, descs)
  }

  lemma ClonedIs()
    ensures
      var t := Cloned();
      && t.readOf == map[] && t.alias == map[2 := Alias(1, 1, 2)] && t.tlasSerial == 2
      && t.lastBuilt == map[1 := 1, 2 := 2]
      && t.pending == [Read(0, Copy(1, 1, 1), 7, 0, 0, 0, 0)]
  {
    var t1 := NotePending(BuildTop(EMPTY, 1), 1, 0, 7, Listing(0, 0));
    assert t1.lastBuilt == map[1 := 1] && t1.hist == map[] && t1.readOf == map[] && t1.alias == map[];
    assert t1.pending == [Read(0, Copy(1, 1, 1), 7, 0, 0, 0, 0)] && t1.tlasSerial == 1;
    hide BuildTop, NotePending, LearnCopy;
    assert NoteCopy(t1, 2, 1, CloneOrCompact) == CopyTop(t1, 2, 1, true);
  }

  lemma ClonedThenRebuiltIs(descs: seq<Desc>)
    ensures
      var t := ClonedThenRebuilt(descs);
      && t.readOf == map[1 := 3] && t.alias == map[2 := Alias(1, 1, 2)]
      && t.lastBuilt == map[1 := 3, 2 := 2] && t.tlasSerial == 3
      && t.pending == [Read(0, Copy(1, 1, 1), 7, 0, 0, 0, 0)]
  {
    ClonedIs();
    NoteIsLearn(BuildTop(Cloned(), 1), 1, descs);
    hide Cloned, ParseAt, Remember, ReadNow;
  }

  /** Bringing back 2's build, a clone of 1's first, moves 1 back from its latest build. */
  lemma SecondSceneMovesFirst(g: Gpu, buffers: map<nat, seq<Desc>>, descs: seq<Desc>)
    ensures
      var t := ClonedThenRebuilt(descs);
      && Bring(t, g, buffers, 1, 3, 7, 0) == (true, t)
      && Bring(t, g, buffers, 2, 2, 7, 0).0
      && 1 in Bring(t, g, buffers, 2, 2, 7, 0).1.readOf
      && Bring(t, g, buffers, 2, 2, 7, 0).1.readOf[1] != 3
  {
    ClonedThenRebuiltIs(descs);
    hide ClonedThenRebuilt, Passed, LearnCopy, Learn;
    var t := ClonedThenRebuilt(descs);
    BringFromSource(t, g, buffers);
    BringReads(t, g, buffers, 2, 2, 7, 0);
  }

  lemma BringFromSource(t: Tracker, g: Gpu, buffers: map<nat, seq<Desc>>)
    requires t.readOf == map[1 := 3] && t.alias == map[2 := Alias(1, 1, 2)]
    requires t.pending == [Read(0, Copy(1, 1, 1), 7, 0, 0, 0, 0)]
    ensures Bring(t, g, buffers, 2, 2, 7, 0).0
  {
    hide ParseAt, Remember, Passed, RememberCopy;
    assert FindRead(t.pending, 1, 1) == Some(0) by { assert IsFor(t.pending[0], 1, 1); }
    assert Bring(t, g, buffers, 1, 1, 7, 1) == BringRead(t, g, buffers, 1, 1, 7);
    assert BringRead(t, g, buffers, 1, 1, 7).0 && 1 in BringRead(t, g, buffers, 1, 1, 7).1.tlas;
  }
}
