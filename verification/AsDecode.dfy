/**
 Asking what a deserialized structure contains (`proxy/as_decode.cpp`). Every
 deserialize records a query of the decode's size into an eight byte slot of a
 pooled buffer; once the query has run, a list of the shim's own decodes the
 structure. Several threads record, submit and split at once.
 */
module AsDecode {
  import opened Options
  import opened GpuQueue
  import opened Readback

  const SLOTS: nat := 8192

  type Addr = nat

  /** Which deserialize the query is about, and the slot for its answer. */
  datatype Query = Query(dst: Addr, serial: nat, chunk: nat, offset: nat)

  /** The pooled buffer queries take slots of. */
  datatype Chunk = Chunk(id: nat, device: nat, used: nat)

  /** What the module keeps; `chunks` numbers the buffers. */
  datatype Decoder = Decoder(chunk: Option<Chunk>, chunks: nat, queries: seq<Read<Query>>)

  // --- the operations, on values ----------------------------------------------------

  predicate NeedsChunk(d: Decoder, device: nat) {
    d.chunk.None? || d.chunk.value.used == SLOTS || d.chunk.value.device != device
  }

  /** The first locked part of `Note`: a slot. */
  function MintSlot(d: Decoder, device: nat): (Decoder, nat, nat) {
    var c := if NeedsChunk(d, device) then Chunk(d.chunks, device, 0) else d.chunk.value;
    (d.(chunk := Some(c.(used := c.used + 1)), chunks := if NeedsChunk(d, device) then d.chunks + 1 else d.chunks),
     c.id, 8 * c.used)
  }

  /** The next slot on that device is the next one of the same buffer, or the first of a new buffer when it is full. */
  lemma NextSlot(d: Decoder, device: nat)
    ensures
      var (d1, chunk, offset) := MintSlot(d, device);
      var (d2, chunk', offset') := MintSlot(d1, device);
      && (offset < 8 * (SLOTS - 1) ==> chunk' == chunk && offset' == offset + 8 && d2.chunks == d1.chunks)
      && (offset == 8 * (SLOTS - 1) ==> chunk' == d1.chunks && offset' == 0 && d2.chunks == d1.chunks + 1)
  {}

  /** Has the query run: recorded in a segment the split has waited for, or past its fence? */
  predicate Ready(g: Gpu, list: nat, segmentDone: nat, q: Read<Query>) {
    (q.fence == 0 && q.owner == list && q.segment <= segmentDone) || Passed(g, q)
  }

  /** The partition at the start of `Bring`. */
  function Pick(g: Gpu, list: nat, segmentDone: nat, ready: bool, queries: seq<Read<Query>>): seq<Read<Query>> {
    if queries == [] then []
    else
      var n := |queries| - 1;
      Pick(g, list, segmentDone, ready, queries[..n])
        + if Ready(g, list, segmentDone, queries[n]) == ready then [queries[n]] else []
  }

  lemma {:induction false} PickFound(g: Gpu, list: nat, segmentDone: nat, ready: bool, queries: seq<Read<Query>>,
                                     q: Read<Query>)
    ensures q in Pick(g, list, segmentDone, ready, queries)
      <==> (q in queries
            && ready == ((q.fence == 0 && q.owner == list && q.segment <= segmentDone) || Passed(g, q)))
  {
    if queries != [] {
      var n := |queries| - 1;
      assert queries == queries[..n] + [queries[n]];
      PickFound(g, list, segmentDone, ready, queries[..n], q);
    }
  }

  lemma {:induction false} PickDistinct(g: Gpu, list: nat, segmentDone: nat, ready: bool, queries: seq<Read<Query>>)
    requires Distinct(queries)
    ensures Distinct(Pick(g, list, segmentDone, ready, queries))
  {
    if queries != [] {
      var n := |queries| - 1;
      var front := queries[..n];
      var kept := Pick(g, list, segmentDone, ready, front);
      assert Distinct(front);
      PickDistinct(g, list, segmentDone, ready, front);
      forall k | 0 <= k < |kept| ensures kept[k].id != queries[n].id {
        PickFound(g, list, segmentDone, ready, front, kept[k]);
        var i :| 0 <= i < n && front[i] == kept[k];
        assert queries[i] == kept[k];
      }
      DistinctAppend(kept, queries[n]);
    }
  }

  // --- runs ---------------------------------------------------------------------------

  type Slot = (nat, nat)

  /**
   The module and what is around it: queries that have a slot and are not in the
   list yet (`minted`), those `Bring` took, and the slot every query ever got.
   */
  datatype World = World(d: Decoder, gpu: Gpu, minted: map<nat, Read<Query>>, taken: set<nat>,
                         slots: map<nat, Slot>, next: nat)

  datatype Action =
    | Mint(device: nat, dst: Addr, serial: nat, owner: nat)
    | File(id: nat)
    | ResetList(owner: nat)
    | CloseSegment(owner: nat)
    | Enter(call: nat, queue: nat, owners: set<nat>)
    | Exec(call: nat, owner: nat)
    | Wait(call: nat, owner: nat)
    | Leave(call: nat, signalled: bool)
    | Bring(call: nat, list: nat, segmentDone: nat)
    | Work(queue: nat)
    | NewQueue(queue: nat)

  /** A query that has a slot and is not in the list yet: the call that records it is not over. */
  ghost predicate Recording(w: World, owner: nat) {
    exists id :: id in w.minted && w.minted[id].owner == owner
  }

  /** A list is recorded, split and reset by one thread while no call executes it; a split waits before it asks. */
  ghost predicate Enabled(w: World, a: Action) {
    match a
    case Mint(_, _, _, owner) => !Busy(w.gpu, owner)
    case File(id) => id in w.minted && !Busy(w.gpu, w.minted[id].owner)
    case ResetList(owner) => !Busy(w.gpu, owner) && !Recording(w, owner)
    case CloseSegment(owner) => !Busy(w.gpu, owner) && !Recording(w, owner)
    case Enter(c, queue, owners) => c !in w.gpu.calls && CanEnter(w.gpu, queue, owners)
    case Exec(c, owner) => c in w.gpu.calls && owner in w.gpu.calls[c].lists && w.gpu.calls[c].queue in w.gpu.queues
    case Wait(c, owner) => c in w.gpu.calls && owner in w.gpu.calls[c].lists && Waited(w.gpu, c, owner)
    case Leave(c, _) => c in w.gpu.calls && w.gpu.calls[c].queue in w.gpu.queues && AllSent(w.gpu, c)
    case Bring(c, list, done) =>
      c in w.gpu.calls && list in w.gpu.calls[c].lists && done < w.gpu.calls[c].lists[list].waited
    case Work(queue) => queue in w.gpu.queues
    case NewQueue(queue) => queue !in w.gpu.queues
  }

  /** `AfterSubmit` signals only when there is something to stamp. */
  ghost predicate Signals(w: World, c: nat, signalled: bool)
    requires c in w.gpu.calls
  {
    signalled && AnyToStamp(w.d.queries, w.gpu.calls[c].lists.Keys)
  }

  ghost function Step(w: World, a: Action): World
    requires Enabled(w, a)
  {
    match a
    case Mint(device, dst, serial, owner) =>
      var (d', chunk, offset) := MintSlot(w.d, device);
      var at := ListOf(w.gpu, owner);
      var q := Read(w.next, Query(dst, serial, chunk, offset), owner, at.recording, at.segment, 0, 0);
      w.(d := d', minted := w.minted[w.next := q], slots := w.slots[w.next := (chunk, offset)], next := w.next + 1)
    case File(id) =>
      w.(d := w.d.(queries := w.d.queries + [w.minted[id]]), minted := w.minted - {id})
    case ResetList(owner) =>
      w.(d := w.d.(queries := Drop(w.d.queries, owner)), gpu := Readback.Reset(w.gpu, owner))
    case CloseSegment(owner) => w.(gpu := Readback.CloseSegment(w.gpu, owner))
    case Enter(c, queue, owners) => w.(gpu := Readback.Enter(w.gpu, c, queue, owners))
    case Exec(c, owner) => w.(gpu := Readback.Exec(w.gpu, w.d.queries, c, owner))
    case Wait(c, owner) => w.(gpu := Readback.Wait(w.gpu, c, owner))
    case Leave(c, signalled) =>
      if Signals(w, c, signalled)
      then w.(gpu := Readback.Leave(w.gpu, c, true), d := w.d.(queries := LeaveReads(w.gpu, w.d.queries, c)))
      else w.(gpu := Readback.Leave(w.gpu, c, false))
    case Bring(_, list, done) =>
      w.(d := w.d.(queries := Pick(w.gpu, list, done, false, w.d.queries)),
         taken := w.taken + Ids(Pick(w.gpu, list, done, true, w.d.queries)))
    case Work(queue) => w.(gpu := Readback.Work(w.gpu, queue))
    case NewQueue(queue) => w.(gpu := w.gpu.(queues := w.gpu.queues[queue := Queue([], 0)]))
  }

  function Ids(queries: seq<Read<Query>>): set<nat> {
    set k | 0 <= k < |queries| :: queries[k].id
  }

  const START := World(Decoder(None, 0, []), IDLE, map[], {}, map[], 0)

  ghost predicate Runs(actions: seq<Action>)
    decreases |actions|, 0
  {
    actions == [] ||
    (var n := |actions| - 1;
     Runs(actions[..n]) && Enabled(After(actions[..n]), actions[n]))
  }

  ghost function After(actions: seq<Action>): World
    requires Runs(actions)
    decreases |actions|, 1
  {
    if actions == [] then START
    else
      var n := |actions| - 1;
      Step(After(actions[..n]), actions[n])
  }

  // --- the invariant ----------------------------------------------------------------------

  /** No slot is ever given out twice, and the pooled buffer's free part is untouched. */
  ghost predicate SlotsApart(d: Decoder, slots: map<nat, Slot>, next: nat) {
    && (d.chunk.Some? ==> d.chunk.value.id < d.chunks && d.chunk.value.used <= SLOTS)
    && (forall i :: i in slots ==> i < next && SlotOk(d, slots[i]))
    && (forall i, j :: i in slots && j in slots && i != j ==> slots[i] != slots[j])
  }

  ghost predicate SlotOk(d: Decoder, s: Slot) {
    && s.0 < d.chunks && s.1 % 8 == 0 && s.1 + 8 <= 8 * SLOTS
    && (d.chunk.Some? && d.chunk.value.id == s.0 ==> s.1 < 8 * d.chunk.value.used)
  }

  ghost predicate InItsSlot(slots: map<nat, Slot>, q: Read<Query>) {
    q.id in slots && slots[q.id] == (q.key.chunk, q.key.offset)
  }

  /** A query that has its slot and is not in the list yet. */
  ghost predicate Waiting(w: World, id: nat)
    requires id in w.minted
  {
    && w.minted[id].id == id && w.minted[id].fence == 0 && InItsSlot(w.slots, w.minted[id])
    && Listing(w.minted[id].recording, w.minted[id].segment) == ListOf(w.gpu, w.minted[id].owner)
  }

  ghost predicate Known(w: World) {
    && Distinct(w.d.queries)
    && (forall q :: q in w.d.queries ==> InItsSlot(w.slots, q) && q.id !in w.minted && q.id !in w.taken)
    && (forall id :: id in w.minted ==> id !in w.taken && Waiting(w, id))
    && (forall id :: id in w.taken ==> id in w.slots)
  }

  ghost predicate Inv(w: World) {
    SlotsApart(w.d, w.slots, w.next) && Known(w) && AllOk(w.gpu, w.d.queries)
  }

  lemma MintKeepsSlots(d: Decoder, slots: map<nat, Slot>, next: nat, device: nat)
    requires SlotsApart(d, slots, next)
    ensures
      var (d', chunk, offset) := MintSlot(d, device);
      SlotsApart(d', slots[next := (chunk, offset)], next + 1) && d'.queries == d.queries
  {
    var (d', chunk, offset) := MintSlot(d, device);
    forall i | i in slots ensures SlotOk(d', slots[i]) && slots[i] != (chunk, offset) {
      assert SlotOk(d, slots[i]);
    }
  }

  lemma MintKeeps(w: World, a: Action)
    requires Inv(w) && a.Mint? && Enabled(w, a)
    ensures Inv(Step(w, a))
  {
    hide AllOk, MintSlot;
    assert forall i :: i in w.slots ==> i < w.next by { hide SlotOk; assert SlotsApart(w.d, w.slots, w.next); }
    MintKeepsSlots(w.d, w.slots, w.next, a.device);
    hide SlotsApart;
  }

  lemma FileKeeps(w: World, a: Action)
    requires Inv(w) && a.File? && Enabled(w, a)
    ensures Inv(Step(w, a))
  {
    hide SlotOk;
    var q, queries := w.minted[a.id], w.d.queries;
    assert forall k :: 0 <= k < |queries| ==> queries[k] in queries;
    DistinctAppend(queries, q);
    SlotsStay(w.d, queries + [q], w.slots, w.next);
    assert AllOk(w.gpu, queries + [q]) by { NewReadOk(w.gpu, q); }
    hide SlotsApart, AllOk;
  }

  lemma SlotsStay(d: Decoder, queries: seq<Read<Query>>, slots: map<nat, Slot>, next: nat)
    requires SlotsApart(d, slots, next)
    ensures SlotsApart(d.(queries := queries), slots, next)
  {}

  lemma ResetKeepsInv(w: World, a: Action)
    requires Inv(w) && a.ResetList? && Enabled(w, a)
    ensures Inv(Step(w, a))
  {
    hide SlotsApart, ReadOk, Drop, InItsSlot;
    var queries := Drop(w.d.queries, a.owner);
    SlotsStay(w.d, queries, w.slots, w.next);
    DropDistinct(w.d.queries, a.owner);
    forall q | q in queries ensures q in w.d.queries { DropFound(w.d.queries, a.owner, q); }
    ResetKeeps(w.gpu, a.owner, w.d.queries);
    hide AllOk;
    forall id | id in w.minted ensures Waiting(Step(w, a), id) { assert Waiting(w, id); }
  }

  lemma BringKeeps(w: World, a: Action)
    requires Inv(w) && a.Bring? && Enabled(w, a)
    ensures Inv(Step(w, a))
  {
    hide SlotsApart, ReadOk, Pick, Ready;
    var w', was := Step(w, a), w.d.queries;
    var ready := Pick(w.gpu, a.list, a.segmentDone, true, was);
    SlotsStay(w.d, w'.d.queries, w.slots, w.next);
    PickDistinct(w.gpu, a.list, a.segmentDone, false, was);
    forall q | q in w'.d.queries ensures q in was && q.id !in Ids(ready) {
      PickFound(w.gpu, a.list, a.segmentDone, false, was, q);
      forall k | 0 <= k < |ready| ensures ready[k].id != q.id {
        PickFound(w.gpu, a.list, a.segmentDone, true, was, ready[k]);
        if ready[k].id == q.id { SameId(was, ready[k], q); }
      }
    }
    forall k | 0 <= k < |ready| ensures ready[k] in was {
      PickFound(w.gpu, a.list, a.segmentDone, true, was, ready[k]);
    }
  }

  lemma SameId(queries: seq<Read<Query>>, a: Read<Query>, b: Read<Query>)
    requires Distinct(queries) && a in queries && b in queries && a.id == b.id
    ensures a == b
  {}

  /** Steps of the queues alone. */
  lemma GpuKeeps(w: World, a: Action)
    requires Inv(w) && Enabled(w, a)
    requires a.Enter? || a.Exec? || a.Wait? || a.Work? || a.NewQueue? || a.CloseSegment?
    ensures Inv(Step(w, a))
  {
    SameKnown(w, Step(w, a));
    hide SlotsApart, Known, AllOk;
    match a
    case Enter(c, queue, owners) => EnterKeeps(w.gpu, c, queue, owners, w.d.queries);
    case Exec(c, owner) => ExecKeeps(w.gpu, w.d.queries, c, owner);
    case Wait(c, owner) => WaitKeeps(w.gpu, c, owner, w.d.queries);
    case Work(queue) => WorkKeeps(w.gpu, queue, w.d.queries);
    case NewQueue(queue) => NewQueueKeeps(w.gpu, queue, w.d.queries);
    case CloseSegment(owner) => CloseKeeps(w.gpu, owner, w.d.queries);
  }

  lemma SameKnown(w: World, w': World)
    requires Known(w) && w'.d == w.d && w'.minted == w.minted && w'.taken == w.taken && w'.slots == w.slots
    requires forall id :: id in w.minted ==> ListOf(w'.gpu, w.minted[id].owner) == ListOf(w.gpu, w.minted[id].owner)
    ensures Known(w')
  {}

  lemma StampedKnown(w: World, owners: set<nat>, queue: nat, value: nat)
    requires Known(w)
    ensures Known(w.(d := w.d.(queries := Stamp(w.d.queries, owners, queue, value))))
  {
    var queries := Stamp(w.d.queries, owners, queue, value);
    forall q | q in queries ensures InItsSlot(w.slots, q) && q.id !in w.minted && q.id !in w.taken {
      var k :| 0 <= k < |queries| && queries[k] == q;
      assert w.d.queries[k] in w.d.queries && InItsSlot(w.slots, w.d.queries[k]);
    }
  }

  lemma LeaveKeepsInv(w: World, a: Action)
    requires Inv(w) && a.Leave? && Enabled(w, a)
    ensures Inv(Step(w, a))
  {
    var w', signal, queue := Step(w, a), Signals(w, a.call, a.signalled), w.gpu.calls[a.call].queue;
    StampedKnown(w, w.gpu.calls[a.call].lists.Keys, queue, StampValue(w.gpu, queue));
    SameKnown(w, w.(gpu := Readback.Leave(w.gpu, a.call, false)));
    SlotsStay(w.d, w'.d.queries, w.slots, w.next);
    hide SlotsApart, AllOk, Readback.Leave, AllSent, Known;
    LeaveKeeps(w.gpu, w.d.queries, a.call, signal);
    StampedSame(w, w');
  }

  lemma StampedSame(w: World, w': World)
    requires w'.minted == w.minted && w'.taken == w.taken && w'.slots == w.slots && w'.gpu.lists == w.gpu.lists
    ensures Known(w.(d := w'.d)) ==> Known(w')
  {}

  lemma StepKeeps(w: World, a: Action)
    requires Inv(w) && Enabled(w, a)
    ensures Inv(Step(w, a))
  {
    hide Inv, Step, Enabled;
    match a
    case Mint(_, _, _, _) => MintKeeps(w, a);
    case File(_) => FileKeeps(w, a);
    case ResetList(_) => ResetKeepsInv(w, a);
    case Bring(_, _, _) => BringKeeps(w, a);
    case Leave(_, _) => LeaveKeepsInv(w, a);
    case _ => GpuKeeps(w, a);
  }

  lemma {:induction false} EveryRunKeeps(actions: seq<Action>)
    requires Runs(actions)
    ensures Inv(After(actions))
    decreases |actions|
  {
    hide Inv, Step;
    if actions == [] {
      assert Inv(START) by { StartKeeps(); }
    } else {
      var n := |actions| - 1;
      EveryRunKeeps(actions[..n]);
      StepKeeps(After(actions[..n]), actions[n]);
    }
  }

  lemma StartKeeps()
    ensures Inv(START)
  {}

  // --- the theorems ---------------------------------------------------------------------

  /** Over every run, live queries have different slots, whole and inside their buffers. */
  lemma LiveSlotsApart(actions: seq<Action>, i: nat, j: nat)
    requires Runs(actions)
    ensures
      var queries := After(actions).d.queries;
      i < j < |queries| ==> SlotsDisjoint(queries[i].key, queries[j].key)
  {
    hide Runs, After, SlotsDisjoint, Inv;
    EveryRunKeeps(actions);
    if i < j < |After(actions).d.queries| { QueriesApart(After(actions), i, j); }
  }

  /** Eight bytes each, inside the pooled buffers. */
  predicate SlotsDisjoint(a: Query, b: Query) {
    && a.offset + 8 <= 8 * SLOTS && b.offset + 8 <= 8 * SLOTS
    && (a.chunk != b.chunk || a.offset + 8 <= b.offset || b.offset + 8 <= a.offset)
  }

  lemma QueriesApart(w: World, i: nat, j: nat)
    requires Inv(w) && i < j < |w.d.queries|
    ensures SlotsDisjoint(w.d.queries[i].key, w.d.queries[j].key)
  {
    hide AllOk;
    var a, b := w.d.queries[i], w.d.queries[j];
    assert a in w.d.queries && b in w.d.queries;
    assert InItsSlot(w.slots, a) && InItsSlot(w.slots, b) && a.id != b.id;
    assert w.slots[a.id] != w.slots[b.id];
    assert SlotOk(w.d, w.slots[a.id]) && SlotOk(w.d, w.slots[b.id]);
  }

  /**
   Over every run `Bring` takes exactly the queries its list recorded, up to that segment,
   that no submission has stamped, and those for whose stamp the GPU has executed the
   signal or a later one.
   */
  lemma BringTakesExactly(actions: seq<Action>, call: nat, list: nat, done: nat, q: Read<Query>)
    requires Runs(actions) && Enabled(After(actions), Bring(call, list, done)) && q in After(actions).d.queries
    ensures
      var w, w' := After(actions), Step(After(actions), Bring(call, list, done));
      var take := if q.fence == 0 then q.owner == list && q.segment <= done
                  else q.queue in w.gpu.queues && w.gpu.queues[q.queue].done <= |w.gpu.queues[q.queue].items|
                       && SignalRan(w.gpu.queues[q.queue], q.fence);
      (q.id in w'.taken <==> take) && (q in w'.d.queries <==> !take)
  {
    EveryRunKeeps(actions);
    hide Runs, After;
    ReadyMeans(After(actions), list, done, q);
    TakesReady(After(actions), call, list, done, q);
  }

  lemma ReadyMeans(w: World, list: nat, done: nat, q: Read<Query>)
    requires Inv(w) && q in w.d.queries
    ensures
      Ready(w.gpu, list, done, q) <==>
        if q.fence == 0 then q.owner == list && q.segment <= done
        else q.queue in w.gpu.queues && w.gpu.queues[q.queue].done <= |w.gpu.queues[q.queue].items|
             && SignalRan(w.gpu.queues[q.queue], q.fence)
  {
    hide Known, SlotsApart, SignalRan;
    assert ReadOk(w.gpu, q);
    if q.fence != 0 {
      assert Valid(w.gpu.queues[q.queue]);
      PassedExactly(w.gpu, q);
    }
  }

  lemma TakesReady(w: World, call: nat, list: nat, done: nat, q: Read<Query>)
    requires Inv(w) && Enabled(w, Bring(call, list, done)) && q in w.d.queries
    ensures
      var w' := Step(w, Bring(call, list, done));
      (q.id in w'.taken <==> Ready(w.gpu, list, done, q)) && (q in w'.d.queries <==> !Ready(w.gpu, list, done, q))
  {
    hide AllOk, SlotsApart, Pick, Passed;
    var ready := Pick(w.gpu, list, done, true, w.d.queries);
    PickFound(w.gpu, list, done, true, w.d.queries, q);
    PickFound(w.gpu, list, done, false, w.d.queries, q);
    forall k | 0 <= k < |ready| && ready[k].id == q.id ensures ready[k] == q {
      PickFound(w.gpu, list, done, true, w.d.queries, ready[k]);
      SameId(w.d.queries, ready[k], q);
    }
  }

  /**
   What `Bring` takes, in any state a run reaches, it takes for the first time, once
   each, and the GPU has executed it; what it leaves has not been taken.
   */
  lemma BringTakesOnceAndRun(actions: seq<Action>, call: nat, list: nat, done: nat)
    requires Runs(actions) && Enabled(After(actions), Bring(call, list, done))
    ensures
      var w := After(actions);
      var ready := Pick(w.gpu, list, done, true, w.d.queries);
      && Distinct(ready)
      && (forall q :: q in ready ==> q.id !in w.taken && HasRun(w.gpu, q.id))
      && (forall q :: q in Step(w, Bring(call, list, done)).d.queries ==>
            q.id !in Step(w, Bring(call, list, done)).taken)
  {
    hide ReadOk, SlotsApart, Pick;
    var w := After(actions);
    EveryRunKeeps(actions);
    StepKeeps(w, Bring(call, list, done));
    var ready := Pick(w.gpu, list, done, true, w.d.queries);
    PickDistinct(w.gpu, list, done, true, w.d.queries);
    forall q | q in ready ensures q.id !in w.taken && HasRun(w.gpu, q.id) {
      PickFound(w.gpu, list, done, true, w.d.queries, q);
      if Passed(w.gpu, q) {
        PassedHasRun(w.gpu, q);
      } else {
        WaitedHasRun(w.gpu, q, call);
      }
    }
  }

  // --- the mutable module -----------------------------------------------------------------

  class Queries {
    var chunk: Option<Chunk>
    var chunks: nat
    var queries: seq<Read<Query>>
    var fences: map<nat, nat>

    ghost function State(): Decoder
      reads this
    {
      Decoder(chunk, chunks, queries)
    }

    constructor ()
      ensures State() == START.d && fences == map[]
    {
      chunk, chunks, queries, fences := None, 0, [], map[];
    }

    /** `Note`, first locked part. */
    method TakeSlot(device: nat) returns (id: nat, offset: nat)
      modifies this`chunk, this`chunks
      ensures (State(), id, offset) == MintSlot(old(State()), device)
    {
      if chunk.None? || chunk.value.used == SLOTS || chunk.value.device != device {
        chunk := Some(Chunk(chunks, device, 0));
        chunks := chunks + 1;
      }
      id, offset := chunk.value.id, 8 * chunk.value.used;
      chunk := Some(chunk.value.(used := chunk.value.used + 1));
    }

    /** `Note`, second locked part. */
    method File(q: Read<Query>)
      modifies this`queries
      ensures queries == old(queries) + [q]
    {
      queries := queries + [q];
    }

    /** The two loops of `AfterSubmit`. */
    method AfterSubmit(ghost g: Gpu, ghost c: nat, queue: nat, lists: seq<nat>, signalled: bool)
      requires c in g.calls && g.calls[c].queue == queue && queue in g.queues
      requires g.calls[c].lists.Keys == Listed(lists)
      requires FencesMatch(g, fences, queries) && GpuOk(g)
      modifies this`queries, this`fences
      ensures
        var signal := signalled && AnyToStamp(old(queries), g.calls[c].lists.Keys);
        && queries == (if signal then LeaveReads(g, old(queries), c) else old(queries))
        && (signal ==> FencesMatch(Readback.Leave(g, c, true), fences, queries))
        && (!signal ==> fences == old(fences))
    {
      var any := FindUnstamped(queries, lists);
      if !any || !signalled { return; }
      var value := (if queue in fences then fences[queue] else 0) + 1;
      assert value == StampValue(g, queue) by { assert FenceIs(g, fences, queue); }
      LeaveFences(g, c, fences, queries);
      fences := fences[queue := value];
      queries := StampSubmitted(queries, lists, queue, value);
    }

    method DropUnsubmitted(owner: nat)
      modifies this`queries
      ensures queries == Drop(old(queries), owner)
    {
      queries := DropLoop(queries, owner);
    }

    /** `Bring`, up to where it starts decoding. */
    method Bring(ghost g: Gpu, completed: map<nat, nat>, list: nat, segmentDone: nat)
      returns (ready: seq<Read<Query>>)
      requires FencesMatch(g, fences, queries) && Answers(g, completed)
      modifies this`queries
      ensures ready == Pick(g, list, segmentDone, true, old(queries))
      ensures queries == Pick(g, list, segmentDone, false, old(queries))
    {
      ready := [];
      var still := [];
      for i := 0 to |queries|
        invariant ready == Pick(g, list, segmentDone, true, queries[..i])
        invariant still == Pick(g, list, segmentDone, false, queries[..i])
      {
        assert queries[..i + 1][..i] == queries[..i];
        var q := queries[i];
        assert q in queries;
        var done := q.fence == 0 && q.owner == list && q.segment <= segmentDone;
        if !done && q.fence != 0 {
          done := q.queue in fences && q.queue in completed && completed[q.queue] >= q.fence;
        }
        assert done == Ready(g, list, segmentDone, q);
        if done { ready := ready + [q]; } else { still := still + [q]; }
      }
      assert queries[..|queries|] == queries;
      queries := still;
    }
  }
}
