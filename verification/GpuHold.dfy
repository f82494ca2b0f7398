/**
 When the GPU has finished with a buffer (`proxy/gpu_hold.cpp`).

 A use is recorded per command list, stamped with a fence when the list is
 submitted, and ends when the list can never run again and the fence has passed.
 The protocol is modelled with everything that happens around it: lists entering
 `ExecuteCommandLists` on several queues at once, being executed again, being
 reset, and the GPU running behind by any amount.
 */
module GpuHold {
  import opened GpuQueue

  type Res = nat
  type Owner = nat
  type QueueId = nat
  type Call = nat

  /** `fence` 0: never submitted. */
  datatype Stamp = Stamp(res: Res, queue: QueueId, fence: nat)

  /** One execution of one recording, and the buffers it reads. */
  datatype Work = Work(owner: Owner, reading: set<Res>)

  type Queues = map<QueueId, Queue<Work>>

  datatype Hold = Hold(live: map<Owner, seq<Stamp>>, ending: seq<Stamp>, queues: Queues)

  // --- the bookkeeping as functions --------------------------------------------

  function QueueAt(qs: Queues, q: QueueId): Queue<Work> {
    if q in qs then qs[q] else NewQueue()
  }

  predicate Done(qs: Queues, s: Stamp) { Completed(QueueAt(qs, s.queue)) >= s.fence }

  /** What to keep of stamps not done: those on other queues, those submitted at all, or all. */
  datatype Which = Elsewhere(queue: QueueId) | Submitted | All

  predicate Kept(qs: Queues, w: Which, s: Stamp) {
    && !Done(qs, s)
    && match w
       case Elsewhere(q) => s.fence > 0 && s.queue != q
       case Submitted => s.fence > 0
       case All => true
  }

  function Keep(qs: Queues, w: Which, xs: seq<Stamp>): (r: seq<Stamp>)
    ensures forall s :: s in r <==> s in xs && Kept(qs, w, s)
  {
    if xs == [] then []
    else
      var n := |xs| - 1;
      Keep(qs, w, xs[..n]) + if Kept(qs, w, xs[n]) then [xs[n]] else []
  }

  function Restamp(uses: seq<Stamp>, q: QueueId, value: nat): (r: seq<Stamp>)
    ensures |r| == |uses|
    ensures forall i :: 0 <= i < |uses| ==> r[i] == Stamp(uses[i].res, q, value)
  {
    seq(|uses|, i requires 0 <= i < |uses| => Stamp(uses[i].res, q, value))
  }

  /** `StampLocked`. */
  function StampUses(qs: Queues, uses: seq<Stamp>, q: QueueId, value: nat): seq<Stamp> {
    Restamp(uses, q, value) + Keep(qs, Elsewhere(q), uses)
  }

  function StampOwners(qs: Queues, live: map<Owner, seq<Stamp>>, owners: seq<Owner>, q: QueueId,
                       value: nat): (r: map<Owner, seq<Stamp>>)
    ensures r.Keys == live.Keys
  {
    if owners == [] then live
    else
      var n := |owners| - 1;
      var front := StampOwners(qs, live, owners[..n], q, value);
      if owners[n] in front then front[owners[n] := StampUses(qs, front[owners[n]], q, value)]
      else front
  }

  function Signalled(qs: Queues, q: QueueId): (r: Queues)
  {
    qs[q := SignalNext(QueueAt(qs, q))]
  }

  /** `EndLocked`: what was submitted and is still running waits for its fence. */
  function End(h: Hold, owner: Owner): Hold {
    if owner !in h.live then h
    else Hold(h.live - {owner},
              h.ending + Keep(h.queues, Submitted, h.live[owner]),
              h.queues)
  }

  function Sweep(h: Hold): Hold {
    h.(ending := Keep(h.queues, All, h.ending))
  }

  function UseIn(h: Hold, res: Res, owner: Owner): Hold {
    var uses := if owner in h.live then h.live[owner] else [];
    if exists s :: s in uses && s.res == res then h.(live := h.live[owner := uses])
    else h.(live := h.live[owner := uses + [Stamp(res, 0, 0)]])
  }

  /** With a failed signal nothing is stamped. */
  function AfterSubmitIn(h: Hold, q: QueueId, owners: seq<Owner>, signalled: bool): Hold {
    if h.live == map[] && h.ending == [] then h
    else if signalled && exists o :: o in owners && o in h.live then
      var qs := Signalled(h.queues, q);
      Sweep(Hold(StampOwners(qs, h.live, owners, q, LastSignal(qs[q].items)), h.ending, qs))
    else Sweep(h)
  }

  /** With a failed signal the uses stay live. */
  function SubmittedOnceIn(h: Hold, q: QueueId, owner: Owner, signalled: bool): Hold {
    if owner !in h.live || !signalled then h
    else
      var qs := Signalled(h.queues, q);
      End(Hold(h.live[owner := StampUses(qs, h.live[owner], q, LastSignal(qs[q].items))],
               h.ending, qs), owner)
  }

  ghost predicate BusyIn(h: Hold, res: Res) {
    || (exists o, s :: o in h.live && s in h.live[o] && s.res == res)
    || (exists s :: s in h.ending && s.res == res && !Done(h.queues, s))
  }

  // --- the world around it -------------------------------------------------------

  /**
   `reading`: what each recording that may still be submitted reads. `calls`: the
   submissions in progress, from before the list goes out until its stamp.
   `stuck`: shim-owned lists whose signal failed. `unstamped`: lists that went out on
   a queue and got no stamp there, the signal having failed.
   */
  datatype World = World(
    hold: Hold,
    reading: map<Owner, set<Res>>,
    calls: map<Call, (QueueId, seq<Owner>)>,
    stuck: set<Owner>,
    unstamped: set<(QueueId, Owner)>)

  datatype Action =
    | Use(res: Res, owner: Owner)
    | Enter(call: Call, queue: QueueId, owners: seq<Owner>)
    | Execute(call: Call, owner: Owner)
    | Leave(call: Call, signalled: bool)
    | LeaveOnce(call: Call, signalled: bool)
    | Detach(owner: Owner)
    | Advance(queue: QueueId)

  ghost predicate InCall(w: World, o: Owner) {
    exists c :: c in w.calls && o in w.calls[c].1
  }

  /** Did the signal after one of its submissions fail, with none on that queue stamped since? */
  ghost predicate Unstamped(w: World, o: Owner) {
    exists q :: (q, o) in w.unstamped
  }

  /** One of its executions, given to the queue and not over. */
  ghost predicate Running(w: World, o: Owner, q: QueueId, i: nat) {
    && q in w.hold.queues && w.hold.queues[q].done <= i < |w.hold.queues[q].items|
    && w.hold.queues[q].items[i].Run? && w.hold.queues[q].items[i].work.owner == o
  }

  /** Whatever its executions without a stamp of their own still read, a later stamp on that queue covers. */
  ghost predicate Settled(w: World, o: Owner) {
    forall q: QueueId, i: nat, r: Res ::
      (q, o) in w.unstamped && Running(w, o, q, i) && r in w.hold.queues[q].items[i].work.reading ==>
        StampCovers(w.hold, q, i + 1, r)
  }

  /** What the application and the shim keep to. */
  ghost predicate Enabled(w: World, a: Action) {
    match a
    case Use(_, o) => o !in w.stuck
    case Enter(c, _, owners) => c !in w.calls && forall o :: o in owners ==> o !in w.stuck
    case Execute(c, o) => c in w.calls && o in w.calls[c].1
    case Leave(c, _) => c in w.calls
    case LeaveOnce(c, _) =>
      // a list of the shim's own: alone in its one submission
      && c in w.calls && |w.calls[c].1| == 1 && !Unstamped(w, w.calls[c].1[0])
      && forall d :: d in w.calls && d != c ==> w.calls[c].1[0] !in w.calls[d].1
    case Detach(o) => !InCall(w, o) && o !in w.stuck && Settled(w, o)
    case Advance(_) => true
  }

  function ReadsOf(w: World, o: Owner): set<Res> { if o in w.reading then w.reading[o] else {} }

  function Sent(q: QueueId, owners: seq<Owner>): set<(QueueId, Owner)> {
    set o | o in owners :: (q, o)
  }

  /** A recording reset or destroyed. */
  function Detached(w: World, o: Owner): World {
    w.(hold := End(w.hold, o), reading := w.reading - {o}, unstamped := set x | x in w.unstamped && x.1 != o)
  }

  ghost function Step(w: World, a: Action): World
    requires Enabled(w, a)
  {
    match a
    case Use(res, o) =>
      w.(hold := UseIn(w.hold, res, o), reading := w.reading[o := ReadsOf(w, o) + {res}])
    case Enter(c, q, owners) => w.(calls := w.calls[c := (q, owners)])
    case Execute(c, o) =>
      var q := w.calls[c].0;
      var qs: Queues := w.hold.queues[q := Submit(QueueAt(w.hold.queues, q), Work(o, ReadsOf(w, o)))];
      w.(hold := w.hold.(queues := qs))
    case Leave(c, ok) =>
      var sent := Sent(w.calls[c].0, w.calls[c].1);
      w.(hold := AfterSubmitIn(w.hold, w.calls[c].0, w.calls[c].1, ok), calls := w.calls - {c},
         unstamped := if ok then w.unstamped - sent else w.unstamped + sent)
    case LeaveOnce(c, ok) =>
      var o := w.calls[c].1[0];
      if ok then w.(hold := SubmittedOnceIn(w.hold, w.calls[c].0, o, true), calls := w.calls - {c},
                    reading := w.reading - {o})
      else w.(calls := w.calls - {c}, stuck := w.stuck + {o})
    case Detach(o) => Detached(w, o)
    case Advance(q) =>
      var qs: Queues := w.hold.queues[q := GpuQueue.Advance(QueueAt(w.hold.queues, q))];
      w.(hold := w.hold.(queues := qs))
  }

  const START := World(Hold(map[], [], map[]), map[], map[], {}, {})

  ghost predicate Runs(actions: seq<Action>)
    decreases |actions|, 0
  {
    actions != [] ==>
      Runs(actions[..|actions| - 1]) && Enabled(After(actions[..|actions| - 1]), actions[|actions| - 1])
  }

  ghost function After(actions: seq<Action>): World
    requires Runs(actions)
    decreases |actions|, 1
  {
    if actions == [] then START
    else Step(After(actions[..|actions| - 1]), actions[|actions| - 1])
  }

  // --- the invariant -----------------------------------------------------------------

  ghost predicate Names(uses: seq<Stamp>, r: Res) { exists s :: s in uses && s.res == r }

  ghost predicate Records(w: World) {
    && w.reading.Keys == w.hold.live.Keys
    && forall o, r :: o in w.reading ==> (r in w.reading[o] <==> Names(w.hold.live[o], r))
  }

  ghost predicate QueuesValid(qs: Queues) {
    forall q :: q in qs ==> GpuQueue.Valid(qs[q])
  }

  /** A signal of at most `value` at position `from` or later. */
  ghost predicate SignalFrom(items: seq<Item<Work>>, from: nat, value: nat) {
    exists j :: from <= j < |items| && items[j].Signal? && items[j].value <= value
  }

  ghost predicate Stamped(h: Hold, s: Stamp) {
    (exists o :: o in h.live && s in h.live[o]) || s in h.ending
  }

  /** A stamp of `res` on `q` that cannot be done before the first `n` items have run. */
  ghost predicate StampCovers(h: Hold, q: QueueId, n: nat, res: Res) {
    exists s :: Stamped(h, s) && s.res == res && s.queue == q
             && SignalFrom(QueueAt(h.queues, q).items, n, s.fence)
  }

  /** An execution whose call is still in progress, or whose signal failed. */
  ghost predicate CallCovers(w: World, q: QueueId, o: Owner) {
    o in w.stuck || (q, o) in w.unstamped || exists c :: c in w.calls && w.calls[c].0 == q && o in w.calls[c].1
  }

  ghost predicate ItemCovered(w: World, q: QueueId, i: nat, work: Work) {
    forall r :: r in work.reading ==>
      || (CallCovers(w, q, work.owner) && r in ReadsOf(w, work.owner))
      || StampCovers(w.hold, q, i + 1, r)
  }

  ghost predicate Covered(w: World) {
    forall q, i :: q in w.hold.queues && w.hold.queues[q].done <= i < |w.hold.queues[q].items|
                   && w.hold.queues[q].items[i].Run? ==>
      ItemCovered(w, q, i, w.hold.queues[q].items[i].work)
  }

  /** Every stamp's fence has been signalled on its queue. */
  ghost predicate StampsSignalled(h: Hold) {
    forall s :: Stamped(h, s) ==> s.fence <= LastSignal(QueueAt(h.queues, s.queue).items)
  }

  ghost predicate CallersNotStuck(w: World) {
    forall c, o :: c in w.calls && o in w.calls[c].1 ==> o !in w.stuck
  }

  ghost predicate Inv(w: World) {
    && QueuesValid(w.hold.queues)
    && CallersNotStuck(w)
    && Records(w)
    && Covered(w)
    && StampsSignalled(w.hold)
  }

  // --- stamping ------------------------------------------------------------------------

  /** What is there was there, or is the new stamp. */
  ghost predicate NothingElse(q: QueueId, value: nat, before: seq<Stamp>, after: seq<Stamp>) {
    forall s :: s in after ==> s in before || (s.queue == q && s.fence == value)
  }

  /** Dropped only when its fence has passed or a later stamp on its own queue takes its place. */
  ghost predicate NothingLost(qs: Queues, q: QueueId, value: nat, before: seq<Stamp>, after: seq<Stamp>) {
    forall s :: s in before && s.fence > 0 ==>
      s in after || Done(qs, s) || (s.queue == q && Stamp(s.res, q, value) in after)
  }

  ghost predicate SameNames(before: seq<Stamp>, after: seq<Stamp>) {
    forall r :: Names(before, r) <==> Names(after, r)
  }

  ghost predicate AllStamped(q: QueueId, value: nat, before: seq<Stamp>, after: seq<Stamp>) {
    forall r :: Names(before, r) ==> Stamp(r, q, value) in after
  }

  /** `after` stands for `before` once everything submitted on `q` up to `value` is accounted for. */
  ghost predicate Succeeds(qs: Queues, q: QueueId, value: nat, before: seq<Stamp>, after: seq<Stamp>) {
    && NothingElse(q, value, before, after)
    && NothingLost(qs, q, value, before, after)
    && SameNames(before, after)
  }

  lemma StampUsesSucceeds(qs: Queues, uses: seq<Stamp>, q: QueueId, value: nat)
    ensures Succeeds(qs, q, value, uses, StampUses(qs, uses, q, value))
    ensures AllStamped(q, value, uses, StampUses(qs, uses, q, value))
  {
    var again := Restamp(uses, q, value);
    var all := StampUses(qs, uses, q, value);
    forall s | s in uses ensures Stamp(s.res, q, value) in all {
      var i :| 0 <= i < |uses| && uses[i] == s;
      assert again[i] in again;
    }
    forall t | t in all
      ensures t in uses || (t.queue == q && t.fence == value)
      ensures Names(uses, t.res)
    {
      if t in again {
        var i :| 0 <= i < |again| && again[i] == t;
        assert uses[i] in uses;
      } else {
        assert t in uses;
      }
    }
    forall r | Names(uses, r) ensures Names(all, r) {
      var s :| s in uses && s.res == r;
      assert Stamp(s.res, q, value) in all;
    }
  }

  lemma SucceedsTwice(qs: Queues, q: QueueId, value: nat, a: seq<Stamp>, b: seq<Stamp>, c: seq<Stamp>)
    requires Succeeds(qs, q, value, a, b) && Succeeds(qs, q, value, b, c)
    requires AllStamped(q, value, b, c)
    ensures Succeeds(qs, q, value, a, c) && AllStamped(q, value, a, c)
  {
    forall s | s in a && s.fence > 0
      ensures s in c || Done(qs, s) || (s.queue == q && Stamp(s.res, q, value) in c)
    {
      if s !in b && !Done(qs, s) {
        assert Stamp(s.res, q, value) in b;
        assert Names(b, s.res);
      }
    }
  }

  lemma SucceedsItself(qs: Queues, q: QueueId, value: nat, a: seq<Stamp>)
    ensures Succeeds(qs, q, value, a, a)
  {}

  lemma {:induction false} StampOwnersSucceeds(qs: Queues, live: map<Owner, seq<Stamp>>,
                                               owners: seq<Owner>, q: QueueId, value: nat, o: Owner)
    requires o in live
    ensures
      var r := StampOwners(qs, live, owners, q, value);
      && Succeeds(qs, q, value, live[o], r[o])
      && (o in owners ==> AllStamped(q, value, live[o], r[o]))
  {
    hide Succeeds, AllStamped;
    if owners == [] {
      SucceedsItself(qs, q, value, live[o]);
    } else {
      var n := |owners| - 1;
      StampOwnersSucceeds(qs, live, owners[..n], q, value, o);
      var front := StampOwners(qs, live, owners[..n], q, value);
      if o == owners[n] {
        StampUsesSucceeds(qs, front[o], q, value);
        SucceedsTwice(qs, q, value, live[o], front[o], StampUses(qs, front[o], q, value));
      } else if o in owners {
        assert o in owners[..n];
      }
    }
  }

  // --- each action keeps the invariant ----------------------------------------------------

  /** A stamp that still has to cover something is not done. */
  lemma CoveringNotDone(qs: Queues, q: QueueId, n: nat, s: Stamp)
    requires QueuesValid(qs) && QueueAt(qs, q).done <= n
    requires s.queue == q && SignalFrom(QueueAt(qs, q).items, n, s.fence)
    ensures !Done(qs, s) && s.fence > 0
  {
    var r := QueueAt(qs, q);
    var j :| n <= j < |r.items| && r.items[j].Signal? && r.items[j].value <= s.fence;
    if Done(qs, s) {
      PassedMeansRun(r, j);
    }
  }

  /** Queues only grow, and only move forward. */
  ghost predicate QueuesGrow(qs: Queues, qs': Queues) {
    forall q :: QueueAt(qs, q).items <= QueueAt(qs', q).items && QueueAt(qs, q).done <= QueueAt(qs', q).done
  }

  /** Each stamp is kept, or done, or replaced by one on the same queue that comes after everything. */
  ghost predicate StampsCarried(h: Hold, h': Hold) {
    forall s :: Stamped(h, s) ==>
      || Stamped(h', s) || s.fence == 0 || Done(h.queues, s)
      || StampCovers(h', s.queue, |QueueAt(h.queues, s.queue).items|, s.res)
  }

  /** Each call still covers what it covered, or has left its stamps. */
  ghost predicate CallsCarried(w: World, w': World) {
    forall q, o, r :: CallCovers(w, q, o) && r in ReadsOf(w, o) ==>
      || (CallCovers(w', q, o) && r in ReadsOf(w', o))
      || StampCovers(w'.hold, q, |QueueAt(w.hold.queues, q).items|, r)
  }

  ghost predicate NewItemsCovered(w: World, w': World) {
    forall q, i :: q in w'.hold.queues && |QueueAt(w.hold.queues, q).items| <= i < |w'.hold.queues[q].items|
                   && w'.hold.queues[q].items[i].Run? ==>
      ItemCovered(w', q, i, w'.hold.queues[q].items[i].work)
  }

  lemma LaterSignals(items: seq<Item<Work>>, items': seq<Item<Work>>, n: nat, m: nat, value: nat)
    requires items <= items' && n <= m
    ensures SignalFrom(items, n, value) ==> SignalFrom(items', n, value)
    ensures SignalFrom(items', m, value) ==> SignalFrom(items', n, value)
  {
    if SignalFrom(items, n, value) {
      var j :| n <= j < |items| && items[j].Signal? && items[j].value <= value;
      assert items'[j] == items[j];
    }
  }

  lemma StampCoversEarlier(h: Hold, q: QueueId, n: nat, m: nat, r: Res)
    requires n <= m && StampCovers(h, q, m, r)
    ensures StampCovers(h, q, n, r)
  {
    var s :| Stamped(h, s) && s.res == r && s.queue == q && SignalFrom(QueueAt(h.queues, q).items, m, s.fence);
    LaterSignals(QueueAt(h.queues, q).items, QueueAt(h.queues, q).items, n, m, s.fence);
  }

  lemma ItemStaysCovered(w: World, w': World, q: QueueId, i: nat, work: Work)
    requires QueuesValid(w.hold.queues) && QueuesGrow(w.hold.queues, w'.hold.queues)
    requires StampsCarried(w.hold, w'.hold) && CallsCarried(w, w')
    requires QueueAt(w.hold.queues, q).done <= i < |QueueAt(w.hold.queues, q).items|
    requires ItemCovered(w, q, i, work)
    ensures ItemCovered(w', q, i, work)
  {
    var items, items' := QueueAt(w.hold.queues, q).items, QueueAt(w'.hold.queues, q).items;
    forall r | r in work.reading
      ensures (CallCovers(w', q, work.owner) && r in ReadsOf(w', work.owner)) || StampCovers(w'.hold, q, i + 1, r)
    {
      if CallCovers(w, q, work.owner) && r in ReadsOf(w, work.owner) {
        if StampCovers(w'.hold, q, |items|, r) {
          StampCoversEarlier(w'.hold, q, i + 1, |items|, r);
        }
      } else {
        var s :| Stamped(w.hold, s) && s.res == r && s.queue == q && SignalFrom(items, i + 1, s.fence);
        CoveringNotDone(w.hold.queues, q, i + 1, s);
        LaterSignals(items, items', i + 1, i + 1, s.fence);
        if !Stamped(w'.hold, s) {
          StampCoversEarlier(w'.hold, q, i + 1, |items|, r);
        }
      }
    }
  }

  lemma CoveredAcross(w: World, w': World)
    requires QueuesValid(w.hold.queues) && Covered(w)
    requires QueuesGrow(w.hold.queues, w'.hold.queues)
    requires StampsCarried(w.hold, w'.hold) && CallsCarried(w, w') && NewItemsCovered(w, w')
    ensures Covered(w')
  {
    hide ItemCovered, StampsCarried, CallsCarried;
    forall q, i | q in w'.hold.queues && w'.hold.queues[q].done <= i < |w'.hold.queues[q].items|
                  && w'.hold.queues[q].items[i].Run?
      ensures ItemCovered(w', q, i, w'.hold.queues[q].items[i].work)
    {
      var before := QueueAt(w.hold.queues, q);
      if i < |before.items| {
        assert q in w.hold.queues && before.items[i] == w'.hold.queues[q].items[i];
        assert ItemCovered(w, q, i, before.items[i].work);
        ItemStaysCovered(w, w', q, i, before.items[i].work);
      }
    }
  }

  /** A change that uncovers nothing. */
  ghost predicate Careful(w: World, w': World) {
    && QueuesGrow(w.hold.queues, w'.hold.queues)
    && StampsCarried(w.hold, w'.hold)
    && CallsCarried(w, w')
    && NewItemsCovered(w, w')
  }

  lemma CarefulKeeps(w: World, w': World)
    requires Inv(w) && Careful(w, w')
    requires QueuesValid(w'.hold.queues) && CallersNotStuck(w') && Records(w') && StampsSignalled(w'.hold)
    ensures Inv(w')
  {
    hide Covered, StampsCarried, CallsCarried, NewItemsCovered, QueuesGrow, Records, StampsSignalled;
    CoveredAcross(w, w');
  }

  lemma UseNames(uses: seq<Stamp>, res: Res, uses': seq<Stamp>)
    requires uses' == if Names(uses, res) then uses else uses + [Stamp(res, 0, 0)]
    ensures forall r :: Names(uses', r) <==> Names(uses, r) || r == res
    ensures forall s :: s in uses' ==> s in uses || s == Stamp(res, 0, 0)
    ensures forall s :: s in uses ==> s in uses'
  {
    if !Names(uses, res) {
      assert Stamp(res, 0, 0) in uses';
      assert Names(uses', res);
      forall r | Names(uses, r) ensures Names(uses', r) {
        var s :| s in uses && s.res == r;
        assert s in uses';
      }
    }
  }

  lemma UseStamps(h: Hold, res: Res, o: Owner)
    ensures forall s :: Stamped(h, s) ==> Stamped(UseIn(h, res, o), s)
    ensures forall s :: Stamped(UseIn(h, res, o), s) ==> Stamped(h, s) || s == Stamp(res, 0, 0)
  {
    var h' := UseIn(h, res, o);
    var uses := if o in h.live then h.live[o] else [];
    UseNames(uses, res, h'.live[o]);
    forall s | Stamped(h, s) ensures Stamped(h', s) {
      if p :| p in h.live && s in h.live[p] {
        assert s in h'.live[p];
      }
    }
  }

  lemma UseKeeps(w: World, res: Res, o: Owner)
    requires Inv(w) && Enabled(w, Use(res, o))
    ensures Inv(Step(w, Use(res, o)))
  {
    hide Covered, NewItemsCovered;
    var w' := Step(w, Use(res, o));
    UseStamps(w.hold, res, o);
    UseNames(if o in w.hold.live then w.hold.live[o] else [], res, w'.hold.live[o]);
    assert CallsCarried(w, w') by {
      forall q, p | CallCovers(w, q, p) ensures CallCovers(w', q, p) {}
    }
    NoNewItems(w, w');
    CarefulKeeps(w, w');
  }

  lemma NoNewItems(w: World, w': World)
    requires forall q :: q in w'.hold.queues ==>
      forall i :: |QueueAt(w.hold.queues, q).items| <= i < |w'.hold.queues[q].items| ==>
        w'.hold.queues[q].items[i].Signal?
    ensures NewItemsCovered(w, w')
  {}

  lemma EnterKeeps(w: World, c: Call, q: QueueId, owners: seq<Owner>)
    requires Inv(w) && Enabled(w, Enter(c, q, owners))
    ensures Inv(Step(w, Enter(c, q, owners)))
  {
    hide Covered, NewItemsCovered, Records, StampsSignalled;
    var w' := Step(w, Enter(c, q, owners));
    assert CallsCarried(w, w') by {
      forall q1: QueueId, o: Owner | CallCovers(w, q1, o) ensures CallCovers(w', q1, o) {
        if o !in w.stuck && (q1, o) !in w.unstamped {
          var d :| d in w.calls && w.calls[d].0 == q1 && o in w.calls[d].1;
          assert d in w'.calls && w'.calls[d] == w.calls[d];
        }
      }
    }
    assert Records(w') by { SameRecords(w, w'); }
    assert StampsSignalled(w'.hold);
    NoNewItems(w, w');
    CarefulKeeps(w, w');
  }

  lemma SameRecords(w: World, w': World)
    requires Records(w) && w'.reading == w.reading && w'.hold.live == w.hold.live
    ensures Records(w')
  {}

  /** Only a queue moved on: the stamps are the same, and as signalled as before. */
  lemma OneQueueChanges(h: Hold, h': Hold, q: QueueId)
    requires h.live == h'.live && h.ending == h'.ending
    requires h'.queues.Keys == h.queues.Keys + {q}
    requires forall p :: p in h.queues && p != q ==> h'.queues[p] == h.queues[p]
    requires LastSignal(QueueAt(h.queues, q).items) <= LastSignal(QueueAt(h'.queues, q).items)
    requires StampsSignalled(h)
    ensures StampsSignalled(h') && StampsCarried(h, h')
  {
    forall s ensures Stamped(h, s) <==> Stamped(h', s) {}
  }

  /** A queue moves on by itself: more submitted to it, or more of it done. */
  lemma QueueMoves(w: World, w': World, q: QueueId)
    requires Inv(w) && w' == w.(hold := w.hold.(queues := w'.hold.queues))
    requires w'.hold.queues.Keys == w.hold.queues.Keys + {q}
    requires forall p :: p in w.hold.queues && p != q ==> w'.hold.queues[p] == w.hold.queues[p]
    requires GpuQueue.Valid(QueueAt(w'.hold.queues, q))
    requires QueueAt(w.hold.queues, q).items <= QueueAt(w'.hold.queues, q).items
    requires QueueAt(w.hold.queues, q).done <= QueueAt(w'.hold.queues, q).done
    requires LastSignal(QueueAt(w.hold.queues, q).items) <= LastSignal(QueueAt(w'.hold.queues, q).items)
    requires NewItemsCovered(w, w')
    ensures Inv(w')
  {
    OneQueueChanges(w.hold, w'.hold, q);
    hide Covered, Records, StampsSignalled, CallersNotStuck, StampsCarried, CallsCarried, NewItemsCovered;
    SameRecords(w, w');
    SameCalls(w, w');
    CarefulKeeps(w, w');
  }

  lemma QueueAtValid(w: World, q: QueueId)
    requires Inv(w)
    ensures GpuQueue.Valid(QueueAt(w.hold.queues, q))
  {}

  lemma SubmitMoves(w: World, w': World, q: QueueId, work: Work)
    requires Inv(w) && w' == w.(hold := w.hold.(queues := w'.hold.queues))
    requires w'.hold.queues == w.hold.queues[q := Submit(QueueAt(w.hold.queues, q), work)]
    requires NewItemsCovered(w, w')
    ensures Inv(w')
  {
    QueueAtValid(w, q);
    hide Inv, NewItemsCovered, GpuQueue.Valid, LastSignal, Completed;
    var r := QueueAt(w.hold.queues, q);
    SubmitValid(r, work);
    assert QueueAt(w'.hold.queues, q) == Submit(r, work) && r.items <= Submit(r, work).items;
    hide Submit;
    QueueMoves(w, w', q);
  }

  lemma ExecuteKeeps(w: World, c: Call, o: Owner)
    requires Inv(w) && Enabled(w, Execute(c, o))
    ensures Inv(Step(w, Execute(c, o)))
  {
    hide Inv, NewItemsCovered;
    ExecutedCovered(w, c, o);
    SubmitMoves(w, Step(w, Execute(c, o)), w.calls[c].0, Work(o, ReadsOf(w, o)));
  }

  lemma SameCalls(w: World, w': World)
    requires CallersNotStuck(w)
    requires w'.calls == w.calls && w'.stuck == w.stuck && w'.unstamped == w.unstamped && w'.reading == w.reading
    ensures CallersNotStuck(w') && CallsCarried(w, w')
  {
    forall q, p | CallCovers(w, q, p) ensures CallCovers(w', q, p) {}
  }

  /** What is executed now is covered by the call it went out with. */
  lemma ExecutedCovered(w: World, c: Call, o: Owner)
    requires Enabled(w, Execute(c, o))
    ensures NewItemsCovered(w, Step(w, Execute(c, o)))
  {
    var w' := Step(w, Execute(c, o));
    assert CallCovers(w', w.calls[c].0, o);
    assert ReadsOf(w', o) == ReadsOf(w, o);
  }

  lemma AdvanceKeeps(w: World, q: QueueId)
    requires Inv(w)
    ensures Inv(Step(w, Advance(q)))
  {
    hide Covered, Records, StampsSignalled, CallersNotStuck;
    var w' := Step(w, Advance(q));
    AdvanceValid(QueueAt(w.hold.queues, q));
    NoNewItems(w, w');
    QueueMoves(w, w', q);
  }

  /** Ending an owner moves what is still running, drops the rest. */
  lemma EndCarries(h: Hold, o: Owner)
    ensures StampsCarried(h, End(h, o))
    ensures forall s :: Stamped(End(h, o), s) ==> Stamped(h, s)
  {
    var h' := End(h, o);
    forall s | Stamped(h, s) && s.fence > 0 && !Done(h.queues, s) ensures Stamped(h', s) {
      if s !in h.ending {
        var p :| p in h.live && s in h.live[p];
        if p != o { assert p in h'.live && s in h'.live[p]; }
      }
    }
    forall s | Stamped(h', s) ensures Stamped(h, s) {
      if s !in h'.ending {
        var p :| p in h'.live && s in h'.live[p];
        assert s in h.live[p];
      }
    }
  }

  /** What an execution still reads is covered by stamps that stay, or by others than the list that goes. */
  lemma DetachedCovered(w: World, o: Owner, q: QueueId, i: nat, work: Work)
    requires Inv(w) && !InCall(w, o) && o !in w.stuck && Settled(w, o)
    requires Running(w, work.owner, q, i) && w.hold.queues[q].items[i].work == work
    ensures ItemCovered(Detached(w, o), q, i, work)
  {
    var w' := Detached(w, o);
    assert ItemCovered(w, q, i, work);
    EndCarries(w.hold, o);
    forall r | r in work.reading
      ensures (CallCovers(w', q, work.owner) && r in ReadsOf(w', work.owner)) || StampCovers(w'.hold, q, i + 1, r)
    {
      if StampCovers(w.hold, q, i + 1, r) {
        CoverCarried(w.hold, w'.hold, q, i + 1, r);
      } else {
        assert CallCovers(w, q, work.owner) && r in ReadsOf(w, work.owner);
        assert work.owner != o;
      }
    }
  }

  lemma DetachKeeps(w: World, o: Owner)
    requires Inv(w) && Enabled(w, Detach(o))
    ensures Inv(Step(w, Detach(o)))
  {
    var w' := Detached(w, o);
    EndCarries(w.hold, o);
    assert Covered(w') by {
      hide Inv, ItemCovered, Settled, StampCovers, End;
      forall q, i | q in w'.hold.queues && w'.hold.queues[q].done <= i < |w'.hold.queues[q].items|
                    && w'.hold.queues[q].items[i].Run?
        ensures ItemCovered(w', q, i, w'.hold.queues[q].items[i].work)
      {
        DetachedCovered(w, o, q, i, w'.hold.queues[q].items[i].work);
      }
    }
    hide Covered, Settled;
  }

  // --- leaving a submission ------------------------------------------------------------

  /** `owners` have been stamped with `value`, the signal just put at the end of `q`. */
  ghost predicate StampedBy(h: Hold, h': Hold, q: QueueId, owners: seq<Owner>) {
    && h'.queues == Signalled(h.queues, q)
    && h'.ending == h.ending
    && h'.live == StampOwners(h'.queues, h.live, owners, q, LastSignal(h'.queues[q].items))
  }

  lemma SignalledAt(qs: Queues, q: QueueId, p: QueueId)
    requires QueuesValid(qs)
    ensures
      var r, r' := QueueAt(qs, p), QueueAt(Signalled(qs, q), p);
      && GpuQueue.Valid(r')
      && r.items <= r'.items && r'.done == r.done && Completed(r') == Completed(r)
      && LastSignal(r.items) <= LastSignal(r'.items)
      && (p != q ==> r' == r)
      && (p == q ==> r'.items == r.items + [Signal(LastSignal(r'.items))])
  {
    if p == q { SignalValid(QueueAt(qs, q)); }
  }

  lemma SignalledGrows(qs: Queues, q: QueueId)
    requires QueuesValid(qs)
    ensures
      var qs' := Signalled(qs, q);
      && QueuesValid(qs') && QueuesGrow(qs, qs')
      && (forall s :: Done(qs', s) == Done(qs, s))
      && (forall p :: LastSignal(QueueAt(qs, p).items) <= LastSignal(QueueAt(qs', p).items))
      && SignalFrom(qs'[q].items, |QueueAt(qs, q).items|, LastSignal(qs'[q].items))
  {
    hide LastSignal, Completed, GpuQueue.Valid, SignalNext;
    var qs' := Signalled(qs, q);
    forall p ensures QueueAt(qs, p).items <= QueueAt(qs', p).items
      && QueueAt(qs, p).done <= QueueAt(qs', p).done
      && LastSignal(QueueAt(qs, p).items) <= LastSignal(QueueAt(qs', p).items)
    {
      SignalledAt(qs, q, p);
    }
    forall s ensures Done(qs', s) == Done(qs, s) { SignalledAt(qs, q, s.queue); }
    forall p | p in qs' ensures GpuQueue.Valid(qs'[p]) { SignalledAt(qs, q, p); }
    SignalledAt(qs, q, q);
    assert qs'[q].items[|QueueAt(qs, q).items|].Signal?;
  }

  /** What stamping leaves behind for the stamps there were. */
  lemma StampingCarries(h: Hold, h': Hold, q: QueueId, owners: seq<Owner>)
    requires QueuesValid(h.queues) && StampedBy(h, h', q, owners)
    ensures StampsCarried(h, h')
    ensures h'.live.Keys == h.live.Keys
    ensures forall o :: o in h.live ==> SameNames(h.live[o], h'.live[o])
  {
    hide LastSignal, Completed, GpuQueue.Valid, QueuesGrow;
    SignalledGrows(h.queues, q);
    var value := LastSignal(h'.queues[q].items);
    forall o | o in h.live
      ensures Succeeds(h'.queues, q, value, h.live[o], h'.live[o])
    {
      StampOwnersSucceeds(h'.queues, h.live, owners, q, value, o);
    }
    forall s | Stamped(h, s) && !Stamped(h', s) && s.fence > 0 && !Done(h.queues, s)
      ensures StampCovers(h', s.queue, |QueueAt(h.queues, s.queue).items|, s.res)
    {
      var o :| o in h.live && s in h.live[o];
      assert NothingLost(h'.queues, q, value, h.live[o], h'.live[o]);
      assert !Done(h'.queues, s);
      assert s !in h'.live[o];
      assert Stamped(h', Stamp(s.res, q, value));
    }
  }

  /** And for the executions of the owners it stamped. */
  lemma StampingCovers(h: Hold, h': Hold, q: QueueId, owners: seq<Owner>, o: Owner, r: Res)
    requires QueuesValid(h.queues) && StampedBy(h, h', q, owners)
    requires o in owners && o in h.live && Names(h.live[o], r)
    ensures StampCovers(h', q, |QueueAt(h.queues, q).items|, r)
  {
    SignalledGrows(h.queues, q);
    var value := LastSignal(h'.queues[q].items);
    StampOwnersSucceeds(h'.queues, h.live, owners, q, value, o);
    assert Stamp(r, q, value) in h'.live[o];
    assert Stamped(h', Stamp(r, q, value));
  }

  lemma StampingSignalled(h: Hold, h': Hold, q: QueueId, owners: seq<Owner>)
    requires QueuesValid(h.queues) && StampedBy(h, h', q, owners) && StampsSignalled(h)
    ensures StampsSignalled(h')
  {
    SignalledGrows(h.queues, q);
    var value := LastSignal(h'.queues[q].items);
    forall s | Stamped(h', s) ensures s.fence <= LastSignal(QueueAt(h'.queues, s.queue).items) {
      if s in h.ending {
        assert Stamped(h, s);
      } else {
        var o :| o in h'.live && s in h'.live[o];
        StampOwnersSucceeds(h'.queues, h.live, owners, q, value, o);
        assert NothingElse(q, value, h.live[o], h'.live[o]);
        if s in h.live[o] { assert Stamped(h, s); }
      }
    }
  }

  lemma SweepCarries(h: Hold)
    ensures StampsCarried(h, Sweep(h))
    ensures forall s :: Stamped(Sweep(h), s) ==> Stamped(h, s)
  {
    var h' := Sweep(h);
    forall s | Stamped(h, s) && !Done(h.queues, s) ensures Stamped(h', s) {
      if s !in h.ending {
        var o :| o in h.live && s in h.live[o];
        assert s in h'.live[o];
      }
    }
    forall s | Stamped(h', s) ensures Stamped(h, s) {
      if s !in h'.ending {
        var o :| o in h'.live && s in h'.live[o];
        assert s in h.live[o];
      }
    }
  }

  lemma CoverCarried(h: Hold, h': Hold, q: QueueId, n: nat, r: Res)
    requires QueuesValid(h.queues) && h'.queues == h.queues && StampsCarried(h, h')
    requires QueueAt(h.queues, q).done <= n <= |QueueAt(h.queues, q).items|
    requires StampCovers(h, q, n, r)
    ensures StampCovers(h', q, n, r)
  {
    var s :| Stamped(h, s) && s.res == r && s.queue == q && SignalFrom(QueueAt(h.queues, q).items, n, s.fence);
    CoveringNotDone(h.queues, q, n, s);
  }

  /** Stamping, then clearing out with the queues as they are. */
  lemma CarriedTwice(h: Hold, h1: Hold, h2: Hold, q: QueueId)
    requires QueuesValid(h.queues) && h1.queues == Signalled(h.queues, q) && h2.queues == h1.queues
    requires StampsCarried(h, h1) && StampsCarried(h1, h2)
    ensures StampsCarried(h, h2)
    ensures forall p, r :: StampCovers(h1, p, |QueueAt(h.queues, p).items|, r)
              ==> StampCovers(h2, p, |QueueAt(h.queues, p).items|, r)
  {
    forall p, r | StampCovers(h1, p, |QueueAt(h.queues, p).items|, r)
      ensures StampCovers(h2, p, |QueueAt(h.queues, p).items|, r)
    {
      CoverStays(h, h1, h2, q, p, r);
    }
    forall s | Stamped(h, s)
      ensures Stamped(h2, s) || s.fence == 0 || Done(h.queues, s)
           || StampCovers(h2, s.queue, |QueueAt(h.queues, s.queue).items|, s.res)
    {
      StampStays(h, h1, h2, q, s);
    }
  }

  lemma CoverStays(h: Hold, h1: Hold, h2: Hold, q: QueueId, p: QueueId, r: Res)
    requires QueuesValid(h.queues) && h1.queues == Signalled(h.queues, q) && h2.queues == h1.queues
    requires StampsCarried(h1, h2)
    requires StampCovers(h1, p, |QueueAt(h.queues, p).items|, r)
    ensures StampCovers(h2, p, |QueueAt(h.queues, p).items|, r)
  {
    hide StampCovers, StampsCarried;
    SignalledGrows(h.queues, q);
    CoverCarried(h1, h2, p, |QueueAt(h.queues, p).items|, r);
  }

  lemma StampStays(h: Hold, h1: Hold, h2: Hold, q: QueueId, s: Stamp)
    requires QueuesValid(h.queues) && h1.queues == Signalled(h.queues, q) && h2.queues == h1.queues
    requires StampsCarried(h, h1) && StampsCarried(h1, h2) && Stamped(h, s)
    ensures Stamped(h2, s) || s.fence == 0 || Done(h.queues, s)
         || StampCovers(h2, s.queue, |QueueAt(h.queues, s.queue).items|, s.res)
  {
    SignalledGrows(h.queues, q);
    if !Stamped(h1, s) && StampCovers(h1, s.queue, |QueueAt(h.queues, s.queue).items|, s.res) {
      CoverStays(h, h1, h2, q, s.queue, s.res);
    }
  }

  /** A call leaving takes nothing from the others. */
  lemma CallRemoved(w: World, w': World, c: Call, q: QueueId, o: Owner)
    requires c in w.calls && w'.calls == w.calls - {c} && w.stuck <= w'.stuck
    requires w.unstamped - Sent(w.calls[c].0, w.calls[c].1) <= w'.unstamped
    requires CallCovers(w, q, o)
    ensures CallCovers(w', q, o) || (w.calls[c].0 == q && o in w.calls[c].1)
  {
    if o !in w.stuck && (q, o) !in w.unstamped {
      var d :| d in w.calls && w.calls[d].0 == q && o in w.calls[d].1;
      if d != c { assert d in w'.calls && w'.calls[d] == w.calls[d]; }
    }
  }

  lemma LeaveKeeps(w: World, c: Call, ok: bool)
    requires Inv(w) && Enabled(w, Leave(c, ok))
    ensures Inv(Step(w, Leave(c, ok)))
  {
    hide Inv, Step;
    if ok && exists o :: o in w.calls[c].1 && o in w.hold.live {
      LeaveStamped(w, c);
    } else {
      LeaveUnstamped(w, c, ok);
    }
  }

  lemma LeaveStamped(w: World, c: Call)
    requires Inv(w) && Enabled(w, Leave(c, true)) && exists o :: o in w.calls[c].1 && o in w.hold.live
    ensures Inv(Step(w, Leave(c, true)))
  {
    var (q, owners) := w.calls[c];
    var qs := Signalled(w.hold.queues, q);
    var h1 := Hold(StampOwners(qs, w.hold.live, owners, q, LastSignal(qs[q].items)), w.hold.ending, qs);
    hide Inv, StampOwners, LastSignal, Signalled, Keep;
    StampingLeaves(w, Step(w, Leave(c, true)), c, h1, Sweep(h1));
  }

  lemma LeaveUnstamped(w: World, c: Call, ok: bool)
    requires Inv(w) && Enabled(w, Leave(c, ok)) && !(ok && exists o :: o in w.calls[c].1 && o in w.hold.live)
    ensures Inv(Step(w, Leave(c, ok)))
  {
    hide Inv, StampsCarried, Stamped;
    var h, w' := w.hold, Step(w, Leave(c, ok));
    SweepCarries(h);
    assert h.live == map[] && h.ending == [] ==> Sweep(h) == h;
    if ok {
      NothingLeaves(w, w', c, w.calls[c].1);
    } else {
      FailedLeaves(w, w', c);
    }
  }

  /** A failed signal uncovers nothing: the lists are remembered as unstamped. */
  lemma FailedLeaves(w: World, w': World, c: Call)
    requires Inv(w) && c in w.calls
    requires w'.calls == w.calls - {c} && w'.stuck == w.stuck && w'.reading == w.reading
    requires w'.unstamped == w.unstamped + Sent(w.calls[c].0, w.calls[c].1)
    requires w'.hold.queues == w.hold.queues && w'.hold.live == w.hold.live
    requires StampsCarried(w.hold, w'.hold) && forall s :: Stamped(w'.hold, s) ==> Stamped(w.hold, s)
    ensures Inv(w')
  {
    hide Covered;
    forall p: QueueId, o: Owner | CallCovers(w, p, o) ensures CallCovers(w', p, o) {
      CallRemoved(w, w', c, p, o);
    }
    NoNewItems(w, w');
    CoveredAcross(w, w');
  }

  /** A call whose lists have no uses leaves nothing uncovered. */
  lemma NothingLeaves(w: World, w': World, c: Call, gone: seq<Owner>)
    requires Inv(w) && c in w.calls && w.calls[c].1 == gone
    requires forall o :: o in gone ==> o !in w.hold.live
    requires w'.calls == w.calls - {c} && w'.stuck == w.stuck
    requires w.unstamped - Sent(w.calls[c].0, gone) <= w'.unstamped
    requires w'.hold.queues == w.hold.queues && w'.hold.live == w.hold.live
    requires w'.reading == w.reading
    requires StampsCarried(w.hold, w'.hold) && forall s :: Stamped(w'.hold, s) ==> Stamped(w.hold, s)
    ensures Inv(w')
  {
    hide Covered;
    forall p, o, r | CallCovers(w, p, o) && r in ReadsOf(w, o) ensures CallCovers(w', p, o) {
      CallRemoved(w, w', c, p, o);
      assert o in w.hold.live;
    }
    NoNewItems(w, w');
    CoveredAcross(w, w');
  }

  /** The signal, the stamps, then what is done cleared out: nothing uncovered. */
  lemma StampingLeaves(w: World, w': World, c: Call, h1: Hold, h2: Hold)
    requires Inv(w) && c in w.calls
    requires StampedBy(w.hold, h1, w.calls[c].0, w.calls[c].1)
    requires h2 == Sweep(h1)
    requires w' == w.(hold := h2, calls := w.calls - {c}, unstamped := w'.unstamped)
    requires w'.unstamped == w.unstamped - Sent(w.calls[c].0, w.calls[c].1)
    ensures Inv(w')
  {
    SweepCarries(h1);
    AfterStamping(w, w', c, h1);
  }

  /** Whatever clears out after the stamping, as long as it carries the stamps. */
  lemma AfterStamping(w: World, w': World, c: Call, h1: Hold)
    requires Inv(w) && c in w.calls
    requires StampedBy(w.hold, h1, w.calls[c].0, w.calls[c].1)
    requires w'.hold.queues == h1.queues && StampsCarried(h1, w'.hold)
    requires forall s :: Stamped(w'.hold, s) ==> Stamped(h1, s)
    requires w'.calls == w.calls - {c} && w'.stuck == w.stuck
    requires w.unstamped - Sent(w.calls[c].0, w.calls[c].1) <= w'.unstamped <= w.unstamped
    requires w'.reading.Keys == w'.hold.live.Keys <= w.reading.Keys
    requires forall o :: o in w'.reading ==> w'.reading[o] == w.reading[o] && w'.hold.live[o] == h1.live[o]
    requires forall o :: InCall(w', o) || o in w.stuck || Unstamped(w, o) ==> ReadsOf(w, o) <= ReadsOf(w', o)
    ensures Inv(w')
  {
    hide Covered, StampCovers, Succeeds, StampsCarried, CallsCarried, NewItemsCovered, ItemCovered, Records;
    var q := w.calls[c].0;
    SignalledGrows(w.hold.queues, q);
    StampingCarries(w.hold, h1, q, w.calls[c].1);
    StampingSignalled(w.hold, h1, q, w.calls[c].1);
    FewerStampsSignalled(h1, w'.hold);
    CarriedTwice(w.hold, h1, w'.hold, q);
    LeavingCallsCarried(w, w', c, h1);
    StampedRecords(w, w', h1);
    OneSignalMore(w, w', q);
    FewerCallers(w, w', c);
    CarefulKeeps(w, w');
  }

  lemma FewerStampsSignalled(h: Hold, h': Hold)
    requires StampsSignalled(h) && h'.queues == h.queues
    requires forall s :: Stamped(h', s) ==> Stamped(h, s)
    ensures StampsSignalled(h')
  {}

  lemma OneSignalMore(w: World, w': World, q: QueueId)
    requires w'.hold.queues == Signalled(w.hold.queues, q)
    ensures NewItemsCovered(w, w')
  {
    NoNewItems(w, w');
  }

  lemma FewerCallers(w: World, w': World, c: Call)
    requires CallersNotStuck(w) && w'.calls == w.calls - {c} && w'.stuck == w.stuck
    ensures CallersNotStuck(w')
  {}

  lemma StampedRecords(w: World, w': World, h1: Hold)
    requires Records(w) && h1.live.Keys == w.hold.live.Keys
    requires forall o :: o in w.hold.live ==> SameNames(w.hold.live[o], h1.live[o])
    requires w'.reading.Keys == w'.hold.live.Keys <= w.reading.Keys
    requires forall o :: o in w'.reading ==> w'.reading[o] == w.reading[o] && w'.hold.live[o] == h1.live[o]
    ensures Records(w')
  {
    forall o, r | o in w'.reading ensures r in w'.reading[o] <==> Names(w'.hold.live[o], r) {
      assert SameNames(w.hold.live[o], h1.live[o]);
    }
  }

  lemma LeavingCallsCarried(w: World, w': World, c: Call, h1: Hold)
    requires Inv(w) && c in w.calls
    requires StampedBy(w.hold, h1, w.calls[c].0, w.calls[c].1)
    requires w'.calls == w.calls - {c} && w'.stuck == w.stuck
    requires w.unstamped - Sent(w.calls[c].0, w.calls[c].1) <= w'.unstamped <= w.unstamped
    requires forall o :: InCall(w', o) || o in w.stuck || Unstamped(w, o) ==> ReadsOf(w, o) <= ReadsOf(w', o)
    requires forall p, r :: StampCovers(h1, p, |QueueAt(w.hold.queues, p).items|, r)
               ==> StampCovers(w'.hold, p, |QueueAt(w.hold.queues, p).items|, r)
    ensures CallsCarried(w, w')
  {
    var (q, owners) := w.calls[c];
    forall p, o, r | CallCovers(w, p, o) && r in ReadsOf(w, o) && !CallCovers(w', p, o)
      ensures StampCovers(w'.hold, p, |QueueAt(w.hold.queues, p).items|, r)
    {
      CallRemoved(w, w', c, p, o);
      StampingCovers(w.hold, h1, q, owners, o, r);
    }
    forall p: QueueId, o: Owner | CallCovers(w', p, o) ensures ReadsOf(w, o) <= ReadsOf(w', o) {
      if (p, o) in w'.unstamped { assert Unstamped(w, o); }
    }
  }

  lemma LeaveOnceKeeps(w: World, c: Call, ok: bool)
    requires Inv(w) && Enabled(w, LeaveOnce(c, ok))
    ensures Inv(Step(w, LeaveOnce(c, ok)))
  {
    hide Covered;
    var w' := Step(w, LeaveOnce(c, ok));
    var (q, owners) := w.calls[c];
    var o := owners[0];
    var h := w.hold;
    assert owners == [o];
    if !ok {
      assert CallsCarried(w, w') by {
        forall p, x | CallCovers(w, p, x) ensures CallCovers(w', p, x) {
          CallRemoved(w, w', c, p, x);
        }
      }
      NoNewItems(w, w');
      CoveredAcross(w, w');
    } else if o in h.live {
      var qs := Signalled(h.queues, q);
      var value := LastSignal(qs[q].items);
      var h1 := Hold(StampOwners(qs, h.live, owners, q, value), h.ending, qs);
      OneOwner(qs, h.live, o, q, value);
      OnceLeaves(w, w', c, h1);
    } else {
      assert o !in w.reading;
      NothingLeaves(w, w', c, owners);
    }
  }

  lemma OneOwner(qs: Queues, live: map<Owner, seq<Stamp>>, o: Owner, q: QueueId, value: nat)
    requires o in live
    ensures StampOwners(qs, live, [o], q, value) == live[o := StampUses(qs, live[o], q, value)]
  {
    assert [o][..0] == [];
    assert StampOwners(qs, live, [o][..0], q, value) == live;
  }

  lemma OnceLeaves(w: World, w': World, c: Call, h1: Hold)
    requires Inv(w) && Enabled(w, LeaveOnce(c, true))
    requires StampedBy(w.hold, h1, w.calls[c].0, w.calls[c].1)
    requires
      var o := w.calls[c].1[0];
      w' == w.(hold := End(h1, o), calls := w.calls - {c}, reading := w.reading - {o})
    ensures Inv(w')
  {
    hide Covered, StampsCarried, Stamped, StampsSignalled, QueuesValid;
    var o := w.calls[c].1[0];
    EndCarries(h1, o);
    assert h1.live.Keys == w.hold.live.Keys;
    forall x | InCall(w', x) || x in w.stuck || Unstamped(w, x)
      ensures ReadsOf(w, x) <= ReadsOf(w', x)
    {
      assert x != o;
    }
    AfterStamping(w, w', c, h1);
  }

  lemma StepKeeps(w: World, a: Action)
    requires Inv(w) && Enabled(w, a)
    ensures Inv(Step(w, a))
  {
    match a {
      case Use(r, o) => UseKeeps(w, r, o);
      case Enter(c, q, owners) => EnterKeeps(w, c, q, owners);
      case Execute(c, o) => ExecuteKeeps(w, c, o);
      case Leave(c, ok) => LeaveKeeps(w, c, ok);
      case LeaveOnce(c, ok) => LeaveOnceKeeps(w, c, ok);
      case Detach(o) => DetachKeeps(w, o);
      case Advance(q) => AdvanceKeeps(w, q);
    }
  }

  lemma {:induction false} EveryRunKeeps(actions: seq<Action>)
    requires Runs(actions)
    ensures Inv(After(actions))
    decreases |actions|
  {
    hide Inv, Step;
    if actions == [] {
      assert Inv(START) by { StartKeeps(); }
    } else {
      EveryRunKeeps(actions[..|actions| - 1]);
      StepKeeps(After(actions[..|actions| - 1]), actions[|actions| - 1]);
    }
  }

  lemma StartKeeps()
    ensures Inv(START)
  {}

  // --- the theorems ---------------------------------------------------------------------

  /** No recording that reads `res` can still be submitted, and every submission of one is over. */
  ghost predicate Finished(w: World, res: Res) {
    && (forall o :: o in w.reading ==> res !in w.reading[o])
    && (forall q, i ::
          (q in w.hold.queues && 0 <= i < |w.hold.queues[q].items| && w.hold.queues[q].items[i].Run?
           && res in w.hold.queues[q].items[i].work.reading) ==> i < w.hold.queues[q].done)
  }

  lemma IdleMeansFinished(w: World, res: Res)
    requires Inv(w) && !BusyIn(w.hold, res)
    ensures Finished(w, res)
  {
    forall o | o in w.reading ensures res !in w.reading[o] {
      assert !Names(w.hold.live[o], res);
    }
    forall q, i | q in w.hold.queues && 0 <= i < |w.hold.queues[q].items| && w.hold.queues[q].items[i].Run?
                  && res in w.hold.queues[q].items[i].work.reading
      ensures i < w.hold.queues[q].done
    {
      if w.hold.queues[q].done <= i {
        assert ItemCovered(w, q, i, w.hold.queues[q].items[i].work);
        var s :| Stamped(w.hold, s) && s.res == res && s.queue == q
              && SignalFrom(QueueAt(w.hold.queues, q).items, i + 1, s.fence);
        CoveringNotDone(w.hold.queues, q, i + 1, s);
      }
    }
  }

  /** Over every run: `Busy(res)` false means the buffer can be reused. */
  lemma BusyIsSafe(actions: seq<Action>, res: Res)
    requires Runs(actions) && !BusyIn(After(actions).hold, res)
    ensures Finished(After(actions), res)
  {
    EveryRunKeeps(actions);
    IdleMeansFinished(After(actions), res);
  }

  /**
   And it does become false: when no recording that reads the buffer is left and
   the queues have run everything they were given.
   */
  lemma BusyEnds(actions: seq<Action>, res: Res)
    requires Runs(actions)
    requires forall o :: o in After(actions).reading ==> res !in After(actions).reading[o]
    requires forall q :: q in After(actions).hold.queues ==>
      After(actions).hold.queues[q].done == |After(actions).hold.queues[q].items|
    ensures !BusyIn(After(actions).hold, res)
  {
    EveryRunKeeps(actions);
    var w := After(actions);
    forall o, s | o in w.hold.live && s in w.hold.live[o] ensures s.res != res {
      assert Names(w.hold.live[o], s.res);
    }
    forall s | s in w.hold.ending ensures Done(w.hold.queues, s) {
      assert Stamped(w.hold, s);
      var r := QueueAt(w.hold.queues, s.queue);
      assert r.items[..r.done] == r.items;
    }
  }

  // --- a signal that fails ----------------------------------------------------------------

  /** A list that reads buffer 1 is submitted and the signal after it fails. */
  function FailedRun(): seq<Action> {
    [] + [Use(1, 7)] + [Enter(0, 3, [7])] + [Execute(0, 7)] + [Leave(0, false)]
  }

  lemma FailedRunRuns()
    ensures Runs(FailedRun())
    ensures
      var w := After(FailedRun());
      && w.hold.live == map[7 := [Stamp(1, 0, 0)]] && w.hold.ending == [] && Unstamped(w, 7)
      && 3 in w.hold.queues && w.hold.queues[3] == Submit(NewQueue(), Work(7, {1}))
  {
    assert ReadsOf(START, 7) + {1} == {1} && [] + [Stamp(1, 0, 0)] == [Stamp(1, 0, 0)];
    var one: seq<Action> := [] + [Use(1, 7)];
    var two := one + [Enter(0, 3, [7])];
    var three := two + [Execute(0, 7)];
    RunsNext([], Use(1, 7));
    RunsNext(one, Enter(0, 3, [7]));
    assert After(two).calls == map[0 := (3, [7])] && After(two).reading == map[7 := {1}];
    RunsNext(two, Execute(0, 7));
    RunsNext(three, Leave(0, false));
    assert (3, 7) in After(FailedRun()).unstamped;
  }

  lemma RunsNext(actions: seq<Action>, a: Action)
    requires Runs(actions) && Enabled(After(actions), a)
    ensures Runs(actions + [a]) && After(actions + [a]) == Step(After(actions), a)
  {
    hide Enabled, Step;
    assert (actions + [a])[..|actions|] == actions;
  }

  /** Resetting it now forgets that the GPU has the buffer still to read. */
  lemma FailedSignalForgets()
    ensures Runs(FailedRun())
    ensures
      var w := After(FailedRun());
      BusyIn(w.hold, 1) && !BusyIn(Detached(w, 7).hold, 1) && !Finished(Detached(w, 7), 1)
      && 3 in w.hold.queues && w.hold.queues[3].done == 0 && w.hold.queues[3].items == [Run(Work(7, {1}))]
  {
    FailedRunRuns();
    hide Runs, After;
    var w := After(FailedRun());
    assert Stamp(1, 0, 0) in w.hold.live[7];
    assert Detached(w, 7).hold.queues[3].items[0].Run?;
  }

  /** An execution of the list that got no stamp of its own still reads the buffer. */
  ghost predicate ReadsUnstamped(w: World, o: Owner, r: Res) {
    exists q: QueueId, i: nat ::
      (q, o) in w.unstamped && Running(w, o, q, i) && r in w.hold.queues[q].items[i].work.reading
  }

  /** Another list uses the buffer, or some stamp of it has a fence that has not passed. */
  ghost predicate HeldOtherwise(h: Hold, o: Owner, r: Res) {
    || (exists p :: p in h.live && p != o && Names(h.live[p], r))
    || (exists s :: Stamped(h, s) && s.res == r && !Done(h.queues, s))
  }

  /** Which is when the buffer is busy after the reset. */
  lemma BusyAfterEnd(h: Hold, o: Owner, r: Res)
    ensures BusyIn(End(h, o), r) <==> HeldOtherwise(h, o, r)
  {
    var h' := End(h, o);
    if BusyIn(h', r) {
      if p, s :| p in h'.live && s in h'.live[p] && s.res == r {
        assert s in h.live[p] && Names(h.live[p], r);
      } else {
        var s :| s in h'.ending && s.res == r && !Done(h'.queues, s);
        EndCarries(h, o);
        assert Stamped(h', s);
      }
    }
    if HeldOtherwise(h, o, r) {
      if p :| p in h.live && p != o && Names(h.live[p], r) {
        var s :| s in h.live[p] && s.res == r;
        assert p in h'.live && s in h'.live[p];
      } else {
        var s :| Stamped(h, s) && s.res == r && !Done(h.queues, s);
        EndCarries(h, o);
        assert Stamped(h', s);
      }
    }
  }

  /**
   Over every run, whatever signals failed: resetting a list leaves `Busy` right about a
   buffer exactly when no execution of the list without a stamp of its own still reads
   it, or another list uses it, or a stamp of it has still to pass.
   */
  lemma {:induction false} ResetIsSafeExactly(actions: seq<Action>, o: Owner, r: Res)
    requires Runs(actions)
    ensures
      var w := After(actions);
      (!InCall(w, o) && o !in w.stuck) ==>
        ((!BusyIn(Detached(w, o).hold, r) ==> Finished(Detached(w, o), r))
         <==> (!ReadsUnstamped(w, o, r) || HeldOtherwise(w.hold, o, r)))
  {
    hide Inv, Runs, After, BusyIn, Finished, ReadsUnstamped, HeldOtherwise;
    EveryRunKeeps(actions);
    var w := After(actions);
    BusyAfterEnd(w.hold, o, r);
    if ReadsUnstamped(w, o, r) {
      UnstampedUnfinished(w, o, r);
    } else if !InCall(w, o) && o !in w.stuck && !HeldOtherwise(w.hold, o, r) {
      ResetFinished(w, o, r);
    }
  }

  lemma UnstampedUnfinished(w: World, o: Owner, r: Res)
    requires ReadsUnstamped(w, o, r)
    ensures !Finished(Detached(w, o), r)
  {
    var q: QueueId, i: nat :| (q, o) in w.unstamped && Running(w, o, q, i)
      && r in w.hold.queues[q].items[i].work.reading;
    assert Detached(w, o).hold.queues[q].items[i].Run?;
  }

  lemma ResetFinished(w: World, o: Owner, r: Res)
    requires Inv(w) && !InCall(w, o) && o !in w.stuck && !ReadsUnstamped(w, o, r) && !HeldOtherwise(w.hold, o, r)
    ensures Finished(Detached(w, o), r)
  {
    var w' := Detached(w, o);
    forall p | p in w'.reading ensures r !in w'.reading[p] {
      assert p in w.reading && !Names(w.hold.live[p], r);
    }
    forall q, i | q in w'.hold.queues && 0 <= i < |w'.hold.queues[q].items| && w'.hold.queues[q].items[i].Run?
                  && r in w'.hold.queues[q].items[i].work.reading
      ensures i < w'.hold.queues[q].done
    {
      if w.hold.queues[q].done <= i { StillRead(w, o, r, q, i); }
    }
  }

  /** What still reads a buffer is an unstamped execution of the list, or something else holds the buffer. */
  lemma StillRead(w: World, o: Owner, r: Res, q: QueueId, i: nat)
    requires Inv(w) && !InCall(w, o) && o !in w.stuck
    requires q in w.hold.queues && w.hold.queues[q].done <= i < |w.hold.queues[q].items|
    requires w.hold.queues[q].items[i].Run? && r in w.hold.queues[q].items[i].work.reading
    ensures ReadsUnstamped(w, o, r) || HeldOtherwise(w.hold, o, r)
  {
    var work := w.hold.queues[q].items[i].work;
    assert ItemCovered(w, q, i, work);
    if StampCovers(w.hold, q, i + 1, r) {
      var s :| Stamped(w.hold, s) && s.res == r && s.queue == q
            && SignalFrom(QueueAt(w.hold.queues, q).items, i + 1, s.fence);
      CoveringNotDone(w.hold.queues, q, i + 1, s);
    } else if work.owner == o {
      assert Running(w, o, q, i);
    } else {
      assert Names(w.hold.live[work.owner], r);
    }
  }
}
