/**
 The protocol `as_tracker.cpp` and `as_decode.cpp` share: the GPU copies something
 for the CPU, in a list the application records; the copy may be read only once it
 has run. It is STAMPED by a submission of the list that recorded it, with a fence
 signalled on the same queue after it; a list being split waits for its segments.
 */
module Readback {
  import opened GpuQueue

  /**
   A copy that was recorded: by which list, in which of its recordings, in which
   segment of that. `fence` is 0 until a submission stamps it.
   */
  datatype Read<+K> = Read(id: nat, key: K, owner: nat, recording: nat, segment: nat, queue: nat, fence: nat)

  /** Of a list being executed: segments submitted, how long the queue was then, segments waited for. */
  datatype Progress = Progress(next: nat, mark: nat, waited: nat)

  /** One `ExecuteCommandLists` on its way, up to the end of the hook after it. */
  datatype Call = Call(queue: nat, lists: map<nat, Progress>)

  /** A list as it is recorded: how often it was reset, and the segments closed since. */
  datatype Listing = Listing(recording: nat, segment: nat)

  /** Work on a queue is the set of copies it contains; `home` is the one queue a list is submitted to. */
  datatype Gpu = Gpu(queues: map<nat, Queue<set<nat>>>, calls: map<nat, Call>, lists: map<nat, Listing>,
                     home: map<nat, nat>)

  const IDLE := Gpu(map[], map[], map[], map[])

  function ListOf(g: Gpu, owner: nat): Listing {
    if owner in g.lists then g.lists[owner] else Listing(0, 0)
  }

  predicate HomeIs(g: Gpu, owner: nat, queue: nat) {
    owner in g.home && g.home[owner] == queue
  }

  // --- what has run ------------------------------------------------------------------

  ghost predicate RunAt(q: Queue<set<nat>>, id: nat, i: int) {
    0 <= i < |q.items| && q.items[i].Run? && id in q.items[i].work
  }

  ghost predicate HasRunOn(q: Queue<set<nat>>, id: nat) {
    exists i :: i < q.done && RunAt(q, id, i)
  }

  /** The GPU has executed the copy. */
  ghost predicate HasRun(g: Gpu, id: nat) {
    exists q :: q in g.queues && HasRunOn(g.queues[q], id)
  }

  ghost predicate SentBy(q: Queue<set<nat>>, id: nat, mark: nat) {
    exists i :: i < mark && RunAt(q, id, i)
  }

  /** The copy, and after it on the same queue the signal of that value. */
  ghost predicate SentThen(q: Queue<set<nat>>, id: nat, fence: nat) {
    exists i, j :: i < j < |q.items| && RunAt(q, id, i) && q.items[j] == Signal(fence)
  }

  predicate Passed<K>(g: Gpu, r: Read<K>) {
    r.fence != 0 && r.queue in g.queues && Completed(g.queues[r.queue]) >= r.fence
  }

  // --- the invariant -------------------------------------------------------------------

  /** Is the copy among the first `n` segments of what the list now holds, or in an earlier recording? */
  predicate Before<K>(g: Gpu, r: Read<K>, n: nat) {
    if r.recording < ListOf(g, r.owner).recording then n > 0 else r.segment < n
  }

  ghost predicate InCall<K>(g: Gpu, call: Call, r: Read<K>) {
    && call.queue in g.queues
    && (r.owner in call.lists ==>
          var p := call.lists[r.owner];
          && HomeIs(g, r.owner, call.queue)
          && (Before(g, r, p.next) ==> SentBy(g.queues[call.queue], r.id, p.mark))
          && (Before(g, r, p.waited) ==> HasRunOn(g.queues[call.queue], r.id)))
  }

  /** Only the current recording of a list has copies that were never submitted. */
  ghost predicate InRecording<K>(g: Gpu, r: Read<K>) {
    var l := ListOf(g, r.owner);
    && r.recording <= l.recording
    && (r.recording < l.recording ==> r.fence != 0)
    && (r.recording == l.recording ==> r.segment <= l.segment)
  }

  ghost predicate ReadOk<K>(g: Gpu, r: Read<K>) {
    && InRecording(g, r)
    && (r.fence != 0 ==>
          r.queue in g.queues && SentThen(g.queues[r.queue], r.id, r.fence) && HomeIs(g, r.owner, r.queue))
    && (forall c :: c in g.calls ==> InCall(g, g.calls[c], r))
  }

  ghost predicate GpuOk(g: Gpu) {
    && (forall q :: q in g.queues ==> Valid(g.queues[q]))
    && (forall c :: c in g.calls ==> g.calls[c].queue in g.queues)
  }

  ghost predicate AllOk<K>(g: Gpu, pending: seq<Read<K>>) {
    GpuOk(g) && forall r :: r in pending ==> ReadOk(g, r)
  }

  /** No list recorded twice under one number. */
  ghost predicate Distinct<K>(pending: seq<Read<K>>) {
    forall i, j :: 0 <= i < j < |pending| ==> pending[i].id != pending[j].id
  }

  /** A stamped copy is read only once it has run. */
  lemma PassedHasRun<K>(g: Gpu, r: Read<K>)
    requires GpuOk(g) && ReadOk(g, r) && Passed(g, r)
    ensures HasRun(g, r.id)
  {
    var q := g.queues[r.queue];
    var i, j :| i < j < |q.items| && RunAt(q, r.id, i) && q.items[j] == Signal(r.fence);
    PassedMeansRun(q, j);
    assert i < q.done && RunAt(q, r.id, i);
    assert HasRunOn(g.queues[r.queue], r.id);
  }

  /** The fence is past a read exactly when the GPU has executed a signal of that value or a later one. */
  lemma PassedExactly<K>(g: Gpu, r: Read<K>)
    requires GpuOk(g) && r.fence != 0 && r.queue in g.queues
    ensures Passed(g, r) <==> SignalRan(g.queues[r.queue], r.fence)
  {
    var q := g.queues[r.queue];
    var ran := q.items[..q.done];
    assert Valid(q);
    LastSignalFound(ran);
    if Passed(g, r) {
      var k :| 0 <= k < |ran| && ran[k] == Signal(LastSignal(ran));
      assert q.items[k] == ran[k];
    }
    if SignalRan(q, r.fence) {
      var j :| 0 <= j < q.done && q.items[j].Signal? && q.items[j].value >= r.fence;
      RunMeansPassed(q, j);
    }
  }

  ghost predicate SignalRan(q: Queue<set<nat>>, fence: nat)
    requires q.done <= |q.items|
  {
    exists j :: 0 <= j < q.done && q.items[j].Signal? && q.items[j].value >= fence
  }

  /** And one of a list being split, once its segment was waited for; or of an earlier recording. */
  lemma WaitedHasRun<K>(g: Gpu, r: Read<K>, c: nat)
    requires GpuOk(g) && ReadOk(g, r)
    requires c in g.calls && r.owner in g.calls[c].lists && Before(g, r, g.calls[c].lists[r.owner].waited)
    ensures HasRun(g, r.id)
  {
    assert InCall(g, g.calls[c], r);
    assert HasRunOn(g.queues[g.calls[c].queue], r.id);
  }

  // --- what the code does to the list of reads --------------------------------------------

  function StampOne<K>(r: Read<K>, owners: set<nat>, queue: nat, value: nat): Read<K> {
    if r.fence == 0 && r.owner in owners then r.(queue := queue, fence := value) else r
  }

  function Stamp<K>(pending: seq<Read<K>>, owners: set<nat>, queue: nat, value: nat): (s: seq<Read<K>>)
    ensures |s| == |pending| && forall i :: 0 <= i < |pending| ==> s[i] == StampOne(pending[i], owners, queue, value)
  {
    seq(|pending|, i requires 0 <= i < |pending| => StampOne(pending[i], owners, queue, value))
  }

  predicate AnyToStamp<K>(pending: seq<Read<K>>, owners: set<nat>) {
    exists i :: 0 <= i < |pending| && pending[i].fence == 0 && pending[i].owner in owners
  }

  /** The list was reset: what it recorded and never submitted will not run. */
  function Drop<K>(pending: seq<Read<K>>, owner: nat): seq<Read<K>> {
    if pending == [] then []
    else
      var n := |pending| - 1;
      Drop(pending[..n], owner) + if pending[n].fence != 0 || pending[n].owner != owner then [pending[n]] else []
  }

  lemma DistinctAppend<K>(front: seq<Read<K>>, r: Read<K>)
    requires Distinct(front) && forall k :: 0 <= k < |front| ==> front[k].id != r.id
    ensures Distinct(front + [r])
  {}

  lemma {:induction false} DropFound<K>(pending: seq<Read<K>>, owner: nat, r: Read<K>)
    ensures r in Drop(pending, owner) <==> (r in pending && (r.fence != 0 || r.owner != owner))
  {
    if pending != [] {
      var n := |pending| - 1;
      assert pending == pending[..n] + [pending[n]];
      DropFound(pending[..n], owner, r);
    }
  }

  lemma {:induction false} DropDistinct<K>(pending: seq<Read<K>>, owner: nat)
    requires Distinct(pending)
    ensures Distinct(Drop(pending, owner))
  {
    if pending != [] {
      var n := |pending| - 1;
      var front := pending[..n];
      var kept := Drop(front, owner);
      assert Distinct(front);
      DropDistinct(front, owner);
      forall k | 0 <= k < |kept| ensures kept[k].id != pending[n].id {
        DropFound(front, owner, kept[k]);
        var i :| 0 <= i < n && front[i] == kept[k];
        assert pending[i] == kept[k];
      }
      DistinctAppend(kept, pending[n]);
    }
  }

  // --- steps ------------------------------------------------------------------------------------

  /** Is the list being executed? Then it is closed, and is not reset. */
  ghost predicate Busy(g: Gpu, owner: nat) {
    exists c :: c in g.calls && owner in g.calls[c].lists
  }

  predicate CanEnter(g: Gpu, queue: nat, owners: set<nat>) {
    queue in g.queues && forall o :: o in owners && o in g.home ==> g.home[o] == queue
  }

  function Enter(g: Gpu, c: nat, queue: nat, owners: set<nat>): Gpu {
    g.(calls := g.calls[c := Call(queue, map o | o in owners :: Progress(0, 0, 0))],
       home := g.home + map o | o in owners :: queue)
  }

  /** `Reset`: what is recorded from here on is another recording. */
  function Reset(g: Gpu, owner: nat): Gpu {
    g.(lists := g.lists[owner := Listing(ListOf(g, owner).recording + 1, 0)])
  }

  /** The list is split: what is recorded from here on is in the next segment. */
  function CloseSegment(g: Gpu, owner: nat): Gpu {
    var l := ListOf(g, owner);
    g.(lists := g.lists[owner := Listing(l.recording, l.segment + 1)])
  }

  /** The copies in one segment of what the list now holds. */
  ghost function Copies<K>(g: Gpu, pending: seq<Read<K>>, owner: nat, segment: nat): set<nat> {
    set r | r in pending && r.owner == owner && r.recording == ListOf(g, owner).recording && r.segment == segment :: r.id
  }

  /** The next segment of a list goes to the queue (a list that is not split has one). */
  ghost function Exec<K>(g: Gpu, pending: seq<Read<K>>, c: nat, owner: nat): Gpu
    requires c in g.calls && owner in g.calls[c].lists && g.calls[c].queue in g.queues
  {
    var call := g.calls[c];
    var p := call.lists[owner];
    var q := Submit(g.queues[call.queue], Copies(g, pending, owner, p.next));
    g.(queues := g.queues[call.queue := q],
       calls := g.calls[c := call.(lists := call.lists[owner := p.(next := p.next + 1, mark := |q.items|)])])
  }

  /** The split waits for what it has submitted. */
  function Wait(g: Gpu, c: nat, owner: nat): Gpu
    requires c in g.calls && owner in g.calls[c].lists
  {
    var call := g.calls[c];
    var p := call.lists[owner];
    g.(calls := g.calls[c := call.(lists := call.lists[owner := p.(waited := p.next)])])
  }

  predicate Waited(g: Gpu, c: nat, owner: nat)
    requires c in g.calls && owner in g.calls[c].lists
  {
    g.calls[c].queue in g.queues && g.calls[c].lists[owner].mark <= g.queues[g.calls[c].queue].done
  }

  function Work(g: Gpu, queue: nat): Gpu
    requires queue in g.queues
  {
    g.(queues := g.queues[queue := Advance(g.queues[queue])])
  }

  /** Every segment of the call's lists has been submitted. */
  predicate AllSent(g: Gpu, c: nat)
    requires c in g.calls
  {
    forall o :: o in g.calls[c].lists ==> ListOf(g, o).segment < g.calls[c].lists[o].next
  }

  /** The hook after the call: the value it stamps with, and the signal. */
  function StampValue(g: Gpu, queue: nat): nat
    requires queue in g.queues
  {
    LastSignal(g.queues[queue].items) + 1
  }

  function Leave(g: Gpu, c: nat, signal: bool): Gpu
    requires c in g.calls && g.calls[c].queue in g.queues
  {
    var queue := g.calls[c].queue;
    g.(queues := if signal then g.queues[queue := SignalNext(g.queues[queue])] else g.queues,
       calls := map d | d in g.calls && d != c :: g.calls[d])
  }

  function LeaveReads<K>(g: Gpu, pending: seq<Read<K>>, c: nat): seq<Read<K>>
    requires c in g.calls && g.calls[c].queue in g.queues
  {
    Stamp(pending, g.calls[c].lists.Keys, g.calls[c].queue, StampValue(g, g.calls[c].queue))
  }

  // --- what every step keeps ------------------------------------------------------------------------

  ghost predicate Grows(q: Queue<set<nat>>, q': Queue<set<nat>>) {
    q.items <= q'.items && q.done <= q'.done
  }

  lemma GrowsKeeps(q: Queue<set<nat>>, q': Queue<set<nat>>, id: nat, mark: nat, fence: nat)
    requires Grows(q, q')
    ensures HasRunOn(q, id) ==> HasRunOn(q', id)
    ensures SentBy(q, id, mark) ==> SentBy(q', id, mark)
    ensures SentThen(q, id, fence) ==> SentThen(q', id, fence)
  {
    if HasRunOn(q, id) {
      var i :| i < q.done && RunAt(q, id, i);
      assert RunAt(q', id, i);
    }
    if SentBy(q, id, mark) {
      var i :| i < mark && RunAt(q, id, i);
      assert RunAt(q', id, i);
    }
    if SentThen(q, id, fence) {
      var i, j :| i < j < |q.items| && RunAt(q, id, i) && q.items[j] == Signal(fence);
      assert RunAt(q', id, i) && q'.items[j] == Signal(fence);
    }
  }

  /** Queues only grow: what has run has run. A list keeps its queue. */
  ghost predicate GpuGrows(g: Gpu, g': Gpu) {
    && (forall q :: q in g.queues ==> q in g'.queues && Grows(g.queues[q], g'.queues[q]))
    && (forall o :: o in g.home ==> HomeIs(g', o, g.home[o]))
  }

  lemma GrowsInCall<K>(g: Gpu, g': Gpu, call: Call, r: Read<K>)
    requires GpuGrows(g, g') && InCall(g, call, r) && ListOf(g', r.owner) == ListOf(g, r.owner)
    ensures InCall(g', call, r)
  {
    var q, q' := g.queues[call.queue], g'.queues[call.queue];
    if r.owner in call.lists { GrowsKeeps(q, q', r.id, call.lists[r.owner].mark, 0); }
  }

  /** With queues that only grew and calls that are among those before. */
  lemma GrowsReadOk<K>(g: Gpu, g': Gpu, r: Read<K>)
    requires GpuGrows(g, g') && ReadOk(g, r) && ListOf(g', r.owner) == ListOf(g, r.owner)
    requires forall c :: c in g'.calls ==>
      (c in g.calls && g'.calls[c] == g.calls[c]) || InCall(g', g'.calls[c], r)
    ensures ReadOk(g', r)
  {
    hide InCall;
    if r.fence != 0 {
      GrowsKeeps(g.queues[r.queue], g'.queues[r.queue], r.id, 0, r.fence);
    }
    forall c | c in g'.calls ensures InCall(g', g'.calls[c], r) {
      if c in g.calls && g'.calls[c] == g.calls[c] { GrowsInCall(g, g', g.calls[c], r); }
    }
  }

  lemma WorkKeeps<K>(g: Gpu, queue: nat, pending: seq<Read<K>>)
    requires AllOk(g, pending) && queue in g.queues
    ensures AllOk(Work(g, queue), pending) && GpuGrows(g, Work(g, queue))
  {
    hide ReadOk;
    AdvanceValid(g.queues[queue]);
    forall r | r in pending ensures ReadOk(Work(g, queue), r) { GrowsReadOk(g, Work(g, queue), r); }
  }

  lemma NewQueueKeeps<K>(g: Gpu, queue: nat, pending: seq<Read<K>>)
    requires AllOk(g, pending) && queue !in g.queues
    ensures
      var g' := g.(queues := g.queues[queue := Queue([], 0)]);
      AllOk(g', pending) && GpuGrows(g, g')
  {
    hide ReadOk;
    var g' := g.(queues := g.queues[queue := Queue([], 0)]);
    forall r | r in pending ensures ReadOk(g', r) { GrowsReadOk(g, g', r); }
  }

  lemma EnterKeeps<K>(g: Gpu, c: nat, queue: nat, owners: set<nat>, pending: seq<Read<K>>)
    requires AllOk(g, pending) && CanEnter(g, queue, owners) && c !in g.calls
    ensures AllOk(Enter(g, c, queue, owners), pending) && GpuGrows(g, Enter(g, c, queue, owners))
  {
    hide ReadOk;
    forall r | r in pending ensures ReadOk(Enter(g, c, queue, owners), r) {
      GrowsReadOk(g, Enter(g, c, queue, owners), r);
    }
  }

  lemma ExecKeeps<K>(g: Gpu, pending: seq<Read<K>>, c: nat, owner: nat)
    requires AllOk(g, pending) && c in g.calls && owner in g.calls[c].lists
    ensures AllOk(Exec(g, pending, c, owner), pending) && GpuGrows(g, Exec(g, pending, c, owner))
  {
    var g' := Exec(g, pending, c, owner);
    var call := g.calls[c];
    SubmitValid(g.queues[call.queue], Copies(g, pending, owner, call.lists[owner].next));
    forall r | r in pending ensures ReadOk(g', r) {
      hide ReadOk, InCall;
      ExecInCall(g, pending, c, owner, r);
      GrowsReadOk(g, g', r);
    }
  }

  /** A copy of an earlier recording is on the list's queue already. */
  lemma EarlierSent<K>(g: Gpu, r: Read<K>, call: Call)
    requires ReadOk(g, r) && InCall(g, call, r) && r.owner in call.lists
    requires r.recording < ListOf(g, r.owner).recording
    ensures SentBy(g.queues[call.queue], r.id, |g.queues[call.queue].items|)
  {
    var q := g.queues[r.queue];
    var i, j :| i < j < |q.items| && RunAt(q, r.id, i) && q.items[j] == Signal(r.fence);
    assert RunAt(q, r.id, i);
  }

  lemma ExecInCall<K>(g: Gpu, pending: seq<Read<K>>, c: nat, owner: nat, r: Read<K>)
    requires GpuOk(g) && c in g.calls && owner in g.calls[c].lists && r in pending
    requires ReadOk(g, r)
    ensures InCall(Exec(g, pending, c, owner), Exec(g, pending, c, owner).calls[c], r)
  {
    var g', call := Exec(g, pending, c, owner), g.calls[c];
    var q, q' := g.queues[call.queue], g'.queues[call.queue];
    assert InCall(g, call, r);
    assert Grows(q, q');
    if r.owner in call.lists {
      var p := call.lists[r.owner];
      GrowsKeeps(q, q', r.id, p.mark, 0);
      if r.owner == owner {
        if r.recording < ListOf(g, owner).recording {
          EarlierSent(g, r, call);
          SentLater(q, q', r.id, |q.items|, |q'.items|);
        } else if r.segment == p.next {
          assert RunAt(q', r.id, |q.items|);
        } else if r.segment < p.next {
          var i :| i < p.mark && RunAt(q, r.id, i);
          assert RunAt(q', r.id, i) && i < |q'.items|;
        }
      }
    }
  }

  lemma SentLater(q: Queue<set<nat>>, q': Queue<set<nat>>, id: nat, mark: nat, later: nat)
    requires SentBy(q, id, mark) && Grows(q, q') && mark <= later
    ensures SentBy(q', id, later)
  {
    var i :| i < mark && RunAt(q, id, i);
    assert RunAt(q', id, i);
  }

  lemma WaitKeeps<K>(g: Gpu, c: nat, owner: nat, pending: seq<Read<K>>)
    requires AllOk(g, pending) && c in g.calls && owner in g.calls[c].lists && Waited(g, c, owner)
    ensures AllOk(Wait(g, c, owner), pending) && GpuGrows(g, Wait(g, c, owner))
  {
    var g', call := Wait(g, c, owner), g.calls[c];
    forall r | r in pending ensures ReadOk(g', r) {
      assert InCall(g, call, r);
      if r.owner == owner && Before(g, r, call.lists[owner].next) {
        var i :| i < call.lists[owner].mark && RunAt(g.queues[call.queue], r.id, i);
        assert i < g.queues[call.queue].done;
      }
      assert InCall(g', g'.calls[c], r);
      hide ReadOk, InCall;
      GrowsReadOk(g, g', r);
    }
  }

  lemma ResetKeeps<K>(g: Gpu, owner: nat, pending: seq<Read<K>>)
    requires AllOk(g, pending) && !Busy(g, owner)
    ensures AllOk(Reset(g, owner), Drop(pending, owner)) && GpuGrows(g, Reset(g, owner))
  {
    forall r | r in Drop(pending, owner) ensures ReadOk(Reset(g, owner), r) {
      DropFound(pending, owner, r);
      assert ReadOk(g, r);
      OpenListChanges(g, Reset(g, owner), owner, r);
    }
  }

  lemma CloseKeeps<K>(g: Gpu, owner: nat, pending: seq<Read<K>>)
    requires AllOk(g, pending) && !Busy(g, owner)
    ensures AllOk(CloseSegment(g, owner), pending) && GpuGrows(g, CloseSegment(g, owner))
  {
    forall r | r in pending ensures ReadOk(CloseSegment(g, owner), r) {
      assert ReadOk(g, r);
      OpenListChanges(g, CloseSegment(g, owner), owner, r);
    }
  }

  /** A list no call executes is recorded: nothing any call is about changes. */
  lemma OpenListChanges<K>(g: Gpu, g': Gpu, owner: nat, r: Read<K>)
    requires ReadOk(g, r) && !Busy(g, owner) && g' == g.(lists := g'.lists)
    requires forall o :: o != owner ==> ListOf(g', o) == ListOf(g, o)
    requires InRecording(g', r)
    ensures ReadOk(g', r)
  {
    forall c | c in g'.calls ensures InCall(g', g'.calls[c], r) {
      assert InCall(g, g.calls[c], r) && owner !in g.calls[c].lists;
    }
  }

  lemma LeaveStamped<K>(g: Gpu, pending: seq<Read<K>>, c: nat, r: Read<K>)
    requires AllOk(g, pending) && c in g.calls && AllSent(g, c) && r in pending
    requires r.fence == 0 && r.owner in g.calls[c].lists
    ensures
      var queue := g.calls[c].queue;
      ReadOk(Leave(g, c, true), r.(queue := queue, fence := StampValue(g, queue)))
  {
    var g', queue := Leave(g, c, true), g.calls[c].queue;
    var q, q', fence := g.queues[queue], g'.queues[queue], StampValue(g, queue);
    assert ReadOk(g, r) && InCall(g, g.calls[c], r);
    var i :| i < g.calls[c].lists[r.owner].mark && RunAt(q, r.id, i);
    assert RunAt(q', r.id, i) && q'.items[|q.items|] == Signal(fence);
    assert SentThen(q', r.id, fence);
    var r' := r.(queue := queue, fence := fence);
    forall d | d in g'.calls ensures InCall(g', g'.calls[d], r') {
      assert InCall(g, g.calls[d], r);
      assert InCall(g, g.calls[d], r');
      LeaveGrows(g, c, true);
      GrowsInCall(g, g', g.calls[d], r');
    }
  }

  lemma LeaveGrows(g: Gpu, c: nat, signal: bool)
    requires GpuOk(g) && c in g.calls
    ensures GpuOk(Leave(g, c, signal)) && GpuGrows(g, Leave(g, c, signal))
    ensures Leave(g, c, signal).lists == g.lists
    ensures forall d :: d in Leave(g, c, signal).calls ==> d in g.calls && Leave(g, c, signal).calls[d] == g.calls[d]
  {
    hide LastSignal, Completed, Rising;
    SignalValid(g.queues[g.calls[c].queue]);
  }

  /** The hook stamps the reads of the lists of its call, and no others. */
  lemma LeaveKeeps<K>(g: Gpu, pending: seq<Read<K>>, c: nat, signal: bool)
    requires AllOk(g, pending) && c in g.calls && AllSent(g, c)
    ensures AllOk(Leave(g, c, signal), if signal then LeaveReads(g, pending, c) else pending)
    ensures GpuGrows(g, Leave(g, c, signal))
  {
    LeaveGrows(g, c, signal);
    assert g.calls[c].queue in g.queues;
    hide ReadOk, AllSent, Leave, GpuOk, GpuGrows, InCall;
    var g' := Leave(g, c, signal);
    var pending' := if signal then LeaveReads(g, pending, c) else pending;
    forall r' | r' in pending' ensures ReadOk(g', r') {
      var k :| 0 <= k < |pending'| && pending'[k] == r';
      var r := pending[k];
      if r' != r {
        LeaveStamped(g, pending, c, r);
      } else {
        GrowsReadOk(g, g', r);
      }
    }
  }

  /** A list records a copy only while it is open. */
  lemma NewReadOk<K>(g: Gpu, r: Read<K>)
    requires GpuOk(g) && r.fence == 0 && !Busy(g, r.owner)
    requires Listing(r.recording, r.segment) == ListOf(g, r.owner)
    ensures ReadOk(g, r)
  {
    forall c | c in g.calls ensures InCall(g, g.calls[c], r) {
      assert r.owner !in g.calls[c].lists;
    }
  }

  // --- the loops both files have, and the fences they keep ------------------------------------

  function Listed(lists: seq<nat>): set<nat> {
    set o | o in lists
  }

  /** Is there anything to stamp? Only then is a fence signalled. */
  method FindUnstamped<K>(pending: seq<Read<K>>, lists: seq<nat>) returns (any: bool)
    ensures any == AnyToStamp(pending, Listed(lists))
  {
    for i := 0 to |pending|
      invariant forall k :: 0 <= k < i ==> pending[k].fence != 0 || pending[k].owner !in lists
    {
      if pending[i].fence == 0 && pending[i].owner in lists { return true; }
    }
    any := false;
  }

  method StampSubmitted<K>(pending: seq<Read<K>>, lists: seq<nat>, queue: nat, value: nat)
    returns (stamped: seq<Read<K>>)
    ensures stamped == Stamp(pending, Listed(lists), queue, value)
  {
    stamped := pending;
    for i := 0 to |pending|
      invariant |stamped| == |pending|
      invariant forall k :: 0 <= k < i ==> stamped[k] == StampOne(pending[k], Listed(lists), queue, value)
      invariant forall k :: i <= k < |pending| ==> stamped[k] == pending[k]
    {
      if stamped[i].fence == 0 && stamped[i].owner in lists {
        stamped := stamped[i := stamped[i].(queue := queue, fence := value)];
      }
    }
  }

  method DropLoop<K>(pending: seq<Read<K>>, owner: nat) returns (still: seq<Read<K>>)
    ensures still == Drop(pending, owner)
  {
    still := [];
    for i := 0 to |pending|
      invariant still == Drop(pending[..i], owner)
    {
      assert pending[..i + 1][..i] == pending[..i];
      if pending[i].fence != 0 || pending[i].owner != owner { still := still + [pending[i]]; }
    }
    assert pending[..|pending|] == pending;
  }

  /** The value kept for a queue is the last one signalled on it. */
  ghost predicate FenceIs(g: Gpu, fences: map<nat, nat>, q: nat)
    requires q in g.queues
  {
    LastSignal(g.queues[q].items) == if q in fences then fences[q] else 0
  }

  /** And stamps are on queues that have a fence. */
  ghost predicate FencesMatch<K>(g: Gpu, fences: map<nat, nat>, pending: seq<Read<K>>) {
    && (forall q :: q in g.queues ==> FenceIs(g, fences, q))
    && (forall r :: r in pending && r.fence != 0 ==> r.queue in fences && r.queue in g.queues)
  }

  /** What `GetCompletedValue` answers. */
  ghost predicate Answers(g: Gpu, completed: map<nat, nat>) {
    forall q :: q in g.queues ==> q in completed && completed[q] == Completed(g.queues[q])
  }

  lemma LeaveFence(g: Gpu, c: nat, fences: map<nat, nat>)
    requires c in g.calls && g.calls[c].queue in g.queues && GpuOk(g)
    requires forall q :: q in g.queues ==> FenceIs(g, fences, q)
    ensures
      var g', queue := Leave(g, c, true), g.calls[c].queue;
      forall q :: q in g'.queues ==> FenceIs(g', fences[queue := StampValue(g, queue)], q)
  {
    var queue := g.calls[c].queue;
    SignalValid(g.queues[queue]);
    hide SignalNext, LastSignal, Valid;
    var g', fences' := Leave(g, c, true), fences[queue := StampValue(g, queue)];
    forall q | q in g'.queues ensures FenceIs(g', fences', q) {
      assert q in g.queues && FenceIs(g, fences, q);
    }
  }

  /** The signal of the hook is what it remembers as the queue's value. */
  lemma LeaveFences<K>(g: Gpu, c: nat, fences: map<nat, nat>, pending: seq<Read<K>>)
    requires c in g.calls && g.calls[c].queue in g.queues && GpuOk(g) && FencesMatch(g, fences, pending)
    ensures
      var queue := g.calls[c].queue;
      FencesMatch(Leave(g, c, true), fences[queue := StampValue(g, queue)], LeaveReads(g, pending, c))
  {
    hide GpuOk, FenceIs, SignalNext, LastSignal;
    LeaveFence(g, c, fences);
    var queue := g.calls[c].queue;
    var stamped := LeaveReads(g, pending, c);
    forall r | r in stamped && r.fence != 0
      ensures r.queue in fences[queue := StampValue(g, queue)] && r.queue in Leave(g, c, true).queues
    {
      var k :| 0 <= k < |stamped| && stamped[k] == r;
      assert pending[k] in pending;
    }
  }
}
