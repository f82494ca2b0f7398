/**
 The pooled dispatch-only lists of `SubmitSegmented`: the submit path signals
 after each dispatch without waiting, and takes a list back from the pool only
 when the fence has passed the value recorded with it.
 */
module DispatchPool {
  import opened GpuQueue

  /** What the list's queue is given: a segment, a pooled dispatch list, or someone else's work. */
  datatype Work = Segment(id: nat) | Slot(slot: nat) | Other

  /** `pool[k]`: the fence value recorded when slot `k` was last submitted, 0 for a fresh one. */
  datatype Pool = Pool(queue: Queue<Work>, pool: seq<nat>)

  /** The first slot whose fence value has passed, or a new one. */
  function FirstFree(pool: seq<nat>, done: nat): (k: nat)
    ensures k <= |pool|
    ensures k < |pool| ==> pool[k] <= done
    ensures forall j :: 0 <= j < k ==> pool[j] > done
  {
    if pool == [] then 0
    else if pool[0] <= done then 0
    else 1 + FirstFree(pool[1..], done)
  }

  function Take(s: Pool): nat { FirstFree(s.pool, Completed(s.queue)) }

  /** Reset the slot's allocator, record, submit, signal, remember the value. */
  function IssueOne(s: Pool): Pool {
    var k := Take(s);
    var q := SignalNext(Submit(s.queue, Slot(k)));
    var grown := if k < |s.pool| then s.pool else s.pool + [0];
    Pool(q, grown[k := LastSignal(q.items)])
  }

  datatype Action = RunSegment(id: nat) | Dispatch | Elsewhere | GpuAdvances

  function Step(s: Pool, a: Action): Pool {
    match a
    case RunSegment(id) => s.(queue := SignalNext(Submit(s.queue, Segment(id))))
    case Dispatch => IssueOne(s)
    case Elsewhere => s.(queue := Submit(s.queue, Other))
    case GpuAdvances => s.(queue := Advance(s.queue))
  }

  function After(actions: seq<Action>): Pool {
    if actions == [] then Pool(NewQueue(), [])
    else Step(After(actions[..|actions| - 1]), actions[|actions| - 1])
  }

  /** A signal of at most `value` follows position `i`. */
  ghost predicate SignalledBy(items: seq<Item<Work>>, i: nat, value: nat) {
    exists j :: i < j < |items| && items[j].Signal? && items[j].value <= value
  }

  /** Every submission of a slot is followed by a signal its recorded value waits for. */
  ghost predicate Inv(s: Pool) {
    && Valid(s.queue)
    && forall i :: 0 <= i < |s.queue.items| && s.queue.items[i].Run? && s.queue.items[i].work.Slot? ==>
         var k := s.queue.items[i].work.slot;
         k < |s.pool| && SignalledBy(s.queue.items, i, s.pool[k])
  }

  lemma KeepsOnAppend(items: seq<Item<Work>>, items': seq<Item<Work>>, i: nat, value: nat, value': nat)
    requires items <= items' && value <= value' && SignalledBy(items, i, value)
    ensures SignalledBy(items', i, value')
  {
    var j :| i < j < |items| && items[j].Signal? && items[j].value <= value;
    assert items'[j] == items[j];
  }

  lemma SegmentKeeps(s: Pool, id: nat)
    requires Inv(s)
    ensures Inv(Step(s, RunSegment(id)))
  {
    var s' := Step(s, RunSegment(id));
    SubmitValid(s.queue, Segment(id));
    SignalValid(Submit(s.queue, Segment(id)));
    hide LastSignal, Valid;
    var items, items' := s.queue.items, s'.queue.items;
    var value := LastSignal(Submit(s.queue, Segment(id)).items) + 1;
    assert items' == items + [Run(Segment(id)), Signal(value)];
    forall i | 0 <= i < |items'| && items'[i].Run? && items'[i].work.Slot?
      ensures items'[i].work.slot < |s.pool| && SignalledBy(items', i, s.pool[items'[i].work.slot])
    {
      assert items'[i] == items[i];
      var k := items[i].work.slot;
      KeepsOnAppend(items, items', i, s.pool[k], s.pool[k]);
    }
  }

  lemma DispatchKeeps(s: Pool)
    requires Inv(s)
    ensures Inv(Step(s, Dispatch))
  {
    var s' := Step(s, Dispatch);
    var n, k0 := |s.queue.items|, Take(s);
    SubmitValid(s.queue, Slot(k0));
    SignalValid(Submit(s.queue, Slot(k0)));
    var items, items' := s.queue.items, s'.queue.items;
    var value := LastSignal(items');
    assert items' == items + [Run(Slot(k0)), Signal(value)];
    LastSignalFound(items');
    forall i | 0 <= i < |items'| && items'[i].Run? && items'[i].work.Slot?
      ensures items'[i].work.slot < |s'.pool|
      ensures SignalledBy(items', i, s'.pool[items'[i].work.slot])
    {
      var k := items'[i].work.slot;
      if i < n {
        assert items'[i] == items[i];
        var j :| i < j < |items| && items[j].Signal? && items[j].value <= s.pool[k];
        assert items'[j] == items[j];
        assert items'[j].value <= s'.pool[k];
      } else {
        assert items'[n + 1] == Signal(value);
      }
    }
  }

  lemma ElsewhereKeeps(s: Pool)
    requires Inv(s)
    ensures Inv(Step(s, Elsewhere)) && Inv(Step(s, GpuAdvances))
  {
    var s' := Step(s, Elsewhere);
    SubmitValid(s.queue, Other);
    AdvanceValid(s.queue);
    forall i | 0 <= i < |s'.queue.items| && s'.queue.items[i].Run? && s'.queue.items[i].work.Slot?
      ensures SignalledBy(s'.queue.items, i, s.pool[s'.queue.items[i].work.slot])
    {
      var k := s.queue.items[i].work.slot;
      KeepsOnAppend(s.queue.items, s'.queue.items, i, s.pool[k], s.pool[k]);
    }
  }

  lemma {:induction false} EveryRunKeeps(actions: seq<Action>)
    ensures Inv(After(actions))
    decreases |actions|
  {
    if actions != [] {
      var s, a := After(actions[..|actions| - 1]), actions[|actions| - 1];
      EveryRunKeeps(actions[..|actions| - 1]);
      match a {
        case RunSegment(id) => SegmentKeeps(s, id);
        case Dispatch => DispatchKeeps(s);
        case _ => ElsewhereKeeps(s);
      }
    }
  }

  /** Every submission of slot `k` is over. */
  ghost predicate SlotIdle(q: Queue<Work>, k: nat) {
    forall i :: 0 <= i < |q.items| && q.items[i] == Run(Slot(k)) ==> i < q.done
  }

  lemma FreeSlotIdle(s: Pool, k: nat)
    requires Inv(s) && (k < |s.pool| ==> s.pool[k] <= Completed(s.queue))
    ensures SlotIdle(s.queue, k)
  {
    forall i | 0 <= i < |s.queue.items| && s.queue.items[i] == Run(Slot(k)) ensures i < s.queue.done {
      assert s.queue.items[i].work.slot == k;
      var j :| i < j < |s.queue.items| && s.queue.items[j].Signal? && s.queue.items[j].value <= s.pool[k];
      PassedMeansRun(s.queue, j);
    }
  }

  /**
   Over any number of split submissions, whatever else the queue is given and
   however far behind the GPU is: the list and allocator about to be reset have
   run every time they were submitted.
   */
  lemma NeverResetWhileRunning(actions: seq<Action>)
    ensures SlotIdle(After(actions).queue, Take(After(actions)))
  {
    EveryRunKeeps(actions);
    FreeSlotIdle(After(actions), Take(After(actions)));
  }

  /** The pool as `Dxr11CommandList` keeps it. */
  class Submitter {
    var queue: Queue<Work>
    var pool: seq<nat>
    var fenceValue: nat

    ghost function State(): Pool
      reads this
    {
      Pool(queue, pool)
    }

    ghost predicate Valid()
      reads this
    {
      Inv(State()) && fenceValue == LastSignal(queue.items)
    }

    constructor ()
      ensures Valid() && State() == After([])
    {
      queue, pool, fenceValue := NewQueue(), [], 0;
    }

    method Signal() returns (value: nat)
      requires GpuQueue.Valid(queue) && fenceValue == LastSignal(queue.items)
      modifies this`queue, this`fenceValue
      ensures queue == SignalNext(old(queue)) && GpuQueue.Valid(queue)
      ensures value == fenceValue == LastSignal(queue.items)
    {
      SignalValid(queue);
      fenceValue := fenceValue + 1;
      queue := SignalWith(queue, fenceValue);
      value := fenceValue;
    }

    /** Waits for the fence while the GPU gets on with it. */
    method Wait(value: nat)
      requires Valid() && value <= fenceValue
      modifies this`queue
      ensures Valid() && Completed(queue) >= value
      ensures queue == old(queue).(done := queue.done) && queue.done >= old(queue.done)
    {
      while Completed(queue) < value
        invariant Valid() && queue == old(queue).(done := queue.done) && queue.done >= old(queue.done)
        decreases |queue.items| - queue.done
      {
        assert queue.items[..|queue.items|] == queue.items;
        ElsewhereKeeps(State());
        queue := Advance(queue);
      }
    }

    /** A segment goes out and is waited for: its copies have run when the arguments are read. */
    method RunSegment(id: nat) returns (ghost at: nat)
      requires Valid()
      modifies this
      ensures Valid() && pool == old(pool)
      ensures queue.items == Step(old(State()), Action.RunSegment(id)).queue.items
      ensures at < queue.done && queue.items[at] == Run(Segment(id)) && at == |old(queue.items)|
    {
      SegmentKeeps(State(), id);
      at := |queue.items|;
      SubmitValid(queue, Segment(id));
      queue := Submit(queue, Segment(id));
      var value := Signal();
      Wait(value);
      PassedMeansRun(queue, at + 1);
    }

    /** Takes a list the GPU is done with, resets it, submits it again. Nothing blocks. */
    method Dispatch() returns (slot: nat)
      requires Valid()
      modifies this
      ensures Valid() && State() == Step(old(State()), Action.Dispatch)
      ensures slot == Take(old(State())) && SlotIdle(old(queue), slot)
    {
      DispatchKeeps(State());
      var done := Completed(queue);
      slot := 0;
      while slot < |pool| && pool[slot] > done
        invariant 0 <= slot <= |pool|
        invariant FirstFree(pool, done) == slot + FirstFree(pool[slot..], done)
      {
        slot := slot + 1;
      }
      assert slot == Take(State());
      FreeSlotIdle(State(), slot);
      if slot == |pool| { pool := pool + [0]; }
      SubmitValid(queue, Slot(slot));
      queue := Submit(queue, Slot(slot));
      var value := Signal();
      pool := pool[slot := value];
    }
  }
}
