/**
 The mutable `State` of `proxy/gpu_hold.cpp`: the calls loop over owners, stamps
 and ended stamps as the source does, and each leaves exactly the state the
 functions of `GpuHold` describe, over which the protocol is proved.
 */
module GpuHoldState {
  import opened GpuQueue
  import opened GpuHold

  /** The fence value kept for a queue is the last one signalled on it. */
  ghost predicate FenceMatches(qs: Queues, fences: map<QueueId, nat>, q: QueueId) {
    LastSignal(QueueAt(qs, q).items) == if q in fences then fences[q] else 0
  }

  ghost predicate FencesMatch(qs: Queues, fences: map<QueueId, nat>) {
    forall q :: FenceMatches(qs, fences, q)
  }

  lemma SignalMatches(qs: Queues, fences: map<QueueId, nat>, q: QueueId, value: nat)
    requires QueuesValid(qs) && FencesMatch(qs, fences)
    requires value == LastSignal(QueueAt(qs, q).items) + 1
    ensures value == LastSignal(Signalled(qs, q)[q].items)
    ensures QueuesValid(Signalled(qs, q)) && FencesMatch(Signalled(qs, q), fences[q := value])
  {
    hide LastSignal, FenceMatches, QueuesValid, SignalNext, Signalled;
    NextValue(qs, q);
    QueuesStayValid(qs, q);
    var qs', fences' := Signalled(qs, q), fences[q := value];
    forall p ensures FenceMatches(qs', fences', p) {
      FenceMatchesAfter(qs, fences, q, value, p);
    }
  }

  lemma FenceMatchesAfter(qs: Queues, fences: map<QueueId, nat>, q: QueueId, value: nat, p: QueueId)
    requires QueuesValid(qs) && FenceMatches(qs, fences, p)
    requires value == LastSignal(QueueAt(qs, q).items) + 1
    ensures FenceMatches(Signalled(qs, q), fences[q := value], p)
  {
    hide LastSignal, GpuQueue.Valid, SignalWith, SignalNext;
    if p == q { NextValue(qs, q); }
  }

  lemma NextValue(qs: Queues, q: QueueId)
    requires QueuesValid(qs)
    ensures LastSignal(Signalled(qs, q)[q].items) == LastSignal(QueueAt(qs, q).items) + 1
  {
    assert GpuQueue.Valid(QueueAt(qs, q)) by { NewQueueValid(); }
    hide LastSignal, GpuQueue.Valid, SignalWith;
    SignalValid(QueueAt(qs, q));
  }

  lemma NewQueueValid()
    ensures GpuQueue.Valid(NewQueue<Work>())
  {}

  lemma NothingSignalled()
    ensures QueuesValid(map[]) && FencesMatch(map[], map[])
  {
    forall q ensures FenceMatches(map[], map[], q) {}
  }

  lemma QueuesStayValid(qs: Queues, q: QueueId)
    requires QueuesValid(qs)
    ensures QueuesValid(Signalled(qs, q))
  {
    SignalledGrows(qs, q);
  }

  class State {
    var live: map<Owner, seq<Stamp>>
    var ending: seq<Stamp>
    var fences: map<QueueId, nat>   // per queue, the last value signalled on its fence
    var queues: Queues              // D3D12's side: what each queue was given, and how far it is

    ghost function Hold(): GpuHold.Hold
      reads this
    {
      GpuHold.Hold(live, ending, queues)
    }

    ghost predicate Valid()
      reads this
    {
      QueuesValid(queues) && FencesMatch(queues, fences)
    }

    constructor ()
      ensures Valid() && Hold() == START.hold
    {
      live, ending, fences, queues := map[], [], map[], map[];
      NothingSignalled();
    }

    /**
     Signals a new value on `q`, or returns 0. `created` and `signalled` are whether D3D12
     made the queue's fence, when it had none, and let it be signalled.
     */
    method SignalLocked(q: QueueId, created: bool, signalled: bool) returns (value: nat)
      requires Valid()
      modifies this`fences, this`queues
      ensures Valid()
      ensures value > 0 <==> signalled && (created || q in old(fences))
      ensures value > 0 ==> queues == Signalled(old(queues), q) && value == LastSignal(queues[q].items)
      ensures value == 0 ==> queues == old(queues) && fences == old(fences)
    {
      hide LastSignal, Rising, QueuesValid;
      if (q !in fences && !created) || !signalled { return 0; }
      assert FenceMatches(queues, fences, q);
      if q !in fences { fences := fences[q := 0]; }
      value := fences[q] + 1;
      SignalMatches(old(queues), old(fences), q, value);
      queues := queues[q := SignalWith(QueueAt(queues, q), value)];
      fences := fences[q := value];
      assert fences == old(fences)[q := value];
    }

    method DoneLocked(s: Stamp) returns (done: bool)
      ensures done == Done(queues, s)
    {
      done := Completed(QueueAt(queues, s.queue)) >= s.fence;
    }

    /** A stamp still running on another queue is kept; every one is replaced. */
    method StampLocked(uses: seq<Stamp>, q: QueueId, value: nat) returns (stamped: seq<Stamp>)
      ensures stamped == StampUses(queues, uses, q, value)
    {
      var extra: seq<Stamp> := [];
      var again := uses;
      for i := 0 to |uses|
        invariant |again| == |uses|
        invariant forall k :: 0 <= k < |uses| ==>
          again[k] == if k < i then Stamp(uses[k].res, q, value) else uses[k]
        invariant extra == Keep(queues, Elsewhere(q), uses[..i])
      {
        var s := uses[i];
        assert uses[..i + 1][..i] == uses[..i];
        if s.fence > 0 && s.queue != q {
          var done := DoneLocked(s);
          if !done { extra := extra + [s]; }
        }
        again := again[i := Stamp(s.res, q, value)];
      }
      assert uses[..|uses|] == uses;
      assert again == Restamp(uses, q, value);
      stamped := again + extra;
    }

    method EndLocked(owner: Owner)
      modifies this`live, this`ending
      ensures Hold() == End(old(Hold()), owner)
    {
      if owner !in live { return; }
      var uses := live[owner];
      var before := ending;
      for i := 0 to |uses|
        invariant ending == before + Keep(queues, Submitted, uses[..i])
        invariant live == old(live)
      {
        assert uses[..i + 1][..i] == uses[..i];
        if uses[i].fence > 0 {
          var done := DoneLocked(uses[i]);
          if !done { ending := ending + [uses[i]]; }
        }
      }
      assert uses[..|uses|] == uses;
      live := live - {owner};
    }

    method SweepLocked()
      modifies this`ending
      ensures Hold() == Sweep(old(Hold()))
    {
      var still: seq<Stamp> := [];
      for i := 0 to |ending|
        invariant ending == old(ending)
        invariant still == Keep(queues, All, ending[..i])
      {
        assert ending[..i + 1][..i] == ending[..i];
        var done := DoneLocked(ending[i]);
        if !done { still := still + [ending[i]]; }
      }
      assert ending[..|ending|] == ending;
      ending := still;
    }

    method Use(res: Res, owner: Owner)
      modifies this`live
      ensures Hold() == UseIn(old(Hold()), res, owner)
    {
      if owner !in live { live := live[owner := []]; }
      var uses := live[owner];
      for i := 0 to |uses|
        invariant forall k :: 0 <= k < i ==> uses[k].res != res
      {
        if uses[i].res == res {
          assert uses[i] in uses;
          return;
        }
      }
      live := live[owner := uses + [Stamp(res, 0, 0)]];
    }

    method AfterSubmit(q: QueueId, owners: seq<Owner>, created: bool, signalled: bool)
      requires Valid()
      modifies this
      ensures Valid()
      ensures Hold() == AfterSubmitIn(old(Hold()), q, owners, signalled && (created || q in old(fences)))
    {
      hide LastSignal, Rising, Sweep, FencesMatch, QueuesValid;
      if live == map[] && ending == [] { return; }
      var any := false;
      for i := 0 to |owners|
        invariant any <==> exists k :: 0 <= k < i && owners[k] in live
      {
        if owners[i] in live { any := true; }
      }
      assert any <==> exists o :: o in owners && o in live;
      if any {
        var value := SignalLocked(q, created, signalled);
        if value > 0 { StampAll(q, owners, value); }
      }
      SweepLocked();
    }

    /** Its loop over the submitted lists. */
    method StampAll(q: QueueId, owners: seq<Owner>, value: nat)
      modifies this`live
      ensures live == StampOwners(queues, old(live), owners, q, value)
    {
      for i := 0 to |owners|
        invariant live == StampOwners(queues, old(live), owners[..i], q, value)
      {
        assert owners[..i + 1][..i] == owners[..i];
        if owners[i] in live {
          var stamped := StampLocked(live[owners[i]], q, value);
          live := live[owners[i] := stamped];
        }
      }
      assert owners[..|owners|] == owners;
    }

    /** A shim-owned list that went out once. */
    method SubmittedOnce(q: QueueId, owner: Owner, created: bool, signalled: bool)
      requires Valid()
      modifies this
      ensures Valid()
      ensures Hold() == SubmittedOnceIn(old(Hold()), q, owner, signalled && (created || q in old(fences)))
    {
      if owner !in live { return; }
      hide LastSignal, Rising, FencesMatch, QueuesValid, StampUses, End;
      var value := SignalLocked(q, created, signalled);
      if value > 0 { StampAndEnd(q, owner, value); }
    }

    method StampAndEnd(q: QueueId, owner: Owner, value: nat)
      requires owner in live
      modifies this`live, this`ending
      ensures Hold() == End(GpuHold.Hold(old(live)[owner := StampUses(queues, old(live)[owner], q, value)],
                                         old(ending), queues), owner)
    {
      hide StampUses, End;
      var stamped := StampLocked(live[owner], q, value);
      live := live[owner := stamped];
      EndLocked(owner);
    }

    method Detach(owner: Owner)
      requires Valid()
      modifies this`live, this`ending
      ensures Hold() == End(old(Hold()), owner)
    {
      EndLocked(owner);
    }

    method Busy(res: Res) returns (busy: bool)
      ensures busy <==> BusyIn(Hold(), res)
    {
      var rest := live.Keys;
      while rest != {}
        invariant rest <= live.Keys
        invariant forall o, s :: o in live && o !in rest && s in live[o] ==> s.res != res
        decreases |rest|
      {
        var o :| o in rest;
        var uses := live[o];
        for i := 0 to |uses|
          invariant forall k :: 0 <= k < i ==> uses[k].res != res
        {
          if uses[i].res == res {
            assert uses[i] in live[o];
            return true;
          }
        }
        rest := rest - {o};
      }
      for i := 0 to |ending|
        invariant forall k :: 0 <= k < i ==> ending[k].res != res || Done(queues, ending[k])
      {
        if ending[i].res == res {
          var done := DoneLocked(ending[i]);
          if !done {
            assert ending[i] in ending;
            return true;
          }
        }
      }
      return false;
    }
  }
}
