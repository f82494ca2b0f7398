/**
 The part of D3D12 every fence protocol here rests on: a queue runs its items in
 the order they were submitted, and a fence signalled on ONE queue with rising
 values has passed a value only when everything submitted before that signal
 has run. (A fence signalled on several queues would not be ordered.)
 */
module GpuQueue {
  datatype Item<+W> = Run(work: W) | Signal(value: nat)

  /** `done` items have been executed. */
  datatype Queue<+W> = Queue(items: seq<Item<W>>, done: nat)

  function NewQueue<W>(): Queue<W> { Queue([], 0) }

  /** The value of the last signal among `items`, 0 if there is none. */
  function LastSignal<W>(items: seq<Item<W>>): nat
  {
    if items == [] then 0
    else match items[|items| - 1]
         case Signal(v) => v
         case Run(_) => LastSignal(items[..|items| - 1])
  }

  /** `GetCompletedValue`: the last signal executed. */
  function Completed<W>(q: Queue<W>): nat {
    LastSignal(if q.done <= |q.items| then q.items[..q.done] else q.items)
  }

  ghost predicate Rising<W>(items: seq<Item<W>>) {
    && (forall i :: 0 <= i < |items| && items[i].Signal? ==> items[i].value > 0)
    && (forall i, j :: 0 <= i < j < |items| && items[i].Signal? && items[j].Signal? ==>
          items[i].value < items[j].value)
  }

  ghost predicate Valid<W>(q: Queue<W>) {
    q.done <= |q.items| && Rising(q.items)
  }

  function Submit<W>(q: Queue<W>, w: W): Queue<W> {
    q.(items := q.items + [Run(w)])
  }

  function SignalWith<W>(q: Queue<W>, value: nat): Queue<W> {
    q.(items := q.items + [Signal(value)])
  }

  function SignalNext<W>(q: Queue<W>): Queue<W> {
    SignalWith(q, LastSignal(q.items) + 1)
  }

  /** The GPU gets on with it. */
  function Advance<W>(q: Queue<W>): Queue<W> {
    if q.done < |q.items| then q.(done := q.done + 1) else q
  }

  lemma {:induction false} LastSignalFound<W>(items: seq<Item<W>>)
    requires Rising(items)
    ensures forall i :: 0 <= i < |items| && items[i].Signal? ==> items[i].value <= LastSignal(items)
    ensures LastSignal(items) != 0 ==>
      exists i :: 0 <= i < |items| && items[i] == Signal(LastSignal(items))
  {
    if items != [] {
      var n := |items| - 1;
      LastSignalFound(items[..n]);
      if items[n].Run? && LastSignal(items) != 0 {
        var i :| 0 <= i < n && items[..n][i] == Signal(LastSignal(items[..n]));
        assert items[i] == Signal(LastSignal(items));
      }
      forall i | 0 <= i < |items| && items[i].Signal? ensures items[i].value <= LastSignal(items) {
        if i < n { assert items[..n][i] == items[i]; }
      }
    }
  }

  /** A fence past a value: everything submitted before that signal has run. */
  lemma PassedMeansRun<W>(q: Queue<W>, j: nat)
    requires Valid(q) && j < |q.items| && q.items[j].Signal?
    requires Completed(q) >= q.items[j].value
    ensures j < q.done
  {
    var ran := q.items[..q.done];
    assert Rising(ran);
    LastSignalFound(ran);
    var k :| 0 <= k < |ran| && ran[k] == Signal(LastSignal(ran));
    assert q.items[k] == ran[k];
  }

  /** Once a signal has been executed, the fence is past its value. */
  lemma RunMeansPassed<W>(q: Queue<W>, j: nat)
    requires Valid(q) && j < q.done && q.items[j].Signal?
    ensures Completed(q) >= q.items[j].value
  {
    var ran := q.items[..q.done];
    assert Rising(ran);
    LastSignalFound(ran);
    assert ran[j] == q.items[j];
  }

  lemma SubmitValid<W>(q: Queue<W>, w: W)
    requires Valid(q)
    ensures Valid(Submit(q, w)) && LastSignal(Submit(q, w).items) == LastSignal(q.items)
    ensures Completed(Submit(q, w)) == Completed(q)
  {
    assert Submit(q, w).items[..|q.items|] == q.items;
    assert Submit(q, w).items[..q.done] == q.items[..q.done];
  }

  lemma SignalValid<W>(q: Queue<W>)
    requires Valid(q)
    ensures Valid(SignalNext(q)) && LastSignal(SignalNext(q).items) == LastSignal(q.items) + 1
    ensures Completed(SignalNext(q)) == Completed(q)
  {
    LastSignalFound(q.items);
    assert SignalNext(q).items[..q.done] == q.items[..q.done];
  }

  lemma AdvanceValid<W>(q: Queue<W>)
    requires Valid(q)
    ensures Valid(Advance(q)) && Completed(Advance(q)) >= Completed(q)
  {
    if q.done < |q.items| {
      var ran, next := q.items[..q.done], q.items[..q.done + 1];
      assert Rising(next) && next[..|next| - 1] == ran;
      LastSignalFound(next);
      LastSignalFound(ran);
      if LastSignal(ran) != 0 {
        var i :| 0 <= i < |ran| && ran[i] == Signal(LastSignal(ran));
        assert next[i] == ran[i];
      }
    }
  }
}
