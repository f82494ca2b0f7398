/**
 The compute kernel that makes the shim's copy of an application's hit group table
 (`proxy/geom_table_cs.h`, compiled from `proxy/geom_table.hlsl`), one thread per
 record. Buffers hold 32-bit words; addresses are in bytes and computed mod 2^32.
 */
module GeomTable {
  import opened Options
  import opened Labels

  const WRAP: nat := 0x1_0000_0000

  type Word = n: nat | n < 0x1_0000_0000

  function Add32(a: nat, b: nat): (r: Word)
    ensures a + b < WRAP ==> r == a + b
  {
    (a + b) % WRAP
  }

  function Mul32(a: nat, b: nat): (r: Word)
    ensures a * b < WRAP ==> r == a * b
  {
    (a * b) % WRAP
  }

  /** The four root constants; the strides, in bytes, are whole words (D3D12: multiples of 32). */
  datatype Params = Params(records: nat, srcWords: nat, dstWords: nat, groups: nat)
  {
    function SrcStride(): nat { 4 * srcWords }
    function DstStride(): nat { 4 * dstWords }
  }

  /**
   What the caller hands over: strides that D3D12 accepts, buffers as large as they
   say and within 32-bit addresses, and a label offset inside the record per group.
   */
  ghost predicate Fits(p: Params, src: seq<Word>, meta: seq<Word>, size: nat) {
    && p.srcWords > 0 && p.srcWords % 8 == 0 && p.dstWords % 8 == 0
    && Row(p.records, p.srcWords) <= |src| && 4 * |src| <= WRAP
    && Row(p.records, p.dstWords) == size && 4 * size <= WRAP
    && |meta| == 9 * p.groups + p.records && 4 * |meta| <= WRAP
    && forall k :: 0 <= k < p.groups ==> LabelFits(p, meta[9 * k + 8])
  }

  ghost predicate LabelFits(p: Params, offset: Word) {
    offset % 4 == 0 && offset / 4 < p.dstWords
  }

  /** One `Store` of a word, by its place among the words of the buffer. */
  datatype Store = Store(at: nat, value: Word)

  function Write(buf: seq<Word>, s: Store): seq<Word> {
    if s.at < |buf| then buf[s.at := s.value] else buf
  }

  function WriteAll(buf: seq<Word>, stores: seq<Store>): (r: seq<Word>)
    ensures |r| == |buf|
  {
    if stores == [] then buf
    else Write(WriteAll(buf, stores[..|stores| - 1]), stores[|stores| - 1])
  }

  // --- where a word of a record is --------------------------------------------------

  /** The first word of record `r` in rows of `width` words. */
  function Row(r: nat, width: nat): nat {
    if r == 0 then 0 else Row(r - 1, width) + width
  }

  lemma {:induction false} RowIs(r: nat, width: nat)
    ensures Row(r, width) == r * width
  {
    if r > 0 { RowIs(r - 1, width); }
  }

  lemma {:induction false} RowsInOrder(r: nat, q: nat, width: nat, i: nat)
    requires r < q && i < width
    ensures Row(r, width) + i < Row(q, width)
  {
    if r < q - 1 { RowsInOrder(r, q - 1, width, i); }
  }

  lemma OneRow(r: nat, i: nat, q: nat, j: nat, width: nat)
    requires i < width && j < width && Row(r, width) + i == Row(q, width) + j
    ensures r == q && i == j
  {
    if r < q { RowsInOrder(r, q, width, i); }
    if q < r { RowsInOrder(q, r, width, j); }
  }

  /** The address of a word of a record, as the kernel computes it, does not wrap. */
  lemma Address(r: nat, rows: nat, width: nat, i: nat, size: nat)
    requires r < rows && i < width
    requires Row(rows, width) <= size && 4 * size <= WRAP
    ensures Row(r, width) + i < size
    ensures Add32(Mul32(r, 4 * width), 4 * i) == 4 * (Row(r, width) + i)
    ensures Add32(4 * i, Mul32(r, 4 * width)) == 4 * (Row(r, width) + i)
  {
    hide Add32, Mul32, Row;
    RowsInOrder(r, rows, width, i);
    RowIs(r, width);
    assert r * (4 * width) == 4 * (r * width);
  }

  /** Nor does that of a word of the metadata. */
  lemma MetaAddress(at: nat, size: nat)
    requires at < size && 4 * size <= WRAP
    ensures Mul32(4, at) == 4 * at
  {}

  // --- what one thread stores ---------------------------------------------------------

  /** Word `i` of the copy of record `r`: the application's, then zeros. */
  function Padded(p: Params, src: seq<Word>, r: nat, i: nat): Word {
    if 4 * i < p.SrcStride() && Row(r, p.srcWords) + i < |src| then src[Row(r, p.srcWords) + i] else 0
  }

  /** Has the record group `k`'s shader identifier? */
  predicate Matches(p: Params, src: seq<Word>, meta: seq<Word>, r: nat, k: nat) {
    forall w :: 0 <= w < 8 ==> SameWord(p, src, meta, r, k, w)
  }

  predicate SameWord(p: Params, src: seq<Word>, meta: seq<Word>, r: nat, k: nat, w: nat) {
    Row(r, p.srcWords) + w < |src| && 9 * k + w < |meta| && src[Row(r, p.srcWords) + w] == meta[9 * k + w]
  }

  function FirstMatch(p: Params, src: seq<Word>, meta: seq<Word>, r: nat, n: nat): (k: Option<nat>)
    ensures k.Some? ==> k.value < n && Matches(p, src, meta, r, k.value)
    ensures k.Some? ==> forall j :: 0 <= j < k.value ==> !Matches(p, src, meta, r, j)
    ensures k.None? ==> forall j :: 0 <= j < n ==> !Matches(p, src, meta, r, j)
  {
    if n == 0 then None
    else if FirstMatch(p, src, meta, r, n - 1).Some? then FirstMatch(p, src, meta, r, n - 1)
    else if Matches(p, src, meta, r, n - 1) then Some(n - 1)
    else None
  }

  function CopyStores(p: Params, src: seq<Word>, r: nat, n: nat): (s: seq<Store>)
    ensures |s| == n && forall i :: 0 <= i < n ==> s[i] == Store(Row(r, p.dstWords) + i, Padded(p, src, r, i))
  {
    seq(n, i requires 0 <= i => Store(Row(r, p.dstWords) + i, Padded(p, src, r, i)))
  }

  ghost function LabelStore(p: Params, src: seq<Word>, meta: seq<Word>, r: nat): seq<Store>
    requires |meta| == 9 * p.groups + p.records && r < p.records
  {
    match FirstMatch(p, src, meta, r, p.groups)
    case None => []
    case Some(k) => [Store(Row(r, p.dstWords) + meta[9 * k + 8] / 4, meta[9 * p.groups + r])]
  }

  ghost function Stores(p: Params, src: seq<Word>, meta: seq<Word>, r: nat): seq<Store>
    requires |meta| == 9 * p.groups + p.records
  {
    if r < p.records then CopyStores(p, src, r, p.dstWords) + LabelStore(p, src, meta, r) else []
  }

  // --- the kernel ---------------------------------------------------------------------

  /** The first loop. It tests at the end, as the compiled form does. */
  method CopyRecord(p: Params, src: seq<Word>, ghost meta: seq<Word>, r: nat, dst: array<Word>)
    requires Fits(p, src, meta, dst.Length) && r < p.records
    modifies dst
    ensures dst[..] == WriteAll(old(dst[..]), CopyStores(p, src, r, p.dstWords))
  {
    hide Add32, Mul32, Row, Padded, WriteAll, CopyStores, LabelFits;
    ghost var was := dst[..];
    CopyStart(p, src, r, was);
    var s, d := Mul32(r, p.SrcStride()), Mul32(r, p.DstStride());
    if p.DstStride() == 0 { return; }
    var b := 0;
    ghost var i := 0;
    while true
      invariant b == 4 * i && i < p.dstWords
      invariant dst[..] == WriteAll(was, CopyStores(p, src, r, i))
      decreases p.dstWords - i
    {
      PaddedIs(p, src, meta, dst.Length, r, i);
      Address(r, p.records, p.dstWords, i, dst.Length);
      var value := if b < p.SrcStride() then src[Add32(s, b) / 4] else 0;
      dst[Add32(b, d) / 4] := value;
      CopyNext(p, src, r, i, was);
      i := i + 1;
      b := b + 4;
      if b >= p.DstStride() { break; }
    }
  }

  lemma CopyStart(p: Params, src: seq<Word>, r: nat, was: seq<Word>)
    ensures WriteAll(was, CopyStores(p, src, r, 0)) == was
  {}

  lemma CopyNext(p: Params, src: seq<Word>, r: nat, i: nat, was: seq<Word>)
    ensures WriteAll(was, CopyStores(p, src, r, i + 1))
         == Write(WriteAll(was, CopyStores(p, src, r, i)), Store(Row(r, p.dstWords) + i, Padded(p, src, r, i)))
  {
    hide Row, Padded;
    var next := CopyStores(p, src, r, i + 1);
    assert next[..i] == CopyStores(p, src, r, i);
  }

  /** What the kernel loads for a word, or the zero in its place. */
  lemma PaddedIs(p: Params, src: seq<Word>, meta: seq<Word>, size: nat, r: nat, i: nat)
    requires Fits(p, src, meta, size) && r < p.records
    ensures 4 * i < p.SrcStride() ==>
      (Add32(Mul32(r, p.SrcStride()), 4 * i) / 4 < |src|
       && Padded(p, src, r, i) == src[Add32(Mul32(r, p.SrcStride()), 4 * i) / 4])
    ensures 4 * i >= p.SrcStride() ==> Padded(p, src, r, i) == 0
  {
    assert Row(p.records, p.srcWords) <= |src| && 4 * |src| <= WRAP;
    hide Add32, Mul32, Row, Fits;
    if 4 * i < p.SrcStride() { Address(r, p.records, p.srcWords, i, |src|); }
  }

  /** What the kernel compares. */
  lemma SameWordIs(p: Params, src: seq<Word>, meta: seq<Word>, size: nat, r: nat, k: nat, w: nat)
    requires Fits(p, src, meta, size) && r < p.records && k < p.groups && w < 8
    ensures Add32(4 * w, Mul32(r, p.SrcStride())) / 4 < |src| && Mul32(4, w + 9 * k) / 4 < |meta|
    ensures SameWord(p, src, meta, r, k, w)
      <==> src[Add32(4 * w, Mul32(r, p.SrcStride())) / 4] == meta[Mul32(4, w + 9 * k) / 4]
  {
    hide Add32, Mul32, Row;
    Address(r, p.records, p.srcWords, w, |src|);
    MetaAddress(w + 9 * k, |meta|);
  }

  /** The comparison with one group: a flag over eight words, loading only while it holds. */
  method SameIdentifier(p: Params, src: seq<Word>, meta: seq<Word>, ghost size: nat, r: nat, k: nat)
    returns (same: bool)
    requires Fits(p, src, meta, size) && r < p.records && k < p.groups
    ensures same == Matches(p, src, meta, r, k)
  {
    hide Add32, Mul32, SameWord, Fits;
    var s := Mul32(r, p.SrcStride());
    same := true;
    for w := 0 to 8
      invariant same <==> forall v :: 0 <= v < w ==> SameWord(p, src, meta, r, k, v)
    {
      if same {
        SameWordIs(p, src, meta, size, r, k, w);
        same := src[Add32(4 * w, s) / 4] == meta[Mul32(4, w + 9 * k) / 4];
      }
    }
  }

  /** Where the label goes and comes from. */
  method LabelRecord(p: Params, src: seq<Word>, meta: seq<Word>, r: nat, k: nat, dst: array<Word>)
    requires Fits(p, src, meta, dst.Length) && r < p.records && k < p.groups
    modifies dst
    ensures dst[..] == Write(old(dst[..]),
                             Store(Row(r, p.dstWords) + meta[9 * k + 8] / 4, meta[9 * p.groups + r]))
  {
    hide Add32, Mul32, Row;
    var d := Mul32(r, p.DstStride());
    MetaAddress(9 * p.groups + r, |meta|);
    assert Add32(Mul32(36, k), 32) == 4 * (9 * k + 8) by {
      assert 36 * k + 32 < WRAP;
    }
    var offset := meta[Add32(Mul32(36, k), 32) / 4];
    assert LabelFits(p, meta[9 * k + 8]);
    Address(r, p.records, p.dstWords, offset / 4, dst.Length);
    dst[Add32(offset, d) / 4] := meta[Mul32(4, 9 * p.groups + r) / 4];
  }

  /** The whole thread. */
  method Thread(p: Params, src: seq<Word>, meta: seq<Word>, r: nat, dst: array<Word>)
    requires Fits(p, src, meta, dst.Length)
    modifies dst
    ensures dst[..] == WriteAll(old(dst[..]), Stores(p, src, meta, r))
  {
    hide Row, Matches;
    if r >= p.records { return; }
    ghost var copy := CopyStores(p, src, r, p.dstWords);
    CopyRecord(p, src, meta, r, dst);
    ghost var copied := dst[..];
    for k := 0 to p.groups
      invariant FirstMatch(p, src, meta, r, k).None? && dst[..] == copied
    {
      var same := SameIdentifier(p, src, meta, dst.Length, r, k);
      if same {
        FirstMatchIs(p, src, meta, r, k, p.groups);
        LabelRecord(p, src, meta, r, k, dst);
        ghost var all := Stores(p, src, meta, r);
        assert all[..|all| - 1] == copy;
        return;
      }
    }
    assert copy + [] == copy;
  }

  lemma {:induction false} FirstMatchIs(p: Params, src: seq<Word>, meta: seq<Word>, r: nat, k: nat, n: nat)
    requires FirstMatch(p, src, meta, r, k).None? && Matches(p, src, meta, r, k) && k < n
    ensures FirstMatch(p, src, meta, r, n) == Some(k)
  {
    if k < n - 1 { FirstMatchIs(p, src, meta, r, k, n - 1); }
  }

  // --- all threads, in any order --------------------------------------------------------

  /** Every thread's place among its stores, and what they made of the buffer. */
  datatype Machine = Machine(buf: seq<Word>, done: seq<nat>)

  ghost function Step(threads: seq<seq<Store>>, m: Machine, t: nat): Machine
    requires |m.done| == |threads| && t < |threads|
  {
    if m.done[t] < |threads[t]|
    then Machine(Write(m.buf, threads[t][m.done[t]]), m.done[t := m.done[t] + 1])
    else m
  }

  /** Word by word, in whatever order the schedule picks threads. */
  ghost function Run(threads: seq<seq<Store>>, buf: seq<Word>, schedule: seq<nat>): (m: Machine)
    requires forall i :: 0 <= i < |schedule| ==> schedule[i] < |threads|
    ensures |m.done| == |threads| && |m.buf| == |buf|
  {
    if schedule == [] then Machine(buf, seq(|threads|, _ => 0))
    else Step(threads, Run(threads, buf, schedule[..|schedule| - 1]), schedule[|schedule| - 1])
  }

  ghost predicate Finished(threads: seq<seq<Store>>, m: Machine)
    requires |m.done| == |threads|
  {
    forall t :: 0 <= t < |threads| ==> m.done[t] == |threads[t]|
  }

  /** The schedule runs `n` threads, enough for every record, to their ends. */
  ghost predicate Completes(p: Params, src: seq<Word>, meta: seq<Word>, buf: seq<Word>, n: nat, schedule: seq<nat>) {
    && |meta| == 9 * p.groups + p.records && p.records <= n
    && (forall i :: 0 <= i < |schedule| ==> schedule[i] < n)
    && Finished(Threads(p, src, meta, n), Run(Threads(p, src, meta, n), buf, schedule))
  }

  /** The buffer after the schedule. */
  ghost function Result(p: Params, src: seq<Word>, meta: seq<Word>, buf: seq<Word>, n: nat,
                        schedule: seq<nat>): seq<Word>
    requires Completes(p, src, meta, buf, n, schedule)
  {
    Run(Threads(p, src, meta, n), buf, schedule).buf
  }

  /** The threads of a dispatch; those past the last record store nothing. */
  ghost function Threads(p: Params, src: seq<Word>, meta: seq<Word>, n: nat): (ts: seq<seq<Store>>)
    requires |meta| == 9 * p.groups + p.records
    ensures |ts| == n && forall t :: 0 <= t < n ==> ts[t] == Stores(p, src, meta, t)
  {
    seq(n, t requires 0 <= t => Stores(p, src, meta, t))
  }

  /** Word `i` of record `r` once the thread has made its first `n` stores. */
  ghost function WordAfter(p: Params, src: seq<Word>, meta: seq<Word>, r: nat, i: nat, n: nat, was: Word): Word
    requires |meta| == 9 * p.groups + p.records && r < p.records
  {
    var k := FirstMatch(p, src, meta, r, p.groups);
    if n > p.dstWords && k.Some? && i == meta[9 * k.value + 8] / 4 then meta[9 * p.groups + r]
    else if i < n then Padded(p, src, r, i)
    else was
  }

  /** What the record ends as. */
  ghost function RecordWord(p: Params, src: seq<Word>, meta: seq<Word>, r: nat, i: nat): Word
    requires |meta| == 9 * p.groups + p.records && r < p.records
  {
    var k := FirstMatch(p, src, meta, r, p.groups);
    if k.Some? && i == meta[9 * k.value + 8] / 4 then meta[9 * p.groups + r] else Padded(p, src, r, i)
  }

  ghost predicate Reached(p: Params, src: seq<Word>, meta: seq<Word>, buf: seq<Word>, m: Machine) {
    && |meta| == 9 * p.groups + p.records
    && |m.buf| == |buf| == Row(p.records, p.dstWords)
    && p.records <= |m.done|
    && forall r, i :: 0 <= r < p.records && 0 <= i < p.dstWords ==> WordReached(p, src, meta, buf, m, r, i)
  }

  ghost predicate WordReached(p: Params, src: seq<Word>, meta: seq<Word>, buf: seq<Word>, m: Machine,
                              r: nat, i: nat)
    requires |meta| == 9 * p.groups + p.records && |m.buf| == |buf| == Row(p.records, p.dstWords)
    requires r < p.records <= |m.done|
  {
    var at := Row(r, p.dstWords) + i;
    at < |buf| && m.buf[at] == WordAfter(p, src, meta, r, i, m.done[r], buf[at])
  }

  /** One store changes one word of its own thread's record and no other. */
  lemma StepReaches(p: Params, src: seq<Word>, meta: seq<Word>, buf: seq<Word>, threads: seq<seq<Store>>,
                    m: Machine, t: nat, r: nat, i: nat)
    requires Fits(p, src, meta, |buf|) && p.records <= |threads| == |m.done| && t < |threads|
    requires threads[t] == Stores(p, src, meta, t)
    requires |m.buf| == |buf| && r < p.records && i < p.dstWords
    requires WordReached(p, src, meta, buf, m, r, i)
    ensures |Step(threads, m, t).buf| == |buf|
    ensures WordReached(p, src, meta, buf, Step(threads, m, t), r, i)
  {
    var width, n := p.dstWords, m.done[t];
    if t < p.records && n < |threads[t]| {
      var k := FirstMatch(p, src, meta, t, p.groups);
      if n == width { assert k.Some? && LabelFits(p, meta[9 * k.value + 8]); }
      var j := if n < width then n else meta[9 * k.value + 8] / 4;
      assert threads[t][n].at == Row(t, width) + j;
      RowsInOrder(t, p.records, width, j);
      RowsInOrder(r, p.records, width, i);
      if Row(t, width) + j == Row(r, width) + i { OneRow(t, j, r, i, width); }
    }
  }

  lemma {:induction false} RunReaches(p: Params, src: seq<Word>, meta: seq<Word>, buf: seq<Word>, n: nat,
                                      schedule: seq<nat>)
    requires Fits(p, src, meta, |buf|) && p.records <= n
    requires forall i :: 0 <= i < |schedule| ==> schedule[i] < n
    ensures Reached(p, src, meta, buf, Run(Threads(p, src, meta, n), buf, schedule))
  {
    var threads := Threads(p, src, meta, n);
    var m := Run(threads, buf, schedule);
    if schedule == [] {
      forall r, i | 0 <= r < p.records && 0 <= i < p.dstWords ensures WordReached(p, src, meta, buf, m, r, i) {
        RowsInOrder(r, p.records, p.dstWords, i);
      }
    } else {
      var front, t := schedule[..|schedule| - 1], schedule[|schedule| - 1];
      RunReaches(p, src, meta, buf, n, front);
      var before := Run(threads, buf, front);
      forall r, i | 0 <= r < p.records && 0 <= i < p.dstWords ensures WordReached(p, src, meta, buf, m, r, i) {
        hide Fits, WordReached, Stores;
        StepReaches(p, src, meta, buf, threads, before, t, r, i);
      }
    }
  }

  /**
   However the threads interleave: once all have finished, every record is the
   application's bytes padded with zeros, but for the label word of the first
   group whose identifier it carries.
   */
  lemma AnyOrder(p: Params, src: seq<Word>, meta: seq<Word>, buf: seq<Word>, n: nat, schedule: seq<nat>,
                 r: nat, i: nat)
    requires Fits(p, src, meta, |buf|) && Completes(p, src, meta, buf, n, schedule)
    requires r < p.records && i < p.dstWords
    ensures Row(r, p.dstWords) + i < |Result(p, src, meta, buf, n, schedule)|
    ensures Result(p, src, meta, buf, n, schedule)[Row(r, p.dstWords) + i] == RecordWord(p, src, meta, r, i)
  {
    hide Run, Row, FirstMatch, Stores, Fits;
    RunReaches(p, src, meta, buf, n, schedule);
    FinishedStores(p, src, meta, n, r);
    assert WordReached(p, src, meta, buf, Run(Threads(p, src, meta, n), buf, schedule), r, i);
  }

  /** A finished thread is past the store of every word, and of the label if there is one. */
  lemma FinishedStores(p: Params, src: seq<Word>, meta: seq<Word>, n: nat, r: nat)
    requires |meta| == 9 * p.groups + p.records && r < p.records <= n
    ensures |Threads(p, src, meta, n)[r]|
         == p.dstWords + if FirstMatch(p, src, meta, r, p.groups).Some? then 1 else 0
  {
    hide Row, FirstMatch;
  }

  // --- the metadata, and what a hit reads back -----------------------------------------------

  /** A hit group whose local root signature was extended: its identifier, and where the label goes. */
  datatype Group = Group(id: seq<Word>, offset: Word)

  ghost predicate WellFormed(groups: seq<Group>) {
    forall k :: 0 <= k < |groups| ==> |groups[k].id| == 8
  }

  function LabelWord(answer: int): Word { if answer >= 0 then answer % WRAP else 0 }

  ghost predicate GroupAt(meta: seq<Word>, k: nat, group: Group)
    requires 9 * k + 9 <= |meta| && |group.id| == 8
  {
    meta[9 * k..9 * k + 8] == group.id && meta[9 * k + 8] == group.offset
  }

  ghost predicate IsMeta(meta: seq<Word>, groups: seq<Group>, labels: seq<int>)
    requires WellFormed(groups)
  {
    && |meta| == 9 * |groups| + |labels|
    && (forall k :: 0 <= k < |groups| ==> GroupAt(meta, k, groups[k]))
    && (forall r :: 0 <= r < |labels| ==> LabelWord(labels[r]) == meta[9 * |groups| + r])
  }

  method BuildMeta(groups: seq<Group>, labels: seq<int>) returns (meta: seq<Word>)
    requires WellFormed(groups)
    ensures IsMeta(meta, groups, labels)
  {
    meta := [];
    for k := 0 to |groups|
      invariant |meta| == 9 * k
      invariant forall j :: 0 <= j < k ==> GroupAt(meta, j, groups[j])
    {
      ghost var before := meta;
      meta := meta + groups[k].id + [groups[k].offset];
      forall j | 0 <= j < k + 1 ensures GroupAt(meta, j, groups[j]) {
        if j < k {
          assert GroupAt(before, j, groups[j]);
          assert meta[9 * j..9 * j + 8] == before[9 * j..9 * j + 8];
        }
      }
    }
    ghost var ids := meta;
    for r := 0 to |labels|
      invariant |meta| == 9 * |groups| + r && meta[..9 * |groups|] == ids
      invariant forall q :: 0 <= q < r ==> LabelWord(labels[q]) == meta[9 * |groups| + q]
    {
      meta := meta + [LabelWord(labels[r])];
    }
    forall j | 0 <= j < |groups| ensures GroupAt(meta, j, groups[j]) {
      assert GroupAt(ids, j, groups[j]);
      assert meta[9 * j..9 * j + 8] == ids[9 * j..9 * j + 8];
    }
  }

  /**
   The labels are right for these hits, and no record is refused: a hit of geometry g
   that lands on a record with an extended group's identifier reads g at that group's
   offset, in whatever order the threads ran.
   */
  lemma HitReadsItsGeometry(hits: set<(nat, nat)>, labels: seq<int>, groups: seq<Group>, p: Params, src: seq<Word>,
                            meta: seq<Word>, buf: seq<Word>, n: nat, schedule: seq<nat>, g: nat, r: nat, k: nat)
    requires Labelled(labels, hits) && -2 !in labels
    requires WellFormed(groups) && IsMeta(meta, groups, labels)
    requires Fits(p, src, meta, |buf|) && p.records == |labels| && p.groups == |groups|
    requires Completes(p, src, meta, buf, n, schedule)
    requires r < p.records && g <= 0x100_0000
    ensures
      var after := Result(p, src, meta, buf, n, schedule);
      (g, r) in hits && FirstMatch(p, src, meta, r, p.groups) == Some(k) ==>
        && Row(r, p.dstWords) + groups[k].offset / 4 < |after|
        && after[Row(r, p.dstWords) + groups[k].offset / 4] == g
  {
    hide Result, Row, FirstMatch, Labelled, WellFormed, Fits, Completes, RecordWord;
    if (g, r) in hits && FirstMatch(p, src, meta, r, p.groups) == Some(k) {
      LabelIs(labels, hits, g, r);
      LabelledWord(labels, groups, p, src, meta, |buf|, r, k);
      hide IsMeta;
      AnyOrder(p, src, meta, buf, n, schedule, r, groups[k].offset / 4);
    }
  }

  lemma LabelIs(labels: seq<int>, hits: set<(nat, nat)>, g: nat, r: nat)
    requires r < |labels| && Labelled(labels, hits) && -2 !in labels && (g, r) in hits
    ensures labels[r] == g
  {
    assert Says(labels[r], hits, r) && labels[r] in labels;
  }

  lemma LabelledWord(labels: seq<int>, groups: seq<Group>, p: Params, src: seq<Word>, meta: seq<Word>,
                     size: nat, r: nat, k: nat)
    requires WellFormed(groups) && IsMeta(meta, groups, labels) && Fits(p, src, meta, size)
    requires p.records == |labels| && p.groups == |groups| && r < p.records
    requires FirstMatch(p, src, meta, r, p.groups) == Some(k)
    ensures LabelFits(p, groups[k].offset)
    ensures RecordWord(p, src, meta, r, groups[k].offset / 4) == LabelWord(labels[r])
  {
    hide Row, FirstMatch, Padded;
    assert GroupAt(meta, k, groups[k]);
    assert LabelFits(p, meta[9 * k + 8]);
    assert LabelWord(labels[r]) == meta[9 * |groups| + r];
  }

  /** And that group is the first one the record's own identifier equals. */
  lemma FirstMatchMeans(groups: seq<Group>, labels: seq<int>, p: Params, src: seq<Word>, meta: seq<Word>,
                        size: nat, r: nat, k: nat)
    requires WellFormed(groups) && IsMeta(meta, groups, labels) && Fits(p, src, meta, size)
    requires p.records == |labels| && p.groups == |groups| && r < p.records && k < p.groups
    ensures Row(r, p.srcWords) + 8 <= |src|
    ensures Matches(p, src, meta, r, k) <==> src[Row(r, p.srcWords)..Row(r, p.srcWords) + 8] == groups[k].id
  {
    hide Row;
    RowsInOrder(r, p.records, p.srcWords, 7);
    assert GroupAt(meta, k, groups[k]);
    var s := Row(r, p.srcWords);
    var id := src[s..s + 8];
    assert forall w :: 0 <= w < 8 ==> id[w] == src[s + w] && meta[9 * k..9 * k + 8][w] == meta[9 * k + w];
    if Matches(p, src, meta, r, k) {
      forall w | 0 <= w < 8 ensures id[w] == groups[k].id[w] { assert SameWord(p, src, meta, r, k, w); }
    }
    if id == groups[k].id {
      forall w | 0 <= w < 8 ensures SameWord(p, src, meta, r, k, w) { assert id[w] == groups[k].id[w]; }
    }
  }
}
