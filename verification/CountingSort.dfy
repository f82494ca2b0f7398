/**
 The GPU counting sort of the bench (`bench/sertest.cpp`): rays record the material
 they hit, are counted, and scattered into an order by material; shading then runs
 in that order. A ray's material is its key, `materials` for a miss.

 GPU threads run in no particular order: a loop that picks any thread stands for
 one dispatch, a thread's atomic operation or store at a time.
 */
module CountingSort {

  /** Counts are 32 bit; there are fewer rays than that. */
  type Word = n: nat | n < 0x1_0000_0000

  /** What a ray hit: its key, and the rest as the shaders see it. */
  datatype Hit<+P> = Hit(key: nat, rest: P)

  ghost predicate Keyed(keys: seq<nat>, materials: nat) {
    |keys| < 0x1_0000_0000 && forall i :: 0 <= i < |keys| ==> keys[i] <= materials
  }

  function Range(n: nat): (r: set<nat>)
    ensures |r| == n && forall i: nat :: i in r <==> i < n
  {
    if n == 0 then {} else Range(n - 1) + {n - 1}
  }

  /** Those of the rays that have the key. */
  function Of(keys: seq<nat>, rays: set<nat>, key: nat): set<nat> {
    set i | i in rays && i < |keys| && keys[i] == key
  }

  function CountOf(keys: seq<nat>, key: nat): nat { |Of(keys, Range(|keys|), key)| }

  function Smaller(keys: seq<nat>, key: nat): set<nat> {
    set i | 0 <= i < |keys| && keys[i] < key
  }

  /** How many rays have a smaller key: where the key's own part of the order starts. */
  function Below(keys: seq<nat>, key: nat): nat { |Smaller(keys, key)| }

  /** Every ray once, keys in order. */
  ghost predicate Sorts(order: seq<nat>, keys: seq<nat>) {
    && |order| == |keys|
    && (forall j :: 0 <= j < |order| ==> order[j] < |keys|)
    && (forall i :: 0 <= i < |keys| ==> i in order)
    && (forall j, k :: 0 <= j < k < |order| ==> order[j] != order[k] && keys[order[j]] <= keys[order[k]])
  }

  // --- counting with sets --------------------------------------------------------------

  lemma SubsetSize<T>(a: set<T>, b: set<T>)
    requires a <= b
    ensures |a| <= |b| && (|a| == |b| ==> a == b)
  {
    assert b == a + (b - a);
  }

  lemma BelowNext(keys: seq<nat>, key: nat)
    ensures Below(keys, key + 1) == Below(keys, key) + CountOf(keys, key)
  {
    var a, b := Smaller(keys, key), Of(keys, Range(|keys|), key);
    assert Smaller(keys, key + 1) == a + b && a !! b;
  }

  lemma BelowZero(keys: seq<nat>)
    ensures Below(keys, 0) == 0
  {
    assert Smaller(keys, 0) == {};
  }

  lemma BelowMonotone(keys: seq<nat>, a: nat, b: nat)
    requires a <= b
    ensures Below(keys, a) <= Below(keys, b) <= |keys|
  {
    SubsetSize(Smaller(keys, a), Smaller(keys, b));
    SubsetSize(Smaller(keys, b), Range(|keys|));
  }

  lemma OfNext(keys: seq<nat>, rays: set<nat>, i: nat, key: nat)
    requires i < |keys| && i !in rays
    ensures |Of(keys, rays + {i}, key)| == |Of(keys, rays, key)| + if keys[i] == key then 1 else 0
  {
    var more := Of(keys, rays + {i}, key);
    if keys[i] == key {
      assert more == Of(keys, rays, key) + {i};
    } else {
      assert more == Of(keys, rays, key);
    }
  }

  // --- slots -----------------------------------------------------------------------------

  /** Where the next ray of the key goes. */
  function Filled(keys: seq<nat>, rays: set<nat>, key: nat): nat {
    Below(keys, key) + |Of(keys, rays, key)|
  }

  /** Slots given out so far: distinct, in the part of their key, filled from its start. */
  ghost predicate Placed(keys: seq<nat>, slots: map<nat, nat>) {
    && (forall i :: i in slots ==> i < |keys| && InPart(keys, slots, i))
    && Distinct(slots)
  }

  ghost predicate InPart(keys: seq<nat>, slots: map<nat, nat>, i: nat)
    requires i in slots && i < |keys|
  {
    Below(keys, keys[i]) <= slots[i] < Filled(keys, slots.Keys, keys[i])
  }

  /** No part is ever filled past its end. */
  lemma PartFits(keys: seq<nat>, slots: map<nat, nat>, key: nat)
    requires Placed(keys, slots)
    ensures Filled(keys, slots.Keys, key) <= Below(keys, key + 1) <= |keys|
  {
    BelowNext(keys, key);
    BelowMonotone(keys, key + 1, key + 1);
    SubsetSize(Of(keys, slots.Keys, key), Of(keys, Range(|keys|), key));
  }

  lemma PartOf(keys: seq<nat>, slots: map<nat, nat>, i: nat)
    requires Placed(keys, slots) && i in slots
    ensures Below(keys, keys[i]) <= slots[i] < Below(keys, keys[i] + 1) <= |keys|
  {
    assert InPart(keys, slots, i);
    PartFits(keys, slots, keys[i]);
  }

  /** The next slot of a key is new, and inside the order. */
  lemma PlacedNext(keys: seq<nat>, slots: map<nat, nat>, i: nat)
    requires Placed(keys, slots) && i < |keys| && i !in slots
    ensures
      var slot := Filled(keys, slots.Keys, keys[i]);
      Placed(keys, slots[i := slot]) && slot < Below(keys, keys[i] + 1) <= |keys|
    ensures forall key :: Filled(keys, slots.Keys + {i}, key)
                       == Filled(keys, slots.Keys, key) + if keys[i] == key then 1 else 0
  {
    hide Below, Of;
    var slot := Filled(keys, slots.Keys, keys[i]);
    var slots' := slots[i := slot];
    assert slots'.Keys == slots.Keys + {i};
    forall key ensures Filled(keys, slots'.Keys, key)
                    == Filled(keys, slots.Keys, key) + if keys[i] == key then 1 else 0
    {
      OfNext(keys, slots.Keys, i, key);
    }
    assert InPart(keys, slots', i);
    SlotFits(keys, slots, i);
    hide Filled;
    forall j | j in slots ensures InPart(keys, slots', j) && slot != slots[j] {
      assert InPart(keys, slots, j);
      assert Filled(keys, slots'.Keys, keys[j]) >= Filled(keys, slots.Keys, keys[j]);
      PartOf(keys, slots, j);
      if keys[j] < keys[i] { BelowMonotone(keys, keys[j] + 1, keys[i]); }
      if keys[i] < keys[j] { BelowMonotone(keys, keys[i] + 1, keys[j]); }
    }
  }

  /** There is room while a ray of the key waits. */
  lemma SlotFits(keys: seq<nat>, slots: map<nat, nat>, i: nat)
    requires Placed(keys, slots) && i < |keys| && i !in slots
    ensures Filled(keys, slots.Keys, keys[i]) < Below(keys, keys[i] + 1) <= |keys|
  {
    var some, all := Of(keys, slots.Keys, keys[i]), Of(keys, Range(|keys|), keys[i]);
    assert i in all && i !in some;
    SubsetSize(some, all);
    BelowNext(keys, keys[i]);
    BelowMonotone(keys, keys[i] + 1, keys[i] + 1);
  }

  function Image(slots: map<nat, nat>): set<nat> {
    set k | k in slots :: slots[k]
  }

  ghost predicate Distinct(slots: map<nat, nat>) {
    forall i, j :: i in slots && j in slots && i != j ==> slots[i] != slots[j]
  }

  lemma {:induction false} ImageSize(slots: map<nat, nat>)
    requires Distinct(slots)
    ensures |Image(slots)| == |slots.Keys|
    decreases slots.Keys
  {
    if slots.Keys == {} {
      assert Image(slots) == {};
    } else {
      var k :| k in slots.Keys;
      var rest := map i | i in slots && i != k :: slots[i];
      assert slots.Keys == rest.Keys + {k} && k !in rest.Keys;
      ImageNext(slots, rest, k);
      assert Distinct(rest);
      hide Image, Distinct;
      ImageSize(rest);
    }
  }

  lemma ImageNext(slots: map<nat, nat>, rest: map<nat, nat>, k: nat)
    requires Distinct(slots) && k in slots && rest == map i | i in slots && i != k :: slots[i]
    ensures Image(slots) == Image(rest) + {slots[k]} && slots[k] !in Image(rest)
  {
    forall x | x in Image(slots) ensures x in Image(rest) + {slots[k]} {
      var i :| i in slots && slots[i] == x;
      if i != k { assert rest[i] == x; }
    }
    forall x | x in Image(rest) ensures x in Image(slots) && x != slots[k] {
      var i :| i in rest && rest[i] == x;
      assert slots[i] == x;
    }
  }

  /** Distinct slots for everything leave no slot empty. */
  lemma AllFilled(n: nat, slots: map<nat, nat>, j: nat) returns (i: nat)
    requires Distinct(slots) && slots.Keys == Range(n) && j < n
    requires forall k :: k in slots ==> slots[k] < n
    ensures i in slots && slots[i] == j
  {
    assert Image(slots) == Range(n) by {
      hide Distinct, Range;
      ImageSize(slots);
      assert Image(slots) <= Range(n);
      SubsetSize(Image(slots), Range(n));
    }
    hide Distinct, Range;
    assert j in Image(slots);
    i :| i in slots && slots[i] == j;
  }

  /** A ray later in the order has no smaller key. */
  lemma SlotsInOrder(keys: seq<nat>, slots: map<nat, nat>, i: nat, j: nat)
    requires Placed(keys, slots) && i in slots && j in slots && slots[i] < slots[j]
    ensures keys[i] <= keys[j]
  {
    hide Below;
    PartOf(keys, slots, i);
    PartOf(keys, slots, j);
    if keys[j] < keys[i] { BelowMonotone(keys, keys[j] + 1, keys[i]); }
  }

  /** Everything in its slot: sorted. */
  lemma FilledSorts(keys: seq<nat>, slots: map<nat, nat>, order: seq<nat>)
    requires Placed(keys, slots) && |order| == |keys|
    requires forall i :: 0 <= i < |keys| ==> i in slots
    requires forall i :: i in slots ==> slots[i] < |order| && order[slots[i]] == i
    ensures Sorts(order, keys)
    ensures forall j :: 0 <= j < |order| ==> order[j] in slots && slots[order[j]] == j
  {
    hide Placed, Range;
    PlacedDistinct(keys, slots);
    KeysAreRange(slots, |keys|);
    forall j | 0 <= j < |order| ensures order[j] in slots && slots[order[j]] == j {
      assert Distinct(slots) by { PlacedDistinct(keys, slots); }
      var i := AllFilled(|keys|, slots, j);
    }
    forall i | 0 <= i < |keys| ensures i in order {
      assert i in slots && order[slots[i]] == i;
    }
    forall j, k | 0 <= j < k < |order| ensures order[j] != order[k] && keys[order[j]] <= keys[order[k]] {
      SlotsInOrder(keys, slots, order[j], order[k]);
    }
  }

  lemma KeysAreRange(slots: map<nat, nat>, n: nat)
    requires (forall i :: 0 <= i < n ==> i in slots) && forall i :: i in slots ==> i < n
    ensures slots.Keys == Range(n)
  {
    hide Range;
  }

  lemma PlacedDistinct(keys: seq<nat>, slots: map<nat, nat>)
    requires Placed(keys, slots)
    ensures Distinct(slots) && forall i :: i in slots ==> i < |keys|
  {}

  // --- the passes --------------------------------------------------------------------------

  function KeysOf<P>(hits: seq<Hit<P>>): (keys: seq<nat>)
    ensures |keys| == |hits| && forall i :: 0 <= i < |hits| ==> keys[i] == hits[i].key
  {
    seq(|hits|, i requires 0 <= i < |hits| => hits[i].key)
  }

  /** `RG_Clear`. */
  method Clear(materials: nat, count: array<Word>)
    requires count.Length == 2 * (materials + 1)
    modifies count
    ensures forall k :: 0 <= k < count.Length ==> count[k] == 0
  {
    forall k | 0 <= k < count.Length { count[k] := 0; }
  }

  /** Between the threads of the recording pass: those in `done` are kept and counted. */
  ghost predicate Recording<P>(traced: seq<Hit<P>>, materials: nat, hits: seq<Hit<P>>, count: seq<Word>,
                               done: set<nat>)
  {
    && Keyed(KeysOf(traced), materials) && |hits| == |traced| && |count| == 2 * (materials + 1)
    && (forall i :: i in done && i < |traced| ==> hits[i] == traced[i])
    && (forall k :: 0 <= k <= materials ==> count[k] == |Of(KeysOf(traced), done, k)|)
  }

  lemma RecordKeeps<P>(traced: seq<Hit<P>>, materials: nat, hits: seq<Hit<P>>, count: seq<Word>,
                       done: set<nat>, i: nat)
    requires Recording(traced, materials, hits, count, done) && i < |traced| && i !in done
    ensures
      var key := traced[i].key;
      && key <= materials && count[key] < |traced|
      && Recording(traced, materials, hits[i := traced[i]], count[key := count[key] + 1], done + {i})
  {
    hide Of;
    var keys := KeysOf(traced);
    assert traced[i].key == keys[i];
    CountFits(keys, done, i);
    forall k: nat | k <= materials
      ensures |Of(keys, done + {i}, k)| == |Of(keys, done, k)| + if keys[i] == k then 1 else 0
    {
      OfNext(keys, done, i, k);
    }
  }

  /** `RG_Rec`: what each ray hit is kept and counted, in whatever order the rays come. */
  method Rec<P>(traced: seq<Hit<P>>, materials: nat, hits: array<Hit<P>>, count: array<Word>)
    requires Keyed(KeysOf(traced), materials)
    requires hits.Length == |traced| && count.Length == 2 * (materials + 1)
    requires forall k :: 0 <= k < count.Length ==> count[k] == 0
    modifies hits, count
    ensures hits[..] == traced
    ensures forall k :: 0 <= k <= materials ==> count[k] == CountOf(KeysOf(traced), k)
  {
    hide Of, CountOf, KeysOf;
    ghost var done: set<nat> := {};
    var left := Range(|traced|);
    NoneOf(KeysOf(traced));
    while left != {}
      invariant Recording(traced, materials, hits[..], count[..], done)
      invariant done !! left && done + left == Range(|traced|)
      decreases left
    {
      hide Recording, Range, Keyed;
      var i :| i in left;
      RecordRay(traced, materials, hits, count, done, i);
      left, done := left - {i}, done + {i};
    }
    assert done == Range(|traced|);
    hide Recording, Range, Keyed;
    RecordEnd(traced, materials, hits[..], count[..], done);
  }

  /** One thread: its store, and its atomic add. */
  method RecordRay<P>(traced: seq<Hit<P>>, materials: nat, hits: array<Hit<P>>, count: array<Word>,
                      ghost done: set<nat>, i: nat)
    requires Recording(traced, materials, hits[..], count[..], done) && i < |traced| && i !in done
    modifies hits, count
    ensures Recording(traced, materials, hits[..], count[..], done + {i})
  {
    RecordKeeps(traced, materials, hits[..], count[..], done, i);
    assert |hits[..]| == |traced| && |count[..]| == 2 * (materials + 1);
    hide Recording;
    ghost var kept, counted := hits[..], count[..];
    var key := traced[i].key;
    hits[i] := traced[i];
    count[key] := count[key] + 1;
    assert hits[..] == kept[i := traced[i]] && count[..] == counted[key := counted[key] + 1];
  }

  lemma RecordEnd<P>(traced: seq<Hit<P>>, materials: nat, hits: seq<Hit<P>>, count: seq<Word>, done: set<nat>)
    requires Recording(traced, materials, hits, count, done) && done == Range(|traced|)
    ensures hits == traced
    ensures |count| == 2 * (materials + 1)
    ensures forall k :: 0 <= k <= materials ==> count[k] == CountOf(KeysOf(traced), k)
  {
    hide Of, Range, Keyed;
  }

  lemma CountFits(keys: seq<nat>, done: set<nat>, i: nat)
    requires |keys| < 0x1_0000_0000 && i < |keys| && i !in done
    ensures |Of(keys, done, keys[i])| + 1 <= |keys|
  {
    var some := Of(keys, done, keys[i]);
    SubsetSize(some + {i}, Range(|keys|));
  }

  /** `RG_Scan`: where each key starts. */
  method Scan(ghost keys: seq<nat>, materials: nat, count: array<Word>)
    requires Keyed(keys, materials) && count.Length == 2 * (materials + 1)
    requires forall k :: 0 <= k <= materials ==> count[k] == CountOf(keys, k)
    modifies count
    ensures forall k :: 0 <= k <= materials ==>
      count[k] == old(count[k]) && count[materials + 1 + k] == Below(keys, k)
  {
    hide Below, CountOf;
    var sum := 0;
    BelowZero(keys);
    for k := 0 to materials + 1
      invariant sum == Below(keys, k) <= |keys|
      invariant forall j :: 0 <= j <= materials ==> count[j] == old(count[j])
      invariant forall j :: 0 <= j < k ==> count[materials + 1 + j] == Below(keys, j)
    {
      BelowNext(keys, k);
      BelowMonotone(keys, k, k + 1);
      count[materials + 1 + k] := sum;
      sum := sum + count[k];
    }
  }

  /** Between the steps of the scatter: which slots are taken, which rays are stored. */
  ghost predicate Scattering(keys: seq<nat>, materials: nat, count: seq<Word>, order: seq<Word>,
                             slots: map<nat, nat>, stored: set<nat>)
  {
    && Keyed(keys, materials) && |count| == 2 * (materials + 1) && |order| == |keys|
    && Placed(keys, slots) && stored <= slots.Keys
    && (forall k :: 0 <= k <= materials ==> count[materials + 1 + k] == Filled(keys, slots.Keys, k))
    && (forall i :: i in slots ==> slots[i] < |keys|)
    && (forall i :: i in stored ==> order[slots[i]] == i)
  }

  lemma ClaimKeeps(keys: seq<nat>, materials: nat, count: seq<Word>, order: seq<Word>, slots: map<nat, nat>,
                   stored: set<nat>, i: nat)
    requires Scattering(keys, materials, count, order, slots, stored) && i < |keys| && i !in slots
    ensures
      var at := materials + 1 + keys[i];
      && count[at] < |keys|
      && Scattering(keys, materials, count[at := count[at] + 1], order, slots[i := count[at]], stored)
  {
    hide Below, Of, Placed;
    var slot: nat := count[materials + 1 + keys[i]];
    PlacedNext(keys, slots, i);
    var slots' := slots[i := slot];
    assert slots'.Keys == slots.Keys + {i};
  }

  lemma StoreKeeps(keys: seq<nat>, materials: nat, count: seq<Word>, order: seq<Word>, slots: map<nat, nat>,
                   stored: set<nat>, i: Word)
    requires Scattering(keys, materials, count, order, slots, stored) && i in slots && i < |keys|
    ensures slots[i] < |order|
    ensures Scattering(keys, materials, count, order[slots[i] := i], slots, stored + {i})
  {
    hide Below, Of;
  }

  /**
   `RG_Scatter`: a thread takes the next slot of its key with an atomic add, and
   later, other threads in between, stores its ray there.
   */
  method Scatter(keys: seq<nat>, materials: nat, count: array<Word>, order: array<Word>)
    requires Keyed(keys, materials) && count.Length == 2 * (materials + 1) && order.Length == |keys|
    requires count != order
    requires forall k :: 0 <= k <= materials ==> count[materials + 1 + k] == Below(keys, k)
    modifies count, order
    ensures Sorts(order[..], keys)
  {
    var slots: map<nat, nat> := map[];
    var stored: set<nat> := {};
    assert slots.Keys == {};
    ScatterStart(keys, materials, count[..], order[..]);
    hide Scattering, Placed, Sorts, Keyed, Below, Of;
    while stored != Range(|keys|)
      invariant Scattering(keys, materials, count[..], order[..], slots, stored)
      invariant stored <= slots.Keys <= Range(|keys|)
      decreases Range(|keys|) - slots.Keys, Range(|keys|) - stored
    {
      hide Range;
      assert exists i: Word :: i in Range(|keys|) && i !in stored by {
        assert Range(|keys|) - stored != {};
      }
      var i: Word :| i in Range(|keys|) && i !in stored;
      if i !in slots {
        slots := Claim(keys, materials, count, order, slots, stored, i);
      } else {
        StoreRay(keys, materials, count, order, slots, stored, i);
        stored := stored + {i};
      }
    }
    hide Range, Sorts;
    ScatterEnd(keys, materials, count[..], order[..], slots, stored);
  }

  lemma ScatterStart(keys: seq<nat>, materials: nat, count: seq<Word>, order: seq<Word>)
    requires Keyed(keys, materials) && |count| == 2 * (materials + 1) && |order| == |keys|
    requires forall k :: 0 <= k <= materials ==> count[materials + 1 + k] == Below(keys, k)
    ensures Scattering(keys, materials, count, order, map[], {})
  {
    hide Below;
    var none: map<nat, nat> := map[];
    assert none.Keys == {};
    NoneOf(keys);
  }

  lemma ScatterEnd(keys: seq<nat>, materials: nat, count: seq<Word>, order: seq<Word>, slots: map<nat, nat>,
                   stored: set<nat>)
    requires Scattering(keys, materials, count, order, slots, stored)
    requires stored == slots.Keys == Range(|keys|)
    ensures Sorts(order, keys)
  {
    hide Below, Range, Placed;
    FilledSorts(keys, slots, order);
  }

  /** The store of one thread. */
  method StoreRay(ghost keys: seq<nat>, ghost materials: nat, ghost count: array<Word>, order: array<Word>,
                  slots: map<nat, nat>, ghost stored: set<nat>, i: Word)
    requires Scattering(keys, materials, count[..], order[..], slots, stored) && i < |keys| && i in slots
    requires count != order
    modifies order
    ensures Scattering(keys, materials, count[..], order[..], slots, stored + {i})
  {
    StoreKeeps(keys, materials, count[..], order[..], slots, stored, i);
    hide Scattering;
    ghost var was := order[..];
    order[slots[i]] := i;
    assert order[..] == was[slots[i] := i];
  }

  /** The atomic add of one thread. */
  method Claim(keys: seq<nat>, materials: nat, count: array<Word>, ghost order: array<Word>, slots: map<nat, nat>,
               ghost stored: set<nat>, i: nat)
    returns (slots': map<nat, nat>)
    requires Scattering(keys, materials, count[..], order[..], slots, stored) && i < |keys| && i !in slots
    requires count != order
    modifies count
    ensures Scattering(keys, materials, count[..], order[..], slots', stored)
    ensures slots'.Keys == slots.Keys + {i}
  {
    ClaimKeeps(keys, materials, count[..], order[..], slots, stored, i);
    assert keys[i] <= materials && |count[..]| == 2 * (materials + 1);
    ghost var was := count[..];
    var at := materials + 1 + keys[i];
    var slot := count[at];
    hide Scattering;
    count[at] := slot + 1;
    assert count[..] == was[at := slot + 1];
    slots' := slots[i := slot];
  }

  lemma NoneOf(keys: seq<nat>)
    ensures forall key :: Of(keys, {}, key) == {}
  {}

  /** What `RG_Shade` and `RG_Plain` draw for a ray; a miss draws its own colour. */
  function Colour<P, C>(h: Hit<P>, materials: nat, shade: Hit<P> -> C, miss: C): C {
    if h.key < materials then shade(h) else miss
  }

  /** `RG_Shade`, through the order or not. */
  method Shade<P, C(0)>(hits: seq<Hit<P>>, materials: nat, shade: Hit<P> -> C, miss: C,
                        order: seq<Word>, unsorted: bool, out: array<C>)
    requires out.Length == |hits| && (!unsorted ==> Sorts(order, KeysOf(hits)))
    modifies out
    ensures forall i :: 0 <= i < |hits| ==> out[i] == if hits[i].key < materials then shade(hits[i]) else miss
  {
    var left := Range(|hits|);
    while left != {}
      invariant left <= Range(|hits|)
      invariant forall j :: 0 <= j < |hits| && j !in left ==>
        var i := if unsorted then j else order[j];
        out[i] == Colour(hits[i], materials, shade, miss)
      decreases left
    {
      var j :| j in left;
      var i := if unsorted then j else order[j];
      out[i] := Colour(hits[i], materials, shade, miss);
      left := left - {j};
    }
    forall i | 0 <= i < |hits| ensures out[i] == Colour(hits[i], materials, shade, miss) {
      if unsorted {
        assert i !in left;
      } else {
        assert i in order;
        var j :| 0 <= j < |order| && order[j] == i;
        assert j !in left;
      }
    }
  }

  /** `RG_Plain`: shade each ray where it hits. */
  method Plain<P, C(0)>(traced: seq<Hit<P>>, materials: nat, shade: Hit<P> -> C, miss: C, out: array<C>)
    requires out.Length == |traced|
    modifies out
    ensures forall i :: 0 <= i < |traced| ==> out[i] == if traced[i].key < materials then shade(traced[i]) else miss
  {
    forall i | 0 <= i < |traced| { out[i] := Colour(traced[i], materials, shade, miss); }
  }

  /** `Reordered` draws exactly what `Plain` draws, and its order is a sort. */
  method Reordered<P(0), C(0)>(traced: seq<Hit<P>>, materials: nat, shade: Hit<P> -> C, miss: C,
                               unsorted: bool, out: array<C>)
    returns (order: seq<Word>)
    requires Keyed(KeysOf(traced), materials) && out.Length == |traced|
    modifies out
    ensures !unsorted ==> Sorts(order, KeysOf(traced))
    ensures forall i :: 0 <= i < |traced| ==> out[i] == if traced[i].key < materials then shade(traced[i]) else miss
  {
    hide Below, CountOf, Sorts;
    var count := new Word[2 * (materials + 1)];
    var hits := new Hit<P>[|traced|](i requires 0 <= i < |traced| => traced[i]);
    Clear(materials, count);
    Rec(traced, materials, hits, count);
    order := [];
    if !unsorted {
      var sorted := new Word[|traced|];
      Scan(KeysOf(traced), materials, count);
      Scatter(KeysOf(hits[..]), materials, count, sorted);
      order := sorted[..];
    }
    Shade(hits[..], materials, shade, miss, order, unsorted, out);
  }

  // --- the oracle ---------------------------------------------------------------------------

  /** The loop of `Check`: nothing is wrong exactly when the order is a sort of the rays. */
  method Check(order: seq<nat>, keys: seq<nat>) returns (bad: nat)
    requires |order| == |keys|
    ensures bad == 0 <==> Sorts(order, keys)
  {
    bad := 0;
    var seen: set<nat> := {};
    for j := 0 to |order|
      invariant bad == 0 ==> seen == set k | 0 <= k < j :: order[k]
      invariant bad == 0 ==> forall k :: 0 <= k < j ==> order[k] < |keys|
      invariant bad == 0 ==> forall k, l :: 0 <= k < l < j ==> order[k] != order[l]
      invariant bad == 0 ==> forall k :: 0 < k < j ==> keys[order[k - 1]] <= keys[order[k]]
      invariant bad > 0 ==> !Sorts(order, keys)
    {
      if order[j] >= |keys| || order[j] in seen {
        assert bad == 0 ==> !Sorts(order, keys);
        bad := bad + 1;
      } else {
        seen := seen + {order[j]};
        if j > 0 && order[j - 1] < |keys| && keys[order[j - 1]] > keys[order[j]] {
          assert !Sorts(order, keys);
          bad := bad + 1;
        }
      }
    }
    if bad == 0 { AdjacentSorts(order, keys); }
  }

  lemma AdjacentSorts(order: seq<nat>, keys: seq<nat>)
    requires |order| == |keys|
    requires forall k :: 0 <= k < |order| ==> order[k] < |keys|
    requires forall k, l :: 0 <= k < l < |order| ==> order[k] != order[l]
    requires forall k :: 0 < k < |order| ==> keys[order[k - 1]] <= keys[order[k]]
    ensures Sorts(order, keys)
  {
    forall j, k | 0 <= j < k < |order| ensures keys[order[j]] <= keys[order[k]] {
      Chain(order, keys, j, k);
    }
    var places := map k | 0 <= k < |order| :: order[k];
    assert places.Keys == Range(|order|);
    forall i | 0 <= i < |keys| ensures i in order {
      var k := AllFilled(|keys|, places, i);
      assert order[k] == i;
    }
  }

  lemma {:induction false} Chain(order: seq<nat>, keys: seq<nat>, j: nat, k: nat)
    requires forall k :: 0 <= k < |order| ==> order[k] < |keys|
    requires forall k :: 0 < k < |order| ==> keys[order[k - 1]] <= keys[order[k]]
    requires j <= k < |order|
    ensures keys[order[j]] <= keys[order[k]]
  {
    if j < k { Chain(order, keys, j, k - 1); }
  }

  // --- the CPU's bucket fill -------------------------------------------------------------------

  /**
   `BuildScene`: the quads of each material end up in one stretch of the vertex
   buffer, which is the geometry of that material, and every quad is there once.
   */
  method BuildScene(mat: seq<nat>, materials: nat, vertices: array<nat>)
    returns (first: seq<nat>, cnt: seq<nat>)
    requires vertices.Length == |mat| && forall q :: 0 <= q < |mat| ==> mat[q] < materials
    modifies vertices
    ensures |first| == |cnt| == materials
    ensures Sorts(vertices[..], mat)
    ensures forall q, k :: 0 <= q < |mat| && 0 <= k < materials ==>
      (mat[vertices[q]] == k <==> first[k] <= q < first[k] + cnt[k])
  {
    hide Below, CountOf;
    cnt := CountMaterials(mat, materials);
    first := Firsts(mat, materials, cnt);
    FillVertices(mat, materials, first, vertices);
    forall q, k | 0 <= q < |mat| && 0 <= k < materials
      ensures mat[vertices[q]] == k <==> first[k] <= q < first[k] + cnt[k]
    {
      BelowNext(mat, k);
      assert InBucket(mat, vertices[..], q);
      var m := mat[vertices[q]];
      if m < k { BelowMonotone(mat, m + 1, k); }
      if k < m { BelowMonotone(mat, k + 1, m); }
    }
  }

  method Firsts(mat: seq<nat>, materials: nat, cnt: seq<nat>) returns (first: seq<nat>)
    requires |cnt| == materials && forall k :: 0 <= k < materials ==> cnt[k] == CountOf(mat, k)
    ensures |first| == materials && forall k :: 0 <= k < materials ==> first[k] == Below(mat, k)
  {
    hide Below, CountOf;
    first := [];
    BelowZero(mat);
    for k := 0 to materials
      invariant |first| == k && forall j :: 0 <= j < k ==> first[j] == Below(mat, j)
    {
      if k > 0 { BelowNext(mat, k - 1); }
      first := first + [if k == 0 then 0 else first[k - 1] + cnt[k - 1]];
    }
  }

  ghost predicate InBucket(mat: seq<nat>, vertices: seq<nat>, q: nat)
    requires q < |vertices|
  {
    vertices[q] < |mat| && Below(mat, mat[vertices[q]]) <= q < Below(mat, mat[vertices[q]] + 1)
  }

  method FillVertices(mat: seq<nat>, materials: nat, first: seq<nat>, vertices: array<nat>)
    requires vertices.Length == |mat| && forall q :: 0 <= q < |mat| ==> mat[q] < materials
    requires |first| == materials && forall k :: 0 <= k < materials ==> first[k] == Below(mat, k)
    modifies vertices
    ensures Sorts(vertices[..], mat)
    ensures forall q :: 0 <= q < |mat| ==> InBucket(mat, vertices[..], q)
  {
    hide Below, Of;
    var fill := first;
    ghost var slots: map<nat, nat> := map[];
    assert slots.Keys == {} == Range(0);
    FillStart(mat, materials, first, vertices[..]);
    for q := 0 to |mat|
      invariant Filling(mat, materials, fill, vertices[..], slots) && slots.Keys == Range(q)
    {
      hide Filling, Range;
      FillKeeps(mat, materials, fill, vertices[..], slots, q);
      assert Range(q + 1) == Range(q) + {q};
      ghost var was := vertices[..];
      vertices[fill[mat[q]]] := q;
      assert vertices[..] == was[fill[mat[q]] := q];
      slots := slots[q := fill[mat[q]]];
      fill := fill[mat[q] := fill[mat[q]] + 1];
    }
    hide Filling, Range, Sorts, InBucket;
    Buckets(mat, materials, fill, slots, vertices[..]);
  }

  lemma FillStart(mat: seq<nat>, materials: nat, first: seq<nat>, vertices: seq<nat>)
    requires |vertices| == |mat| && |first| == materials
    requires forall k :: 0 <= k < materials ==> first[k] == Below(mat, k)
    ensures Filling(mat, materials, first, vertices, map[])
  {
    hide Below;
    var none: map<nat, nat> := map[];
    assert none.Keys == {};
    NoneOf(mat);
  }

  lemma Buckets(mat: seq<nat>, materials: nat, fill: seq<nat>, slots: map<nat, nat>, vertices: seq<nat>)
    requires Filling(mat, materials, fill, vertices, slots) && slots.Keys == Range(|mat|)
    ensures Sorts(vertices, mat)
    ensures forall q :: 0 <= q < |mat| ==> InBucket(mat, vertices, q)
  {
    hide Below, Range, Of, Placed, Sorts;
    FilledSorts(mat, slots, vertices);
    forall q | 0 <= q < |mat| ensures InBucket(mat, vertices, q) {
      BucketOf(mat, slots, vertices, q);
    }
  }

  lemma BucketOf(mat: seq<nat>, slots: map<nat, nat>, vertices: seq<nat>, q: nat)
    requires Placed(mat, slots) && q < |vertices| && vertices[q] in slots && slots[vertices[q]] == q
    ensures InBucket(mat, vertices, q)
  {
    PartOf(mat, slots, vertices[q]);
  }

  /** Between the quads: each bucket is filled from its start. */
  ghost predicate Filling(mat: seq<nat>, materials: nat, fill: seq<nat>, vertices: seq<nat>, slots: map<nat, nat>) {
    && |fill| == materials && |vertices| == |mat| && Placed(mat, slots)
    && (forall k :: 0 <= k < materials ==> fill[k] == Filled(mat, slots.Keys, k))
    && (forall i :: i in slots ==> slots[i] < |mat| && vertices[slots[i]] == i)
  }

  lemma FillKeeps(mat: seq<nat>, materials: nat, fill: seq<nat>, vertices: seq<nat>, slots: map<nat, nat>, q: nat)
    requires Filling(mat, materials, fill, vertices, slots)
    requires q < |mat| && mat[q] < materials && q !in slots
    ensures mat[q] < |fill| && fill[mat[q]] < |vertices|
    ensures Filling(mat, materials, fill[mat[q] := fill[mat[q]] + 1], vertices[fill[mat[q]] := q],
                    slots[q := fill[mat[q]]])
  {
    hide Below, Of, Filled, Placed;
    PlacedNext(mat, slots, q);
    var slots' := slots[q := fill[mat[q]]];
    PlacedDistinct(mat, slots');
    assert slots'.Keys == slots.Keys + {q};
    forall i | i in slots' ensures slots'[i] < |mat| && vertices[fill[mat[q]] := q][slots'[i]] == i {
      if i != q { assert slots'[i] != slots'[q]; }
    }
  }

  method CountMaterials(mat: seq<nat>, materials: nat) returns (cnt: seq<nat>)
    requires forall q :: 0 <= q < |mat| ==> mat[q] < materials
    ensures |cnt| == materials && forall k :: 0 <= k < materials ==> cnt[k] == CountOf(mat, k)
  {
    cnt := seq(materials, _ => 0);
    assert forall key :: Of(mat, Range(0), key) == {};
    for q := 0 to |mat|
      invariant |cnt| == materials
      invariant forall k :: 0 <= k < materials ==> cnt[k] == |Of(mat, Range(q), k)|
    {
      assert Range(q + 1) == Range(q) + {q};
      forall k: nat | k < materials
        ensures |Of(mat, Range(q + 1), k)| == |Of(mat, Range(q), k)| + if mat[q] == k then 1 else 0
      {
        OfNext(mat, Range(q), q, k);
      }
      cnt := cnt[mat[q] := cnt[mat[q]] + 1];
    }
  }
}
