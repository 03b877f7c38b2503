/** The heap algorithms behind SteadyHeap, on values.

    A heap is ordered by keys that live outside it (the timestamp of a channel's earliest
    packet, for example), so every operation receives `keys`, what the comparator can read at
    the time of the call.  An element that is missing from `keys` cannot be compared: looking
    up its key is a verification error.  Removing an element never needs that element's key.
  */
module Heaps {

  function Parent(i: nat): nat
    requires 0 < i
  {
    (i - 1) / 2
  }

  function Swap<T>(h: seq<T>, i: nat, j: nat): (r: seq<T>)
    requires i < |h| && j < |h|
    ensures |r| == |h|
  {
    h[i := h[j]][j := h[i]]
  }

  lemma SwapKeepsElements<T>(h: seq<T>, i: nat, j: nat)
    requires i < |h| && j < |h|
    ensures multiset(Swap(h, i, j)) == multiset(h)
  {
  }

  /** SteadyHeap::count. */
  function Count<T(==)>(h: seq<T>, x: T): nat {
    multiset(h)[x]
  }

  lemma NothingCounted<T>(h: seq<T>)
    requires forall x :: Count(h, x) == 0
    ensures h == []
  {
    assert h == [] || Count(h, h[0]) > 0;
  }

  /** Every element can be compared. */
  ghost predicate Comparable<T>(keys: map<T, int>, h: seq<T>) {
    forall x :: x in h ==> x in keys
  }

  /** No element is earlier than its parent: front() is a minimal element. */
  ghost predicate Ordered<T>(keys: map<T, int>, h: seq<T>) {
    && Comparable(keys, h)
    && forall i :: 0 < i < |h| ==> keys[h[Parent(i)]] <= keys[h[i]]
  }

  /** Ordered, but for the element at index `hole`, whose key is not looked at. */
  ghost predicate OrderedAround<T>(keys: map<T, int>, h: seq<T>, hole: nat) {
    && (forall i :: 0 <= i < |h| && i != hole ==> h[i] in keys)
    && (forall i :: 0 < i < |h| && i != hole && Parent(i) != hole ==> keys[h[Parent(i)]] <= keys[h[i]])
    && (forall i :: 0 < i < |h| && 0 < hole < |h| && Parent(i) == hole ==> keys[h[Parent(hole)]] <= keys[h[i]])
  }

  lemma SwapComparable<T>(keys: map<T, int>, h: seq<T>, i: nat, j: nat)
    requires i < |h| && j < |h| && Comparable(keys, h)
    ensures Comparable(keys, Swap(h, i, j))
    ensures multiset(Swap(h, i, j)) == multiset(h)
  {
    SwapKeepsElements(h, i, j);
    SameElements(h, Swap(h, i, j));
  }

  /** std::push_heap: the element at `i` climbs while its parent is later. */
  function SiftUp<T>(keys: map<T, int>, h: seq<T>, i: nat): (r: seq<T>)
    requires i < |h| && Comparable(keys, h)
    ensures |r| == |h| && Comparable(keys, r)
    ensures multiset(r) == multiset(h)
    decreases i
  {
    if 0 < i && keys[h[Parent(i)]] > keys[h[i]] then
      var h' := Swap(h, i, Parent(i));
      SwapComparable(keys, h, i, Parent(i));
      SiftUp(keys, h', Parent(i))
    else
      h
  }

  /** The child std::pop_heap moves the hole to; the right one on a tie. */
  function EarlierChild<T>(keys: map<T, int>, h: seq<T>, i: nat): (c: nat)
    requires 2 * i + 1 < |h| && Comparable(keys, h)
    ensures c == 2 * i + 1 || c == 2 * i + 2
    ensures c < |h|
  {
    if 2 * i + 2 < |h| && keys[h[2 * i + 2]] <= keys[h[2 * i + 1]] then 2 * i + 2 else 2 * i + 1
  }

  /** std::pop_heap: the element at `i` sinks to a leaf, uncompared, and then climbs. */
  function Sink<T>(keys: map<T, int>, h: seq<T>, i: nat): (r: seq<T>)
    requires i < |h| && Comparable(keys, h)
    ensures |r| == |h| && Comparable(keys, r)
    ensures multiset(r) == multiset(h)
    decreases |h| - i
  {
    if 2 * i + 1 < |h| then
      var c := EarlierChild(keys, h, i);
      var h' := Swap(h, i, c);
      SwapComparable(keys, h, i, c);
      Sink(keys, h', c)
    else
      SiftUp(keys, h, i)
  }

  /** SteadyHeap::push_heap. */
  function Push<T>(keys: map<T, int>, h: seq<T>, x: T): (r: seq<T>)
    requires Comparable(keys, h) && x in keys
    ensures multiset(r) == multiset(h) + multiset{x}
    ensures r != [] && Comparable(keys, r)
  {
    SiftUp(keys, h + [x], |h|)
  }

  /** SteadyHeap::pop_heap: the last element takes the place of the first, which is dropped. */
  function Pop<T>(keys: map<T, int>, h: seq<T>): (r: seq<T>)
    requires h != [] && Comparable(keys, h[1..])
    ensures multiset(r) == multiset(h) - multiset{h[0]}
    ensures Comparable(keys, r)
  {
    assert h == [h[0]] + h[1..];
    if |h| == 1 then [] else
      var h' := h[..|h| - 1][0 := h[|h| - 1]];
      MovedLast(keys, h);
      Sink(keys, h', 0)
  }

  lemma MovedLast<T>(keys: map<T, int>, h: seq<T>)
    requires |h| > 1 && Comparable(keys, h[1..])
    ensures Comparable(keys, h[..|h| - 1][0 := h[|h| - 1]])
    ensures multiset(h[..|h| - 1][0 := h[|h| - 1]]) == multiset(h[1..])
  {
    var n := |h| - 1;
    var h' := h[..n][0 := h[n]];
    assert h' == [h[n]] + h[1..n];
    assert h[1..] == h[1..n] + [h[n]];
    SameElements(h', h[1..]);
  }

  function IndexOf<T(==)>(h: seq<T>, x: T): (i: nat)
    requires x in h
    ensures i < |h| && h[i] == x
    ensures forall j :: 0 <= j < i ==> h[j] != x
  {
    if h[0] == x then 0 else 1 + IndexOf(h[1..], x)
  }

  /** SteadyHeap::force_to_top: the element at `i` climbs to the root, uncompared. */
  function ForceToTop<T>(h: seq<T>, i: nat): (r: seq<T>)
    requires i < |h|
    ensures |r| == |h|
    ensures r[0] == h[i]
    ensures multiset(r) == multiset(h)
    decreases i
  {
    if i == 0 then h else
      SwapKeepsElements(h, i, Parent(i));
      ForceToTop(Swap(h, i, Parent(i)), Parent(i))
  }

  /** `x` occurs once in `h` and every other element can be compared. */
  ghost predicate Removable<T>(keys: map<T, int>, h: seq<T>, x: T) {
    && Count(h, x) == 1
    && forall y :: y in h && y != x ==> y in keys
  }

  /** SteadyHeap::force_pop_heap. */
  function ForcePop<T(==)>(keys: map<T, int>, h: seq<T>, x: T): (r: seq<T>)
    requires Removable(keys, h, x)
    ensures multiset(r) == multiset(h) - multiset{x}
    ensures Comparable(keys, r)
  {
    var top := ForceToTop(h, IndexOf(h, x));
    RestIsComparable(keys, h, top, x);
    Pop(keys, top)
  }

  /** force_pop_heap followed by push_heap: the repair of an element whose key has changed. */
  function Reinsert<T(==)>(keys: map<T, int>, h: seq<T>, x: T): (r: seq<T>)
    requires Removable(keys, h, x) && x in keys
    ensures multiset(r) == multiset(h)
    ensures r != [] && Comparable(keys, r)
  {
    Push(keys, ForcePop(keys, h, x), x)
  }

  lemma SameElements<T>(h: seq<T>, h': seq<T>)
    requires multiset(h) == multiset(h')
    ensures forall x :: x in h <==> x in h'
  {
    forall x ensures x in h <==> x in h' {
      assert x in h <==> x in multiset(h);
      assert x in h' <==> x in multiset(h');
    }
  }

  lemma RestIsComparable<T>(keys: map<T, int>, h: seq<T>, top: seq<T>, x: T)
    requires Removable(keys, h, x)
    requires multiset(top) == multiset(h) && top != [] && top[0] == x
    ensures Comparable(keys, top[1..])
  {
    forall y | y in top[1..] ensures y in keys {
      assert top == [x] + top[1..];
      assert multiset(top)[y] == multiset([x])[y] + multiset(top[1..])[y];
      assert y != x;
      SameElements(h, top);
    }
  }

  // ---------- order and contents ----------

  lemma {:induction false} SiftUpOrders<T>(keys: map<T, int>, h: seq<T>, i: nat)
    requires i < |h| && Comparable(keys, h)
    requires forall j :: 0 < j < |h| && j != i ==> keys[h[Parent(j)]] <= keys[h[j]]
    requires forall j :: 0 < j < |h| && 0 < i && Parent(j) == i ==> keys[h[Parent(i)]] <= keys[h[j]]
    ensures Ordered(keys, SiftUp(keys, h, i))
    decreases i
  {
    if 0 < i && keys[h[Parent(i)]] > keys[h[i]] {
      var p := Parent(i);
      var h' := Swap(h, i, p);
      SwapComparable(keys, h, i, p);
      forall j | 0 < j < |h| && j != p ensures keys[h'[Parent(j)]] <= keys[h'[j]] {
        if Parent(j) == p && j != i {
          assert keys[h[p]] <= keys[h[j]];
        }
      }
      forall j | 0 < j < |h| && 0 < p && Parent(j) == p ensures keys[h'[Parent(p)]] <= keys[h'[j]] {
        assert keys[h[Parent(p)]] <= keys[h[p]];
        if j != i {
          assert keys[h[p]] <= keys[h[j]];
        }
      }
      SiftUpOrders(keys, h', p);
    }
  }

  /** One level of sinking moves the hole to the earlier child. */
  lemma SinkStep<T>(keys: map<T, int>, h: seq<T>, i: nat, c: nat)
    requires 2 * i + 1 < |h| && Comparable(keys, h) && OrderedAround(keys, h, i)
    requires c == EarlierChild(keys, h, i)
    ensures OrderedAround(keys, Swap(h, i, c), c)
    ensures multiset(Swap(h, i, c)) == multiset(h)
  {
    var h' := Swap(h, i, c);
    SwapKeepsElements(h, i, c);
    SameElements(h, h');
    assert Parent(c) == i;
    forall j | 0 < j < |h| && Parent(j) == i ensures keys[h[c]] <= keys[h[j]] {
      assert j == 2 * i + 1 || j == 2 * i + 2;
    }
    forall j | 0 < j < |h| && j != c && Parent(j) != c ensures keys[h'[Parent(j)]] <= keys[h'[j]] {
      if j == i {
        assert keys[h[Parent(i)]] <= keys[h[c]];
      }
    }
    forall j | 0 < j < |h| && Parent(j) == c ensures keys[h'[Parent(c)]] <= keys[h'[j]] {
      assert j != i && j != c;
      assert keys[h[Parent(j)]] <= keys[h[j]];
    }
  }

  lemma {:induction false} SinkOrders<T>(keys: map<T, int>, h: seq<T>, i: nat)
    requires i < |h| && Comparable(keys, h) && OrderedAround(keys, h, i)
    ensures Ordered(keys, Sink(keys, h, i))
    decreases |h| - i
  {
    if 2 * i + 1 < |h| {
      var c := EarlierChild(keys, h, i);
      SinkStep(keys, h, i, c);
      SameElements(h, Swap(h, i, c));
      SinkOrders(keys, Swap(h, i, c), c);
    } else {
      SiftUpOrders(keys, h, i);
    }
  }

  /** push_heap keeps the order. */
  lemma PushOrders<T>(keys: map<T, int>, h: seq<T>, x: T)
    requires Ordered(keys, h) && x in keys
    ensures Ordered(keys, Push(keys, h, x))
  {
    var h' := h + [x];
    forall j | 0 < j < |h'| ensures Parent(j) < |h| {
    }
    SiftUpOrders(keys, h', |h|);
  }

  /** pop_heap needs order only below the root: the root itself is never compared. */
  lemma PopOrders<T>(keys: map<T, int>, h: seq<T>)
    requires h != [] && Comparable(keys, h[1..]) && OrderedAround(keys, h, 0)
    ensures Ordered(keys, Pop(keys, h))
  {
    var n := |h| - 1;
    if n != 0 {
      var h' := h[..n][0 := h[n]];
      MovedLast(keys, h);
      assert OrderedAround(keys, h', 0) by {
        forall i | 0 < i < |h'| && Parent(i) != 0 ensures keys[h'[Parent(i)]] <= keys[h'[i]] {
          assert h'[i] == h[i] && h'[Parent(i)] == h[Parent(i)];
        }
      }
      SinkOrders(keys, h', 0);
    }
  }

  lemma PopOrdersHeap<T>(keys: map<T, int>, h: seq<T>)
    requires h != [] && Ordered(keys, h)
    ensures Comparable(keys, h[1..]) && Ordered(keys, Pop(keys, h))
  {
    assert forall x :: x in h[1..] ==> x in h;
    assert OrderedAround(keys, h, 0);
    hide Pop;
    PopOrders(keys, h);
  }

  lemma {:induction false} ForceToTopOrdersRest<T>(keys: map<T, int>, h: seq<T>, i: nat)
    requires i < |h| && OrderedAround(keys, h, i)
    ensures OrderedAround(keys, ForceToTop(h, i), 0)
    decreases i
  {
    if i == 0 {
    } else {
      var p := Parent(i);
      var h' := Swap(h, i, p);
      assert OrderedAround(keys, h', p) by {
        forall j | 0 < j < |h'| && j != p && Parent(j) != p ensures keys[h'[Parent(j)]] <= keys[h'[j]] {
        }
        forall j | 0 < j < |h'| && 0 < p && Parent(j) == p ensures keys[h'[Parent(p)]] <= keys[h'[j]] {
          assert keys[h[Parent(p)]] <= keys[h[p]];
          if j != i {
            assert keys[h[p]] <= keys[h[j]];
          }
        }
      }
      ForceToTopOrdersRest(keys, h', p);
    }
  }

  /** Stale-key removal.  If `h` was a heap when `x` had some key `k` that may no longer be its
      key (`x` may have no key at all by now), force_pop_heap leaves a heap under the current
      keys that holds exactly the other elements. */
  lemma ForcePopOrders<T>(keys: map<T, int>, h: seq<T>, x: T, k: int)
    requires Ordered(keys[x := k], h) && Count(h, x) == 1
    ensures Removable(keys, h, x)
    ensures Ordered(keys, ForcePop(keys, h, x))
    ensures multiset(ForcePop(keys, h, x)) == multiset(h) - multiset{x}
  {
    var i := IndexOf(h, x);
    assert Removable(keys, h, x);
    forall j | 0 <= j < |h| && j != i ensures h[j] != x {
      if h[j] == x {
        TwoOccurrences(h, i, j);
      }
    }
    assert OrderedAround(keys, h, i) by {
      var was := keys[x := k];
      forall j | 0 < j < |h| && 0 < i && Parent(j) == i ensures keys[h[Parent(i)]] <= keys[h[j]] {
        assert was[h[Parent(j)]] <= was[h[j]];
        assert was[h[Parent(i)]] <= was[h[i]];
      }
    }
    ForceToTopOrdersRest(keys, h, i);
    var top := ForceToTop(h, i);
    RestIsComparable(keys, h, top, x);
    PopOrders(keys, top);
  }

  /** The repair restores the order, whatever the key was and has become. */
  lemma ReinsertOrders<T>(keys: map<T, int>, h: seq<T>, x: T, k: int)
    requires Ordered(keys[x := k], h) && Count(h, x) == 1 && x in keys
    ensures Removable(keys, h, x)
    ensures Ordered(keys, Reinsert(keys, h, x))
  {
    ForcePopOrders(keys, h, x, k);
    PushOrders(keys, ForcePop(keys, h, x), x);
  }

  lemma TwoOccurrences<T>(h: seq<T>, i: nat, j: nat)
    requires i < j < |h| && h[i] == h[j]
    ensures Count(h, h[i]) >= 2
  {
    assert h == h[..j] + h[j..];
    assert h[i] == h[..j][i] && h[j] == h[j..][0];
    assert multiset(h) == multiset(h[..j]) + multiset(h[j..]);
  }

  /** front() of a heap is minimal. */
  lemma {:induction false} FrontIsMinimal<T>(keys: map<T, int>, h: seq<T>, i: nat)
    requires Ordered(keys, h) && i < |h|
    ensures keys[h[0]] <= keys[h[i]]
    decreases i
  {
    if i == 0 {
    } else {
      FrontIsMinimal(keys, h, Parent(i));
    }
  }

  lemma FrontIsEarliest<T>(keys: map<T, int>, h: seq<T>)
    requires Ordered(keys, h)
    ensures forall x :: x in h ==> x in keys && keys[h[0]] <= keys[x]
  {
    forall x | x in h ensures keys[h[0]] <= keys[x] {
      FrontIsMinimal(keys, h, IndexOf(h, x));
    }
  }

  /** The front after adding `x` is the earlier of `x` and the old front. */
  lemma FrontAfterAdding<T>(keys: map<T, int>, h: seq<T>, x: T, r: seq<T>)
    requires Ordered(keys, h) && Ordered(keys, r) && multiset(r) == multiset(h) + multiset{x}
    ensures r != [] && x in keys && r[0] in keys && (h != [] ==> h[0] in keys)
    ensures keys[r[0]] == if h == [] || keys[x] < keys[h[0]] then keys[x] else keys[h[0]]
  {
    SameElements(r, h + [x]);
    assert x in h + [x] && x in r && r[0] in r && r[0] in h + [x];
    FrontIsMinimal(keys, r, IndexOf(r, x));
    if h != [] {
      assert h[0] in h + [x] && h[0] in r;
      FrontIsMinimal(keys, r, IndexOf(r, h[0]));
    }
    if r[0] != x {
      assert r[0] in h;
      FrontIsMinimal(keys, h, IndexOf(h, r[0]));
    }
  }

  /** Removing an element that is not the front leaves the front's key in front. */
  lemma FrontAfterRemoval<T>(keys: map<T, int>, h: seq<T>, x: T, k: int)
    requires Ordered(keys[x := k], h) && Count(h, x) == 1 && h[0] != x
    ensures Removable(keys, h, x)
    ensures var rest := ForcePop(keys, h, x);
      rest != [] && rest[0] in keys && h[0] in keys && keys[rest[0]] == keys[h[0]]
  {
    hide Ordered, ForcePop, Removable;
    ForcePopOrders(keys, h, x, k);
    var rest := ForcePop(keys, h, x);
    assert h[0] in multiset(rest) && h[0] in rest;
    assert rest[0] in multiset(rest);
    assert rest[0] in multiset(h) && rest[0] in h && rest[0] != x;
    FrontIsEarliest(keys, rest);
    FrontIsEarliest(keys[x := k], h);
  }

  /** Moving an element that is not the front leaves the earlier of its key and the front's. */
  lemma FrontAfterReinsert<T>(keys: map<T, int>, h: seq<T>, x: T, k: int)
    requires Ordered(keys[x := k], h) && Count(h, x) == 1 && x in keys && h[0] != x
    ensures Removable(keys, h, x) && h[0] in keys
    ensures var r := Reinsert(keys, h, x);
      r[0] in keys && keys[r[0]] == if keys[x] < keys[h[0]] then keys[x] else keys[h[0]]
  {
    hide Ordered, ForcePop, Reinsert, Removable;
    ForcePopOrders(keys, h, x, k);
    ReinsertOrders(keys, h, x, k);
    FrontAfterRemoval(keys, h, x, k);
    OnceLess(h, x, ForcePop(keys, h, x));
    FrontAfterAdding(keys, ForcePop(keys, h, x), x, Reinsert(keys, h, x));
  }

  lemma OnceLess<T>(h: seq<T>, x: T, rest: seq<T>)
    requires Count(h, x) == 1 && multiset(rest) == multiset(h) - multiset{x}
    ensures multiset(h) == multiset(rest) + multiset{x}
  {
  }

  /** Order depends on nothing but the keys of the elements in the heap. */
  lemma SameKeysSameOrder<T>(keys: map<T, int>, keys': map<T, int>, h: seq<T>)
    requires Ordered(keys, h)
    requires forall i :: 0 <= i < |h| ==> h[i] in keys' && keys'[h[i]] == keys[h[i]]
    ensures Ordered(keys', h)
  {
  }
}

/** src/SteadyHeap.h: a vector kept as a heap in place. */
module SteadyHeaps {
  import opened Heaps

  class SteadyHeap<T(==)> {
    var heap: seq<T>

    constructor ()
      ensures heap == []
    {
      heap := [];
    }

    /** The climbing loop of std::push_heap. */
    method Climb(keys: map<T, int>, start: nat)
      requires start < |heap| && Comparable(keys, heap)
      modifies this
      ensures heap == SiftUp(keys, old(heap), start)
    {
      var i: nat := start;
      while 0 < i && keys[heap[Parent(i)]] > keys[heap[i]]
        invariant i < |heap| && Comparable(keys, heap)
        invariant SiftUp(keys, heap, i) == SiftUp(keys, old(heap), start)
      {
        SwapComparable(keys, heap, i, Parent(i));
        heap, i := Swap(heap, i, Parent(i)), Parent(i);
      }
    }

    method PushHeap(keys: map<T, int>, value: T)
      requires Comparable(keys, heap) && value in keys
      modifies this
      ensures heap == Push(keys, old(heap), value)
    {
      heap := heap + [value];
      Climb(keys, |heap| - 1);
    }

    /** The sinking loop of std::pop_heap: the root sinks to a leaf, then climbs. */
    method SinkRoot(keys: map<T, int>)
      requires heap != [] && Comparable(keys, heap)
      modifies this
      ensures heap == Sink(keys, old(heap), 0)
    {
      var i: nat := 0;
      while 2 * i + 1 < |heap|
        invariant i < |heap| && Comparable(keys, heap)
        invariant Sink(keys, heap, i) == Sink(keys, old(heap), 0)
        decreases |heap| - i
      {
        var c := EarlierChild(keys, heap, i);
        SwapComparable(keys, heap, i, c);
        heap, i := Swap(heap, i, c), c;
      }
      Climb(keys, i);
    }

    method PopHeap(keys: map<T, int>)
      requires heap != [] && Comparable(keys, heap[1..])
      modifies this
      ensures heap == Pop(keys, old(heap))
    {
      hide Sink, Comparable;
      if |heap| == 1 {
        heap := [];
      } else {
        MovedLast(keys, heap);
        heap := heap[..|heap| - 1][0 := heap[|heap| - 1]];
        SinkRoot(keys);
      }
    }

    method ForceToTop(value: T)
      requires value in heap
      modifies this
      ensures heap == Heaps.ForceToTop(old(heap), IndexOf(old(heap), value))
    {
      var i: nat := IndexOf(heap, value);
      while i > 0
        invariant i < |heap|
        invariant Heaps.ForceToTop(heap, i) == Heaps.ForceToTop(old(heap), IndexOf(old(heap), value))
      {
        heap, i := Swap(heap, i, Parent(i)), Parent(i);
      }
    }

    method ForcePopHeap(keys: map<T, int>, value: T)
      requires Removable(keys, heap, value)
      modifies this
      ensures heap == ForcePop(keys, old(heap), value)
    {
      ForceToTop(value);
      RestIsComparable(keys, old(heap), heap, value);
      PopHeap(keys);
    }

    /** The repair after `value`'s key has changed, as the Scheduler does it. */
    method ReinsertHeap(keys: map<T, int>, value: T)
      requires Removable(keys, heap, value) && value in keys
      modifies this
      ensures heap == Reinsert(keys, old(heap), value)
    {
      ForcePopHeap(keys, value);
      PushHeap(keys, value);
    }
  }
}
