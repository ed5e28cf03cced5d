/** The binary heap under the timer queue (src/detail/timer_queue.cpp), with the
    comparison of include/coro/detail/timer_queue.h: earliest deadline on top, equal
    deadlines in insertion order. */
module TimerHeap {

  datatype Entry = Entry(deadline: int, seqNo: nat, slot: nat)

  /** `TimerQueue::later`. */
  predicate Later(a: Entry, b: Entry) {
    if a.deadline != b.deadline then a.deadline > b.deadline else a.seqNo > b.seqNo
  }

  function Parent(i: int): int
    requires i > 0
  {
    (i - 1) / 2
  }

  predicate Ordered(h: seq<Entry>, i: int)
    requires 0 < i < |h|
  {
    !Later(h[Parent(i)], h[i])
  }

  ghost predicate IsHeap(h: seq<Entry>) {
    forall i | 0 < i < |h| :: Ordered(h, i)
  }

  lemma {:induction false} FrontIsEarliest(h: seq<Entry>, i: int)
    requires IsHeap(h) && 0 <= i < |h|
    ensures !Later(h[0], h[i])
  {
    if i > 0 {
      FrontIsEarliest(h, Parent(i));
      assert Ordered(h, i);
    }
  }

  function Swap(h: seq<Entry>, i: int, j: int): (r: seq<Entry>)
    requires 0 <= i < |h| && 0 <= j < |h|
    ensures |r| == |h| && multiset(r) == multiset(h)
  {
    h[i := h[j]][j := h[i]]
  }

  // ---- push_heap ------------------------------------------------------------------

  /** A heap but for the entry at `i`, which may be earlier than its parent. */
  ghost predicate HeapButUp(h: seq<Entry>, i: int) {
    && 0 <= i < |h|
    && (forall j | 0 < j < |h| && j != i :: Ordered(h, j))
    && (forall j | 0 < j < |h| && i > 0 && Parent(j) == i :: !Later(h[Parent(i)], h[j]))
  }

  lemma UpOnce(h: seq<Entry>, i: int)
    requires HeapButUp(h, i) && i > 0 && Later(h[Parent(i)], h[i])
    ensures HeapButUp(Swap(h, i, Parent(i)), Parent(i))
  {
    var p := Parent(i);
    var r := Swap(h, i, p);
    forall j | 0 < j < |r| && j != p ensures Ordered(r, j) {
      if j != i { assert Ordered(h, j); }
    }
    forall j | 0 < j < |r| && p > 0 && Parent(j) == p ensures !Later(r[Parent(p)], r[j]) {
      assert Ordered(h, p);
      if j != i { assert Ordered(h, j); }
    }
  }

  /** `std::push_heap`: the last entry of `h` joins the heap before it. */
  method PushHeap(h: seq<Entry>) returns (r: seq<Entry>)
    requires |h| > 0 && IsHeap(h[..|h| - 1])
    ensures IsHeap(r) && multiset(r) == multiset(h)
  {
    r := h;
    var i := |h| - 1;
    forall j | 0 < j < |r| && j != i ensures Ordered(r, j) { assert Ordered(h[..|h| - 1], j); }
    while i > 0 && Later(r[Parent(i)], r[i])
      invariant HeapButUp(r, i)
      invariant multiset(r) == multiset(h)
    {
      UpOnce(r, i);
      r := Swap(r, i, Parent(i));
      i := Parent(i);
    }
  }

  /** `push_back` and `push_heap`. */
  method AddToHeap(h: seq<Entry>, e: Entry) returns (r: seq<Entry>)
    requires IsHeap(h)
    ensures IsHeap(r) && multiset(r) == multiset(h) + multiset{e}
  {
    assert (h + [e])[..|h + [e]| - 1] == h;
    r := PushHeap(h + [e]);
  }

  // ---- sift down, pop_heap, make_heap ------------------------------------------------

  /** From index `lo` on a heap, but for the entry at `i`, which may be later than
      its children. */
  ghost predicate HeapButDown(h: seq<Entry>, lo: int, i: int) {
    && 0 <= lo <= i < |h|
    && (forall j | 0 < j < |h| && Parent(j) >= lo && Parent(j) != i :: Ordered(h, j))
    && (forall j | 0 < j < |h| && i > 0 && Parent(i) >= lo && Parent(j) == i :: !Later(h[Parent(i)], h[j]))
  }

  ghost predicate HeapFrom(h: seq<Entry>, lo: int) {
    forall j | 0 < j < |h| && Parent(j) >= lo :: Ordered(h, j)
  }

  lemma DownOnce(h: seq<Entry>, lo: int, i: int, c: int)
    requires HeapButDown(h, lo, i) && 0 < c < |h| && Parent(c) == i && Later(h[i], h[c])
    requires forall j | 0 < j < |h| && Parent(j) == i :: !Later(h[c], h[j])
    ensures HeapButDown(Swap(h, i, c), lo, c)
  {
    var r := Swap(h, i, c);
    forall j | 0 < j < |r| && Parent(j) >= lo && Parent(j) != c ensures Ordered(r, j) {
      if Parent(j) != i && j != i { assert Ordered(h, j); }
    }
    forall j | 0 < j < |r| && Parent(j) == c ensures !Later(r[i], r[j]) {
      assert Ordered(h, j);
    }
  }

  /** The earlier child of `i`. */
  function EarlierChild(h: seq<Entry>, i: int): (c: int)
    requires 0 <= i && 2 * i + 1 < |h|
    ensures 0 < c < |h| && Parent(c) == i
  {
    var c := 2 * i + 1;
    if c + 1 < |h| && Later(h[c], h[c + 1]) then c + 1 else c
  }

  lemma EarlierChildFirst(h: seq<Entry>, i: int)
    requires 0 <= i && 2 * i + 1 < |h|
    ensures forall j | 0 < j < |h| && Parent(j) == i :: !Later(h[EarlierChild(h, i)], h[j])
  {
    forall j | 0 < j < |h| && Parent(j) == i ensures !Later(h[EarlierChild(h, i)], h[j]) {
      assert j == 2 * i + 1 || j == 2 * i + 2;
    }
  }

  /** Nothing below `i` is earlier than it: the sift is done. */
  lemma DownDone(h: seq<Entry>, lo: int, i: int)
    requires HeapButDown(h, lo, i)
    requires 2 * i + 1 < |h| ==> !Later(h[i], h[EarlierChild(h, i)])
    ensures HeapFrom(h, lo)
  {
    forall j | 0 < j < |h| && Parent(j) >= lo ensures Ordered(h, j) {
      if Parent(j) == i { EarlierChildFirst(h, i); }
    }
  }

  method SiftDown(h: seq<Entry>, lo: nat) returns (r: seq<Entry>)
    requires lo < |h| && HeapFrom(h, lo + 1)
    ensures HeapFrom(r, lo) && multiset(r) == multiset(h) && |r| == |h|
  {
    r := h;
    var i := lo;
    while 2 * i + 1 < |r| && Later(r[i], r[EarlierChild(r, i)])
      invariant HeapButDown(r, lo, i)
      invariant multiset(r) == multiset(h) && |r| == |h|
      decreases |r| - i
    {
      var c := EarlierChild(r, i);
      EarlierChildFirst(r, i);
      DownOnce(r, lo, i, c);
      r := Swap(r, i, c);
      i := c;
    }
    DownDone(r, lo, i);
  }

  /** `std::pop_heap` and `pop_back`: takes the front entry out. */
  method PopHeap(h: seq<Entry>) returns (front: Entry, r: seq<Entry>)
    requires |h| > 0 && IsHeap(h)
    ensures front == h[0] && IsHeap(r) && multiset(r) + multiset{front} == multiset(h)
  {
    front := h[0];
    var n := |h| - 1;
    var swapped := Swap(h, 0, n);
    r := swapped[..n];
    assert swapped == r + [front];
    if n > 0 {
      forall j | 0 < j < |r| && Parent(j) >= 1 ensures Ordered(r, j) { assert Ordered(h, j); }
      r := SiftDown(r, 0);
      forall j | 0 < j < |r| ensures Ordered(r, j) { assert Parent(j) >= 0; }
    }
  }

  /** `std::make_heap`. */
  method MakeHeap(h: seq<Entry>) returns (r: seq<Entry>)
    ensures IsHeap(r) && multiset(r) == multiset(h)
  {
    r := h;
    var k := |h| / 2;
    while k > 0
      invariant 0 <= k <= |r| / 2 && |r| == |h|
      invariant HeapFrom(r, k) && multiset(r) == multiset(h)
    {
      k := k - 1;
      r := SiftDown(r, k);
    }
    forall j | 0 < j < |r| ensures Ordered(r, j) { assert Parent(j) >= 0; }
  }
}
