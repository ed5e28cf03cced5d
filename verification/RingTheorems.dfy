/** The safety guarantees of the ring, over every run: exclusive slots, ordered indices, one
    thief at a time. */
module RingTheorems {
  import opened RingMachine
  import opened RingSafety

  // ---- exclusive slots ----------------------------------------------------------

  /** Physical slot `q` is the slot of one of the `n` indices from `from` on. */
  ghost predicate InSpan(q: int, from: int, n: int) {
    (q - from) % 256 < n
  }

  lemma SpanIndex(q: int, from: int, n: int) returns (j: int)
    requires InSpan(q, from, n) && 0 <= q < 256
    ensures from <= j < from + n && Slot(j) == q
  {
    j := from + (q - from) % 256;
  }

  /** Slot `q` of its own ring is one that a worker at `p` reads or writes, without
      any further check, before it next publishes `head` or `tail`. */
  ghost predicate TouchesOwn(p: Pc, q: int) {
    match p
    case PushWrite(_, tail, _) => InSpan(q, tail, 1)
    case PushStore(_, tail, _) => InSpan(q, tail, 1)
    case SpillExpose(_, base, _, _) => InSpan(q, base, 256)
    case SpillMove(_, base, batch, _) => InSpan(q, base + 128 + |batch|, 128 - |batch|)
    case PopRead(front, _) => InSpan(q, front, 1)
    case StealCopy(_, dst, _, n, _, _) => InSpan(q, dst, n)
    case StealFinish(_, dst, _, _, n, _) => InSpan(q, dst, n)
    case StealTake(dst, n, _) => InSpan(q, dst, n)
    case StealStore(dst, n, _, _) => InSpan(q, dst, n)
    case _ => false
  }

  /** Slot `q` of its victim's ring is one that a thief at `p` still has to read. */
  ghost predicate TouchesVictim(p: Pc, q: int) {
    p.StealCopy? && InSpan(q, p.prev.steal + p.i, p.n - p.i)
  }

  ghost predicate Touches(s: State, w: nat, y: nat, q: int)
    requires w < |s.pcs|
  {
    (w == y && TouchesOwn(s.pcs[w], q))
    || (HasVictim(s.pcs[w]) && s.pcs[w].victim == y && TouchesVictim(s.pcs[w], q))
  }

  lemma NotInWindow(r: Ring, k: int, j: int)
    requires RingOk(r) && r.thief != -1 && r.head.steal <= j < r.head.steal + r.claim
    requires r.tail <= k < r.head.steal + 256
    ensures Slot(k) != Slot(j)
  {
    SlotsDiffer(j, k);
  }

  /** An owner never touches a slot its ring's thief is still reading. */
  lemma OwnerAvoidsWindow(r: Ring, p: Pc, j: int, q: int)
    requires RingOk(r) && OwnerOk(r, p) && TouchesOwn(p, q) && 0 <= q < 256
    requires r.thief != -1 && r.head.steal <= j < r.head.steal + r.claim
    ensures q != Slot(j)
  {
    match p
    case PushWrite(_, tail, _) => var k := SpanIndex(q, tail, 1); NotInWindow(r, k, j);
    case PushStore(_, tail, _) => var k := SpanIndex(q, tail, 1); NotInWindow(r, k, j);
    case SpillMove(_, base, batch, _) =>
      var k := SpanIndex(q, base + 128 + |batch|, 128 - |batch|);
      SlotWraps(k);
      NotInWindow(r, k + 256, j);
    case PopRead(front, _) =>
      var k := SpanIndex(q, front, 1);
      if k < j { SlotsDiffer(k, j); } else { SlotsDiffer(j, k); }
    case StealCopy(_, dst, _, n, _, _) => var k := SpanIndex(q, dst, n); NotInWindow(r, k, j);
    case StealFinish(_, dst, _, _, n, _) => var k := SpanIndex(q, dst, n); NotInWindow(r, k, j);
    case StealTake(dst, n, _) => var k := SpanIndex(q, dst, n); NotInWindow(r, k, j);
    case StealStore(dst, n, _, _) => var k := SpanIndex(q, dst, n); NotInWindow(r, k, j);
    case _ =>
  }

  lemma OwnerAgainstThief(s: State, w: nat, x: nat, q: int)
    requires Inv(s) && w < |s.rings| && x < |s.rings| && w != x && 0 <= q < 256
    requires HasVictim(s.pcs[x]) && s.pcs[x].victim == w && TouchesVictim(s.pcs[x], q)
    ensures !TouchesOwn(s.pcs[w], q)
  {
    assert WorkerOk(s, w) && WorkerOk(s, x) && RingOk(s.rings[w]);
    var p := s.pcs[x];
    var j := SpanIndex(q, p.prev.steal + p.i, p.n - p.i);
    if TouchesOwn(s.pcs[w], q) {
      OwnerAvoidsWindow(s.rings[w], s.pcs[w], j, q);
    }
  }

  /** No slot of any ring is open to two workers at once. */
  ghost predicate SlotsDisjoint(s: State) {
    forall w, x, y, q | 0 <= w < |s.pcs| && 0 <= x < |s.pcs| && 0 <= y && 0 <= q < 256
      && Touches(s, w, y, q) && Touches(s, x, y, q) :: w == x
  }

  lemma SlotsExclusive(s: State, w: nat, x: nat, y: nat, q: int)
    requires Inv(s) && w < |s.rings| && x < |s.rings| && 0 <= q < 256
    requires Touches(s, w, y, q) && Touches(s, x, y, q)
    ensures w == x
  {
    assert WorkerOk(s, w) && WorkerOk(s, x);
    if x == y && w != x {
      OwnerAgainstThief(s, x, w, q);
    } else if w == y && w != x {
      OwnerAgainstThief(s, w, x, q);
    }
  }

  ghost predicate IndicesOrdered(s: State) {
    forall y | 0 <= y < |s.rings| :: var r := s.rings[y];
      r.head.steal <= r.head.front <= r.tail <= r.head.steal + 256
  }

  ghost predicate NoneBroken(s: State) {
    forall w | 0 <= w < |s.pcs| :: !s.pcs[w].Broken?
  }

  ghost predicate Stealing(p: Pc, y: nat) {
    (p.StealCopy? || p.StealFinish?) && p.victim == y
  }

  ghost predicate OneThief(s: State) {
    forall w, x, y: nat | 0 <= w < |s.pcs| && 0 <= x < |s.pcs|
      && Stealing(s.pcs[w], y) && Stealing(s.pcs[x], y) :: w == x
  }

  /** A thief that has just copied expects the head word from before its claim. */
  ghost predicate StaleFinishFails(s: State) {
    forall w | 0 <= w < |s.pcs| && s.pcs[w].StealFinish? && s.pcs[w].prev.front == s.pcs[w].first ::
      s.pcs[w].victim < |s.rings| && s.rings[s.pcs[w].victim].head != s.pcs[w].prev
  }

  lemma InvariantMeans(s: State)
    requires Inv(s)
    ensures IndicesOrdered(s) && NoneBroken(s) && OneThief(s) && StaleFinishFails(s)
    ensures SlotsDisjoint(s)
  {
    forall w | 0 <= w < |s.pcs| ensures !s.pcs[w].Broken? { assert WorkerOk(s, w); }
    forall w, x, y: nat | 0 <= w < |s.pcs| && 0 <= x < |s.pcs|
      && Stealing(s.pcs[w], y) && Stealing(s.pcs[x], y) ensures w == x
    {
      assert WorkerOk(s, w) && WorkerOk(s, x);
    }
    forall w | 0 <= w < |s.pcs| && s.pcs[w].StealFinish? && s.pcs[w].prev.front == s.pcs[w].first
      ensures s.pcs[w].victim < |s.rings| && s.rings[s.pcs[w].victim].head != s.pcs[w].prev
    {
      assert WorkerOk(s, w);
    }
    forall w, x, y, q | 0 <= w < |s.pcs| && 0 <= x < |s.pcs| && 0 <= y && 0 <= q < 256
      && Touches(s, w, y, q) && Touches(s, x, y, q) ensures w == x
    {
      SlotsExclusive(s, w, x, y, q);
    }
  }

  // Reachable's definition is used only where `Unfold(Fold)` is mentioned.
  datatype Fold = Fold
  ghost predicate Unfold(f: Fold) { true }

  /** Some schedule, with two workers or more, leads to s. */
  ghost predicate Reachable(s: State) {
    forall f: Fold {:trigger Unfold(f)} :: Unfold(f) ==>
      exists n: nat, schedule :: n >= 2 && s == Run(0, Init(n), schedule)
  }

  /** In every reachable state the indices are ordered and span at most the ring, no
      assertion of the code has failed, at most one steal of a ring is in progress,
      the first compare-exchange of phase 3 (which still expects the word from before
      the claim) cannot succeed, and no slot is open to two workers. */
  lemma SafeOnEveryRun(s: State)
    requires Reachable(s)
    ensures IndicesOrdered(s) && NoneBroken(s) && OneThief(s) && StaleFinishFails(s)
    ensures SlotsDisjoint(s)
  {
    assert Unfold(Fold);
    var n: nat, schedule :| n >= 2 && s == Run(0, Init(n), schedule);
    RunKeeps(n, schedule);
    InvariantMeans(s);
  }
}
