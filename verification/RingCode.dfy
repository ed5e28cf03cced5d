/** What the 32-bit code itself guarantees, along every schedule whose steps fit its words:
    safety and conservation, carried over from the unbounded machine. */
module RingCode {
  import opened RingMachine
  import opened RingSafety
  import opened RingTheorems
  import opened RingQueues
  import opened RingWords

  // ---- the same slots -----------------------------------------------------------------------

  lemma SpanWraps(q: int, x: int, k: int, n: int)
    ensures InSpan(q, Wrap(x) + k, n) <==> InSpan(q, x + k, n)
  {
    SlotOfWrap(x, k - q);
    assert (q - (Wrap(x) + k)) % 256 == (-(Wrap(x) + (k - q))) % 256;
    assert (q - (x + k)) % 256 == (-(x + (k - q))) % 256;
    NegatedSlot(Wrap(x) + (k - q), x + (k - q));
  }

  lemma NegatedSlot(a: int, b: int)
    requires Slot(a) == Slot(b)
    ensures (-a) % 256 == (-b) % 256
  {
  }

  lemma TouchesOwnWraps(p: Pc, q: int)
    ensures TouchesOwn(WrapPc(p), q) <==> TouchesOwn(p, q)
  {
    match p
    case PushWrite(_, tail, _) => SpanWraps(q, tail, 0, 1);
    case PushStore(_, tail, _) => SpanWraps(q, tail, 0, 1);
    case SpillExpose(_, base, _, _) => SpanWraps(q, base, 0, 256);
    case SpillMove(_, base, batch, _) => SpanWraps(q, base, 128 + |batch|, 128 - |batch|);
    case PopRead(front, _) => SpanWraps(q, front, 0, 1);
    case StealCopy(_, dst, _, n, _, _) => SpanWraps(q, dst, 0, n);
    case StealFinish(_, dst, _, _, n, _) => SpanWraps(q, dst, 0, n);
    case StealTake(dst, n, _) => SpanWraps(q, dst, 0, n);
    case StealStore(dst, n, _, _) => SpanWraps(q, dst, 0, n);
    case _ =>
  }

  lemma TouchesWraps(s: State, w: nat, y: nat, q: int)
    requires w < |s.pcs|
    ensures Touches(WrapState(s), w, y, q) <==> Touches(s, w, y, q)
  {
    var p := s.pcs[w];
    TouchesOwnWraps(p, q);
    if p.StealCopy? { SpanWraps(q, p.prev.steal, p.i, p.n - p.i); }
  }

  lemma SlotsStayDisjoint(s: State)
    requires SlotsDisjoint(s)
    ensures SlotsDisjoint(WrapState(s))
  {
    var c := WrapState(s);
    forall w, x, y, q | 0 <= w < |c.pcs| && 0 <= x < |c.pcs| && 0 <= y && 0 <= q < 256
      && Touches(c, w, y, q) && Touches(c, x, y, q) ensures w == x
    {
      TouchesWraps(s, w, y, q);
      TouchesWraps(s, x, y, q);
    }
  }

  // ---- the same thieves --------------------------------------------------------------------

  /** The word a finishing thief first expects is stale in the code too. */
  lemma StaleInCode(s: State, w: nat)
    requires Inv(s) && StaleFinishFails(s) && w < |s.pcs| && s.pcs[w].StealFinish?
    requires Wrap(s.pcs[w].prev.front) == Wrap(s.pcs[w].first)
    ensures s.pcs[w].victim < |s.rings|
    ensures WrapHead(s.rings[s.pcs[w].victim].head) != WrapHead(s.pcs[w].prev)
  {
    var p := s.pcs[w];
    assert WorkerOk(s, w);
    var r := s.rings[p.victim];
    assert RingOk(r);
    Distance(p.prev.front, p.first);
    Distance(r.head.front, p.prev.front);
  }

  lemma ThievesInCode(s: State)
    requires Inv(s) && OneThief(s) && StaleFinishFails(s)
    ensures OneThief(WrapState(s)) && StaleFinishFails(WrapState(s))
  {
    var c := WrapState(s);
    forall w, x, y: nat | 0 <= w < |c.pcs| && 0 <= x < |c.pcs|
      && Stealing(c.pcs[w], y) && Stealing(c.pcs[x], y) ensures w == x
    {
      assert Stealing(s.pcs[w], y) && Stealing(s.pcs[x], y);
    }
    forall w | 0 <= w < |c.pcs| && c.pcs[w].StealFinish? && c.pcs[w].prev.front == c.pcs[w].first
      ensures c.pcs[w].victim < |c.rings| && c.rings[c.pcs[w].victim].head != c.pcs[w].prev
    {
      StaleInCode(s, w);
    }
  }

  // ---- the same tasks -------------------------------------------------------------------------

  /** The tasks in a ring of the code: from `real` on, as many as the wrapping distance. */
  ghost function LiveCode(r: Ring): seq<Task> {
    Window(r.buf, r.head.front, Norm(WORD, r.tail - r.head.front))
  }

  ghost function CodeView(c: State): (q: Queues)
    ensures |q.queue| == |c.rings| && |q.hand| == |c.pcs|
  {
    Queues(seq(|c.rings|, i requires 0 <= i < |c.rings| => LiveCode(c.rings[i])),
           seq(|c.pcs|, i requires 0 <= i < |c.pcs| => Hand(c.pcs[i])),
           c.overflow, c.pushed, c.returned)
  }

  lemma SameView(s: State)
    requires Inv(s)
    ensures CodeView(WrapState(s)) == View(s)
  {
    var c := WrapState(s);
    forall i | 0 <= i < |s.rings| ensures LiveCode(c.rings[i]) == Live(s.rings[i]) {
      var r := s.rings[i];
      assert RingOk(r);
      RingWords.RingWords(r);
      WindowOfWrap(r.buf, r.head.front, 0, r.tail - r.head.front);
    }
  }

  /** A ring's three indices, in the code, are in order and within 256 of each other. */
  predicate CodeOrdered(r: Ring) {
    && 0 <= r.head.steal < WORD && 0 <= r.head.front < WORD && 0 <= r.tail < WORD
    && Norm(WORD, r.head.front - r.head.steal) + Norm(WORD, r.tail - r.head.front)
         == Norm(WORD, r.tail - r.head.steal) <= 256
  }

  lemma OrderedInCode(r: Ring)
    requires RingOk(r)
    ensures CodeOrdered(WrapRing(r))
  {
    RingWords.RingWords(r);
    Distance(r.head.front, r.head.steal);
  }

  /** Along every schedule whose steps fit, the 32-bit code fails no assertion, keeps its
      indices in order and its slots exclusive, has one thief at most on a ring, whose first
      exchange of phase 3 cannot succeed, and accounts for every task pushed. */
  lemma CodeIsSafe(n: nat, schedule: seq<Action>)
    requires n >= 2 && FitsRun(n, schedule)
    ensures var c := Run(WORD, Init(n), schedule);
            && |c.rings| == |c.pcs| == n && NoneBroken(c) && SlotsDisjoint(c)
            && OneThief(c) && StaleFinishFails(c)
            && (forall y | 0 <= y < n :: CodeOrdered(c.rings[y]))
            && Accounted(CodeView(c)) == multiset(c.pushed)
  {
    var s := Run(0, Init(n), schedule);
    WordsRefineIndices(n, schedule);
    NothingLostOrDuplicated(n, schedule);
    InvariantMeans(s);
    WrapIsSafe(s);
    ThievesInCode(s);
  }

  lemma WrapIsSafe(s: State)
    requires Inv(s) && NoneBroken(s) && SlotsDisjoint(s) && Accounted(View(s)) == multiset(s.pushed)
    ensures var c := WrapState(s);
            && NoneBroken(c) && SlotsDisjoint(c) && (forall y | 0 <= y < |c.rings| :: CodeOrdered(c.rings[y]))
            && Accounted(CodeView(c)) == multiset(c.pushed)
  {
    SlotsStayDisjoint(s);
    SameView(s);
    forall y | 0 <= y < |s.rings| ensures CodeOrdered(WrapState(s).rings[y]) { OrderedInCode(s.rings[y]); }
  }
}
