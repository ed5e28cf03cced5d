/** From unbounded indices to the words of the code: 32-bit wrapping indices, and a
    64-bit head word that packs two of them. */
module RingWords {
  import opened RingMachine
  import opened RingSafety

  // ---- the packed head word -------------------------------------------------------

  function Pack(steal: bv32, front: bv32): bv64 {
    ((steal as bv64) << 32) | (front as bv64)
  }

  function UnpackSteal(word: bv64): bv32 {
    (word >> 32) as bv32
  }

  function UnpackFront(word: bv64): bv32 {
    (word & 0xFFFF_FFFF) as bv32
  }

  /** Packing loses nothing, either way round, so comparing head words compares both
      indices. */
  lemma PackRoundTrip(steal: bv32, front: bv32, word: bv64)
    ensures UnpackSteal(Pack(steal, front)) == steal && UnpackFront(Pack(steal, front)) == front
    ensures Pack(UnpackSteal(word), UnpackFront(word)) == word
  {
  }

  lemma PackInjective(a: bv32, b: bv32, c: bv32, d: bv32)
    ensures Pack(a, b) == Pack(c, d) <==> a == c && b == d
  {
    PackRoundTrip(a, b, 0);
    PackRoundTrip(c, d, 0);
  }

  // ---- wrapping arithmetic ----------------------------------------------------------

  const WORD: nat := 0x1_0000_0000

  function Wrap(x: int): (y: int)
    ensures 0 <= y < 0x1_0000_0000
  {
    x % 0x1_0000_0000
  }

  /** Within a window shorter than 2^32, wrapping distance is true distance. */
  lemma Distance(a: int, b: int)
    requires 0 <= a - b < WORD
    ensures Norm(WORD, Wrap(a) - Wrap(b)) == a - b
    ensures Wrap(a) == Wrap(b) <==> a == b
  {
  }

  lemma Advance32(a: int, k: int)
    ensures Norm(WORD, Wrap(a) + k) == Wrap(a + k)
  {
  }

  lemma SlotOfWrap(a: int, k: int)
    ensures Slot(Wrap(a) + k) == Slot(a + k)
  {
    var q := a / 0x1_0000_0000;
    assert a + k == Wrap(a) + k + 256 * (q * 0x100_0000);
  }

  lemma WindowOfWrap(b: Buffer, a: int, k: int, n: nat)
    ensures Window(b, Wrap(a) + k, n) == Window(b, a + k, n)
  {
    var wrapped, plain := Window(b, Wrap(a) + k, n), Window(b, a + k, n);
    forall j | 0 <= j < n ensures wrapped[j] == plain[j] {
      SlotOfWrap(a, k + j);
      assert Wrap(a) + k + j == Wrap(a) + (k + j) && a + k + j == a + (k + j);
    }
  }

  // ---- the machine seen through 32-bit words -----------------------------------------

  function WrapHead(h: Head): Head { Head(Wrap(h.steal), Wrap(h.front)) }

  function WrapRing(r: Ring): Ring { r.(head := WrapHead(r.head), tail := Wrap(r.tail)) }

  function WrapPc(p: Pc): Pc {
    match p
    case PushWrite(t, tail, rest) => PushWrite(t, Wrap(tail), rest)
    case PushStore(t, tail, rest) => PushStore(t, Wrap(tail), rest)
    case SpillCas(t, base, tail) => SpillCas(t, Wrap(base), Wrap(tail))
    case SpillExpose(t, base, tail, all) => SpillExpose(t, Wrap(base), Wrap(tail), all)
    case SpillMove(t, base, batch, half) => SpillMove(t, Wrap(base), batch, half)
    case PopTry(seen) => PopTry(WrapHead(seen))
    case PopRead(front, was) => PopRead(Wrap(front), was)
    case StealLoad(v, dst) => StealLoad(v, Wrap(dst))
    case StealTail(v, dst, prev) => StealTail(v, Wrap(dst), WrapHead(prev))
    case StealCas(v, dst, prev, n) => StealCas(v, Wrap(dst), WrapHead(prev), n)
    case StealCopy(v, dst, prev, n, i, loot) => StealCopy(v, Wrap(dst), WrapHead(prev), n, i, loot)
    case StealFinish(v, dst, first, prev, n, loot) =>
      StealFinish(v, Wrap(dst), Wrap(first), WrapHead(prev), n, loot)
    case StealTake(dst, n, loot) => StealTake(Wrap(dst), n, loot)
    case StealStore(dst, n, ret, loot) => StealStore(Wrap(dst), n, ret, loot)
    case _ => p
  }

  function WrapState(s: State): (c: State)
    ensures |c.rings| == |s.rings| && |c.pcs| == |s.pcs|
  {
    s.(rings := seq(|s.rings|, i requires 0 <= i < |s.rings| => WrapRing(s.rings[i])),
       pcs := seq(|s.pcs|, i requires 0 <= i < |s.pcs| => WrapPc(s.pcs[i])))
  }

  /** The head that a word of the code stands for. */
  function HeadOf(word: bv64): Head {
    Head(UnpackSteal(word) as int, UnpackFront(word) as int)
  }

  /** Comparing words is comparing the heads they stand for, both halves of them, which is
      what the machine's compare-exchange does; and storing a packed pair stores that head. */
  lemma WordsStandForHeads(u: bv64, v: bv64, steal: bv32, front: bv32)
    ensures HeadOf(u) == HeadOf(v) <==> u == v
    ensures HeadOf(Pack(steal, front)) == Head(steal as int, front as int)
  {
    PackRoundTrip(steal, front, u);
    PackRoundTrip(steal, front, v);
    SameBits(UnpackSteal(u), UnpackSteal(v));
    SameBits(UnpackFront(u), UnpackFront(v));
  }

  lemma SameBits(a: bv32, b: bv32)
    ensures a as int == b as int <==> a == b
  {
    assert (a as int) as bv32 == a && (b as int) as bv32 == b;
  }

  /** The head has moved on, by a multiple of 2^32, to a word that equals the one loaded. */
  predicate ComesRound(prev: Head, head: Head) {
    head.steal == head.front && head.front > prev.front && (head.front - prev.front) % 0x1_0000_0000 == 0
  }

  /** The step is not one that 32 bits are too few for: a thief sizing its claim when 2^32
      indices or more have passed since it loaded the head, or claiming when the head word
      has come round. */
  predicate FitsWords(s: State, a: Action) {
    a.Advance? && a.w < |s.pcs| && HasVictim(s.pcs[a.w]) && s.pcs[a.w].victim < |s.rings| ==>
      var p, v := s.pcs[a.w], s.rings[s.pcs[a.w].victim];
      match p
      case StealTail(_, _, prev) => prev.steal == prev.front ==> v.tail - prev.front < WORD
      case StealCas(_, _, prev, _) => a.fail || !ComesRound(prev, v.head)
      case _ => true
  }

  lemma WrapAt(s: State, w: nat, p: Pc)
    requires w < |s.pcs|
    ensures WrapState(At(s, w, p)) == At(WrapState(s), w, WrapPc(p))
  {
  }

  lemma WrapPut(s: State, w: nat, r: Ring, p: Pc)
    requires w < |s.pcs| == |s.rings|
    ensures WrapState(Put(s, w, r, p)) == Put(WrapState(s), w, WrapRing(r), WrapPc(p))
  {
  }

  lemma SameHead(h: Head, r: Ring)
    requires RingOk(r) && Before(h, r.head) && h.steal <= h.front && r.tail - h.steal < WORD
    ensures WrapHead(h) == WrapHead(r.head) <==> h == r.head
    ensures Wrap(h.steal) == Wrap(h.front) <==> h.steal == h.front
  {
    Distance(r.head.steal, h.steal);
    Distance(r.head.front, h.front);
    Distance(h.front, h.steal);
  }

  lemma RingWords(r: Ring)
    requires RingOk(r)
    ensures Norm(WORD, Wrap(r.tail) - Wrap(r.head.steal)) == r.tail - r.head.steal
    ensures Norm(WORD, Wrap(r.tail) - Wrap(r.head.front)) == r.tail - r.head.front
    ensures Wrap(r.head.front) == Wrap(r.tail) <==> r.head.front == r.tail
    ensures Wrap(r.head.front) == Wrap(r.head.steal) <==> r.head.front == r.head.steal
  {
    Distance(r.tail, r.head.steal);
    Distance(r.tail, r.head.front);
    Distance(r.head.front, r.head.steal);
  }

  lemma StartPopWraps(s: State, w: nat)
    requires Inv(s) && w < |s.rings|
    ensures StartPop(WrapState(s), w) == WrapState(StartPop(s, w))
  {
    RingWords(s.rings[w]);
    WrapAt(s, w, PopTry(s.rings[w].head));
  }

  lemma StartStealWraps(s: State, w: nat, v: nat)
    requires Inv(s) && w < |s.rings|
    ensures StartSteal(WORD, WrapState(s), w, v) == WrapState(StartSteal(0, s, w, v))
  {
    RingWords(s.rings[w]);
    WrapAt(s, w, StealLoad(v, s.rings[w].tail));
  }

  lemma StartBatchWraps(s: State, w: nat)
    requires Inv(s) && w < |s.rings|
    ensures StartBatch(WORD, WrapState(s), w) == WrapState(StartBatch(0, s, w))
  {
    RingWords(s.rings[w]);
    var s' := StartBatch(0, s, w);
    if |s'.pcs| == |s.pcs| { WrapAt(s, w, s'.pcs[w]); }
  }

  lemma BeginWraps(s: State, w: nat, op: Op)
    requires Inv(s) && w < |s.rings|
    ensures Begin(WORD, WrapState(s), w, op) == WrapState(Begin(0, s, w, op))
  {
    match op
    case Push(t) => WrapAt(s, w, PushLoad(t));
    case Inject(_) =>
    case Pop => StartPopWraps(s, w);
    case Steal(v) => StartStealWraps(s, w, v);
    case TakeBatch => StartBatchWraps(s, w);
  }

  lemma PushWraps(s: State, w: nat)
    requires Inv(s) && w < |s.rings|
    requires var p := s.pcs[w]; p.PushLoad? || p.PushDivert? || p.BatchPush?
    ensures Go(WORD, WrapState(s), w, false) == WrapState(Go(0, s, w, false))
  {
    RingWords(s.rings[w]);
    WrapAt(s, w, Go(0, s, w, false).pcs[w]);
  }

  lemma WriteWraps(s: State, w: nat)
    requires Inv(s) && w < |s.rings| && s.pcs[w].PushWrite?
    ensures DoPushWrite(WrapState(s), w) == WrapState(DoPushWrite(s, w))
  {
    var s' := DoPushWrite(s, w);
    WrapPut(s, w, s'.rings[w], s'.pcs[w]);
    SlotOfWrap(s.pcs[w].tail, 0);
  }

  lemma TailStoreWraps(s: State, w: nat)
    requires Inv(s) && w < |s.rings| && s.pcs[w].PushStore?
    ensures DoPushStore(WORD, WrapState(s), w) == WrapState(DoPushStore(0, s, w))
  {
    var s' := DoPushStore(0, s, w);
    WrapPut(s, w, s'.rings[w], s'.pcs[w]);
    Advance32(s.pcs[w].tail, 1);
  }

  lemma SpillWraps(s: State, w: nat, fail: bool)
    requires Inv(s) && w < |s.rings|
    requires var p := s.pcs[w]; p.SpillCas? || p.SpillExpose? || p.SpillMove?
    ensures Go(WORD, WrapState(s), w, fail) == WrapState(Go(0, s, w, fail))
  {
    var r, p := s.rings[w], s.pcs[w];
    var s' := Go(0, s, w, fail);
    assert WorkerOk(s, w);
    WrapPut(s, w, s'.rings[w], s'.pcs[w]);
    if p.SpillCas? {
      SameHead(Head(p.base, p.base), r);
      WindowOfWrap(r.buf, p.base, 0, 256);
    }
    if p.SpillExpose? {
      Advance32(p.tail, 128);
      WindowOfWrap(r.buf, p.base, 128, 128);
    }
    if p.SpillMove? { SlotOfWrap(p.base, 128 + |p.batch|); }
  }

  lemma PopWraps(s: State, w: nat, fail: bool)
    requires Inv(s) && w < |s.rings| && (s.pcs[w].PopTry? || s.pcs[w].PopRead?)
    ensures Go(WORD, WrapState(s), w, fail) == WrapState(Go(0, s, w, fail))
  {
    var r, p := s.rings[w], s.pcs[w];
    var s' := Go(0, s, w, fail);
    assert WorkerOk(s, w);
    RingWords(r);
    WrapPut(s, w, s'.rings[w], s'.pcs[w]);
    if p.PopTry? {
      SameHead(p.seen, r);
      Advance32(p.seen.front, 1);
      SlotOfWrap(p.seen.front, 0);
    } else {
      SlotOfWrap(p.front, 0);
    }
  }

  /** Exactly when the claim's compare-exchange on the head word decides as one on unbounded
      indices would: unless the head has advanced by a positive multiple of 2^32 since the
      thief loaded it, with no steal in progress. */
  lemma ClaimWrapsExactly(s: State, w: nat, fail: bool)
    requires Inv(s) && w < |s.rings| && s.pcs[w].StealCas? && s.pcs[w].victim < |s.rings|
    ensures var p, head := s.pcs[w], s.rings[s.pcs[w].victim].head;
            DoStealCas(WORD, WrapState(s), w, fail) == WrapState(DoStealCas(0, s, w, fail))
            <==> fail || !ComesRound(p.prev, head)
  {
    var p := s.pcs[w];
    assert WorkerOk(s, w);
    var r := s.rings[p.victim];
    var c, s' := DoStealCas(WORD, WrapState(s), w, fail), DoStealCas(0, s, w, fail);
    WordComesRound(p.prev, r);
    if fail || r.head != p.prev {
      WrapAt(s, w, StealTail(p.victim, p.dst, r.head));
      assert WrapState(s').pcs[w].StealTail?;
      assert ComesRound(p.prev, r.head) && !fail ==> !c.pcs[w].StealTail?;
    } else {
      assert p.n <= 128;
      Advance32(p.prev.front, p.n);
      WindowOfWrap(r.buf, p.prev.steal, 0, p.n);
      assert WrapState(s').rings == WrapState(s).rings[p.victim := WrapRing(s'.rings[p.victim])];
      assert WrapState(s').pcs == WrapState(s).pcs[w := WrapPc(s'.pcs[w])];
    }
  }

  lemma WordComesRound(prev: Head, r: Ring)
    requires RingOk(r) && prev.steal == prev.front && Before(prev, r.head)
    ensures WrapHead(prev) == WrapHead(r.head) <==> prev == r.head || ComesRound(prev, r.head)
  {
    Distance(r.head.front, r.head.steal);
    SameWord(r.head.front, prev.front);
    SameWord(r.head.steal, prev.steal);
  }

  lemma SameWord(a: int, b: int)
    ensures Wrap(a) == Wrap(b) <==> (a - b) % 0x1_0000_0000 == 0
  {
  }

  /** Exactly when a thief sizes its claim as it would with unbounded indices. */
  lemma TailWrapsExactly(s: State, w: nat)
    requires Inv(s) && w < |s.rings| && s.pcs[w].StealTail? && s.pcs[w].victim < |s.rings|
    ensures var p := s.pcs[w];
            DoStealTail(WORD, WrapState(s), w) == WrapState(DoStealTail(0, s, w))
            <==> (p.prev.steal == p.prev.front ==> s.rings[p.victim].tail - p.prev.front < WORD)
  {
    var p := s.pcs[w];
    assert WorkerOk(s, w);
    var tail := s.rings[p.victim].tail;
    WrapAt(s, w, SizeClaim(0, tail, p.victim, p.dst, p.prev));
    SizeWraps(tail, p.victim, p.dst, p.prev);
    var c := SizeClaim(WORD, Wrap(tail), p.victim, Wrap(p.dst), WrapHead(p.prev));
    assert DoStealTail(WORD, WrapState(s), w) == At(WrapState(s), w, c);
    assert At(WrapState(s), w, c).pcs[w] == c;
  }

  lemma SizeWraps(tail: int, victim: nat, dst: int, prev: Head)
    requires prev.steal <= prev.front <= prev.steal + 256 && prev.front <= tail
    ensures SizeClaim(WORD, Wrap(tail), victim, Wrap(dst), WrapHead(prev))
              == WrapPc(SizeClaim(0, tail, victim, dst, prev))
            <==> (prev.steal == prev.front ==> tail - prev.front < WORD)
  {
    Distance(prev.front, prev.steal);
    HalfOfWrap(tail, prev.front);
  }

  /** The half that a thief takes, in 32 bits, is the true one exactly when the whole fits. */
  lemma HalfOfWrap(tail: int, front: int)
    requires front <= tail
    ensures var avail, seen := tail - front, Norm(WORD, Wrap(tail) - Wrap(front));
            && (avail < WORD ==> seen == avail)
            && (avail >= WORD ==> seen - seen / 2 < avail - avail / 2)
            && (seen > 0 ==> Norm(WORD, Wrap(front) + (seen - seen / 2)) != Wrap(front))
  {
    var avail, seen := tail - front, Norm(WORD, Wrap(tail) - Wrap(front));
    if avail < WORD { Distance(tail, front); }
    var n := seen - seen / 2;
    Distance(front + n, front);
    Advance32(front, n);
  }

  lemma CopyWraps(s: State, w: nat)
    requires Inv(s) && w < |s.rings| && s.pcs[w].StealCopy? && s.pcs[w].victim < |s.rings|
    ensures DoStealCopy(WrapState(s), w) == WrapState(DoStealCopy(s, w))
  {
    var p := s.pcs[w];
    var s' := DoStealCopy(s, w);
    WrapPut(s, w, s'.rings[w], s'.pcs[w]);
    SlotOfWrap(p.prev.steal, p.i);
    SlotOfWrap(p.dst, p.i);
  }

  lemma FinishWraps(s: State, w: nat, fail: bool)
    requires Inv(s) && w < |s.rings| && s.pcs[w].StealFinish? && s.pcs[w].victim < |s.rings|
    ensures DoStealFinish(WrapState(s), w, fail) == WrapState(DoStealFinish(s, w, fail))
  {
    var p := s.pcs[w];
    var s' := DoStealFinish(s, w, fail);
    assert WorkerOk(s, w);
    WrapAt(s, w, s'.pcs[w]);
    SameHead(p.prev, s.rings[p.victim]);
    assert WrapState(s').rings == WrapState(s).rings[p.victim := WrapRing(s'.rings[p.victim])];
  }

  lemma TakeWraps(s: State, w: nat)
    requires Inv(s) && w < |s.rings| && s.pcs[w].StealTake?
    ensures DoStealTake(WrapState(s), w) == WrapState(DoStealTake(s, w))
  {
    WrapAt(s, w, DoStealTake(s, w).pcs[w]);
    SlotOfWrap(s.pcs[w].dst, s.pcs[w].n - 1);
  }

  lemma StoreWraps(s: State, w: nat)
    requires Inv(s) && w < |s.rings| && s.pcs[w].StealStore?
    ensures DoStealStore(WORD, WrapState(s), w) == WrapState(DoStealStore(0, s, w))
  {
    var s' := DoStealStore(0, s, w);
    WrapPut(s, w, s'.rings[w], s'.pcs[w]);
    Advance32(s.pcs[w].dst, s.pcs[w].n);
  }

  lemma StealWraps(s: State, w: nat, fail: bool)
    requires Inv(s) && w < |s.rings|
    requires s.pcs[w].StealLoad? || s.pcs[w].StealCopy? || s.pcs[w].StealFinish?
    ensures Go(WORD, WrapState(s), w, fail) == WrapState(Go(0, s, w, fail))
  {
    assert WorkerOk(s, w);
    match s.pcs[w]
    case StealLoad(_, _) => WrapAt(s, w, DoStealLoad(s, w).pcs[w]);
    case StealCopy(_, _, _, _, _, _) => CopyWraps(s, w);
    case StealFinish(_, _, _, _, _, _) => FinishWraps(s, w, fail);
  }

  /** The steps whose words always suffice. */
  lemma GoWraps(s: State, w: nat, fail: bool)
    requires Inv(s) && w < |s.rings| && !s.pcs[w].StealTail? && !s.pcs[w].StealCas?
    ensures Go(WORD, WrapState(s), w, fail) == WrapState(Go(0, s, w, fail))
  {
    assert WorkerOk(s, w);
    match s.pcs[w]
    case Ready =>
    case PushLoad(_) => PushWraps(s, w);
    case PushWrite(_, _, _) => WriteWraps(s, w);
    case PushStore(_, _, _) => TailStoreWraps(s, w);
    case PushDivert(_) => PushWraps(s, w);
    case BatchPush(_) => PushWraps(s, w);
    case SpillCas(_, _, _) => SpillWraps(s, w, fail);
    case SpillExpose(_, _, _, _) => SpillWraps(s, w, fail);
    case SpillMove(_, _, _, _) => SpillWraps(s, w, fail);
    case PopTry(_) => PopWraps(s, w, fail);
    case PopRead(_, _) => PopWraps(s, w, fail);
    case StealTake(_, _, _) => TakeWraps(s, w);
    case StealStore(_, _, _, _) => StoreWraps(s, w);
    case _ => StealWraps(s, w, fail);
  }

  /** One step of the 32-bit code is one step of the unbounded machine, exactly when the
      step fits its words. */
  lemma StepWraps(s: State, a: Action)
    requires Inv(s)
    ensures Step(WORD, WrapState(s), a) == WrapState(Step(0, s, a)) <==> FitsWords(s, a)
  {
    if a.w < |s.rings| {
      match a
      case Start(w, op) => if s.pcs[w].Ready? { BeginWraps(s, w, op); }
      case Advance(w, fail) =>
        assert WorkerOk(s, w);
        if s.pcs[w].StealTail? {
          TailWrapsExactly(s, w);
        } else if s.pcs[w].StealCas? {
          ClaimWrapsExactly(s, w, fail);
        } else {
          GoWraps(s, w, fail);
        }
    }
  }

  /** Every step of the schedule fits its words. */
  predicate FitsRun(n: nat, schedule: seq<Action>)
    decreases |schedule|
  {
    schedule == [] ||
    (FitsRun(n, schedule[..|schedule| - 1])
     && FitsWords(Run(0, Init(n), schedule[..|schedule| - 1]), schedule[|schedule| - 1]))
  }

  /** The wrapping 32-bit code follows the unbounded machine step for step; in
      particular it never fails an assertion, and it returns and spills exactly the
      same tasks in the same order. */
  lemma {:induction false} WordsRefineIndices(n: nat, schedule: seq<Action>)
    requires n >= 2 && FitsRun(n, schedule)
    ensures Run(WORD, Init(n), schedule) == WrapState(Run(0, Init(n), schedule))
    decreases |schedule|
  {
    if schedule != [] {
      var before := schedule[..|schedule| - 1];
      WordsRefineIndices(n, before);
      RunKeeps(n, before);
      StepWraps(Run(0, Init(n), before), schedule[|schedule| - 1]);
    }
  }

  /** And no further: the code is in step with the unbounded machine all along a schedule if
      and only if every step of it fits. */
  lemma {:induction false} InStepExactly(n: nat, schedule: seq<Action>)
    requires n >= 2
    ensures InStep(n, schedule) <==> FitsRun(n, schedule)
    decreases |schedule|
  {
    if schedule != [] {
      var before := schedule[..|schedule| - 1];
      InStepExactly(n, before);
      RunKeeps(n, before);
      StepWraps(Run(0, Init(n), before), schedule[|schedule| - 1]);
    }
  }

  /** After each action of the schedule the code's state is the unbounded one, wrapped. */
  ghost predicate InStep(n: nat, schedule: seq<Action>)
    decreases |schedule|
  {
    && Run(WORD, Init(n), schedule) == WrapState(Run(0, Init(n), schedule))
    && (schedule == [] || InStep(n, schedule[..|schedule| - 1]))
  }
}
