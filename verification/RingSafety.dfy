/** What every reachable state of the ring keeps, with unbounded indices.

    The proof is by rely and guarantee. `OwnerOk` and `ThiefOk` are what a worker
    knows about its own ring and about its victim's; `HeadMoved` and `Evolves` bound
    what the others may do to them meanwhile. */
module RingSafety {
  import opened RingMachine

  predicate RingOk(r: Ring) {
    && 0 <= r.head.steal <= r.head.front <= r.tail <= r.head.steal + 256
    && (r.thief == -1 <==> r.head.steal == r.head.front)
    && (r.thief != -1 ==> 1 <= r.claim <= 128 && r.head.steal + r.claim <= r.head.front)
  }

  /** `n` claimed tasks have reached the thief's own slots from `dst` on. */
  predicate Landed(r: Ring, dst: int, n: int, loot: seq<Task>) {
    && dst == r.tail && r.tail - r.head.steal <= 128
    && 0 <= n <= |loot| <= 128
    && forall j | 0 <= j < n :: r.buf[Slot(dst + j)] == loot[j]
  }

  /** The claimed tasks from `i` on are still in the victim's slots. */
  predicate Waiting(v: Ring, first: int, i: int, loot: seq<Task>) {
    0 <= i && forall j | i <= j < |loot| :: v.buf[Slot(first + j)] == loot[j]
  }

  predicate Before(a: Head, b: Head) {
    a.steal <= b.steal && a.front <= b.front
  }

  /** What worker `p` knows about its own ring `r`. */
  predicate OwnerOk(r: Ring, p: Pc) {
    match p
    case Ready => true
    case Broken => false
    case PushLoad(_) => true
    case PushDivert(_) => true
    case PushWrite(t, tail, rest) =>
      tail == r.tail && r.tail + 1 + |rest| <= r.head.steal + 256
    case PushStore(t, tail, rest) =>
      tail == r.tail && r.tail + 1 + |rest| <= r.head.steal + 256 && r.buf[Slot(tail)] == t
    case BatchPush(rest) => rest != [] && r.tail + |rest| <= r.head.steal + 256
    case SpillCas(t, base, tail) => tail == r.tail == base + 256 && 0 <= base <= r.head.steal
    case SpillExpose(t, base, tail, all) =>
      0 <= base && tail == r.tail == base + 256 && r.head == Head(tail, tail)
      && all == Window(r.buf, base, 256)
    case SpillMove(t, base, batch, half) =>
      r.tail == base + 384 && base + 256 <= r.head.steal && 0 <= base
      && half == Window(r.buf, base + 128, 128) && |batch| <= 128 && batch == half[..|batch|]
    case PopTry(seen) =>
      seen.steal <= seen.front < r.tail <= seen.steal + 256 && Before(seen, r.head)
    case PopRead(front, was) =>
      0 <= front < r.head.front && r.tail <= front + 256 && was == r.buf[Slot(front)]
      && (r.thief != -1 ==> front < r.head.steal || r.head.steal + r.claim <= front)
    case StealLoad(_, dst) => dst == r.tail && r.tail - r.head.steal <= 128
    case StealTail(_, dst, _) => dst == r.tail && r.tail - r.head.steal <= 128
    case StealCas(_, dst, _, _) => dst == r.tail && r.tail - r.head.steal <= 128
    case StealCopy(_, dst, _, n, i, loot) => n == |loot| && i < n && Landed(r, dst, i, loot)
    case StealFinish(_, dst, _, _, n, loot) => 1 <= n == |loot| && Landed(r, dst, n, loot)
    case StealTake(dst, n, loot) => 1 <= n == |loot| && Landed(r, dst, n, loot)
    case StealStore(dst, n, ret, loot) =>
      n + 1 == |loot| && Landed(r, dst, n, loot) && ret == loot[n]
  }

  predicate HasVictim(p: Pc) {
    p.StealLoad? || p.StealTail? || p.StealCas? || p.StealCopy? || p.StealFinish?
  }

  /** What thief `w` knows about the ring `v` it is stealing from. */
  predicate ThiefOk(v: Ring, w: nat, p: Pc) {
    match p
    case StealTail(_, _, prev) => prev.steal <= prev.front <= prev.steal + 256 && Before(prev, v.head)
    case StealCas(_, _, prev, n) =>
      prev.steal == prev.front && Before(prev, v.head) && 1 <= n && prev.front + 2 * n - 1 <= v.tail
    case StealCopy(_, _, prev, n, i, loot) =>
      && prev.front == prev.steal == v.head.steal && v.thief == w && v.claim == n
      && Waiting(v, prev.steal, i, loot)
    case StealFinish(_, _, first, prev, n, loot) =>
      && v.head.steal == first == prev.steal && v.thief == w && v.claim == n
      && (prev.front == first || (first + n <= prev.front <= v.head.front))
    case _ => true
  }

  predicate WorkerOk(s: State, w: nat)
    requires w < |s.pcs| == |s.rings|
  {
    && OwnerOk(s.rings[w], s.pcs[w])
    && (HasVictim(s.pcs[w]) ==>
          s.pcs[w].victim < |s.rings| && s.pcs[w].victim != w
          && ThiefOk(s.rings[s.pcs[w].victim], w, s.pcs[w]))
  }

  predicate Inv(s: State) {
    && |s.pcs| == |s.rings|
    && (forall y | 0 <= y < |s.rings| :: RingOk(s.rings[y]))
    && (forall w | 0 <= w < |s.rings| :: WorkerOk(s, w))
  }

  // ---- interference -----------------------------------------------------------

  /** What thieves may do to a ring, as its owner sees it. */
  predicate HeadMoved(r: Ring, r': Ring) {
    && RingOk(r') && r'.buf == r.buf && r'.tail == r.tail && Before(r.head, r'.head)
    && (r'.thief != -1 ==> r'.head.steal == r.head.steal && (r.thief != -1 ==> r'.claim == r.claim))
  }

  /** What worker `x` may do to a ring, as every other thief of that ring sees it. */
  predicate Evolves(x: nat, v: Ring, v': Ring) {
    && RingOk(v') && Before(v.head, v'.head) && v.tail <= v'.tail
    && (v.thief != -1 && v.thief != x ==>
          && v'.thief == v.thief && v'.claim == v.claim && v'.head.steal == v.head.steal
          && forall k | v.head.steal <= k < v.head.steal + v.claim ::
               v'.buf[Slot(k)] == v.buf[Slot(k)])
  }

  lemma OwnerStable(r: Ring, r': Ring, p: Pc)
    requires RingOk(r) && HeadMoved(r, r') && OwnerOk(r, p)
    ensures OwnerOk(r', p)
  {
  }

  lemma ThiefStable(x: nat, v: Ring, v': Ring, w: nat, p: Pc)
    requires RingOk(v) && Evolves(x, v, v') && w != x && ThiefOk(v, w, p)
    requires p.StealCopy? ==> |p.loot| == p.n
    ensures ThiefOk(v', w, p)
  {
    match p
    case StealCopy(_, _, prev, n, i, loot) =>
      forall j | i <= j < |loot| ensures v'.buf[Slot(prev.steal + j)] == loot[j] {
        assert v.buf[Slot(prev.steal + j)] == loot[j];
      }
    case _ =>
  }

  /** Worker `x` stepped, within the bounds: every other worker is still fine. */
  lemma OthersKept(s: State, s': State, x: nat)
    requires Inv(s) && x < |s.rings|
    requires |s'.rings| == |s'.pcs| == |s.rings|
    requires forall w | 0 <= w < |s.rings| && w != x :: s'.pcs[w] == s.pcs[w]
    requires forall y | 0 <= y < |s.rings| :: Evolves(x, s.rings[y], s'.rings[y])
    requires forall y | 0 <= y < |s.rings| && y != x :: HeadMoved(s.rings[y], s'.rings[y])
    requires WorkerOk(s', x)
    ensures Inv(s')
  {
    forall w | 0 <= w < |s.rings| ensures WorkerOk(s', w) {
      if w != x {
        assert WorkerOk(s, w) && s'.pcs[w] == s.pcs[w];
        OwnerStable(s.rings[w], s'.rings[w], s.pcs[w]);
        var p := s.pcs[w];
        if HasVictim(p) {
          ThiefStable(x, s.rings[p.victim], s'.rings[p.victim], w, p);
        }
      }
    }
  }

  /** A step that touches only its worker's own ring and program counter. */
  lemma OwnStep(s: State, x: nat, r: Ring, p: Pc, s': State)
    requires Inv(s) && x < |s.rings|
    requires s'.rings == s.rings[x := r] && s'.pcs == s.pcs[x := p]
    requires Evolves(x, s.rings[x], r) && OwnerOk(r, p)
    requires HasVictim(p) ==>
               p.victim < |s.rings| && p.victim != x && ThiefOk(s.rings[p.victim], x, p)
    ensures Inv(s')
  {
    OthersKept(s, s', x);
  }

  /** A thief's step on its victim's head. */
  lemma VictimStep(s: State, x: nat, v: nat, r: Ring, p: Pc, s': State)
    requires Inv(s) && x < |s.rings| && v < |s.rings| && v != x
    requires s'.rings == s.rings[v := r] && s'.pcs == s.pcs[x := p]
    requires Evolves(x, s.rings[v], r) && HeadMoved(s.rings[v], r) && OwnerOk(s.rings[x], p)
    requires HasVictim(p) ==> p.victim == v && ThiefOk(r, x, p)
    ensures Inv(s')
  {
    OthersKept(s, s', x);
  }

  /** A step that changes only its worker's program counter. */
  lemma PcStep(s: State, x: nat, p: Pc, s': State)
    requires Inv(s) && x < |s.rings|
    requires s'.rings == s.rings && s'.pcs == s.pcs[x := p]
    requires OwnerOk(s.rings[x], p)
    requires HasVictim(p) ==>
               p.victim < |s.rings| && p.victim != x && ThiefOk(s.rings[p.victim], x, p)
    ensures Inv(s')
  {
    OthersKept(s, s', x);
  }

  // ---- arithmetic -------------------------------------------------------------

  lemma SlotsDiffer(a: int, b: int)
    requires a < b < a + 256
    ensures Slot(a) != Slot(b)
  {
  }

  lemma SlotWraps(a: int)
    ensures Slot(a + 256) == Slot(a)
  {
  }

  /** Writing the slot of `k`, beyond the live range, leaves the live range alone. */
  lemma WriteBeyond(r: Ring, k: int, t: Task, x: nat)
    requires RingOk(r) && r.tail <= k < r.head.steal + 256
    ensures Evolves(x, r, r.(buf := r.buf[Slot(k) := t]))
  {
    forall j | r.head.steal <= j < r.head.steal + r.claim && r.thief != -1
      ensures r.buf[Slot(k) := t][Slot(j)] == r.buf[Slot(j)]
    {
      SlotsDiffer(j, k);
    }
  }

  // ---- the steps ---------------------------------------------------------------

  lemma BeginKeeps(s: State, w: nat, op: Op)
    requires Inv(s) && w < |s.rings| && |s.rings| >= 2 && s.pcs[w].Ready?
    ensures Inv(Begin(0, s, w, op))
  {
    var s' := Begin(0, s, w, op);
    match op
    case Push(t) => PcStep(s, w, PushLoad(t), s');
    case Inject(_) => PcStep(s, w, Ready, s');
    case Pop => if s' != s { PcStep(s, w, s'.pcs[w], s'); }
    case Steal(v) => if s' != s { PcStep(s, w, s'.pcs[w], s'); }
    case TakeBatch =>
      if s' != s {
        BatchFits(|s.overflow|, |s.rings|, 256 - (s.rings[w].tail - s.rings[w].head.steal));
        PcStep(s, w, s'.pcs[w], s');
      }
  }

  /** With at least two workers step 2 never takes more than the injection queue
      holds, and what it does not run at once fits the ring. */
  lemma BatchFits(len: nat, n: nat, free: int)
    requires 1 <= len && n >= 2
    ensures 1 <= BatchSize(len, n, free) <= len
    ensures BatchSize(len, n, free) - 1 <= Max(0, free)
  {
    Shrinks(len, n);
  }

  /** Exactly when the batch stays within the injection queue: a single worker over-takes
      unless its free slots (at most half the ring) are no more than the queue holds. */
  lemma BatchFitsExactly(len: nat, n: nat, free: int)
    requires len >= 1 && n >= 1
    ensures BatchSize(len, n, free) <= len <==> n >= 2 || Min(free, 128) <= len
    ensures BatchSize(1, 1, 256) == 2
  {
    if n >= 2 { BatchFits(len, n, free); }
  }

  lemma Shrinks(len: nat, n: nat)
    requires len >= 1 && n >= 2
    ensures len / n < len
  {
    var q := len / n;
    assert q * n <= len;
    assert q * n == q + q + q * (n - 2);
  }

  lemma PushKeeps(s: State, w: nat, fail: bool)
    requires Inv(s) && w < |s.rings|
    requires var p := s.pcs[w];
             p.PushLoad? || p.PushWrite? || p.PushStore? || p.PushDivert? || p.BatchPush?
    ensures Inv(Go(0, s, w, fail))
  {
    var s' := Go(0, s, w, fail);
    var r, p := s.rings[w], s.pcs[w];
    assert WorkerOk(s, w) && RingOk(r);
    if p.PushWrite? {
      WriteBeyond(r, p.tail, p.t, w);
      OwnStep(s, w, s'.rings[w], s'.pcs[w], s');
    } else if p.PushStore? {
      OwnStep(s, w, s'.rings[w], s'.pcs[w], s');
    } else {
      PcStep(s, w, s'.pcs[w], s');
    }
  }

  lemma SpillKeeps(s: State, w: nat, fail: bool)
    requires Inv(s) && w < |s.rings|
    requires var p := s.pcs[w]; p.SpillCas? || p.SpillExpose? || p.SpillMove?
    ensures Inv(Go(0, s, w, fail))
  {
    var s' := Go(0, s, w, fail);
    var r, p := s.rings[w], s.pcs[w];
    assert WorkerOk(s, w) && RingOk(r);
    if p.SpillMove? {
      PcStep(s, w, s'.pcs[w], s');
    } else if s'.pcs[w].PushLoad? {
      PcStep(s, w, s'.pcs[w], s');
    } else {
      OwnStep(s, w, s'.rings[w], s'.pcs[w], s');
    }
  }

  lemma PopKeeps(s: State, w: nat, fail: bool)
    requires Inv(s) && w < |s.rings| && (s.pcs[w].PopTry? || s.pcs[w].PopRead?)
    ensures Inv(Go(0, s, w, fail))
  {
    var s' := Go(0, s, w, fail);
    var r, p := s.rings[w], s.pcs[w];
    assert WorkerOk(s, w) && RingOk(r);
    if s'.pcs[w].PopRead? {
      OwnStep(s, w, s'.rings[w], s'.pcs[w], s');
    } else {
      PcStep(s, w, s'.pcs[w], s');
    }
  }

  lemma StealSetupKeeps(s: State, w: nat, fail: bool)
    requires Inv(s) && w < |s.rings| && (s.pcs[w].StealLoad? || s.pcs[w].StealTail?)
    ensures Inv(Go(0, s, w, fail))
  {
    var s' := Go(0, s, w, fail);
    var p := s.pcs[w];
    assert WorkerOk(s, w) && RingOk(s.rings[p.victim]);
    PcStep(s, w, s'.pcs[w], s');
  }

  lemma StealClaimKeeps(s: State, w: nat, fail: bool)
    requires Inv(s) && w < |s.rings| && s.pcs[w].StealCas?
    ensures Inv(Go(0, s, w, fail))
  {
    var s' := Go(0, s, w, fail);
    var p := s.pcs[w];
    assert WorkerOk(s, w) && RingOk(s.rings[p.victim]);
    if s'.pcs[w].StealTail? {
      PcStep(s, w, s'.pcs[w], s');
    } else {
      VictimStep(s, w, p.victim, s'.rings[p.victim], s'.pcs[w], s');
    }
  }

  lemma CopyLands(r: Ring, dst: int, i: int, loot: seq<Task>)
    requires RingOk(r) && Landed(r, dst, i, loot) && i < |loot|
    ensures Landed(r.(buf := r.buf[Slot(dst + i) := loot[i]]), dst, i + 1, loot)
  {
    var r' := r.(buf := r.buf[Slot(dst + i) := loot[i]]);
    forall j | 0 <= j < i + 1 ensures r'.buf[Slot(dst + j)] == loot[j] {
      if j < i {
        SlotsDiffer(dst + j, dst + i);
        assert r.buf[Slot(dst + j)] == loot[j];
      }
    }
  }

  lemma CopyOk(r: Ring, v: Ring, w: nat, p: Pc)
    requires RingOk(r) && RingOk(v) && p.StealCopy? && OwnerOk(r, p) && ThiefOk(v, w, p)
    ensures var r' := r.(buf := r.buf[Slot(p.dst + p.i) := v.buf[Slot(p.prev.steal + p.i)]]);
            && Evolves(w, r, r')
            && (var next := p.(i := p.i + 1); p.i + 1 < p.n ==> OwnerOk(r', next) && ThiefOk(v, w, next))
            && (var last := StealFinish(p.victim, p.dst, p.prev.steal, p.prev, p.n, p.loot);
                p.i + 1 >= p.n ==> OwnerOk(r', last) && ThiefOk(v, w, last))
  {
    assert v.buf[Slot(p.prev.steal + p.i)] == p.loot[p.i];
    WriteBeyond(r, p.dst + p.i, p.loot[p.i], w);
    CopyLands(r, p.dst, p.i, p.loot);
  }

  lemma StealCopyKeeps(s: State, w: nat)
    requires Inv(s) && w < |s.rings| && s.pcs[w].StealCopy? && s.pcs[w].victim < |s.rings|
    ensures Inv(DoStealCopy(s, w))
  {
    var s' := DoStealCopy(s, w);
    assert WorkerOk(s, w);
    CopyOk(s.rings[w], s.rings[s.pcs[w].victim], w, s.pcs[w]);
    OwnStep(s, w, s'.rings[w], s'.pcs[w], s');
  }

  lemma StealFinishKeeps(s: State, w: nat, fail: bool)
    requires Inv(s) && w < |s.rings| && s.pcs[w].StealFinish? && s.pcs[w].victim < |s.rings|
    ensures Inv(DoStealFinish(s, w, fail))
  {
    var s' := DoStealFinish(s, w, fail);
    var p := s.pcs[w];
    assert WorkerOk(s, w) && RingOk(s.rings[p.victim]);
    if s'.pcs[w].StealFinish? {
      PcStep(s, w, s'.pcs[w], s');
    } else {
      VictimStep(s, w, p.victim, s'.rings[p.victim], s'.pcs[w], s');
    }
  }

  lemma StealReturnKeeps(s: State, w: nat)
    requires Inv(s) && w < |s.rings|
    ensures s.pcs[w].StealTake? ==> Inv(DoStealTake(s, w))
    ensures s.pcs[w].StealStore? ==> Inv(DoStealStore(0, s, w))
  {
    assert WorkerOk(s, w) && RingOk(s.rings[w]);
    if s.pcs[w].StealTake? {
      var s' := DoStealTake(s, w);
      PcStep(s, w, s'.pcs[w], s');
    } else if s.pcs[w].StealStore? {
      var s' := DoStealStore(0, s, w);
      OwnStep(s, w, s'.rings[w], s'.pcs[w], s');
    }
  }

  lemma GoKeeps(s: State, w: nat, fail: bool)
    requires Inv(s) && w < |s.rings|
    ensures Inv(Go(0, s, w, fail))
  {
    assert WorkerOk(s, w);
    match s.pcs[w]
    case Ready =>
    case PushLoad(_) => PushKeeps(s, w, fail);
    case PushWrite(_, _, _) => PushKeeps(s, w, fail);
    case PushStore(_, _, _) => PushKeeps(s, w, fail);
    case PushDivert(_) => PushKeeps(s, w, fail);
    case BatchPush(_) => PushKeeps(s, w, fail);
    case SpillCas(_, _, _) => SpillKeeps(s, w, fail);
    case SpillExpose(_, _, _, _) => SpillKeeps(s, w, fail);
    case SpillMove(_, _, _, _) => SpillKeeps(s, w, fail);
    case PopTry(_) => PopKeeps(s, w, fail);
    case PopRead(_, _) => PopKeeps(s, w, fail);
    case StealLoad(_, _) => StealSetupKeeps(s, w, fail);
    case StealTail(_, _, _) => StealSetupKeeps(s, w, fail);
    case StealCas(_, _, _, _) => StealClaimKeeps(s, w, fail);
    case StealCopy(_, _, _, _, _, _) => StealCopyKeeps(s, w);
    case StealFinish(_, _, _, _, _, _) => StealFinishKeeps(s, w, fail);
    case StealTake(_, _, _) => StealReturnKeeps(s, w);
    case StealStore(_, _, _, _) => StealReturnKeeps(s, w);
  }

  lemma StepKeeps(s: State, a: Action)
    requires Inv(s) && |s.rings| >= 2
    ensures Inv(Step(0, s, a)) && |Step(0, s, a).rings| == |s.rings|
  {
    if a.w < |s.rings| {
      match a
      case Start(w, op) => if s.pcs[w].Ready? { BeginKeeps(s, w, op); }
      case Advance(w, fail) => GoKeeps(s, w, fail);
    }
  }

  /** Every reachable state, whatever the interleaving. */
  lemma {:induction false} RunKeeps(n: nat, schedule: seq<Action>)
    requires n >= 2
    ensures Inv(Run(0, Init(n), schedule)) && |Run(0, Init(n), schedule).rings| == n
    decreases |schedule|
  {
    if schedule != [] {
      var before := schedule[..|schedule| - 1];
      RunKeeps(n, before);
      StepKeeps(Run(0, Init(n), before), schedule[|schedule| - 1]);
    }
  }
}
