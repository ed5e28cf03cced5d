/** The ring refines plain queues.

    `Queues` is what a user of the run queue believes in: one first-in-first-out
    queue per worker, the tasks each worker has in hand in mid-operation, and the
    injection queue. Every step of the ring is one `Move` on it (or none), so tasks
    are neither lost nor duplicated and keep their order. */
module RingQueues {
  import opened RingMachine
  import opened RingSafety

  datatype Queues = Queues(queue: seq<seq<Task>>, hand: seq<seq<Task>>,
                           overflow: seq<Task>, pushed: seq<Task>, returned: seq<Task>)

  datatype Move =
    | Stay
    | Accept(t: Task)            // a push is handed its task
    | Receive(t: Task)           // a task arrives in the injection queue
    | Enqueue                    // the first task in hand goes to the back of the queue
    | Divert                     // everything in hand goes to the injection queue
    | Gather                     // a full queue is taken in hand
    | Expose                     // its first half is put back
    | Take                       // the front task is taken in hand
    | Return                     // the one task in hand is handed out
    | Rob(victim: nat, n: nat)   // the first n tasks of a peer are taken in hand
    | Settle                     // all but the last of them are queued, the last handed out
    | Refill(n: nat)             // n tasks leave the injection queue, the first handed out

  ghost predicate Allowed(q: Queues, w: nat, m: Move)
    requires w < |q.queue| == |q.hand|
  {
    match m
    case Stay => true
    case Accept(_) => q.hand[w] == []
    case Receive(_) => true
    case Enqueue => q.hand[w] != [] && |q.queue[w]| < 256
    case Divert => true
    case Gather => |q.queue[w]| == 256 && |q.hand[w]| == 1
    case Expose => q.queue[w] == [] && |q.hand[w]| == 257
    case Take => q.hand[w] == [] && q.queue[w] != []
    case Return => |q.hand[w]| == 1
    case Rob(v, n) => v < |q.queue| && v != w && q.hand[w] == [] && 1 <= n && 2 * n - 1 <= |q.queue[v]|
    case Settle => q.hand[w] != [] && |q.queue[w]| + |q.hand[w]| <= 256
    case Refill(n) => q.hand[w] == [] && 1 <= n <= |q.overflow|
  }

  ghost function Apply(q: Queues, w: nat, m: Move): Queues
    requires w < |q.queue| == |q.hand| && Allowed(q, w, m)
  {
    var queue, hand := q.queue[w], q.hand[w];
    match m
    case Stay => q
    case Accept(t) => q.(hand := q.hand[w := [t]], pushed := q.pushed + [t])
    case Receive(t) => q.(overflow := q.overflow + [t], pushed := q.pushed + [t])
    case Enqueue => q.(queue := q.queue[w := queue + [hand[0]]], hand := q.hand[w := hand[1..]])
    case Divert => q.(overflow := q.overflow + hand, hand := q.hand[w := []])
    case Gather => q.(queue := q.queue[w := []], hand := q.hand[w := queue + hand])
    case Expose => q.(queue := q.queue[w := hand[..128]], hand := q.hand[w := hand[128..]])
    case Take => q.(queue := q.queue[w := queue[1..]], hand := q.hand[w := [queue[0]]])
    case Return => q.(returned := q.returned + hand, hand := q.hand[w := []])
    case Rob(v, n) =>
      q.(queue := q.queue[v := q.queue[v][n..]], hand := q.hand[w := q.queue[v][..n]])
    case Settle =>
      q.(queue := q.queue[w := queue + hand[..|hand| - 1]],
         returned := q.returned + [hand[|hand| - 1]], hand := q.hand[w := []])
    case Refill(n) =>
      q.(overflow := q.overflow[n..], returned := q.returned + [q.overflow[0]],
         hand := q.hand[w := q.overflow[1..n]])
  }

  // ---- the view -----------------------------------------------------------------

  ghost function Live(r: Ring): (s: seq<Task>)
    requires r.head.front <= r.tail
  {
    Window(r.buf, r.head.front, r.tail - r.head.front)
  }

  ghost function Hand(p: Pc): seq<Task> {
    match p
    case PushLoad(t) => [t]
    case PushWrite(t, _, rest) => [t] + rest
    case PushStore(t, _, rest) => [t] + rest
    case PushDivert(t) => [t]
    case SpillCas(t, _, _) => [t]
    case SpillExpose(t, _, _, all) => all + [t]
    case SpillMove(t, _, _, half) => half + [t]
    case BatchPush(rest) => rest
    case PopRead(_, was) => [was]
    case StealCopy(_, _, _, _, _, loot) => loot
    case StealFinish(_, _, _, _, _, loot) => loot
    case StealTake(_, _, loot) => loot
    case StealStore(_, _, _, loot) => loot
    case _ => []
  }

  ghost function View(s: State): (q: Queues)
    requires Inv(s)
    ensures |q.queue| == |q.hand| == |s.rings|
  {
    Queues(seq(|s.rings|, i requires 0 <= i < |s.rings| => assert RingOk(s.rings[i]); Live(s.rings[i])),
           seq(|s.pcs|, i requires 0 <= i < |s.pcs| => Hand(s.pcs[i])),
           s.overflow, s.pushed, s.returned)
  }

  /** The view, one worker at a time. */
  lemma ViewAt(s: State, w: nat)
    requires Inv(s) && w < |s.rings|
    ensures RingOk(s.rings[w]) && View(s).queue[w] == Live(s.rings[w]) && View(s).hand[w] == Hand(s.pcs[w])
  {
  }

  /** A step on worker `x`'s program counter and ring `y` shows in those two places only. */
  lemma ViewStep(s: State, s': State, x: nat, y: nat)
    requires Inv(s) && Inv(s') && x < |s.rings| == |s'.rings| && y < |s.rings|
    requires s'.pcs == s.pcs[x := s'.pcs[x]] && s'.rings == s.rings[y := s'.rings[y]]
    ensures View(s').queue == View(s).queue[y := Live(s'.rings[y])]
    ensures View(s').hand == View(s).hand[x := Hand(s'.pcs[x])]
  {
  }

  lemma LiveSame(r: Ring, k: int, t: Task)
    requires RingOk(r) && r.tail <= k < r.head.steal + 256
    ensures Live(r.(buf := r.buf[Slot(k) := t])) == Live(r)
  {
    var r' := r.(buf := r.buf[Slot(k) := t]);
    forall j | 0 <= j < |Live(r)| ensures Live(r')[j] == Live(r)[j] {
      SlotsDiffer(r.head.front + j, k);
    }
  }

  // ---- every step is a move -------------------------------------------------------

  /** The move that a step is: which one depends on where the worker is and, for a
      compare-exchange, on whether the word is still the one it loaded. */
  ghost function GoMove(s: State, w: nat, fail: bool): Move
    requires w < |s.pcs| == |s.rings|
  {
    var r := s.rings[w];
    match s.pcs[w]
    case PushStore(_, _, _) => Enqueue
    case PushDivert(_) => Divert
    case SpillCas(_, base, _) => if !fail && r.head == Head(base, base) then Gather else Stay
    case SpillExpose(_, _, _, _) => Expose
    case SpillMove(_, _, batch, _) => if |batch| < 128 then Stay else Divert
    case PopTry(seen) => if !fail && r.head == seen then Take else Stay
    case PopRead(_, _) => Return
    case StealCas(v, _, prev, n) =>
      if !fail && v < |s.rings| && s.rings[v].head == prev && n >= 0 then Rob(v, n) else Stay
    case StealStore(_, _, _, _) => Settle
    case _ => Stay
  }

  ghost function MoveOf(s: State, a: Action): Move
    requires a.w < |s.pcs| == |s.rings|
  {
    match a
    case Advance(w, fail) => GoMove(s, w, fail)
    case Start(w, op) =>
      if !s.pcs[w].Ready? then Stay
      else
        match op
        case Push(t) => Accept(t)
        case Inject(t) => Receive(t)
        case TakeBatch =>
          if s.overflow == [] then Stay
          else
            var want := BatchSize(|s.overflow|, |s.rings|, 256 - (s.rings[w].tail - s.rings[w].head.steal));
            Refill(if want >= 0 then want else 0)
        case _ => Stay
  }

  lemma PushLoadMoves(s: State, w: nat)
    requires Inv(s) && w < |s.rings| && s.pcs[w].PushLoad? && Inv(DoPushLoad(0, s, w))
    ensures View(DoPushLoad(0, s, w)) == View(s)
  {
    var s', t := DoPushLoad(0, s, w), s.pcs[w].t;
    assert WorkerOk(s', w);
    ViewAt(s, w);
    ViewStep(s, s', w, w);
    assert [t] + [] == [t];
  }

  lemma PushWriteMoves(s: State, w: nat)
    requires Inv(s) && w < |s.rings| && s.pcs[w].PushWrite? && Inv(DoPushWrite(s, w))
    ensures View(DoPushWrite(s, w)) == View(s)
  {
    assert WorkerOk(s, w);
    ViewAt(s, w);
    ViewStep(s, DoPushWrite(s, w), w, w);
    LiveSame(s.rings[w], s.pcs[w].tail, s.pcs[w].t);
  }

  lemma PushDivertMoves(s: State, w: nat)
    requires Inv(s) && w < |s.rings| && s.pcs[w].PushDivert? && Inv(DoPushDivert(s, w))
    ensures View(DoPushDivert(s, w)) == Apply(View(s), w, Divert)
  {
    ViewAt(s, w);
    ViewStep(s, DoPushDivert(s, w), w, w);
  }

  lemma BatchPushMoves(s: State, w: nat)
    requires Inv(s) && w < |s.rings| && s.pcs[w].BatchPush? && Inv(DoBatchPush(0, s, w))
    ensures View(DoBatchPush(0, s, w)) == View(s)
  {
    var s', rest := DoBatchPush(0, s, w), s.pcs[w].rest;
    assert WorkerOk(s, w) && WorkerOk(s', w);
    ViewAt(s, w);
    ViewStep(s, s', w, w);
    assert [rest[0]] + rest[1..] == rest;
  }

  lemma PushStoreMoves(s: State, w: nat, fail: bool)
    requires Inv(s) && w < |s.rings| && Inv(Go(0, s, w, fail)) && s.pcs[w].PushStore?
    ensures Allowed(View(s), w, Enqueue) && View(Go(0, s, w, fail)) == Apply(View(s), w, Enqueue)
  {
    var s' := Go(0, s, w, fail);
    var r, p := s.rings[w], s.pcs[w];
    assert WorkerOk(s, w) && WorkerOk(s', w);
    ViewAt(s, w);
    ViewStep(s, s', w, w);
    assert Live(s'.rings[w]) == Live(r) + [p.t];
    assert Hand(p)[1..] == p.rest;
  }

  lemma SpillCasMoves(s: State, w: nat, fail: bool)
    requires Inv(s) && w < |s.rings| && s.pcs[w].SpillCas? && Inv(DoSpillCas(s, w, fail))
    ensures var m := GoMove(s, w, fail);
            Allowed(View(s), w, m) && View(DoSpillCas(s, w, fail)) == Apply(View(s), w, m)
  {
    assert WorkerOk(s, w);
    ViewAt(s, w);
    ViewStep(s, DoSpillCas(s, w, fail), w, w);
  }

  lemma SpillExposeMoves(s: State, w: nat)
    requires Inv(s) && w < |s.rings| && s.pcs[w].SpillExpose? && Inv(DoSpillExpose(0, s, w))
    ensures Allowed(View(s), w, Expose) && View(DoSpillExpose(0, s, w)) == Apply(View(s), w, Expose)
  {
    var s', p := DoSpillExpose(0, s, w), s.pcs[w];
    assert WorkerOk(s, w);
    ViewAt(s, w);
    ViewStep(s, s', w, w);
    SpillExposesFirstHalf(s.rings[w], p.base, p.all, s'.rings[w]);
    assert (p.all + [p.t])[..128] == p.all[..128];
    assert (p.all + [p.t])[128..] == p.all[128..] + [p.t];
  }

  lemma SpillMoveMoves(s: State, w: nat)
    requires Inv(s) && w < |s.rings| && s.pcs[w].SpillMove? && Inv(DoSpillMove(s, w))
    ensures var m := GoMove(s, w, false);
            Allowed(View(s), w, m) && View(DoSpillMove(s, w)) == Apply(View(s), w, m)
  {
    var p := s.pcs[w];
    assert WorkerOk(s, w);
    ViewAt(s, w);
    ViewStep(s, DoSpillMove(s, w), w, w);
    if |p.batch| == 128 { assert p.batch == p.half; }
  }

  /** Jumping `head` by 256 and then `tail` by 128 leaves exactly the old first half
      visible, in order, and the second half where the owner goes on to read it. */
  lemma SpillExposesFirstHalf(r: Ring, base: int, all: seq<Task>, r': Ring)
    requires all == Window(r.buf, base, 256)
    requires r'.buf == r.buf && r'.head.front == base + 256 && r'.tail == base + 384
    ensures Live(r') == all[..128] && Window(r.buf, base + 128, 128) == all[128..]
  {
    forall j | 0 <= j < 128 ensures Live(r')[j] == all[j] {
      SlotWraps(base + j);
    }
    var half := Window(r.buf, base + 128, 128);
    forall j | 0 <= j < 128 ensures half[j] == all[128..][j] {
      assert base + 128 + j == base + (128 + j);
    }
  }

  lemma PopTryMoves(s: State, w: nat, fail: bool)
    requires Inv(s) && w < |s.rings| && s.pcs[w].PopTry? && Inv(DoPopTry(0, s, w, fail))
    ensures var m := GoMove(s, w, fail);
            Allowed(View(s), w, m) && View(DoPopTry(0, s, w, fail)) == Apply(View(s), w, m)
  {
    var s' := DoPopTry(0, s, w, fail);
    assert WorkerOk(s, w);
    ViewAt(s, w);
    ViewStep(s, s', w, w);
    if s'.pcs[w].PopRead? { LiveDrops(s.rings[w], s'.rings[w], 1); }
  }

  lemma PopReadMoves(s: State, w: nat)
    requires Inv(s) && w < |s.rings| && s.pcs[w].PopRead? && Inv(DoPopRead(s, w))
    ensures Allowed(View(s), w, Return) && View(DoPopRead(s, w)) == Apply(View(s), w, Return)
  {
    assert WorkerOk(s, w);
    ViewAt(s, w);
    ViewStep(s, DoPopRead(s, w), w, w);
  }

  lemma LiveDrops(r: Ring, r': Ring, n: nat)
    requires RingOk(r) && r'.buf == r.buf && r'.tail == r.tail
    requires r'.head.front == r.head.front + n <= r.tail
    ensures Live(r') == Live(r)[n..] && Live(r)[..n] == Window(r.buf, r.head.front, n)
  {
    forall j | 0 <= j < |Live(r')| ensures Live(r')[j] == Live(r)[n + j] {
      assert r.head.front + n + j == r.head.front + (n + j);
    }
  }

  lemma StealLoadMoves(s: State, w: nat, fail: bool)
    requires Inv(s) && w < |s.rings| && (s.pcs[w].StealLoad? || s.pcs[w].StealTail?)
    requires Inv(Go(0, s, w, fail))
    ensures View(Go(0, s, w, fail)) == View(s)
  {
    var s' := Go(0, s, w, fail);
    ViewAt(s, w);
    ViewStep(s, s', w, w);
  }

  lemma FinishMoves(s: State, w: nat, fail: bool)
    requires Inv(s) && w < |s.rings| && s.pcs[w].StealFinish? && s.pcs[w].victim < |s.rings|
    requires Inv(DoStealFinish(s, w, fail))
    ensures View(DoStealFinish(s, w, fail)) == View(s)
  {
    var s' := DoStealFinish(s, w, fail);
    var v := s.pcs[w].victim;
    assert WorkerOk(s, w);
    ViewAt(s, w);
    ViewAt(s, v);
    ViewStep(s, s', w, v);
  }

  lemma ClaimMoves(s: State, w: nat, fail: bool)
    requires Inv(s) && w < |s.rings| && s.pcs[w].StealCas? && s.pcs[w].victim < |s.rings|
    requires Inv(DoStealCas(0, s, w, fail))
    ensures var m := GoMove(s, w, fail);
            Allowed(View(s), w, m) && View(DoStealCas(0, s, w, fail)) == Apply(View(s), w, m)
  {
    var s' := DoStealCas(0, s, w, fail);
    var p := s.pcs[w];
    assert WorkerOk(s, w) && WorkerOk(s', w);
    ViewAt(s, w);
    ViewAt(s, p.victim);
    ViewStep(s, s', w, p.victim);
    if s'.pcs[w].StealCopy? {
      LiveDrops(s.rings[p.victim], s'.rings[p.victim], p.n);
    }
  }

  lemma LandMoves(s: State, w: nat)
    requires Inv(s) && w < |s.rings| && s.pcs[w].StealCopy? && s.pcs[w].victim < |s.rings|
    requires Inv(DoStealCopy(s, w))
    ensures View(DoStealCopy(s, w)) == View(s)
  {
    var s' := DoStealCopy(s, w);
    var r, p := s.rings[w], s.pcs[w];
    assert WorkerOk(s, w);
    ViewAt(s, w);
    ViewStep(s, s', w, w);
    LiveSame(r, p.dst + p.i, s.rings[p.victim].buf[Slot(p.prev.steal + p.i)]);
  }

  lemma SettleMoves(s: State, w: nat, fail: bool)
    requires Inv(s) && w < |s.rings| && Inv(Go(0, s, w, fail)) && s.pcs[w].StealStore?
    ensures Allowed(View(s), w, Settle) && View(Go(0, s, w, fail)) == Apply(View(s), w, Settle)
  {
    var s' := Go(0, s, w, fail);
    var r, p := s.rings[w], s.pcs[w];
    assert WorkerOk(s, w) && WorkerOk(s', w);
    ViewAt(s, w);
    ViewStep(s, s', w, w);
    LiveGrows(r, s'.rings[w], p.n, p.loot);
  }

  lemma LiveGrows(r: Ring, r': Ring, n: nat, loot: seq<Task>)
    requires RingOk(r) && r'.buf == r.buf && r'.head == r.head && r'.tail == r.tail + n
    requires n <= |loot| && Landed(r, r.tail, n, loot)
    ensures Live(r') == Live(r) + loot[..n]
  {
    var c := r.tail - r.head.front;
    forall j | 0 <= j < |Live(r')| ensures Live(r')[j] == (Live(r) + loot[..n])[j] {
      if j >= c {
        assert r.head.front + j == r.tail + (j - c);
        assert r.buf[Slot(r.tail + (j - c))] == loot[j - c];
      }
    }
  }

  lemma TakeMoves(s: State, w: nat)
    requires Inv(s) && w < |s.rings| && s.pcs[w].StealTake? && Inv(DoStealTake(s, w))
    ensures View(DoStealTake(s, w)) == View(s)
  {
    ViewAt(s, w);
    ViewStep(s, DoStealTake(s, w), w, w);
  }

  lemma RefillMoves(s: State, w: nat)
    requires Inv(s) && w < |s.rings| && |s.rings| >= 2 && s.pcs[w].Ready? && Inv(StartBatch(0, s, w))
    ensures var m := MoveOf(s, Start(w, TakeBatch));
            Allowed(View(s), w, m) && View(StartBatch(0, s, w)) == Apply(View(s), w, m)
  {
    if s.overflow != [] {
      var s' := StartBatch(0, s, w);
      ViewAt(s, w);
      ViewStep(s, s', w, w);
      var free := 256 - (s.rings[w].tail - s.rings[w].head.steal);
      BatchFits(|s.overflow|, |s.rings|, free);
      var want := BatchSize(|s.overflow|, |s.rings|, free);
      assert Hand(s'.pcs[w]) == s.overflow[1..want];
    }
  }

  lemma BeginMoves(s: State, w: nat, op: Op)
    requires Inv(s) && w < |s.rings| && Inv(Begin(0, s, w, op)) && |s.rings| >= 2 && s.pcs[w].Ready?
    ensures var m := MoveOf(s, Start(w, op));
            Allowed(View(s), w, m) && View(Begin(0, s, w, op)) == Apply(View(s), w, m)
  {
    if op.TakeBatch? {
      RefillMoves(s, w);
    } else {
      var s' := Begin(0, s, w, op);
      ViewAt(s, w);
      ViewStep(s, s', w, w);
    }
  }

  lemma GoMoves(s: State, w: nat, fail: bool)
    requires Inv(s) && w < |s.rings| && Inv(Go(0, s, w, fail))
    ensures var m := GoMove(s, w, fail);
            Allowed(View(s), w, m) && View(Go(0, s, w, fail)) == Apply(View(s), w, m)
  {
    assert WorkerOk(s, w);
    match s.pcs[w]
    case Ready =>
    case PushLoad(_) => PushLoadMoves(s, w);
    case PushWrite(_, _, _) => PushWriteMoves(s, w);
    case PushStore(_, _, _) => PushStoreMoves(s, w, fail);
    case PushDivert(_) => PushDivertMoves(s, w);
    case BatchPush(_) => BatchPushMoves(s, w);
    case SpillCas(_, _, _) => SpillCasMoves(s, w, fail);
    case SpillExpose(_, _, _, _) => SpillExposeMoves(s, w);
    case SpillMove(_, _, _, _) => SpillMoveMoves(s, w);
    case PopTry(_) => PopTryMoves(s, w, fail);
    case PopRead(_, _) => PopReadMoves(s, w);
    case StealLoad(_, _) => StealLoadMoves(s, w, fail);
    case StealTail(_, _, _) => StealLoadMoves(s, w, fail);
    case StealCas(_, _, _, _) => ClaimMoves(s, w, fail);
    case StealFinish(_, _, _, _, _, _) => FinishMoves(s, w, fail);
    case StealCopy(_, _, _, _, _, _) => LandMoves(s, w);
    case StealTake(_, _, _) => TakeMoves(s, w);
    case StealStore(_, _, _, _) => SettleMoves(s, w, fail);
  }

  /** Each step of the lock-free ring is one move on plain queues. */
  lemma StepMoves(s: State, a: Action)
    requires Inv(s) && |s.rings| >= 2 && a.w < |s.rings|
    ensures Inv(Step(0, s, a))
    ensures Allowed(View(s), a.w, MoveOf(s, a)) && View(Step(0, s, a)) == Apply(View(s), a.w, MoveOf(s, a))
  {
    StepKeeps(s, a);
    match a
    case Start(w, op) => if s.pcs[w].Ready? { BeginMoves(s, w, op); }
    case Advance(w, fail) => GoMoves(s, w, fail);
  }

  // ---- conservation ---------------------------------------------------------------

  ghost function Flat(ss: seq<seq<Task>>): multiset<Task> {
    if ss == [] then multiset{} else multiset(ss[0]) + Flat(ss[1..])
  }

  lemma {:induction false} FlatUpdate(ss: seq<seq<Task>>, i: nat, x: seq<Task>, t: Task)
    requires i < |ss|
    ensures Flat(ss[i := x])[t] + multiset(ss[i])[t] == Flat(ss)[t] + multiset(x)[t]
  {
    if i > 0 {
      FlatUpdate(ss[1..], i - 1, x, t);
      assert ss[i := x][1..] == ss[1..][i - 1 := x];
    } else {
      assert ss[i := x][1..] == ss[1..];
    }
  }

  /** Every task the queues hold or have handed out. */
  ghost function Accounted(q: Queues): multiset<Task> {
    Flat(q.queue) + Flat(q.hand) + multiset(q.overflow) + multiset(q.returned)
  }

  lemma Splits(s: seq<Task>, k: nat)
    requires k <= |s|
    ensures multiset(s[..k]) + multiset(s[k..]) == multiset(s)
  {
    assert s[..k] + s[k..] == s;
  }

  lemma HandCounts(q: Queues, w: nat, m: Move, t: Task)
    requires w < |q.queue| == |q.hand| && Allowed(q, w, m)
    requires m.Stay? || m.Accept? || m.Receive? || m.Divert? || m.Return?
    requires Accounted(q)[t] == multiset(q.pushed)[t]
    ensures Accounted(Apply(q, w, m))[t] == multiset(Apply(q, w, m).pushed)[t]
  {
    var q' := Apply(q, w, m);
    FlatUpdate(q.hand, w, q'.hand[w], t);
  }

  lemma EnqueueCounts(q: Queues, w: nat, m: Move, t: Task)
    requires w < |q.queue| == |q.hand| && Allowed(q, w, m)
    requires m.Enqueue?
    requires Accounted(q)[t] == multiset(q.pushed)[t]
    ensures Accounted(Apply(q, w, m))[t] == multiset(Apply(q, w, m).pushed)[t]
  {
    var q' := Apply(q, w, m);
    FlatUpdate(q.queue, w, q'.queue[w], t);
    FlatUpdate(q.hand, w, q'.hand[w], t);
    Splits(q.hand[w], 1);
    assert q.hand[w][..1] == [q.hand[w][0]];
  }

  lemma TakeCounts(q: Queues, w: nat, m: Move, t: Task)
    requires w < |q.queue| == |q.hand| && Allowed(q, w, m)
    requires m.Take?
    requires Accounted(q)[t] == multiset(q.pushed)[t]
    ensures Accounted(Apply(q, w, m))[t] == multiset(Apply(q, w, m).pushed)[t]
  {
    var q' := Apply(q, w, m);
    FlatUpdate(q.queue, w, q'.queue[w], t);
    FlatUpdate(q.hand, w, q'.hand[w], t);
    Splits(q.queue[w], 1);
    assert q.queue[w][..1] == [q.queue[w][0]];
  }

  lemma SpillCounts(q: Queues, w: nat, m: Move, t: Task)
    requires w < |q.queue| == |q.hand| && Allowed(q, w, m)
    requires m.Gather? || m.Expose?
    requires Accounted(q)[t] == multiset(q.pushed)[t]
    ensures Accounted(Apply(q, w, m))[t] == multiset(Apply(q, w, m).pushed)[t]
  {
    var q' := Apply(q, w, m);
    FlatUpdate(q.queue, w, q'.queue[w], t);
    FlatUpdate(q.hand, w, q'.hand[w], t);
    if m.Expose? { Splits(q.hand[w], 128); }
  }

  lemma RobCounts(q: Queues, w: nat, m: Move, t: Task)
    requires w < |q.queue| == |q.hand| && Allowed(q, w, m)
    requires m.Rob?
    requires Accounted(q)[t] == multiset(q.pushed)[t]
    ensures Accounted(Apply(q, w, m))[t] == multiset(Apply(q, w, m).pushed)[t]
  {
    var q' := Apply(q, w, m);
    FlatUpdate(q.queue, m.victim, q'.queue[m.victim], t);
    FlatUpdate(q.hand, w, q'.hand[w], t);
    Splits(q.queue[m.victim], m.n);
  }

  lemma SettleCounts(q: Queues, w: nat, m: Move, t: Task)
    requires w < |q.queue| == |q.hand| && Allowed(q, w, m)
    requires m.Settle?
    requires Accounted(q)[t] == multiset(q.pushed)[t]
    ensures Accounted(Apply(q, w, m))[t] == multiset(Apply(q, w, m).pushed)[t]
  {
    var q' := Apply(q, w, m);
    FlatUpdate(q.queue, w, q'.queue[w], t);
    FlatUpdate(q.hand, w, q'.hand[w], t);
    var hand := q.hand[w];
    Splits(hand, |hand| - 1);
    assert hand[|hand| - 1..] == [hand[|hand| - 1]];
  }

  lemma RefillCounts(q: Queues, w: nat, m: Move, t: Task)
    requires w < |q.queue| == |q.hand| && Allowed(q, w, m)
    requires m.Refill?
    requires Accounted(q)[t] == multiset(q.pushed)[t]
    ensures Accounted(Apply(q, w, m))[t] == multiset(Apply(q, w, m).pushed)[t]
  {
    var q' := Apply(q, w, m);
    FlatUpdate(q.hand, w, q'.hand[w], t);
    Splits(q.overflow, m.n);
    Splits(q.overflow[..m.n], 1);
    assert q.overflow[..m.n][1..] == q.overflow[1..m.n] && q.overflow[..m.n][..1] == [q.overflow[0]];
  }

  lemma MoveConserves(q: Queues, w: nat, m: Move)
    requires w < |q.queue| == |q.hand| && Allowed(q, w, m)
    requires Accounted(q) == multiset(q.pushed)
    ensures Accounted(Apply(q, w, m)) == multiset(Apply(q, w, m).pushed)
  {
    forall t ensures Accounted(Apply(q, w, m))[t] == multiset(Apply(q, w, m).pushed)[t] {
      match m
      case Rob(_, _) => RobCounts(q, w, m, t);
      case Settle => SettleCounts(q, w, m, t);
      case Refill(_) => RefillCounts(q, w, m, t);
      case Enqueue => EnqueueCounts(q, w, m, t);
      case Gather => SpillCounts(q, w, m, t);
      case Expose => SpillCounts(q, w, m, t);
      case Take => TakeCounts(q, w, m, t);
      case _ => HandCounts(q, w, m, t);
    }
  }

  lemma {:induction false} FlatEmpty(ss: seq<seq<Task>>)
    requires forall i | 0 <= i < |ss| :: ss[i] == []
    ensures Flat(ss) == multiset{}
  {
    if ss != [] { FlatEmpty(ss[1..]); }
  }

  /** Whatever the interleaving of pushes, pops, spills and steals: the tasks in the
      rings, in the claimed windows and other mid-operation hands, in the injection
      queue, and already returned, are exactly the tasks pushed. */
  lemma {:induction false} NothingLostOrDuplicated(n: nat, schedule: seq<Action>)
    requires n >= 2
    ensures var s := Run(0, Init(n), schedule);
            Inv(s) && |s.rings| == n && Accounted(View(s)) == multiset(s.pushed)
    decreases |schedule|
  {
    RunKeeps(n, schedule);
    if schedule == [] {
      FlatEmpty(View(Init(n)).queue);
      FlatEmpty(View(Init(n)).hand);
    } else {
      var before := schedule[..|schedule| - 1];
      var a := schedule[|schedule| - 1];
      NothingLostOrDuplicated(n, before);
      var s := Run(0, Init(n), before);
      if a.w < n {
        StepMoves(s, a);
        MoveConserves(View(s), a.w, MoveOf(s, a));
      }
    }
  }
}
