/** What the operations of the run queue answer. A worker that is left alone finishes its
    operation, whatever the others are in the middle of, and the queues are then what the
    operation on plain queues makes them. */
module RingAlone {
  import opened RingMachine
  import opened RingSafety
  import opened RingQueues

  // ---- the operations on plain queues -----------------------------------------------------

  ghost function PopSpec(q: Queues, w: nat): Queues
    requires w < |q.queue|
  {
    if q.queue[w] == [] then q
    else q.(queue := q.queue[w := q.queue[w][1..]], returned := q.returned + [q.queue[w][0]])
  }

  ghost function PushSpec(q: Queues, w: nat, t: Task): Queues
    requires w < |q.queue|
  {
    q.(queue := q.queue[w := q.queue[w] + [t]], pushed := q.pushed + [t])
  }

  ghost function DivertSpec(q: Queues, t: Task): Queues {
    q.(overflow := q.overflow + [t], pushed := q.pushed + [t])
  }

  /** The first half stays, the second half and the new task go to the injection queue. */
  ghost function SpillSpec(q: Queues, w: nat, t: Task): Queues
    requires w < |q.queue| && |q.queue[w]| == 256
  {
    q.(queue := q.queue[w := q.queue[w][..128]], overflow := q.overflow + q.queue[w][128..] + [t],
       pushed := q.pushed + [t])
  }

  /** The first half, rounded up, goes over: the last of it is returned, the rest queued. */
  ghost function StealSpec(q: Queues, w: nat, v: nat): Queues
    requires w < |q.queue| && v < |q.queue| && v != w && q.queue[v] != []
  {
    var n := (|q.queue[v]| + 1) / 2;
    q.(queue := q.queue[v := q.queue[v][n..]][w := q.queue[w] + q.queue[v][..n - 1]],
       returned := q.returned + [q.queue[v][n - 1]])
  }

  ghost function RefillSpec(q: Queues, w: nat, n: nat): Queues
    requires w < |q.queue| && 1 <= n <= |q.overflow|
  {
    q.(overflow := q.overflow[n..], returned := q.returned + [q.overflow[0]],
       queue := q.queue[w := q.queue[w] + q.overflow[1..n]])
  }

  /** How much of its ring a worker cannot use: its queue, and what a thief has claimed but not
      finished copying. */
  function InUse(r: Ring): int { r.tail - r.head.steal }

  predicate BeingRobbed(r: Ring) { r.thief != -1 }

  ghost function Expected(s: State, w: nat, op: Op): Queues
    requires Inv(s) && |s.rings| >= 2 && w < |s.rings|
  {
    var q, r := View(s), s.rings[w];
    assert RingOk(r);
    ViewAt(s, w);
    match op
    case Pop => PopSpec(q, w)
    case Push(t) =>
      if InUse(r) < 256 then PushSpec(q, w, t)
      else if BeingRobbed(r) then DivertSpec(q, t)
      else SpillSpec(q, w, t)
    case Inject(t) => DivertSpec(q, t)
    case Steal(v) =>
      if v == w || v >= |s.rings| || InUse(r) > 128 || BeingRobbed(s.rings[v]) || q.queue[v] == [] then q
      else StealSpec(q, w, v)
    case TakeBatch =>
      if q.overflow == [] then q
      else
        BatchFits(|q.overflow|, |s.rings|, 256 - InUse(r));
        RefillSpec(q, w, BatchSize(|q.overflow|, |s.rings|, 256 - InUse(r)))
  }

  // ---- left alone ---------------------------------------------------------------------------

  function Alone(w: nat, k: nat): seq<Action> {
    seq(k, _ => Advance(w, false))
  }

  lemma {:induction false} AloneFirst(s: State, w: nat, k: nat)
    ensures Run(0, s, Alone(w, 0)) == s
    ensures Run(0, s, Alone(w, k + 1)) == Run(0, Step(0, s, Advance(w, false)), Alone(w, k))
  {
    assert Alone(w, k + 1)[..k] == Alone(w, k);
    if k > 0 {
      AloneFirst(s, w, k - 1);
      assert Alone(w, k)[..k - 1] == Alone(w, k - 1);
    }
  }

  ghost predicate Ended(e: State, w: nat, q: Queues) {
    Inv(e) && w < |e.pcs| && e.pcs[w].Ready? && View(e) == q
  }

  /** Worker w, left alone from s on, finishes its operation with the queues as in q. */
  ghost predicate Ends(s: State, w: nat, q: Queues) {
    exists k: nat :: Ended(Run(0, s, Alone(w, k)), w, q)
  }

  lemma EndsNow(s: State, w: nat)
    requires Inv(s) && w < |s.pcs| && s.pcs[w].Ready?
    ensures Ends(s, w, View(s))
  {
    AloneFirst(s, w, 0);
    assert Ended(Run(0, s, Alone(w, 0)), w, View(s));
  }

  lemma EndsLater(s: State, w: nat, q: Queues)
    requires |s.pcs| == |s.rings| && w < |s.pcs| && Ends(Go(0, s, w, false), w, q)
    ensures Ends(s, w, q)
  {
    var s1 := Go(0, s, w, false);
    assert Step(0, s, Advance(w, false)) == s1;
    var k: nat :| Ended(Run(0, s1, Alone(w, k)), w, q);
    AloneFirst(s, w, k);
    assert Ended(Run(0, s, Alone(w, k + 1)), w, q);
  }

  /** One step: the invariant and the queues after it. */
  lemma OneStep(s: State, w: nat) returns (s1: State)
    requires Inv(s) && w < |s.rings|
    ensures s1 == Go(0, s, w, false) && Inv(s1) && |s1.rings| == |s.rings|
    ensures Allowed(View(s), w, GoMove(s, w, false)) && View(s1) == Apply(View(s), w, GoMove(s, w, false))
  {
    s1 := Go(0, s, w, false);
    GoKeeps(s, w, false);
    GoMoves(s, w, false);
    assert |View(s1).queue| == |View(s).queue|;
  }

  // ---- pop ------------------------------------------------------------------------------------

  lemma PopReadEnds(s: State, w: nat)
    requires Inv(s) && w < |s.rings| && s.pcs[w].PopRead?
    ensures Allowed(View(s), w, Return) && Ends(s, w, Apply(View(s), w, Return))
  {
    var s1 := OneStep(s, w);
    assert s1.pcs[w].Ready?;
    EndsNow(s1, w);
    EndsLater(s, w, View(s1));
  }

  lemma PopTryEnds(s: State, w: nat)
    requires Inv(s) && w < |s.rings| && s.pcs[w] == PopTry(s.rings[w].head)
    ensures Ends(s, w, PopSpec(View(s), w))
  {
    var s1 := OneStep(s, w);
    assert s1.pcs[w].PopRead?;
    PopReadEnds(s1, w);
    EndsLater(s, w, Apply(View(s1), w, Return));
    assert Apply(View(s1), w, Return) == PopSpec(View(s), w);
  }

  // ---- push -----------------------------------------------------------------------------------

  /** Everything in hand queued. */
  ghost function AllQueued(q: Queues, w: nat): Queues
    requires w < |q.queue| == |q.hand|
  {
    q.(queue := q.queue[w := q.queue[w] + q.hand[w]], hand := q.hand[w := []])
  }

  lemma QueuedOneByOne(q: Queues, w: nat)
    requires w < |q.queue| == |q.hand| && q.hand[w] != [] && |q.queue[w]| < 256
    ensures AllQueued(Apply(q, w, Enqueue), w) == AllQueued(q, w)
    ensures |q.hand[w]| == 1 ==> Apply(q, w, Enqueue) == AllQueued(q, w)
  {
    var queue, hand := q.queue[w], q.hand[w];
    assert (queue + [hand[0]]) + hand[1..] == queue + hand;
    assert |hand| == 1 ==> hand == [hand[0]] && hand[1..] == [];
  }

  lemma {:induction false} PushStoreEnds(s: State, w: nat)
    requires Inv(s) && w < |s.rings| && s.pcs[w].PushStore?
    ensures Ends(s, w, AllQueued(View(s), w))
    decreases |s.pcs[w].rest|, 1
  {
    var s1 := OneStep(s, w);
    ViewAt(s, w);
    QueuedOneByOne(View(s), w);
    if s.pcs[w].rest == [] {
      assert s1.pcs[w].Ready?;
      EndsNow(s1, w);
      EndsLater(s, w, View(s1));
    } else {
      assert s1.pcs[w] == BatchPush(s.pcs[w].rest);
      BatchPushEnds(s1, w);
      EndsLater(s, w, AllQueued(View(s1), w));
    }
  }

  lemma {:induction false} BatchPushEnds(s: State, w: nat)
    requires Inv(s) && w < |s.rings| && s.pcs[w].BatchPush?
    ensures Ends(s, w, AllQueued(View(s), w))
    decreases |s.pcs[w].rest|, 0
  {
    var s1 := OneStep(s, w);
    assert WorkerOk(s, w);
    assert s1.pcs[w].PushWrite? && s1.pcs[w].rest == s.pcs[w].rest[1..];
    PushWriteEnds(s1, w);
    EndsLater(s, w, AllQueued(View(s1), w));
  }

  lemma {:induction false} PushWriteEnds(s: State, w: nat)
    requires Inv(s) && w < |s.rings| && s.pcs[w].PushWrite?
    ensures Ends(s, w, AllQueued(View(s), w))
    decreases |s.pcs[w].rest|, 2
  {
    var s1 := OneStep(s, w);
    assert s1.pcs[w].PushStore? && s1.pcs[w].rest == s.pcs[w].rest;
    PushStoreEnds(s1, w);
    EndsLater(s, w, AllQueued(View(s1), w));
  }

  lemma PushDivertEnds(s: State, w: nat)
    requires Inv(s) && w < |s.rings| && s.pcs[w].PushDivert?
    ensures Ends(s, w, Apply(View(s), w, Divert))
  {
    var s1 := OneStep(s, w);
    assert s1.pcs[w].Ready?;
    EndsNow(s1, w);
    EndsLater(s, w, View(s1));
  }

  lemma {:induction false} SpillMoveEnds(s: State, w: nat)
    requires Inv(s) && w < |s.rings| && s.pcs[w].SpillMove?
    ensures Ends(s, w, Apply(View(s), w, Divert))
    decreases 129 - |s.pcs[w].batch|
  {
    assert WorkerOk(s, w);
    var s1 := OneStep(s, w);
    if |s.pcs[w].batch| < 128 {
      assert s1.pcs[w].SpillMove? && |s1.pcs[w].batch| == |s.pcs[w].batch| + 1;
      SpillMoveEnds(s1, w);
      EndsLater(s, w, Apply(View(s1), w, Divert));
    } else {
      assert s1.pcs[w].Ready?;
      EndsNow(s1, w);
      EndsLater(s, w, View(s1));
    }
  }

  lemma SpillExposeEnds(s: State, w: nat)
    requires Inv(s) && w < |s.rings| && s.pcs[w].SpillExpose?
    ensures Allowed(View(s), w, Expose) && Ends(s, w, Apply(Apply(View(s), w, Expose), w, Divert))
  {
    var s1 := OneStep(s, w);
    assert s1.pcs[w].SpillMove?;
    SpillMoveEnds(s1, w);
    EndsLater(s, w, Apply(View(s1), w, Divert));
  }

  lemma SpillCasEnds(s: State, w: nat)
    requires Inv(s) && w < |s.rings| && s.pcs[w].SpillCas?
    requires s.rings[w].head == Head(s.pcs[w].base, s.pcs[w].base)
    ensures Allowed(View(s), w, Gather) && Allowed(Apply(View(s), w, Gather), w, Expose)
    ensures Ends(s, w, Apply(Apply(Apply(View(s), w, Gather), w, Expose), w, Divert))
  {
    var s1 := OneStep(s, w);
    assert s1.pcs[w].SpillExpose?;
    SpillExposeEnds(s1, w);
    EndsLater(s, w, Apply(Apply(View(s1), w, Expose), w, Divert));
  }

  /** The three ways a push of t can go, given the queues with t in hand. */
  lemma SpillMeans(q: Queues, w: nat, t: Task)
    requires w < |q.queue| == |q.hand| && q.hand[w] == [] && |q.queue[w]| == 256
    ensures var q1 := Apply(q, w, Accept(t));
            Apply(Apply(Apply(q1, w, Gather), w, Expose), w, Divert) == SpillSpec(q, w, t)
  {
    var queue := q.queue[w];
    assert (queue + [t])[..128] == queue[..128];
    assert (queue + [t])[128..] == queue[128..] + [t];
    assert q.overflow + queue[128..] + [t] == q.overflow + (queue[128..] + [t]);
    assert q.hand[w := []] == q.hand;
  }

  lemma PushLoadEnds(s: State, w: nat, q: Queues, t: Task)
    requires Inv(s) && w < |s.rings| && s.pcs[w] == PushLoad(t)
    requires |q.queue| == |q.hand| == |s.rings| && q.hand[w] == [] && View(s) == Apply(q, w, Accept(t))
    ensures var r := s.rings[w];
            && (InUse(r) < 256 ==> Ends(s, w, PushSpec(q, w, t)))
            && (InUse(r) >= 256 && BeingRobbed(r) ==> Ends(s, w, DivertSpec(q, t)))
            && (InUse(r) >= 256 && !BeingRobbed(r) ==> |q.queue[w]| == 256 && Ends(s, w, SpillSpec(q, w, t)))
  {
    var r := s.rings[w];
    assert RingOk(r) && WorkerOk(s, w);
    ViewAt(s, w);
    var s1 := OneStep(s, w);
    assert q.hand[w := []] == q.hand;
    if InUse(r) < 256 {
      assert s1.pcs[w].PushWrite?;
      PushWriteEnds(s1, w);
      EndsLater(s, w, AllQueued(View(s1), w));
    } else if BeingRobbed(r) {
      assert s1.pcs[w].PushDivert?;
      PushDivertEnds(s1, w);
      EndsLater(s, w, Apply(View(s1), w, Divert));
    } else {
      assert s1.pcs[w].SpillCas?;
      SpillCasEnds(s1, w);
      SpillMeans(q, w, t);
      EndsLater(s, w, Apply(Apply(Apply(View(s1), w, Gather), w, Expose), w, Divert));
    }
  }

  // ---- steal ----------------------------------------------------------------------------------

  lemma StealStoreEnds(s: State, w: nat)
    requires Inv(s) && w < |s.rings| && s.pcs[w].StealStore?
    ensures Allowed(View(s), w, Settle) && Ends(s, w, Apply(View(s), w, Settle))
  {
    var s1 := OneStep(s, w);
    assert s1.pcs[w].Ready?;
    EndsNow(s1, w);
    EndsLater(s, w, View(s1));
  }

  lemma StealTakeEnds(s: State, w: nat)
    requires Inv(s) && w < |s.rings| && s.pcs[w].StealTake?
    ensures Allowed(View(s), w, Settle) && Ends(s, w, Apply(View(s), w, Settle))
  {
    var s1 := OneStep(s, w);
    assert s1.pcs[w].StealStore?;
    StealStoreEnds(s1, w);
    EndsLater(s, w, Apply(View(s1), w, Settle));
  }

  /** The first exchange of phase 3 fails, the second does not. */
  lemma {:induction false} StealFinishEnds(s: State, w: nat)
    requires Inv(s) && w < |s.rings| && s.pcs[w].StealFinish? && s.pcs[w].victim < |s.rings|
    ensures Allowed(View(s), w, Settle) && Ends(s, w, Apply(View(s), w, Settle))
    decreases s.rings[s.pcs[w].victim].head != s.pcs[w].prev
  {
    var s1 := OneStep(s, w);
    if s.rings[s.pcs[w].victim].head == s.pcs[w].prev {
      assert s1.pcs[w].StealTake?;
      StealTakeEnds(s1, w);
    } else {
      assert s1.pcs[w].StealFinish? && s1.rings == s.rings;
      StealFinishEnds(s1, w);
    }
    EndsLater(s, w, Apply(View(s1), w, Settle));
  }

  lemma {:induction false} StealCopyEnds(s: State, w: nat)
    requires Inv(s) && w < |s.rings| && s.pcs[w].StealCopy? && s.pcs[w].victim < |s.rings|
    ensures Allowed(View(s), w, Settle) && Ends(s, w, Apply(View(s), w, Settle))
    decreases s.pcs[w].n - s.pcs[w].i
  {
    assert WorkerOk(s, w);
    var s1 := OneStep(s, w);
    if s.pcs[w].i + 1 < s.pcs[w].n {
      assert s1.pcs[w] == s.pcs[w].(i := s.pcs[w].i + 1);
      StealCopyEnds(s1, w);
    } else {
      assert s1.pcs[w].StealFinish? && s1.pcs[w].victim == s.pcs[w].victim;
      StealFinishEnds(s1, w);
    }
    EndsLater(s, w, Apply(View(s1), w, Settle));
  }

  lemma StealCasEnds(s: State, w: nat)
    requires Inv(s) && w < |s.rings| && s.pcs[w].StealCas? && s.pcs[w].victim < |s.rings|
    requires s.rings[s.pcs[w].victim].head == s.pcs[w].prev && s.pcs[w].n >= 0
    ensures var m := Rob(s.pcs[w].victim, s.pcs[w].n);
            && Allowed(View(s), w, m) && Allowed(Apply(View(s), w, m), w, Settle)
            && Ends(s, w, Apply(Apply(View(s), w, m), w, Settle))
  {
    assert WorkerOk(s, w) && RingOk(s.rings[s.pcs[w].victim]);
    var s1 := OneStep(s, w);
    assert s1.pcs[w].StealCopy? && s1.pcs[w].victim == s.pcs[w].victim;
    StealCopyEnds(s1, w);
    EndsLater(s, w, Apply(View(s1), w, Settle));
  }

  lemma StealMeans(q: Queues, w: nat, v: nat, n: nat)
    requires w < |q.queue| == |q.hand| && q.hand[w] == [] && Allowed(q, w, Rob(v, n))
    requires 2 * n - 1 <= |q.queue[v]| <= 2 * n && Allowed(Apply(q, w, Rob(v, n)), w, Settle)
    ensures Apply(Apply(q, w, Rob(v, n)), w, Settle) == StealSpec(q, w, v)
  {
    var q1 := Apply(q, w, Rob(v, n));
    assert q1.queue[w] == q.queue[w];
    assert q.queue[v][..n][..n - 1] == q.queue[v][..n - 1];
    assert q.hand[w := []] == q.hand;
  }

  /** With the victim's head as it was loaded. */
  lemma StealTailEnds(s: State, w: nat)
    requires Inv(s) && w < |s.rings| && s.pcs[w].StealTail? && s.pcs[w].victim < |s.rings|
    requires s.rings[s.pcs[w].victim].head == s.pcs[w].prev && s.pcs[w].victim != w
    ensures var v := s.pcs[w].victim;
            if BeingRobbed(s.rings[v]) || View(s).queue[v] == [] then Ends(s, w, View(s))
            else Ends(s, w, StealSpec(View(s), w, v))
  {
    var v := s.pcs[w].victim;
    var r := s.rings[v];
    assert RingOk(r);
    ViewAt(s, v);
    ViewAt(s, w);
    var s1 := OneStep(s, w);
    assert |View(s).queue[v]| == r.tail - r.head.front;
    if BeingRobbed(r) || View(s).queue[v] == [] {
      assert s1.pcs[w].Ready?;
      EndsNow(s1, w);
      EndsLater(s, w, View(s1));
    } else {
      var n := s1.pcs[w].n;
      assert s1.pcs[w].StealCas? && s1.pcs[w].victim == v && s1.rings == s.rings && s1.pcs[w].prev == r.head;
      StealCasEnds(s1, w);
      StealMeans(View(s1), w, v, n);
      EndsLater(s, w, Apply(Apply(View(s1), w, Rob(v, n)), w, Settle));
    }
  }

  lemma StealLoadEnds(s: State, w: nat)
    requires Inv(s) && w < |s.rings| && s.pcs[w].StealLoad? && s.pcs[w].victim < |s.rings| && s.pcs[w].victim != w
    ensures var v := s.pcs[w].victim;
            if BeingRobbed(s.rings[v]) || View(s).queue[v] == [] then Ends(s, w, View(s))
            else Ends(s, w, StealSpec(View(s), w, v))
  {
    var v := s.pcs[w].victim;
    var s1 := OneStep(s, w);
    assert s1.pcs[w] == StealTail(v, s.pcs[w].dst, s.rings[v].head) && s1.rings == s.rings;
    StealTailEnds(s1, w);
    if BeingRobbed(s.rings[v]) || View(s).queue[v] == [] {
      EndsLater(s, w, View(s1));
    } else {
      EndsLater(s, w, StealSpec(View(s1), w, v));
    }
  }

  // ---- the operations -------------------------------------------------------------------------

  /** One step to start with. */
  lemma OpStarts(s: State, w: nat, op: Op) returns (s1: State)
    requires Inv(s) && |s.rings| >= 2 && w < |s.rings| && s.pcs[w].Ready?
    ensures s1 == Step(0, s, Start(w, op)) == Begin(0, s, w, op) && Inv(s1) && |s1.rings| == |s.rings|
    ensures var m := MoveOf(s, Start(w, op)); Allowed(View(s), w, m) && View(s1) == Apply(View(s), w, m)
  {
    s1 := Step(0, s, Start(w, op));
    StepMoves(s, Start(w, op));
    assert |View(s1).queue| == |View(s).queue|;
  }

  lemma PopAlone(s: State, w: nat)
    requires Inv(s) && |s.rings| >= 2 && w < |s.rings| && s.pcs[w].Ready?
    ensures Ends(Step(0, s, Start(w, Pop)), w, PopSpec(View(s), w))
  {
    var s1 := OpStarts(s, w, Pop);
    ViewAt(s, w);
    if View(s).queue[w] == [] {
      assert s1.pcs[w].Ready?;
      EndsNow(s1, w);
    } else {
      assert s1.pcs[w] == PopTry(s1.rings[w].head);
      PopTryEnds(s1, w);
    }
  }

  lemma PushAlone(s: State, w: nat, t: Task)
    requires Inv(s) && |s.rings| >= 2 && w < |s.rings| && s.pcs[w].Ready?
    ensures Ends(Step(0, s, Start(w, Push(t))), w, Expected(s, w, Push(t)))
  {
    var s1 := OpStarts(s, w, Push(t));
    ViewAt(s, w);
    assert s1.pcs[w] == PushLoad(t) && s1.rings == s.rings;
    PushLoadEnds(s1, w, View(s), t);
  }

  lemma StealAlone(s: State, w: nat, v: nat)
    requires Inv(s) && |s.rings| >= 2 && w < |s.rings| && s.pcs[w].Ready?
    ensures Ends(Step(0, s, Start(w, Steal(v))), w, Expected(s, w, Steal(v)))
  {
    var s1 := OpStarts(s, w, Steal(v));
    if v == w || v >= |s.rings| || InUse(s.rings[w]) > 128 {
      assert s1.pcs[w].Ready?;
      EndsNow(s1, w);
    } else {
      assert s1.pcs[w] == StealLoad(v, s.rings[w].tail) && s1.rings == s.rings;
      StealLoadEnds(s1, w);
    }
  }

  lemma RefillAlone(s: State, w: nat)
    requires Inv(s) && |s.rings| >= 2 && w < |s.rings| && s.pcs[w].Ready?
    ensures Ends(Step(0, s, Start(w, TakeBatch)), w, Expected(s, w, TakeBatch))
  {
    var s1 := OpStarts(s, w, TakeBatch);
    ViewAt(s, w);
    if s.overflow == [] {
      assert s1.pcs[w].Ready?;
      EndsNow(s1, w);
    } else {
      var n := BatchSize(|s.overflow|, |s.rings|, 256 - InUse(s.rings[w]));
      BatchFits(|s.overflow|, |s.rings|, 256 - InUse(s.rings[w]));
      RefillMeans(View(s), w, n);
      if n == 1 {
        assert s1.pcs[w].Ready?;
        EndsNow(s1, w);
      } else {
        assert s1.pcs[w].BatchPush?;
        BatchPushEnds(s1, w);
      }
    }
  }

  lemma RefillMeans(q: Queues, w: nat, n: nat)
    requires w < |q.queue| == |q.hand| && q.hand[w] == [] && Allowed(q, w, Refill(n))
    ensures AllQueued(Apply(q, w, Refill(n)), w) == RefillSpec(q, w, n)
    ensures n == 1 ==> Apply(q, w, Refill(n)) == RefillSpec(q, w, n)
  {
    assert q.hand[w := []] == q.hand;
    assert q.queue[w] + [] == q.queue[w];
    assert n == 1 ==> q.overflow[1..n] == [];
  }

  /** From every reachable state, with the other workers stopped anywhere in their own
      operations, a worker that runs an operation alone finishes it with exactly the effect
      of that operation on plain queues: a pop takes the front and answers empty only if
      there is none, a push fails over to the injection queue only when the ring is full, a
      steal takes the first half of its victim, rounded up. */
  lemma OperationAlone(n: nat, schedule: seq<Action>, w: nat, op: Op)
    requires n >= 2 && w < n
    ensures var s := Run(0, Init(n), schedule);
            && Inv(s) && |s.pcs| == |s.rings| == n
            && (s.pcs[w].Ready? ==> Ends(Step(0, s, Start(w, op)), w, Expected(s, w, op)))
  {
    NothingLostOrDuplicated(n, schedule);
    var s := Run(0, Init(n), schedule);
    if s.pcs[w].Ready? {
      match op
      case Pop => PopAlone(s, w);
      case Push(t) => PushAlone(s, w, t);
      case Steal(v) => StealAlone(s, w, v);
      case TakeBatch => RefillAlone(s, w);
      case Inject(t) =>
        var s1 := OpStarts(s, w, op);
        EndsNow(s1, w);
    }
  }
}
