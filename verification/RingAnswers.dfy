/** What the run queue's operations answer while other workers interfere. */
module RingAnswers {
  import opened RingMachine
  import opened RingSafety
  import opened RingQueues
  import opened RingAlone
  import opened RingPrompt

  // ---- one step ---------------------------------------------------------------------------------

  /** A pop that starts answers empty if and only if the queue is empty; one that tries again
      answers empty only if it is; and one whose exchange succeeds, which it does if and only
      if nobody has moved the head since it looked, has the front of the queue. */
  lemma PopAnswers(s: State, w: nat, fail: bool)
    requires Inv(s) && w < |s.rings|
    ensures s.pcs[w].Ready? ==> (Step(0, s, Start(w, Pop)).pcs[w].Ready? <==> View(s).queue[w] == [])
    ensures s.pcs[w].PopTry? ==>
              var p := Step(0, s, Advance(w, fail)).pcs[w];
              && (p.Ready? ==> View(s).queue[w] == [])
              && (p.PopRead? <==> !fail && s.rings[w].head == s.pcs[w].seen)
              && (p.PopRead? ==> View(s).queue[w] != [] && p.was == View(s).queue[w][0])
              && (p.Ready? || p.PopRead? || p == PopTry(s.rings[w].head))
  {
    ViewAt(s, w);
    assert WorkerOk(s, w);
  }

  /** A push goes on to its ring if and only if there is room; otherwise to the injection queue
      while the ring is being robbed, and otherwise it spills half of a full queue. */
  lemma PushAnswers(s: State, w: nat, fail: bool)
    requires Inv(s) && w < |s.rings| && s.pcs[w].PushLoad?
    ensures var p, r := Step(0, s, Advance(w, fail)).pcs[w], s.rings[w];
            && (p.PushWrite? <==> InUse(r) < 256)
            && (p.PushDivert? <==> InUse(r) >= 256 && BeingRobbed(r))
            && (p.SpillCas? <==> InUse(r) >= 256 && !BeingRobbed(r))
            && (p.SpillCas? ==> |View(s).queue[w]| == 256)
  {
    ViewAt(s, w);
  }

  /** A steal is not tried by a worker whose own ring is more than half in use. It loads its
      victim's head and sees whether another steal is in progress; then it gives up if and
      only if one was, or nothing has been pushed beyond the head it loaded, and in the
      latter case its victim's queue is empty. */
  lemma StealAnswers(s: State, w: nat, v: nat, fail: bool)
    requires Inv(s) && w < |s.rings|
    ensures s.pcs[w].Ready? ==>
              (Step(0, s, Start(w, Steal(v))).pcs[w].Ready?
               <==> v == w || v >= |s.rings| || InUse(s.rings[w]) > 128)
    ensures s.pcs[w].StealLoad? ==>
              && s.pcs[w].victim < |s.rings|
              && (var p := Step(0, s, Advance(w, fail)).pcs[w];
                  p.StealTail? && (p.prev.steal != p.prev.front <==> BeingRobbed(s.rings[s.pcs[w].victim])))
    ensures s.pcs[w].StealTail? ==>
              && s.pcs[w].victim < |s.rings|
              && (var p, prev := Step(0, s, Advance(w, fail)).pcs[w], s.pcs[w].prev;
                  var tail := s.rings[s.pcs[w].victim].tail;
                  && (p.Ready? <==> prev.steal != prev.front || tail == prev.front)
                  && (tail == prev.front ==> View(s).queue[s.pcs[w].victim] == [])
                  && (!p.Ready? ==> p.StealCas? && p.prev == prev))
  {
    assert WorkerOk(s, w);
    if HasVictim(s.pcs[w]) {
      assert RingOk(s.rings[s.pcs[w].victim]);
      ViewAt(s, s.pcs[w].victim);
    }
  }

  /** A refill takes one task, or as many as one share of the injection queue plus one, half of a
      ring, and the free slots all allow. */
  lemma RefillTakesShare(len: nat, n: nat, free: int, k: nat)
    requires n > 0
    ensures var want := BatchSize(len, n, free);
            && (want == 1 || (1 < want <= len / n + 1 && want <= 128 && want <= free))
            && (k <= len / n + 1 && k <= 128 && k <= free ==> k <= want)
  {
  }

  /** The code's assertions are checked where it has them: a step ends broken if and only if the
      assertion before it fails, in any state and with indices of any width. */
  lemma AssertionsAreSeen(m: nat, s: State, w: nat, fail: bool)
    requires w < |s.pcs| == |s.rings| && !s.pcs[w].Broken?
    ensures Go(m, s, w, fail).pcs[w].Broken? <==>
              var r := s.rings[w];
              match s.pcs[w]
              case PushLoad(_) =>
                && Norm(m, r.tail - r.head.steal) >= 256 && r.head.steal == r.head.front
                && Norm(m, r.tail - r.head.front) != 256
              case BatchPush(rest) => rest != [] && Norm(m, r.tail - r.head.steal) >= 256
              case StealTail(v, _, prev) =>
                && v < |s.rings| && prev.steal == prev.front
                && (var avail := Norm(m, s.rings[v].tail - prev.front);
                    avail - avail / 2 != 0 && Norm(m, prev.front + (avail - avail / 2)) == prev.steal)
              case StealCas(v, _, prev, n) =>
                v < |s.rings| && !fail && s.rings[v].head == prev && !(0 <= n <= 128)
              case _ => false
    ensures |s.rings| > 0 && s.pcs[w].Ready? ==>
              (StartBatch(m, s, w).pcs[w].Broken? <==>
                 s.overflow != []
                 && BatchSize(|s.overflow|, |s.rings|, 256 - Norm(m, s.rings[w].tail - s.rings[w].head.steal))
                      > |s.overflow|)
  {
  }

  // ---- with anything in between -------------------------------------------------------------------

  predicate Without(schedule: seq<Action>, w: nat) {
    forall i :: 0 <= i < |schedule| ==> schedule[i].w != w
  }

  /** What others do leaves a worker where it is, and moves no head back. */
  lemma {:induction false} Meanwhile(s: State, schedule: seq<Action>, w: nat, y: nat)
    requires Inv(s) && |s.rings| >= 2 && w < |s.rings| && y < |s.rings| && Without(schedule, w)
    ensures var e := Run(0, s, schedule);
            && Inv(e) && |e.rings| == |s.rings| && e.pcs[w] == s.pcs[w]
            && Before(s.rings[y].head, e.rings[y].head)
    decreases |schedule|
  {
    if schedule != [] {
      var before, a := schedule[..|schedule| - 1], schedule[|schedule| - 1];
      Meanwhile(s, before, w, y);
      StepAside(Run(0, s, before), a, w, y);
    }
  }

  lemma StepAside(s: State, a: Action, w: nat, y: nat)
    requires Inv(s) && |s.rings| >= 2 && w < |s.rings| && y < |s.rings| && a.w != w
    ensures var e := Step(0, s, a);
            && Inv(e) && |e.rings| == |s.rings| && e.pcs[w] == s.pcs[w]
            && Before(s.rings[y].head, e.rings[y].head)
  {
    StepKeeps(s, a);
    if a.w < |s.rings| { StepModest(s, a); }
  }

  /** A pop returns the task that was at the front of its queue when its exchange succeeded,
      whatever happens before it reads the slot. */
  lemma PopReturnsFront(s: State, w: nat, schedule: seq<Action>, fail: bool)
    requires Inv(s) && |s.rings| >= 2 && w < |s.rings| && Without(schedule, w)
    requires s.pcs[w] == PopTry(s.rings[w].head)
    ensures var m := Run(0, Step(0, s, Advance(w, false)), schedule);
            var e := Step(0, m, Advance(w, fail));
            && Inv(m) && w < |e.pcs| && e.pcs[w].Ready? && View(s).queue[w] != []
            && e.returned == m.returned + [View(s).queue[w][0]]
  {
    var s1 := Step(0, s, Advance(w, false));
    StepMoves(s, Advance(w, false));
    StepKeeps(s, Advance(w, false));
    PopAnswers(s, w, false);
    Meanwhile(s1, schedule, w, w);
    ReadsWhatItTook(Run(0, s1, schedule), w, fail);
  }

  lemma ReadsWhatItTook(m: State, w: nat, fail: bool)
    requires Inv(m) && w < |m.rings| && m.pcs[w].PopRead?
    ensures var e := Step(0, m, Advance(w, fail));
            w < |e.pcs| && e.pcs[w].Ready? && e.returned == m.returned + [m.pcs[w].was]
  {
    assert WorkerOk(m, w);
  }

  /** A claim that succeeds takes exactly half, rounded up, of what its victim's queue held when
      the claim was sized, from the front of the queue, whatever happened since. */
  lemma ClaimTakesHalf(s: State, w: nat, schedule: seq<Action>)
    requires Inv(s) && |s.rings| >= 2 && w < |s.rings| && Without(schedule, w) && s.pcs[w].StealTail?
    requires var m := Run(0, Step(0, s, Advance(w, false)), schedule);
             w < |m.pcs| && w < |Step(0, m, Advance(w, false)).pcs|
             && m.pcs[w].StealCas? && Step(0, m, Advance(w, false)).pcs[w].StealCopy?
    ensures var m := Run(0, Step(0, s, Advance(w, false)), schedule);
            var p, v := Step(0, m, Advance(w, false)).pcs[w], s.pcs[w].victim;
            && Inv(m) && v < |s.rings| == |m.rings|
            && |p.loot| == (|View(s).queue[v]| + 1) / 2 <= |View(m).queue[v]|
            && p.loot == View(m).queue[v][..|p.loot|]
  {
    var s1 := Step(0, s, Advance(w, false));
    var v := s.pcs[w].victim;
    assert WorkerOk(s, w) && RingOk(s.rings[v]);
    ViewAt(s, v);
    StepKeeps(s, Advance(w, false));
    Sized(s, w);
    Meanwhile(s1, schedule, w, v);
    var m := Run(0, s1, schedule);
    assert WorkerOk(m, w);
    ViewAt(m, v);
    Claims(m, w);
  }

  lemma Sized(s: State, w: nat)
    requires Inv(s) && w < |s.rings| && s.pcs[w].StealTail? && s.pcs[w].victim < |s.rings|
    ensures var s1, p := Step(0, s, Advance(w, false)), s.pcs[w];
            && |s1.rings| == |s.rings| && s1.rings == s.rings && |s1.pcs| == |s.pcs|
            && (s1.pcs[w].StealCas? ==>
                  s1.pcs[w].victim == p.victim && s1.pcs[w].prev == p.prev
                  && s1.pcs[w].n == (s.rings[p.victim].tail - p.prev.front + 1) / 2)
  {
  }

  lemma Claims(m: State, w: nat)
    requires Inv(m) && w < |m.rings| && m.pcs[w].StealCas? && m.pcs[w].victim < |m.rings|
    requires Step(0, m, Advance(w, false)).pcs[w].StealCopy?
    ensures var p, q := Step(0, m, Advance(w, false)).pcs[w], m.pcs[w];
            && m.rings[q.victim].head == q.prev && |p.loot| == q.n <= |View(m).queue[q.victim]|
            && p.loot == View(m).queue[q.victim][..q.n]
  {
    var q := m.pcs[w];
    assert WorkerOk(m, w) && RingOk(m.rings[q.victim]);
    ViewAt(m, q.victim);
    var r := m.rings[q.victim];
    assert q.prev.steal == r.head.front;
  }

  // ---- nobody is blocked ---------------------------------------------------------------------------

  /** Left alone, worker w finishes its operation. */
  ghost predicate Finishes(s: State, w: nat) {
    exists q :: Ends(s, w, q)
  }

  lemma FinishesLater(s: State, w: nat)
    requires Inv(s) && w < |s.rings| && Finishes(Go(0, s, w, false), w)
    ensures Finishes(s, w)
  {
    var q :| Ends(Go(0, s, w, false), w, q);
    EndsLater(s, w, q);
  }

  lemma PushFinishes(s: State, w: nat)
    requires Inv(s) && w < |s.rings|
    requires s.pcs[w].PushLoad? || (s.pcs[w].SpillCas? && s.rings[w].head == Head(s.pcs[w].base, s.pcs[w].base))
    ensures Finishes(s, w)
  {
    if s.pcs[w].SpillCas? {
      SpillCasEnds(s, w);
    } else {
      var s1 := OneStep(s, w);
      PushAnswers(s, w, false);
      if s1.pcs[w].PushWrite? { PushWriteEnds(s1, w); }
      else if s1.pcs[w].PushDivert? { PushDivertEnds(s1, w); }
      else { SpillCasEnds(s1, w); }
      FinishesLater(s, w);
    }
  }

  lemma PopFinishes(s: State, w: nat)
    requires Inv(s) && w < |s.rings| && s.pcs[w].PopTry?
    ensures Finishes(s, w)
  {
    if s.pcs[w].seen == s.rings[w].head {
      PopTryEnds(s, w);
    } else {
      var s1 := OneStep(s, w);
      if s1.pcs[w].Ready? {
        EndsNow(s1, w);
      } else {
        assert s1.rings == s.rings && s1.pcs[w] == PopTry(s1.rings[w].head);
        PopTryEnds(s1, w);
      }
      FinishesLater(s, w);
    }
  }

  lemma ClaimFinishes(s: State, w: nat)
    requires Inv(s) && w < |s.rings| && s.pcs[w].StealCas?
    ensures Finishes(s, w)
  {
    assert WorkerOk(s, w);
    var v := s.pcs[w].victim;
    if s.pcs[w].prev == s.rings[v].head {
      StealCasEnds(s, w);
    } else {
      var s1 := OneStep(s, w);
      assert s1.rings == s.rings && s1.pcs[w] == StealTail(v, s.pcs[w].dst, s.rings[v].head);
      StealTailEnds(s1, w);
      FinishesLater(s, w);
    }
  }

  lemma SizeFinishes(s: State, w: nat)
    requires Inv(s) && w < |s.rings| && s.pcs[w].StealTail?
    ensures Finishes(s, w)
  {
    var s1 := OneStep(s, w);
    assert WorkerOk(s1, w) && WorkerOk(s, w);
    StealAnswers(s, w, w, false);
    if s1.pcs[w].Ready? { EndsNow(s1, w); } else { ClaimFinishes(s1, w); }
    FinishesLater(s, w);
  }

  lemma SpillFinishes(s: State, w: nat)
    requires Inv(s) && w < |s.rings| && s.pcs[w].SpillCas?
    ensures Finishes(s, w)
  {
    if s.rings[w].head == Head(s.pcs[w].base, s.pcs[w].base) {
      PushFinishes(s, w);
    } else {
      var s1 := OneStep(s, w);
      assert s1.pcs[w].PushLoad?;
      PushFinishes(s1, w);
      FinishesLater(s, w);
    }
  }

  lemma ThiefFinishes(s: State, w: nat)
    requires Inv(s) && w < |s.rings| && !AtHome(s.pcs[w])
    ensures Finishes(s, w)
  {
    assert WorkerOk(s, w);
    match s.pcs[w]
    case StealLoad(_, _) => StealLoadEnds(s, w);
    case StealTail(_, _, _) => SizeFinishes(s, w);
    case StealCas(_, _, _, _) => ClaimFinishes(s, w);
    case StealCopy(_, _, _, _, _, _) => StealCopyEnds(s, w);
    case StealFinish(_, _, _, _, _, _) => StealFinishEnds(s, w);
    case StealTake(_, _, _) => StealTakeEnds(s, w);
    case StealStore(_, _, _, _) => StealStoreEnds(s, w);
  }

  /** From every reachable state every worker can finish what it is doing alone, wherever the
      others have stopped: no one ever has to wait for another. */
  lemma NobodyIsBlocked(n: nat, schedule: seq<Action>, w: nat)
    requires n >= 2 && w < n
    ensures Finishes(Run(0, Init(n), schedule), w)
  {
    NothingLostOrDuplicated(n, schedule);
    var s := Run(0, Init(n), schedule);
    assert WorkerOk(s, w);
    if !AtHome(s.pcs[w]) {
      ThiefFinishes(s, w);
    } else {
      match s.pcs[w]
      case Ready => EndsNow(s, w);
      case PushLoad(_) => PushFinishes(s, w);
      case PushWrite(_, _, _) => PushWriteEnds(s, w);
      case PushStore(_, _, _) => PushStoreEnds(s, w);
      case PushDivert(_) => PushDivertEnds(s, w);
      case BatchPush(_) => BatchPushEnds(s, w);
      case SpillCas(_, _, _) => SpillFinishes(s, w);
      case SpillExpose(_, _, _, _) => SpillExposeEnds(s, w);
      case SpillMove(_, _, _, _) => SpillMoveEnds(s, w);
      case PopTry(_) => PopFinishes(s, w);
      case PopRead(_, _) => PopReadEnds(s, w);
    }
  }
}
