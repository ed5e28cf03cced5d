/** A ring is being robbed exactly while some worker is copying from it. */
module RingThieves {
  import opened RingMachine
  import opened RingSafety
  import opened RingAlone
  import opened RingPrompt

  /** Has claimed tasks of ring y and not yet given the claim up. */
  predicate Robs(p: Pc, y: nat) {
    (p.StealCopy? || p.StealFinish?) && p.victim == y
  }

  ghost predicate Attributed(s: State) {
    forall y: nat :: y < |s.rings| && BeingRobbed(s.rings[y]) ==>
      0 <= s.rings[y].thief < |s.pcs| && Robs(s.pcs[s.rings[y].thief], y)
  }

  /** From s to s' no ring's thief changed, and worker w still robs what it robbed. */
  ghost predicate SameThieves(s: State, s': State, w: nat)
    requires w < |s.pcs|
  {
    && |s'.rings| == |s.rings| && |s'.pcs| == |s.pcs|
    && (forall y: nat :: y < |s.rings| ==> s'.rings[y].thief == s.rings[y].thief)
    && (forall x: nat :: x < |s.pcs| && x != w ==> s'.pcs[x] == s.pcs[x])
    && (forall y: nat :: Robs(s.pcs[w], y) ==> Robs(s'.pcs[w], y))
  }

  lemma SameKeeps(s: State, s': State, w: nat)
    requires Attributed(s) && w < |s.pcs| && SameThieves(s, s', w)
    ensures Attributed(s')
  {
  }

  lemma PushSame(s: State, w: nat)
    requires Inv(s) && w < |s.rings|
    ensures s.pcs[w].PushLoad? ==> SameThieves(s, DoPushLoad(0, s, w), w)
    ensures s.pcs[w].PushWrite? ==> SameThieves(s, DoPushWrite(s, w), w)
    ensures s.pcs[w].PushStore? ==> SameThieves(s, DoPushStore(0, s, w), w)
    ensures s.pcs[w].PushDivert? ==> SameThieves(s, DoPushDivert(s, w), w)
    ensures s.pcs[w].BatchPush? ==> SameThieves(s, DoBatchPush(0, s, w), w)
  {
  }

  lemma SpillSame(s: State, w: nat, fail: bool)
    requires Inv(s) && w < |s.rings|
    ensures s.pcs[w].SpillCas? ==> SameThieves(s, DoSpillCas(s, w, fail), w)
    ensures s.pcs[w].SpillExpose? ==> SameThieves(s, DoSpillExpose(0, s, w), w)
    ensures s.pcs[w].SpillMove? ==> SameThieves(s, DoSpillMove(s, w), w)
    ensures s.pcs[w].PopTry? ==> SameThieves(s, DoPopTry(0, s, w, fail), w)
    ensures s.pcs[w].PopRead? ==> SameThieves(s, DoPopRead(s, w), w)
  {
  }

  lemma OwnerSame(s: State, w: nat, fail: bool)
    requires Inv(s) && w < |s.rings| && AtHome(s.pcs[w])
    ensures SameThieves(s, Go(0, s, w, fail), w)
  {
    var p := s.pcs[w];
    if p.PushLoad? || p.PushWrite? || p.PushStore? || p.PushDivert? || p.BatchPush? {
      PushSame(s, w);
    } else if !p.Ready? && !p.Broken? {
      SpillSame(s, w, fail);
    }
  }

  lemma LookSame(s: State, w: nat)
    requires Inv(s) && w < |s.rings|
    ensures s.pcs[w].StealLoad? && s.pcs[w].victim < |s.rings| ==> SameThieves(s, DoStealLoad(s, w), w)
    ensures s.pcs[w].StealTail? && s.pcs[w].victim < |s.rings| ==> SameThieves(s, DoStealTail(0, s, w), w)
    ensures s.pcs[w].StealCopy? && s.pcs[w].victim < |s.rings| ==> SameThieves(s, DoStealCopy(s, w), w)
    ensures s.pcs[w].StealTake? ==> SameThieves(s, DoStealTake(s, w), w)
    ensures s.pcs[w].StealStore? ==> SameThieves(s, DoStealStore(0, s, w), w)
  {
  }

  /** A claim that succeeds makes its worker the thief; there was none. */
  lemma ClaimKeepsThieves(s: State, w: nat, fail: bool)
    requires Inv(s) && Attributed(s) && w < |s.rings| && s.pcs[w].StealCas? && s.pcs[w].victim < |s.rings|
    ensures Attributed(DoStealCas(0, s, w, fail))
  {
    var s' := DoStealCas(0, s, w, fail);
    assert WorkerOk(s, w);
    if !s'.pcs[w].StealCopy? { SameKeeps(s, s', w); }
  }

  /** The exchange that ends the copying leaves the ring without a thief. */
  lemma FinishKeepsThieves(s: State, w: nat, fail: bool)
    requires Inv(s) && Attributed(s) && w < |s.rings| && s.pcs[w].StealFinish? && s.pcs[w].victim < |s.rings|
    ensures Attributed(DoStealFinish(s, w, fail))
  {
    var s' := DoStealFinish(s, w, fail);
    assert WorkerOk(s, w);
    if s'.pcs[w].StealFinish? { SameKeeps(s, s', w); }
  }

  lemma ThiefKeepsThieves(s: State, w: nat, fail: bool)
    requires Inv(s) && Attributed(s) && w < |s.rings| && !AtHome(s.pcs[w])
    ensures Attributed(Go(0, s, w, fail))
  {
    assert WorkerOk(s, w);
    if s.pcs[w].StealCas? {
      ClaimKeepsThieves(s, w, fail);
    } else if s.pcs[w].StealFinish? {
      FinishKeepsThieves(s, w, fail);
    } else {
      LookSame(s, w);
      SameKeeps(s, Go(0, s, w, fail), w);
    }
  }

  lemma BeginSame(s: State, w: nat, op: Op)
    requires Inv(s) && w < |s.rings| && s.pcs[w].Ready?
    ensures SameThieves(s, Begin(0, s, w, op), w)
  {
  }

  lemma StepKeepsThieves(s: State, a: Action)
    requires Inv(s) && Attributed(s)
    ensures Attributed(Step(0, s, a))
  {
    if a.w < |s.rings| {
      match a
      case Start(w, op) =>
        if s.pcs[w].Ready? {
          BeginSame(s, w, op);
          SameKeeps(s, Begin(0, s, w, op), w);
        }
      case Advance(w, fail) =>
        if AtHome(s.pcs[w]) {
          OwnerSame(s, w, fail);
          SameKeeps(s, Go(0, s, w, fail), w);
        } else {
          ThiefKeepsThieves(s, w, fail);
        }
    }
  }

  /** In every run a ring is being robbed, with its two head indices apart, if and only if some
      worker has claimed from it and not yet finished copying: a finished steal leaves its
      victim free to be robbed again. */
  lemma {:induction false} RobbedByAThief(n: nat, schedule: seq<Action>)
    requires n >= 2
    ensures var s := Run(0, Init(n), schedule);
            && Inv(s) && Attributed(s)
            && (forall y: nat :: y < |s.rings| ==>
                  && (BeingRobbed(s.rings[y]) <==> s.rings[y].head.steal != s.rings[y].head.front)
                  && (BeingRobbed(s.rings[y]) <==> exists w :: 0 <= w < |s.pcs| && Robs(s.pcs[w], y)))
    decreases |schedule|
  {
    RunKeeps(n, schedule);
    if schedule != [] {
      RobbedByAThief(n, schedule[..|schedule| - 1]);
      StepKeepsThieves(Run(0, Init(n), schedule[..|schedule| - 1]), schedule[|schedule| - 1]);
    }
    var s := Run(0, Init(n), schedule);
    forall y: nat | y < |s.rings|
      ensures BeingRobbed(s.rings[y]) <==> s.rings[y].head.steal != s.rings[y].head.front
      ensures BeingRobbed(s.rings[y]) <==> exists w :: 0 <= w < |s.pcs| && Robs(s.pcs[w], y)
    {
      assert RingOk(s.rings[y]);
      if w :| 0 <= w < |s.pcs| && Robs(s.pcs[w], y) { assert WorkerOk(s, w); }
    }
  }
}
