/** When the ring's 32 bits suffice, as a condition on the schedule: each thief sizes and
    makes its claim before its victim's tail, which a step moves by at most 128, can have
    gone round since the thief loaded the head. */
module RingPrompt {
  import opened RingMachine
  import opened RingSafety
  import opened RingWords

  /** Has loaded its victim's head and not yet claimed. */
  predicate Holding(p: Pc) {
    p.StealTail? || p.StealCas?
  }

  /** How many actions of the schedule have passed since worker w last loaded a head. */
  function Since(n: nat, schedule: seq<Action>, w: nat): nat
    decreases |schedule|
  {
    if schedule == [] then 0
    else
      var before, a := schedule[..|schedule| - 1], schedule[|schedule| - 1];
      if Loads(Run(0, Init(n), before), a, w) then 0 else Since(n, before, w) + 1
  }

  /** The action makes worker w load a head: at first, or because its claim failed. */
  predicate Loads(s: State, a: Action, w: nat) {
    a.Advance? && a.w == w < |s.pcs| && (s.pcs[w].StealLoad? || s.pcs[w].StealCas?)
  }

  /** Each thief sizes its claim and makes it within 2^25 - 3 actions of loading the head. */
  predicate Prompt(n: nat, schedule: seq<Action>)
    decreases |schedule|
  {
    schedule == [] ||
    (var before, a := schedule[..|schedule| - 1], schedule[|schedule| - 1];
     var s := Run(0, Init(n), before);
     && Prompt(n, before)
     && (a.Advance? && a.w < |s.pcs| && Holding(s.pcs[a.w]) ==> Since(n, before, a.w) <= 0x1FF_FFFD))
  }

  // ---- a step moves a tail by at most 128 -----------------------------------------------------

  /** No tail moved by more than 128, no head moved back, and of the workers only w moved. */
  predicate Modest(s: State, s': State, w: nat) {
    && |s'.rings| == |s.rings| && |s'.pcs| == |s.pcs|
    && (forall y: nat :: y < |s.rings| ==> s'.rings[y].tail <= s.rings[y].tail + 128)
    && (forall y: nat :: y < |s.rings| ==> Before(s.rings[y].head, s'.rings[y].head))
    && (forall x: nat :: x < |s.pcs| && x != w ==> s'.pcs[x] == s.pcs[x])
  }

  /** Moreover worker w holds no head it did not hold before. */
  predicate Near(s: State, s': State, w: nat)
    requires w < |s.pcs|
  {
    && Modest(s, s', w)
    && (Holding(s'.pcs[w]) ==>
          Holding(s.pcs[w]) && s'.pcs[w].victim == s.pcs[w].victim && s'.pcs[w].prev == s.pcs[w].prev)
  }

  lemma PushNear(s: State, w: nat)
    requires Inv(s) && w < |s.rings|
    ensures s.pcs[w].PushLoad? ==> Near(s, DoPushLoad(0, s, w), w)
    ensures s.pcs[w].PushWrite? ==> Near(s, DoPushWrite(s, w), w)
    ensures s.pcs[w].PushStore? ==> Near(s, DoPushStore(0, s, w), w)
    ensures s.pcs[w].PushDivert? ==> Near(s, DoPushDivert(s, w), w)
    ensures s.pcs[w].BatchPush? ==> Near(s, DoBatchPush(0, s, w), w)
  {
    assert WorkerOk(s, w);
  }

  lemma SpillNear(s: State, w: nat, fail: bool)
    requires Inv(s) && w < |s.rings|
    ensures s.pcs[w].SpillCas? ==> Near(s, DoSpillCas(s, w, fail), w)
    ensures s.pcs[w].SpillExpose? ==> Near(s, DoSpillExpose(0, s, w), w)
    ensures s.pcs[w].SpillMove? ==> Near(s, DoSpillMove(s, w), w)
  {
    assert WorkerOk(s, w);
  }

  lemma PopNear(s: State, w: nat, fail: bool)
    requires Inv(s) && w < |s.rings|
    ensures s.pcs[w].PopTry? ==> Near(s, DoPopTry(0, s, w, fail), w)
    ensures s.pcs[w].PopRead? ==> Near(s, DoPopRead(s, w), w)
  {
  }

  lemma ClaimModest(s: State, w: nat, fail: bool)
    requires Inv(s) && w < |s.rings| && HasVictim(s.pcs[w]) && s.pcs[w].victim < |s.rings|
    ensures s.pcs[w].StealLoad? ==> Modest(s, DoStealLoad(s, w), w)
    ensures s.pcs[w].StealTail? ==> Near(s, DoStealTail(0, s, w), w)
    ensures s.pcs[w].StealCas? ==> Modest(s, DoStealCas(0, s, w, fail), w)
  {
  }

  lemma CopyNear(s: State, w: nat, fail: bool)
    requires Inv(s) && w < |s.rings| && HasVictim(s.pcs[w]) && s.pcs[w].victim < |s.rings|
    ensures s.pcs[w].StealCopy? ==> Near(s, DoStealCopy(s, w), w)
    ensures s.pcs[w].StealFinish? ==> Near(s, DoStealFinish(s, w, fail), w)
  {
  }

  lemma ReturnNear(s: State, w: nat)
    requires Inv(s) && w < |s.rings|
    ensures s.pcs[w].StealTake? ==> Near(s, DoStealTake(s, w), w)
    ensures s.pcs[w].StealStore? ==> Near(s, DoStealStore(0, s, w), w)
  {
    assert WorkerOk(s, w);
  }

  lemma BeginNear(s: State, w: nat, op: Op)
    requires Inv(s) && w < |s.rings| && s.pcs[w].Ready?
    ensures Near(s, Begin(0, s, w, op), w)
  {
  }

  /** The steps at which a worker is not stealing. */
  predicate AtHome(p: Pc) {
    !HasVictim(p) && !p.StealTake? && !p.StealStore?
  }

  lemma OwnerNear(s: State, w: nat, fail: bool)
    requires Inv(s) && w < |s.rings| && AtHome(s.pcs[w])
    ensures Near(s, Go(0, s, w, fail), w)
  {
    var p := s.pcs[w];
    if p.PushLoad? || p.PushWrite? || p.PushStore? || p.PushDivert? || p.BatchPush? {
      PushNear(s, w);
    } else if p.PopTry? || p.PopRead? {
      PopNear(s, w, fail);
    } else if !p.Ready? && !p.Broken? {
      SpillNear(s, w, fail);
    }
  }

  lemma ThiefModest(s: State, w: nat, fail: bool)
    requires Inv(s) && w < |s.rings| && !AtHome(s.pcs[w])
    ensures Modest(s, Go(0, s, w, fail), w)
    ensures !Loads(s, Advance(w, fail), w) ==> Near(s, Go(0, s, w, fail), w)
  {
    var p := s.pcs[w];
    if p.StealTake? || p.StealStore? {
      ReturnNear(s, w);
    } else if p.victim < |s.rings| {
      if p.StealCopy? || p.StealFinish? { CopyNear(s, w, fail); } else { ClaimModest(s, w, fail); }
    }
  }

  lemma StepModest(s: State, a: Action)
    requires Inv(s) && a.w < |s.rings|
    ensures Modest(s, Step(0, s, a), a.w)
    ensures !Loads(s, a, a.w) ==> Near(s, Step(0, s, a), a.w)
  {
    match a
    case Start(w, op) => if s.pcs[w].Ready? { BeginNear(s, w, op); }
    case Advance(w, fail) => if AtHome(s.pcs[w]) { OwnerNear(s, w, fail); } else { ThiefModest(s, w, fail); }
  }

  /** A thief's head is `since` actions old: the tail has moved accordingly. */
  predicate Fresh(s: State, w: nat, since: nat)
    requires w < |s.pcs|
  {
    Holding(s.pcs[w]) ==>
      s.pcs[w].victim < |s.rings| && s.rings[s.pcs[w].victim].tail - s.pcs[w].prev.front <= 256 + 128 * since
  }

  lemma FreshAfterLoad(s: State, a: Action, w: nat)
    requires Inv(s) && Loads(s, a, w)
    ensures var s' := Step(0, s, a); |s'.pcs| == |s.pcs| && Fresh(s', w, 0)
  {
    assert WorkerOk(s, w);
    assert RingOk(s.rings[s.pcs[w].victim]);
  }

  lemma FreshLater(s: State, s': State, x: nat, w: nat, since: nat)
    requires w < |s.pcs| && x < |s.pcs| && Fresh(s, w, since)
    requires Modest(s, s', x) && (x == w ==> Near(s, s', w))
    ensures Fresh(s', w, since + 1)
  {
  }

  lemma FreshStep(s: State, a: Action, w: nat, since: nat)
    requires Inv(s) && w < |s.pcs| && Fresh(s, w, since)
    ensures var s' := Step(0, s, a);
            |s'.pcs| == |s.pcs| && Fresh(s', w, if Loads(s, a, w) then 0 else since + 1)
  {
    if Loads(s, a, w) {
      FreshAfterLoad(s, a, w);
    } else if a.w < |s.rings| {
      StepModest(s, a);
      FreshLater(s, Step(0, s, a), a.w, w, since);
    }
  }

  lemma {:induction false} HeldHeadsAreFresh(n: nat, schedule: seq<Action>, w: nat)
    requires n >= 2 && w < n
    ensures var s := Run(0, Init(n), schedule);
            Inv(s) && |s.pcs| == n && Fresh(s, w, Since(n, schedule, w))
    decreases |schedule|
  {
    RunKeeps(n, schedule);
    if schedule != [] {
      var before, a := schedule[..|schedule| - 1], schedule[|schedule| - 1];
      HeldHeadsAreFresh(n, before, w);
      FreshStep(Run(0, Init(n), before), a, w, Since(n, before, w));
    }
  }

  // ---- so the words suffice -------------------------------------------------------------------

  lemma FreshFits(s: State, a: Action)
    requires Inv(s)
    requires a.Advance? && a.w < |s.pcs| && Holding(s.pcs[a.w]) ==> Fresh(s, a.w, 0x1FF_FFFD)
    ensures FitsWords(s, a)
  {
    if a.Advance? && a.w < |s.pcs| && Holding(s.pcs[a.w]) {
      assert WorkerOk(s, a.w);
      var v := s.rings[s.pcs[a.w].victim];
      assert RingOk(v);
      assert v.tail - s.pcs[a.w].prev.front < WORD;
    }
  }

  /** A prompt schedule fits the code's words, so that what is proved of those holds of it. */
  lemma {:induction false} PromptFits(n: nat, schedule: seq<Action>)
    requires n >= 2 && Prompt(n, schedule)
    ensures FitsRun(n, schedule)
    decreases |schedule|
  {
    if schedule != [] {
      var before, a := schedule[..|schedule| - 1], schedule[|schedule| - 1];
      PromptFits(n, before);
      var s := Run(0, Init(n), before);
      RunKeeps(n, before);
      if a.Advance? && a.w < |s.pcs| && Holding(s.pcs[a.w]) {
        HeldHeadsAreFresh(n, before, 0);
        HeldHeadsAreFresh(n, before, a.w);
      }
      FreshFits(s, a);
    }
  }

  /** In particular every schedule of fewer than 2^25 - 1 actions fits. */
  lemma {:induction false} ShortSchedulesFit(n: nat, schedule: seq<Action>)
    requires n >= 2 && |schedule| <= 0x1FF_FFFE
    ensures FitsRun(n, schedule)
  {
    ShortIsPrompt(n, schedule);
    PromptFits(n, schedule);
  }

  lemma {:induction false} ShortIsPrompt(n: nat, schedule: seq<Action>)
    requires |schedule| <= 0x1FF_FFFE
    ensures Prompt(n, schedule)
    decreases |schedule|
  {
    if schedule != [] {
      var before := schedule[..|schedule| - 1];
      ShortIsPrompt(n, before);
      forall w: nat ensures Since(n, before, w) <= |before| { SinceIsBounded(n, before, w); }
    }
  }

  lemma {:induction false} SinceIsBounded(n: nat, schedule: seq<Action>, w: nat)
    ensures Since(n, schedule, w) <= |schedule|
    decreases |schedule|
  {
    if schedule != [] { SinceIsBounded(n, schedule[..|schedule| - 1], w); }
  }
}
