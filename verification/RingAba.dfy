/** A run in which the head word comes round: while a thief is about to claim, 2^32 tasks
    go through its victim's ring one at a time. */
module RingAba {
  import opened RingMachine
  import opened RingWords

  // The definitions below are used only where `Unfold(Fold)` is mentioned.
  datatype Fold = Fold
  ghost predicate Unfold(f: Fold) { true }

  /** The schedule leads two workers to s, with unbounded indices, every step fitting. */
  ghost predicate Leads(schedule: seq<Action>, s: State) {
    forall f: Fold {:trigger Unfold(f)} :: Unfold(f) ==>
      FitsRun(2, schedule) && Run(0, Init(2), schedule) == s
  }

  /** The schedule leads the 32-bit code to c. */
  ghost predicate LeadsCode(schedule: seq<Action>, c: State) {
    forall f: Fold {:trigger Unfold(f)} :: Unfold(f) ==> Run(WORD, Init(2), schedule) == c
  }

  lemma OneMore(schedule: seq<Action>, s: State, a: Action)
    requires Leads(schedule, s) && FitsWords(s, a)
    ensures Leads(schedule + [a], Step(0, s, a))
  {
    assert Unfold(Fold);
    assert (schedule + [a])[..|schedule|] == schedule;
  }

  lemma OneMoreCode(schedule: seq<Action>, c: State, a: Action)
    requires LeadsCode(schedule, c)
    ensures LeadsCode(schedule + [a], Step(WORD, c, a))
  {
    assert Unfold(Fold);
    assert (schedule + [a])[..|schedule|] == schedule;
  }

  // ---- one push, one pop ------------------------------------------------------------------

  function PushOne(t: Task): seq<Action> {
    [Start(0, Push(t)), Advance(0, false), Advance(0, false), Advance(0, false)]
  }

  function PopOne(): seq<Action> {
    [Start(0, Pop), Advance(0, false), Advance(0, false)]
  }

  /** Two workers; worker 0 is between operations and its ring holds indices front to tail. */
  predicate Between(s: State, front: int, tail: int) {
    && |s.rings| == |s.pcs| == 2 && s.pcs[0] == Ready
    && s.rings[0].head == Head(front, front) && s.rings[0].tail == tail
  }

  function Pushed(s: State, t: Task): State
    requires |s.rings| == 2
  {
    var r := s.rings[0];
    s.(rings := s.rings[0 := r.(tail := r.tail + 1, buf := r.buf[Slot(r.tail) := t])], pushed := s.pushed + [t])
  }

  /** The front index has gone on by one, and the task there is returned. */
  function Taken(s: State): State
    requires |s.rings| == 2
  {
    var r := s.rings[0];
    s.(rings := s.rings[0 := r.(head := Head(r.head.front + 1, r.head.front + 1))])
  }

  function Popped(s: State): State
    requires |s.rings| == 2
  {
    var r := s.rings[0];
    Taken(s).(returned := s.returned + [r.buf[Slot(r.head.front)]])
  }

  lemma PushStarts(s: State, t: Task, k: nat)
    requires Between(s, k, k)
    ensures Step(0, s, Start(0, Push(t))) == At(s.(pushed := s.pushed + [t]), 0, PushLoad(t))
    ensures FitsWords(s, Start(0, Push(t)))
  {
  }

  lemma PushLoads(s: State, t: Task, k: nat)
    requires Between(s, k, k)
    ensures var s1 := At(s, 0, PushLoad(t));
            FitsWords(s1, Advance(0, false)) && Step(0, s1, Advance(0, false)) == At(s, 0, PushWrite(t, k, []))
  {
  }

  lemma PushWrites(s: State, t: Task, k: nat)
    requires Between(s, k, k)
    ensures var s1, r := At(s, 0, PushWrite(t, k, [])), s.rings[0];
            && FitsWords(s1, Advance(0, false))
            && Step(0, s1, Advance(0, false)) == Put(s, 0, r.(buf := r.buf[Slot(k) := t]), PushStore(t, k, []))
  {
  }

  lemma PushEnds(s: State, t: Task, k: nat)
    requires Between(s, k, k)
    ensures var s1 := At(s, 0, PushStore(t, k, []));
            && FitsWords(s1, Advance(0, false))
            && Step(0, s1, Advance(0, false)) == Put(s, 0, s.rings[0].(tail := k + 1), Ready)
  {
  }

  lemma PushLeads(schedule: seq<Action>, s: State, t: Task, k: nat)
    requires Leads(schedule, s) && Between(s, k, k)
    ensures Leads(schedule + PushOne(t), Pushed(s, t))
  {
    var a, go := Start(0, Push(t)), Advance(0, false);
    var s0 := s.(pushed := s.pushed + [t]);
    PushStarts(s, t, k);
    OneMore(schedule, s, a);
    PushLoads(s0, t, k);
    OneMore(schedule + [a], At(s0, 0, PushLoad(t)), go);
    PushWrites(s0, t, k);
    OneMore(schedule + [a] + [go], At(s0, 0, PushWrite(t, k, [])), go);
    var r := s.rings[0];
    var s3 := s0.(rings := s0.rings[0 := r.(buf := r.buf[Slot(k) := t])]);
    PushEnds(s3, t, k);
    OneMore(schedule + [a] + [go] + [go], At(s3, 0, PushStore(t, k, [])), go);
    assert schedule + PushOne(t) == schedule + [a] + [go] + [go] + [go];
    assert Put(s3, 0, s3.rings[0].(tail := k + 1), Ready) == Pushed(s, t);
  }

  lemma PopStarts(s: State, k: nat)
    requires Between(s, k, k + 1)
    ensures Step(0, s, Start(0, Pop)) == At(s, 0, PopTry(Head(k, k))) && FitsWords(s, Start(0, Pop))
  {
  }

  lemma PopTakes(s: State, k: nat)
    requires Between(s, k, k + 1)
    ensures var s1, r := At(s, 0, PopTry(Head(k, k))), s.rings[0];
            && FitsWords(s1, Advance(0, false))
            && Step(0, s1, Advance(0, false)) == At(Taken(s), 0, PopRead(k, r.buf[Slot(k)]))
  {
  }

  lemma PopEnds(s: State, k: nat, was: Task)
    requires |s.rings| == |s.pcs| == 2 && s.pcs[0] == Ready
    ensures var s1 := At(s, 0, PopRead(k, was));
            && FitsWords(s1, Advance(0, false))
            && Step(0, s1, Advance(0, false)) == s.(returned := s.returned + [s.rings[0].buf[Slot(k)]])
  {
    assert s.pcs[0 := PopRead(k, was)][0 := Ready] == s.pcs;
  }

  lemma PopLeads(schedule: seq<Action>, s: State, k: nat)
    requires Leads(schedule, s) && Between(s, k, k + 1)
    ensures Leads(schedule + PopOne(), Popped(s))
  {
    var a, go := Start(0, Pop), Advance(0, false);
    PopStarts(s, k);
    OneMore(schedule, s, a);
    PopTakes(s, k);
    OneMore(schedule + [a], At(s, 0, PopTry(Head(k, k))), go);
    PopFinishes(schedule + [a] + [go], s, k);
    assert schedule + PopOne() == schedule + [a] + [go] + [go];
  }

  lemma PopFinishes(schedule: seq<Action>, s: State, k: nat)
    requires Between(s, k, k + 1)
    requires Leads(schedule, At(Taken(s), 0, PopRead(k, s.rings[0].buf[Slot(k)])))
    ensures Leads(schedule + [Advance(0, false)], Popped(s))
  {
    var was := s.rings[0].buf[Slot(k)];
    PopEnds(Taken(s), k, was);
    OneMore(schedule, At(Taken(s), 0, PopRead(k, was)), Advance(0, false));
  }

  // ---- the rounds ---------------------------------------------------------------------------

  /** Worker 0 pushes a task, worker 1 sees it and is about to claim it. */
  function Setup(): seq<Action> {
    [] + PushOne(0) + [Start(1, Steal(0))] + [Advance(1, false)] + [Advance(1, false)]
  }

  /** Worker 0 pops that task, and then pushes and pops k more. */
  function Rounds(k: nat): seq<Action> {
    if k == 0 then Setup() + PopOne() else Rounds(k - 1) + PushOne(k) + PopOne()
  }

  const CLAIM: Pc := StealCas(0, 0, Head(0, 0), 1)

  /** k tasks have gone through ring 0, which is empty, and worker 1 is about to claim from
      index 0. */
  predicate Waits(s: State, k: nat) {
    Between(s, k, k) && s.pcs[1] == CLAIM && |s.pushed| == |s.returned| == k
  }

  lemma LookStarts(s: State)
    requires Between(s, 0, 1) && s.pcs[1] == Ready && s.rings[1] == EmptyRing()
    ensures Step(0, s, Start(1, Steal(0))) == At(s, 1, StealLoad(0, 0)) && FitsWords(s, Start(1, Steal(0)))
  {
  }

  lemma LookLoads(s: State)
    requires Between(s, 0, 1)
    ensures var s1 := At(s, 1, StealLoad(0, 0));
            && FitsWords(s1, Advance(1, false))
            && Step(0, s1, Advance(1, false)) == At(s, 1, StealTail(0, 0, Head(0, 0)))
  {
  }

  lemma LookSizes(s: State)
    requires Between(s, 0, 1)
    ensures var s1 := At(s, 1, StealTail(0, 0, Head(0, 0)));
            FitsWords(s1, Advance(1, false)) && Step(0, s1, Advance(1, false)) == At(s, 1, CLAIM)
  {
  }

  lemma SetupLeads()
    ensures Leads(Setup(), At(Pushed(Init(2), 0), 1, CLAIM))
  {
    assert Leads([], Init(2));
    PushLeads([], Init(2), 0, 0);
    var s := Pushed(Init(2), 0);
    var a := [] + PushOne(0);
    LookStarts(s);
    OneMore(a, s, Start(1, Steal(0)));
    LookLoads(s);
    OneMore(a + [Start(1, Steal(0))], At(s, 1, StealLoad(0, 0)), Advance(1, false));
    LookSizes(s);
    OneMore(a + [Start(1, Steal(0))] + [Advance(1, false)], At(s, 1, StealTail(0, 0, Head(0, 0))), Advance(1, false));
  }

  /** The schedule leads to a state in which k tasks have gone through and worker 1 waits. */
  ghost predicate LeadsToWait(schedule: seq<Action>, k: nat) {
    exists s :: Leads(schedule, s) && Waits(s, k)
  }

  lemma FirstLeads()
    ensures LeadsToWait(Setup() + PopOne(), 1)
  {
    SetupLeads();
    var s := At(Pushed(Init(2), 0), 1, CLAIM);
    PopLeads(Setup(), s, 0);
    assert Waits(Popped(s), 1);
  }

  lemma NextLeads(schedule: seq<Action>, k: nat)
    requires LeadsToWait(schedule, k)
    ensures LeadsToWait(schedule + PushOne(k) + PopOne(), k + 1)
  {
    var s :| Leads(schedule, s) && Waits(s, k);
    PushLeads(schedule, s, k, k);
    PopLeads(schedule + PushOne(k), Pushed(s, k), k);
    assert Waits(Popped(Pushed(s, k)), k + 1);
  }

  lemma RoundsStep(k: nat)
    requires k > 0
    ensures Rounds(k) == Rounds(k - 1) + PushOne(k) + PopOne()
  {
  }

  /** However many tasks go through the ring, worker 1 is still about to claim. */
  lemma {:induction false} RoundsLead(k: nat)
    ensures LeadsToWait(Rounds(k), k + 1)
  {
    if k == 0 {
      FirstLeads();
    } else {
      RoundsLead(k - 1);
      NextLeads(Rounds(k - 1), k);
      RoundsStep(k);
    }
  }

  // ---- the claim ------------------------------------------------------------------------------

  /** Worker 1 claims, copies, finishes at its second attempt, and returns its task. */
  function Theft(schedule: seq<Action>): seq<Action> {
    var go := [Advance(1, false)];
    schedule + go + go + go + go + go + go
  }

  /** The claim's six steps in the code: it succeeds although the ring is empty. */
  lemma ClaimStep(c: State)
    requires Between(c, 0, 0) && c.pcs[1] == CLAIM
    ensures var c' := Step(WORD, c, Advance(1, false));
            && |c'.rings| == |c'.pcs| == 2 && c'.pushed == c.pushed && c'.returned == c.returned
            && c'.rings[0].head == Head(0, 1) && c'.pcs[1].StealCopy? && c'.pcs[1].prev == Head(0, 0)
            && c'.pcs[1].victim == 0 && c'.pcs[1].n == 1 && c'.pcs[1].i == 0
  {
  }

  lemma CopyStep(c: State)
    requires |c.rings| == |c.pcs| == 2 && c.pcs[1].StealCopy?
    requires c.pcs[1].victim == 0 && c.pcs[1].n == 1 && c.pcs[1].i == 0
    ensures var c' := Step(WORD, c, Advance(1, false));
            && |c'.rings| == |c'.pcs| == 2 && c'.pushed == c.pushed && c'.returned == c.returned
            && c'.rings[0] == c.rings[0] && c'.pcs[1].StealFinish? && c'.pcs[1].prev == c.pcs[1].prev
            && c'.pcs[1].victim == 0 && c'.pcs[1].n == 1
  {
  }

  lemma RetryStep(c: State)
    requires |c.rings| == |c.pcs| == 2 && c.pcs[1].StealFinish? && c.pcs[1].victim == 0 && c.pcs[1].n == 1
    requires c.rings[0].head != c.pcs[1].prev
    ensures var c' := Step(WORD, c, Advance(1, false));
            && |c'.rings| == |c'.pcs| == 2 && c'.pushed == c.pushed && c'.returned == c.returned
            && c'.pcs[1].StealFinish? && c'.pcs[1].victim == 0 && c'.pcs[1].n == 1
            && c'.rings[0].head == c'.pcs[1].prev
  {
  }

  lemma FinishStep(c: State)
    requires |c.rings| == |c.pcs| == 2 && c.pcs[1].StealFinish? && c.pcs[1].victim == 0 && c.pcs[1].n == 1
    requires c.rings[0].head == c.pcs[1].prev
    ensures var c' := Step(WORD, c, Advance(1, false));
            && |c'.rings| == |c'.pcs| == 2 && c'.pushed == c.pushed && c'.returned == c.returned
            && c'.pcs[1].StealTake? && c'.pcs[1].n == 1
  {
  }

  lemma TakeStep(c: State)
    requires |c.rings| == |c.pcs| == 2 && c.pcs[1].StealTake? && c.pcs[1].n == 1
    ensures var c' := Step(WORD, c, Advance(1, false));
            && |c'.rings| == |c'.pcs| == 2 && c'.pushed == c.pushed && c'.returned == c.returned
            && c'.pcs[1].StealStore?
  {
  }

  lemma ReturnStep(c: State)
    requires |c.rings| == |c.pcs| == 2 && c.pcs[1].StealStore?
    ensures var c' := Step(WORD, c, Advance(1, false));
            c'.pushed == c.pushed && |c'.returned| == |c.returned| + 1
  {
  }

  lemma TheftLeads(schedule: seq<Action>, c: State) returns (c': State)
    requires LeadsCode(schedule, c) && Between(c, 0, 0) && c.pcs[1] == CLAIM
    ensures LeadsCode(Theft(schedule), c') && c'.pushed == c.pushed && |c'.returned| == |c.returned| + 1
  {
    var a, go := Advance(1, false), [Advance(1, false)];
    ClaimStep(c);
    OneMoreCode(schedule, c, a);
    c' := Step(WORD, c, a);
    CopyStep(c');
    OneMoreCode(schedule + go, c', a);
    c' := Step(WORD, c', a);
    RetryStep(c');
    OneMoreCode(schedule + go + go, c', a);
    c' := Step(WORD, c', a);
    FinishStep(c');
    OneMoreCode(schedule + go + go + go, c', a);
    c' := Step(WORD, c', a);
    TakeStep(c');
    OneMoreCode(schedule + go + go + go + go, c', a);
    c' := Step(WORD, c', a);
    ReturnStep(c');
    OneMoreCode(schedule + go + go + go + go + go, c', a);
    c' := Step(WORD, c', a);
  }

  /** Up to the claim every step fits its words and the code is in step with the unbounded
      machine; worker 1's claim does not fit; and when worker 1 has gone on, the code has
      returned more tasks than were pushed. */
  ghost predicate BreaksConservation(schedule: seq<Action>) {
    && FitsRun(2, schedule)
    && !FitsWords(Run(0, Init(2), schedule), Advance(1, false))
    && (var c := Run(WORD, Init(2), Theft(schedule)); |c.returned| > |c.pushed|)
  }

  lemma ComesRoundAfter(k: nat)
    requires k + 1 == WORD
    ensures BreaksConservation(Rounds(k))
  {
    var schedule := Rounds(k);
    RoundsLead(k);
    var s :| Leads(schedule, s) && Waits(s, WORD);
    WrapsToStart(s);
    InCode(schedule, s);
    var c := TheftLeads(schedule, WrapState(s));
    DoesNotFit(s);
    assert Unfold(Fold);
  }

  lemma InCode(schedule: seq<Action>, s: State)
    requires Leads(schedule, s)
    ensures LeadsCode(schedule, WrapState(s))
  {
    assert Unfold(Fold);
    WordsRefineIndices(2, schedule);
  }

  lemma WrapsToStart(s: State)
    requires Waits(s, WORD)
    ensures Between(WrapState(s), 0, 0) && WrapState(s).pcs[1] == CLAIM
  {
  }

  lemma DoesNotFit(s: State)
    requires Waits(s, WORD)
    ensures !FitsWords(s, Advance(1, false))
  {
    assert ComesRound(Head(0, 0), Head(WORD, WORD));
  }

  /** The assumption that every step fits its words cannot be dropped. */
  lemma HeadWordCanComeRound()
    ensures exists schedule :: BreaksConservation(schedule)
  {
    var k := WORD - 1;
    ComesRoundAfter(k);
  }
}
