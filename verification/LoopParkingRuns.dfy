/** What the single-threaded executor's loop achieves: it loses no task, blocks exactly when
    there is nothing to do and for exactly as long as its timers allow, and gets back to its
    tasks when it is left alone. */
module LoopParkingRuns {
  import opened LoopParking

  // ---- no task is lost ------------------------------------------------------------------------

  function Brought(s: State, a: Action): nat {
    match a
    case Enqueue(i) => if i < |s.mustUnpark| && !s.mustUnpark[i] then 1 else 0
    case EnqueueLocal => if s.loop == Looping then 1 else 0
    case ParkReturns(woken) => if s.loop.Parked? then woken else 0
    case _ => 0
  }

  function Taken(s: State, a: Action): nat {
    if a == TakeLocal && s.loop == Looping && s.local > 0 then 1 else 0
  }

  ghost function AllBrought(s: State, schedule: seq<Action>): nat
    decreases |schedule|
  {
    if schedule == [] then 0
    else
      var before := schedule[..|schedule| - 1];
      AllBrought(s, before) + Brought(Run(s, before), schedule[|schedule| - 1])
  }

  ghost function AllTaken(s: State, schedule: seq<Action>): nat
    decreases |schedule|
  {
    if schedule == [] then 0
    else
      var before := schedule[..|schedule| - 1];
      AllTaken(s, before) + Taken(Run(s, before), schedule[|schedule| - 1])
  }

  /** In every run the tasks brought, by other threads, by the loop and by its wake-ups, are
      those taken to run and those still in the two queues. */
  lemma {:induction false} TasksAreConserved(n: nat, schedule: seq<Action>)
    ensures var s := Run(Init(n), schedule);
            s.local + s.inject + AllTaken(Init(n), schedule) == AllBrought(Init(n), schedule)
    decreases |schedule|
  {
    if schedule != [] {
      TasksAreConserved(n, schedule[..|schedule| - 1]);
      StepConserves(Run(Init(n), schedule[..|schedule| - 1]), schedule[|schedule| - 1]);
    }
  }

  lemma StepConserves(s: State, a: Action)
    ensures var s' := Step(s, a); s'.local + s'.inject + Taken(s, a) == s.local + s.inject + Brought(s, a)
  {
  }

  /** A pass over the injection queue takes all of it. */
  lemma PassTakesAll(s: State)
    requires s.loop == Looping
    ensures var e := Step(s, TakeInjected); e.inject == 0 && e.local == s.local + s.inject && e.loop == Looping
    ensures s.local > 0 ==> Step(s, TakeLocal).local == s.local - 1
  {
  }

  // ---- how long it blocks ---------------------------------------------------------------------

  /** There is a task, or a timer that is due. */
  predicate HasWork(s: State, now: int) {
    s.local > 0 || s.inject > 0 || exists d :: d in s.deadlines && d <= now
  }

  /** The loop decides not to block if and only if it has work; otherwise it will wait for
      exactly its earliest timer, without limit if there is none, and is recorded as parked
      and as a waiter before it does. */
  lemma DecidesExactly(s: State, now: int)
    requires s.loop == Looping
    ensures var e := Step(s, Decide(now));
            && e.loop.Parking?
            && (e.loop.wait == Zero <==> HasWork(s, now))
            && (s.local > 0 || s.inject > 0 ==> e.parked == s.parked && e.waiting == s.waiting)
            && (s.local == 0 && s.inject == 0 ==> e.parked && (e.waiting <==> e.loop.wait.Until?))
            && (e.loop.wait.Until? ==>
                  && e.parked && e.waiting
                  && (e.loop.wait.at.None? <==> s.deadlines == [])
                  && (e.loop.wait.at.Some? ==>
                        e.loop.wait.at.value in s.deadlines
                        && forall d :: d in s.deadlines ==> e.loop.wait.at.value <= d))
  {
    if s.deadlines != [] { assert Min(s.deadlines) in s.deadlines; }
  }

  /** An enqueue is told to unpark if and only if the loop is recorded as parked; a new timer, if
      and only if a waiter is and the timer is earlier than every other. Being told to, it
      does. */
  lemma UnparkReported(s: State, i: nat, d: int)
    requires i < |s.mustUnpark| && !s.mustUnpark[i]
    ensures Step(s, Enqueue(i)).mustUnpark[i] <==> s.parked
    ensures Step(s, AddTimer(i, d)).mustUnpark[i] <==> s.waiting && forall x :: x in s.deadlines ==> d < x
    ensures d in Step(s, AddTimer(i, d)).deadlines
    ensures forall x :: x in s.deadlines ==> x in Step(s, AddTimer(i, d)).deadlines
  {
    if s.deadlines != [] { assert Min(s.deadlines) in s.deadlines; }
  }

  lemma UnparkSignals(s: State, i: nat)
    requires i < |s.mustUnpark| && s.mustUnpark[i]
    ensures Step(s, Unpark(i)).signal && !Step(s, Unpark(i)).mustUnpark[i]
    ensures Step(s, Recheck).signal
  {
  }

  /** A timer that goes takes its own deadline with it and no other. */
  lemma TimerGoes(s: State, k: nat)
    ensures k < |s.deadlines| ==>
              multiset(Step(s, DropTimer(k)).deadlines) + multiset{s.deadlines[k]} == multiset(s.deadlines)
    ensures k >= |s.deadlines| ==> Step(s, DropTimer(k)) == s
  {
    if k < |s.deadlines| {
      assert s.deadlines == s.deadlines[..k] + [s.deadlines[k]] + s.deadlines[k + 1..];
    }
  }

  /** The loop's own steps come in order: tasks and the decision while it loops, the parker once
      it has decided, the end of the wait once the parker has returned. */
  lemma NothingOutOfTurn(s: State, now: int, woken: nat)
    ensures s.loop != Looping ==>
              Step(s, EnqueueLocal) == Step(s, TakeLocal) == Step(s, TakeInjected) == Step(s, Decide(now)) == s
    ensures !s.loop.Parking? ==> Step(s, CallParker) == s
    ensures !s.loop.Parked? ==> Step(s, ParkReturns(woken)) == s
    ensures s.loop != EndWait && s.loop != ClearParked ==> Step(s, Finish) == s
  {
  }

  // ---- the loop left alone --------------------------------------------------------------------

  /** The loop is back at its tasks, no longer recorded as parked or waiting. */
  predicate Back(s: State, e: State) {
    e.loop == Looping && !e.parked && !e.waiting && e.local == s.local && e.inject == s.inject
  }

  /** A loop that has decided blocks, if it is left alone, if and only if its wait is not zero and
      nobody has unparked it since its last park, and otherwise gets back to its tasks; so
      does one that has returned from the parker. */
  lemma LoopAlone(s: State)
    requires s.loop.Parking? || s.loop == EndWait || s.loop == ClearParked
    requires s.loop == ClearParked ==> !s.waiting
    ensures s.loop.Parking? && s.loop.wait.Until? && !s.signal ==>
              Run(s, [CallParker]) == s.(loop := Parked(s.loop.wait))
    ensures s.loop.Parking? && (s.loop.wait == Zero || s.signal) ==> Back(s, Run(s, [CallParker, Finish, Finish]))
    ensures s.loop.Parking? && s.signal ==> !Run(s, [CallParker, Finish, Finish]).signal
    ensures s.loop == EndWait ==> Back(s, Run(s, [Finish, Finish]))
    ensures s.loop == ClearParked ==> Back(s, Run(s, [Finish]))
  {
    Three(s);
  }

  lemma Three(s: State)
    ensures Run(s, [CallParker]) == Step(s, CallParker) && Run(s, [Finish]) == Step(s, Finish)
    ensures Run(s, [Finish, Finish]) == Step(Step(s, Finish), Finish)
    ensures Run(s, [CallParker, Finish, Finish]) == Step(Step(Step(s, CallParker), Finish), Finish)
  {
    assert [CallParker][..0] == [] && [Finish][..0] == [] && [Finish, Finish][..1] == [Finish];
    assert [CallParker, Finish, Finish][..2] == [CallParker, Finish];
    assert [CallParker, Finish][..1] == [CallParker];
  }

  /** A blocked loop gets back to its tasks, and to those its wake-up brought. */
  lemma WakesUp(s: State, woken: nat)
    requires s.loop.Parked?
    ensures var e := Step(s, ParkReturns(woken)); e.loop == EndWait && e.local == s.local + woken && !e.signal
  {
  }
}
