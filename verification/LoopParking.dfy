/** Parking of the single-threaded executor (src/runtime/current_thread_executor.cpp): its
    loop blocks in the parker until the earliest timer, while other threads enqueue tasks,
    add timers, and make shutdown progress. A step is one critical section or one call of
    the parker, which remembers an unpark until a park consumes it. */
module LoopParking {

  /** How long a park may last: not at all, or until `at` (None: without limit). */
  datatype Wait = Zero | Until(at: Option<int>)
  datatype Option<T> = None | Some(value: T)

  datatype Pc =
    | Looping
    | Parking(wait: Wait)      // park_once: decided, about to call the parker
    | Parked(wait: Wait)       // blocked in the parker
    | EndWait
    | ClearParked

  datatype State = State(loop: Pc, local: nat, inject: nat, parked: bool, signal: bool,
                         deadlines: seq<int>, waiting: bool, mustUnpark: seq<bool>)

  datatype Action =
    | Enqueue(i: nat)                  // by another thread
    | AddTimer(i: nat, deadline: int)
    | DropTimer(k: nat)                // cancelled, or fired
    | Unpark(i: nat)
    | Recheck                          // shutdown_progress
    | EnqueueLocal
    | TakeLocal
    | TakeInjected
    | Decide(now: int)
    | CallParker
    | ParkReturns(woken: nat)          // for an event or its deadline, having woken local tasks
    | Finish

  function Init(n: nat): State {
    State(Looping, 0, 0, false, false, [], false, seq(n, _ => false))
  }

  function Min(ds: seq<int>): (d: int)
    requires ds != []
    ensures d in ds && forall x :: x in ds ==> d <= x
  {
    if |ds| == 1 then ds[0]
    else
      var d := Min(ds[1..]);
      assert ds == [ds[0]] + ds[1..];
      if ds[0] < d then ds[0] else d
  }

  /** park_once's one decision, with the timer queue's begin_wait. */
  function DecideStep(s: State, now: int): State {
    if s.local > 0 || s.inject > 0 then s.(loop := Parking(Zero))
    else if s.deadlines == [] then s.(loop := Parking(Until(None)), waiting := true, parked := true)
    else
      var d := Min(s.deadlines);
      if d <= now then s.(loop := Parking(Zero), waiting := false, parked := true)
      else s.(loop := Parking(Until(Some(d))), waiting := true, parked := true)
  }

  function Step(s: State, a: Action): State {
    match a
    case Enqueue(i) =>
      if i < |s.mustUnpark| && !s.mustUnpark[i] then
        s.(inject := s.inject + 1, mustUnpark := s.mustUnpark[i := s.parked])
      else s
    case AddTimer(i, d) =>
      if i < |s.mustUnpark| && !s.mustUnpark[i] then
        var unpark := s.waiting && (s.deadlines == [] || d < Min(s.deadlines));
        s.(deadlines := s.deadlines + [d], mustUnpark := s.mustUnpark[i := unpark])
      else s
    case DropTimer(k) =>
      if k < |s.deadlines| then s.(deadlines := s.deadlines[..k] + s.deadlines[k + 1..]) else s
    case Unpark(i) =>
      if i < |s.mustUnpark| && s.mustUnpark[i] then s.(signal := true, mustUnpark := s.mustUnpark[i := false]) else s
    case Recheck => s.(signal := true)
    case EnqueueLocal => if s.loop == Looping then s.(local := s.local + 1) else s
    case TakeLocal => if s.loop == Looping && s.local > 0 then s.(local := s.local - 1) else s
    case TakeInjected => if s.loop == Looping then s.(local := s.local + s.inject, inject := 0) else s
    case Decide(now) => if s.loop == Looping then DecideStep(s, now) else s
    case CallParker =>
      if !s.loop.Parking? then s
      else if s.signal then s.(signal := false, loop := EndWait)
      else if s.loop.wait == Zero then s.(loop := EndWait)
      else s.(loop := Parked(s.loop.wait))
    case ParkReturns(woken) =>
      if s.loop.Parked? then s.(signal := false, local := s.local + woken, loop := EndWait) else s
    case Finish =>
      if s.loop == EndWait then s.(waiting := false, loop := ClearParked)
      else if s.loop == ClearParked then s.(parked := false, loop := Looping)
      else s
  }

  function Run(s: State, schedule: seq<Action>): State
    decreases |schedule|
  {
    if schedule == [] then s
    else Step(Run(s, schedule[..|schedule| - 1]), schedule[|schedule| - 1])
  }

  // ---- the invariant --------------------------------------------------------------------

  predicate MayBlock(p: Pc) {
    (p.Parking? || p.Parked?) && p.wait.Until?
  }

  /** An unpark has been made, or is about to be. */
  predicate UnparkDue(s: State) {
    s.signal || exists i :: 0 <= i < |s.mustUnpark| && s.mustUnpark[i]
  }

  predicate InTime(w: Wait, d: int) {
    w.Until? && w.at.Some? && w.at.value <= d
  }

  predicate Inv(s: State) {
    && (MayBlock(s.loop) ==>
          && s.parked && s.waiting && s.local == 0
          && (s.inject > 0 ==> UnparkDue(s))
          && (UnparkDue(s) || forall d :: d in s.deadlines ==> InTime(s.loop.wait, d)))
    && (s.loop.Parked? ==> s.loop.wait.Until?)
  }

  lemma DueKept(s: State, s': State, i: nat)
    requires |s'.mustUnpark| == |s.mustUnpark| && i < |s.mustUnpark|
    requires s'.mustUnpark == s.mustUnpark[i := s'.mustUnpark[i]]
    requires (s.signal ==> s'.signal) && (s.mustUnpark[i] ==> s'.mustUnpark[i] || s'.signal)
    ensures UnparkDue(s) ==> UnparkDue(s')
  {
    if j :| 0 <= j < |s.mustUnpark| && s.mustUnpark[j] {
      assert j == i || s'.mustUnpark[j];
    }
  }

  lemma OutsideKeeps(s: State, a: Action)
    requires Inv(s) && (a.Enqueue? || a.AddTimer? || a.Unpark?)
    ensures Inv(Step(s, a))
  {
    var s' := Step(s, a);
    if s' != s {
      DueKept(s, s', a.i);
      if a.AddTimer? && MayBlock(s.loop) && !UnparkDue(s') {
        assert !s'.mustUnpark[a.i];
        TimerInTime(s, a.deadline);
      }
    }
  }

  lemma DecideKeeps(s: State, now: int)
    requires Inv(s) && s.loop == Looping
    ensures Inv(DecideStep(s, now))
  {
  }

  lemma ParkerKeeps(s: State, a: Action)
    requires Inv(s) && (a.CallParker? || a.ParkReturns? || a.Finish?)
    ensures Inv(Step(s, a))
  {
    var s' := Step(s, a);
    if MayBlock(s'.loop) && UnparkDue(s) && !s.signal {
      var i :| 0 <= i < |s.mustUnpark| && s.mustUnpark[i];
      assert s'.mustUnpark[i];
    }
  }

  lemma StepKeeps(s: State, a: Action)
    requires Inv(s)
    ensures Inv(Step(s, a))
  {
    match a {
      case Enqueue(_) => OutsideKeeps(s, a);
      case AddTimer(_, _) => OutsideKeeps(s, a);
      case Unpark(_) => OutsideKeeps(s, a);
      case CallParker => ParkerKeeps(s, a);
      case ParkReturns(_) => ParkerKeeps(s, a);
      case Finish => ParkerKeeps(s, a);
      case Decide(now) => if s.loop == Looping { DecideKeeps(s, now); }
      case DropTimer(k) =>
        var s' := Step(s, a);
        assert forall x :: x in s'.deadlines ==> x in s.deadlines;
        assert UnparkDue(s) ==> UnparkDue(s');
      case _ =>
    }
  }

  /** A timer that reports nothing is no earlier than one the waiter already wakes for. */
  lemma TimerInTime(s: State, d: int)
    requires Inv(s) && MayBlock(s.loop) && !UnparkDue(s)
    requires s.deadlines != [] && Min(s.deadlines) <= d
    ensures InTime(s.loop.wait, d)
  {
    assert InTime(s.loop.wait, Min(s.deadlines));
  }

  lemma {:induction false} RunKeeps(n: nat, schedule: seq<Action>)
    ensures Inv(Run(Init(n), schedule))
    decreases |schedule|
  {
    if schedule != [] {
      RunKeeps(n, schedule[..|schedule| - 1]);
      StepKeeps(Run(Init(n), schedule[..|schedule| - 1]), schedule[|schedule| - 1]);
    }
  }

  /** The loop never sleeps through work: blocked in the parker, it has no local task; with
      an injected task, or a timer due before it would wake by itself, it has been
      unparked or is about to be. */
  lemma NoSleepThroughWork(n: nat, schedule: seq<Action>)
    ensures var s := Run(Init(n), schedule);
            s.loop.Parked? && !UnparkDue(s) ==>
              s.local == 0 && s.inject == 0 && forall d :: d in s.deadlines ==> InTime(s.loop.wait, d)
  {
    RunKeeps(n, schedule);
  }
}
