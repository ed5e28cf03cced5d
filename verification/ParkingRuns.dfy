/** What every run of the work-stealing executor keeps besides its parking invariant: someone
    polls the driver, and no task is lost between the queues. */
module ParkingRuns {
  import opened Parking

  // ---- someone polls the driver -----------------------------------------------------------

  predicate OnCondvar(p: Pc) {
    p == CvEnter || p == CvWait || p == CvWoken
  }

  predicate SomeoneOff(s: State) {
    exists w :: 0 <= w < |s.pcs| && !OnCondvar(s.pcs[w])
  }

  lemma OffKept(s: State, s': State, v: nat)
    requires Inv(s) && SomeoneOff(s) && v < |s.pcs| == |s'.pcs| && s'.pcs == s.pcs[v := s'.pcs[v]]
    requires OnCondvar(s'.pcs[v]) ==> OnCondvar(s.pcs[v]) || (s.turn != -1 && s.turn != v)
    ensures SomeoneOff(s')
  {
    var w :| 0 <= w < |s.pcs| && !OnCondvar(s.pcs[w]);
    if w != v {
      assert !OnCondvar(s'.pcs[w]);
    } else if OnCondvar(s'.pcs[v]) {
      assert WorkerOk(s, s.turn);
      assert !OnCondvar(s'.pcs[s.turn]);
    } else {
      assert !OnCondvar(s'.pcs[v]);
    }
  }

  lemma ParkKeepsOff(s: State, w: nat)
    requires Inv(s) && SomeoneOff(s) && w < |s.pcs|
    ensures SomeoneOff(Park(s, w))
  {
    assert WorkerOk(s, w);
    OffKept(s, Park(s, w), w);
  }

  lemma WorkKeepsOff(s: State, w: nat, what: Choice)
    requires Inv(s) && SomeoneOff(s) && w < |s.pcs|
    ensures SomeoneOff(WorkStep(s, w, what)) && SomeoneOff(SlotStep(s, w, what))
  {
    OffKept(s, WorkStep(s, w, what), w);
    OffKept(s, SlotStep(s, w, what), w);
  }

  lemma TurnKeepsOff(s: State, w: nat, what: Choice)
    requires Inv(s) && SomeoneOff(s) && w < |s.pcs|
    ensures SomeoneOff(TurnStep(s, w, what))
  {
    OffKept(s, TurnStep(s, w, what), w);
  }

  lemma MarkKeepsOff(s: State, w: nat)
    requires Inv(s) && SomeoneOff(s) && w < |s.pcs|
    ensures SomeoneOff(Mark(s, w))
  {
    OffKept(s, Mark(s, w), w);
  }

  lemma LookKeepsOff(s: State, w: nat)
    requires Inv(s) && SomeoneOff(s) && w < |s.pcs|
    ensures SomeoneOff(Look(s, w))
  {
    OffKept(s, Look(s, w), w);
  }

  lemma EndTurnKeepsOff(s: State, w: nat)
    requires Inv(s) && SomeoneOff(s) && w < |s.pcs|
    ensures SomeoneOff(EndTurn(s, w))
  {
    OffKept(s, EndTurn(s, w), w);
  }

  lemma NotifyKeepsOff(s: State, i: nat, targets: seq<nat>)
    requires Inv(s) && SomeoneOff(s) && i < |s.notifiers|
    ensures SomeoneOff(NotifyAdvance(s, i, targets))
  {
    var v := if s.notifiers[i].Signal? && s.notifiers[i].target < |s.pcs| then s.notifiers[i].target else 0;
    OffKept(s, NotifyAdvance(s, i, targets), v);
  }

  lemma TakesKeepOff(s: State, a: Action)
    requires Inv(s) && SomeoneOff(s) && (a.Steal? || a.TakeInjected? || a.Found?) && a.w < |s.pcs|
    ensures SomeoneOff(Step(s, a))
  {
    OffKept(s, Step(s, a), a.w);
  }

  lemma QueuesKeepOff(s: State, a: Action)
    requires Inv(s) && SomeoneOff(s)
    requires a.PushLocal? || a.WakeInTurn? || a.Inject? || a.Notify? || a.OutsideUnpark?
    ensures SomeoneOff(Step(s, a))
  {
    OffKept(s, Step(s, a), 0);
  }

  lemma StepKeepsOff(s: State, a: Action)
    requires Inv(s) && SomeoneOff(s)
    ensures SomeoneOff(Step(s, a))
  {
    match a {
      case NotifyStep(i, targets) => if i < |s.notifiers| { NotifyKeepsOff(s, i, targets); }
      case Turn(w, what) => if w < |s.pcs| { TurnKeepsOff(s, w, what); }
      case Work(w, what) => if w < |s.pcs| { WorkKeepsOff(s, w, what); }
      case Slot(w, what) => if w < |s.pcs| { WorkKeepsOff(s, w, what); }
      case LookStep(w) => if w < |s.pcs| { LookKeepsOff(s, w); }
      case MarkStep(w) => if w < |s.pcs| { MarkKeepsOff(s, w); }
      case ParkStep(w) => if w < |s.pcs| { ParkKeepsOff(s, w); }
      case EndTurnStep(w) => if w < |s.pcs| { EndTurnKeepsOff(s, w); }
      case Steal(w, _, _) => if w < |s.pcs| { TakesKeepOff(s, a); }
      case TakeInjected(w, _) => if w < |s.pcs| { TakesKeepOff(s, a); }
      case Found(w, _) => if w < |s.pcs| { TakesKeepOff(s, a); }
      case _ => QueuesKeepOff(s, a);
    }
  }

  /** In every run some worker is not waiting on its condvar; so if every worker is blocked,
      one of them is polling the driver, and holds the turn. */
  lemma {:induction false} SomeonePolls(n: nat, m: nat, schedule: seq<Action>)
    requires n > 0
    ensures var s := Run(Init(n, m), schedule);
            && Inv(s) && SomeoneOff(s)
            && ((forall w :: 0 <= w < |s.pcs| ==> Blocked(s.pcs[w])) ==>
                  0 <= s.turn < |s.pcs| && s.pcs[s.turn] == InPoll)
    decreases |schedule|
  {
    RunKeeps(n, m, schedule);
    if schedule == [] {
      assert !OnCondvar(Init(n, m).pcs[0]);
    } else {
      SomeonePolls(n, m, schedule[..|schedule| - 1]);
      StepKeepsOff(Run(Init(n, m), schedule[..|schedule| - 1]), schedule[|schedule| - 1]);
    }
    var s := Run(Init(n, m), schedule);
    if forall w :: 0 <= w < |s.pcs| ==> Blocked(s.pcs[w]) {
      var w :| 0 <= w < |s.pcs| && !OnCondvar(s.pcs[w]);
      assert WorkerOk(s, w);
    }
  }

  // ---- no task is lost between the queues -----------------------------------------------------

  function Sum(xs: seq<nat>): nat {
    if xs == [] then 0 else xs[0] + Sum(xs[1..])
  }

  function Filled(xs: seq<bool>): nat {
    if xs == [] then 0 else (if xs[0] then 1 else 0) + Filled(xs[1..])
  }

  lemma {:induction false} SumUpdate(xs: seq<nat>, i: nat, x: nat)
    requires i < |xs|
    ensures Sum(xs[i := x]) + xs[i] == Sum(xs) + x
  {
    if i == 0 {
      assert xs[i := x][1..] == xs[1..];
    } else {
      SumUpdate(xs[1..], i - 1, x);
      assert xs[i := x][1..] == xs[1..][i - 1 := x];
    }
  }

  lemma {:induction false} FilledUpdate(xs: seq<bool>, i: nat, x: bool)
    requires i < |xs|
    ensures Filled(xs[i := x]) + (if xs[i] then 1 else 0) == Filled(xs) + (if x then 1 else 0)
  {
    if i == 0 {
      assert xs[i := x][1..] == xs[1..];
    } else {
      FilledUpdate(xs[1..], i - 1, x);
      assert xs[i := x][1..] == xs[1..][i - 1 := x];
    }
  }

  /** The tasks waiting in rings, LIFO slots and the injection queue. */
  function Waiting(s: State): nat {
    Sum(s.local) + Filled(s.slot) + s.injected
  }

  predicate CanPush(s: State, w: nat, spill: nat, demote: bool, i: nat)
    requires Sized(s)
  {
    && w < |s.pcs| && s.pcs[w] == Busy && spill <= s.local[w] && (demote ==> s.slot[w])
    && i < |s.notifiers| && s.notifiers[i] == Absent
  }

  /** The tasks that an action brings. A demoted task was in the slot already. */
  function Brought(s: State, a: Action): nat
    requires Sized(s)
  {
    match a
    case Slot(w, WakeLocal) => if w < |s.pcs| && s.pcs[w] == Busy && !s.slot[w] then 1 else 0
    case PushLocal(w, spill, _, demote, i) => if CanPush(s, w, spill, demote, i) && !demote then 1 else 0
    case WakeInTurn(w, spill, _) => if w < |s.pcs| && s.pcs[w].Dispatch? && spill <= s.local[w] then 1 else 0
    case Inject(i, k, _) => if i < |s.notifiers| && s.notifiers[i] == Absent then k else 0
    case _ => 0
  }

  /** The task that an action takes out, for its worker to run. */
  function TakenOut(s: State, a: Action): nat
    requires Sized(s)
  {
    match a
    case Slot(w, RunSlot) => if w < |s.pcs| && s.pcs[w] == Busy && s.slot[w] then 1 else 0
    case Work(w, PopLocal) => if w < |s.pcs| && s.pcs[w] == Looking && s.local[w] > 0 then 1 else 0
    case Steal(w, v, k) =>
      if w < |s.pcs| && s.pcs[w] == Searching && v < |s.local| && v != w && 1 <= k <= s.local[v] then 1 else 0
    case TakeInjected(w, k) =>
      if w < |s.pcs| && 1 <= k <= s.injected && (s.pcs[w] == Looking || (s.pcs[w] == Searching && k == 1)) then 1
      else 0
    case LookStep(w) =>
      if w < |s.pcs| && ((s.pcs[w].LocalCheck? && s.local[w] > 0) || (s.pcs[w].InjectCheck? && s.injected > 0)) then 1
      else 0
    case _ => 0
  }

  lemma PushConserves(s: State, w: nat, spill: nat, full: bool, demote: bool, i: nat)
    requires Sized(s) && w < |s.pcs|
    ensures Waiting(PushStep(s, w, spill, full, demote, i))
              == Waiting(s) + (if CanPush(s, w, spill, demote, i) && !demote then 1 else 0)
  {
    var s' := PushStep(s, w, spill, full, demote, i);
    if s' != s {
      SumUpdate(s.local, w, s'.local[w]);
      FilledUpdate(s.slot, w, s'.slot[w]);
    }
  }

  lemma TurnWakeConserves(s: State, w: nat, spill: nat, full: bool)
    requires Sized(s) && w < |s.pcs|
    ensures Waiting(TurnWakeStep(s, w, spill, full)) == Waiting(s) + Brought(s, WakeInTurn(w, spill, full))
  {
    var s' := TurnWakeStep(s, w, spill, full);
    if s' != s { SumUpdate(s.local, w, s'.local[w]); }
  }

  lemma StealConserves(s: State, w: nat, v: nat, k: nat)
    requires Sized(s) && w < |s.pcs|
    ensures Waiting(StealStep(s, w, v, k)) + TakenOut(s, Steal(w, v, k)) == Waiting(s)
  {
    var s' := StealStep(s, w, v, k);
    if s' != s {
      SumUpdate(s.local, v, s.local[v] - k);
      SumUpdate(s.local[v := s.local[v] - k], w, s.local[w] + k - 1);
    }
  }

  lemma TakeConserves(s: State, w: nat, k: nat)
    requires Sized(s) && w < |s.pcs|
    ensures Waiting(TakeStep(s, w, k)) + TakenOut(s, TakeInjected(w, k)) == Waiting(s)
  {
    if 1 <= k <= s.injected && s.pcs[w] == Looking { SumUpdate(s.local, w, s.local[w] + k - 1); }
  }

  lemma LookConserves(s: State, w: nat)
    requires Sized(s) && w < |s.pcs|
    ensures Waiting(Look(s, w)) + TakenOut(s, LookStep(w)) == Waiting(s)
  {
    if s.pcs[w].LocalCheck? && s.local[w] > 0 { SumUpdate(s.local, w, s.local[w] - 1); }
  }

  lemma WorkConserves(s: State, w: nat, what: Choice)
    requires Sized(s) && w < |s.pcs|
    ensures Waiting(WorkStep(s, w, what)) + TakenOut(s, Work(w, what)) == Waiting(s)
  {
    if what == PopLocal && s.local[w] > 0 { SumUpdate(s.local, w, s.local[w] - 1); }
  }

  lemma SlotConserves(s: State, w: nat, what: Choice)
    requires Sized(s) && w < |s.pcs|
    ensures Waiting(SlotStep(s, w, what)) + TakenOut(s, Slot(w, what)) == Waiting(s) + Brought(s, Slot(w, what))
  {
    FilledUpdate(s.slot, w, true);
    FilledUpdate(s.slot, w, false);
  }

  lemma OthersConserve(s: State, a: Action)
    requires Sized(s)
    requires a.Turn? || a.MarkStep? || a.Found? || a.ParkStep? || a.EndTurnStep? || a.Inject? || a.Notify?
          || a.OutsideUnpark? || a.NotifyStep?
    ensures Waiting(Step(s, a)) + TakenOut(s, a) == Waiting(s) + Brought(s, a)
  {
  }

  lemma StepConserves(s: State, a: Action)
    requires Sized(s)
    ensures Waiting(Step(s, a)) + TakenOut(s, a) == Waiting(s) + Brought(s, a)
  {
    match a
    case PushLocal(w, spill, full, demote, i) => if w < |s.pcs| { PushConserves(s, w, spill, full, demote, i); }
    case WakeInTurn(w, spill, full) => if w < |s.pcs| { TurnWakeConserves(s, w, spill, full); }
    case Steal(w, v, k) => if w < |s.pcs| { StealConserves(s, w, v, k); }
    case TakeInjected(w, k) => if w < |s.pcs| { TakeConserves(s, w, k); }
    case LookStep(w) => if w < |s.pcs| { LookConserves(s, w); }
    case Work(w, what) => if w < |s.pcs| { WorkConserves(s, w, what); }
    case Slot(w, what) => if w < |s.pcs| { SlotConserves(s, w, what); }
    case _ => OthersConserve(s, a);
  }

  ghost function AllBrought(s: State, schedule: seq<Action>): nat
    decreases |schedule|
  {
    if schedule == [] then 0
    else
      var before := schedule[..|schedule| - 1];
      AllBrought(s, before)
      + (if Sized(Run(s, before)) then Brought(Run(s, before), schedule[|schedule| - 1]) else 0)
  }

  ghost function AllTaken(s: State, schedule: seq<Action>): nat
    decreases |schedule|
  {
    if schedule == [] then 0
    else
      var before := schedule[..|schedule| - 1];
      AllTaken(s, before)
      + (if Sized(Run(s, before)) then TakenOut(Run(s, before), schedule[|schedule| - 1]) else 0)
  }

  lemma {:induction false} SumZero(n: nat)
    ensures Sum(seq(n, _ => 0)) == 0 && Filled(seq(n, _ => false)) == 0
  {
    if n > 0 {
      SumZero(n - 1);
      assert seq(n, _ => 0)[1..] == seq(n - 1, _ => 0);
      assert seq(n, _ => false)[1..] == seq(n - 1, _ => false);
    }
  }

  /** In every run each task pushed is waiting in exactly one queue or has been taken out to run:
      what waits and what was taken add up to what was brought, through every steal, spill,
      batch and demotion. */
  lemma {:induction false} TasksAreConserved(n: nat, m: nat, schedule: seq<Action>)
    requires n > 0
    ensures var s := Run(Init(n, m), schedule);
            Sized(s) && Waiting(s) + AllTaken(Init(n, m), schedule) == AllBrought(Init(n, m), schedule)
    decreases |schedule|
  {
    RunKeeps(n, m, schedule);
    if schedule == [] {
      SumZero(n);
    } else {
      TasksAreConserved(n, m, schedule[..|schedule| - 1]);
      StepConserves(Run(Init(n, m), schedule[..|schedule| - 1]), schedule[|schedule| - 1]);
    }
  }
}
