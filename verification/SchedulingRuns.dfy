/** What the scheduling state of a task says about its history, and what a waker or a worker
    that is left alone achieves. */
module SchedulingRuns {
  import opened Scheduling

  // ---- history decides the state --------------------------------------------------------------

  datatype Answer = NotYet | Pending | Ready

  /** The action ends a poll. */
  predicate EndsPoll(s: State, a: Action) {
    a.WorkerStep? && a.j < |s.workers| && s.workers[a.j] == Polling
  }

  /** The action is where a call of wake() takes effect, before the task is Done. */
  predicate Lands(s: State, a: Action) {
    && a.WakerStep? && a.i < |s.wakers| && s.wakers[a.i].Try?
    && (s.sched == Notified || s.sched == RunningAndNotified
        || (s.sched != Done && s.sched == s.wakers[a.i].expected))
  }

  /** How the last poll that started has ended. */
  ghost function LastAnswer(s: State, schedule: seq<Action>): Answer
    decreases |schedule|
  {
    if schedule == [] then NotYet
    else
      var before, a := schedule[..|schedule| - 1], schedule[|schedule| - 1];
      if Starts(Run(s, before), a) then NotYet
      else if EndsPoll(Run(s, before), a) then (if a.ready then Ready else Pending)
      else LastAnswer(s, before)
  }

  /** Whether a wake has landed since the last poll started. */
  ghost predicate WokenSince(s: State, schedule: seq<Action>)
    decreases |schedule|
  {
    schedule != [] &&
    (var before, a := schedule[..|schedule| - 1], schedule[|schedule| - 1];
     !Starts(Run(s, before), a) && (Lands(Run(s, before), a) || WokenSince(s, before)))
  }

  /** The state of a task whose last poll gave `answer`, while it is being polled or not. */
  function StateFor(polling: bool, answer: Answer, woken: bool): Sched {
    if polling then if woken then RunningAndNotified else Running
    else
      match answer
      case NotYet => Notified
      case Ready => Done
      case Pending => if woken then Notified else Idle
  }

  function AnswerOf(p: WorkerPc): Answer {
    if p == PolledReady then Ready else if p == PolledPending || p == SawWake then Pending else NotYet
  }

  ghost predicate Remembers(s: State, answer: Answer, woken: bool) {
    && s.owed == woken && s.sched == StateFor(s.where.Polled?, answer, woken)
    && (forall j | 0 <= j < |s.workers| && InPoll(s.workers[j]) :: answer == AnswerOf(s.workers[j]))
  }

  lemma WakerRemembers(s: State, i: nat, answer: Answer, woken: bool)
    requires Inv(s) && Remembers(s, answer, woken) && i < |s.wakers|
    ensures Remembers(WakeStep(s, i), answer, Lands(s, WakerStep(i)) || woken)
  {
  }

  lemma WorkerRemembers(s: State, j: nat, ready: bool, answer: Answer, woken: bool)
    requires Inv(s) && Remembers(s, answer, woken) && j < |s.workers|
    ensures var a := WorkerStep(j, ready);
            Remembers(PollStep(s, j, ready),
                      if Starts(s, a) then NotYet
                      else if EndsPoll(s, a) then (if ready then Ready else Pending)
                      else answer,
                      !Starts(s, a) && woken)
  {
    var p := s.workers[j];
    assert Carries(p) <==> s.where == Carried(j);
    assert InPoll(p) <==> s.where == Polled(j);
  }

  lemma {:induction false} RunRemembers(wakers: nat, workers: nat, schedule: seq<Action>)
    requires wakers > 0
    ensures var s := Init(wakers, workers);
            Inv(Run(s, schedule)) && Remembers(Run(s, schedule), LastAnswer(s, schedule), WokenSince(s, schedule))
    decreases |schedule|
  {
    RunKeeps(wakers, workers, schedule);
    if schedule != [] {
      var before, a := schedule[..|schedule| - 1], schedule[|schedule| - 1];
      RunRemembers(wakers, workers, before);
      var s := Init(wakers, workers);
      var m, answer, woken := Run(s, before), LastAnswer(s, before), WokenSince(s, before);
      match a
      case WakerStep(i) => if i < |m.wakers| { WakerRemembers(m, i, answer, woken); }
      case WorkerStep(j, ready) => if j < |m.workers| { WorkerRemembers(m, j, ready, answer, woken); }
      case _ =>
    }
  }

  /** Over every interleaving the task's state is decided by how its last poll ended and by
      whether a wake has landed since that poll started. Between polls it is Done if and only
      if the poll returned ready; after one that returned pending it is Idle if no wake has
      landed and Notified if one has. While a thread polls, it is Running until a wake lands,
      and what that thread will store is what its poll returned. */
  lemma HistoryDecides(wakers: nat, workers: nat, schedule: seq<Action>)
    requires wakers > 0
    ensures var s := Run(Init(wakers, workers), schedule);
            var answer := LastAnswer(Init(wakers, workers), schedule);
            var woken := WokenSince(Init(wakers, workers), schedule);
            && s.sched == StateFor(exists j :: 0 <= j < |s.workers| && InPoll(s.workers[j]), answer, woken)
            && (forall j | 0 <= j < |s.workers| && InPoll(s.workers[j]) :: answer == AnswerOf(s.workers[j]))
            && s.owed == woken
  {
    RunRemembers(wakers, workers, schedule);
    var s := Run(Init(wakers, workers), schedule);
    if s.where.Polled? { assert InPoll(s.workers[s.where.j]); }
  }

  // ---- a thread left alone ------------------------------------------------------------------

  function Alone(a: Action, k: nat): seq<Action> {
    seq(k, _ => a)
  }

  /** A step of its own, and then left alone. */
  lemma {:induction false} AloneFirst(s: State, a: Action, k: nat)
    ensures Run(s, Alone(a, 0)) == s
    ensures Run(s, Alone(a, k + 1)) == Run(Step(s, a), Alone(a, k))
  {
    assert Alone(a, k + 1)[..k] == Alone(a, k);
    if k > 0 {
      AloneFirst(s, a, k - 1);
      assert Alone(a, k)[..k - 1] == Alone(a, k - 1);
    }
  }

  /** Thread i, which was in wake() or about to enqueue in s, has returned in e. */
  predicate WakeDone(s: State, e: State, i: nat)
    requires i < |s.wakers|
  {
    && i < |e.wakers| && e.wakers[i] == Away && e.workers == s.workers && (s.owed ==> e.owed)
    && (s.wakers[i].Try? ==> e.owed || e.sched == Done)
    && (s.sched == Idle || s.wakers[i] == Enqueue ==> e.sched == Notified && e.queued == 1)
    && (s.sched == Running && s.wakers[i].Try? ==> e.sched == RunningAndNotified)
    && (s.sched != Idle && s.sched != Running ==> e.sched == s.sched)
  }

  /** A thread in wake() that is left alone returns, and then the task is Done, or owed a
      poll; one that was idle is in a ready queue. */
  lemma {:induction false} WakeReturns(s: State, i: nat)
    requires Inv(s) && i < |s.wakers| && s.wakers[i] != Away
    ensures exists k: nat :: WakeDone(s, Run(s, Alone(WakerStep(i), k)), i)
    decreases if s.wakers[i] == Enqueue then 0 else if s.wakers[i] == Try(s.sched) then 1 else 2
  {
    var a := WakerStep(i);
    var s1 := Step(s, a);
    WakeKeeps(s, i);
    if s1.wakers[i] == Away {
      AloneFirst(s, a, 0);
      AloneFirst(s1, a, 0);
      assert WakeDone(s, Run(s, Alone(a, 1)), i);
    } else {
      WakeReturns(s1, i);
      var k: nat :| WakeDone(s1, Run(s1, Alone(a, k)), i);
      AloneFirst(s, a, k);
      assert WakeDone(s, Run(s, Alone(a, k + 1)), i);
    }
  }

  /** Worker j, which had the task in s, is done with it in e. */
  predicate WorkerDone(s: State, e: State, j: nat, ready: bool)
    requires j < |s.workers|
  {
    && j < |e.workers| && e.workers[j] == Looking && e.wakers == s.wakers
    && e.queued == (if e.sched == Notified then 1 else 0)
    && (match s.workers[j]
        case Requeue => e.sched == Notified
        case PolledReady => e.sched == Done
        case Holding => e.sched == (if ready then Done else Idle)
        case Polling => e.sched == (if ready then Done else if s.sched == Running then Idle else Notified)
        case _ => e.sched == (if s.sched == Running then Idle else Notified))
  }

  function Rank(p: WorkerPc): nat {
    match p
    case Holding => 5
    case Polling => 4
    case PolledPending => 3
    case SawWake => 2
    case _ => 1
  }

  /** A worker that has the task and is left alone, with polls that answer `ready`, gets done
      with it: the task is Done, Idle, or back in a ready queue. */
  lemma {:induction false} WorkerFinishes(s: State, j: nat, ready: bool)
    requires Inv(s) && j < |s.workers| && s.workers[j] != Looking
    ensures exists k: nat :: WorkerDone(s, Run(s, Alone(WorkerStep(j, ready), k)), j, ready)
    decreases Rank(s.workers[j])
  {
    var a := WorkerStep(j, ready);
    var s1 := Step(s, a);
    PollKeeps(s, j, ready);
    assert Carries(s.workers[j]) <==> s.where == Carried(j);
    assert InPoll(s.workers[j]) <==> s.where == Polled(j);
    if s1.workers[j] == Looking {
      AloneFirst(s, a, 0);
      AloneFirst(s1, a, 0);
      assert WorkerDone(s, Run(s, Alone(a, 1)), j, ready);
    } else {
      WorkerFinishes(s1, j, ready);
      var k: nat :| WorkerDone(s1, Run(s1, Alone(a, k)), j, ready);
      AloneFirst(s, a, k);
      assert WorkerDone(s, Run(s, Alone(a, k + 1)), j, ready);
    }
  }

  /** A call of wake() that starts is under way. */
  lemma WakeStarts(s: State, i: nat)
    requires i < |s.wakers| && s.wakers[i] == Away
    ensures Step(s, Wake(i)).wakers[i].Try?
  {
  }

  /** The code aborts if and only if an exchange of the poll loop meets a state that it does not
      expect, whatever led there. */
  lemma AbortsExactly(s: State, j: nat, ready: bool)
    requires j < |s.workers| && s.workers[j] != Aborted
    ensures Step(s, WorkerStep(j, ready)).workers[j] == Aborted <==>
              match s.workers[j]
              case Holding => s.sched != Notified
              case PolledPending => s.sched != Running && s.sched != RunningAndNotified
              case SawWake => s.sched != RunningAndNotified
              case _ => false
  {
  }

  /** A queued task can be taken by any worker that looks, and by one only. */
  lemma QueuedIsTaken(s: State, j: nat)
    requires Inv(s) && j < |s.workers| && s.workers[j] == Looking
    ensures var e := Step(s, Dequeue(j));
            && (e.workers[j] == Holding <==> s.sched == Notified && s.where == Queued)
            && (e.workers[j] == Holding ==> e.queued == 0)
            && (e.workers[j] != Holding ==> e == s)
  {
  }
}

/** The same for a blocking task that parks its own thread. */
module BlockingParkRuns {
  import opened Scheduling
  import opened BlockingPark

  /** The action is where a call of unpark() takes effect. */
  predicate LandsOn(s: Park, a: Act) {
    && a.Advance? && a.i < |s.unparkers| && s.unparkers[a.i].Trying?
    && (s.sched == Notified || s.sched == RunningAndNotified || s.sched == s.unparkers[a.i].expected)
  }

  /** The action is where park() consumes the wakes so far and returns. */
  predicate Consumes(s: Park, a: Act) {
    a.ThreadStep? && (s.thread == Consume || (s.thread == Check && s.sched == Notified))
  }

  /** Whether a wake has landed since park() last consumed one. */
  ghost predicate WokenSince(s: Park, acts: seq<Act>)
    decreases |acts|
  {
    acts != [] &&
    (var before, a := acts[..|acts| - 1], acts[|acts| - 1];
     !Consumes(ParkRun(s, before), a) && (LandsOn(ParkRun(s, before), a) || WokenSince(s, before)))
  }

  function StateFor(t: Thread, woken: bool): Sched {
    if t == Check || t == Blocked then if woken then Notified else Idle
    else if woken then RunningAndNotified else Running
  }

  lemma StepRemembers(s: Park, a: Act)
    requires ParkInv(s) && s.sched == StateFor(s.thread, s.owed)
    requires forall i | 0 <= i < |s.unparkers| && s.unparkers[i].Trying? ::
               s.unparkers[i].expected == Idle || s.unparkers[i].expected == Running
    ensures var s' := ParkStep(s, a);
            && s'.sched == StateFor(s'.thread, s'.owed)
            && s'.owed == (!Consumes(s, a) && (LandsOn(s, a) || s.owed))
            && (forall i | 0 <= i < |s'.unparkers| && s'.unparkers[i].Trying? ::
                  s'.unparkers[i].expected == Idle || s'.unparkers[i].expected == Running)
  {
  }

  /** Over every interleaving the state is decided by where the thread is and by whether a
      wake has landed since park() last returned: no wake is lost, and none is invented. */
  lemma {:induction false} HistoryDecides(n: nat, acts: seq<Act>)
    ensures var s := ParkRun(Start(n), acts);
            && ParkInv(s) && s.sched == StateFor(s.thread, s.owed) && s.owed == WokenSince(Start(n), acts)
            && (forall i | 0 <= i < |s.unparkers| && s.unparkers[i].Trying? ::
                  s.unparkers[i].expected == Idle || s.unparkers[i].expected == Running)
    decreases |acts|
  {
    NoWakeMissed(n, acts);
    if acts != [] {
      HistoryDecides(n, acts[..|acts| - 1]);
      StepRemembers(ParkRun(Start(n), acts[..|acts| - 1]), acts[|acts| - 1]);
    }
  }

  // ---- a thread left alone ------------------------------------------------------------------

  function Alone(a: Act, k: nat): seq<Act> {
    seq(k, _ => a)
  }

  lemma {:induction false} AloneFirst(s: Park, a: Act, k: nat)
    ensures ParkRun(s, Alone(a, 0)) == s
    ensures ParkRun(s, Alone(a, k + 1)) == ParkRun(ParkStep(s, a), Alone(a, k))
  {
    assert Alone(a, k + 1)[..k] == Alone(a, k);
    if k > 0 {
      AloneFirst(s, a, k - 1);
      assert Alone(a, k)[..k - 1] == Alone(a, k - 1);
    }
  }

  /** The thread, left alone, has returned from park() if a wake had landed, and otherwise
      blocks. */
  predicate Parks(s: Park, e: Park) {
    && e.unparkers == s.unparkers && !e.owed
    && (if s.owed then e.thread == Runs && e.sched == Running else e.thread == Blocked && e.sched == Idle)
  }

  function Rank(t: Thread): nat {
    match t
    case Runs => 4
    case Exchange => 3
    case Check => 1
    case _ => 2
  }

  lemma {:induction false} ParkReturns(s: Park)
    requires ParkInv(s) && s.sched == StateFor(s.thread, s.owed) && s.thread != Blocked
    ensures exists k: nat :: Parks(s, ParkRun(s, Alone(ThreadStep, k)))
    decreases Rank(s.thread)
  {
    var s1 := ParkStep(s, ThreadStep);
    ParkStepKeeps(s, ThreadStep);
    if Parks(s, s1) {
      AloneFirst(s, ThreadStep, 0);
      AloneFirst(s1, ThreadStep, 0);
    } else {
      ParkReturns(s1);
      var k: nat :| Parks(s1, ParkRun(s1, Alone(ThreadStep, k)));
      AloneFirst(s, ThreadStep, k);
      assert Parks(s, ParkRun(s, Alone(ThreadStep, k + 1)));
    }
  }

  /** Thread i, left alone in unpark(), has returned; a blocked thread is on its way to see the wake. */
  predicate Unparked(s: Park, e: Park, i: nat)
    requires i < |s.unparkers|
  {
    && i < |e.unparkers| && e.unparkers[i] == Gone && (s.unparkers[i].Trying? || s.owed ==> e.owed)
    && (s.thread == Blocked && (s.unparkers[i] == MustNotify || s.sched == Idle) ==> e.thread == Check)
    && (s.thread != Blocked ==> e.thread == s.thread)
  }

  lemma {:induction false} UnparkReturns(s: Park, i: nat)
    requires ParkInv(s) && i < |s.unparkers| && s.unparkers[i] != Gone
    requires s.unparkers[i].Trying? ==> s.unparkers[i].expected == Idle || s.unparkers[i].expected == Running
    ensures exists k: nat :: Unparked(s, ParkRun(s, Alone(Advance(i), k)), i)
    decreases if s.unparkers[i] == MustNotify then 0 else if s.unparkers[i] == Trying(s.sched) then 1 else 2
  {
    var a := Advance(i);
    var s1 := ParkStep(s, a);
    ParkStepKeeps(s, a);
    if s1.unparkers[i] == Gone {
      AloneFirst(s, a, 0);
      AloneFirst(s1, a, 0);
      assert Unparked(s, ParkRun(s, Alone(a, 1)), i);
    } else {
      UnparkReturns(s1, i);
      var k: nat :| Unparked(s1, ParkRun(s1, Alone(a, k)), i);
      AloneFirst(s, a, k);
      assert Unparked(s, ParkRun(s, Alone(a, k + 1)), i);
    }
  }

  /** The same for the exchange and the plain stores of park(). */
  lemma FailsExactly(s: Park)
    requires s.thread != Failed
    ensures ParkStep(s, ThreadStep).thread == Failed <==>
              || (s.thread == Exchange && s.sched != Running && s.sched != RunningAndNotified)
              || (s.thread == Consume && s.sched != RunningAndNotified)
  {
  }

  /** A call of unpark() gets under way, and a wake-up of the condition variable, spurious or
      not, makes the thread look again. */
  lemma CallsStart(s: Park, i: nat)
    ensures i < |s.unparkers| && s.unparkers[i] == Gone ==> ParkStep(s, Call(i)).unparkers[i].Trying?
    ensures s.thread == Blocked ==> ParkStep(s, Spurious).thread == Check
  {
  }
}
