/** The scheduling state of one task (src/task/task.cpp and the poll loops of the
    executors), under any number of concurrent wakers and workers.

    `where` is auxiliary: it names the one place the task is in. */
module Scheduling {

  datatype Sched = Idle | Running | Notified | RunningAndNotified | Done

  /** A thread calling `TaskBase::wake()`. `Try(e)` is the loop with `expected == e`. */
  datatype WakerPc = Away | Try(expected: Sched) | Enqueue

  /** A worker of the executor, as far as this task is concerned. */
  datatype WorkerPc =
    | Looking
    | Holding        // dequeued, about to make the Notified → Running exchange
    | Polling
    | PolledReady    // about to store Done
    | PolledPending  // about to try Running → Idle
    | SawWake        // that failed with RunningAndNotified: about to make it Notified
    | Requeue        // about to push it back
    | Aborted

  datatype Where = Parked | Queued | WithWaker(i: nat) | Carried(j: nat) | Polled(j: nat) | Finished

  /** `queued` counts the task's places in ready queues, `owed` is set by a wake that
      lands before Done and cleared when a poll starts. */
  datatype State = State(sched: Sched, queued: nat, wakers: seq<WakerPc>, workers: seq<WorkerPc>,
                         where: Where, owed: bool)

  datatype Action = Wake(i: nat) | WakerStep(i: nat) | Dequeue(j: nat) | WorkerStep(j: nat, ready: bool)

  /** `schedule()` has stored Notified; waker 0 is the spawner, about to enqueue. */
  function Init(wakers: nat, workers: nat): State
    requires wakers > 0
  {
    State(Notified, 0, seq(wakers, i => if i == 0 then Enqueue else Away), seq(workers, _ => Looking),
          WithWaker(0), false)
  }

  /** A failed exchange leaves the state it saw in `expected`; the next turn of the
      loop either tries again or, for three of the states, returns. */
  function Retry(s: State, i: nat): State
    requires i < |s.wakers|
  {
    match s.sched
    case Idle => s.(wakers := s.wakers[i := Try(Idle)])
    case Running => s.(wakers := s.wakers[i := Try(Running)])
    case Done => s.(wakers := s.wakers[i := Away])
    case _ => s.(wakers := s.wakers[i := Away], owed := true)
  }

  function WakeStep(s: State, i: nat): State
    requires i < |s.wakers|
  {
    match s.wakers[i]
    case Away => s
    case Enqueue => s.(queued := s.queued + 1, wakers := s.wakers[i := Away], where := Queued)
    case Try(e) =>
      if e == Idle && s.sched == Idle then
        s.(sched := Notified, wakers := s.wakers[i := Enqueue], where := WithWaker(i), owed := true)
      else if e == Running && s.sched == Running then
        s.(sched := RunningAndNotified, wakers := s.wakers[i := Away], owed := true)
      else Retry(s, i)
  }

  function PollStep(s: State, j: nat, ready: bool): State
    requires j < |s.workers|
  {
    match s.workers[j]
    case Looking => s
    case Aborted => s
    case Holding =>
      if s.sched == Notified then
        s.(sched := Running, workers := s.workers[j := Polling], where := Polled(j), owed := false)
      else s.(workers := s.workers[j := Aborted])
    case Polling => s.(workers := s.workers[j := if ready then PolledReady else PolledPending])
    case PolledReady => s.(sched := Done, workers := s.workers[j := Looking], where := Finished)
    case PolledPending =>
      if s.sched == Running then s.(sched := Idle, workers := s.workers[j := Looking], where := Parked)
      else if s.sched == RunningAndNotified then s.(workers := s.workers[j := SawWake])
      else s.(workers := s.workers[j := Aborted])
    case SawWake =>
      if s.sched == RunningAndNotified then
        s.(sched := Notified, workers := s.workers[j := Requeue], where := Carried(j))
      else s.(workers := s.workers[j := Aborted])
    case Requeue => s.(queued := s.queued + 1, workers := s.workers[j := Looking], where := Queued)
  }

  function Step(s: State, a: Action): State {
    match a
    case Wake(i) =>
      if i < |s.wakers| && s.wakers[i] == Away then s.(wakers := s.wakers[i := Try(Idle)]) else s
    case WakerStep(i) => if i < |s.wakers| then WakeStep(s, i) else s
    case Dequeue(j) =>
      if j < |s.workers| && s.workers[j] == Looking && s.queued > 0 then
        s.(queued := s.queued - 1, workers := s.workers[j := Holding], where := Carried(j))
      else s
    case WorkerStep(j, ready) => if j < |s.workers| then PollStep(s, j, ready) else s
  }

  function Run(s: State, schedule: seq<Action>): State
    decreases |schedule|
  {
    if schedule == [] then s
    else Step(Run(s, schedule[..|schedule| - 1]), schedule[|schedule| - 1])
  }

  predicate InPoll(p: WorkerPc) { p == Polling || p == PolledReady || p == PolledPending || p == SawWake }

  predicate Carries(p: WorkerPc) { p == Holding || p == Requeue }

  ghost predicate Inv(s: State) {
    && (match s.sched
        case Idle => s.where == Parked && !s.owed
        case Notified => s.where.Queued? || s.where.WithWaker? || s.where.Carried?
        case Running => s.where.Polled? && !s.owed
        case RunningAndNotified => s.where.Polled?
        case Done => s.where == Finished)
    && s.queued == (if s.where == Queued then 1 else 0)
    && (forall i | 0 <= i < |s.wakers| :: s.wakers[i] == Enqueue <==> s.where == WithWaker(i))
    && (forall j | 0 <= j < |s.workers| ::
          && (Carries(s.workers[j]) <==> s.where == Carried(j))
          && (InPoll(s.workers[j]) <==> s.where == Polled(j))
          && s.workers[j] != Aborted
          && (s.workers[j] == SawWake ==> s.sched == RunningAndNotified))
    && (s.where.WithWaker? ==> s.where.i < |s.wakers|)
    && (s.where.Carried? ==> s.where.j < |s.workers|)
    && (s.where.Polled? ==> s.where.j < |s.workers|)
    && (forall i | 0 <= i < |s.wakers| && s.wakers[i].Try? ::
          s.wakers[i].expected == Idle || s.wakers[i].expected == Running)
  }

  lemma WakeKeeps(s: State, i: nat)
    requires Inv(s) && i < |s.wakers|
    ensures Inv(WakeStep(s, i))
  {
  }

  lemma PollKeeps(s: State, j: nat, ready: bool)
    requires Inv(s) && j < |s.workers|
    ensures Inv(PollStep(s, j, ready))
  {
    var p := s.workers[j];
    assert Carries(p) <==> s.where == Carried(j);
    assert InPoll(p) <==> s.where == Polled(j);
  }

  lemma StepKeeps(s: State, a: Action)
    requires Inv(s)
    ensures Inv(Step(s, a))
  {
    match a
    case WakerStep(i) => if i < |s.wakers| { WakeKeeps(s, i); }
    case WorkerStep(j, ready) => if j < |s.workers| { PollKeeps(s, j, ready); }
    case _ =>
  }

  lemma {:induction false} RunKeeps(wakers: nat, workers: nat, schedule: seq<Action>)
    requires wakers > 0
    ensures Inv(Run(Init(wakers, workers), schedule))
    decreases |schedule|
  {
    if schedule != [] {
      var before := schedule[..|schedule| - 1];
      RunKeeps(wakers, workers, before);
      StepKeeps(Run(Init(wakers, workers), before), schedule[|schedule| - 1]);
    }
  }

  // ---- what that means ------------------------------------------------------------

  ghost function Count<T(!new)>(xs: seq<T>, p: T -> bool): nat {
    if xs == [] then 0 else (if p(xs[0]) then 1 else 0) + Count(xs[1..], p)
  }

  lemma {:induction false} CountNone<T(!new)>(xs: seq<T>, p: T -> bool)
    requires forall i | 0 <= i < |xs| :: !p(xs[i])
    ensures Count(xs, p) == 0
  {
    if xs != [] { CountNone(xs[1..], p); }
  }

  lemma {:induction false} CountOne<T(!new)>(xs: seq<T>, p: T -> bool, k: nat)
    requires k < |xs| && forall i | 0 <= i < |xs| :: p(xs[i]) <==> i == k
    ensures Count(xs, p) == 1
  {
    if k == 0 { CountNone(xs[1..], p); } else { CountOne(xs[1..], p, k - 1); }
  }

  /** The places a task can be in while it waits for a poll: ready queues, threads
      about to enqueue it, workers carrying it to or from a queue. */
  ghost function Places(s: State): nat {
    s.queued + Count(s.wakers, p => p == Enqueue) + Count(s.workers, p => Carries(p))
  }

  ghost function Polls(s: State): nat {
    Count(s.workers, p => InPoll(p))
  }

  lemma InvariantCounts(s: State)
    requires Inv(s)
    ensures Places(s) == (if s.sched == Notified then 1 else 0)
    ensures Polls(s) == (if s.sched == Running || s.sched == RunningAndNotified then 1 else 0)
  {
    var enq, carry, poll := (p: WakerPc) => p == Enqueue, (p: WorkerPc) => Carries(p), (p: WorkerPc) => InPoll(p);
    if s.where.WithWaker? { CountOne(s.wakers, enq, s.where.i); } else { CountNone(s.wakers, enq); }
    if s.where.Carried? { CountOne(s.workers, carry, s.where.j); } else { CountNone(s.workers, carry); }
    if s.where.Polled? { CountOne(s.workers, poll, s.where.j); } else { CountNone(s.workers, poll); }
  }

  /** Over every interleaving: a Notified task is in exactly one place and any other
      task in none, exactly one thread polls a running task and none any other, no
      abort branch is reached, and a task never goes idle, nor is polled on without a
      new notification, with a wake still unserved. */
  lemma ScheduledExactlyOnce(wakers: nat, workers: nat, schedule: seq<Action>)
    requires wakers > 0
    ensures var s := Run(Init(wakers, workers), schedule);
      && Places(s) == (if s.sched == Notified then 1 else 0)
      && Polls(s) == (if s.sched == Running || s.sched == RunningAndNotified then 1 else 0)
      && (forall j | 0 <= j < |s.workers| :: s.workers[j] != Aborted)
      && (s.owed ==> s.sched == Notified || s.sched == RunningAndNotified || s.sched == Done)
  {
    RunKeeps(wakers, workers, schedule);
    InvariantCounts(Run(Init(wakers, workers), schedule));
  }

  /** A wake call that returns has landed: the task is owed a poll, or is Done. */
  lemma WakeLands(s: State, i: nat)
    requires Inv(s) && i < |s.wakers| && s.wakers[i].Try?
    ensures var s' := Step(s, WakerStep(i)); s'.wakers[i].Try? || s'.owed || s'.sched == Done
  {
  }

  /** An owed poll stays owed until one starts; only the poll that was already
      running can end the task first. */
  lemma OwedUntilPolled(s: State, a: Action)
    requires Inv(s) && s.owed && s.sched != Done
    ensures var s' := Step(s, a);
      s'.owed
      || (a.WorkerStep? && a.j < |s.workers| && s.workers[a.j] == Holding && s'.workers[a.j] == Polling)
    ensures Step(s, a).sched == Done ==>
      a.WorkerStep? && a.j < |s.workers| && s.workers[a.j] == PolledReady && s.sched == RunningAndNotified
  {
  }

  /** The action starts a poll of the task. */
  predicate Starts(s: State, a: Action) {
    a.WorkerStep? && a.j < |s.workers| && s.workers[a.j] == Holding && s.sched == Notified
  }

  ghost predicate PollStarts(s: State, schedule: seq<Action>)
    decreases |schedule|
  {
    schedule != [] &&
    (PollStarts(s, schedule[..|schedule| - 1])
     || Starts(Run(s, schedule[..|schedule| - 1]), schedule[|schedule| - 1]))
  }

  /** A wake that has landed before Done is followed, in every continuation, by a poll
      that starts after it; until then the task stays scheduled, and it can end only
      if the poll that was running when the wake landed completes it. */
  lemma {:induction false} WakeIsServed(s: State, schedule: seq<Action>)
    requires Inv(s) && s.owed && s.sched != Done
    ensures var s' := Run(s, schedule);
      && Inv(s')
      && (PollStarts(s, schedule)
          || (s'.owed && (s'.sched == Notified || s'.sched == RunningAndNotified))
          || (s'.sched == Done && s.sched == RunningAndNotified))
      && (!PollStarts(s, schedule) && s'.sched == RunningAndNotified ==> s.sched == RunningAndNotified)
    decreases |schedule|
  {
    if schedule != [] {
      var before := schedule[..|schedule| - 1];
      var a := schedule[|schedule| - 1];
      WakeIsServed(s, before);
      var m := Run(s, before);
      StepKeeps(m, a);
      if m.owed && m.sched != Done { OwedUntilPolled(m, a); }
    }
  }
}

/** A blocking task parking its own thread (src/task/blocking_pool.cpp, `park` and
    `unpark`): the same states, but the wake notifies a condition variable. */
module BlockingPark {
  import opened Scheduling

  /** The thread running the task. `Check` is about to take the mutex and test. */
  datatype Thread = Runs | Exchange | Consume | Check | Blocked | Failed

  /** A waker that moved Idle to Notified still has to take the mutex and notify. */
  datatype Unparker = Gone | Trying(expected: Sched) | MustNotify

  datatype Park = Park(sched: Sched, thread: Thread, unparkers: seq<Unparker>, owed: bool)

  datatype Act = Call(i: nat) | Advance(i: nat) | ThreadStep | Spurious

  function Start(n: nat): Park {
    Park(Running, Runs, seq(n, _ => Gone), false)
  }

  function WakerAdvance(s: Park, i: nat): Park
    requires i < |s.unparkers|
  {
    match s.unparkers[i]
    case Gone => s
    case MustNotify =>
      s.(unparkers := s.unparkers[i := Gone], thread := if s.thread == Blocked then Check else s.thread)
    case Trying(e) =>
      if e == Idle && s.sched == Idle then
        s.(sched := Notified, unparkers := s.unparkers[i := MustNotify], owed := true)
      else if e == Running && s.sched == Running then
        s.(sched := RunningAndNotified, unparkers := s.unparkers[i := Gone], owed := true)
      else if s.sched == Idle || s.sched == Running then
        s.(unparkers := s.unparkers[i := Trying(s.sched)])
      else s.(unparkers := s.unparkers[i := Gone], owed := s.owed || s.sched != Done)
  }

  /** `Runs` polls a future that is pending, and parks. */
  function ThreadAdvance(s: Park): Park {
    match s.thread
    case Runs => s.(thread := Exchange)
    case Exchange =>
      if s.sched == Running then s.(sched := Idle, thread := Check)
      else if s.sched == RunningAndNotified then s.(thread := Consume)
      else s.(thread := Failed)
    case Consume => if s.sched == RunningAndNotified then s.(sched := Running, thread := Runs, owed := false)
                    else s.(thread := Failed)
    case Check => if s.sched == Notified then s.(sched := Running, thread := Runs, owed := false)
                  else s.(thread := Blocked)
    case Blocked => s
    case Failed => s
  }

  function ParkStep(s: Park, a: Act): Park {
    match a
    case Call(i) =>
      if i < |s.unparkers| && s.unparkers[i] == Gone then s.(unparkers := s.unparkers[i := Trying(Idle)]) else s
    case Advance(i) => if i < |s.unparkers| then WakerAdvance(s, i) else s
    case ThreadStep => ThreadAdvance(s)
    case Spurious => if s.thread == Blocked then s.(thread := Check) else s
  }

  function ParkRun(s: Park, acts: seq<Act>): Park
    decreases |acts|
  {
    if acts == [] then s else ParkStep(ParkRun(s, acts[..|acts| - 1]), acts[|acts| - 1])
  }

  ghost predicate Pending(s: Park) {
    exists i | 0 <= i < |s.unparkers| :: s.unparkers[i] == MustNotify
  }

  ghost predicate ParkInv(s: Park) {
    && s.thread != Failed && s.sched != Done
    && (s.thread == Runs || s.thread == Exchange ==> s.sched == Running || s.sched == RunningAndNotified)
    && (s.thread == Consume ==> s.sched == RunningAndNotified)
    && (s.thread == Check || s.thread == Blocked ==> s.sched == Idle || s.sched == Notified)
    && (s.thread == Blocked && s.sched == Notified ==> Pending(s))
    && (s.owed ==> s.sched == Notified || s.sched == RunningAndNotified)
  }

  lemma ParkStepKeeps(s: Park, a: Act)
    requires ParkInv(s)
    ensures ParkInv(ParkStep(s, a))
  {
    var s' := ParkStep(s, a);
    if s'.thread == Blocked && s'.sched == Notified {
      if s.sched == Notified {
        var i :| 0 <= i < |s.unparkers| && s.unparkers[i] == MustNotify;
        assert s'.unparkers[i] == MustNotify;
      } else {
        assert s'.unparkers[a.i] == MustNotify;
      }
    }
  }

  /** No interleaving loses a wake: the plain stores and the assertion of `park` never
      meet a state they do not expect, a thread blocked with its task Notified is
      about to be notified, and a wake not yet consumed is always visible. */
  lemma {:induction false} NoWakeMissed(n: nat, acts: seq<Act>)
    ensures var s := ParkRun(Start(n), acts);
      && ParkInv(s)
      && (s.thread == Blocked && s.owed ==> Pending(s))
    decreases |acts|
  {
    if acts != [] {
      NoWakeMissed(n, acts[..|acts| - 1]);
      ParkStepKeeps(ParkRun(Start(n), acts[..|acts| - 1]), acts[|acts| - 1]);
    }
  }
}
