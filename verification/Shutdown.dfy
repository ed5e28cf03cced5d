/** Runtime shutdown as termination detection (src/runtime/runtime.cpp, with the owned
    tasks of include/coro/detail/owned_tasks.h and the live list of
    src/task/blocking_pool.cpp).

    Places 0 .. pool-1 are the executor's shards and place `pool` is the blocking pool. A
    task occupies its place from the insertion to the removal; `closed` is each place's
    flag. A step is one critical section of one thread. Only live tasks spawn, except
    that anyone may before shutdown starts. A spawned task may run at once here; in the
    executor it is queued only after it has been announced, which removes interleavings
    and adds none. */
module Shutdown {

  datatype Pc =
    | Active
    | MustCancel(child: nat)   // its child went into a closed shard: cancel it next
    | MustAnnounce             // about to call shutdown_progress for its child
    | Leaving                  // unlinked from a closed place, about to call shutdown_progress
    | Gone

  datatype Task = Task(place: nat, pc: Pc, cancelled: bool)

  datatype Phase =
    | Running
    | Closing(next: nat)       // closing place `next`, cancelling what was collected so far
    | Relock                   // about to take the shutdown mutex and check
    | Scan(next: nat)          // holds the mutex; every place below `next` was found empty
    | Waiting                  // in the wait, mutex released
    | Quiescent                // found all places empty

  datatype State = State(pool: nat, tasks: seq<Task>, closed: seq<bool>, phase: Phase, pending: set<nat>)

  datatype Action =
    | SpawnOutside(place: nat)
    | Spawn(t: nat, place: nat)
    | CancelChild(t: nat)
    | Announce(t: nat)         // shutdown_progress, by a spawner or by a finished task's thread
    | Finish(t: nat)
    | Start
    | CloseNext
    | CancelCollected(t: nat)
    | Lock
    | Check
    | SpuriousWake

  function Init(pool: nat): State {
    State(pool, [], seq(pool + 1, _ => false), Running, {})
  }

  predicate Live(k: Task) {
    k.pc.Active? || k.pc.MustCancel? || k.pc.MustAnnounce?
  }

  predicate HasTasks(s: State, p: nat) {
    exists t :: 0 <= t < |s.tasks| && Live(s.tasks[t]) && s.tasks[t].place == p
  }

  predicate Sized(s: State) {
    |s.closed| == s.pool + 1
  }

  function SetPc(s: State, t: nat, pc: Pc): State
    requires t < |s.tasks|
  {
    s.(tasks := s.tasks[t := s.tasks[t].(pc := pc)])
  }

  /** Schedule on the executor, or submit to the pool. The insertion reports whether the
      place was closed; the pool cancels the newcomer under its own lock, the executor
      after it. */
  function SpawnStep(s: State, t: nat, place: nat): State
    requires Sized(s) && t < |s.tasks| && place <= s.pool
  {
    var child := Task(place, Active, place == s.pool && s.closed[place]);
    var s' := s.(tasks := s.tasks + [child]);
    if !s.closed[place] then s'
    else SetPc(s', t, if place == s.pool then MustAnnounce else MustCancel(|s.tasks|))
  }

  function AnnounceStep(s: State, t: nat): State
    requires t < |s.tasks|
  {
    if s.phase.Scan? then s   // the mutex is held
    else if s.tasks[t].pc == MustAnnounce then
      SetPc(s, t, Active).(phase := if s.phase == Waiting then Relock else s.phase)
    else if s.tasks[t].pc == Leaving then
      SetPc(s, t, Gone).(phase := if s.phase == Waiting then Relock else s.phase)
    else s
  }

  /** close_and_collect takes the shards in turn and its tasks are then cancelled one by
      one; the pool is closed only after the executor's are done. */
  function CloseStep(s: State): State
    requires Sized(s)
  {
    match s.phase
    case Closing(p) =>
      if p < s.pool || (p == s.pool && s.pending == {}) then
        s.(closed := s.closed[p := true], phase := Closing(p + 1),
           pending := s.pending + set t: nat | t < |s.tasks| && Live(s.tasks[t]) && s.tasks[t].place == p)
      else if p > s.pool && s.pending == {} then s.(phase := Relock)
      else s
    case _ => s
  }

  function CheckStep(s: State): State {
    match s.phase
    case Scan(p) =>
      if HasTasks(s, p) then s.(phase := Waiting)
      else s.(phase := if p == s.pool then Quiescent else Scan(p + 1))
    case _ => s
  }

  function Step(s: State, a: Action): State {
    if !Sized(s) then s
    else match a
      case SpawnOutside(place) =>
        if s.phase == Running && place <= s.pool then s.(tasks := s.tasks + [Task(place, Active, false)]) else s
      case Spawn(t, place) =>
        if t < |s.tasks| && s.tasks[t].pc == Active && place <= s.pool then SpawnStep(s, t, place) else s
      case CancelChild(t) =>
        if t < |s.tasks| && s.tasks[t].pc.MustCancel? && s.tasks[t].pc.child < |s.tasks| then
          var s' := SetPc(s, t, MustAnnounce);
          var c := s.tasks[t].pc.child;
          s'.(tasks := s'.tasks[c := s'.tasks[c].(cancelled := true)])
        else s
      case Announce(t) => if t < |s.tasks| then AnnounceStep(s, t) else s
      case Finish(t) =>
        if t < |s.tasks| && s.tasks[t].pc == Active && s.tasks[t].place <= s.pool then
          SetPc(s, t, if s.closed[s.tasks[t].place] then Leaving else Gone)
        else s
      case Start => if s.phase == Running then s.(phase := Closing(0)) else s
      case CloseNext => CloseStep(s)
      case CancelCollected(t) =>
        if t in s.pending && t < |s.tasks| then
          s.(pending := s.pending - {t}, tasks := s.tasks[t := s.tasks[t].(cancelled := true)])
        else s
      case Lock => if s.phase == Relock then s.(phase := Scan(0)) else s
      case Check => CheckStep(s)
      case SpuriousWake => if s.phase == Waiting then s.(phase := Relock) else s
  }

  function Run(s: State, schedule: seq<Action>): State
    decreases |schedule|
  {
    if schedule == [] then s
    else Step(Run(s, schedule[..|schedule| - 1]), schedule[|schedule| - 1])
  }

  // ---- the invariant ------------------------------------------------------------------

  predicate Blocked(k: Task) {
    k.pc.MustCancel? || k.pc.MustAnnounce?
  }

  /** Some live task that is not in a place the check has passed still has to announce a
      spawn, which it cannot do before the check ends. */
  predicate SpawnerAhead(s: State, p: nat) {
    exists t :: 0 <= t < |s.tasks| && Blocked(s.tasks[t]) && s.tasks[t].place >= p
  }

  predicate WillBeCancelled(s: State, t: nat)
    requires t < |s.tasks|
  {
    || s.tasks[t].cancelled || t in s.pending
    || (exists u :: 0 <= u < |s.tasks| && s.tasks[u].pc == MustCancel(t))
  }

  predicate TasksOk(s: State)
    requires Sized(s)
  {
    forall t :: 0 <= t < |s.tasks| ==>
      && s.tasks[t].place <= s.pool
      && (s.tasks[t].pc.MustCancel? ==> s.tasks[t].pc.child < |s.tasks|)
      && (Live(s.tasks[t]) && s.closed[s.tasks[t].place] ==> WillBeCancelled(s, t))
  }

  predicate PhaseOk(s: State)
    requires Sized(s)
  {
    match s.phase
    case Running => s.pending == {} && forall p :: 0 <= p <= s.pool ==> !s.closed[p]
    case Closing(n) => n <= s.pool + 1 && forall p :: 0 <= p <= s.pool ==> (s.closed[p] <==> p < n)
    case _ => s.pending == {} && forall p :: 0 <= p <= s.pool ==> s.closed[p]
  }

  /** What the check has established so far, and that a wait will be ended. */
  predicate CheckOk(s: State) {
    match s.phase
    case Scan(n) => n <= s.pool && forall p: nat :: p < n && HasTasks(s, p) ==> SpawnerAhead(s, n)
    case Waiting => exists t :: 0 <= t < |s.tasks| && (Live(s.tasks[t]) || s.tasks[t].pc == Leaving)
    case Quiescent => forall t :: 0 <= t < |s.tasks| ==> !Live(s.tasks[t])
    case _ => true
  }

  predicate Inv(s: State) {
    && Sized(s) && (forall t :: t in s.pending ==> t < |s.tasks|)
    && TasksOk(s) && PhaseOk(s) && CheckOk(s)
  }

  // ---- every step keeps it ------------------------------------------------------------

  /** Tasks only change their pc or become cancelled, and may be joined by more. */
  predicate Extends(s: State, s': State) {
    && s'.pool == s.pool && |s'.tasks| >= |s.tasks|
    && forall t :: 0 <= t < |s.tasks| ==>
         s'.tasks[t].place == s.tasks[t].place && (s.tasks[t].cancelled ==> s'.tasks[t].cancelled)
  }

  lemma SpawnKeeps(s: State, t: nat, place: nat)
    requires Inv(s) && t < |s.tasks| && s.tasks[t].pc == Active && place <= s.pool
    ensures Inv(SpawnStep(s, t, place))
  {
    var s' := SpawnStep(s, t, place);
    var n := |s.tasks|;
    assert s'.tasks[n].place == place && Live(s'.tasks[n]);
    forall u | 0 <= u < |s'.tasks| && Live(s'.tasks[u]) && s'.closed[s'.tasks[u].place]
      ensures WillBeCancelled(s', u)
    {
      if u < n { StillCancelled(s, s', u, t); }
      else { assert s.closed[place] && place < s.pool ==> s'.tasks[t].pc == MustCancel(u); }
    }
    SpawnCheck(s, t, place);
  }

  lemma StillCancelled(s: State, s': State, u: nat, t: nat)
    requires t < |s.tasks| && u < |s.tasks| && Extends(s, s') && s.pending <= s'.pending
    requires !s.tasks[t].pc.MustCancel? && forall v :: 0 <= v < |s.tasks| && v != t ==> s'.tasks[v].pc == s.tasks[v].pc
    requires WillBeCancelled(s, u)
    ensures WillBeCancelled(s', u)
  {
    if v :| 0 <= v < |s.tasks| && s.tasks[v].pc == MustCancel(u) {
      assert s'.tasks[v].pc == MustCancel(u);
    }
  }

  lemma SpawnCheck(s: State, t: nat, place: nat)
    requires Inv(s) && t < |s.tasks| && s.tasks[t].pc == Active && place <= s.pool
    ensures CheckOk(SpawnStep(s, t, place))
  {
    var s' := SpawnStep(s, t, place);
    match s.phase
    case Scan(n) =>
      assert Blocked(s'.tasks[t]);
      if s.tasks[t].place < n {
        assert HasTasks(s, s.tasks[t].place);
        var u :| 0 <= u < |s.tasks| && Blocked(s.tasks[u]) && s.tasks[u].place >= n;
        assert Blocked(s'.tasks[u]);
      }
      assert SpawnerAhead(s', n);
    case Waiting => assert Live(s'.tasks[t]);
    case _ =>
  }

  lemma OutsideKeeps(s: State, place: nat)
    requires Inv(s) && s.phase == Running && place <= s.pool
    ensures Inv(s.(tasks := s.tasks + [Task(place, Active, false)]))
  {
  }

  lemma CancelChildKeeps(s: State, t: nat)
    requires Inv(s)
    ensures Inv(Step(s, CancelChild(t)))
  {
    var s' := Step(s, CancelChild(t));
    if s' != s {
      var c := s.tasks[t].pc.child;
      forall u | 0 <= u < |s'.tasks| && Live(s'.tasks[u]) && s'.closed[s'.tasks[u].place]
        ensures WillBeCancelled(s', u)
      {
        assert WillBeCancelled(s, u);
        if v :| 0 <= v < |s.tasks| && s.tasks[v].pc == MustCancel(u) {
          assert v == t || s'.tasks[v].pc == MustCancel(u);
        }
      }
      BlockedStay(s, s');
    }
  }

  /** While nobody announces or finishes, what the check established stands. */
  lemma BlockedStay(s: State, s': State)
    requires Inv(s) && s'.pool == s.pool && s'.phase == s.phase && |s'.tasks| == |s.tasks|
    requires forall t :: 0 <= t < |s.tasks| ==> s'.tasks[t].place == s.tasks[t].place
    requires forall t :: 0 <= t < |s.tasks| && Live(s'.tasks[t]) ==> Live(s.tasks[t])
    requires s.phase.Scan? ==> forall t :: 0 <= t < |s.tasks| && Blocked(s.tasks[t]) ==> Blocked(s'.tasks[t])
    requires s.phase == Waiting ==> forall t :: 0 <= t < |s.tasks| && (Live(s.tasks[t]) || s.tasks[t].pc == Leaving)
                                      ==> Live(s'.tasks[t]) || s'.tasks[t].pc == Leaving
    ensures CheckOk(s')
  {
    match s.phase
    case Scan(n) =>
      forall p: nat | p < n && HasTasks(s', p) ensures SpawnerAhead(s', n) {
        var t :| 0 <= t < |s'.tasks| && Live(s'.tasks[t]) && s'.tasks[t].place == p;
        assert Live(s.tasks[t]);
        assert HasTasks(s, p);
        var u :| 0 <= u < |s.tasks| && Blocked(s.tasks[u]) && s.tasks[u].place >= n;
        assert Blocked(s'.tasks[u]);
      }
    case Waiting =>
      var t :| 0 <= t < |s.tasks| && (Live(s.tasks[t]) || s.tasks[t].pc == Leaving);
      assert Live(s'.tasks[t]) || s'.tasks[t].pc == Leaving;
    case _ =>
  }

  lemma AnnounceKeeps(s: State, t: nat)
    requires Inv(s) && t < |s.tasks|
    ensures Inv(AnnounceStep(s, t))
  {
    var s' := AnnounceStep(s, t);
    if s' != s {
      forall u | 0 <= u < |s'.tasks| && Live(s'.tasks[u]) && s'.closed[s'.tasks[u].place]
        ensures WillBeCancelled(s', u)
      {
        StillCancelled(s, s', u, t);
      }
      AnnounceCheck(s, t);
    }
  }

  lemma AnnounceCheck(s: State, t: nat)
    requires Inv(s) && t < |s.tasks|
    ensures CheckOk(AnnounceStep(s, t))
  {
  }

  lemma FinishKeeps(s: State, t: nat)
    requires Inv(s)
    ensures Inv(Step(s, Finish(t)))
  {
    var s' := Step(s, Finish(t));
    if s' != s {
      forall u | 0 <= u < |s'.tasks| && Live(s'.tasks[u]) && s'.closed[s'.tasks[u].place]
        ensures WillBeCancelled(s', u)
      {
        StillCancelled(s, s', u, t);
      }
      BlockedStay(s, s');
    }
  }

  lemma CloseKeeps(s: State)
    requires Inv(s)
    ensures Inv(CloseStep(s))
  {
    var s' := CloseStep(s);
    if s' != s && s.tasks != [] {
      forall u | 0 <= u < |s'.tasks| && Live(s'.tasks[u]) && s'.closed[s'.tasks[u].place]
        ensures WillBeCancelled(s', u)
      {
        if s.closed[s.tasks[u].place] {
          assert WillBeCancelled(s, u);
          if v :| 0 <= v < |s.tasks| && s.tasks[v].pc == MustCancel(u) {
            assert s'.tasks[v].pc == MustCancel(u);
          }
        }
      }
    }
  }

  lemma CancelCollectedKeeps(s: State, t: nat)
    requires Inv(s)
    ensures Inv(Step(s, CancelCollected(t)))
  {
    var s' := Step(s, CancelCollected(t));
    if s' != s {
      forall u | 0 <= u < |s'.tasks| && Live(s'.tasks[u]) && s'.closed[s'.tasks[u].place]
        ensures WillBeCancelled(s', u)
      {
        assert WillBeCancelled(s, u);
        if v :| 0 <= v < |s.tasks| && s.tasks[v].pc == MustCancel(u) {
          assert s'.tasks[v].pc == MustCancel(u);
        }
      }
    }
  }

  lemma CheckKeeps(s: State)
    requires Inv(s)
    ensures Inv(CheckStep(s))
  {
    var s' := CheckStep(s);
    if s.phase.Scan? {
      var n := s.phase.next;
      SameTasks(s, s');
      if HasTasks(s, n) {
        var t :| 0 <= t < |s.tasks| && Live(s.tasks[t]) && s.tasks[t].place == n;
        assert Live(s'.tasks[t]);
      } else if exists p: nat :: p <= n && HasTasks(s, p) {
        var p: nat :| p <= n && HasTasks(s, p);
        var u :| 0 <= u < |s.tasks| && Blocked(s.tasks[u]) && s.tasks[u].place >= n;
        assert Live(s.tasks[u]);
        assert SpawnerAhead(s', n + 1);
      } else {
        forall t | 0 <= t < |s.tasks| && n == s.pool ensures !Live(s.tasks[t]) {
          assert Live(s.tasks[t]) ==> HasTasks(s, s.tasks[t].place);
        }
        forall p: nat | p < n + 1 ensures !HasTasks(s', p) { assert HasTasks(s', p) ==> HasTasks(s, p); }
      }
    }
  }

  lemma SameTasks(s: State, s': State)
    requires Inv(s) && s'.tasks == s.tasks && s'.closed == s.closed && s'.pool == s.pool && s'.pending == s.pending
    ensures Sized(s') && TasksOk(s')
  {
    forall u | 0 <= u < |s'.tasks| && Live(s'.tasks[u]) && s'.closed[s'.tasks[u].place]
      ensures WillBeCancelled(s', u)
    {
      assert WillBeCancelled(s, u);
    }
  }

  lemma StepKeeps(s: State, a: Action)
    requires Inv(s)
    ensures Inv(Step(s, a))
  {
    match a
    case SpawnOutside(place) => if s.phase == Running && place <= s.pool { OutsideKeeps(s, place); }
    case Spawn(t, place) =>
      if t < |s.tasks| && s.tasks[t].pc == Active && place <= s.pool { SpawnKeeps(s, t, place); }
    case CancelChild(t) => CancelChildKeeps(s, t);
    case Announce(t) => if t < |s.tasks| { AnnounceKeeps(s, t); }
    case Finish(t) => FinishKeeps(s, t);
    case CloseNext => CloseKeeps(s);
    case CancelCollected(t) => CancelCollectedKeeps(s, t);
    case Check => CheckKeeps(s);
    case Start => SameTasks(s, Step(s, a));
    case Lock => SameTasks(s, Step(s, a));
    case SpuriousWake => SameTasks(s, Step(s, a));
  }

  lemma {:induction false} RunKeeps(pool: nat, schedule: seq<Action>)
    ensures Inv(Run(Init(pool), schedule))
    decreases |schedule|
  {
    if schedule != [] {
      RunKeeps(pool, schedule[..|schedule| - 1]);
      StepKeeps(Run(Init(pool), schedule[..|schedule| - 1]), schedule[|schedule| - 1]);
    }
  }

  // ---- what it means --------------------------------------------------------------------

  /** When the check has found every shard and then the pool empty, no live task exists in
      any of them, whatever was spawned or finished between the looks; and none appears
      afterwards, however the run goes on. */
  lemma QuiescenceIsFinal(pool: nat, before: seq<Action>, after: seq<Action>)
    requires Run(Init(pool), before).phase == Quiescent
    ensures var s := Run(Run(Init(pool), before), after);
            && s.phase == Quiescent && |s.tasks| == |Run(Init(pool), before).tasks|
            && (forall t :: 0 <= t < |s.tasks| ==> !Live(s.tasks[t]))
            && (forall p: nat :: !HasTasks(s, p))
  {
    RunKeeps(pool, before);
    StaysQuiescent(Run(Init(pool), before), after);
  }

  lemma {:induction false} StaysQuiescent(s: State, after: seq<Action>)
    requires Inv(s) && s.phase == Quiescent
    ensures var s' := Run(s, after); Inv(s') && s'.phase == Quiescent && |s'.tasks| == |s.tasks|
    decreases |after|
  {
    if after != [] {
      StaysQuiescent(s, after[..|after| - 1]);
      StepKeeps(Run(s, after[..|after| - 1]), after[|after| - 1]);
    }
  }

  /** The wait for quiescence misses no wake-up: if shutdown is waiting and no live task is
      left, a finished task has yet to announce itself, and when it does the check is made
      again. */
  lemma WaitIsEnded(pool: nat, schedule: seq<Action>)
    requires Run(Init(pool), schedule).phase == Waiting
    ensures var s := Run(Init(pool), schedule);
            || (exists t :: 0 <= t < |s.tasks| && Live(s.tasks[t]))
            || (exists t: nat :: t < |s.tasks| && s.tasks[t].pc == Leaving && Step(s, Announce(t)).phase == Relock)
  {
    RunKeeps(pool, schedule);
    var s := Run(Init(pool), schedule);
    var t: nat :| t < |s.tasks| && (Live(s.tasks[t]) || s.tasks[t].pc == Leaving);
    assert s.tasks[t].pc == Leaving ==> Step(s, Announce(t)).phase == Relock;
  }

  /** No task escapes cancellation. One that is live in a closed place has been cancelled,
      or was collected at the closing and is about to be, or was reported as born closed
      to a spawner whose next step cancels it; and before the first check nothing collected
      is left uncancelled. */
  lemma NoTaskEscapesCancel(pool: nat, schedule: seq<Action>, t: nat)
    requires t < |Run(Init(pool), schedule).tasks|
    ensures var s := Run(Init(pool), schedule); Sized(s) && s.pool == pool && s.tasks[t].place <= pool
    ensures var s := Run(Init(pool), schedule);
            Live(s.tasks[t]) && s.closed[s.tasks[t].place] ==>
              || s.tasks[t].cancelled
              || (s.phase.Closing? && t in s.pending)
              || (exists u: nat :: u < |s.tasks| && s.tasks[u].pc == MustCancel(t)
                                   && Step(s, CancelChild(u)).tasks[t].cancelled)
  {
    RunKeeps(pool, schedule);
    RunPool(pool, schedule);
    var s := Run(Init(pool), schedule);
    if u: nat :| u < |s.tasks| && s.tasks[u].pc == MustCancel(t) {
      assert |Step(s, CancelChild(u)).tasks| == |s.tasks|;
      assert Step(s, CancelChild(u)).tasks[t].cancelled;
    }
  }

  lemma {:induction false} RunPool(pool: nat, schedule: seq<Action>)
    ensures Run(Init(pool), schedule).pool == pool
    decreases |schedule|
  {
    if schedule != [] { RunPool(pool, schedule[..|schedule| - 1]); }
  }
}
