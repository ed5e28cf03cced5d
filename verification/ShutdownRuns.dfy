/** What shutdown achieves: it cancels nothing that is not in a closed place, and left alone it
    finds the runtime quiescent as soon as it is. */
module ShutdownRuns {
  import opened Shutdown

  // ---- who is cancelled -------------------------------------------------------------------------

  /** Only tasks in closed places are cancelled, or about to be. */
  ghost predicate OnlyClosed(s: State)
    requires Inv(s)
  {
    forall t: nat :: t < |s.tasks| && WillBeCancelled(s, t) ==> s.closed[s.tasks[t].place]
  }

  /** A spawn dooms nobody but the task it brings. */
  lemma SpawnDooms(s: State, u: nat, place: nat, t: nat)
    requires Inv(s) && u < |s.tasks| && s.tasks[u].pc == Active && place <= s.pool && t < |s.tasks|
    requires WillBeCancelled(SpawnStep(s, u, place), t)
    ensures WillBeCancelled(s, t)
  {
    var s' := SpawnStep(s, u, place);
    if v :| 0 <= v < |s'.tasks| && s'.tasks[v].pc == MustCancel(t) { assert s.tasks[v].pc == MustCancel(t); }
  }

  /** A child that is cancelled was to be. */
  lemma CancelDooms(s: State, u: nat, t: nat)
    requires Inv(s) && t < |s.tasks| && WillBeCancelled(Step(s, CancelChild(u)), t)
    ensures WillBeCancelled(s, t)
  {
    var s' := Step(s, CancelChild(u));
    if v :| 0 <= v < |s'.tasks| && s'.tasks[v].pc == MustCancel(t) { assert s.tasks[v].pc == MustCancel(t); }
  }

  lemma OthersDoom(s: State, a: Action, t: nat)
    requires Inv(s) && t < |s.tasks| && !a.Spawn? && !a.CancelChild? && !a.CloseNext?
    requires WillBeCancelled(Step(s, a), t)
    ensures WillBeCancelled(s, t)
  {
    var s' := Step(s, a);
    if v :| 0 <= v < |s'.tasks| && s'.tasks[v].pc == MustCancel(t) { assert s.tasks[v].pc == MustCancel(t); }
  }

  /** Closing a place dooms the tasks in it. */
  lemma CloseDooms(s: State, t: nat)
    requires Inv(s) && t < |s.tasks| && WillBeCancelled(CloseStep(s), t)
    ensures WillBeCancelled(s, t) || CloseStep(s).closed[s.tasks[t].place]
  {
    var s' := CloseStep(s);
    if v :| 0 <= v < |s'.tasks| && s'.tasks[v].pc == MustCancel(t) { assert s.tasks[v].pc == MustCancel(t); }
  }

  lemma Dooms(s: State, a: Action, t: nat)
    requires Inv(s) && t < |s.tasks| && WillBeCancelled(Step(s, a), t)
    ensures WillBeCancelled(s, t) || (a == CloseNext && CloseStep(s).closed[s.tasks[t].place])
  {
    match a
    case Spawn(u, place) =>
      if u < |s.tasks| && s.tasks[u].pc == Active && place <= s.pool { SpawnDooms(s, u, place, t); }
    case CancelChild(u) => CancelDooms(s, u, t);
    case CloseNext => CloseDooms(s, t);
    case _ => OthersDoom(s, a, t);
  }

  /** No place opens again, and a task stays in its place; one that comes to be doomed at once
      comes to a closed place. */
  lemma PlacesStay(s: State, a: Action, t: nat)
    requires Inv(s)
    ensures var s' := Step(s, a);
            && |s'.closed| == |s.closed| && |s'.tasks| >= |s.tasks|
            && (forall p :: 0 <= p < |s.closed| && s.closed[p] ==> s'.closed[p])
            && (t < |s.tasks| ==> s'.tasks[t].place == s.tasks[t].place)
            && (|s.tasks| <= t < |s'.tasks| && WillBeCancelled(s', t) ==>
                  s'.tasks[t].place < |s.closed| && s.closed[s'.tasks[t].place])
  {
  }

  lemma StepOnlyClosed(s: State, a: Action)
    requires Inv(s) && OnlyClosed(s)
    ensures Inv(Step(s, a)) && OnlyClosed(Step(s, a))
  {
    StepKeeps(s, a);
    var s' := Step(s, a);
    forall t: nat | t < |s'.tasks| && WillBeCancelled(s', t) ensures s'.closed[s'.tasks[t].place] {
      PlacesStay(s, a, t);
      if t < |s.tasks| { Dooms(s, a, t); }
    }
  }

  /** In every run a task is cancelled, or about to be, if and only if it may be: only tasks in a
      closed place are, and every live task in one is. */
  lemma {:induction false} CancelledExactlyWhenClosed(pool: nat, schedule: seq<Action>)
    ensures var s := Run(Init(pool), schedule);
            && Inv(s) && OnlyClosed(s)
            && (forall t: nat :: t < |s.tasks| && Live(s.tasks[t]) ==>
                  (WillBeCancelled(s, t) <==> s.closed[s.tasks[t].place]))
    decreases |schedule|
  {
    if schedule == [] {
      RunKeeps(pool, schedule);
    } else {
      CancelledExactlyWhenClosed(pool, schedule[..|schedule| - 1]);
      StepOnlyClosed(Run(Init(pool), schedule[..|schedule| - 1]), schedule[|schedule| - 1]);
    }
  }

  // ---- tasks come and go ------------------------------------------------------------------------

  /** A live task stays live until it finishes, in its place, and a finished one stays so. */
  lemma LivesUntilFinished(s: State, a: Action, t: nat)
    requires Inv(s) && t < |s.tasks|
    ensures var s' := Step(s, a);
            && |s'.tasks| >= |s.tasks| && s'.tasks[t].place == s.tasks[t].place
            && (s.tasks[t].cancelled ==> s'.tasks[t].cancelled)
            && (Live(s'.tasks[t]) <==> Live(s.tasks[t]) && !(a == Finish(t) && s.tasks[t].pc == Active))
  {
  }

  /** A spawn brings one live task, in the place asked for; its spawner has to announce it, and
      if the place is a shard to cancel it first, if and only if the place is closed. */
  lemma SpawnBringsOne(s: State, t: nat, place: nat)
    requires Inv(s) && t < |s.tasks| && s.tasks[t].pc == Active && place <= s.pool
    ensures var s', n := Step(s, Spawn(t, place)), |s.tasks|;
            && |s'.tasks| == n + 1 && s'.tasks[n].place == place && s'.tasks[n].pc == Active
            && (s'.tasks[t].pc == Active <==> !s.closed[place])
            && (s'.tasks[t].pc == MustCancel(n) <==> s.closed[place] && place < s.pool)
            && (s'.tasks[n].cancelled <==> s.closed[place] && place == s.pool)
    ensures s.phase == Running ==>
              Step(s, SpawnOutside(place)).tasks == s.tasks + [Task(place, Active, false)]
  {
  }

  /** A spawner or a finished task that is left alone while no check is being made gets its
      announcement made, its child having been cancelled if it was to be; and whoever waits
      checks again. */
  lemma AnnouncementAlone(s: State, t: nat)
    requires Inv(s) && t < |s.tasks| && !s.phase.Scan?
    ensures s.tasks[t].pc.MustCancel? ==>
              var m := Step(s, CancelChild(t));
              && m.tasks[t].pc == MustAnnounce && m.tasks[s.tasks[t].pc.child].cancelled
              && (s.tasks[t].pc.child != t ==> m.tasks[t].cancelled == s.tasks[t].cancelled)
    ensures s.tasks[t].pc == MustAnnounce || s.tasks[t].pc == Leaving ==>
              var e := Step(s, Announce(t));
              && e.tasks[t].pc == (if s.tasks[t].pc == Leaving then Gone else Active)
              && e.phase == (if s.phase == Waiting then Relock else s.phase)
  {
  }

  /** A finished task has to announce itself if and only if its place is closed. */
  lemma FinishAnnounces(s: State, t: nat)
    requires Inv(s) && t < |s.tasks| && s.tasks[t].pc == Active
    ensures Step(s, Finish(t)).tasks[t].pc == (if s.closed[s.tasks[t].place] then Leaving else Gone)
  {
  }

  // ---- shutdown left alone ------------------------------------------------------------------------

  predicate OwnAction(a: Action) {
    a == CloseNext || a.CancelCollected? || a == Lock || a == Check
  }

  lemma {:induction false} RunFirst(s: State, a: Action, rest: seq<Action>)
    ensures Run(s, [a] + rest) == Run(Step(s, a), rest)
    decreases |rest|
  {
    var all := [a] + rest;
    if rest == [] {
      assert all[..|all| - 1] == [];
    } else {
      RunFirst(s, a, rest[..|rest| - 1]);
      assert all[..|all| - 1] == [a] + rest[..|rest| - 1];
    }
  }

  predicate AnyLive(s: State) {
    exists t :: 0 <= t < |s.tasks| && Live(s.tasks[t])
  }

  /** The tasks are the same, but that some have been cancelled. */
  predicate SameButCancelled(s: State, e: State) {
    && |e.tasks| == |s.tasks|
    && (forall t :: 0 <= t < |s.tasks| ==>
          e.tasks[t].place == s.tasks[t].place && e.tasks[t].pc == s.tasks[t].pc
          && (s.tasks[t].cancelled ==> e.tasks[t].cancelled))
  }

  /** Shutdown's own steps, `schedule`, take it to its verdict: every place is closed, what was
      collected is cancelled, and it has found the runtime quiescent if no live task was left,
      and waits otherwise. */
  ghost predicate Concludes(s: State, schedule: seq<Action>) {
    && (forall i :: 0 <= i < |schedule| ==> OwnAction(schedule[i]))
    && (var e := Run(s, schedule);
        && Inv(e) && SameButCancelled(s, e) && e.pending == {}
        && (forall p :: 0 <= p <= e.pool ==> e.closed[p])
        && e.phase == (if AnyLive(s) then Waiting else Quiescent))
  }

  /** A step further from the verdict. */
  lemma ConcludesLater(s: State, a: Action)
    requires OwnAction(a) && SameButCancelled(s, Step(s, a)) && exists rest :: Concludes(Step(s, a), rest)
    ensures exists schedule :: Concludes(s, schedule)
  {
    var s1 := Step(s, a);
    var rest :| Concludes(s1, rest);
    RunFirst(s, a, rest);
    SameLive(s, s1);
    assert Concludes(s, [a] + rest);
  }

  lemma SameLive(s: State, e: State)
    requires SameButCancelled(s, e)
    ensures AnyLive(s) <==> AnyLive(e)
  {
    if t :| 0 <= t < |s.tasks| && Live(s.tasks[t]) { assert Live(e.tasks[t]); }
    if t :| 0 <= t < |e.tasks| && Live(e.tasks[t]) { assert Live(s.tasks[t]); }
  }

  lemma ConcludesNow(s: State)
    requires Inv(s) && ((s.phase == Waiting && AnyLive(s)) || s.phase == Quiescent)
    ensures Concludes(s, [])
  {
  }

  /** The check, with the places below `next` found empty and still so. */
  lemma ScanConcludes(s: State)
    requires Inv(s) && s.phase.Scan?
    requires forall p: nat :: p < s.phase.next ==> !HasTasks(s, p)
    ensures exists schedule :: Concludes(s, schedule)
    decreases s.pool + 1 - s.phase.next
  {
    var n := s.phase.next;
    var s1 := Step(s, Check);
    StepKeeps(s, Check);
    if HasTasks(s, n) {
      var t :| 0 <= t < |s.tasks| && Live(s.tasks[t]) && s.tasks[t].place == n;
      assert Live(s1.tasks[t]);
      ConcludesNow(s1);
    } else if n == s.pool {
      ConcludesNow(s1);
    } else {
      forall p: nat | p < n + 1 ensures !HasTasks(s1, p) { assert HasTasks(s1, p) ==> HasTasks(s, p); }
      ScanConcludes(s1);
    }
    assert Concludes(s1, []) ==> exists rest :: Concludes(s1, rest);
    ConcludesLater(s, Check);
  }

  lemma RelockConcludes(s: State)
    requires Inv(s) && s.phase == Relock
    ensures exists schedule :: Concludes(s, schedule)
  {
    StepKeeps(s, Lock);
    ScanConcludes(Step(s, Lock));
    ConcludesLater(s, Lock);
  }

  /** From every reachable state, shutdown that is closing or about to check gets to its verdict
      when it is left alone: it closes the places that are open, cancels what it collects,
      and then declares the runtime quiescent if and only if no task is live. */
  lemma {:induction false} ShutdownAlone(s: State)
    requires Inv(s) && (s.phase.Closing? || s.phase == Relock)
    ensures exists schedule :: Concludes(s, schedule)
    decreases if s.phase.Closing? then s.pool + 2 - s.phase.next else 0, |s.pending|
  {
    if s.phase == Relock {
      RelockConcludes(s);
    } else if s.phase.next >= s.pool && s.pending != {} {
      var t :| t in s.pending;
      var a := CancelCollected(t);
      StepKeeps(s, a);
      ShutdownAlone(Step(s, a));
      ConcludesLater(s, a);
    } else {
      StepKeeps(s, CloseNext);
      ShutdownAlone(Step(s, CloseNext));
      ConcludesLater(s, CloseNext);
    }
  }

  /** The pool is closed only when every shard is and all that was collected from them has been
      cancelled. */
  lemma PoolClosesLast(s: State, a: Action)
    requires Inv(s) && !s.closed[s.pool]
    ensures var s' := Step(s, a);
            |s'.closed| == |s.closed| && s'.pool == s.pool
            && (s'.closed[s.pool] ==> s.pending == {} && forall p :: 0 <= p < s.pool ==> s.closed[p])
  {
  }

  /** Shutdown starts once, and one that waits checks again when it is woken, spuriously or not. */
  lemma StartsAndWakes(s: State)
    requires Inv(s)
    ensures s.phase == Running ==> Step(s, Start).phase == Closing(0) && Step(s, Start).tasks == s.tasks
    ensures s.phase == Waiting ==> Step(s, SpuriousWake).phase == Relock
  {
  }
}
