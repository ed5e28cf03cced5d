/** The hand-over from a push to the searchers of the work-stealing executor
    (src/runtime/work_stealing_executor.cpp). A push that finds a worker searching wakes
    nobody; the searchers then owe its queue a look. */
module SearchHandOver {
  import opened Parking

  /** Was the last to search, found nothing, and has its look at its peers still to make. */
  predicate LastAhead(p: Pc) {
    (p.MarkIdle? || p.LocalCheck? || p.InjectCheck? || p.PeerCheck?) && p.last
  }

  predicate SomeLastAhead(s: State) {
    exists w :: 0 <= w < |s.pcs| && LastAhead(s.pcs[w])
  }

  predicate SomeUndelivered(s: State) {
    exists i :: 0 <= i < |s.notifiers| && Undelivered(s.notifiers[i], |s.pcs|)
  }

  /** Someone is still searching, or the last who was has its look at its peers ahead, or a
      notification that has reached nobody yet is under way. */
  predicate LookOwed(s: State) {
    s.searching > 0 || SomeLastAhead(s) || SomeUndelivered(s)
  }

  /** The step makes good on it: the last searcher looks at its peers before it parks, or
      finds a task in its other checks; or a notification banks a token with an idle worker,
      or finds that no worker is idle. */
  predicate MakesGood(s: State, a: Action) {
    match a
    case LookStep(w) =>
      && Sized(s) && w < |s.pcs| && LastAhead(s.pcs[w])
      && (s.pcs[w].PeerCheck? || Look(s, w).pcs[w] == FoundWork)
    case NotifyStep(i, _) =>
      i < |s.notifiers| && (s.notifiers[i].Unpark? || (s.notifiers[i].ReadIdle? && s.idle == {}))
    case _ => false
  }

  /** From s to s' nobody stopped searching, no last searcher moved, and no notification that
      has reached nobody moved. */
  predicate LookKept(s: State, s': State) {
    && |s'.pcs| == |s.pcs| && |s'.notifiers| == |s.notifiers| && (s.searching > 0 ==> s'.searching > 0)
    && (forall w :: 0 <= w < |s.pcs| && LastAhead(s.pcs[w]) ==> s'.pcs[w] == s.pcs[w])
    && (forall i :: 0 <= i < |s.notifiers| && s.notifiers[i] != Absent ==> s'.notifiers[i] == s.notifiers[i])
  }

  lemma KeptMeansOwed(s: State, s': State)
    requires LookOwed(s) && LookKept(s, s')
    ensures LookOwed(s')
  {
    if w :| 0 <= w < |s.pcs| && LastAhead(s.pcs[w]) {
      assert LastAhead(s'.pcs[w]);
    } else if i :| 0 <= i < |s.notifiers| && Undelivered(s.notifiers[i], |s.pcs|) {
      assert Undelivered(s'.notifiers[i], |s.pcs|);
    }
  }

  // ---- steps that leave it as it is -----------------------------------------------------------

  lemma WorkKeepsLook(s: State, v: nat, what: Choice)
    requires Sized(s) && v < |s.pcs|
    ensures LookKept(s, WorkStep(s, v, what)) && LookKept(s, SlotStep(s, v, what))
    ensures LookKept(s, TurnStep(s, v, what))
  {
  }

  lemma ParkKeepsLook(s: State, v: nat)
    requires Sized(s) && v < |s.pcs|
    ensures LookKept(s, Park(s, v)) && LookKept(s, EndTurn(s, v))
  {
  }

  lemma OthersKeepLook(s: State, a: Action)
    requires Sized(s) && !a.LookStep? && !a.MarkStep? && !a.Found? && !a.NotifyStep?
    ensures LookKept(s, Step(s, a))
  {
    match a
    case Turn(v, what) => if v < |s.pcs| { WorkKeepsLook(s, v, what); }
    case Work(v, what) => if v < |s.pcs| { WorkKeepsLook(s, v, what); }
    case Slot(v, what) => if v < |s.pcs| { WorkKeepsLook(s, v, what); }
    case ParkStep(v) => if v < |s.pcs| { ParkKeepsLook(s, v); }
    case EndTurnStep(v) => if v < |s.pcs| { ParkKeepsLook(s, v); }
    case _ => QueuesKeepLook(s, a);
  }

  lemma QueuesKeepLook(s: State, a: Action)
    requires Sized(s)
    requires a.Steal? || a.TakeInjected? || a.PushLocal? || a.WakeInTurn? || a.Inject? || a.Notify?
          || a.OutsideUnpark?
    ensures LookKept(s, Step(s, a))
  {
  }

  // ---- steps that pass it on ------------------------------------------------------------------

  lemma MarkPassesOn(s: State, v: nat)
    requires Sized(s) && v < |s.pcs| && LookOwed(s)
    ensures LookOwed(Mark(s, v))
  {
    var s' := Mark(s, v);
    if s'.searching <= 0 {
      if w :| 0 <= w < |s.pcs| && LastAhead(s.pcs[w]) {
        assert LastAhead(s'.pcs[w]);
      } else if i :| 0 <= i < |s.notifiers| && Undelivered(s.notifiers[i], |s.pcs|) {
        assert Undelivered(s'.notifiers[i], |s.pcs|);
      } else {
        assert LastAhead(s'.pcs[v]);
      }
    }
  }

  lemma FoundPassesOn(s: State, v: nat, i: nat)
    requires Sized(s) && v < |s.pcs| && LookOwed(s)
    ensures LookOwed(FoundStep(s, v, i))
  {
    var s' := FoundStep(s, v, i);
    if s' != s { assert Undelivered(s'.notifiers[i], |s.pcs|); }
  }

  lemma LookPassesOn(s: State, v: nat)
    requires Sized(s) && v < |s.pcs| && LookOwed(s) && !MakesGood(s, LookStep(v))
    ensures LookOwed(Look(s, v))
  {
    var s' := Look(s, v);
    if w :| 0 <= w < |s.pcs| && LastAhead(s.pcs[w]) {
      assert LastAhead(s'.pcs[w]);
    } else if i :| 0 <= i < |s.notifiers| && Undelivered(s.notifiers[i], |s.pcs|) {
      assert Undelivered(s'.notifiers[i], |s.pcs|);
    }
  }

  lemma NotifyPassesOn(s: State, i: nat, targets: seq<nat>)
    requires Inv(s) && i < |s.notifiers| && LookOwed(s) && !MakesGood(s, NotifyStep(i, targets))
    ensures LookOwed(NotifyAdvance(s, i, targets))
  {
    var s' := NotifyAdvance(s, i, targets);
    if w :| 0 <= w < |s.pcs| && LastAhead(s.pcs[w]) {
      assert LastAhead(s'.pcs[w]);
    } else if j :| 0 <= j < |s.notifiers| && Undelivered(s.notifiers[j], |s.pcs|) && j != i {
      assert Undelivered(s'.notifiers[j], |s.pcs|);
    } else if s.notifiers[i].ReadIdle? {
      assert targets != [] ==> targets[0] in targets;
      assert Undelivered(s'.notifiers[i], |s.pcs|);
    } else if s.notifiers[i].ReadSearching? && s.searching <= 0 {
      assert Undelivered(s'.notifiers[i], |s.pcs|);
    }
  }

  lemma StepPassesOn(s: State, a: Action)
    requires Inv(s) && LookOwed(s) && !MakesGood(s, a)
    ensures LookOwed(Step(s, a))
  {
    match a
    case MarkStep(v) => if v < |s.pcs| { MarkPassesOn(s, v); }
    case Found(v, i) => if v < |s.pcs| { FoundPassesOn(s, v, i); }
    case LookStep(v) => if v < |s.pcs| { LookPassesOn(s, v); }
    case NotifyStep(i, targets) => if i < |s.notifiers| { NotifyPassesOn(s, i, targets); }
    case _ =>
      OthersKeepLook(s, a);
      KeptMeansOwed(s, Step(s, a));
  }

  // ---- over a run -------------------------------------------------------------------------------

  ghost predicate GoodMade(s: State, schedule: seq<Action>)
    decreases |schedule|
  {
    schedule != [] &&
    (GoodMade(s, schedule[..|schedule| - 1])
     || MakesGood(Run(s, schedule[..|schedule| - 1]), schedule[|schedule| - 1]))
  }

  /** A push that notifies leaves a look owed, and it stays owed through every continuation:
      from the notification to the searchers it saw, from one searcher to the next, from one
      that finds a task to the notification that it makes, until the last of them looks at
      its peers before parking or finds a task in its other checks, or a notification wakes a
      worker or finds none idle. */
  lemma {:induction false} SearchersTakeOver(s: State, schedule: seq<Action>)
    requires Inv(s) && LookOwed(s)
    ensures Inv(Run(s, schedule)) && (LookOwed(Run(s, schedule)) || GoodMade(s, schedule))
    decreases |schedule|
  {
    if schedule != [] {
      var before, last := schedule[..|schedule| - 1], schedule[|schedule| - 1];
      SearchersTakeOver(s, before);
      StepKeeps(Run(s, before), last);
      if LookOwed(Run(s, before)) && !MakesGood(Run(s, before), last) {
        StepPassesOn(Run(s, before), last);
      }
    }
  }

  /** Every push that notifies starts the chain. */
  lemma PushOwesLook(s: State, w: nat, spill: nat, full: bool, demote: bool, i: nat)
    requires Sized(s) && w < |s.pcs| && PushStep(s, w, spill, full, demote, i) != s
    ensures LookOwed(PushStep(s, w, spill, full, demote, i))
  {
    assert Undelivered(PushStep(s, w, spill, full, demote, i).notifiers[i], |s.pcs|);
  }
}
