/** What the readiness of a registration says about its history, what its operations answer, and
    what a turn of the driver achieves. */
module IoReadinessRuns {
  import opened IoReadiness

  // ---- history decides the flags -----------------------------------------------------------

  /** The action delivers an event. */
  predicate Delivers(s: State, a: Action) {
    a.Dispatch? && s.fetched != {} && s.dispatching == {}
  }

  /** The action gives reader r an event: the flag is set, or a dispatch has unlinked it. */
  predicate Gives(s: State, a: Action, r: nat) {
    && a == Poll(r) && r < |s.readers| && !s.shutdown
    && (var k := s.readers[r];
        && !k.pc.Got? && !k.pc.MustClear?
        && (if k.listed && (k.pc == Ready || k.pc == Linked) then k.pc == Ready else k.dir in s.ready))
  }

  /** No event has been delivered since reader r was last given one. */
  ghost predicate Unchanged(s: State, schedule: seq<Action>, r: nat)
    decreases |schedule|
  {
    schedule == [] ||
    (var before, a := schedule[..|schedule| - 1], schedule[|schedule| - 1];
     Gives(Run(s, before), a, r) || (!Delivers(Run(s, before), a) && Unchanged(s, before, r)))
  }

  /** The last thing that happened to direction d's flag was that an event set it, and not that a
      reader whose operation had failed cleared it with no event delivered since its poll. */
  ghost predicate Flagged(s: State, schedule: seq<Action>, d: Direction)
    decreases |schedule|
  {
    schedule == [] ||
    (var before, a := schedule[..|schedule| - 1], schedule[|schedule| - 1];
     var m := Run(s, before);
     || (Delivers(m, a) && d in m.fetched)
     || (Flagged(s, before, d)
         && !(a.ClearReady? && a.r < |m.readers| && m.readers[a.r].pc.MustClear? && m.readers[a.r].dir == d
              && Unchanged(s, before, a.r))))
  }

  predicate HasTick(p: Pc) { p.Got? || p.MustClear? }

  /** From s to s', by a, the tick counts the events delivered, and reader r keeps the tick of
      its poll. */
  predicate Ticks(s: State, s': State, a: Action, r: nat)
    requires r < |s.readers|
  {
    && |s'.readers| == |s.readers| && s'.readers[r].dir == s.readers[r].dir
    && s'.tick == s.tick + (if Delivers(s, a) then 1 else 0)
    && (HasTick(s'.readers[r].pc) ==>
          if Gives(s, a, r) then s'.readers[r].pc == Got(s.tick)
          else HasTick(s.readers[r].pc) && s'.readers[r].pc.tick == s.readers[r].pc.tick)
  }

  lemma PollTicks(s: State, q: nat, r: nat)
    requires q < |s.readers| && r < |s.readers|
    ensures Ticks(s, PollStep(s, q), Poll(q), r)
  {
  }

  lemma UseTicks(s: State, q: nat, more: bool, r: nat)
    requires q < |s.readers| && r < |s.readers|
    ensures Ticks(s, OperateStep(s, q, more), Operate(q, more), r) && Ticks(s, ClearStep(s, q), ClearReady(q), r)
  {
  }

  lemma WokenTicks(s: State, ds: set<Direction>, taken: set<nat>, r: nat)
    requires r < |s.readers|
    ensures var readers := Woken(s, ds, taken);
            && |readers| == |s.readers| && readers[r].dir == s.readers[r].dir
            && (HasTick(readers[r].pc) ==> readers[r] == s.readers[r])
  {
  }

  lemma DispatchTicks(s: State, taken: set<nat>, r: nat)
    requires r < |s.readers|
    ensures Ticks(s, DispatchStep(s, taken), Dispatch(taken), r)
  {
    WokenTicks(s, s.fetched, taken, r);
  }

  lemma DispatchMoreTicks(s: State, taken: set<nat>, r: nat)
    requires r < |s.readers|
    ensures Ticks(s, DispatchMoreStep(s, taken), DispatchMore(taken), r)
  {
    WokenTicks(s.(slot := map[]), s.dispatching, taken, r);
  }

  lemma StepTicks(s: State, a: Action, r: nat)
    requires r < |s.readers|
    ensures Ticks(s, Step(s, a), a, r)
  {
    match a
    case Poll(q) => if q < |s.readers| { PollTicks(s, q, r); }
    case Operate(q, more) => if q < |s.readers| { UseTicks(s, q, more, r); }
    case ClearReady(q) => if q < |s.readers| { UseTicks(s, q, false, r); }
    case Dispatch(taken) => DispatchTicks(s, taken, r);
    case DispatchMore(taken) => DispatchMoreTicks(s, taken, r);
    case _ =>
  }

  /** A reader's tick is the present one if and only if no event was delivered since its poll. */
  lemma {:induction false} TickTells(readers: seq<(Direction, bool)>, schedule: seq<Action>, r: nat)
    requires r < |readers|
    ensures var s := Run(Init(readers), schedule);
            && Inv(s) && |s.readers| == |readers|
            && (HasTick(s.readers[r].pc) ==>
                  s.readers[r].pc.tick <= s.tick
                  && (s.readers[r].pc.tick == s.tick <==> Unchanged(Init(readers), schedule, r)))
    decreases |schedule|
  {
    RunKeeps(readers, schedule);
    if schedule != [] {
      var before, a := schedule[..|schedule| - 1], schedule[|schedule| - 1];
      TickTells(readers, before, r);
      StepTicks(Run(Init(readers), before), a, r);
    }
  }

  lemma StepFlags(s: State, a: Action, d: Direction)
    requires Inv(s)
    ensures d in Step(s, a).ready <==>
              || (Delivers(s, a) && d in s.fetched)
              || (d in s.ready
                  && !(a.ClearReady? && a.r < |s.readers| && s.readers[a.r].pc.MustClear? && s.readers[a.r].dir == d
                       && s.readers[a.r].pc.tick == s.tick))
  {
  }

  lemma {:induction false} ReadersStay(readers: seq<(Direction, bool)>, schedule: seq<Action>)
    ensures |Run(Init(readers), schedule).readers| == |readers|
    decreases |schedule|
  {
    if schedule != [] { ReadersStay(readers, schedule[..|schedule| - 1]); }
  }

  /** Over every interleaving a direction's flag is decided by its history: delivering an event
      for it sets it, and a reader's clear drops it if and only if no event at all has been
      delivered since that reader's poll. */
  lemma {:induction false} HistoryDecides(readers: seq<(Direction, bool)>, schedule: seq<Action>, d: Direction)
    ensures d in Run(Init(readers), schedule).ready <==> Flagged(Init(readers), schedule, d)
    decreases |schedule|
  {
    if schedule == [] {
      assert d.Read? || d.Write?;
    } else {
      var before, a := schedule[..|schedule| - 1], schedule[|schedule| - 1];
      HistoryDecides(readers, before, d);
      RunKeeps(readers, before);
      StepFlags(Run(Init(readers), before), a, d);
      ReadersStay(readers, before);
      if a.ClearReady? && a.r < |readers| { TickTells(readers, before, a.r); }
    }
  }

  // ---- what the operations answer --------------------------------------------------------------

  /** A poll refuses if and only if the driver has shut down, gives an event if and only if the
      flag is set or a dispatch has woken the waiter, and otherwise leaves the reader
      waiting. */
  lemma PollAnswers(s: State, r: nat)
    requires Inv(s) && r < |s.readers| && !HasTick(s.readers[r].pc)
    ensures var s' := Step(s, Poll(r));
            && (s'.readers[r].pc == Refused <==> s.shutdown)
            && (s'.readers[r].pc.Got? <==> Gives(s, Poll(r), r))
            && (!s.shutdown && !Gives(s, Poll(r), r) ==> Waiting(s', r))
            && (forall q: nat :: q < |s.readers| && q != r ==> s'.readers[q] == s.readers[q])
  {
    assert ReaderOk(s, r);
  }

  /** An operation goes through if and only if its direction is available. One that does not has
      its readiness to clear, and clearing lets the reader poll again. */
  lemma OperationAnswers(s: State, r: nat, more: bool)
    requires Inv(s) && r < |s.readers|
    ensures s.readers[r].pc.Got? ==>
              var s', d := Step(s, Operate(r, more)), s.readers[r].dir;
              && (s'.readers[r].pc == Idle <==> d in s.available)
              && (s'.readers[r].pc.MustClear? <==> d !in s.available)
              && s'.available == (if more then s.available else s.available - {d})
    ensures s.readers[r].pc.MustClear? ==> Step(s, ClearReady(r)).readers[r].pc == Idle
    ensures s.readers[r].listed && Waiting(s, r) ==> Step(s, CancelWait(r)).readers[r].pc == Idle
  {
  }

  /** An arrival makes its direction available, with an edge for a turn to fetch; a turn with
      nothing in hand fetches every edge. */
  lemma EventsAreFetched(s: State, d: Direction, extra: set<Direction>)
    ensures var s' := Step(s, Arrive(d)); d in s'.available && d in s'.edge && s.edge <= s'.edge
    ensures s.fetched == {} && s.dispatching == {} ==>
              var s' := Step(s, Fetch(extra)); s'.fetched == s.edge + extra && s'.edge == {}
  {
  }

  /** A reader is woken only while it waits, once, and only for an event of its direction or by
      shutdown. */
  lemma WokenOnlyFor(s: State, a: Action, r: nat)
    requires Inv(s) && r < |s.readers|
    ensures var s' := Step(s, a);
            |s'.readers| == |s.readers| && s.readers[r].wakes <= s'.readers[r].wakes <= s.readers[r].wakes + 1
    ensures Step(s, a).readers[r].wakes > s.readers[r].wakes ==>
              && Waiting(s, r)
              && (match a
                  case Dispatch(_) => s.readers[r].dir in s.fetched
                  case DispatchMore(_) => s.readers[r].dir in s.dispatching
                  case ShutDown => true
                  case _ => false)
  {
    assert ReaderOk(s, r);
  }

  // ---- a turn left alone ------------------------------------------------------------------------

  function AllLinked(s: State): set<nat> {
    set r: nat | r < |s.readers| && s.readers[r].pc == Linked
  }

  /** Nobody is left waiting for the directions in ds, and whoever was has been woken. */
  predicate AllWoken(s: State, e: State, ds: set<Direction>) {
    && |e.readers| == |s.readers|
    && (forall r: nat :: r < |s.readers| && s.readers[r].dir in ds && Waiting(s, r) ==>
          !Waiting(e, r) && e.readers[r].wakes == s.readers[r].wakes + 1)
  }

  lemma DispatchWakesAll(s: State)
    requires Inv(s) && s.fetched != {} && s.dispatching == {}
    ensures var e := Step(s, Dispatch(AllLinked(s)));
            e.fetched == {} == e.dispatching && e.ready == s.ready + s.fetched && AllWoken(s, e, s.fetched)
  {
    var e := Step(s, Dispatch(AllLinked(s)));
    forall r: nat | r < |s.readers| ensures ReaderOk(s, r) {}
    assert !AnyWaits(e.readers, s.fetched);
  }

  /** A turn that is left alone finishes the dispatch it is in. */
  lemma DispatchFinishes(s: State)
    requires Inv(s) && s.dispatching != {}
    ensures var e := Step(s, DispatchMore(AllLinked(s)));
            e.dispatching == {} && forall r: nat :: r < |s.readers| ==> !WaitsFor(e.readers[r], s.dispatching)
  {
    var e := Step(s, DispatchMore(AllLinked(s)));
    assert !AnyWaits(e.readers, s.dispatching);
  }

  /** From every reachable state with no event in hand, a turn left alone flags every direction
      that has an edge, whether a task waits for it or not, and wakes every reader that
      waits for one of them. */
  lemma TurnDelivers(readers: seq<(Direction, bool)>, schedule: seq<Action>)
    requires var s := Run(Init(readers), schedule); s.fetched == {} && s.dispatching == {} && s.edge != {}
    ensures var s := Run(Init(readers), schedule);
            var f := Step(s, Fetch({}));
            var e := Step(f, Dispatch(AllLinked(f)));
            e.edge == {} && e.fetched == {} == e.dispatching && s.edge <= e.ready && AllWoken(s, e, s.edge)
  {
    var s := Run(Init(readers), schedule);
    RunKeeps(readers, schedule);
    var f := Step(s, Fetch({}));
    StepKeeps(s, Fetch({}));
    DispatchWakesAll(f);
    assert forall r: nat :: r < |s.readers| ==> (Waiting(f, r) <==> Waiting(s, r));
  }

  /** Shutdown leaves nobody waiting, and everybody who did woken; from then on it refuses. */
  lemma ShutDownWakesAll(s: State)
    requires Inv(s)
    ensures var e := Step(s, ShutDown); e.shutdown && AllWoken(s, e, {Read, Write})
  {
    var e := Step(s, ShutDown);
    forall r: nat | r < |s.readers| ensures ReaderOk(s, r) {}
  }
}
