/** Edge readiness of one registration (src/runtime/io_driver.cpp): the readiness flags, the
    shared tick, the waker slot of each direction and any number of listed waiters.

    The poller is abstract: an arrival makes a direction available and leaves an edge until
    a turn fetches it; an event may report more than its edges (an error or a hang-up).
    Each reader loops as src/io/lookup_host.cpp does: poll for readiness, try the
    operation, and on EAGAIN clear the readiness it saw. The tick does not wrap. */
module IoReadiness {

  datatype Direction = Read | Write

  datatype Pc =
    | Idle
    | Got(tick: nat)         // poll_ready returned an event
    | MustClear(tick: nat)   // its operation reported EAGAIN
    | Parked                 // returned pending, its waker stored in the slot
    | Linked                 // returned pending, linked as a waiter
    | Ready                  // unlinked and woken by a dispatch: ready once
    | Refused                // was told that the driver has shut down

  datatype Reader = Reader(dir: Direction, listed: bool, pc: Pc, wakes: nat)

  datatype State = State(
    available: set<Direction>, edge: set<Direction>,      // the kernel's side
    fetched: set<Direction>, dispatching: set<Direction>, // the turn's: an event, and one with waiters still to wake
    ready: set<Direction>, tick: nat, shutdown: bool,     // ScheduledIo's, under its mutex
    slot: map<Direction, nat>, readers: seq<Reader>)

  datatype Action =
    | Arrive(d: Direction)
    | Fetch(extra: set<Direction>)
    | Dispatch(taken: set<nat>)
    | DispatchMore(taken: set<nat>)
    | Poll(r: nat)
    | Operate(r: nat, more: bool)
    | ClearReady(r: nat)
    | CancelWait(r: nat)
    | ShutDown

  /** Edge-triggered registrations start out ready in both directions. */
  function Init(readers: seq<(Direction, bool)>): State {
    State({}, {}, {}, {}, {Read, Write}, 0, false, map[],
          seq(|readers|, i requires 0 <= i < |readers| => Reader(readers[i].0, readers[i].1, Idle, 0)))
  }

  function At(s: State, r: nat, pc: Pc): State
    requires r < |s.readers|
  {
    s.(readers := s.readers[r := s.readers[r].(pc := pc)])
  }

  predicate WaitsFor(k: Reader, ds: set<Direction>) {
    k.pc == Linked && k.dir in ds
  }

  /** After a dispatch for `ds`: slot readers of those directions and the listed waiters in
      `taken` have been woken. */
  function Woken(s: State, ds: set<Direction>, taken: set<nat>): seq<Reader> {
    seq(|s.readers|, r requires 0 <= r < |s.readers| =>
      var k := s.readers[r];
      if k.dir in ds && k.dir in s.slot && s.slot[k.dir] == r then k.(pc := Idle, wakes := k.wakes + 1)
      else if r in taken && WaitsFor(k, ds) then k.(pc := Ready, wakes := k.wakes + 1)
      else k)
  }

  predicate AnyWaits(readers: seq<Reader>, ds: set<Direction>) {
    exists r :: 0 <= r < |readers| && WaitsFor(readers[r], ds)
  }

  function DispatchStep(s: State, taken: set<nat>): State {
    if s.fetched == {} || s.dispatching != {} then s
    else
      var readers := Woken(s, s.fetched, taken);
      s.(ready := s.ready + s.fetched, tick := s.tick + 1, fetched := {},
         slot := s.slot - s.fetched, readers := readers,
         dispatching := if AnyWaits(readers, s.fetched) then s.fetched else {})
  }

  function DispatchMoreStep(s: State, taken: set<nat>): State {
    if s.dispatching == {} then s
    else
      var readers := Woken(s.(slot := map[]), s.dispatching, taken);
      s.(readers := readers, dispatching := if AnyWaits(readers, s.dispatching) then s.dispatching else {})
  }

  function PollStep(s: State, r: nat): State
    requires r < |s.readers|
  {
    var k := s.readers[r];
    if k.pc.Got? || k.pc.MustClear? then s
    else if s.shutdown then At(s, r, Refused)
    else if k.listed && k.pc == Ready then At(s, r, Got(s.tick))
    else if k.listed && k.pc == Linked then s
    else if k.dir in s.ready then At(s, r, Got(s.tick))
    else if k.listed then At(s, r, Linked)
    else At(s, r, Parked).(slot := s.slot[k.dir := r])
  }

  function OperateStep(s: State, r: nat, more: bool): State
    requires r < |s.readers|
  {
    var k := s.readers[r];
    if !k.pc.Got? then s
    else if k.dir in s.available then At(s, r, Idle).(available := if more then s.available else s.available - {k.dir})
    else At(s, r, MustClear(k.pc.tick))
  }

  function ClearStep(s: State, r: nat): State
    requires r < |s.readers|
  {
    var k := s.readers[r];
    if !k.pc.MustClear? then s
    else if s.tick != k.pc.tick then At(s, r, Idle)
    else At(s, r, Idle).(ready := s.ready - {k.dir})
  }

  function ShutDownStep(s: State): State {
    s.(shutdown := true, slot := map[],
       readers := Woken(s, {Read, Write}, set r: nat | r < |s.readers| && s.readers[r].pc == Linked))
  }

  function Step(s: State, a: Action): State {
    match a
    case Arrive(d) => s.(available := s.available + {d}, edge := s.edge + {d})
    case Fetch(extra) =>
      if s.fetched == {} && s.dispatching == {} then s.(fetched := s.edge + extra, edge := {}) else s
    case Dispatch(taken) => DispatchStep(s, taken)
    case DispatchMore(taken) => DispatchMoreStep(s, taken)
    case Poll(r) => if r < |s.readers| then PollStep(s, r) else s
    case Operate(r, more) => if r < |s.readers| then OperateStep(s, r, more) else s
    case ClearReady(r) => if r < |s.readers| then ClearStep(s, r) else s
    case CancelWait(r) =>
      if r < |s.readers| && s.readers[r].listed && (s.readers[r].pc == Linked || s.readers[r].pc == Ready) then
        At(s, r, Idle)
      else s
    case ShutDown => ShutDownStep(s)
  }

  function Run(s: State, schedule: seq<Action>): State
    decreases |schedule|
  {
    if schedule == [] then s
    else Step(Run(s, schedule[..|schedule| - 1]), schedule[|schedule| - 1])
  }

  // ---- the invariant --------------------------------------------------------------------

  predicate ReaderOk(s: State, r: nat)
    requires r < |s.readers|
  {
    var k := s.readers[r];
    && (k.pc.Got? ==> k.pc.tick <= s.tick)
    && (k.pc.MustClear? ==> k.pc.tick <= s.tick)
    && (k.pc.MustClear? && k.pc.tick == s.tick && k.dir in s.available ==> k.dir in s.edge + s.fetched)
    && (k.pc == Linked ==> k.listed && !s.shutdown && (k.dir in s.ready ==> k.dir in s.dispatching))
    && (k.pc == Ready ==> k.listed)
    && (k.pc == Parked ==> !k.listed)
  }

  predicate Inv(s: State) {
    && (forall d :: d in s.available ==> d in s.ready + s.edge + s.fetched)
    && (forall d :: d in s.slot ==>
          d !in s.ready && !s.shutdown && s.slot[d] < |s.readers|
          && s.readers[s.slot[d]].dir == d && s.readers[s.slot[d]].pc == Parked)
    && (s.dispatching != {} ==> s.fetched == {})
    && (forall r: nat :: r < |s.readers| ==> ReaderOk(s, r))
  }

  // ---- every step keeps it ----------------------------------------------------------------

  lemma DispatchKeepsReader(s: State, taken: set<nat>, r: nat)
    requires Inv(s) && r < |s.readers| && s.fetched != {} && s.dispatching == {}
    ensures ReaderOk(DispatchStep(s, taken), r)
  {
    var s' := DispatchStep(s, taken);
    assert ReaderOk(s, r);
    assert WaitsFor(s'.readers[r], s.fetched) ==> AnyWaits(s'.readers, s.fetched);
  }

  lemma DispatchKeeps(s: State, taken: set<nat>)
    requires Inv(s)
    ensures Inv(DispatchStep(s, taken))
  {
    var s' := DispatchStep(s, taken);
    if s.fetched != {} && s.dispatching == {} {
      forall r: nat | r < |s'.readers| ensures ReaderOk(s', r) { DispatchKeepsReader(s, taken, r); }
    }
  }

  lemma DispatchMoreKeeps(s: State, taken: set<nat>)
    requires Inv(s)
    ensures Inv(DispatchMoreStep(s, taken))
  {
    var s' := DispatchMoreStep(s, taken);
    if s' != s {
      forall r: nat | r < |s'.readers| ensures ReaderOk(s', r) {
        var k, k' := s.readers[r], s'.readers[r];
        assert ReaderOk(s, r);
        assert k' == k || (k.pc == Linked && k' == k.(pc := Ready, wakes := k.wakes + 1));
        assert WaitsFor(k', s.dispatching) ==> AnyWaits(s'.readers, s.dispatching);
      }
      forall d | d in s.slot ensures s'.readers[s.slot[d]] == s.readers[s.slot[d]] {
        assert s.readers[s.slot[d]].pc == Parked;
      }
    }
  }

  lemma OperateKeeps(s: State, r: nat, more: bool)
    requires Inv(s) && r < |s.readers|
    ensures Inv(OperateStep(s, r, more))
  {
    assert ReaderOk(s, r);
    forall q: nat | q < |s.readers| ensures ReaderOk(OperateStep(s, r, more), q) {
      assert ReaderOk(s, q);
    }
  }

  /** Readiness is dropped only when no event was dispatched since the reader's poll, and
      then whatever arrived after its EAGAIN is still undelivered. */
  lemma ClearKeeps(s: State, r: nat)
    requires Inv(s) && r < |s.readers|
    ensures Inv(ClearStep(s, r))
  {
    assert ReaderOk(s, r);
    forall q: nat | q < |s.readers| ensures ReaderOk(ClearStep(s, r), q) {
      assert ReaderOk(s, q);
    }
  }

  lemma PollKeeps(s: State, r: nat)
    requires Inv(s) && r < |s.readers|
    ensures Inv(PollStep(s, r))
  {
    assert ReaderOk(s, r);
    forall q: nat | q < |s.readers| ensures ReaderOk(PollStep(s, r), q) {
      assert ReaderOk(s, q);
    }
  }

  lemma ShutDownKeeps(s: State)
    requires Inv(s)
    ensures Inv(ShutDownStep(s))
  {
    forall r: nat | r < |s.readers| ensures ReaderOk(ShutDownStep(s), r) {
      assert ReaderOk(s, r);
      assert s.readers[r].dir.Read? || s.readers[r].dir.Write?;
    }
  }

  lemma StepKeeps(s: State, a: Action)
    requires Inv(s)
    ensures Inv(Step(s, a))
  {
    match a
    case Dispatch(taken) => DispatchKeeps(s, taken);
    case DispatchMore(taken) => DispatchMoreKeeps(s, taken);
    case Poll(r) => if r < |s.readers| { PollKeeps(s, r); }
    case Operate(r, more) => if r < |s.readers| { OperateKeeps(s, r, more); }
    case ClearReady(r) => if r < |s.readers| { ClearKeeps(s, r); }
    case ShutDown => ShutDownKeeps(s);
    case _ =>
      forall r: nat | r < |s.readers| ensures ReaderOk(Step(s, a), r) { assert ReaderOk(s, r); }
  }

  lemma {:induction false} RunKeeps(readers: seq<(Direction, bool)>, schedule: seq<Action>)
    ensures Inv(Run(Init(readers), schedule))
    decreases |schedule|
  {
    if schedule != [] {
      RunKeeps(readers, schedule[..|schedule| - 1]);
      StepKeeps(Run(Init(readers), schedule[..|schedule| - 1]), schedule[|schedule| - 1]);
    }
  }

  // ---- what it means ----------------------------------------------------------------------

  // Reachable's definition is used only where `Unfold(Fold)` is mentioned.
  datatype Fold = Fold
  ghost predicate Unfold(f: Fold) { true }

  /** Some schedule, with any readers, leads to s. */
  ghost predicate Reachable(s: State) {
    forall f: Fold {:trigger Unfold(f)} :: Unfold(f) ==>
      exists readers, schedule :: s == Run(Init(readers), schedule)
  }

  lemma ReachableOk(s: State)
    requires Reachable(s)
    ensures Inv(s)
  {
    assert Unfold(Fold);
    var readers, schedule :| s == Run(Init(readers), schedule);
    RunKeeps(readers, schedule);
  }

  predicate Waiting(s: State, r: nat)
    requires r < |s.readers|
  {
    var k := s.readers[r];
    if k.listed then k.pc == Linked else k.dir in s.slot && s.slot[k.dir] == r
  }

  /** Readiness is never lost. Whenever a direction is available, its flag is set or an event
      for it is still undelivered. A reader whose waker is stored or that is linked, while
      its direction is available, has an event on its way to wake it: one the kernel still
      holds, one already fetched, or one whose dispatch has not finished. */
  lemma ReadinessIsNotLost(s: State)
    requires Reachable(s)
    ensures forall d :: d in s.available ==> d in s.ready + s.edge + s.fetched
    ensures forall r: nat :: r < |s.readers| && Waiting(s, r) ==>
              && !s.shutdown
              && (s.readers[r].dir in s.available ==> s.readers[r].dir in s.edge + s.fetched + s.dispatching)
  {
    ReachableOk(s);
    forall r: nat | r < |s.readers| && Waiting(s, r)
      ensures !s.shutdown
      ensures s.readers[r].dir in s.available ==> s.readers[r].dir in s.edge + s.fetched + s.dispatching
    {
      assert ReaderOk(s, r);
    }
  }

  /** And the event wakes it: a dispatch wakes the slot's reader of each direction it
      reports, and ends only when no listed waiter of those directions is left linked. So
      does shutdown, for every reader that waits. */
  lemma DispatchWakesWaiters(s: State, a: Action, r: nat)
    requires Reachable(s) && r < |s.readers| && Waiting(s, r)
    requires match a
             case Dispatch(_) => s.readers[r].dir in s.fetched && s.dispatching == {}
             case DispatchMore(_) => s.readers[r].listed && s.readers[r].dir in s.dispatching
             case ShutDown => true
             case _ => false
    ensures var s' := Step(s, a);
            && |s'.readers| == |s.readers|
            && (s'.readers[r].wakes == s.readers[r].wakes + 1
                || (s.readers[r].listed && Waiting(s', r) && s.readers[r].dir in s'.dispatching))
  {
    ReachableOk(s);
    var s' := Step(s, a);
    assert ReaderOk(s, r);
    if a.Dispatch? || a.DispatchMore? {
      var ds := if a.Dispatch? then s.fetched else s.dispatching;
      assert WaitsFor(s'.readers[r], ds) ==> AnyWaits(s'.readers, ds);
    } else {
      assert s.readers[r].dir.Read? || s.readers[r].dir.Write?;
    }
  }
}
