/** Lifetime of I/O registrations (src/runtime/io_driver.cpp): the driver's turn fetches
    raw pointers to registrations from the poller, while any thread may add or
    deregister, a waker running inside the dispatch included (it counts as one more
    thread here). A step is one critical section or one poller call. `fault` records that
    a step touched, or released, a registration that had been freed. */
module IoLifetime {

  datatype Pc =
    | Quiet
    | Link(id: nat)        // add: in the poller, about to be linked, m_registrations_mutex held
    | Unlink(id: nat)      // deregister: out of the poller, about to be unlinked
    | Clear(id: nat)       // about to drop its wakers
    | Queue(id: nat)       // about to be pushed to m_pending_release

  datatype Turn =
    | NoTurn
    | Release(ids: set<nat>)    // swapped out of m_pending_release, about to be destroyed
    | Poll
    | Batch(events: seq<nat>)   // fetched, the rest still to be dispatched
    | WaitLock                  // shutdown: holds the turn, about to lock the registrations
    | Walk(rest: set<nat>)      // shutdown: m_registrations_mutex held, the rest of the list still to be visited

  datatype State = State(next: nat, owned: set<nat>, polled: set<nat>, linked: set<nat>,
                         pending: set<nat>, freed: set<nat>, closed: bool,
                         threads: seq<Pc>, turn: Turn, fault: bool)

  datatype Action =
    | Add(t: nat)
    | Deregister(t: nat, id: nat)
    | Advance(t: nat)
    | StartTurn(seen: bool)        // `seen`: the relaxed pending count was read as non-zero
    | StartShutdown
    | AdvanceTurn(events: seq<nat>)  // what the poll returns, or the registration the walk visits next

  function Init(n: nat): State {
    State(0, {}, {}, {}, {}, {}, false, seq(n, _ => Quiet), NoTurn, false)
  }

  /** Nobody holds m_registrations_mutex. */
  predicate Unlocked(s: State) {
    && !s.turn.Walk?
    && (forall t :: 0 <= t < |s.threads| ==> !s.threads[t].Link?)
  }

  function At(s: State, t: nat, pc: Pc): State
    requires t < |s.threads|
  {
    s.(threads := s.threads[t := pc])
  }

  /** Touches the registrations in `ids`. */
  function Touch(s: State, ids: set<nat>): State {
    s.(fault := s.fault || ids * s.freed != {})
  }

  function AdvanceStep(s: State, t: nat): State
    requires t < |s.threads|
  {
    match s.threads[t]
    case Quiet => s
    case Link(id) => Touch(At(s, t, Quiet), s.linked + {id}).(linked := s.linked + {id}, owned := s.owned + {id})
    case Unlink(id) =>
      if Unlocked(s) then Touch(At(s, t, Clear(id)), s.linked + {id}).(linked := s.linked - {id}) else s
    case Clear(id) => Touch(At(s, t, Queue(id)), {id})
    case Queue(id) => At(s, t, Quiet).(pending := s.pending + {id})
  }

  function TurnStep(s: State, events: seq<nat>): State {
    match s.turn
    case NoTurn => s
    case Release(ids) => Touch(s, ids).(freed := s.freed + ids, turn := Poll)
    case Poll => if forall e :: e in events ==> e in s.polled then s.(turn := Batch(events)) else s
    case Batch(es) =>
      if es == [] then s.(turn := NoTurn)
      else Touch(s, {es[0]}).(turn := Batch(es[1..]))
    case WaitLock =>
      if !Unlocked(s) then s
      else if s.closed then s.(turn := NoTurn)
      else s.(closed := true, turn := Walk(s.linked))
    case Walk(rest) =>
      if rest == {} then s.(turn := NoTurn)
      else if |events| == 1 && events[0] in rest then Touch(s, {events[0]}).(turn := Walk(rest - {events[0]}))
      else s
  }

  function Step(s: State, a: Action): State {
    match a
    case Add(t) =>
      if t < |s.threads| && s.threads[t] == Quiet && Unlocked(s) && !s.closed then
        At(s, t, Link(s.next)).(next := s.next + 1, polled := s.polled + {s.next})
      else s
    case Deregister(t, id) =>
      if t < |s.threads| && s.threads[t] == Quiet && id in s.owned then
        At(s, t, Unlink(id)).(owned := s.owned - {id}, polled := s.polled - {id})
      else s
    case Advance(t) => if t < |s.threads| then AdvanceStep(s, t) else s
    case StartTurn(seen) =>
      if s.turn == NoTurn then
        if seen then s.(turn := Release(s.pending), pending := {}) else s.(turn := Poll)
      else s
    case StartShutdown => if s.turn == NoTurn then s.(turn := WaitLock) else s
    case AdvanceTurn(events) => TurnStep(s, events)
  }

  function Run(s: State, schedule: seq<Action>): State
    decreases |schedule|
  {
    if schedule == [] then s
    else Step(Run(s, schedule[..|schedule| - 1]), schedule[|schedule| - 1])
  }

  // ---- the invariant --------------------------------------------------------------------

  predicate Holds(p: Pc, id: nat) {
    !p.Quiet? && p.id == id
  }

  function Releasing(s: State): set<nat> {
    if s.turn.Release? then s.turn.ids else {}
  }

  /** Past the point of use: owned by no one but the release machinery. */
  function Dying(s: State): set<nat> {
    s.pending + Releasing(s) + s.freed
  }

  predicate ThreadOk(s: State, t: nat)
    requires t < |s.threads|
  {
    var p := s.threads[t];
    !p.Quiet? ==>
      && p.id < s.next && p.id !in s.owned && p.id !in Dying(s)
      && (p.id in s.polled <==> p.Link?)
      && (p.id in s.linked <==> p.Unlink?)
      && (forall u :: 0 <= u < |s.threads| && u != t ==> !Holds(s.threads[u], p.id))
  }

  predicate InHand(s: State, p: Pc) {
    exists t :: 0 <= t < |s.threads| && s.threads[t] == p
  }

  predicate Inv(s: State) {
    && !s.fault
    && (forall id :: id in s.owned ==> id < s.next && id !in Dying(s) && id in s.polled && id in s.linked)
    && (forall id :: id in s.polled ==> id < s.next && id !in Dying(s) && (id in s.owned || InHand(s, Link(id))))
    && (forall id :: id in s.linked ==> id < s.next && id !in Dying(s) && (id in s.owned || InHand(s, Unlink(id))))
    && (forall id :: id in Dying(s) ==> id < s.next)
    && s.pending * Releasing(s) == {} && s.pending * s.freed == {} && Releasing(s) * s.freed == {}
    && (forall t: nat :: t < |s.threads| ==> ThreadOk(s, t))
    && (s.turn.Batch? ==> forall e :: e in s.turn.events ==> e !in s.freed)
    && (s.turn.Walk? ==> s.turn.rest <= s.linked)
  }

  // ---- every step keeps it ----------------------------------------------------------------

  /** The turn's own steps leave the threads alone, and the lists. */
  lemma TurnKeeps(s: State, events: seq<nat>)
    requires Inv(s)
    ensures Inv(TurnStep(s, events))
  {
    if s.turn.Release? { ReleaseKeeps(s, events); } else { OtherTurnKeeps(s, events); }
  }

  lemma ReleaseKeeps(s: State, events: seq<nat>)
    requires Inv(s) && s.turn.Release?
    ensures Inv(TurnStep(s, events))
  {
    var s' := TurnStep(s, events);
    SameHands(s, s');
    assert Dying(s') == Dying(s);
    forall t: nat | t < |s.threads| ensures ThreadOk(s', t) { assert ThreadOk(s, t); }
  }

  lemma OtherTurnKeeps(s: State, events: seq<nat>)
    requires Inv(s) && !s.turn.Release?
    ensures Inv(TurnStep(s, events))
  {
    var s' := TurnStep(s, events);
    SameHands(s, s');
    assert Dying(s') == Dying(s);
    forall t: nat | t < |s.threads| ensures ThreadOk(s', t) { assert ThreadOk(s, t); }
  }

  lemma SameHands(s: State, s': State)
    requires s'.threads == s.threads
    ensures forall p :: InHand(s, p) ==> InHand(s', p)
  {
    forall p | InHand(s, p) ensures InHand(s', p) {
      var t :| 0 <= t < |s.threads| && s.threads[t] == p;
      assert s'.threads[t] == p;
    }
  }

  lemma StartKeeps(s: State, a: Action)
    requires Inv(s) && (a.StartTurn? || a.StartShutdown?)
    ensures Inv(Step(s, a))
  {
    var s' := Step(s, a);
    SameHands(s, s');
    assert Dying(s') == Dying(s);
    forall t: nat | t < |s.threads| ensures ThreadOk(s', t) { assert ThreadOk(s, t); }
  }

  /** When only thread t moved, what the others hold stays in hand. */
  lemma OtherHands(s: State, s': State, t: nat)
    requires t < |s.threads| == |s'.threads| && s'.threads == s.threads[t := s'.threads[t]]
    ensures forall p :: InHand(s, p) && p != s.threads[t] ==> InHand(s', p)
    ensures InHand(s', s'.threads[t])
  {
    forall p | InHand(s, p) && p != s.threads[t] ensures InHand(s', p) {
      var u :| 0 <= u < |s.threads| && s.threads[u] == p;
      assert s'.threads[u] == p;
    }
  }

  lemma NotHeld(s: State, id: nat)
    requires Inv(s) && (id in s.owned || id >= s.next)
    ensures forall u :: 0 <= u < |s.threads| ==> !Holds(s.threads[u], id)
  {
    forall u: nat | u < |s.threads| ensures !Holds(s.threads[u], id) { assert ThreadOk(s, u); }
  }

  lemma AddKeeps(s: State, t: nat)
    requires Inv(s)
    ensures Inv(Step(s, Add(t)))
  {
    var s' := Step(s, Add(t));
    if s' != s {
      OtherHands(s, s', t);
      NotHeld(s, s.next);
      assert Dying(s') == Dying(s);
      forall u: nat | u < |s'.threads| ensures ThreadOk(s', u) { assert ThreadOk(s, u); }
    }
  }

  lemma DeregisterKeeps(s: State, t: nat, id: nat)
    requires Inv(s)
    ensures Inv(Step(s, Deregister(t, id)))
  {
    var s' := Step(s, Deregister(t, id));
    if s' != s {
      OtherHands(s, s', t);
      NotHeld(s, id);
      assert Dying(s') == Dying(s);
      forall u: nat | u < |s'.threads| ensures ThreadOk(s', u) { assert ThreadOk(s, u); }
    }
  }

  lemma LinkKeeps(s: State, t: nat)
    requires Inv(s) && t < |s.threads| && s.threads[t].Link?
    ensures Inv(AdvanceStep(s, t))
  {
    var s' := AdvanceStep(s, t);
    assert ThreadOk(s, t);
    OtherHands(s, s', t);
    assert Dying(s') == Dying(s);
    forall u: nat | u < |s'.threads| ensures ThreadOk(s', u) { assert ThreadOk(s, u); }
  }

  lemma UnlinkKeeps(s: State, t: nat)
    requires Inv(s) && t < |s.threads| && s.threads[t].Unlink? && Unlocked(s)
    ensures Inv(AdvanceStep(s, t))
  {
    var s' := AdvanceStep(s, t);
    assert ThreadOk(s, t);
    OtherHands(s, s', t);
    assert Dying(s') == Dying(s);
    forall u: nat | u < |s'.threads| ensures ThreadOk(s', u) { assert ThreadOk(s, u); }
  }

  lemma ClearKeeps(s: State, t: nat)
    requires Inv(s) && t < |s.threads| && s.threads[t].Clear?
    ensures Inv(AdvanceStep(s, t))
  {
    var s' := AdvanceStep(s, t);
    assert ThreadOk(s, t);
    OtherHands(s, s', t);
    assert Dying(s') == Dying(s);
    forall u: nat | u < |s'.threads| ensures ThreadOk(s', u) { assert ThreadOk(s, u); }
  }

  lemma QueueKeeps(s: State, t: nat)
    requires Inv(s) && t < |s.threads| && s.threads[t].Queue?
    ensures Inv(AdvanceStep(s, t))
  {
    var s' := AdvanceStep(s, t);
    assert ThreadOk(s, t);
    OtherHands(s, s', t);
    assert Dying(s') == Dying(s) + {s.threads[t].id};
    forall u: nat | u < |s'.threads| ensures ThreadOk(s', u) {
      assert ThreadOk(s, u);
      assert u != t ==> !Holds(s.threads[u], s.threads[t].id);
    }
  }

  lemma AdvanceKeeps(s: State, t: nat)
    requires Inv(s) && t < |s.threads|
    ensures Inv(AdvanceStep(s, t))
  {
    match s.threads[t]
    case Quiet =>
    case Link(_) => LinkKeeps(s, t);
    case Unlink(_) => if Unlocked(s) { UnlinkKeeps(s, t); }
    case Clear(_) => ClearKeeps(s, t);
    case Queue(_) => QueueKeeps(s, t);
  }

  lemma StepKeeps(s: State, a: Action)
    requires Inv(s)
    ensures Inv(Step(s, a))
  {
    match a
    case Add(t) => AddKeeps(s, t);
    case Deregister(t, id) => DeregisterKeeps(s, t, id);
    case Advance(t) => if t < |s.threads| { AdvanceKeeps(s, t); }
    case StartTurn(seen) => StartKeeps(s, a);
    case StartShutdown => StartKeeps(s, a);
    case AdvanceTurn(events) => TurnKeeps(s, events);
  }

  lemma {:induction false} RunKeeps(n: nat, schedule: seq<Action>)
    ensures Inv(Run(Init(n), schedule))
    decreases |schedule|
  {
    if schedule != [] {
      RunKeeps(n, schedule[..|schedule| - 1]);
      StepKeeps(Run(Init(n), schedule[..|schedule| - 1]), schedule[|schedule| - 1]);
    }
  }

  // ---- what it means ----------------------------------------------------------------------

  /** No event in a fetched batch names a freed registration, nothing linked where shutdown
      walks has been freed, and no step ever touches or releases a freed one, however
      registrations come and go on other threads. */
  lemma NothingFreedIsTouched(n: nat, schedule: seq<Action>)
    ensures var s := Run(Init(n), schedule);
            && !s.fault
            && (s.turn.Batch? ==> forall e :: e in s.turn.events ==> e !in s.freed)
            && s.linked * s.freed == {} && s.polled * s.freed == {} && s.owned * s.freed == {}
  {
    RunKeeps(n, schedule);
  }
}
