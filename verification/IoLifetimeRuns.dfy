/** No registration leaks: each is accounted for in every run, and is freed when the threads that
    have it in hand, and then a turn of the driver, are left alone. */
module IoLifetimeRuns {
  import opened IoLifetime

  // ---- each registration is somewhere --------------------------------------------------------

  predicate Held(s: State, id: nat) {
    exists t :: 0 <= t < |s.threads| && Holds(s.threads[t], id)
  }

  /** Every registration made so far is owned, in the hands of a thread that is adding or
      deregistering it, waiting to be released, being released, or freed. */
  predicate Accounted(s: State) {
    forall id: nat :: id < s.next ==> id in s.owned || Held(s, id) || id in Dying(s)
  }

  /** When only thread t moved, what the others hold is still held. */
  lemma StillHeld(s: State, s': State, t: nat, id: nat)
    requires t < |s.threads| == |s'.threads| && s'.threads == s.threads[t := s'.threads[t]] && Held(s, id)
    ensures Held(s', id) || Holds(s.threads[t], id)
  {
    var u :| 0 <= u < |s.threads| && Holds(s.threads[u], id);
    if u != t { assert Holds(s'.threads[u], id); }
  }

  lemma ThreadAccounts(s: State, a: Action)
    requires Inv(s) && Accounted(s) && (a.Add? || a.Deregister? || a.Advance?)
    ensures Accounted(Step(s, a))
  {
    var s' := Step(s, a);
    if s' != s {
      forall id: nat | id < s'.next ensures id in s'.owned || Held(s', id) || id in Dying(s') {
        if Holds(s'.threads[a.t], id) {
        } else if id < s.next && Held(s, id) {
          StillHeld(s, s', a.t, id);
        }
      }
    }
  }

  lemma TurnAccounts(s: State, a: Action)
    requires Inv(s) && Accounted(s) && (a.StartTurn? || a.StartShutdown? || a.AdvanceTurn?)
    ensures Accounted(Step(s, a))
  {
    var s' := Step(s, a);
    forall id: nat | id < s'.next ensures id in s'.owned || Held(s', id) || id in Dying(s') {
      if u :| 0 <= u < |s.threads| && Holds(s.threads[u], id) { assert Holds(s'.threads[u], id); }
    }
  }

  /** In every run each registration is in exactly one of those places: none is lost, and with
      what the invariant says none is in two. */
  lemma {:induction false} NothingLeaks(n: nat, schedule: seq<Action>)
    ensures Inv(Run(Init(n), schedule)) && Accounted(Run(Init(n), schedule))
    decreases |schedule|
  {
    RunKeeps(n, schedule);
    if schedule != [] {
      var before, a := schedule[..|schedule| - 1], schedule[|schedule| - 1];
      NothingLeaks(n, before);
      if a.Add? || a.Deregister? || a.Advance? {
        ThreadAccounts(Run(Init(n), before), a);
      } else {
        TurnAccounts(Run(Init(n), before), a);
      }
    }
  }

  // ---- what a fault is, and the list's mutex ------------------------------------------------------

  /** The registrations that an action looks into, links, unlinks or destroys. Linking and
      unlinking look into their neighbours in the list. */
  function Touched(s: State, a: Action): set<nat> {
    match a
    case Advance(t) =>
      if t >= |s.threads| then {}
      else
        (match s.threads[t]
         case Link(id) => s.linked + {id}
         case Unlink(id) => if Unlocked(s) then s.linked + {id} else {}
         case Clear(id) => {id}
         case _ => {})
    case AdvanceTurn(events) =>
      (match s.turn
       case Release(ids) => ids
       case Batch(es) => if es == [] then {} else {es[0]}
       case Walk(rest) => if |events| == 1 && events[0] in rest then {events[0]} else {}
       case _ => {})
    case _ => {}
  }

  /** A fault is recorded if and only if an action touches a registration that has been freed. */
  lemma FaultsAreSeen(s: State, a: Action)
    ensures Step(s, a).fault <==> s.fault || exists id :: id in Touched(s, a) && id in s.freed
  {
    FaultsAre(s, a);
    var both := Touched(s, a) * s.freed;
    if id :| id in Touched(s, a) && id in s.freed { assert id in both; }
    if id :| id in both { assert id in Touched(s, a); }
  }

  lemma FaultsAre(s: State, a: Action)
    ensures Step(s, a).fault <==> s.fault || Touched(s, a) * s.freed != {}
  {
  }

  /** Thread t is linking, and so holds the list's mutex. */
  predicate Locks(s: State, t: nat) {
    t < |s.threads| && s.threads[t].Link?
  }

  /** The list's mutex has one holder at most: a thread that links, or shutdown's walk. */
  ghost predicate OneHolder(s: State) {
    && (forall t: nat, u: nat :: Locks(s, t) && Locks(s, u) ==> t == u)
    && (s.turn.Walk? ==> forall t: nat :: !Locks(s, t))
  }

  lemma StepLocks(s: State, a: Action)
    requires OneHolder(s)
    ensures OneHolder(Step(s, a))
  {
    var s' := Step(s, a);
    forall t: nat | Locks(s', t) ensures Locks(s, t) || (a == Add(t) && forall u: nat :: !Locks(s, u)) {}
    assert s'.turn.Walk? ==> s.turn.Walk? || forall t: nat :: !Locks(s, t);
  }

  /** In every run at most one thread changes or walks the list of registrations at a time. */
  lemma {:induction false} ListIsLocked(n: nat, schedule: seq<Action>)
    ensures OneHolder(Run(Init(n), schedule))
    decreases |schedule|
  {
    if schedule != [] {
      ListIsLocked(n, schedule[..|schedule| - 1]);
      StepLocks(Run(Init(n), schedule[..|schedule| - 1]), schedule[|schedule| - 1]);
    }
  }

  // ---- a thread left alone ------------------------------------------------------------------------

  function Alone(a: Action, k: nat): seq<Action> {
    seq(k, _ => a)
  }

  lemma {:induction false} AloneFirst(s: State, a: Action, k: nat)
    ensures Run(s, Alone(a, 0)) == s
    ensures Run(s, Alone(a, k + 1)) == Run(Step(s, a), Alone(a, k))
  {
    assert Alone(a, k + 1)[..k] == Alone(a, k);
    if k > 0 {
      AloneFirst(s, a, k - 1);
      assert Alone(a, k)[..k - 1] == Alone(a, k - 1);
    }
  }

  /** Thread t is done: the registration it was adding is owned and linked, the one it was
      deregistering is out of the list and waits to be released. */
  predicate Done(s: State, e: State, t: nat)
    requires t < |s.threads| && s.threads[t] != Quiet
  {
    var id := s.threads[t].id;
    && e.threads == s.threads[t := Quiet] && e.polled == s.polled && e.next == s.next
    && (if s.threads[t].Link? then id in e.owned && id in e.linked && e.pending == s.pending
        else id !in e.linked && id in e.pending && e.owned == s.owned)
  }

  function Rank(p: Pc): nat {
    match p
    case Unlink(_) => 3
    case Clear(_) => 2
    case _ => 1
  }

  /** The list's mutex is free for thread t. */
  predicate FreeFor(s: State, t: nat) {
    !s.turn.Walk? && forall u :: 0 <= u < |s.threads| && u != t ==> !s.threads[u].Link?
  }

  /** An add or a deregistration that is left alone, with the list's mutex free for it, is
      completed. */
  lemma {:induction false} ThreadFinishes(s: State, t: nat)
    requires Inv(s) && t < |s.threads| && s.threads[t] != Quiet && FreeFor(s, t)
    ensures exists k: nat :: Done(s, Run(s, Alone(Advance(t), k)), t)
    decreases Rank(s.threads[t])
  {
    var a := Advance(t);
    var s1 := Step(s, a);
    AdvanceKeeps(s, t);
    assert ThreadOk(s, t);
    assert s.threads[t].Unlink? ==> Unlocked(s);
    if s1.threads[t] == Quiet {
      AloneFirst(s, a, 0);
      AloneFirst(s1, a, 0);
      assert Done(s, Run(s, Alone(a, 1)), t);
    } else {
      assert FreeFor(s1, t);
      ThreadFinishes(s1, t);
      var k: nat :| Done(s1, Run(s1, Alone(a, k)), t);
      AloneFirst(s, a, k);
      assert Done(s, Run(s, Alone(a, k + 1)), t);
    }
  }

  /** A registration is added under a new name, by a thread that then links it, if and only if
      the driver is open and the list's mutex free; an owned one leaves its owner and the
      poller to be deregistered. */
  lemma CallsStart(s: State, t: nat, id: nat)
    requires Inv(s) && t < |s.threads| && s.threads[t] == Quiet
    ensures var s' := Step(s, Add(t));
            && (s'.threads[t] == Link(s.next) <==> Unlocked(s) && !s.closed)
            && (s'.threads[t] == Link(s.next) ==> s'.next == s.next + 1 && s'.polled == s.polled + {s.next})
            && (s'.threads[t] != Link(s.next) ==> s' == s)
    ensures id in s.owned ==>
              var s' := Step(s, Deregister(t, id));
              s'.threads[t] == Unlink(id) && id !in s'.owned && id !in s'.polled
  {
    assert ThreadOk(s, t);
  }

  // ---- a turn left alone ---------------------------------------------------------------------------

  /** The steps of one turn from `turn` on, given what its poll returns. */
  lemma {:induction false} BatchEnds(s: State)
    requires Inv(s) && s.turn.Batch?
    ensures var e := Run(s, Alone(AdvanceTurn([]), |s.turn.events| + 1)); e == s.(turn := NoTurn)
    decreases |s.turn.events|
  {
    var s1 := Step(s, AdvanceTurn([]));
    AloneFirst(s, AdvanceTurn([]), |s.turn.events|);
    AloneFirst(s1, AdvanceTurn([]), 0);
    if s.turn.events != [] {
      TurnKeeps(s, []);
      assert s1.turn == Batch(s.turn.events[1..]);
      assert s1.(turn := NoTurn) == s.(turn := NoTurn);
      BatchEnds(s1);
    }
  }

  /** A turn that sees the pending count frees everything that waits to be released before it
      polls; and the events its poll returns are the batch it then dispatches, to the end. */
  lemma TurnFrees(s: State, events: seq<nat>)
    requires Inv(s) && s.turn == NoTurn && forall e :: e in events ==> e in s.polled
    ensures var m := Step(Step(s, StartTurn(true)), AdvanceTurn([]));
            && m == s.(turn := Poll, pending := {}, freed := s.freed + s.pending)
            && (var b := Step(m, AdvanceTurn(events));
                && b == m.(turn := Batch(events))
                && Run(b, Alone(AdvanceTurn([]), |events| + 1)) == m.(turn := NoTurn))
    ensures Step(s, StartTurn(false)) == s.(turn := Poll)
  {
    var m := Step(Step(s, StartTurn(true)), AdvanceTurn([]));
    StepKeeps(s, StartTurn(true));
    StepKeeps(Step(s, StartTurn(true)), AdvanceTurn([]));
    var b := Step(m, AdvanceTurn(events));
    StepKeeps(m, AdvanceTurn(events));
    BatchEnds(b);
  }

  /** Shutdown, once it has the list's mutex, closes the driver and walks over exactly the
      registrations that are linked, one by one and each once, before it ends; a second one
      ends at once. */
  lemma ShutdownWalks(s: State, id: nat)
    requires Inv(s)
    ensures s.turn == NoTurn ==> Step(s, StartShutdown).turn == WaitLock
    ensures s.turn == WaitLock && Unlocked(s) ==>
              Step(s, AdvanceTurn([])) == (if s.closed then s.(turn := NoTurn)
                                           else s.(closed := true, turn := Walk(s.linked)))
    ensures s.turn.Walk? ==>
              && (Step(s, AdvanceTurn([])).turn == NoTurn <==> s.turn.rest == {})
              && (id in s.turn.rest ==> Step(s, AdvanceTurn([id])).turn == Walk(s.turn.rest - {id}))
              && (id !in s.turn.rest && s.turn.rest != {} ==> Step(s, AdvanceTurn([id])) == s)
  {
  }
}
