/** What a worker or a notification of the work-stealing executor achieves when it is left
    alone, whatever the others are in the middle of. */
module ParkingAlone {
  import opened Parking

  lemma {:induction false} RunFirst(s: State, a: Action, rest: seq<Action>)
    ensures Run(s, [a] + rest) == Run(Step(s, a), rest)
    decreases |rest|
  {
    var all := [a] + rest;
    var n := |rest|;
    if n == 0 {
      assert all[..n] == [];
    } else {
      RunFirst(s, a, rest[..n - 1]);
      assert all[..n] == [a] + rest[..n - 1] && all[n] == rest[n - 1];
    }
  }

  // ---- a worker -----------------------------------------------------------------------------

  /** On its way from its queues to a block, or back from one to the loop. */
  predicate OnItsWay(p: Pc) {
    p == SearchEnd(false) || p.MarkIdle? || p.LocalCheck? || p.InjectCheck? || p.PeerCheck? || p == FoundWork
    || p == ParkEnter || p == Hook || p.Dispatch? || p == CvEnter || p == CvWoken || p == ParkExit || p == ClearIdle
  }

  /** The steps that a worker on its way takes. */
  predicate OwnAction(a: Action, w: nat) {
    a == MarkStep(w) || a == LookStep(w) || a == ParkStep(w) || a == EndTurnStep(w)
  }

  function NextOf(p: Pc, w: nat): Action {
    match p
    case SearchEnd(_) => MarkStep(w)
    case MarkIdle(_) => MarkStep(w)
    case FoundWork => MarkStep(w)
    case ClearIdle => MarkStep(w)
    case LocalCheck(_) => LookStep(w)
    case InjectCheck(_) => LookStep(w)
    case PeerCheck(_) => LookStep(w)
    case Dispatch(_, _) => EndTurnStep(w)
    case _ => ParkStep(w)
  }

  /** What can be seen of worker w. */
  datatype Seen = Seen(pc: Pc, park: ParkState, turn: int, idle: bool, searching: int, signal: bool)

  function See(s: State, w: nat): Seen
    requires Sized(s) && w < |s.pcs|
  {
    Seen(s.pcs[w], s.park[w], s.turn, w in s.idle, s.searching, s.signal)
  }

  /** There is a task that the checks still ahead of worker w will find. */
  predicate WillFind(s: State, w: nat)
    requires Sized(s) && w < |s.pcs|
  {
    match s.pcs[w]
    case SearchEnd(_) => s.local[w] > 0 || s.injected > 0 || (s.searching == 1 && PeerHasTasks(s, w))
    case MarkIdle(last) => s.local[w] > 0 || s.injected > 0 || (last && PeerHasTasks(s, w))
    case LocalCheck(last) => s.local[w] > 0 || s.injected > 0 || (last && PeerHasTasks(s, w))
    case InjectCheck(last) => s.injected > 0 || (last && PeerHasTasks(s, w))
    case PeerCheck(last) => last && PeerHasTasks(s, w)
    case FoundWork => true
    case _ => false
  }

  /** Where worker w ends up. It goes back to the loop if a check finds a task or a token is
      banked for it, or if it is leaving a driver turn; otherwise it polls the driver if the
      turn is free or its own, and waits on its condvar if another worker has it. */
  function Destination(s: State, w: nat): Seen
    requires Sized(s) && w < |s.pcs|
  {
    var p, now := s.pcs[w], See(s, w);
    var looked := if p.SearchEnd? then now.(searching := s.searching - 1) else now;
    if WillFind(s, w) then looked.(pc := Busy, idle := false)
    else
      match p
      case Dispatch(reset, parked) =>
        var done := now.(pc := Busy, turn := -1, signal := s.signal && !reset);
        if parked then done.(park := Empty, idle := false) else done
      case ParkExit => now.(pc := Busy, park := Empty, idle := false)
      case ClearIdle => now.(pc := Busy, idle := false)
      case _ =>
        if s.park[w] == Notified then
          looked.(pc := Busy, park := Empty, idle := false, turn := if s.turn == w then -1 else s.turn)
        else if p != CvEnter && p != CvWoken && (s.turn == -1 || s.turn == w) then
          looked.(pc := InPoll, park := ParkedDriver, idle := true, turn := w)
        else looked.(pc := CvWait, park := ParkedCondvar, idle := true)
  }

  function Rank(p: Pc): nat {
    match p
    case SearchEnd(_) => 12
    case MarkIdle(_) => 11
    case LocalCheck(_) => 10
    case InjectCheck(_) => 9
    case PeerCheck(_) => 8
    case ParkEnter => 7
    case Dispatch(reset, _) => if reset then 6 else 5
    case Hook => 6
    case CvEnter => 6
    case CvWoken => 6
    case ParkExit => 4
    case _ => 1
  }

  /** The step leads on to the same place, nearer to it, or is the last. */
  ghost predicate LeadsOn(s: State, s1: State, w: nat) {
    forall f: Fold {:trigger Unfold(f)} :: Unfold(f) ==>
      && Sized(s) && w < |s.pcs| && Sized(s1) && w < |s1.pcs|
      && Destination(s, w) == (if OnItsWay(s1.pcs[w]) then Destination(s1, w) else See(s1, w))
      && (OnItsWay(s1.pcs[w]) ==> Rank(s1.pcs[w]) < Rank(s.pcs[w]))
  }

  lemma SamePeers(s: State, s': State, w: nat)
    requires |s'.local| == |s.local| && forall v :: 0 <= v < |s.local| && v != w ==> s'.local[v] == s.local[v]
    ensures PeerHasTasks(s, w) <==> PeerHasTasks(s', w)
  {
    if v :| 0 <= v < |s.local| && v != w && s.local[v] > 0 { assert s'.local[v] > 0; }
    if v :| 0 <= v < |s.local| && v != w && s'.local[v] > 0 { assert s.local[v] > 0; }
  }

  lemma MarkLeadsOn(s: State, w: nat)
    requires Sized(s) && w < |s.pcs| && WorkerOk(s, w) && (s.pcs[w] == SearchEnd(false) || s.pcs[w].MarkIdle?)
    ensures LeadsOn(s, Mark(s, w), w)
  {
    SamePeers(s, Mark(s, w), w);
  }

  lemma ClearLeadsOn(s: State, w: nat)
    requires Sized(s) && w < |s.pcs| && WorkerOk(s, w) && (s.pcs[w] == FoundWork || s.pcs[w] == ClearIdle)
    ensures LeadsOn(s, Mark(s, w), w)
  {
  }

  lemma LocalLeadsOn(s: State, w: nat)
    requires Sized(s) && w < |s.pcs| && WorkerOk(s, w) && s.pcs[w].LocalCheck?
    ensures LeadsOn(s, Look(s, w), w)
  {
    SamePeers(s, Look(s, w), w);
  }

  lemma InjectLeadsOn(s: State, w: nat)
    requires Sized(s) && w < |s.pcs| && WorkerOk(s, w) && s.pcs[w].InjectCheck?
    ensures LeadsOn(s, Look(s, w), w)
  {
    SamePeers(s, Look(s, w), w);
  }

  lemma PeersLeadOn(s: State, w: nat)
    requires Sized(s) && w < |s.pcs| && WorkerOk(s, w) && s.pcs[w].PeerCheck?
    ensures LeadsOn(s, Look(s, w), w)
  {
  }

  lemma EnterLeadsOn(s: State, w: nat)
    requires Sized(s) && w < |s.pcs| && WorkerOk(s, w) && s.pcs[w] == ParkEnter
    ensures LeadsOn(s, Park(s, w), w)
  {
  }

  lemma HookLeadsOn(s: State, w: nat)
    requires Sized(s) && w < |s.pcs| && WorkerOk(s, w) && s.pcs[w] == Hook
    ensures LeadsOn(s, Park(s, w), w)
  {
  }

  lemma SlowLeadsOn(s: State, w: nat)
    requires Sized(s) && w < |s.pcs| && WorkerOk(s, w)
    requires s.pcs[w] == CvEnter || s.pcs[w] == CvWoken || s.pcs[w] == ParkExit
    ensures LeadsOn(s, ParkSlow(s, w), w)
  {
  }

  lemma EndTurnLeadsOn(s: State, w: nat)
    requires Sized(s) && w < |s.pcs| && WorkerOk(s, w) && s.pcs[w].Dispatch?
    ensures LeadsOn(s, EndTurn(s, w), w)
  {
  }

  lemma NextLeadsOn(s: State, w: nat)
    requires Sized(s) && w < |s.pcs| && WorkerOk(s, w) && OnItsWay(s.pcs[w])
    ensures LeadsOn(s, Step(s, NextOf(s.pcs[w], w)), w)
  {
    match s.pcs[w]
    case SearchEnd(_) => MarkLeadsOn(s, w);
    case MarkIdle(_) => MarkLeadsOn(s, w);
    case FoundWork => ClearLeadsOn(s, w);
    case ClearIdle => ClearLeadsOn(s, w);
    case LocalCheck(_) => ChecksLeadOn(s, w);
    case InjectCheck(_) => ChecksLeadOn(s, w);
    case PeerCheck(_) => ChecksLeadOn(s, w);
    case _ => ParkLeadsOn(s, w);
  }

  lemma ChecksLeadOn(s: State, w: nat)
    requires Sized(s) && w < |s.pcs| && WorkerOk(s, w)
    requires s.pcs[w].LocalCheck? || s.pcs[w].InjectCheck? || s.pcs[w].PeerCheck?
    ensures LeadsOn(s, Step(s, NextOf(s.pcs[w], w)), w)
  {
    match s.pcs[w]
    case LocalCheck(_) => LocalLeadsOn(s, w);
    case InjectCheck(_) => InjectLeadsOn(s, w);
    case PeerCheck(_) => PeersLeadOn(s, w);
  }

  lemma ParkLeadsOn(s: State, w: nat)
    requires Sized(s) && w < |s.pcs| && WorkerOk(s, w)
    requires var p := s.pcs[w];
             p.Dispatch? || p == ParkEnter || p == Hook || p == CvEnter || p == CvWoken || p == ParkExit
    ensures LeadsOn(s, Step(s, NextOf(s.pcs[w], w)), w)
  {
    match s.pcs[w]
    case Dispatch(_, _) => EndTurnLeadsOn(s, w);
    case ParkEnter => EnterLeadsOn(s, w);
    case Hook => HookLeadsOn(s, w);
    case _ => SlowLeadsOn(s, w);
  }

  /** The schedule consists of steps of worker w on its way, and takes it to its destination. */
  ghost predicate Takes(s: State, w: nat, schedule: seq<Action>)
    requires Sized(s) && w < |s.pcs|
  {
    && (forall i :: 0 <= i < |schedule| ==> OwnAction(schedule[i], w))
    && (var e := Run(s, schedule); Sized(e) && w < |e.pcs| && See(e, w) == Destination(s, w))
  }

  lemma TakesOne(s: State, w: nat)
    requires Sized(s) && w < |s.pcs|
    requires var s1 := Step(s, NextOf(s.pcs[w], w)); LeadsOn(s, s1, w) && w < |s1.pcs| && !OnItsWay(s1.pcs[w])
    ensures Takes(s, w, [NextOf(s.pcs[w], w)])
  {
    var a := NextOf(s.pcs[w], w);
    assert Unfold(Fold);
    RunFirst(s, a, []);
    assert [a] + [] == [a];
  }

  lemma TakesMore(s: State, w: nat, rest: seq<Action>)
    requires Sized(s) && w < |s.pcs|
    requires var s1 := Step(s, NextOf(s.pcs[w], w));
             LeadsOn(s, s1, w) && Sized(s1) && w < |s1.pcs| && OnItsWay(s1.pcs[w]) && Takes(s1, w, rest)
    ensures Takes(s, w, [NextOf(s.pcs[w], w)] + rest)
  {
    assert Unfold(Fold);
    RunFirst(s, NextOf(s.pcs[w], w), rest);
  }

  lemma NextIsOk(s: State, w: nat)
    requires Inv(s) && w < |s.pcs| && OnItsWay(s.pcs[w])
    ensures var s1 := Step(s, NextOf(s.pcs[w], w));
            && LeadsOn(s, s1, w) && Inv(s1) && w < |s1.pcs|
            && (OnItsWay(s1.pcs[w]) ==> Rank(s1.pcs[w]) < Rank(s.pcs[w]))
  {
    assert WorkerOk(s, w);
    NextLeadsOn(s, w);
    StepKeeps(s, NextOf(s.pcs[w], w));
    assert Unfold(Fold);
  }

  /** In every reachable state a worker that is on its way to park, or on its way back, gets to
      its destination when it is left alone. */
  lemma {:induction false} WorkerGetsThere(s: State, w: nat)
    requires Inv(s) && w < |s.pcs| && OnItsWay(s.pcs[w])
    ensures exists schedule :: Takes(s, w, schedule)
    decreases Rank(s.pcs[w])
  {
    NextIsOk(s, w);
    var s1 := Step(s, NextOf(s.pcs[w], w));
    if OnItsWay(s1.pcs[w]) {
      WorkerGetsThere(s1, w);
      var rest :| Takes(s1, w, rest);
      TakesMore(s, w, rest);
    } else {
      TakesOne(s, w);
    }
  }

  // ---- a notification -------------------------------------------------------------------------

  function Alone(i: nat, targets: seq<nat>, k: nat): seq<Action> {
    seq(k, _ => NotifyStep(i, targets))
  }

  /** From s to e every worker in ts has been given a token, and woken if it was blocked, and
      nothing else has happened. */
  predicate Delivered(s: State, e: State, ts: seq<nat>)
    requires Sized(s)
  {
    && Sized(e) && |e.pcs| == |s.pcs| && (s.signal ==> e.signal)
    && e.local == s.local && e.slot == s.slot && e.injected == s.injected && e.idle == s.idle
    && e.turn == s.turn && e.searching == s.searching
    && (forall t :: 0 <= t < |s.pcs| && t in ts ==>
          && e.park[t] == Notified
          && (s.park[t] == ParkedDriver ==> e.signal)
          && (s.park[t] == ParkedCondvar && s.pcs[t] == CvWait ==> e.pcs[t] == CvWoken))
    && (forall t :: 0 <= t < |s.pcs| ==>
          && (t !in ts ==> e.park[t] == s.park[t] && e.pcs[t] == s.pcs[t])
          && (e.pcs[t] == s.pcs[t] || (s.pcs[t] == CvWait && e.pcs[t] == CvWoken)))
  }

  /** Left alone, notification i is over, and has reached the workers in ts. */
  ghost predicate Reaches(s: State, i: nat, ts: seq<nat>, targets: seq<nat>)
    requires Sized(s)
  {
    exists k: nat :: Over(s, Run(s, Alone(i, targets, k)), i, ts)
  }

  predicate Over(s: State, e: State, i: nat, ts: seq<nat>)
    requires Sized(s)
  {
    i < |e.notifiers| && e.notifiers[i] == Absent && Delivered(s, e, ts)
  }

  lemma ReachesNow(s: State, i: nat, targets: seq<nat>)
    requires Sized(s) && i < |s.notifiers| && s.notifiers[i] == Absent
    ensures Reaches(s, i, [], targets)
  {
    assert Alone(i, targets, 0) == [];
    assert Over(s, Run(s, Alone(i, targets, 0)), i, []);
  }

  /** A step that reached the workers in ts, and then the rest. */
  lemma ReachesLater(s: State, i: nat, ts: seq<nat>, rest: seq<nat>, targets: seq<nat>)
    requires Sized(s)
    requires var s1 := Step(s, NotifyStep(i, targets)); Delivered(s, s1, ts) && Reaches(s1, i, rest, targets)
    ensures Reaches(s, i, ts + rest, targets)
  {
    var a := NotifyStep(i, targets);
    var s1 := Step(s, a);
    var k: nat :| Over(s1, Run(s1, Alone(i, targets, k)), i, rest);
    RunFirst(s, a, Alone(i, targets, k));
    assert [a] + Alone(i, targets, k) == Alone(i, targets, k + 1);
    DeliveredJoins(s, s1, Run(s1, Alone(i, targets, k)), ts, rest);
    assert Over(s, Run(s, Alone(i, targets, k + 1)), i, ts + rest);
  }

  lemma DeliveredJoins(s: State, m: State, e: State, ts: seq<nat>, rest: seq<nat>)
    requires Sized(s) && Delivered(s, m, ts) && Delivered(m, e, rest)
    ensures Delivered(s, e, ts + rest)
  {
    forall t | 0 <= t < |s.pcs| && t in ts + rest
      ensures e.park[t] == Notified
      ensures s.park[t] == ParkedDriver ==> e.signal
      ensures s.park[t] == ParkedCondvar && s.pcs[t] == CvWait ==> e.pcs[t] == CvWoken
    {
      if t !in ts { assert m.park[t] == s.park[t] && m.pcs[t] == s.pcs[t]; }
    }
  }

  /** The worker whose token has just been banked, with what it was doing then. */
  predicate TokenOnly(s: State, m: State, t: nat)
    requires Sized(s) && t < |s.pcs|
  {
    m == s.(park := s.park[t := Notified], notifiers := m.notifiers)
  }

  lemma SignalDelivers(s: State, m: State, i: nat, t: nat, rest: seq<nat>, targets: seq<nat>)
    requires Sized(s) && t < |s.pcs| && TokenOnly(s, m, t)
    requires i < |m.notifiers| && m.notifiers[i] == Signal(t, s.park[t], rest)
    ensures var e := Step(m, NotifyStep(i, targets));
            Delivered(s, e, [t]) && i < |e.notifiers| && e.notifiers[i] == Unpark(rest)
  {
  }

  /** Left alone, it reaches all of its targets, one after the other. */
  lemma {:induction false} UnparkReaches(s: State, i: nat, ts: seq<nat>, targets: seq<nat>)
    requires Sized(s) && i < |s.notifiers| && s.notifiers[i] == Unpark(ts) && forall t :: t in ts ==> t < |s.pcs|
    ensures Reaches(s, i, ts, targets)
    decreases |ts|
  {
    var m := Step(s, NotifyStep(i, targets));
    UnparkStarts(s, i, ts, targets);
    if ts == [] {
      ReachesNow(m, i, targets);
      ReachesLater(s, i, [], [], targets);
      assert [] + [] == ts;
    } else {
      var t, rest := ts[0], ts[1..];
      SignalDelivers(s, m, i, t, rest, targets);
      forall x | x in rest ensures x < |s.pcs| { assert x in ts; }
      UnparkReaches(Step(m, NotifyStep(i, targets)), i, rest, targets);
      ReachesInTwo(s, m, i, t, rest, targets);
      assert [t] + rest == ts;
    }
  }

  lemma UnparkStarts(s: State, i: nat, ts: seq<nat>, targets: seq<nat>)
    requires Sized(s) && i < |s.notifiers| && s.notifiers[i] == Unpark(ts) && forall t :: t in ts ==> t < |s.pcs|
    ensures var m := Step(s, NotifyStep(i, targets));
            && |m.notifiers| == |s.notifiers|
            && (ts == [] ==> m.notifiers[i] == Absent && Delivered(s, m, []))
            && (ts != [] ==>
                  && ts[0] < |s.pcs| && TokenOnly(s, m, ts[0])
                  && m.notifiers[i] == Signal(ts[0], s.park[ts[0]], ts[1..]))
  {
    assert ts != [] ==> ts[0] in ts;
  }

  lemma ReachesInTwo(s: State, m: State, i: nat, t: nat, rest: seq<nat>, targets: seq<nat>)
    requires Sized(s) && m == Step(s, NotifyStep(i, targets))
    requires var e := Step(m, NotifyStep(i, targets)); Delivered(s, e, [t]) && Reaches(e, i, rest, targets)
    ensures Reaches(s, i, [t] + rest, targets)
  {
    var a := NotifyStep(i, targets);
    var e := Step(m, a);
    var k: nat :| Over(e, Run(e, Alone(i, targets, k)), i, rest);
    RunFirst(m, a, Alone(i, targets, k));
    RunFirst(s, a, Alone(i, targets, k + 1));
    assert [a] + Alone(i, targets, k) == Alone(i, targets, k + 1);
    assert [a] + Alone(i, targets, k + 1) == Alone(i, targets, k + 2);
    DeliveredJoins(s, e, Run(e, Alone(i, targets, k)), [t], rest);
    assert Over(s, Run(s, Alone(i, targets, k + 2)), i, [t] + rest);
  }

  /** A notification that is left alone wakes nobody if it finds a worker searching, or none
      idle; otherwise it banks a token for each idle worker it picks, and wakes each of those
      that is blocked. */
  lemma NotificationReaches(s: State, i: nat, targets: seq<nat>)
    requires Inv(s) && i < |s.notifiers| && (s.notifiers[i] == ReadSearching || s.notifiers[i] == ReadIdle)
    requires targets != [] && (s.idle != {} ==> forall t :: t in targets ==> t in s.idle)
    ensures var seen := s.notifiers[i] == ReadSearching && s.searching > 0;
            Reaches(s, i, if seen || s.idle == {} then [] else targets, targets)
  {
    var a := NotifyStep(i, targets);
    if s.notifiers[i] == ReadSearching {
      var m := Step(s, a);
      if s.searching > 0 { ReachesNow(m, i, targets); } else { IdleReaches(m, i, targets); }
      var ts := if s.searching > 0 || s.idle == {} then [] else targets;
      ReachesLater(s, i, [], ts, targets);
      assert [] + ts == ts;
    } else {
      IdleReaches(s, i, targets);
    }
  }

  lemma IdleReaches(s: State, i: nat, targets: seq<nat>)
    requires Sized(s) && i < |s.notifiers| && s.notifiers[i] == ReadIdle && targets != []
    requires (forall t :: t in s.idle ==> t < |s.pcs|) && (s.idle != {} ==> forall t :: t in targets ==> t in s.idle)
    ensures Reaches(s, i, if s.idle == {} then [] else targets, targets)
  {
    var a := NotifyStep(i, targets);
    var m := Step(s, a);
    if s.idle == {} { ReachesNow(m, i, targets); } else { UnparkReaches(m, i, targets, targets); }
    var ts := if s.idle == {} then [] else targets;
    ReachesLater(s, i, [], ts, targets);
    assert [] + ts == ts;
  }
}
