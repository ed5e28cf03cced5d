/** Worker parking and notification in the work-stealing executor
    (src/runtime/work_stealing_executor.cpp), with the turn and the unpark signal of
    the I/O driver (src/runtime/io_driver.cpp).

    A step is one atomic access or one critical section of one thread. Queues are
    counts: `local[w]` is worker w's ring and `injected` the injection queue; `slot[w]`
    says whether worker w's LIFO slot is filled. A notification is a thread of its own
    (`Notifier`): the worker or outside thread that makes it waits for it in the code,
    which only removes interleavings. Where the code wakes the lowest-numbered idle
    workers, any choice is allowed. */
module Parking {

  datatype ParkState = Empty | Notified | ParkedDriver | ParkedCondvar

  datatype Pc =
    | Busy                     // running a task, or at the top of the loop
    | Looking                  // past the LIFO slot, looking at its queues
    | Searching                // counted in `searching`
    | SearchEnd(found: bool)   // still counted
    | MarkIdle(last: bool)     // about to set its idle bit
    | LocalCheck(last: bool)
    | InjectCheck(last: bool)
    | PeerCheck(last: bool)
    | FoundWork                // about to clear its idle bit and go round again
    | ParkEnter                // park_worker: about to try for the turn
    | Hook                     // holds the turn, about to run before_poll
    | InPoll                   // ParkedDriver published; in the driver's poll
    | BusyPoll                 // a busy worker's non-blocking turn
    | Dispatch(reset: bool, parked: bool)   // poll returned; `reset`: the unpark event is still to be consumed
    | CvEnter                  // someone else holds the turn
    | CvWait
    | CvWoken                  // notified, or a spurious wake-up
    | ParkExit                 // about to consume any token
    | ClearIdle

  datatype Notifier =
    | Absent
    | ReadSearching
    | ReadIdle
    | Unpark(targets: seq<nat>)                    // about to lock targets[0]'s park mutex
    | Signal(target: nat, was: ParkState, rest: seq<nat>)

  datatype State = State(pcs: seq<Pc>, park: seq<ParkState>, local: seq<nat>, slot: seq<bool>, injected: nat,
                         searching: int, idle: set<nat>, turn: int, signal: bool,
                         notifiers: seq<Notifier>)

  datatype Choice =
    | Search
    | SearchFails
    | SkipSearch
    | PopLocal
    | WakeLocal                // a wake put in the empty LIFO slot, which notifies nobody
    | RunSlot
    | LoopTop
    | TurnStart
    | PollReturns(saw: bool)
    | SpuriousWake

  datatype Action =
    | Work(w: nat, what: Choice)
    | Slot(w: nat, what: Choice)
    | Turn(w: nat, what: Choice)
    | Steal(w: nat, v: nat, k: nat)
    | TakeInjected(w: nat, k: nat)
    | MarkStep(w: nat)
    | Found(w: nat, i: nat)
    | LookStep(w: nat)
    | ParkStep(w: nat)
    | EndTurnStep(w: nat)
    | PushLocal(w: nat, spill: nat, full: bool, demote: bool, i: nat)   // a push to the ring, spilling if full, then
                               // notifying: a requeue, a task displaced from the slot, or the slot's own (`demote`)
    | WakeInTurn(w: nat, spill: nat, full: bool)
    | Inject(i: nat, k: nat, flush: bool)      // `flush`: a closing WakeBatch
    | Notify(i: nat)
    | OutsideUnpark                            // an unpark of the driver by anyone else, such as an earlier timer
    | NotifyStep(i: nat, targets: seq<nat>)

  function Init(n: nat, m: nat): State {
    State(seq(n, _ => Busy), seq(n, _ => Empty), seq(n, _ => 0), seq(n, _ => false), 0,
          0, {}, -1, false, seq(m, _ => Absent))
  }

  predicate Sized(s: State) {
    |s.pcs| == |s.park| == |s.local| == |s.slot|
  }

  function Go(s: State, w: nat, p: Pc): State
    requires w < |s.pcs|
  {
    s.(pcs := s.pcs[w := p])
  }

  // ---- a worker's own steps ---------------------------------------------------------

  /** Leaving the search, and setting or clearing the idle bit. */
  function Mark(s: State, w: nat): State
    requires Sized(s) && w < |s.pcs|
  {
    match s.pcs[w]
    case SearchEnd(found) =>
      if found then s else Go(s.(searching := s.searching - 1), w, MarkIdle(s.searching == 1))
    case MarkIdle(last) => Go(s.(idle := s.idle + {w}), w, LocalCheck(last))
    case FoundWork => Go(s.(idle := s.idle - {w}), w, Busy)
    case ClearIdle => Go(s.(idle := s.idle - {w}), w, Busy)
    case _ => s
  }

  /** A search that found a task ends and passes the wake on. */
  function FoundStep(s: State, w: nat, i: nat): State
    requires Sized(s) && w < |s.pcs|
  {
    if s.pcs[w] == SearchEnd(true) && i < |s.notifiers| && s.notifiers[i] == Absent then
      Go(s.(searching := s.searching - 1, notifiers := s.notifiers[i := ReadSearching]), w, Busy)
    else s
  }

  /** Step 4's checks, made with the idle bit set. */
  function Look(s: State, w: nat): State
    requires Sized(s) && w < |s.pcs|
  {
    match s.pcs[w]
    case LocalCheck(last) =>
      if s.local[w] > 0 then Go(s.(local := s.local[w := s.local[w] - 1]), w, FoundWork)
      else Go(s, w, InjectCheck(last))
    case InjectCheck(last) =>
      if s.injected > 0 then Go(s.(injected := s.injected - 1), w, FoundWork)
      else Go(s, w, PeerCheck(last))
    case PeerCheck(last) => Go(s, w, if last && PeerHasTasks(s, w) then FoundWork else ParkEnter)
    case _ => s
  }

  predicate PeerHasTasks(s: State, w: nat) {
    exists v :: 0 <= v < |s.local| && v != w && s.local[v] > 0
  }

  /** park_worker, up to the poll or the wait, and after it. */
  function Park(s: State, w: nat): State
    requires Sized(s) && w < |s.pcs|
  {
    match s.pcs[w]
    case ParkEnter => if s.turn == -1 then Go(s.(turn := w), w, Hook) else Go(s, w, CvEnter)
    case Hook =>
      if s.park[w] == Notified then Go(s.(turn := -1), w, ParkExit)
      else Go(s.(park := s.park[w := ParkedDriver]), w, InPoll)
    case _ => ParkSlow(s, w)
  }

  /** On the condvar, and the end of park_worker. */
  function ParkSlow(s: State, w: nat): State
    requires Sized(s) && w < |s.pcs|
  {
    match s.pcs[w]
    case CvEnter =>
      if s.park[w] == Notified then Go(s.(park := s.park[w := Empty]), w, ClearIdle)
      else Go(s.(park := s.park[w := ParkedCondvar]), w, CvWait)
    case CvWoken =>
      if s.park[w] == Notified then Go(s.(park := s.park[w := Empty]), w, ClearIdle)
      else Go(s, w, CvWait)
    case ParkExit => Go(s.(park := s.park[w := Empty]), w, ClearIdle)
    case _ => s
  }

  /** The end of a driver turn: the unpark event is consumed, then the turn released. */
  function EndTurn(s: State, w: nat): State
    requires Sized(s) && w < |s.pcs|
  {
    match s.pcs[w]
    case Dispatch(reset, parked) =>
      if reset then Go(s.(signal := false), w, Dispatch(false, parked))
      else Go(s.(turn := -1), w, if parked then ParkExit else Busy)
    case _ => s
  }

  function SearchLimit(n: nat): nat {
    if n < 4 then 1 else n / 2
  }

  function WorkStep(s: State, w: nat, what: Choice): State
    requires Sized(s) && w < |s.pcs|
  {
    match what
    case Search =>
      if s.pcs[w] == Looking && s.searching < SearchLimit(|s.pcs|) then
        Go(s.(searching := s.searching + 1), w, Searching)
      else s
    case SearchFails => if s.pcs[w] == Searching then Go(s, w, SearchEnd(false)) else s
    case SkipSearch => if s.pcs[w] == Looking then Go(s, w, MarkIdle(false)) else s
    case PopLocal =>
      if s.pcs[w] == Looking && s.local[w] > 0 then Go(s.(local := s.local[w := s.local[w] - 1]), w, Busy) else s
    case _ => s
  }

  function SlotStep(s: State, w: nat, what: Choice): State
    requires Sized(s) && w < |s.pcs|
  {
    match what
    case WakeLocal => if s.pcs[w] == Busy && !s.slot[w] then s.(slot := s.slot[w := true]) else s
    case RunSlot => if s.pcs[w] == Busy && s.slot[w] then s.(slot := s.slot[w := false]) else s
    case LoopTop => if s.pcs[w] == Busy && !s.slot[w] then Go(s, w, Looking) else s
    case _ => s
  }

  function TurnStep(s: State, w: nat, what: Choice): State
    requires Sized(s) && w < |s.pcs|
  {
    match what
    case TurnStart => if s.pcs[w] == Busy && s.turn == -1 then Go(s.(turn := w), w, BusyPoll) else s
    case PollReturns(saw) =>
      if saw && !s.signal then s
      else if s.pcs[w] == InPoll then Go(s, w, Dispatch(saw, true))
      else if s.pcs[w] == BusyPoll then Go(s, w, Dispatch(saw, false))
      else s
    case SpuriousWake => if s.pcs[w] == CvWait then Go(s, w, CvWoken) else s
    case _ => s
  }

  function StealStep(s: State, w: nat, v: nat, k: nat): State
    requires Sized(s) && w < |s.pcs|
  {
    if s.pcs[w] == Searching && v < |s.local| && v != w && 1 <= k <= s.local[v] then
      Go(s.(local := s.local[v := s.local[v] - k][w := s.local[w] + k - 1]), w, SearchEnd(true))
    else s
  }

  function TakeStep(s: State, w: nat, k: nat): State
    requires Sized(s) && w < |s.pcs|
  {
    if !(1 <= k <= s.injected) then s
    else if s.pcs[w] == Looking then
      Go(s.(injected := s.injected - k, local := s.local[w := s.local[w] + k - 1]), w, Busy)
    else if s.pcs[w] == Searching && k == 1 then Go(s.(injected := s.injected - 1), w, SearchEnd(true))
    else s
  }

  /** `full`: the ring was full, so the task, and `spill` others, go to the injection
      queue. */
  function PushStep(s: State, w: nat, spill: nat, full: bool, demote: bool, i: nat): State
    requires Sized(s) && w < |s.pcs|
  {
    if s.pcs[w] != Busy || i >= |s.notifiers| || s.notifiers[i] != Absent || spill > s.local[w] then s
    else if demote && !s.slot[w] then s
    else
      s.(slot := s.slot[w := s.slot[w] && !demote],
         local := s.local[w := if full then s.local[w] - spill else s.local[w] + 1],
         injected := if full then s.injected + spill + 1 else s.injected,
         notifiers := s.notifiers[i := ReadSearching])
  }

  /** A wake dispatched by this worker's own driver turn notifies nobody. */
  function TurnWakeStep(s: State, w: nat, spill: nat, full: bool): State
    requires Sized(s) && w < |s.pcs|
  {
    if !s.pcs[w].Dispatch? || spill > s.local[w] then s
    else if full then s.(local := s.local[w := s.local[w] - spill], injected := s.injected + spill + 1)
    else s.(local := s.local[w := s.local[w] + 1])
  }

  // ---- notification -----------------------------------------------------------------

  function NotifyAdvance(s: State, i: nat, targets: seq<nat>): State
    requires Sized(s) && i < |s.notifiers|
  {
    match s.notifiers[i]
    case Absent => s
    case ReadSearching => s.(notifiers := s.notifiers[i := if s.searching > 0 then Absent else ReadIdle])
    case ReadIdle =>
      if s.idle == {} then s.(notifiers := s.notifiers[i := Absent])
      else if targets != [] && (forall t | t in targets :: t in s.idle) then
        s.(notifiers := s.notifiers[i := Unpark(targets)])
      else s
    case Unpark(ts) =>
      if ts == [] || ts[0] >= |s.park| then s.(notifiers := s.notifiers[i := Absent])
      else s.(park := s.park[ts[0] := Notified],
              notifiers := s.notifiers[i := Signal(ts[0], s.park[ts[0]], ts[1..])])
    case Signal(t, was, rest) =>
      var s' := s.(notifiers := s.notifiers[i := Unpark(rest)]);
      if was == ParkedDriver then s'.(signal := true)
      else if was == ParkedCondvar && t < |s.pcs| && s.pcs[t] == CvWait then Go(s', t, CvWoken)
      else s'
  }

  function Step(s: State, a: Action): State {
    if !Sized(s) then s
    else match a
      case Work(w, what) => if w < |s.pcs| then WorkStep(s, w, what) else s
      case Slot(w, what) => if w < |s.pcs| then SlotStep(s, w, what) else s
      case Turn(w, what) => if w < |s.pcs| then TurnStep(s, w, what) else s
      case Steal(w, v, k) => if w < |s.pcs| then StealStep(s, w, v, k) else s
      case TakeInjected(w, k) => if w < |s.pcs| then TakeStep(s, w, k) else s
      case MarkStep(w) => if w < |s.pcs| then Mark(s, w) else s
      case Found(w, i) => if w < |s.pcs| then FoundStep(s, w, i) else s
      case LookStep(w) => if w < |s.pcs| then Look(s, w) else s
      case ParkStep(w) => if w < |s.pcs| then Park(s, w) else s
      case EndTurnStep(w) => if w < |s.pcs| then EndTurn(s, w) else s
      case PushLocal(w, spill, full, demote, i) => if w < |s.pcs| then PushStep(s, w, spill, full, demote, i) else s
      case WakeInTurn(w, spill, full) => if w < |s.pcs| then TurnWakeStep(s, w, spill, full) else s
      case Inject(i, k, flush) =>
        if i < |s.notifiers| && s.notifiers[i] == Absent && k > 0 then
          s.(injected := s.injected + k, notifiers := s.notifiers[i := if flush then ReadIdle else ReadSearching])
        else s
      case Notify(i) =>
        if i < |s.notifiers| && s.notifiers[i] == Absent then s.(notifiers := s.notifiers[i := ReadSearching]) else s
      case OutsideUnpark => s.(signal := true)
      case NotifyStep(i, targets) => if i < |s.notifiers| then NotifyAdvance(s, i, targets) else s
  }

  function Run(s: State, schedule: seq<Action>): State
    decreases |schedule|
  {
    if schedule == [] then s
    else Step(Run(s, schedule[..|schedule| - 1]), schedule[|schedule| - 1])
  }

  // ---- the invariant ----------------------------------------------------------------

  /** Has yet to make its injection check before it can next block. */
  predicate BeforeCheck(p: Pc) {
    p.Busy? || p.Looking? || p.Searching? || p.SearchEnd? || p.MarkIdle? || p.LocalCheck? || p.InjectCheck?
    || p.FoundWork? || p.BusyPoll? || p.Dispatch? || p.ParkExit? || p.ClearIdle?
  }

  predicate ShowsIdle(p: Pc) {
    p.LocalCheck? || p.InjectCheck? || p.PeerCheck? || p.FoundWork? || p.ParkEnter? || p.Hook? || p.InPoll?
    || p.CvEnter? || p.CvWait? || p.CvWoken? || p.ParkExit? || p.ClearIdle? || (p.Dispatch? && p.parked)
  }

  predicate HoldsTurn(p: Pc) {
    p.Hook? || p.InPoll? || p.BusyPoll? || p.Dispatch?
  }

  predicate Counted(p: Pc) {
    p.Searching? || p.SearchEnd?
  }

  /** Found its own queue empty and has not taken in a task since. */
  predicate Drained(p: Pc) {
    p.InjectCheck? || p.PeerCheck? || p.ParkEnter? || p.Hook? || p.InPoll? || p.CvEnter? || p.CvWait? || p.CvWoken?
  }

  /** The LIFO slot may be filled only from a poll to the next pass over it. */
  predicate MayHoldSlot(p: Pc) {
    p.Busy? || p.BusyPoll? || (p.Dispatch? && !p.parked)
  }

  predicate ParkMatches(p: Pc, k: ParkState) {
    if p.InPoll? || p.ParkExit? || (p.Dispatch? && p.parked) then k == ParkedDriver || k == Notified
    else if p.CvWait? || p.CvWoken? then k == ParkedCondvar || k == Notified
    else k == Empty || k == Notified
  }

  predicate Signals(p: Notifier, w: nat, was: ParkState) {
    p.Signal? && p.target == w && p.was == was
  }

  predicate AboutToSignal(s: State, w: nat, was: ParkState) {
    exists i :: 0 <= i < |s.notifiers| && Signals(s.notifiers[i], w, was)
  }

  predicate WorkerOk(s: State, w: nat)
    requires Sized(s) && w < |s.pcs|
  {
    && (w in s.idle <==> ShowsIdle(s.pcs[w]))
    && (s.turn == w <==> HoldsTurn(s.pcs[w]))
    && ParkMatches(s.pcs[w], s.park[w])
    && (Drained(s.pcs[w]) ==> s.local[w] == 0)
    && (s.slot[w] ==> MayHoldSlot(s.pcs[w]))
    && (s.pcs[w] == InPoll && s.park[w] == Notified ==> s.signal || AboutToSignal(s, w, ParkedDriver))
    && (s.pcs[w] == CvWait && s.park[w] == Notified ==> AboutToSignal(s, w, ParkedCondvar))
  }

  /** Inside its notification, with nobody unparked yet. */
  predicate Undelivered(p: Notifier, n: nat) {
    p.ReadSearching? || p.ReadIdle? || (p.Unpark? && p.targets != [] && p.targets[0] < n)
  }

  predicate Covered(s: State)
    requires Sized(s)
  {
    || (exists w :: 0 <= w < |s.pcs| && BeforeCheck(s.pcs[w]))
    || (exists w :: 0 <= w < |s.park| && s.park[w] == Notified)
    || (exists i :: 0 <= i < |s.notifiers| && Undelivered(s.notifiers[i], |s.pcs|))
  }

  function Searchers(pcs: seq<Pc>): set<nat> {
    set w: nat | w < |pcs| && Counted(pcs[w])
  }

  predicate Inv(s: State) {
    && Sized(s) && |s.pcs| > 0
    && -1 <= s.turn < |s.pcs|
    && (forall w :: w in s.idle ==> w < |s.pcs|)
    && s.searching == |Searchers(s.pcs)| <= SearchLimit(|s.pcs|)
    && (forall w: nat :: w < |s.pcs| ==> WorkerOk(s, w))
    && (s.injected > 0 ==> Covered(s))
  }

  // ---- every step keeps it ------------------------------------------------------------

  lemma SearchersAfter(pcs: seq<Pc>, w: nat, p: Pc)
    requires w < |pcs|
    ensures Counted(p) ==> Searchers(pcs[w := p]) == Searchers(pcs) + {w}
    ensures !Counted(p) ==> Searchers(pcs[w := p]) == Searchers(pcs) - {w}
    ensures Counted(pcs[w]) <==> w in Searchers(pcs)
    ensures Searchers(pcs)  == {} <==> forall v: nat :: v < |pcs| ==> !Counted(pcs[v])
  {
    assert forall v: nat :: v < |pcs| && Counted(pcs[v]) ==> v in Searchers(pcs);
  }

  /** Only worker w's own fields, and what only it may change, differ. */
  predicate OwnStep(s: State, s': State, w: nat)
    requires Sized(s) && w < |s.pcs|
  {
    && Sized(s') && |s'.pcs| == |s.pcs|
    && s'.pcs == s.pcs[w := s'.pcs[w]] && s'.park == s.park[w := s'.park[w]] && s'.slot == s.slot[w := s'.slot[w]]
    && (forall v :: 0 <= v < |s.pcs| && v != w && s'.local[v] != s.local[v] ==> s'.local[v] < s.local[v])
    && s'.idle - {w} == s.idle - {w}
    && (s'.turn == s.turn || ((s.turn == -1 || s.turn == w) && (s'.turn == -1 || s'.turn == w)))
    && (s.signal ==> s'.signal || s.turn == w)
    && |s'.notifiers| == |s.notifiers|
    && (forall i :: 0 <= i < |s.notifiers| && s.notifiers[i] != Absent ==> s'.notifiers[i] == s.notifiers[i])
  }

  lemma OthersStayOk(s: State, s': State, w: nat, v: nat)
    requires Inv(s) && w < |s.pcs| && OwnStep(s, s', w) && v < |s.pcs| && v != w
    ensures WorkerOk(s', v)
  {
    assert WorkerOk(s, v);
    assert v in s.idle <==> v in s.idle - {w};
    assert v in s'.idle <==> v in s'.idle - {w};
    forall k | AboutToSignal(s, v, k) ensures AboutToSignal(s', v, k) {
      var i :| 0 <= i < |s.notifiers| && Signals(s.notifiers[i], v, k);
      assert s'.notifiers[i] == s.notifiers[i];
    }
  }

  lemma CoverKept(s: State, s': State, w: nat)
    requires Inv(s) && w < |s.pcs| && OwnStep(s, s', w)
    requires BeforeCheck(s'.pcs[w])
          || (s.injected > 0 && !BeforeCheck(s.pcs[w]) && (s.park[w] == Notified ==> s'.park[w] == Notified))
    ensures Covered(s')
  {
    if BeforeCheck(s'.pcs[w]) {
    } else if v :| 0 <= v < |s.pcs| && BeforeCheck(s.pcs[v]) {
      assert BeforeCheck(s'.pcs[v]);
    } else if v :| 0 <= v < |s.park| && s.park[v] == Notified {
      assert s'.park[v] == Notified;
    } else {
      var i :| 0 <= i < |s.notifiers| && Undelivered(s.notifiers[i], |s.pcs|);
      assert Undelivered(s'.notifiers[i], |s.pcs|);
    }
  }

  lemma OwnStepKeeps(s: State, s': State, w: nat)
    requires Inv(s) && w < |s.pcs| && OwnStep(s, s', w)
    requires -1 <= s'.turn < |s'.pcs| && WorkerOk(s', w)
    requires Counted(s'.pcs[w]) == Counted(s.pcs[w]) ==> s'.searching == s.searching
    requires Counted(s'.pcs[w]) && !Counted(s.pcs[w]) ==> s'.searching == s.searching + 1
    requires !Counted(s'.pcs[w]) && Counted(s.pcs[w]) ==> s'.searching == s.searching - 1
    requires s'.searching <= SearchLimit(|s.pcs|)
    requires s'.injected > 0 ==>
               || BeforeCheck(s'.pcs[w])
               || (s.injected > 0 && !BeforeCheck(s.pcs[w]) && (s.park[w] == Notified ==> s'.park[w] == Notified))
    ensures Inv(s')
  {
    SearchersAfter(s.pcs, w, s'.pcs[w]);
    assert Counted(s'.pcs[w]) && Counted(s.pcs[w]) ==> Searchers(s'.pcs) == Searchers(s.pcs);
    assert !Counted(s'.pcs[w]) && !Counted(s.pcs[w]) ==> Searchers(s'.pcs) == Searchers(s.pcs);
    forall v: nat | v < |s'.pcs| ensures WorkerOk(s', v) {
      if v != w { OthersStayOk(s, s', w, v); }
    }
    forall v | v in s'.idle ensures v < |s'.pcs| {
      assert v == w || v in s'.idle - {w};
      assert v == w || v in s.idle - {w};
    }
    if s'.injected > 0 { CoverKept(s, s', w); }
  }

  lemma MarkKeeps(s: State, w: nat)
    requires Inv(s) && w < |s.pcs|
    ensures Inv(Mark(s, w))
  {
    var s' := Mark(s, w);
    assert WorkerOk(s, w);
    if s' != s {
      OwnStepKeeps(s, s', w);
    }
  }

  lemma FoundKeeps(s: State, w: nat, i: nat)
    requires Inv(s) && w < |s.pcs|
    ensures Inv(FoundStep(s, w, i))
  {
    var s' := FoundStep(s, w, i);
    assert WorkerOk(s, w);
    if s' != s { OwnStepKeeps(s, s', w); }
  }

  lemma LookKeeps(s: State, w: nat)
    requires Inv(s) && w < |s.pcs|
    ensures Inv(Look(s, w))
  {
    var s' := Look(s, w);
    assert WorkerOk(s, w);
    if s.pcs[w].PeerCheck? {
      OwnStepKeeps(s, s', w);
    } else if s.pcs[w].LocalCheck? {
      assert s'.local == s.local[w := s'.local[w]];
      OwnStepKeeps(s, s', w);
    } else if s.pcs[w].InjectCheck? {
      OwnStepKeeps(s, s', w);
    }
  }

  lemma ParkKeeps(s: State, w: nat)
    requires Inv(s) && w < |s.pcs|
    ensures Inv(Park(s, w))
  {
    var s' := Park(s, w);
    assert WorkerOk(s, w);
    if s.pcs[w] == ParkEnter || s.pcs[w] == Hook {
      OwnStepKeeps(s, s', w);
    } else {
      ParkSlowKeeps(s, w);
    }
  }

  lemma ParkSlowKeeps(s: State, w: nat)
    requires Inv(s) && w < |s.pcs|
    ensures Inv(ParkSlow(s, w))
  {
    var s' := ParkSlow(s, w);
    assert WorkerOk(s, w);
    if s' != s {
      OwnStepKeeps(s, s', w);
    }
  }

  lemma EndTurnKeeps(s: State, w: nat)
    requires Inv(s) && w < |s.pcs|
    ensures Inv(EndTurn(s, w))
  {
    var s' := EndTurn(s, w);
    assert WorkerOk(s, w);
    if s' != s {
      OwnStepKeeps(s, s', w);
    }
  }

  lemma StealKeeps(s: State, w: nat, v: nat, k: nat)
    requires Inv(s) && w < |s.pcs|
    ensures Inv(StealStep(s, w, v, k))
  {
    assert WorkerOk(s, w);
    if StealStep(s, w, v, k) != s {
      OwnStepKeeps(s, StealStep(s, w, v, k), w);
    }
  }

  lemma TakeKeeps(s: State, w: nat, k: nat)
    requires Inv(s) && w < |s.pcs|
    ensures Inv(TakeStep(s, w, k))
  {
    assert WorkerOk(s, w);
    if TakeStep(s, w, k) != s {
      OwnStepKeeps(s, TakeStep(s, w, k), w);
    }
  }

  lemma PushKeeps(s: State, w: nat, spill: nat, full: bool, demote: bool, i: nat)
    requires Inv(s) && w < |s.pcs|
    ensures Inv(PushStep(s, w, spill, full, demote, i))
  {
    var s' := PushStep(s, w, spill, full, demote, i);
    assert WorkerOk(s, w);
    if s' != s {
      OwnStepKeeps(s, s', w);
    }
  }

  lemma TurnWakeKeeps(s: State, w: nat, spill: nat, full: bool)
    requires Inv(s) && w < |s.pcs|
    ensures Inv(TurnWakeStep(s, w, spill, full))
  {
    assert WorkerOk(s, w);
    if TurnWakeStep(s, w, spill, full) != s {
      OwnStepKeeps(s, TurnWakeStep(s, w, spill, full), w);
    }
  }

  // A notifier's steps.

  /** Only notifier i moved: workers keep their pcs and queues. */
  predicate NotifierStep(s: State, s': State, i: nat)
    requires i < |s.notifiers|
  {
    && s'.pcs == s.pcs && s'.park == s.park && s'.local == s.local && s'.slot == s.slot && s'.searching == s.searching
    && s'.idle == s.idle && s'.turn == s.turn && (s.signal ==> s'.signal)
    && |s'.notifiers| == |s.notifiers| && s'.notifiers == s.notifiers[i := s'.notifiers[i]]
  }

  lemma NotifierStepKeeps(s: State, s': State, i: nat)
    requires Inv(s) && i < |s.notifiers| && NotifierStep(s, s', i) && !s.notifiers[i].Signal?
    requires s'.injected > 0 ==>
               || Undelivered(s'.notifiers[i], |s.pcs|)
               || (exists w :: 0 <= w < |s.pcs| && BeforeCheck(s.pcs[w]))
               || (s.injected > 0 && !Undelivered(s.notifiers[i], |s.pcs|))
    ensures Inv(s')
  {
    forall w: nat | w < |s'.pcs| ensures WorkerOk(s', w) {
      assert WorkerOk(s, w);
      forall k | AboutToSignal(s, w, k) ensures AboutToSignal(s', w, k) {
        var j :| 0 <= j < |s.notifiers| && Signals(s.notifiers[j], w, k);
        assert s'.notifiers[j] == s.notifiers[j];
      }
    }
    if s'.injected > 0 && s.injected > 0 && !Undelivered(s.notifiers[i], |s.pcs|) {
      if j :| 0 <= j < |s.notifiers| && Undelivered(s.notifiers[j], |s.pcs|) {
        assert Undelivered(s'.notifiers[j], |s.pcs|);
      }
    }
  }

  lemma ReadKeeps(s: State, i: nat, targets: seq<nat>)
    requires Inv(s) && i < |s.notifiers| && (s.notifiers[i].ReadSearching? || s.notifiers[i].ReadIdle?)
    ensures Inv(NotifyAdvance(s, i, targets))
  {
    var s' := NotifyAdvance(s, i, targets);
    if s.notifiers[i].ReadSearching? && s.searching > 0 {
      var w :| w in Searchers(s.pcs);
      assert BeforeCheck(s.pcs[w]);
    }
    if s.notifiers[i].ReadIdle? {
      assert s.idle == {} ==> WorkerOk(s, 0) && BeforeCheck(s.pcs[0]);
      assert targets != [] ==> targets[0] in targets;
    }
    if s' != s { NotifierStepKeeps(s, s', i); }
  }

  lemma UnparkKeeps(s: State, i: nat, targets: seq<nat>)
    requires Inv(s) && i < |s.notifiers| && s.notifiers[i].Unpark?
    ensures Inv(NotifyAdvance(s, i, targets))
  {
    var ts := s.notifiers[i].targets;
    var s' := NotifyAdvance(s, i, targets);
    if ts == [] || ts[0] >= |s.park| {
      NotifierStepKeeps(s, s', i);
    } else {
      assert s'.park[ts[0]] == Notified;
      forall w: nat | w < |s'.pcs| ensures WorkerOk(s', w) {
        assert WorkerOk(s, w);
        assert w == ts[0] ==> AboutToSignal(s', w, s.park[w]) by {
          assert s'.notifiers[i].Signal?;
        }
        StillAboutToSignal(s, s', i, w);
      }
    }
  }

  lemma StillAboutToSignal(s: State, s': State, i: nat, w: nat)
    requires i < |s.notifiers| == |s'.notifiers| && s'.notifiers == s.notifiers[i := s'.notifiers[i]]
    requires !s.notifiers[i].Signal? || s.notifiers[i].target != w
    ensures forall k :: AboutToSignal(s, w, k) ==> AboutToSignal(s', w, k)
  {
    forall k | AboutToSignal(s, w, k) ensures AboutToSignal(s', w, k) {
      var j :| 0 <= j < |s.notifiers| && Signals(s.notifiers[j], w, k);
      assert s'.notifiers[j] == s.notifiers[j];
    }
  }

  lemma SignalWorker(s: State, i: nat, w: nat)
    requires Inv(s) && i < |s.notifiers| && s.notifiers[i].Signal? && w < |s.pcs|
    ensures WorkerOk(NotifyAdvance(s, i, []), w)
  {
    var s' := NotifyAdvance(s, i, []);
    var t, was := s.notifiers[i].target, s.notifiers[i].was;
    assert WorkerOk(s, w);
    forall k | AboutToSignal(s, w, k) && !(w == t && k == was) ensures AboutToSignal(s', w, k) {
      var j :| 0 <= j < |s.notifiers| && Signals(s.notifiers[j], w, k);
      assert s'.notifiers[j] == s.notifiers[j];
    }
  }

  lemma SignalSearchers(s: State, i: nat)
    requires Sized(s) && i < |s.notifiers| && s.notifiers[i].Signal?
    ensures Searchers(NotifyAdvance(s, i, []).pcs) == Searchers(s.pcs)
  {
    var t := s.notifiers[i].target;
    if t < |s.pcs| { SearchersAfter(s.pcs, t, CvWoken); }
  }

  lemma SignalKeeps(s: State, i: nat)
    requires Inv(s) && i < |s.notifiers| && s.notifiers[i].Signal?
    ensures Inv(NotifyAdvance(s, i, []))
  {
    var s' := NotifyAdvance(s, i, []);
    SignalSearchers(s, i);
    forall w: nat | w < |s'.pcs| ensures WorkerOk(s', w) { SignalWorker(s, i, w); }
    if s.injected > 0 { SignalCover(s, s', i); }
  }

  lemma SignalCover(s: State, s': State, i: nat)
    requires Inv(s) && s.injected > 0 && i < |s.notifiers| && s.notifiers[i].Signal?
    requires s' == NotifyAdvance(s, i, [])
    ensures Covered(s')
  {
    if w :| 0 <= w < |s.pcs| && BeforeCheck(s.pcs[w]) {
      assert BeforeCheck(s'.pcs[w]);
    } else if w :| 0 <= w < |s.park| && s.park[w] == Notified {
      assert s'.park[w] == Notified;
    } else {
      var j :| 0 <= j < |s.notifiers| && Undelivered(s.notifiers[j], |s.pcs|);
      assert Undelivered(s'.notifiers[j], |s.pcs|);
    }
  }

  lemma WorkerKeeps(s: State, a: Action)
    requires Inv(s) && !a.NotifyStep? && !a.Inject? && !a.Notify? && !a.OutsideUnpark?
    requires !a.Work? && !a.Slot? && !a.Turn? && !a.Steal? && !a.TakeInjected?
    ensures Inv(Step(s, a))
  {
    match a
    case MarkStep(w) => if w < |s.pcs| { MarkKeeps(s, w); }
    case Found(w, i) => if w < |s.pcs| { FoundKeeps(s, w, i); }
    case LookStep(w) => if w < |s.pcs| { LookKeeps(s, w); }
    case ParkStep(w) => if w < |s.pcs| { ParkKeeps(s, w); }
    case EndTurnStep(w) => if w < |s.pcs| { EndTurnKeeps(s, w); }
    case PushLocal(w, spill, full, demote, i) => if w < |s.pcs| { PushKeeps(s, w, spill, full, demote, i); }
    case WakeInTurn(w, spill, full) => if w < |s.pcs| { TurnWakeKeeps(s, w, spill, full); }
  }

  lemma StepKeeps(s: State, a: Action)
    requires Inv(s)
    ensures Inv(Step(s, a))
  {
    match a
    case Work(w, what) => if w < |s.pcs| { WorkKeeps(s, w, what); }
    case Slot(w, what) => if w < |s.pcs| { SlotKeeps(s, w, what); }
    case Turn(w, what) => if w < |s.pcs| { TurnKeeps(s, w, what); }
    case Steal(w, v, k) => if w < |s.pcs| { StealKeeps(s, w, v, k); }
    case TakeInjected(w, k) => if w < |s.pcs| { TakeKeeps(s, w, k); }
    case NotifyStep(i, targets) => if i < |s.notifiers| { NotifyAdvanceKeeps(s, i, targets); }
    case Inject(_, _, _) => OutsideKeeps(s, a);
    case Notify(_) => OutsideKeeps(s, a);
    case OutsideUnpark => OutsideKeeps(s, a);
    case _ => WorkerKeeps(s, a);
  }

  lemma OutsideKeeps(s: State, a: Action)
    requires Inv(s) && (a.Inject? || a.Notify? || a.OutsideUnpark?)
    ensures Inv(Step(s, a))
  {
    var s' := Step(s, a);
    if a.OutsideUnpark? {
      assert WorkerOk(s, 0);
      OwnStepKeeps(s, s', 0);
    } else if s' != s {
      NotifierStepKeeps(s, s', a.i);
    }
  }

  lemma NotifyAdvanceKeeps(s: State, i: nat, targets: seq<nat>)
    requires Inv(s) && i < |s.notifiers|
    ensures Inv(NotifyAdvance(s, i, targets))
  {
    match s.notifiers[i]
    case Absent =>
    case ReadSearching => ReadKeeps(s, i, targets);
    case ReadIdle => ReadKeeps(s, i, targets);
    case Unpark(_) => UnparkKeeps(s, i, targets);
    case Signal(_, _, _) => SignalKeeps(s, i); assert NotifyAdvance(s, i, targets) == NotifyAdvance(s, i, []);
  }

  lemma WorkKeeps(s: State, w: nat, what: Choice)
    requires Inv(s) && w < |s.pcs|
    ensures Inv(WorkStep(s, w, what))
  {
    if what == Search || what == SearchFails {
      SearchKeeps(s, w, what);
    } else {
      var s' := WorkStep(s, w, what);
      assert WorkerOk(s, w);
      if s' != s { OwnStepKeeps(s, s', w); }
    }
  }

  lemma SearchKeeps(s: State, w: nat, what: Choice)
    requires Inv(s) && w < |s.pcs| && (what == Search || what == SearchFails)
    ensures Inv(WorkStep(s, w, what))
  {
    var s' := WorkStep(s, w, what);
    assert WorkerOk(s, w);
    if s' != s { OwnStepKeeps(s, s', w); }
  }

  lemma SlotKeeps(s: State, w: nat, what: Choice)
    requires Inv(s) && w < |s.pcs|
    ensures Inv(SlotStep(s, w, what))
  {
    assert WorkerOk(s, w);
    if SlotStep(s, w, what) != s { OwnStepKeeps(s, SlotStep(s, w, what), w); }
  }

  lemma TurnKeeps(s: State, w: nat, what: Choice)
    requires Inv(s) && w < |s.pcs|
    ensures Inv(TurnStep(s, w, what))
  {
    assert WorkerOk(s, w);
    if TurnStep(s, w, what) != s { OwnStepKeeps(s, TurnStep(s, w, what), w); }
  }

  lemma {:induction false} RunKeeps(n: nat, m: nat, schedule: seq<Action>)
    requires n > 0
    ensures Inv(Run(Init(n, m), schedule))
    decreases |schedule|
  {
    if schedule == [] {
      assert Searchers(Init(n, m).pcs) == {};
    } else {
      RunKeeps(n, m, schedule[..|schedule| - 1]);
      StepKeeps(Run(Init(n, m), schedule[..|schedule| - 1]), schedule[|schedule| - 1]);
    }
  }

  // ---- what it means ------------------------------------------------------------------

  predicate Blocked(p: Pc) {
    p == InPoll || p == CvWait
  }

  // Reachable's definition is used only where `Unfold(Fold)` is mentioned.
  datatype Fold = Fold
  ghost predicate Unfold(f: Fold) { true }

  /** Some schedule, with any number of workers and notifiers, leads to s. */
  ghost predicate Reachable(s: State) {
    forall f: Fold {:trigger Unfold(f)} :: Unfold(f) ==>
      exists n: nat, m: nat, schedule :: n > 0 && s == Run(Init(n, m), schedule)
  }

  lemma ReachableOk(s: State)
    requires Reachable(s)
    ensures Inv(s)
  {
    assert Unfold(Fold);
    var n: nat, m: nat, schedule :| n > 0 && s == Run(Init(n, m), schedule);
    RunKeeps(n, m, schedule);
  }

  /** No injected task is stranded. Whenever the injection queue holds one, some worker
      has its injection check still to make, or a park token is banked, or a notification
      is on its way to bank one; and if every worker is blocked with no notification and
      no unpark signal outstanding, no task is queued: the injection queue is empty and
      so are every blocked worker's ring and LIFO slot. */
  lemma NothingStranded(s: State)
    requires Reachable(s)
    ensures Sized(s) && (s.injected > 0 ==> Covered(s))
    ensures !s.signal && (forall i :: 0 <= i < |s.notifiers| ==> s.notifiers[i] == Absent) ==>
              && ((forall w :: 0 <= w < |s.pcs| ==> Blocked(s.pcs[w])) ==> s.injected == 0)
              && (forall w :: 0 <= w < |s.pcs| && Blocked(s.pcs[w]) ==> s.local[w] == 0 && !s.slot[w])
  {
    ReachableOk(s);
    if !s.signal && forall i :: 0 <= i < |s.notifiers| ==> s.notifiers[i] == Absent {
      AllBlockedMeansNoWork(s);
    }
  }

  lemma AllBlockedMeansNoWork(s: State)
    requires Inv(s)
    requires !s.signal && forall i :: 0 <= i < |s.notifiers| ==> s.notifiers[i] == Absent
    ensures (forall w :: 0 <= w < |s.pcs| ==> Blocked(s.pcs[w])) ==> s.injected == 0
    ensures (forall w :: 0 <= w < |s.pcs| ==> Blocked(s.pcs[w]) ==> s.local[w] == 0 && !s.slot[w])
  {
    forall w: nat | w < |s.pcs|
      ensures Blocked(s.pcs[w]) ==>
                s.local[w] == 0 && !s.slot[w] && s.park[w] != Notified && !BeforeCheck(s.pcs[w])
    {
      assert WorkerOk(s, w);
    }
  }

  /** A park token always reaches its worker. One blocked in the driver with a token has
      the unpark signal set, or its unparker about to set it, and nobody else can consume
      it because only the turn's one holder does; one blocked on its condvar with a token
      has its unparker about to notify it. The searching count is exact and bounded. */
  lemma TokensReachTheirWorker(s: State, w: nat)
    requires Reachable(s) && w < |s.pcs|
    ensures Sized(s)
    ensures s.pcs[w] == InPoll && s.park[w] == Notified ==> s.signal || AboutToSignal(s, w, ParkedDriver)
    ensures s.pcs[w] == CvWait && s.park[w] == Notified ==> AboutToSignal(s, w, ParkedCondvar)
    ensures HoldsTurn(s.pcs[w]) ==> forall v: nat :: v < |s.pcs| && v != w ==> !HoldsTurn(s.pcs[v])
    ensures s.searching == |Searchers(s.pcs)| <= SearchLimit(|s.pcs|)
  {
    ReachableOk(s);
    assert WorkerOk(s, w);
    forall v: nat | v < |s.pcs| && v != w && HoldsTurn(s.pcs[w]) ensures !HoldsTurn(s.pcs[v]) {
      assert WorkerOk(s, v);
    }
  }

  /** From s to s', worker w did not start blocking with a token banked, and a token it
      lost was taken by w itself on its way back to the loop. */
  predicate Honours(s: State, s': State, w: nat)
    requires Sized(s) && w < |s.pcs|
  {
    && Sized(s') && |s'.pcs| == |s.pcs|
    && (Blocked(s'.pcs[w]) && s'.pcs[w] != s.pcs[w] ==> s.park[w] != Notified && s'.park[w] != Notified)
    && (s.park[w] == Notified && s'.park[w] != Notified ==>
          s'.pcs[w] == ClearIdle && (s.pcs[w] == CvEnter || s.pcs[w] == CvWoken || s.pcs[w] == ParkExit))
  }

  lemma TokensAreHonoured(s: State, a: Action, w: nat)
    requires Sized(s) && w < |s.pcs|
    ensures Honours(s, Step(s, a), w)
  {
    match a {
      case NotifyStep(i, targets) => if i < |s.notifiers| { NotifyHonours(s, i, targets, w); }
      case Turn(v, what) => if v < |s.pcs| { TurnHonours(s, v, what, w); }
      case Work(v, what) => if v < |s.pcs| { WorkHonours(s, v, what, w); }
      case Slot(v, what) => if v < |s.pcs| { WorkHonours(s, v, what, w); }
      case LookStep(v) => if v < |s.pcs| { LookHonours(s, v, w); }
      case MarkStep(v) => if v < |s.pcs| { LookHonours(s, v, w); }
      case ParkStep(v) => if v < |s.pcs| { ParkHonours(s, v, w); }
      case EndTurnStep(v) => if v < |s.pcs| { ParkHonours(s, v, w); }
      case _ => QueuesHonour(s, a, w);
    }
  }

  lemma QueuesHonour(s: State, a: Action, w: nat)
    requires Sized(s) && w < |s.pcs|
    requires a.Steal? || a.TakeInjected? || a.Found? || a.PushLocal? || a.WakeInTurn? || a.Inject? || a.Notify?
          || a.OutsideUnpark?
    ensures Honours(s, Step(s, a), w)
  {
  }

  lemma NotifyHonours(s: State, i: nat, targets: seq<nat>, w: nat)
    requires Sized(s) && w < |s.pcs| && i < |s.notifiers|
    ensures Honours(s, NotifyAdvance(s, i, targets), w)
  {
  }

  lemma WorkHonours(s: State, v: nat, what: Choice, w: nat)
    requires Sized(s) && w < |s.pcs| && v < |s.pcs|
    ensures Honours(s, WorkStep(s, v, what), w) && Honours(s, SlotStep(s, v, what), w)
  {
  }

  lemma TurnHonours(s: State, v: nat, what: Choice, w: nat)
    requires Sized(s) && w < |s.pcs| && v < |s.pcs|
    ensures Honours(s, TurnStep(s, v, what), w)
  {
  }

  lemma LookHonours(s: State, v: nat, w: nat)
    requires Sized(s) && w < |s.pcs| && v < |s.pcs|
    ensures Honours(s, Mark(s, v), w) && Honours(s, Look(s, v), w)
  {
  }

  lemma ParkHonours(s: State, v: nat, w: nat)
    requires Sized(s) && w < |s.pcs| && v < |s.pcs|
    ensures Honours(s, Park(s, v), w) && Honours(s, EndTurn(s, v), w)
  {
  }
}
