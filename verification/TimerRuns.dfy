/** Whole runs of the timer queue: any sequence of critical sections by any threads. */
module TimerRuns {
  import opened TimerTables
  import opened TimerSpec
  import opened TimerQueues

  datatype Op =
    | DoInsert(deadline: int, waker: Waker, r: Inserted)
    | DoCancel(id: Id)
    | DoBatch(endWait: bool, now: int, alive: set<Waker>, wakers: seq<Waker>, more: bool, ids: seq<Id>)
    | DoBeginWait(maxWait: Option<int>, at: int, wait: Option<int>)
    | DoEndWait
    | DoClose(awake: set<Waker>, woken: seq<Waker>, closing: seq<Id>)

  ghost predicate OpSpec(s: Snap, s': Snap, op: Op) {
    match op
    case DoInsert(deadline, waker, r) => InsertSpec(s, s', deadline, waker, r)
    case DoCancel(id) => CancelSpec(s, s', id)
    case DoBatch(endWait, now, alive, wakers, more, ids) =>
      BatchSpec(s, s', endWait, now, alive, wakers, more, ids)
    case DoBeginWait(maxWait, now, wait) => WaitSpec(s, s', maxWait, now, wait)
    case DoEndWait => s' == s.(waiting := false)
    case DoClose(alive, wakers, ids) => CloseSpec(s, s', alive, wakers, ids)
  }

  /** `states[i]` is the state before operation `i` of a run that starts with a new
      queue. Only the operations' specifications tie one state to the next. */
  ghost predicate IsRun(states: seq<Snap>, ops: seq<Op>) {
    && |states| == |ops| + 1 && states[0] == NewQueue()
    && (forall i | 0 <= i < |ops| :: OpSpec(states[i], states[i + 1], ops[i]))
  }

  // ---- every sequence of calls is a run -------------------------------------------------

  datatype Call =
    | CallInsert(deadline: int, waker: Waker)
    | CallCancel(which: nat)              // the id that an earlier insert returned, or one of no slot
    | CallBatch(endWait: bool, now: int, alive: set<Waker>)
    | CallBeginWait(maxWait: Option<int>, now: int)
    | CallEndWait
    | CallClose(alive: set<Waker>)

  /** The ids that the inserts among the operations returned, in order, the refused ones
      included. */
  ghost function IdsOf(ops: seq<Op>): seq<Id> {
    if ops == [] then []
    else
      var op := ops[|ops| - 1];
      IdsOf(ops[..|ops| - 1]) + (if op.DoInsert? then [op.r.id] else [])
  }

  /** What an insert may have returned: the id of a timer, or 0 from a closed queue. */
  ghost predicate Returned(b: Book, id: Id) {
    Issued(b, id) || id.generation == 0
  }

  /** The operation is that call, with the results it had. `issued` are the ids returned so
      far and `slots` the number of slots. */
  ghost predicate Matches(call: Call, op: Op, issued: seq<Id>, slots: nat) {
    match call
    case CallInsert(deadline, waker) => op.DoInsert? && op.deadline == deadline && op.waker == waker
    case CallCancel(which) => op == DoCancel(if which < |issued| then issued[which] else Id(slots, 0))
    case CallBatch(endWait, now, alive) =>
      op.DoBatch? && op.endWait == endWait && op.now == now && op.alive == alive
    case CallBeginWait(maxWait, now) => op.DoBeginWait? && op.maxWait == maxWait && op.at == now
    case CallEndWait => op == DoEndWait
    case CallClose(alive) => op.DoClose? && op.awake == alive
  }

  ghost predicate AllMatch(calls: seq<Call>, states: seq<Snap>, ops: seq<Op>)
    requires |ops| <= |calls| && |ops| < |states|
  {
    forall i | 0 <= i < |ops| :: Matches(calls[i], ops[i], IdsOf(ops[..i]), |states[i].slots|)
  }

  /** Making the calls on a new queue, one after the other, is a run of exactly those
      operations: what is proved of runs below holds of every sequence of calls. */
  method Execute(calls: seq<Call>) returns (queue: TimerQueue, ghost states: seq<Snap>, ghost ops: seq<Op>)
    ensures fresh(queue) && queue.Valid() && IsRun(states, ops) && |ops| == |calls|
    ensures AllMatch(calls, states, ops) && states[|calls|] == queue.Now()
    ensures forall i | 0 <= i < |states| :: SnapOk(states[i])
  {
    queue := new TimerQueue();
    states, ops := [queue.Now()], [];
    var issued: seq<Id> := [];
    for i := 0 to |calls|
      invariant fresh(queue) && queue.Valid() && IsRun(states, ops) && |ops| == i
      invariant AllMatch(calls, states, ops) && states[i] == queue.Now() && issued == IdsOf(ops)
      invariant forall id :: id in issued ==> Returned(queue.g.book, id)
      invariant forall j | 0 <= j < |states| :: SnapOk(states[j])
    {
      var op, id := Perform(queue, calls[i], issued);
      if id.Some? { issued := issued + [id.value]; }
      RunExtends(calls, states, ops, queue.Now(), op);
      states, ops := states + [queue.Now()], ops + [op];
    }
  }

  method Perform(queue: TimerQueue, call: Call, issued: seq<Id>) returns (ghost op: Op, newId: Option<Id>)
    requires queue.Valid() && forall id :: id in issued ==> Returned(queue.g.book, id)
    modifies queue
    ensures queue.Valid() && OpSpec(old(queue.Now()), queue.Now(), op)
    ensures Matches(call, op, issued, |old(queue.slots)|)
    ensures newId == if op.DoInsert? then Some(op.r.id) else None
    ensures forall id :: id in issued || newId == Some(id) ==> Returned(queue.g.book, id)
  {
    newId := None;
    ghost var s := queue.Now();
    match call {
      case CallInsert(deadline, waker) =>
        var r := queue.Insert(deadline, waker);
        op := DoInsert(deadline, waker, r);
        newId := Some(r.id);
      case CallCancel(which) =>
        var id := if which < |issued| then issued[which] else Id(|queue.slots|, 0);
        if which < |issued| {
          assert id in issued;
          if id.generation == 0 { ZeroIsNot(s, id); } else { IssuedIsNot(s, id); }
        }
        queue.Cancel(id);
        op := DoCancel(id);
      case CallBatch(endWait, now, alive) =>
        var wakers, more;
        ghost var ids;
        wakers, more, ids := queue.FireBatch(endWait, now, alive);
        op := DoBatch(endWait, now, alive, wakers, more, ids);
      case CallBeginWait(maxWait, now) =>
        var wait := queue.BeginWait(maxWait, now);
        op := DoBeginWait(maxWait, now, wait);
      case CallEndWait =>
        queue.EndWait();
        op := DoEndWait;
      case CallClose(alive) =>
        var wakers;
        ghost var ids;
        wakers, ids := queue.CloseAndWakeAll(alive);
        op := DoClose(alive, wakers, ids);
    }
    NeverBoth(s);
    OpGrows(s, queue.Now(), op);
  }

  /** The invariant keeps the live and the ended apart. */
  lemma NeverBoth(s: Snap)
    requires SnapOk(s)
    ensures Apart(s.g.book)
  {
    HeapOk(s);
    forall id | id in s.g.book.live ensures id !in s.g.book.fate { LiveNotEnded(TablesOf(s), s.heap, id); }
  }

  lemma RunExtends(calls: seq<Call>, states: seq<Snap>, ops: seq<Op>, s: Snap, op: Op)
    requires IsRun(states, ops) && OpSpec(states[|ops|], s, op)
    requires |ops| < |calls| && AllMatch(calls, states, ops)
    requires Matches(calls[|ops|], op, IdsOf(ops), |states[|ops|].slots|)
    ensures IsRun(states + [s], ops + [op]) && AllMatch(calls, states + [s], ops + [op])
    ensures IdsOf(ops + [op]) == IdsOf(ops) + (if op.DoInsert? then [op.r.id] else [])
  {
    var states', ops' := states + [s], ops + [op];
    assert ops'[..|ops|] == ops;
    forall i | 0 <= i < |ops'|
      ensures OpSpec(states'[i], states'[i + 1], ops'[i])
      ensures Matches(calls[i], ops'[i], IdsOf(ops'[..i]), |states'[i].slots|)
    {
      if i < |ops| {
        assert states'[i] == states[i] && states'[i + 1] == states[i + 1] && ops'[i] == ops[i];
        assert ops'[..i] == ops[..i];
      }
    }
  }

  // ---- a timer ends once ------------------------------------------------------------------

  ghost predicate Apart(b: Book) {
    forall id | id in b.live :: id !in b.fate
  }

  lemma OpGrows(s: Snap, s': Snap, op: Op)
    requires Apart(s.g.book) && OpSpec(s, s', op)
    ensures Grows(s.g.book, s'.g.book) && Apart(s'.g.book)
  {
  }

  lemma {:induction false} RunGrows(states: seq<Snap>, ops: seq<Op>, i: nat, j: nat)
    requires IsRun(states, ops) && i <= j < |states|
    ensures Apart(states[i].g.book) && Apart(states[j].g.book) && Grows(states[i].g.book, states[j].g.book)
    decreases j
  {
    if i < j {
      RunGrows(states, ops, i, j - 1);
      assert OpSpec(states[j - 1], states[j], ops[j - 1]);
      OpGrows(states[j - 1], states[j], ops[j - 1]);
    } else if i > 0 {
      RunGrows(states, ops, i - 1, i - 1);
      assert OpSpec(states[i - 1], states[i], ops[i - 1]);
      OpGrows(states[i - 1], states[i], ops[i - 1]);
    }
  }

  /** Once a timer has fired, been cancelled or been closed, no later batch fires it:
      none fires twice, and none after an effective cancel. */
  lemma EndedNeverFires(states: seq<Snap>, ops: seq<Op>, i: nat, j: nat, id: Id)
    requires IsRun(states, ops) && i < j < |ops|
    requires id in states[i].g.book.live && id !in states[i + 1].g.book.live
    requires ops[j].DoBatch?
    ensures id !in ops[j].ids && id !in states[j].g.book.live
  {
    RunGrows(states, ops, i, i + 1);
    RunGrows(states, ops, i + 1, j);
    assert OpSpec(states[j], states[j + 1], ops[j]);
  }

  lemma {:induction false} SeqGrows(states: seq<Snap>, ops: seq<Op>, i: nat, j: nat)
    requires IsRun(states, ops) && i <= j < |states|
    ensures states[i].nextSeq <= states[j].nextSeq
    decreases j
  {
    if i < j {
      SeqGrows(states, ops, i, j - 1);
      assert OpSpec(states[j - 1], states[j], ops[j - 1]);
    }
  }

  lemma InsertedThen(states: seq<Snap>, ops: seq<Op>, i: nat, k: nat)
    requires IsRun(states, ops) && i < k < |ops| && ops[i].DoInsert? && !ops[i].r.closed
    requires ops[i].r.id in states[k].g.book.live
    ensures states[k].g.book.live[ops[i].r.id] == Timer(ops[i].deadline, states[i].nextSeq, ops[i].waker)
    ensures states[i + 1].nextSeq == states[i].nextSeq + 1
  {
    assert OpSpec(states[i], states[i + 1], ops[i]);
    RunGrows(states, ops, i + 1, k);
  }

  /** Timers with equal deadlines fire in the order they were inserted: when a batch fires
      the later of two, the earlier has ended before, or fires before it in that batch. */
  lemma EqualDeadlinesFireInOrder(states: seq<Snap>, ops: seq<Op>, i: nat, j: nat, k: nat, q: nat)
    requires IsRun(states, ops) && i < j < k < |ops|
    requires ops[i].DoInsert? && !ops[i].r.closed && ops[j].DoInsert? && !ops[j].r.closed
    requires ops[i].deadline == ops[j].deadline
    requires ops[k].DoBatch? && q < |ops[k].ids| && ops[k].ids[q] == ops[j].r.id
    ensures ops[i].r.id in states[k].g.book.live ==> ops[i].r.id in ops[k].ids[..q]
  {
    var a, b, ids := ops[i].r.id, ops[j].r.id, ops[k].ids;
    assert OpSpec(states[k], states[k + 1], ops[k]);
    if a in states[k].g.book.live {
      assert b in ids;
      InsertedThen(states, ops, i, k);
      InsertedThen(states, ops, j, k);
      SeqGrows(states, ops, i + 1, j);
      assert a in ids by { assert a in states[k + 1].g.book.live || a in ids; }
      var p :| 0 <= p < |ids| && ids[p] == a;
      assert p != q && !(q < p);
    }
  }

  // ---- sweeps are paid for --------------------------------------------------------------------

  ghost predicate Effective(s: Snap, op: Op) {
    op.DoCancel? && op.id in s.g.book.live
  }

  /** How many of the first n operations are effective cancels. */
  ghost function Cancels(states: seq<Snap>, ops: seq<Op>, n: nat): nat
    requires n <= |ops| < |states|
  {
    if n == 0 then 0 else Cancels(states, ops, n - 1) + (if Effective(states[n - 1], ops[n - 1]) then 1 else 0)
  }

  /** The lengths of the heaps swept in the first n operations, added up. */
  ghost function HeapsSwept(states: seq<Snap>, ops: seq<Op>, n: nat): nat
    requires n <= |ops| < |states|
  {
    if n == 0 then 0 else HeapsSwept(states, ops, n - 1) + Swept(states[n - 1], ops[n - 1])
  }

  ghost function Swept(s: Snap, op: Op): nat {
    if Effective(s, op) && SweepDue(s) then |s.heap| else 0
  }

  /** An operation looks at exactly the heap it sweeps, and what it sweeps, with twice the
      cancelled entries it leaves, is at most twice those it found and its own cancel. */
  ghost predicate Pays(s: Snap, s': Snap, op: Op) {
    && s'.g.scanned == s.g.scanned + Swept(s, op)
    && Swept(s, op) + 2 * s'.cancelled <= 2 * s.cancelled + (if Effective(s, op) then 2 else 0)
  }

  lemma OpPays(s: Snap, s': Snap, op: Op)
    requires OpSpec(s, s', op)
    ensures Pays(s, s', op)
  {
    match op
    case DoCancel(id) =>
    case DoBatch(_, _, _, _, _, _) =>
    case _ =>
  }

  lemma {:induction false} PaymentsAddUp(states: seq<Snap>, ops: seq<Op>, n: nat)
    requires n <= |ops| < |states| && states[0].g.scanned == states[0].cancelled == 0
    requires forall i | 0 <= i < |ops| :: Pays(states[i], states[i + 1], ops[i])
    ensures states[n].g.scanned == HeapsSwept(states, ops, n)
    ensures HeapsSwept(states, ops, n) + 2 * states[n].cancelled <= 2 * Cancels(states, ops, n)
  {
    if n > 0 {
      PaymentsAddUp(states, ops, n - 1);
      assert Pays(states[n - 1], states[n], ops[n - 1]);
    }
  }

  /** In every run the sweeps look at exactly the heaps they are due on, and these, with
      twice the cancelled entries still in the heap, are at most twice the effective
      cancels. */
  lemma {:induction false} SweepsArePaidFor(states: seq<Snap>, ops: seq<Op>, n: nat)
    requires IsRun(states, ops) && n <= |ops|
    ensures states[n].g.scanned == HeapsSwept(states, ops, n)
    ensures HeapsSwept(states, ops, n) + 2 * states[n].cancelled <= 2 * Cancels(states, ops, n)
  {
    forall i | 0 <= i < |ops| ensures Pays(states[i], states[i + 1], ops[i]) {
      OpPays(states[i], states[i + 1], ops[i]);
    }
    PaymentsAddUp(states, ops, n);
  }

  // ---- a waiter wakes in time -------------------------------------------------------------------

  /** The operation that recorded the present waiter: the last begin_wait, among the first n
      operations, that had to wait and has not been ended; -1 if there is none. */
  ghost function WaitBegan(ops: seq<Op>, n: nat): (b: int)
    requires n <= |ops|
    ensures -1 <= b < n && (b >= 0 ==> ops[b].DoBeginWait?)
  {
    if n == 0 then -1
    else
      match ops[n - 1]
      case DoBeginWait(maxWait, _, wait) =>
        if maxWait.Some? && maxWait.value <= 0 then WaitBegan(ops, n - 1)
        else if wait == Some(0) then -1
        else n - 1
      case DoEndWait => -1
      case DoBatch(endWait, _, _, _, _, _) => if endWait then -1 else WaitBegan(ops, n - 1)
      case _ => WaitBegan(ops, n - 1)
  }

  /** An insert since operation b has told its caller to unpark the waiter. */
  ghost predicate ToldToUnpark(ops: seq<Op>, b: int, n: nat)
    requires n <= |ops|
  {
    exists j: nat | b < j < n :: ops[j].DoInsert? && ops[j].r.unpark
  }

  /** The wait that operation b computed ends no later than every deadline in the heap. */
  ghost predicate WakesFor(op: Op, s: Snap)
    requires op.DoBeginWait?
  {
    forall i | i in s.g.owner :: op.wait.Some? && op.at + op.wait.value <= s.g.owner[i].deadline
  }

  /** A waiter is recorded exactly while a begin_wait that had to wait is not ended. Since
      then some insert has reported that it must be unparked, or the wait it computed ends
      no later than every deadline in the heap, whatever happened meanwhile. */
  lemma {:induction false} WaiterWakesInTime(states: seq<Snap>, ops: seq<Op>, n: nat)
    requires IsRun(states, ops) && n <= |ops|
    ensures states[n].waiting <==> WaitBegan(ops, n) >= 0
    ensures var b := WaitBegan(ops, n);
            b >= 0 ==> ToldToUnpark(ops, b, n) || WakesFor(ops[b], states[n])
  {
    if n > 0 {
      WaiterWakesInTime(states, ops, n - 1);
      assert OpSpec(states[n - 1], states[n], ops[n - 1]);
      var b := WaitBegan(ops, n);
      if 0 <= b < n - 1 && !ToldToUnpark(ops, b, n) { StillInTime(states, ops, n); }
    }
  }

  lemma StillInTime(states: seq<Snap>, ops: seq<Op>, n: nat)
    requires IsRun(states, ops) && 0 < n <= |ops| && states[n - 1].waiting
    requires var b := WaitBegan(ops, n);
             0 <= b < n - 1 && WaitBegan(ops, n - 1) == b && !ToldToUnpark(ops, b, n)
             && (ToldToUnpark(ops, b, n - 1) || WakesFor(ops[b], states[n - 1]))
    ensures WakesFor(ops[WaitBegan(ops, n)], states[n])
  {
    assert OpSpec(states[n - 1], states[n], ops[n - 1]);
    var b := WaitBegan(ops, n);
    if ops[n - 1].DoInsert? {
      assert !ops[n - 1].r.unpark;
    }
  }

  /** In terms of the live timers: the waiter wakes by the deadline of each, or an insert has
      reported that it must be unparked. */
  lemma WaiterWakesForLive(states: seq<Snap>, ops: seq<Op>, n: nat, id: Id)
    requires IsRun(states, ops) && n <= |ops| && SnapOk(states[n])
    requires states[n].waiting && id in states[n].g.book.live
    ensures var b := WaitBegan(ops, n);
            && b >= 0
            && (ToldToUnpark(ops, b, n)
                || (ops[b].wait.Some? && ops[b].at + ops[b].wait.value <= states[n].g.book.live[id].deadline))
  {
    WaiterWakesInTime(states, ops, n);
    HeapOk(states[n]);
    LiveOwned(TablesOf(states[n]), states[n].heap, id);
  }
}
