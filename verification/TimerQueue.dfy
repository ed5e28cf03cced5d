/** The timer queue (src/detail/timer_queue.cpp): a heap of deadlines, a table of
    slots with generations, lazy cancellation with a sweep, and the record of a
    blocked waiter. Each method is one critical section of the code, except
    `FireExpired`, which is the loop over them.

    `now` is the clock read inside the critical section, `alive` the wakers whose
    weak reference can be locked there. */
module TimerQueues {
  import opened TimerHeap
  import opened TimerTables
  import opened TimerSpec

  class TimerQueue {
    var heap: seq<Entry>
    var slots: seq<Slot>
    var free: seq<nat>
    var nextSeq: nat
    var cancelled: nat
    var waiting: bool
    var closed: bool
    ghost var g: Ledger

    ghost function Now(): Snap
      reads this
    {
      Snap(heap, slots, free, nextSeq, cancelled, waiting, closed, g)
    }

    ghost predicate Valid()
      reads this
    {
      SnapOk(Now())
    }

    constructor ()
      ensures Valid() && Now() == NewQueue()
    {
      heap, slots, free, nextSeq, cancelled, waiting, closed := [], [], [], 0, 0, false, false;
      g := Ledger(map[], {}, Book(map[], map[]), 0);
      new;
      EmptyOk();
      assert Now() == NewQueue();
    }

    method Insert(deadline: int, waker: Waker) returns (r: Inserted)
      requires Valid()
      modifies this
      ensures Valid() && InsertSpec(old(Now()), Now(), deadline, waker, r)
    {
      if closed {
        return Inserted(Id(0, 0), false, true);
      }
      ghost var s := Now();
      HeapOk(s);
      NextSlotInRange(TablesOf(s), heap);
      var earliest := heap == [] || deadline < heap[0].deadline;
      var index := NextSlot(slots, free);
      var slots' := FilledSlots(slots, free, waker);
      var e := Entry(deadline, nextSeq, index);
      var heap' := AddToHeap(heap, e);
      var id := Id(index, slots'[index].generation);
      r := Inserted(id, waiting && earliest, false);
      InsertKeeps(s, heap', e, waker, r);
      g := InsertSnap(s, heap', e, waker).g;
      heap, slots, free, nextSeq := heap', slots', RestFree(free), nextSeq + 1;
      assert Now() == InsertSnap(s, heap', e, waker);
    }

    method Cancel(id: Id)
      requires Valid() && !NeverIssued(Now(), id)
      modifies this
      ensures Valid() && CancelSpec(old(Now()), Now(), id)
    {
      ghost var s := Now();
      CancelTest(s, id);
      if id.index >= |slots| { return; }
      if slots[id.index].generation != id.generation || slots[id.index].cancelled { return; }
      LazyCancelKeeps(s, id);
      slots, cancelled := slots[id.index := slots[id.index].(waker := None, cancelled := true)], cancelled + 1;
      g := g.(dead := g.dead + {id.index}, book := Ended(g.book, id, Cancelled));
      assert Now() == LazyCancel(s, id);
      if cancelled >= SWEEP_MIN_CANCELLED && cancelled > |heap| - cancelled {
        Sweep();
      }
    }

    method Sweep()
      requires Valid()
      modifies this
      ensures Valid() && SweepSpec(old(Now()), Now())
    {
      ghost var s := Now();
      HeapOk(s);
      var kept, slots', free';
      ghost var t, looked;
      kept, slots', free', t, looked := SweepEntries(heap, slots, free, TablesOf(s));
      var heap' := MakeHeap(kept);
      SweepKeeps(s, heap', t, kept);
      g := g.(owner := t.owner, dead := {}, scanned := g.scanned + looked);
      heap, slots, free, cancelled := heap', slots', free', 0;
      assert Now() == SweepSnap(s, heap', t);
    }

    /** `maxWait` None is no limit; so is a result of None. */
    method BeginWait(maxWait: Option<int>, now: int) returns (wait: Option<int>)
      requires Valid()
      modifies this`waiting
      ensures Valid() && WaitSpec(old(Now()), Now(), maxWait, now, wait)
    {
      if maxWait.Some? && maxWait.value <= 0 { return Some(0); }
      ghost var s := Now();
      wait := maxWait;
      if heap != [] {
        var until := if heap[0].deadline <= now then 0 else heap[0].deadline - now;
        if wait.None? || until < wait.value { wait := Some(until); }
      }
      waiting := wait.None? || wait.value > 0;
      WaitKeeps(s, Now(), maxWait, now, wait);
    }

    method EndWait()
      requires Valid()
      modifies this`waiting
      ensures Valid() && Now() == old(Now()).(waiting := false)
    {
      WaitEnds(Now());
      waiting := false;
    }

    method PopFront(alive: set<Waker>) returns (woken: Option<Waker>, ghost gone: Option<Id>)
      requires Valid() && heap != []
      modifies this
      ensures Valid() && PopSpec(old(Now()), Now(), alive, woken, gone)
    {
      ghost var s := Now();
      HeapOk(s);
      FrontSlot(s);
      var e, rest := PopHeap(heap);
      var slot := slots[e.slot];
      woken, gone := None, None;
      if slot.cancelled {
        cancelled := cancelled - 1;
      } else {
        gone := Some(Id(e.slot, slot.generation));
        if slot.waker.Some? && slot.waker.value in alive { woken := slot.waker; }
      }
      PopKeeps(s, rest, alive, woken, gone);
      g := PopSnap(s, rest).g;
      heap, slots, free := rest, Freed(slots, e.slot), free + [e.slot];
      assert Now() == PopSnap(s, rest);
    }

    /** One locked batch of `fire_expired`. */
    method FireBatch(endWait: bool, now: int, alive: set<Waker>)
      returns (wakers: seq<Waker>, more: bool, ghost ids: seq<Id>)
      requires Valid()
      modifies this
      ensures Valid() && BatchSpec(old(Now()), Now(), endWait, now, alive, wakers, more, ids)
    {
      wakers, more, ids := [], false, [];
      ghost var s := Now();
      WaitEnds(s);
      if endWait { waiting := false; }
      assert Now() == if endWait then s.(waiting := false) else s;
      while heap != [] && heap[0].deadline <= now
        invariant Valid() && Firing(s, Now(), endWait, now, alive, wakers, ids)
        decreases |heap|
      {
        if |wakers| == BATCH {
          more := true;
          break;
        }
        ghost var m := Now();
        var woken;
        ghost var gone;
        woken, gone := PopFront(alive);
        FiresOne(s, m, Now(), endWait, now, alive, wakers, ids, woken, gone);
        if gone.Some? { ids := ids + [gone.value]; }
        if woken.Some? { wakers := wakers + [woken.value]; }
      }
      if !more { NoneDue(Now(), now); }
    }

    /** The whole of `fire_expired`, with nothing else happening between its batches:
        every timer due is fired, in order. */
    method FireExpired(endWait: bool, now: int, alive: set<Waker>) returns (fired: nat, ghost ids: seq<Id>)
      requires Valid()
      modifies this
      ensures Valid() && TakenInOrder(old(g).book.live, ids, now, g.book.live) && Grows(old(g).book, g.book)
      ensures forall id | id in g.book.live :: g.book.live[id].deadline > now
      ensures fired == |WakersOf(old(g).book.live, ids, alive)|
    {
      ids := [];
      ghost var b := g.book;
      var more := true;
      fired := 0;
      while more
        invariant Valid() && TakenInOrder(b.live, ids, now, g.book.live) && Grows(b, g.book)
        invariant fired == |WakersOf(b.live, ids, alive)|
        invariant !more ==> forall id | id in g.book.live :: g.book.live[id].deadline > now
        decreases if more then |heap| + 1 else 0
      {
        ghost var m := g.book;
        var wakers;
        ghost var batch;
        wakers, more, batch := FireBatch(endWait, now, alive);
        BatchesJoin(b.live, ids, m.live, batch, now, g.book.live, alive);
        ids := ids + batch;
        fired := fired + |wakers|;
      }
    }

    /** Empties and closes the queue; wakes every live timer. */
    method CloseAndWakeAll(alive: set<Waker>) returns (wakers: seq<Waker>, ghost ids: seq<Id>)
      requires Valid()
      modifies this
      ensures Valid() && CloseSpec(old(Now()), Now(), alive, wakers, ids)
    {
      ghost var s := Now();
      HeapOk(s);
      var slots', free';
      ghost var t;
      wakers, slots', free', t, ids := CloseEntries(heap, slots, free, alive, TablesOf(s));
      CloseKeeps(s, t, alive, wakers, ids);
      g := CloseSnap(s, t).g;
      heap, slots, free, cancelled, closed := [], slots', free', 0, true;
      assert Now() == CloseSnap(s, t);
    }
  }
}
