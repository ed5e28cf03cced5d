/** What each operation of the timer queue does, as a relation between the state
    before and the state after, and why it keeps the queue's invariant. */
module TimerSpec {
  import opened TimerHeap
  import opened TimerTables

  const SWEEP_MIN_CANCELLED: nat := 64
  const BATCH: nat := 32

  datatype Inserted = Inserted(id: Id, unpark: bool, closed: bool)

  /** What the code does not store. `owner` is the entry of each slot in use, `dead`
      the slots cancelled but still in the heap, `book` the simple model; `scanned`
      counts the entries that sweeps have looked at. */
  datatype Ledger = Ledger(owner: map<nat, Entry>, dead: set<nat>, book: Book, scanned: nat)

  datatype Snap = Snap(heap: seq<Entry>, slots: seq<Slot>, free: seq<nat>, nextSeq: nat,
                       cancelled: nat, waiting: bool, closed: bool, g: Ledger)

  ghost function TablesOf(s: Snap): Tables {
    Tables(s.slots, s.free, s.nextSeq, s.g.owner, s.g.dead, s.g.book)
  }

  /** A queue just constructed. */
  ghost function NewQueue(): Snap {
    Snap([], [], [], 0, 0, false, false, Ledger(map[], {}, Book(map[], map[]), 0))
  }

  ghost predicate SnapFacts(s: Snap) {
    && IsHeap(s.heap) && Good(TablesOf(s), s.heap) && s.cancelled == |s.g.dead|
    && (s.closed ==> s.heap == [])
  }

  /** Folded, like `Good`: the methods of the queue carry it as one fact. */
  ghost predicate Open(f: Fold) { true }

  ghost predicate SnapOk(s: Snap) {
    forall f: Fold {:trigger Open(f)} :: Open(f) ==> SnapFacts(s)
  }

  lemma HeapOk(s: Snap)
    requires SnapOk(s)
    ensures IsHeap(s.heap) && Good(TablesOf(s), s.heap)
  {
    assert Open(Fold);
  }

  /** The id of a slot that is free: one that no insert has returned. */
  ghost predicate NeverIssued(s: Snap, id: Id) {
    id.index < |s.slots| && id.index !in s.g.owner && id.generation == s.slots[id.index].generation
  }

  /** An id some insert has returned always satisfies what `cancel` needs. */
  lemma IssuedIsNot(s: Snap, id: Id)
    requires SnapOk(s) && Issued(s.g.book, id)
    ensures !NeverIssued(s, id)
  {
    assert Open(Fold);
    assert Unfold(Fold);
  }

  /** So does the id that an insert into a closed queue returns: a slot on the free list has
      moved on from generation 0. */
  lemma ZeroIsNot(s: Snap, id: Id)
    requires SnapOk(s) && id.generation == 0
    ensures !NeverIssued(s, id)
  {
    assert Open(Fold);
    assert Unfold(Fold);
  }

  function Max(a: int, b: int): int { if a < b then b else a }

  // ---- insert ---------------------------------------------------------------------

  ghost predicate InsertSpec(s: Snap, s': Snap, deadline: int, waker: Waker, r: Inserted) {
    if s.closed then s' == s && r == Inserted(Id(0, 0), false, true)
    else
      && !r.closed && !Issued(s.g.book, r.id)
      && s'.g.book == Added(s.g.book, r.id, Timer(deadline, s.nextSeq, waker))
      && (r.unpark <==> s.waiting && forall i | i in s.g.owner :: deadline < s.g.owner[i].deadline)
      && r.id.index !in s.g.owner
      && s'.g.owner == s.g.owner[r.id.index := Entry(deadline, s.nextSeq, r.id.index)]
      && s'.nextSeq == s.nextSeq + 1 && s'.waiting == s.waiting && !s'.closed
      && s'.cancelled == s.cancelled && |s'.heap| == |s.heap| + 1 && s'.g.scanned == s.g.scanned
  }

  lemma EarliestInserted(s: Snap, deadline: int)
    requires SnapOk(s)
    ensures (s.heap == [] || deadline < s.heap[0].deadline) <==>
              forall i | i in s.g.owner :: deadline < s.g.owner[i].deadline
  {
    assert Open(Fold);
    GoodFront(TablesOf(s), s.heap);
  }

  /** The state after an insert whose entry and heap are given. */
  ghost function InsertSnap(s: Snap, heap: seq<Entry>, e: Entry, w: Waker): Snap
    requires e.slot == NextSlot(s.slots, s.free) < |GrownSlots(s.slots, s.free)|
  {
    var t := InsertTables(TablesOf(s), e, w);
    Snap(heap, t.slots, t.free, t.nextSeq, s.cancelled, s.waiting, s.closed,
         s.g.(owner := t.owner, book := t.book))
  }

  lemma InsertKeeps(s: Snap, heap: seq<Entry>, e: Entry, w: Waker, r: Inserted)
    requires SnapOk(s) && !s.closed && e.slot == NextSlot(s.slots, s.free) < |GrownSlots(s.slots, s.free)|
    requires IsHeap(heap) && multiset(heap) == multiset(s.heap) + multiset{e} && e.seqNo == s.nextSeq
    requires r.id == Id(e.slot, FilledSlots(s.slots, s.free, w)[e.slot].generation) && !r.closed
    requires r.unpark == (s.waiting && (s.heap == [] || e.deadline < s.heap[0].deadline))
    ensures SnapOk(InsertSnap(s, heap, e, w)) && InsertSpec(s, InsertSnap(s, heap, e, w), e.deadline, w, r)
  {
    assert Open(Fold);
    var s' := InsertSnap(s, heap, e, w);
    EarliestInserted(s, e.deadline);
    GoodFront(TablesOf(s), s.heap);
    GoodInsert(TablesOf(s), s.heap, heap, e, w);
    assert TablesOf(s') == InsertTables(TablesOf(s), e, w);
    assert |heap| == |multiset(heap)| == |multiset(s.heap)| + 1;
  }

  // ---- cancel and sweep -------------------------------------------------------------

  /** Whether one more cancelled entry makes the queue sweep. */
  predicate SweepDue(s: Snap) {
    s.cancelled + 1 >= SWEEP_MIN_CANCELLED && s.cancelled + 1 > |s.heap| - (s.cancelled + 1)
  }

  /** A stale id changes nothing. An effective cancel ends that one timer; a sweep, which
      looks at every entry of the heap, follows exactly when it is due. Few cancelled
      entries are left, or no more of them than live ones. */
  ghost predicate CancelSpec(s: Snap, s': Snap, id: Id) {
    if id !in s.g.book.live then s' == s
    else
      && s'.g.book == Ended(s.g.book, id, Cancelled)
      && (if SweepDue(s) then
            && s'.cancelled == 0 && |s'.heap| == |s.heap| - (s.cancelled + 1)
            && s'.g.owner == s.g.owner - (s.g.dead + {id.index}) && s'.g.dead == {}
            && s'.g.scanned == s.g.scanned + |s.heap|
          else
            && s'.cancelled == s.cancelled + 1 && s'.heap == s.heap
            && s'.g.owner == s.g.owner && s'.g.dead == s.g.dead + {id.index}
            && s'.g.scanned == s.g.scanned)
      && (s'.cancelled < SWEEP_MIN_CANCELLED || s'.cancelled <= |s'.heap| - s'.cancelled)
      && s'.waiting == s.waiting && s'.closed == s.closed && s'.nextSeq == s.nextSeq
  }

  ghost function LazyCancel(s: Snap, id: Id): Snap
    requires id.index < |s.slots|
  {
    s.(slots := s.slots[id.index := s.slots[id.index].(waker := None, cancelled := true)],
       cancelled := s.cancelled + 1,
       g := s.g.(dead := s.g.dead + {id.index}, book := Ended(s.g.book, id, Cancelled)))
  }

  lemma CancelTest(s: Snap, id: Id)
    requires SnapOk(s) && !NeverIssued(s, id)
    ensures id in s.g.book.live <==>
      id.index < |s.slots| && s.slots[id.index].generation == id.generation && !s.slots[id.index].cancelled
  {
    assert Open(Fold);
    LiveOwned(TablesOf(s), s.heap, id);
  }

  lemma LazyCancelKeeps(s: Snap, id: Id)
    requires SnapOk(s) && id in s.g.book.live && id.index < |s.slots|
    ensures SnapOk(LazyCancel(s, id)) && LazyCancel(s, id).cancelled <= |s.heap|
  {
    assert Open(Fold);
    GoodCancel(TablesOf(s), s.heap, id);
    assert TablesOf(LazyCancel(s, id)) == CancelTables(TablesOf(s), id);
    DeadFitGood(TablesOf(LazyCancel(s, id)), s.heap);
  }

  /** A sweep removes exactly the cancelled entries, and does not show in the book. */
  ghost predicate SweepSpec(s: Snap, s': Snap) {
    && s'.cancelled == 0 && s'.waiting == s.waiting && s'.closed == s.closed && s'.nextSeq == s.nextSeq
    && |s'.heap| == |s.heap| - s.cancelled
    && s'.g == s.g.(owner := s.g.owner - s.g.dead, dead := {}, scanned := s.g.scanned + |s.heap|)
  }

  lemma AllDeadGone(t: Tables, items: seq<Entry>)
    requires Good(t, items) && forall e | e in items :: e.slot !in t.dead
    ensures t.dead == {}
  {
    assert Unfold(Fold);
    forall d | d in t.dead ensures false {
      OwnerQueued(items, t.slots, t.free, t.owner, t.dead, t.nextSeq, d);
    }
  }

  /** What the sweep has done so far: some cancelled entries are gone, nothing else. */
  ghost predicate Swept(before: Tables, t: Tables) {
    && t.nextSeq == before.nextSeq && t.book == before.book
    && t.dead <= before.dead && t.owner == before.owner - (before.dead - t.dead)
  }

  ghost predicate Spared(t: Tables, kept: seq<Entry>) {
    forall e | e in kept :: e.slot !in t.dead
  }

  /** The sweep's loop, one entry on: `t` and `kept` so far, `e` the next entry. */
  lemma SweepOne(before: Tables, t: Tables, kept: seq<Entry>, e: Entry, rest: seq<Entry>)
    requires Good(t, kept + ([e] + rest)) && Spared(t, kept) && Swept(before, t)
    ensures e.slot < |t.slots| && (t.slots[e.slot].cancelled <==> e.slot in t.dead)
    ensures t.slots[e.slot].cancelled ==>
              var u := FreeTables(t, e.slot, t.book);
              Good(u, kept + rest) && Swept(before, u) && Spared(u, kept)
    ensures !t.slots[e.slot].cancelled ==> Good(t, (kept + [e]) + rest) && Spared(t, kept + [e])
  {
    var items := kept + ([e] + rest);
    assert e in items by { assert items[|kept|] == e; }
    ItemOwned(t, items, e);
    if t.slots[e.slot].cancelled {
      GoodLeave(t, items, kept + rest, e, Cancelled);
      StillSwept(before, t, e.slot);
    } else {
      assert (kept + [e]) + rest == items;
    }
  }

  lemma StillSwept(before: Tables, t: Tables, i: nat)
    requires Swept(before, t) && i in t.dead && i in t.owner && i < |t.slots|
    ensures Swept(before, FreeTables(t, i, t.book))
  {
    var u := FreeTables(t, i, t.book);
    assert before.dead - u.dead == (before.dead - t.dead) + {i};
    assert u.owner == before.owner - (before.dead - u.dead);
  }

  /** The sweep's invariant: `kept` so far, `rest` still to look at. */
  ghost predicate Sweeping(before: Tables, t: Tables, kept: seq<Entry>, rest: seq<Entry>) {
    forall f: Fold {:trigger Open(f)} :: Open(f) ==> Good(t, kept + rest) && Swept(before, t) && Spared(t, kept)
  }

  lemma SweepStarts(before: Tables, heap: seq<Entry>)
    requires Good(before, heap)
    ensures Sweeping(before, before, [], heap[0..])
  {
    assert [] + heap[0..] == heap;
  }

  lemma SweepAt(before: Tables, t: Tables, kept: seq<Entry>, heap: seq<Entry>, i: nat)
    requires i < |heap| && Sweeping(before, t, kept, heap[i..])
    ensures var e, rest := heap[i], heap[i + 1..];
            && e.slot < |t.slots|
            && (t.slots[e.slot].cancelled ==> Sweeping(before, FreeTables(t, e.slot, t.book), kept, rest))
            && (!t.slots[e.slot].cancelled ==> Sweeping(before, t, kept + [e], rest))
  {
    assert Open(Fold);
    assert heap[i..] == [heap[i]] + heap[i + 1..];
    SweepOne(before, t, kept, heap[i], heap[i + 1..]);
  }

  lemma SweepEnds(before: Tables, t: Tables, kept: seq<Entry>, rest: seq<Entry>)
    requires Sweeping(before, t, kept, rest) && |rest| == 0
    ensures Good(t, kept) && Swept(before, t) && Spared(t, kept)
  {
    assert Open(Fold);
    assert kept + rest == kept;
  }

  /** The state after a sweep that ended with tables `t` and a rebuilt heap. */
  ghost function SweepSnap(s: Snap, heap: seq<Entry>, t: Tables): Snap {
    Snap(heap, t.slots, t.free, s.nextSeq, 0, s.waiting, s.closed,
         s.g.(owner := t.owner, dead := {}, scanned := s.g.scanned + |s.heap|))
  }

  /** `erase_if` with `free_slot`: keeps the live entries, in order. */
  method SweepEntries(heap: seq<Entry>, slots: seq<Slot>, free: seq<nat>, ghost before: Tables)
    returns (kept: seq<Entry>, slots': seq<Slot>, free': seq<nat>, ghost t: Tables, ghost looked: nat)
    requires Good(before, heap) && before.slots == slots && before.free == free
    ensures Good(t, kept) && t.slots == slots' && t.free == free' && Swept(before, t) && Spared(t, kept)
    ensures |kept| <= |heap| && looked == |heap|
  {
    kept, slots', free', t, looked := [], slots, free, before, 0;
    var i := 0;
    SweepStarts(before, heap);
    while i < |heap|
      invariant 0 <= i <= |heap| && Sweeping(before, t, kept, heap[i..])
      invariant t.slots == slots' && t.free == free' && |kept| <= i && looked == i
    {
      var e := heap[i];
      looked := looked + 1;
      SweepAt(before, t, kept, heap, i);
      if slots'[e.slot].cancelled {
        t := FreeTables(t, e.slot, t.book);
        slots', free' := Freed(slots', e.slot), free' + [e.slot];
      } else {
        kept := kept + [e];
      }
      i := i + 1;
    }
    SweepEnds(before, t, kept, heap[i..]);
  }

  lemma SweepKeeps(s: Snap, heap: seq<Entry>, t: Tables, kept: seq<Entry>)
    requires SnapOk(s) && Good(t, kept) && multiset(heap) == multiset(kept) && IsHeap(heap)
    requires Swept(TablesOf(s), t) && Spared(t, kept)
    requires |kept| <= |s.heap|
    ensures SnapOk(SweepSnap(s, heap, t)) && SweepSpec(s, SweepSnap(s, heap, t))
  {
    assert Open(Fold);
    AllDeadGone(t, kept);
    GoodReorder(t, kept, heap);
    assert TablesOf(SweepSnap(s, heap, t)) == t;
    SweptCount(TablesOf(s), s.heap, t, heap);
  }

  lemma SweptCount(before: Tables, items: seq<Entry>, t: Tables, kept: seq<Entry>)
    requires Good(before, items) && Good(t, kept) && Swept(before, t) && t.dead == {}
    ensures |kept| == |items| - |before.dead|
  {
    EntryCount(before, items);
    EntryCount(t, kept);
    assert t.owner.Keys == before.owner.Keys - before.dead;
    assert before.owner.Keys == t.owner.Keys + before.dead;
  }

  lemma EntryCount(t: Tables, items: seq<Entry>)
    requires Good(t, items)
    ensures |items| == |t.owner.Keys| && t.dead <= t.owner.Keys
  {
    assert Unfold(Fold);
  }

  // ---- waiting ----------------------------------------------------------------------

  /** How long a waiter may block: until the earliest deadline, at most `maxWait`. */
  ghost predicate WaitSpec(s: Snap, s': Snap, maxWait: Option<int>, now: int, wait: Option<int>) {
    if maxWait.Some? && maxWait.value <= 0 then s' == s && wait == Some(0)
    else
      && (maxWait.Some? ==> wait.Some? && wait.value <= maxWait.value)
      && (forall i | i in s.g.owner :: wait.Some? && now + wait.value <= Max(now, s.g.owner[i].deadline))
      && (wait == maxWait || exists i | i in s.g.owner :: wait == Some(Max(0, s.g.owner[i].deadline - now)))
      && s' == s.(waiting := wait.None? || wait.value > 0)
  }

  lemma WaitKeeps(s: Snap, s': Snap, maxWait: Option<int>, now: int, wait: Option<int>)
    requires SnapOk(s) && (maxWait.None? || maxWait.value > 0)
    requires wait ==
      if s.heap == [] then maxWait
      else (var until := Max(0, s.heap[0].deadline - now);
            if maxWait.None? || until < maxWait.value then Some(until) else maxWait)
    requires s' == s.(waiting := wait.None? || wait.value > 0)
    ensures SnapOk(s') && WaitSpec(s, s', maxWait, now, wait)
  {
    assert Open(Fold);
    GoodFront(TablesOf(s), s.heap);
    assert TablesOf(s') == TablesOf(s);
    if s.heap != [] { assert s.g.owner[s.heap[0].slot] == s.heap[0]; }
  }

  lemma WaitEnds(s: Snap)
    requires SnapOk(s)
    ensures SnapOk(s.(waiting := false))
  {
    assert Open(Fold);
    assert TablesOf(s.(waiting := false)) == TablesOf(s);
  }

  lemma EmptyOk()
    ensures SnapOk(NewQueue())
  {
  }

  // ---- firing -----------------------------------------------------------------------

  /** Entries may have left, and none has changed. */
  ghost predicate Fewer(s: Snap, s': Snap) {
    forall i | i in s'.g.owner :: i in s.g.owner && s'.g.owner[i] == s.g.owner[i]
  }

  /** The front entry leaves: a cancelled one without a trace, a live one, the next
      to fire, ends. */
  ghost predicate PopSpec(s: Snap, s': Snap, alive: set<Waker>, woken: Option<Waker>, gone: Option<Id>) {
    && s.heap != [] && |s'.heap| == |s.heap| - 1
    && s'.waiting == s.waiting && s'.closed == s.closed && s'.nextSeq == s.nextSeq
    && s'.cancelled <= s.cancelled && s'.g.scanned == s.g.scanned && Fewer(s, s')
    && if gone.None? then s'.g.book == s.g.book && woken.None?
       else
         && gone.value in s.g.book.live && gone.value !in s.g.book.fate
         && s'.g.book == Ended(s.g.book, gone.value, Fired)
         && s.g.book.live[gone.value].deadline == s.heap[0].deadline
         && (forall x | x in s'.g.book.live :: Earlier(s.g.book.live[gone.value], s.g.book.live[x]))
         && woken == (var w := s.g.book.live[gone.value].waker; if w in alive then Some(w) else None)
  }

  /** The live timer at the front fires before every other live timer. */
  lemma FrontIsNext(t: Tables, heap: seq<Entry>, id: Id)
    requires Good(t, heap) && IsHeap(heap) && heap != [] && id in t.book.live && id.index == heap[0].slot
    ensures forall x | x in t.book.live && x != id :: Earlier(t.book.live[id], t.book.live[x])
  {
    ItemOwned(t, heap, heap[0]);
    LiveOwned(t, heap, id);
    forall x | x in t.book.live && x != id ensures Earlier(t.book.live[id], t.book.live[x]) {
      LiveOwned(t, heap, x);
      FrontBefore(t, heap, x.index);
      LiveDistinct(t, heap, id, x);
    }
  }

  /** The state after the front entry has left, its slot freed. */
  ghost function PopSnap(s: Snap, rest: seq<Entry>): Snap
    requires s.heap != [] && s.heap[0].slot < |s.slots|
    requires s.slots[s.heap[0].slot].cancelled ==> s.cancelled > 0
  {
    var i := s.heap[0].slot;
    var t := FreeTables(TablesOf(s), i, LeaveBook(TablesOf(s), i, Fired));
    Snap(rest, t.slots, t.free, s.nextSeq, if s.slots[i].cancelled then s.cancelled - 1 else s.cancelled,
         s.waiting, s.closed, s.g.(owner := t.owner, dead := t.dead, book := t.book))
  }

  lemma PopKeeps(s: Snap, rest: seq<Entry>, alive: set<Waker>, woken: Option<Waker>, gone: Option<Id>)
    requires SnapOk(s) && s.heap != [] && s.heap[0].slot < |s.slots|
    requires IsHeap(rest) && multiset(s.heap) == multiset(rest) + multiset{s.heap[0]}
    requires s.slots[s.heap[0].slot].cancelled ==> s.cancelled > 0
    requires var slot := s.slots[s.heap[0].slot];
      && gone == (if slot.cancelled then None else Some(Id(s.heap[0].slot, slot.generation)))
      && woken == (if !slot.cancelled && slot.waker.Some? && slot.waker.value in alive then slot.waker else None)
    ensures SnapOk(PopSnap(s, rest)) && PopSpec(s, PopSnap(s, rest), alive, woken, gone)
  {
    assert Open(Fold);
    var t, e, s' := TablesOf(s), s.heap[0], PopSnap(s, rest);
    ItemOwned(t, s.heap, e);
    LiveItem(t, s.heap, e);
    GoodLeave(t, s.heap, rest, e, Fired);
    assert TablesOf(s') == FreeTables(t, e.slot, LeaveBook(t, e.slot, Fired));
    if gone.Some? {
      FrontIsNext(t, s.heap, gone.value);
      LiveNotEnded(t, s.heap, gone.value);
    }
  }

  lemma FrontSlot(s: Snap)
    requires SnapOk(s) && s.heap != []
    ensures s.heap[0].slot < |s.slots|
    ensures s.slots[s.heap[0].slot].cancelled ==> s.cancelled > 0
  {
    assert Open(Fold);
    ItemOwned(TablesOf(s), s.heap, s.heap[0]);
  }

  /** The fates added are those of `ids`, fired. */
  ghost predicate OnlyFired(b: Book, ids: seq<Id>, c: Book) {
    && (forall id | id in ids :: id in c.fate && c.fate[id] == Fired)
    && (forall id | id in c.fate :: id in ids || id in b.fate)
  }

  /** One locked batch: a prefix of the due timers in firing order, at most 32 wakers,
      and all of the due timers unless it filled up. */
  ghost predicate BatchSpec(s: Snap, s': Snap, endWait: bool, now: int, alive: set<Waker>,
                            wakers: seq<Waker>, more: bool, ids: seq<Id>) {
    && TakenInOrder(s.g.book.live, ids, now, s'.g.book.live)
    && Grows(s.g.book, s'.g.book)
    && OnlyFired(s.g.book, ids, s'.g.book)
    && wakers == WakersOf(s.g.book.live, ids, alive) && |wakers| <= BATCH
    && (more ==> |wakers| == BATCH && |s'.heap| < |s.heap|)
    && (!more ==> forall id | id in s'.g.book.live :: s'.g.book.live[id].deadline > now)
    && s'.waiting == (s.waiting && !endWait) && s'.closed == s.closed && s'.nextSeq == s.nextSeq
    && s'.cancelled <= s.cancelled && s'.g.scanned == s.g.scanned && Fewer(s, s')
  }

  /** The batch so far. */
  ghost predicate Firing(s: Snap, s': Snap, endWait: bool, now: int, alive: set<Waker>,
                         wakers: seq<Waker>, ids: seq<Id>) {
    && TakenInOrder(s.g.book.live, ids, now, s'.g.book.live)
    && Grows(s.g.book, s'.g.book)
    && OnlyFired(s.g.book, ids, s'.g.book)
    && wakers == WakersOf(s.g.book.live, ids, alive) && |wakers| <= BATCH
    && |s'.heap| + |wakers| <= |s.heap|
    && s'.waiting == (s.waiting && !endWait) && s'.closed == s.closed && s'.nextSeq == s.nextSeq
    && s'.cancelled <= s.cancelled && s'.g.scanned == s.g.scanned && Fewer(s, s')
  }

  /** One more timer taken: the earliest of those left. */
  lemma TakeOne(before: map<Id, Timer>, ids: seq<Id>, now: int, live: map<Id, Timer>, id: Id, alive: set<Waker>)
    requires TakenInOrder(before, ids, now, live)
    requires id in live && live[id].deadline <= now
    requires forall x | x in live && x != id :: Earlier(live[id], live[x])
    ensures TakenInOrder(before, ids + [id], now, live - {id})
    ensures WakersOf(before, ids + [id], alive) ==
              WakersOf(before, ids, alive) + (if live[id].waker in alive then [live[id].waker] else [])
  {
    var ids' := ids + [id];
    assert ids'[..|ids|] == ids;
    assert (set x | x in ids') == (set x | x in ids) + {id};
  }

  lemma {:induction false} WakersJoin(live: map<Id, Timer>, xs: seq<Id>, mid: map<Id, Timer>, ys: seq<Id>,
                                      alive: set<Waker>)
    requires forall id | id in xs :: id in live
    requires forall id | id in ys :: id in mid && id in live && mid[id] == live[id]
    ensures WakersOf(live, xs + ys, alive) == WakersOf(live, xs, alive) + WakersOf(mid, ys, alive)
  {
    if ys == [] {
      assert xs + ys == xs;
    } else {
      var init := ys[..|ys| - 1];
      WakersJoin(live, xs, mid, init, alive);
      assert (xs + ys)[..|xs + ys| - 1] == xs + init;
    }
  }

  lemma OrderJoins(before: map<Id, Timer>, xs: seq<Id>, mid: map<Id, Timer>, ys: seq<Id>, now: int,
                   after: map<Id, Timer>)
    requires TakenInOrder(before, xs, now, mid) && TakenInOrder(mid, ys, now, after)
    ensures forall id | id in xs + ys :: id in before && before[id].deadline <= now
    ensures Ascending(before, xs + ys)
  {
    var all := xs + ys;
    forall id | id in all ensures id in before && before[id].deadline <= now {
      if id !in xs { assert id in ys; }
    }
    forall k, l | 0 <= k < l < |all| ensures Earlier(before[all[k]], before[all[l]]) {
      if k >= |xs| { assert Earlier(mid[ys[k - |xs|]], mid[ys[l - |xs|]]); }
    }
  }

  lemma SetsJoin(xs: seq<Id>, ys: seq<Id>)
    ensures (set id | id in xs + ys) == (set id | id in xs) + (set id | id in ys)
  {
  }

  /** Two batches in a row are one longer batch. */
  lemma BatchesJoin(before: map<Id, Timer>, xs: seq<Id>, mid: map<Id, Timer>, ys: seq<Id>, now: int,
                    after: map<Id, Timer>, alive: set<Waker>)
    requires TakenInOrder(before, xs, now, mid) && TakenInOrder(mid, ys, now, after)
    ensures TakenInOrder(before, xs + ys, now, after)
    ensures WakersOf(before, xs + ys, alive) == WakersOf(before, xs, alive) + WakersOf(mid, ys, alive)
  {
    OrderJoins(before, xs, mid, ys, now, after);
    WakersJoin(before, xs, mid, ys, alive);
    SetsJoin(xs, ys);
    forall id, k | id in after && 0 <= k < |xs + ys| ensures Earlier(before[(xs + ys)[k]], before[id]) {
      if k >= |xs| { assert (xs + ys)[k] == ys[k - |xs|]; }
    }
  }

  lemma EndedGrows(b: Book, m: Book, ids: seq<Id>, id: Id)
    requires Grows(b, m) && id !in m.fate && OnlyFired(b, ids, m)
    ensures Grows(b, Ended(m, id, Fired)) && OnlyFired(b, ids + [id], Ended(m, id, Fired))
  {
  }

  lemma FiresOne(s: Snap, m: Snap, s': Snap, endWait: bool, now: int, alive: set<Waker>,
                 wakers: seq<Waker>, ids: seq<Id>, woken: Option<Waker>, gone: Option<Id>)
    requires Firing(s, m, endWait, now, alive, wakers, ids) && |wakers| < BATCH
    requires PopSpec(m, s', alive, woken, gone) && m.heap[0].deadline <= now
    ensures Firing(s, s', endWait, now, alive,
                   if woken.Some? then wakers + [woken.value] else wakers,
                   if gone.Some? then ids + [gone.value] else ids)
  {
    if gone.Some? {
      TakeOne(s.g.book.live, ids, now, m.g.book.live, gone.value, alive);
      EndedGrows(s.g.book, m.g.book, ids, gone.value);
    }
  }

  lemma NoneDue(s: Snap, now: int)
    requires SnapOk(s) && (s.heap == [] || s.heap[0].deadline > now)
    ensures forall id | id in s.g.book.live :: s.g.book.live[id].deadline > now
  {
    assert Open(Fold);
    GoodFront(TablesOf(s), s.heap);
    forall id | id in s.g.book.live ensures s.g.book.live[id].deadline > now {
      LiveOwned(TablesOf(s), s.heap, id);
    }
  }

  // ---- closing ----------------------------------------------------------------------

  /** `ids` are the timers closed so far; the others are as they were. */
  ghost predicate AllEnded(b: Book, ids: seq<Id>, c: Book) {
    && (forall id | id in ids :: id in b.live && id in c.fate && c.fate[id] == Closed)
    && (forall k, l | 0 <= k < l < |ids| :: ids[k] != ids[l])
    && c.live == b.live - (set id | id in ids)
    && (forall id | id in b.fate && id !in ids :: id in c.fate && c.fate[id] == b.fate[id])
    && (forall id | id in c.fate :: id in ids || id in b.fate)
  }

  lemma EndOne(b: Book, ids: seq<Id>, c: Book, id: Id, alive: set<Waker>)
    requires AllEnded(b, ids, c) && id in c.live
    ensures AllEnded(b, ids + [id], Ended(c, id, Closed)) && id in b.live && b.live[id] == c.live[id]
    ensures WakersOf(b.live, ids + [id], alive) ==
              WakersOf(b.live, ids, alive) + (if b.live[id].waker in alive then [b.live[id].waker] else [])
  {
    assert (ids + [id])[..|ids|] == ids;
    assert (set x | x in ids + [id]) == (set x | x in ids) + {id};
  }

  /** Every live timer is closed, once, and its waker woken if it can be. */
  ghost predicate CloseSpec(s: Snap, s': Snap, alive: set<Waker>, wakers: seq<Waker>, ids: seq<Id>) {
    && s'.closed && s'.heap == [] && s'.g.book.live == map[]
    && AllEnded(s.g.book, ids, s'.g.book) && (forall id | id in s.g.book.live :: id in ids)
    && wakers == WakersOf(s.g.book.live, ids, alive)
    && s'.waiting == s.waiting && s'.nextSeq == s.nextSeq
    && s'.cancelled == 0 && s'.g.owner == map[] && s'.g.scanned == s.g.scanned
  }

  lemma AllListed(b: Book, ids: seq<Id>, c: Book)
    requires AllEnded(b, ids, c) && c.live == map[]
    ensures forall id | id in b.live :: id in ids
  {
    forall id | id in b.live ensures id in ids {
      assert id in ids || id in c.live;
    }
  }

  lemma NothingLeft(t: Tables)
    requires Good(t, [])
    ensures t.owner == map[] && t.dead == {} && t.book.live == map[]
  {
    assert Unfold(Fold);
    assert t.owner.Keys == {};
  }

  /** The closing loop, one entry on. */
  lemma CloseOne(t: Tables, e: Entry, rest: seq<Entry>)
    requires Good(t, [e] + rest)
    ensures e.slot < |t.slots| && Good(FreeTables(t, e.slot, LeaveBook(t, e.slot, Closed)), rest)
    ensures !t.slots[e.slot].cancelled ==>
      var id := Id(e.slot, t.slots[e.slot].generation);
      id in t.book.live && t.slots[e.slot].waker == Some(t.book.live[id].waker)
  {
    assert e in [e] + rest;
    LiveItem(t, [e] + rest, e);
    GoodLeave(t, [e] + rest, rest, e, Closed);
  }

  /** What the closing loop has done so far: the slots and free list, the ids it has closed
      and the wakers it has collected. */
  datatype Closure = Closure(slots: seq<Slot>, free: seq<nat>, ids: seq<Id>, wakers: seq<Waker>)

  /** The closing loop's invariant, `rest` being still to close. */
  ghost predicate Closing(before: Tables, alive: set<Waker>, t: Tables, c: Closure, rest: seq<Entry>) {
    forall f: Fold {:trigger Open(f)} :: Open(f) ==>
      && Good(t, rest) && t.slots == c.slots && t.free == c.free && t.nextSeq == before.nextSeq
      && AllEnded(before.book, c.ids, t.book) && c.wakers == WakersOf(before.book.live, c.ids, alive)
  }

  lemma CloseStarts(before: Tables, alive: set<Waker>, heap: seq<Entry>)
    requires Good(before, heap)
    ensures Closing(before, alive, before, Closure(before.slots, before.free, [], []), heap[0..])
  {
    assert heap[0..] == heap;
  }

  lemma CloseAt(before: Tables, alive: set<Waker>, t: Tables, c: Closure, heap: seq<Entry>, i: nat)
    requires i < |heap| && Closing(before, alive, t, c, heap[i..])
    ensures var e, rest := heap[i], heap[i + 1..];
            && e.slot < |t.slots| && e.slot < |c.slots|
            && (var slot := c.slots[e.slot];
                var u := FreeTables(t, e.slot, LeaveBook(t, e.slot, Closed));
                var slots', free' := Freed(c.slots, e.slot), c.free + [e.slot];
                var ids' := c.ids + [Id(e.slot, slot.generation)];
                && (slot.cancelled ==> Closing(before, alive, u, c.(slots := slots', free := free'), rest))
                && (!slot.cancelled && slot.waker.Some? && slot.waker.value in alive ==>
                      Closing(before, alive, u, Closure(slots', free', ids', c.wakers + [slot.waker.value]), rest))
                && (!slot.cancelled && !(slot.waker.Some? && slot.waker.value in alive) ==>
                      Closing(before, alive, u, Closure(slots', free', ids', c.wakers), rest)))
  {
    assert Open(Fold);
    var e := heap[i];
    assert heap[i..] == [e] + heap[i + 1..];
    CloseOne(t, e, heap[i + 1..]);
    if !t.slots[e.slot].cancelled {
      EndOne(before.book, c.ids, t.book, Id(e.slot, t.slots[e.slot].generation), alive);
    }
  }

  lemma CloseEnds(before: Tables, alive: set<Waker>, t: Tables, c: Closure, rest: seq<Entry>)
    requires Closing(before, alive, t, c, rest) && |rest| == 0
    ensures Good(t, []) && t.slots == c.slots && t.free == c.free && t.nextSeq == before.nextSeq
    ensures AllEnded(before.book, c.ids, t.book) && c.wakers == WakersOf(before.book.live, c.ids, alive)
  {
    assert Open(Fold);
    assert rest == [];
  }

  /** The closing loop's body. */
  method CloseEntry(e: Entry, slots: seq<Slot>, free: seq<nat>, wakers: seq<Waker>, alive: set<Waker>,
                    ghost before: Tables, ghost t: Tables, ghost ids: seq<Id>, ghost heap: seq<Entry>, ghost i: nat)
    returns (slots': seq<Slot>, free': seq<nat>, wakers': seq<Waker>, ghost t': Tables, ghost ids': seq<Id>)
    requires i < |heap| && e == heap[i] && Closing(before, alive, t, Closure(slots, free, ids, wakers), heap[i..])
    ensures Closing(before, alive, t', Closure(slots', free', ids', wakers'), heap[i + 1..])
  {
    CloseAt(before, alive, t, Closure(slots, free, ids, wakers), heap, i);
    wakers', ids' := wakers, ids;
    var slot := slots[e.slot];
    if !slot.cancelled {
      if slot.waker.Some? && slot.waker.value in alive { wakers' := wakers + [slot.waker.value]; }
      ids' := ids + [Id(e.slot, slot.generation)];
    }
    t' := FreeTables(t, e.slot, LeaveBook(t, e.slot, Closed));
    slots', free' := Freed(slots, e.slot), free + [e.slot];
  }

  /** The closing loop: collects the wakers of the live entries and frees every slot. */
  method CloseEntries(heap: seq<Entry>, slots: seq<Slot>, free: seq<nat>, alive: set<Waker>, ghost before: Tables)
    returns (wakers: seq<Waker>, slots': seq<Slot>, free': seq<nat>, ghost t: Tables, ghost ids: seq<Id>)
    requires Good(before, heap) && before.slots == slots && before.free == free
    ensures Good(t, []) && t.slots == slots' && t.free == free' && t.nextSeq == before.nextSeq
    ensures AllEnded(before.book, ids, t.book) && wakers == WakersOf(before.book.live, ids, alive)
  {
    wakers, ids, slots', free', t := [], [], slots, free, before;
    CloseStarts(before, alive, heap);
    var i := 0;
    while i < |heap|
      invariant 0 <= i <= |heap|
      invariant Closing(before, alive, t, Closure(slots', free', ids, wakers), heap[i..])
    {
      slots', free', wakers, t, ids := CloseEntry(heap[i], slots', free', wakers, alive, before, t, ids, heap, i);
      i := i + 1;
    }
    CloseEnds(before, alive, t, Closure(slots', free', ids, wakers), heap[i..]);
  }

  ghost function CloseSnap(s: Snap, t: Tables): Snap {
    Snap([], t.slots, t.free, s.nextSeq, 0, s.waiting, true,
         s.g.(owner := t.owner, dead := t.dead, book := t.book))
  }

  lemma CloseKeeps(s: Snap, t: Tables, alive: set<Waker>, wakers: seq<Waker>, ids: seq<Id>)
    requires SnapOk(s) && Good(t, []) && t.nextSeq == s.nextSeq
    requires AllEnded(s.g.book, ids, t.book) && wakers == WakersOf(s.g.book.live, ids, alive)
    ensures SnapOk(CloseSnap(s, t)) && CloseSpec(s, CloseSnap(s, t), alive, wakers, ids)
  {
    assert Open(Fold);
    NothingLeft(t);
    AllListed(s.g.book, ids, t.book);
    assert TablesOf(CloseSnap(s, t)) == t;
  }
}
