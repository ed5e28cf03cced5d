/** The tables behind the timer queue, as values: what ties the heap, the slots and
    the free list to each other, and both to the book of timers a caller has in mind. */
module TimerTables {
  import opened TimerHeap

  type Waker = int

  datatype Option<T> = None | Some(value: T)

  /** A timer id: its slot and that slot's generation. */
  datatype Id = Id(index: nat, generation: nat)

  datatype Slot = Slot(waker: Option<Waker>, generation: nat, cancelled: bool)

  // ---- the book: the simple model -------------------------------------------------

  datatype Timer = Timer(deadline: int, seqNo: nat, waker: Waker)

  datatype Fate = Fired | Cancelled | Closed

  /** Every timer ever added is live, or has met exactly one fate. */
  datatype Book = Book(live: map<Id, Timer>, fate: map<Id, Fate>)

  ghost predicate Issued(b: Book, id: Id) { id in b.live || id in b.fate }

  /** Fires first: earlier deadline, or the same and added before. */
  predicate Earlier(a: Timer, b: Timer) {
    if a.deadline != b.deadline then a.deadline < b.deadline else a.seqNo < b.seqNo
  }

  ghost function Added(b: Book, id: Id, t: Timer): Book { b.(live := b.live[id := t]) }

  ghost function Ended(b: Book, id: Id, f: Fate): Book {
    Book(b.live - {id}, b.fate[id := f])
  }

  /** What no operation ever undoes: a fate is final, and a live timer is kept as it
      is or meets its fate. */
  ghost predicate Grows(b: Book, c: Book) {
    && (forall id | id in b.fate :: id in c.fate && c.fate[id] == b.fate[id])
    && (forall id | id in b.live :: (id in c.live && c.live[id] == b.live[id]) || id in c.fate)
  }

  /** The wakers of `ids`, in order, that can still be locked. */
  ghost function WakersOf(live: map<Id, Timer>, ids: seq<Id>, alive: set<Waker>): seq<Waker>
    requires forall id | id in ids :: id in live
  {
    if ids == [] then []
    else
      var rest := WakersOf(live, ids[..|ids| - 1], alive);
      var w := live[ids[|ids| - 1]].waker;
      if w in alive then rest + [w] else rest
  }

  ghost predicate Ascending(live: map<Id, Timer>, ids: seq<Id>)
    requires forall id | id in ids :: id in live
  {
    forall k, l | 0 <= k < l < |ids| :: Earlier(live[ids[k]], live[ids[l]])
  }

  /** `ids` is what was taken from `before`, leaving `after`: due timers only, in
      firing order, and none left behind that fires before one of them. */
  ghost predicate TakenInOrder(before: map<Id, Timer>, ids: seq<Id>, now: int, after: map<Id, Timer>) {
    && (forall id | id in ids :: id in before && before[id].deadline <= now)
    && Ascending(before, ids)
    && after == before - (set id | id in ids)
    && (forall id, k | id in after && 0 <= k < |ids| :: Earlier(before[ids[k]], before[id]))
  }

  // ---- the tables -----------------------------------------------------------------

  /** Each slot in use has exactly one entry among `items`. */
  ghost predicate ItemsOk(items: seq<Entry>, owner: map<nat, Entry>) {
    multiset(items) == multiset(owner.Values) && |items| == |owner.Keys|
  }

  ghost predicate OwnerOk(slots: seq<Slot>, owner: map<nat, Entry>, nextSeq: nat) {
    && (forall i | i in owner :: i < |slots| && owner[i].slot == i && owner[i].seqNo < nextSeq)
    && (forall i, j | i in owner && j in owner && i != j :: owner[i].seqNo != owner[j].seqNo)
  }

  /** The free list holds each slot not in use, once; each has been used before. */
  ghost predicate FreeOk(slots: seq<Slot>, free: seq<nat>, owner: map<nat, Entry>) {
    && (forall i | 0 <= i < |slots| :: i in owner <==> i !in free)
    && (forall k | 0 <= k < |free| :: free[k] < |slots|)
    && (forall k, l | 0 <= k < l < |free| :: free[k] != free[l])
    && (forall i | 0 <= i < |slots| && i !in owner :: slots[i].generation > 0)
  }

  ghost predicate DeadOk(slots: seq<Slot>, owner: map<nat, Entry>, dead: set<nat>) {
    && dead <= owner.Keys
    && (forall i | 0 <= i < |slots| :: slots[i].cancelled <==> i in dead)
  }

  /** `owner` maps each slot in use to its entry, `dead` are the cancelled ones. */
  ghost predicate TablesOk(items: seq<Entry>, slots: seq<Slot>, free: seq<nat>,
                           owner: map<nat, Entry>, dead: set<nat>, nextSeq: nat)
  {
    && ItemsOk(items, owner) && OwnerOk(slots, owner, nextSeq)
    && FreeOk(slots, free, owner) && DeadOk(slots, owner, dead)
  }

  ghost predicate BookOk(slots: seq<Slot>, owner: map<nat, Entry>, dead: set<nat>, b: Book)
    requires forall i | i in owner :: i < |slots|
  {
    && (forall id :: id in b.live <==>
          id.index in owner && id.index !in dead && id.generation == slots[id.index].generation)
    && (forall id | id in b.live ::
          slots[id.index].waker == Some(b.live[id].waker)
          && owner[id.index].deadline == b.live[id].deadline
          && owner[id.index].seqNo == b.live[id].seqNo)
    && (forall id | id in b.fate ::
          && id !in b.live && id.index < |slots| && id.generation <= slots[id.index].generation
          && (id.generation == slots[id.index].generation ==> id.index in owner))
  }

  function Freed(slots: seq<Slot>, i: nat): (r: seq<Slot>)
    requires i < |slots|
    ensures |r| == |slots|
  {
    slots[i := Slot(None, slots[i].generation + 1, false)]
  }

  lemma ValuesAdd(owner: map<nat, Entry>, i: nat, e: Entry)
    requires i !in owner
    ensures owner[i := e].Values == owner.Values + {e} && owner[i := e].Keys == owner.Keys + {i}
  {
    var owner' := owner[i := e];
    assert owner'[i] == e;
    forall x | x in owner.Values ensures x in owner'.Values {
      var k :| k in owner && owner[k] == x;
      assert owner'[k] == x;
    }
  }

  lemma ValuesRemove(owner: map<nat, Entry>, i: nat)
    requires i in owner && forall k | k in owner :: owner[k].slot == k
    ensures (owner - {i}).Values == owner.Values - {owner[i]} && (owner - {i}).Keys == owner.Keys - {i}
  {
    var owner' := owner - {i};
    forall x | x in owner.Values && x != owner[i] ensures x in owner'.Values {
      var k :| k in owner && owner[k] == x;
      assert owner'[k] == x;
    }
  }

  lemma ItemsAdd(items: seq<Entry>, items': seq<Entry>, owner: map<nat, Entry>, e: Entry)
    requires ItemsOk(items, owner) && multiset(items') == multiset(items) + multiset{e}
    requires e.slot !in owner && forall i | i in owner :: owner[i].slot == i
    ensures ItemsOk(items', owner[e.slot := e])
  {
    ValuesAdd(owner, e.slot, e);
    AddOne(owner.Values, e);
    OneLonger(items, items', e);
  }

  lemma AddOne(values: set<Entry>, e: Entry)
    requires e !in values
    ensures multiset(values + {e}) == multiset(values) + multiset{e}
  {
  }

  lemma OneLonger(items: seq<Entry>, items': seq<Entry>, e: Entry)
    requires multiset(items') == multiset(items) + multiset{e}
    ensures |items'| == |items| + 1
  {
    assert |items'| == |multiset(items')| == |multiset(items)| + 1;
  }

  /** A slot taken off the free list. */
  lemma FreeTake(slots: seq<Slot>, slots': seq<Slot>, free: seq<nat>, owner: map<nat, Entry>, e: Entry)
    requires FreeOk(slots, free, owner) && |slots'| == |slots|
    requires |free| > 0 && e.slot == free[|free| - 1]
    requires forall i | 0 <= i < |slots| && i != e.slot :: slots'[i] == slots[i]
    ensures FreeOk(slots', free[..|free| - 1], owner[e.slot := e])
  {
    var free' := free[..|free| - 1];
    forall i | 0 <= i < |slots| && i != e.slot ensures i in free <==> i in free' {
      if i in free {
        var k :| 0 <= k < |free| && free[k] == i;
        assert free'[k] == i;
      }
    }
  }

  lemma OwnerAdd(slots: seq<Slot>, slots': seq<Slot>, owner: map<nat, Entry>, nextSeq: nat, e: Entry)
    requires OwnerOk(slots, owner, nextSeq) && e.seqNo == nextSeq
    requires |slots'| >= |slots| && e.slot < |slots'|
    ensures OwnerOk(slots', owner[e.slot := e], nextSeq + 1)
  {
  }

  lemma FreshSlot(slots: seq<Slot>, free: seq<nat>, owner: map<nat, Entry>, nextSeq: nat, i: nat)
    requires OwnerOk(slots, owner, nextSeq) && FreeOk(slots, free, owner)
    requires if free != [] then i == free[|free| - 1] else i == |slots|
    ensures i !in owner
  {
  }

  /** A new entry: in a slot from the free list if it has one, in a new slot otherwise. */
  lemma TablesAdd(items: seq<Entry>, items': seq<Entry>, slots: seq<Slot>, slots': seq<Slot>,
                  free: seq<nat>, free': seq<nat>, owner: map<nat, Entry>, dead: set<nat>, nextSeq: nat, e: Entry)
    requires TablesOk(items, slots, free, owner, dead, nextSeq)
    requires e.seqNo == nextSeq && multiset(items') == multiset(items) + multiset{e}
    requires if free != [] then e.slot == free[|free| - 1] && free' == free[..|free| - 1] && |slots'| == |slots|
             else e.slot == |slots| && free' == [] && |slots'| == |slots| + 1
    requires forall i | 0 <= i < |slots'| && i != e.slot :: slots'[i] == slots[i]
    requires !slots'[e.slot].cancelled
    ensures e.slot !in owner && e.slot !in dead
    ensures TablesOk(items', slots', free', owner[e.slot := e], dead, nextSeq + 1)
  {
    FreshSlot(slots, free, owner, nextSeq, e.slot);
    ItemsAdd(items, items', owner, e);
    OwnerAdd(slots, slots', owner, nextSeq, e);
    if free != [] {
      FreeTake(slots, slots', free, owner, e);
    }
  }

  lemma ItemsRemove(items: seq<Entry>, items': seq<Entry>, owner: map<nat, Entry>, e: Entry)
    requires ItemsOk(items, owner) && multiset(items) == multiset(items') + multiset{e}
    requires e.slot in owner && owner[e.slot] == e && forall i | i in owner :: owner[i].slot == i
    ensures ItemsOk(items', owner - {e.slot})
  {
    ValuesRemove(owner, e.slot);
    assert multiset(owner.Values - {e}) == multiset(owner.Values) - multiset{e};
    assert |items| == |multiset(items)| == |multiset(items')| + 1;
  }

  /** A slot put on the free list. */
  lemma FreeGive(slots: seq<Slot>, free: seq<nat>, owner: map<nat, Entry>, i: nat)
    requires FreeOk(slots, free, owner) && i in owner && i < |slots|
    ensures FreeOk(Freed(slots, i), free + [i], owner - {i})
  {
  }

  /** An entry leaves the heap and its slot goes on the free list. */
  lemma TablesFree(items: seq<Entry>, items': seq<Entry>, slots: seq<Slot>, free: seq<nat>,
                   owner: map<nat, Entry>, dead: set<nat>, nextSeq: nat, e: Entry)
    requires TablesOk(items, slots, free, owner, dead, nextSeq)
    requires multiset(items) == multiset(items') + multiset{e}
    ensures e.slot in owner && owner[e.slot] == e
    ensures TablesOk(items', Freed(slots, e.slot), free + [e.slot], owner - {e.slot}, dead - {e.slot}, nextSeq)
  {
    EntryOwned(items, slots, free, owner, dead, nextSeq, e);
    ItemsRemove(items, items', owner, e);
    FreeGive(slots, free, owner, e.slot);
  }

  lemma EntryOwned(items: seq<Entry>, slots: seq<Slot>, free: seq<nat>,
                   owner: map<nat, Entry>, dead: set<nat>, nextSeq: nat, e: Entry)
    requires TablesOk(items, slots, free, owner, dead, nextSeq) && e in multiset(items)
    ensures e.slot in owner && owner[e.slot] == e
  {
    assert e in multiset(owner.Values);
    var k :| k in owner && owner[k] == e;
  }

  lemma OwnerQueued(items: seq<Entry>, slots: seq<Slot>, free: seq<nat>,
                    owner: map<nat, Entry>, dead: set<nat>, nextSeq: nat, i: nat)
    requires TablesOk(items, slots, free, owner, dead, nextSeq) && i in owner
    ensures owner[i] in items
  {
    assert owner[i] in multiset(items);
  }

  lemma DeadFit(items: seq<Entry>, slots: seq<Slot>, free: seq<nat>,
                owner: map<nat, Entry>, dead: set<nat>, nextSeq: nat)
    requires TablesOk(items, slots, free, owner, dead, nextSeq)
    ensures |dead| <= |items|
  {
    assert owner.Keys == dead + (owner.Keys - dead);
  }

  // ---- the book follows -----------------------------------------------------------

  lemma BookAdd(slots: seq<Slot>, slots': seq<Slot>, owner: map<nat, Entry>, dead: set<nat>, b: Book,
                e: Entry, w: Waker)
    requires forall i | i in owner :: i < |slots|
    requires BookOk(slots, owner, dead, b)
    requires |slots'| >= |slots| && e.slot < |slots'| && e.slot !in owner && e.slot !in dead
    requires forall i | 0 <= i < |slots'| && i != e.slot :: i < |slots| && slots'[i] == slots[i]
    requires e.slot < |slots| ==> slots'[e.slot].generation == slots[e.slot].generation
    requires slots'[e.slot].waker == Some(w)
    ensures var id := Id(e.slot, slots'[e.slot].generation);
      && !Issued(b, id)
      && BookOk(slots', owner[e.slot := e], dead, Added(b, id, Timer(e.deadline, e.seqNo, w)))
  {
  }

  /** Freeing a cancelled slot does not show in the book. */
  lemma BookForget(slots: seq<Slot>, owner: map<nat, Entry>, dead: set<nat>, b: Book, i: nat)
    requires forall j | j in owner :: j < |slots|
    requires BookOk(slots, owner, dead, b) && i in owner && i in dead
    ensures BookOk(Freed(slots, i), owner - {i}, dead - {i}, b)
  {
  }

  /** Freeing a live slot ends its timer. */
  lemma BookEnd(slots: seq<Slot>, owner: map<nat, Entry>, dead: set<nat>, b: Book, i: nat, f: Fate)
    requires forall j | j in owner :: j < |slots|
    requires BookOk(slots, owner, dead, b) && i in owner && i !in dead
    ensures var id := Id(i, slots[i].generation);
      && id in b.live
      && BookOk(Freed(slots, i), owner - {i}, dead - {i}, Ended(b, id, f))
  {
  }

  /** Emptying a slot without freeing it: a lazy cancel. */
  lemma BookCancel(slots: seq<Slot>, owner: map<nat, Entry>, dead: set<nat>, b: Book, i: nat)
    requires forall j | j in owner :: j < |slots|
    requires BookOk(slots, owner, dead, b) && i in owner && i !in dead
    ensures var id := Id(i, slots[i].generation);
      && id in b.live
      && BookOk(slots[i := slots[i].(waker := None, cancelled := true)], owner, dead + {i}, Ended(b, id, Cancelled))
  {
  }

  // ---- the tables as one value ------------------------------------------------------

  /** Everything but the order of the heap. */
  datatype Tables = Tables(slots: seq<Slot>, free: seq<nat>, nextSeq: nat,
                           owner: map<nat, Entry>, dead: set<nat>, book: Book)

  /** `Good` is used folded, as one fact about a whole value; only the lemmas below
      unfold it, by mentioning `Unfold`. */
  datatype Fold = Fold

  ghost predicate Unfold(f: Fold) { true }

  ghost predicate AllOk(t: Tables, items: seq<Entry>) {
    TablesOk(items, t.slots, t.free, t.owner, t.dead, t.nextSeq) && BookOk(t.slots, t.owner, t.dead, t.book)
  }

  /** `items` are the entries of the slots in use, and the book agrees. */
  ghost predicate Good(t: Tables, items: seq<Entry>) {
    forall f: Fold {:trigger Unfold(f)} :: Unfold(f) ==> AllOk(t, items)
  }

  lemma GoodReorder(t: Tables, items: seq<Entry>, items': seq<Entry>)
    requires Good(t, items) && multiset(items') == multiset(items)
    ensures Good(t, items') && |items'| == |items|
  {
    assert Unfold(Fold);
    assert |items'| == |multiset(items')|;
  }

  /** The front of a heap is the earliest of all entries in use. */
  lemma GoodFront(t: Tables, heap: seq<Entry>)
    requires Good(t, heap) && IsHeap(heap)
    ensures heap == [] ==> t.owner == map[]
    ensures heap != [] ==> heap[0].slot < |t.slots| && heap[0].slot in t.owner && t.owner[heap[0].slot] == heap[0]
    ensures forall i | i in t.owner :: heap != [] && heap[0].deadline <= t.owner[i].deadline
  {
    assert Unfold(Fold);
    if heap == [] { assert t.owner.Keys == {}; } else { ItemOwned(t, heap, heap[0]); }
    forall i | i in t.owner ensures heap != [] && heap[0].deadline <= t.owner[i].deadline {
      FrontBefore(t, heap, i);
    }
  }

  lemma FrontBefore(t: Tables, heap: seq<Entry>, i: nat)
    requires Good(t, heap) && IsHeap(heap) && i in t.owner
    ensures heap != [] && !Later(heap[0], t.owner[i])
  {
    assert Unfold(Fold);
    OwnerQueued(heap, t.slots, t.free, t.owner, t.dead, t.nextSeq, i);
    var k :| 0 <= k < |heap| && heap[k] == t.owner[i];
    FrontIsEarliest(heap, k);
  }

  lemma ItemOwned(t: Tables, items: seq<Entry>, e: Entry)
    requires Good(t, items) && e in items
    ensures e.slot < |t.slots| && e.slot in t.owner && t.owner[e.slot] == e
    ensures t.slots[e.slot].cancelled <==> e.slot in t.dead
  {
    assert Unfold(Fold);
    EntryOwned(items, t.slots, t.free, t.owner, t.dead, t.nextSeq, e);
  }

  /** Which live timer, if any, an entry stands for. */
  lemma LiveItem(t: Tables, items: seq<Entry>, e: Entry)
    requires Good(t, items) && e in items
    ensures e.slot < |t.slots|
    ensures !t.slots[e.slot].cancelled ==>
      var id := Id(e.slot, t.slots[e.slot].generation);
      && id in t.book.live && t.book.live[id].deadline == e.deadline && t.book.live[id].seqNo == e.seqNo
      && t.slots[e.slot].waker == Some(t.book.live[id].waker)
  {
    assert Unfold(Fold);
    EntryOwned(items, t.slots, t.free, t.owner, t.dead, t.nextSeq, e);
  }

  lemma LiveOwned(t: Tables, items: seq<Entry>, id: Id)
    requires Good(t, items)
    ensures id in t.book.live ==>
      && id.index < |t.slots| && t.slots[id.index].generation == id.generation && !t.slots[id.index].cancelled
      && id.index in t.owner && t.owner[id.index].deadline == t.book.live[id].deadline
      && t.owner[id.index].seqNo == t.book.live[id].seqNo
    ensures (&& id.index < |t.slots| && t.slots[id.index].generation == id.generation
             && !t.slots[id.index].cancelled && id.index in t.owner) ==> id in t.book.live
  {
    assert Unfold(Fold);
  }

  lemma LiveNotEnded(t: Tables, items: seq<Entry>, id: Id)
    requires Good(t, items) && id in t.book.live
    ensures id !in t.book.fate
  {
    assert Unfold(Fold);
  }

  /** Two entries in use never share a sequence number. */
  lemma LiveDistinct(t: Tables, items: seq<Entry>, a: Id, b: Id)
    requires Good(t, items) && a in t.book.live && b in t.book.live && a != b
    ensures t.book.live[a].seqNo != t.book.live[b].seqNo
  {
    assert Unfold(Fold);
  }

  lemma DeadFitGood(t: Tables, items: seq<Entry>)
    requires Good(t, items)
    ensures |t.dead| <= |items|
  {
    assert Unfold(Fold);
    DeadFit(items, t.slots, t.free, t.owner, t.dead, t.nextSeq);
  }

  /** `take_slot`: which slot, and what it leaves. */
  function NextSlot(slots: seq<Slot>, free: seq<nat>): nat {
    if free != [] then free[|free| - 1] else |slots|
  }

  function GrownSlots(slots: seq<Slot>, free: seq<nat>): seq<Slot> {
    if free != [] then slots else slots + [Slot(None, 0, false)]
  }

  function RestFree(free: seq<nat>): seq<nat> {
    if free != [] then free[..|free| - 1] else []
  }

  /** The slot table after an insert. */
  function FilledSlots(slots: seq<Slot>, free: seq<nat>, w: Waker): (r: seq<Slot>)
    requires NextSlot(slots, free) < |GrownSlots(slots, free)|
    ensures |r| == |GrownSlots(slots, free)|
  {
    var all, i := GrownSlots(slots, free), NextSlot(slots, free);
    all[i := all[i].(waker := Some(w))]
  }

  ghost function InsertTables(t: Tables, e: Entry, w: Waker): Tables
    requires e.slot == NextSlot(t.slots, t.free) < |GrownSlots(t.slots, t.free)|
  {
    var slots := FilledSlots(t.slots, t.free, w);
    Tables(slots, RestFree(t.free), t.nextSeq + 1, t.owner[e.slot := e], t.dead,
           Added(t.book, Id(e.slot, slots[e.slot].generation), Timer(e.deadline, e.seqNo, w)))
  }

  lemma GoodInsert(t: Tables, items: seq<Entry>, items': seq<Entry>, e: Entry, w: Waker)
    requires Good(t, items) && multiset(items') == multiset(items) + multiset{e}
    requires e.slot == NextSlot(t.slots, t.free) < |GrownSlots(t.slots, t.free)| && e.seqNo == t.nextSeq
    ensures Good(InsertTables(t, e, w), items') && e.slot !in t.owner
    ensures !Issued(t.book, Id(e.slot, FilledSlots(t.slots, t.free, w)[e.slot].generation))
  {
    assert Unfold(Fold);
    var t' := InsertTables(t, e, w);
    FreshSlot(t.slots, t.free, t.owner, t.nextSeq, e.slot);
    TablesAdd(items, items', t.slots, t'.slots, t.free, t'.free, t.owner, t.dead, t.nextSeq, e);
    BookAdd(t.slots, t'.slots, t.owner, t.dead, t.book, e, w);
  }

  lemma NextSlotInRange(t: Tables, items: seq<Entry>)
    requires Good(t, items)
    ensures NextSlot(t.slots, t.free) < |GrownSlots(t.slots, t.free)|
  {
    assert Unfold(Fold);
  }

  /** The tables after an entry has left, its slot freed. */
  ghost function FreeTables(t: Tables, i: nat, b: Book): Tables
    requires i < |t.slots|
  {
    Tables(Freed(t.slots, i), t.free + [i], t.nextSeq, t.owner - {i}, t.dead - {i}, b)
  }

  /** What leaving does to the book: nothing for a cancelled entry. */
  ghost function LeaveBook(t: Tables, i: nat, f: Fate): Book
    requires i < |t.slots|
  {
    if t.slots[i].cancelled then t.book else Ended(t.book, Id(i, t.slots[i].generation), f)
  }

  lemma GoodLeave(t: Tables, items: seq<Entry>, items': seq<Entry>, e: Entry, f: Fate)
    requires Good(t, items) && multiset(items) == multiset(items') + multiset{e} && e.slot < |t.slots|
    ensures Good(FreeTables(t, e.slot, LeaveBook(t, e.slot, f)), items')
    ensures |items'| == |items| - 1
  {
    assert Unfold(Fold);
    TablesFree(items, items', t.slots, t.free, t.owner, t.dead, t.nextSeq, e);
    if t.slots[e.slot].cancelled {
      BookForget(t.slots, t.owner, t.dead, t.book, e.slot);
    } else {
      BookEnd(t.slots, t.owner, t.dead, t.book, e.slot, f);
    }
  }

  ghost function CancelTables(t: Tables, id: Id): Tables
    requires id.index < |t.slots|
  {
    t.(slots := t.slots[id.index := t.slots[id.index].(waker := None, cancelled := true)],
       dead := t.dead + {id.index}, book := Ended(t.book, id, Cancelled))
  }

  lemma GoodCancel(t: Tables, items: seq<Entry>, id: Id)
    requires Good(t, items) && id in t.book.live && id.index < |t.slots|
    ensures Good(CancelTables(t, id), items) && id.index !in t.dead
  {
    assert Unfold(Fold);
    BookCancel(t.slots, t.owner, t.dead, t.book, id.index);
  }
}
