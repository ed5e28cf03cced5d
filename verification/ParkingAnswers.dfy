/** What the workers' steps between parks do: searching, moving tasks between the queues, and
    taking turns at the driver. */
module ParkingAnswers {
  import opened Parking
  import opened ParkingRuns

  /** A worker that has found nothing searches if and only if fewer than half of the workers do, one
      of them at least being let in; one that comes back with a task is no longer counted, and passes
      the wake on. */
  lemma SearchAnswers(s: State, w: nat, i: nat)
    requires Inv(s) && w < |s.pcs|
    ensures s.pcs[w] == Looking ==>
              var s' := Step(s, Work(w, Search));
              && (s'.pcs[w] == Searching <==> |Searchers(s.pcs)| < (if |s.pcs| >= 2 then |s.pcs| / 2 else 1))
              && (s'.pcs[w] == Searching ==> s'.searching == s.searching + 1)
    ensures s.pcs[w] == Looking ==> Step(s, Work(w, SkipSearch)).pcs[w] == MarkIdle(false)
    ensures s.pcs[w] == Searching ==> Step(s, Work(w, SearchFails)).pcs[w] == SearchEnd(false)
    ensures s.pcs[w] == SearchEnd(true) && i < |s.notifiers| && s.notifiers[i] == Absent ==>
              var s' := Step(s, Found(w, i));
              s'.pcs[w] == Busy && s'.searching == s.searching - 1 && s'.notifiers[i] == ReadSearching
    ensures s.pcs[w] == SearchEnd(true) ==> Step(s, MarkStep(w)) == s
  {
  }

  /** A worker takes from its own ring if and only if that is not empty. Of k tasks taken from the
      injection queue, or stolen, it runs one and queues the others. */
  lemma QueueAnswers(s: State, w: nat, v: nat, k: nat)
    requires Inv(s) && w < |s.pcs|
    ensures s.pcs[w] == Looking ==>
              var s' := Step(s, Work(w, PopLocal));
              (s'.pcs[w] == Busy <==> s.local[w] > 0) && (s.local[w] > 0 ==> s'.local[w] == s.local[w] - 1)
    ensures s.pcs[w] == Looking && 1 <= k <= s.injected ==>
              var s' := Step(s, TakeInjected(w, k));
              s'.pcs[w] == Busy && s'.injected == s.injected - k && s'.local == s.local[w := s.local[w] + k - 1]
    ensures s.pcs[w] == Searching && s.injected > 0 ==>
              var s' := Step(s, TakeInjected(w, 1));
              s'.pcs[w] == SearchEnd(true) && s'.injected == s.injected - 1 && s'.local == s.local
    ensures s.pcs[w] == Searching && v < |s.local| && v != w && 1 <= k <= s.local[v] ==>
              var s' := Step(s, Steal(w, v, k));
              && s'.pcs[w] == SearchEnd(true)
              && s'.local[v] == s.local[v] - k && s'.local[w] == s.local[w] + k - 1 && s'.injected == s.injected
  {
  }

  /** The checks before a park find a task if and only if there is one: in the worker's own ring,
      in the injection queue, and for the last searcher in any other worker's ring. */
  lemma CheckAnswers(s: State, w: nat)
    requires Inv(s) && w < |s.pcs|
    ensures s.pcs[w].LocalCheck? ==> (Step(s, LookStep(w)).pcs[w] == FoundWork <==> s.local[w] > 0)
    ensures s.pcs[w].InjectCheck? ==> (Step(s, LookStep(w)).pcs[w] == FoundWork <==> s.injected > 0)
    ensures s.pcs[w].PeerCheck? ==>
              (Step(s, LookStep(w)).pcs[w] == FoundWork <==>
                 s.pcs[w].last && exists v: nat :: v < |s.local| && v != w && s.local[v] > 0)
  {
    if v: nat :| v < |s.local| && v != w && s.local[v] > 0 { assert PeerHasTasks(s, w); }
  }

  /** A push goes to the ring, or when that is full to the injection queue with what is spilled,
      and starts a notification; a task demoted from the slot leaves it. A wake dispatched in
      the worker's own turn goes the same way and starts none. */
  lemma PushAnswers(s: State, w: nat, spill: nat, full: bool, demote: bool, i: nat)
    requires Inv(s) && w < |s.pcs| && spill <= s.local[w]
    ensures CanPush(s, w, spill, demote, i) ==>
              var s' := Step(s, PushLocal(w, spill, full, demote, i));
              && s'.local[w] == (if full then s.local[w] - spill else s.local[w] + 1)
              && s'.injected == (if full then s.injected + spill + 1 else s.injected)
              && s'.slot[w] == (s.slot[w] && !demote) && s'.notifiers[i] == ReadSearching
    ensures s.pcs[w].Dispatch? ==>
              var s' := Step(s, WakeInTurn(w, spill, full));
              && s'.local[w] == (if full then s.local[w] - spill else s.local[w] + 1)
              && s'.injected == (if full then s.injected + spill + 1 else s.injected)
              && s'.notifiers == s.notifiers
  {
  }

  /** Tasks from other threads, and bare notifications. A closing batch wakes whatever the searchers
      do. */
  lemma InjectAnswers(s: State, i: nat, k: nat, flush: bool)
    requires Inv(s) && i < |s.notifiers| && s.notifiers[i] == Absent && k > 0
    ensures var s' := Step(s, Inject(i, k, flush));
            s'.injected == s.injected + k && s'.notifiers[i] == (if flush then ReadIdle else ReadSearching)
    ensures Step(s, Notify(i)).notifiers[i] == ReadSearching && Step(s, OutsideUnpark).signal
  {
  }

  /** The LIFO slot is filled by a wake while it is empty, and run from; a worker looks at its
      queues only with the slot empty. */
  lemma SlotAnswers(s: State, w: nat)
    requires Inv(s) && w < |s.pcs|
    ensures s.pcs[w] == Busy && !s.slot[w] ==>
              Step(s, Slot(w, WakeLocal)).slot[w] && Step(s, Slot(w, LoopTop)).pcs[w] == Looking
    ensures s.pcs[w] == Busy && s.slot[w] ==>
              !Step(s, Slot(w, RunSlot)).slot[w] && Step(s, Slot(w, LoopTop)).pcs[w] == Busy
  {
  }

  /** A busy worker gets the driver's turn if and only if it is free, and whoever polls comes back
      from it; a wait on the condvar can end spuriously. */
  lemma TurnAnswers(s: State, w: nat, saw: bool)
    requires Inv(s) && w < |s.pcs|
    ensures s.pcs[w] == Busy ==>
              var s' := Step(s, Turn(w, TurnStart));
              (s'.pcs[w] == BusyPoll <==> s.turn == -1) && (s.turn == -1 ==> s'.turn == w)
    ensures (saw ==> s.signal) && (s.pcs[w] == InPoll || s.pcs[w] == BusyPoll) ==>
              Step(s, Turn(w, PollReturns(saw))).pcs[w] == Dispatch(saw, s.pcs[w] == InPoll)
    ensures saw && !s.signal ==> Step(s, Turn(w, PollReturns(saw))) == s
    ensures s.pcs[w] == CvWait ==> Step(s, Turn(w, SpuriousWake)).pcs[w] == CvWoken
  {
  }
}
