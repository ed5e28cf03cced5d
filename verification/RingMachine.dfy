/** The work-stealing run queue (include/coro/detail/local_run_queue.h) as an
    interleaving of atomic steps.

    Every worker owns one ring and is, at the same time, a potential thief of every
    other worker's ring. A step is one shared access of one worker: a load, a
    compare-exchange, a slot read or write, a store of `tail`, or one critical
    section of the injection queue. `Step` is total, so a run is any sequence of
    actions and every interleaving is a run.

    Index arithmetic is done modulo `m`. With `m == 0` the indices are unbounded;
    with `m == 2^32` the steps are those of the code.

    The fields `thief` and `claim` of a ring, and the fields `all`, `half`, `loot`
    and `was` of a program counter, are auxiliary: no branch reads them. */
module RingMachine {

  type Task = int

  type Buffer = b: seq<Task> | |b| == 256 witness seq(256, _ => 0)

  /** The packed head word, unpacked. `front` is the half the code calls `real`. */
  datatype Head = Head(steal: int, front: int)

  datatype Ring = Ring(head: Head, tail: int, buf: Buffer, thief: int, claim: int)

  datatype Pc =
    | Ready
      // push_or_overflow
    | PushLoad(t: Task)
    | PushWrite(t: Task, tail: int, rest: seq<Task>)
    | PushStore(t: Task, tail: int, rest: seq<Task>)
    | PushDivert(t: Task)
      // push_overflow
    | SpillCas(t: Task, base: int, tail: int)
    | SpillExpose(t: Task, base: int, tail: int, all: seq<Task>)
    | SpillMove(t: Task, base: int, batch: seq<Task>, half: seq<Task>)
      // push_back of a batch taken from the injection queue
    | BatchPush(rest: seq<Task>)
      // pop
    | PopTry(seen: Head)
    | PopRead(front: int, was: Task)
      // steal_into and steal_into2
    | StealLoad(victim: nat, dst: int)
    | StealTail(victim: nat, dst: int, prev: Head)
    | StealCas(victim: nat, dst: int, prev: Head, n: int)
    | StealCopy(victim: nat, dst: int, prev: Head, n: int, i: int, loot: seq<Task>)
    | StealFinish(victim: nat, dst: int, first: int, prev: Head, n: int, loot: seq<Task>)
    | StealTake(dst: int, n: int, loot: seq<Task>)
    | StealStore(dst: int, n: int, ret: Task, loot: seq<Task>)
      // an assertion of the code failed, or it read past the injection queue
    | Broken

  /** `Inject` stands for a push to the injection queue by any thread. */
  datatype Op = Push(t: Task) | Inject(t: Task) | Pop | Steal(victim: nat) | TakeBatch

  /** What the scheduler picks next. `fail` makes a weak compare-exchange fail
      although the words match. */
  datatype Action = Start(w: nat, op: Op) | Advance(w: nat, fail: bool)

  /** `overflow` is the injection queue, `pushed` every task handed to a push so
      far, `returned` every task handed back to a worker to run. */
  datatype State = State(rings: seq<Ring>, pcs: seq<Pc>, overflow: seq<Task>,
                         pushed: seq<Task>, returned: seq<Task>)

  function Norm(m: nat, x: int): int {
    if m == 0 then x else x % m
  }

  /** `index & LOCAL_QUEUE_MASK`. */
  function Slot(x: int): (p: int)
    ensures 0 <= p < 256
  {
    x % 256
  }

  function Window(b: Buffer, from: int, n: nat): (s: seq<Task>)
    ensures |s| == n
  {
    seq(n, j requires 0 <= j => b[Slot(from + j)])
  }

  function Min(a: int, b: int): int { if a < b then a else b }
  function Max(a: int, b: int): int { if a < b then b else a }

  /** How many tasks step 2 of the worker loop takes from an injection queue of
      `len` tasks, with `free` free slots in its own ring and `n` workers. */
  function BatchSize(len: nat, n: nat, free: int): int
    requires n > 0
  {
    Max(1, Min(len / n + 1, Min(free, 128)))
  }

  function EmptyRing(): Ring {
    Ring(Head(0, 0), 0, seq(256, _ => 0), -1, 0)
  }

  function Init(n: nat): State {
    State(seq(n, _ => EmptyRing()), seq(n, _ => Ready), [], [], [])
  }

  function At(s: State, w: nat, p: Pc): State
    requires w < |s.pcs|
  {
    s.(pcs := s.pcs[w := p])
  }

  function Put(s: State, w: nat, r: Ring, p: Pc): State
    requires w < |s.pcs| == |s.rings|
  {
    s.(rings := s.rings[w := r], pcs := s.pcs[w := p])
  }

  // ---- owner side -----------------------------------------------------------

  function StartPop(s: State, w: nat): State
    requires w < |s.pcs| == |s.rings|
  {
    var r := s.rings[w];
    if r.head.front == r.tail then s else At(s, w, PopTry(r.head))
  }

  function StartSteal(m: nat, s: State, w: nat, v: nat): State
    requires w < |s.pcs| == |s.rings|
  {
    var r := s.rings[w];
    if v == w || v >= |s.rings| || Norm(m, r.tail - r.head.steal) > 128 then s
    else At(s, w, StealLoad(v, r.tail))
  }

  function StartBatch(m: nat, s: State, w: nat): State
    requires w < |s.pcs| == |s.rings|
  {
    var r := s.rings[w];
    if s.overflow == [] then s
    else
      var want := BatchSize(|s.overflow|, |s.rings|, 256 - Norm(m, r.tail - r.head.steal));
      if want > |s.overflow| then At(s, w, Broken)
      else
        var s' := s.(overflow := s.overflow[want..], returned := s.returned + [s.overflow[0]]);
        At(s', w, if want == 1 then Ready else BatchPush(s.overflow[1..want]))
  }

  function DoPushLoad(m: nat, s: State, w: nat): State
    requires w < |s.pcs| == |s.rings| && s.pcs[w].PushLoad?
  {
    var r, t := s.rings[w], s.pcs[w].t;
    if Norm(m, r.tail - r.head.steal) < 256 then At(s, w, PushWrite(t, r.tail, []))
    else if r.head.steal != r.head.front then At(s, w, PushDivert(t))
    else if Norm(m, r.tail - r.head.front) != 256 then At(s, w, Broken)
    else At(s, w, SpillCas(t, r.head.front, r.tail))
  }

  function DoBatchPush(m: nat, s: State, w: nat): State
    requires w < |s.pcs| == |s.rings| && s.pcs[w].BatchPush?
  {
    var r, rest := s.rings[w], s.pcs[w].rest;
    if rest == [] then At(s, w, Ready)
    else if Norm(m, r.tail - r.head.steal) >= 256 then At(s, w, Broken)
    else At(s, w, PushWrite(rest[0], r.tail, rest[1..]))
  }

  function DoPushWrite(s: State, w: nat): State
    requires w < |s.pcs| == |s.rings| && s.pcs[w].PushWrite?
  {
    var r, p := s.rings[w], s.pcs[w];
    Put(s, w, r.(buf := r.buf[Slot(p.tail) := p.t]), PushStore(p.t, p.tail, p.rest))
  }

  function DoPushStore(m: nat, s: State, w: nat): State
    requires w < |s.pcs| == |s.rings| && s.pcs[w].PushStore?
  {
    var r, p := s.rings[w], s.pcs[w];
    Put(s, w, r.(tail := Norm(m, p.tail + 1)),
        if p.rest == [] then Ready else BatchPush(p.rest))
  }

  function DoPushDivert(s: State, w: nat): State
    requires w < |s.pcs| == |s.rings| && s.pcs[w].PushDivert?
  {
    At(s.(overflow := s.overflow + [s.pcs[w].t]), w, Ready)
  }

  function DoSpillCas(s: State, w: nat, fail: bool): State
    requires w < |s.pcs| == |s.rings| && s.pcs[w].SpillCas?
  {
    var r, p := s.rings[w], s.pcs[w];
    if fail || r.head != Head(p.base, p.base) then At(s, w, PushLoad(p.t))
    else Put(s, w, r.(head := Head(p.tail, p.tail)),
             SpillExpose(p.t, p.base, p.tail, Window(r.buf, p.base, 256)))
  }

  function DoSpillExpose(m: nat, s: State, w: nat): State
    requires w < |s.pcs| == |s.rings| && s.pcs[w].SpillExpose?
  {
    var r, p := s.rings[w], s.pcs[w];
    Put(s, w, r.(tail := Norm(m, p.tail + 128)),
        SpillMove(p.t, p.base, [], Window(r.buf, p.base + 128, 128)))
  }

  function DoSpillMove(s: State, w: nat): State
    requires w < |s.pcs| == |s.rings| && s.pcs[w].SpillMove?
  {
    var r, p := s.rings[w], s.pcs[w];
    if |p.batch| < 128 then
      At(s, w, p.(batch := p.batch + [r.buf[Slot(p.base + 128 + |p.batch|)]]))
    else
      At(s.(overflow := s.overflow + (p.batch + [p.t])), w, Ready)
  }

  function DoPopTry(m: nat, s: State, w: nat, fail: bool): State
    requires w < |s.pcs| == |s.rings| && s.pcs[w].PopTry?
  {
    var r, h := s.rings[w], s.pcs[w].seen;
    if fail || r.head != h then
      if r.head.front == r.tail then At(s, w, Ready) else At(s, w, PopTry(r.head))
    else
      var next := Norm(m, h.front + 1);
      Put(s, w, r.(head := Head(if h.steal == h.front then next else h.steal, next)),
          PopRead(h.front, r.buf[Slot(h.front)]))
  }

  function DoPopRead(s: State, w: nat): State
    requires w < |s.pcs| == |s.rings| && s.pcs[w].PopRead?
  {
    At(s.(returned := s.returned + [s.rings[w].buf[Slot(s.pcs[w].front)]]), w, Ready)
  }

  // ---- thief side -----------------------------------------------------------

  function DoStealLoad(s: State, w: nat): State
    requires w < |s.pcs| == |s.rings| && s.pcs[w].StealLoad? && s.pcs[w].victim < |s.rings|
  {
    var p := s.pcs[w];
    At(s, w, StealTail(p.victim, p.dst, s.rings[p.victim].head))
  }

  function DoStealTail(m: nat, s: State, w: nat): State
    requires w < |s.pcs| == |s.rings| && s.pcs[w].StealTail? && s.pcs[w].victim < |s.rings|
  {
    var p := s.pcs[w];
    At(s, w, SizeClaim(m, s.rings[p.victim].tail, p.victim, p.dst, p.prev))
  }

  /** Half of what is there, rounded up; nothing while another steal is in progress. */
  function SizeClaim(m: nat, tail: int, victim: nat, dst: int, prev: Head): Pc {
    var avail := Norm(m, tail - prev.front);
    var n := avail - avail / 2;
    if prev.steal != prev.front || n == 0 then Ready
    else if Norm(m, prev.front + n) == prev.steal then Broken
    else StealCas(victim, dst, prev, n)
  }

  function DoStealCas(m: nat, s: State, w: nat, fail: bool): State
    requires w < |s.pcs| == |s.rings| && s.pcs[w].StealCas? && s.pcs[w].victim < |s.rings|
  {
    var p := s.pcs[w];
    var v := s.rings[p.victim];
    if fail || v.head != p.prev then At(s, w, StealTail(p.victim, p.dst, v.head))
    else if p.n < 0 || p.n > 128 then At(s, w, Broken)
    else
      s.(rings := s.rings[p.victim :=
                  v.(head := Head(p.prev.steal, Norm(m, p.prev.front + p.n)), thief := w, claim := p.n)],
         pcs := s.pcs[w := StealCopy(p.victim, p.dst, p.prev, p.n, 0,
                                     Window(v.buf, p.prev.steal, p.n))])
  }

  function DoStealCopy(s: State, w: nat): State
    requires w < |s.pcs| == |s.rings| && s.pcs[w].StealCopy? && s.pcs[w].victim < |s.rings|
  {
    var r, p := s.rings[w], s.pcs[w];
    var x := s.rings[p.victim].buf[Slot(p.prev.steal + p.i)];
    Put(s, w, r.(buf := r.buf[Slot(p.dst + p.i) := x]),
        if p.i + 1 < p.n then p.(i := p.i + 1)
        else StealFinish(p.victim, p.dst, p.prev.steal, p.prev, p.n, p.loot))
  }

  function DoStealFinish(s: State, w: nat, fail: bool): State
    requires w < |s.pcs| == |s.rings| && s.pcs[w].StealFinish? && s.pcs[w].victim < |s.rings|
  {
    var p := s.pcs[w];
    var v := s.rings[p.victim];
    if fail || v.head != p.prev then At(s, w, p.(prev := v.head))
    else
      s.(rings := s.rings[p.victim :=
                  v.(head := Head(p.prev.front, p.prev.front), thief := -1, claim := 0)],
         pcs := s.pcs[w := StealTake(p.dst, p.n, p.loot)])
  }

  function DoStealTake(s: State, w: nat): State
    requires w < |s.pcs| == |s.rings| && s.pcs[w].StealTake?
  {
    var r, p := s.rings[w], s.pcs[w];
    At(s, w, StealStore(p.dst, p.n - 1, r.buf[Slot(p.dst + p.n - 1)], p.loot))
  }

  function DoStealStore(m: nat, s: State, w: nat): State
    requires w < |s.pcs| == |s.rings| && s.pcs[w].StealStore?
  {
    var r, p := s.rings[w], s.pcs[w];
    var s' := s.(returned := s.returned + [p.ret]);
    if p.n > 0 then Put(s', w, r.(tail := Norm(m, p.dst + p.n)), Ready)
    else At(s', w, Ready)
  }

  // ---- one step, and a run --------------------------------------------------

  function Begin(m: nat, s: State, w: nat, op: Op): State
    requires w < |s.pcs| == |s.rings|
  {
    match op
    case Push(t) => At(s.(pushed := s.pushed + [t]), w, PushLoad(t))
    case Inject(t) => s.(pushed := s.pushed + [t], overflow := s.overflow + [t])
    case Pop => StartPop(s, w)
    case Steal(v) => StartSteal(m, s, w, v)
    case TakeBatch => StartBatch(m, s, w)
  }

  function Go(m: nat, s: State, w: nat, fail: bool): State
    requires w < |s.pcs| == |s.rings|
  {
    match s.pcs[w]
    case Ready => s
    case Broken => s
    case PushLoad(_) => DoPushLoad(m, s, w)
    case PushWrite(_, _, _) => DoPushWrite(s, w)
    case PushStore(_, _, _) => DoPushStore(m, s, w)
    case PushDivert(_) => DoPushDivert(s, w)
    case SpillCas(_, _, _) => DoSpillCas(s, w, fail)
    case SpillExpose(_, _, _, _) => DoSpillExpose(m, s, w)
    case SpillMove(_, _, _, _) => DoSpillMove(s, w)
    case BatchPush(_) => DoBatchPush(m, s, w)
    case PopTry(_) => DoPopTry(m, s, w, fail)
    case PopRead(_, _) => DoPopRead(s, w)
    case StealLoad(v, _) => if v < |s.rings| then DoStealLoad(s, w) else s
    case StealTail(v, _, _) => if v < |s.rings| then DoStealTail(m, s, w) else s
    case StealCas(v, _, _, _) => if v < |s.rings| then DoStealCas(m, s, w, fail) else s
    case StealCopy(v, _, _, _, _, _) => if v < |s.rings| then DoStealCopy(s, w) else s
    case StealFinish(v, _, _, _, _, _) => if v < |s.rings| then DoStealFinish(s, w, fail) else s
    case StealTake(_, _, _) => DoStealTake(s, w)
    case StealStore(_, _, _, _) => DoStealStore(m, s, w)
  }

  function Step(m: nat, s: State, a: Action): State {
    if |s.pcs| != |s.rings| || a.w >= |s.pcs| then s
    else match a
      case Start(w, op) => if s.pcs[w].Ready? then Begin(m, s, w, op) else s
      case Advance(w, fail) => Go(m, s, w, fail)
  }

  /** The state after a schedule, first action first. */
  function Run(m: nat, s: State, schedule: seq<Action>): State
    decreases |schedule|
  {
    if schedule == [] then s
    else Step(m, Run(m, s, schedule[..|schedule| - 1]), schedule[|schedule| - 1])
  }
}
