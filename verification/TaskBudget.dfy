/** The poll budget (include/coro/detail/context.h, src/task/context.cpp) and the awaits it
    charges (include/coro/detail/future_awaitable.h). */
module TaskBudget {

  const UNLIMITED: nat := 0xFFFF_FFFF

  /** What one poll of a future does with the task's context. Polls nest: `inner` is what
      the future does while it is polled. */
  datatype Act =
    | Await(inner: seq<Act>)                    // co_await of a new future
    | Repoll(deferred: bool, inner: seq<Act>)   // a suspended await is polled again; `deferred`: for the first time
    | Branch(inner: seq<Act>)                   // join() and select(): yield_if_budget_spent() before a branch
    | Charge                                    // a hand-written loop charging for one item
    | YieldNow

  /** A context, with what happened through it: first polls of awaited futures, first polls
      refused, items charged, and wakes of the task. */
  datatype Ctx = Ctx(budget: nat, yielded: bool, wakes: nat, firstPolls: nat, refusals: nat, items: nat)

  function Yield(c: Ctx): Ctx {
    c.(yielded := true, wakes := c.wakes + 1)
  }

  function Spend(c: Ctx): Ctx
    requires c.budget > 0
  {
    if c.budget == UNLIMITED then c else c.(budget := c.budget - 1)
  }

  /** The specification: what the awaits below do to the context. */
  function Do(c: Ctx, a: Act): Ctx
    decreases a, 1
  {
    match a
    case Await(inner) => FirstPoll(c, inner)
    case Repoll(deferred, inner) => if deferred then FirstPoll(c, inner) else DoAll(c, inner)
    case Branch(inner) => if c.budget != 0 then DoAll(c, inner) else if c.yielded then c else Yield(c)
    case Charge => if c.budget == 0 then Yield(c) else var d := Spend(c); d.(items := d.items + 1)
    case YieldNow => Yield(c)
  }

  function FirstPoll(c: Ctx, inner: seq<Act>): Ctx
    decreases inner, 1
  {
    if c.budget == 0 then var d := Yield(c); d.(refusals := d.refusals + 1)
    else var d := Spend(c); DoAll(d.(firstPolls := d.firstPolls + 1), inner)
  }

  function DoAll(c: Ctx, acts: seq<Act>): Ctx
    decreases acts, 0
  {
    if acts == [] then c else DoAll(Do(c, acts[0]), acts[1..])
  }

  // ---- what it guarantees ----------------------------------------------------------------

  /** From c to d: with a finite budget every first poll and every item took one unit, a
      refusal happened only with the budget spent, and each refusal woke the task; without a
      limit nothing was taken or refused. */
  predicate Paid(c: Ctx, d: Ctx) {
    && c.firstPolls <= d.firstPolls && c.refusals <= d.refusals && c.items <= d.items && c.wakes <= d.wakes
    && (c.yielded ==> d.yielded)
    && (c.budget != UNLIMITED ==>
          && d.budget + (d.firstPolls - c.firstPolls) + (d.items - c.items) == c.budget
          && d.refusals - c.refusals <= d.wakes - c.wakes
          && (d.refusals > c.refusals ==> d.yielded && d.budget == 0))
    && (c.budget == UNLIMITED ==> d.budget == UNLIMITED && d.refusals == c.refusals)
  }

  lemma {:induction false} DoPays(c: Ctx, a: Act)
    requires c.budget <= UNLIMITED
    ensures Paid(c, Do(c, a))
    decreases a, 1
  {
    match a
    case Await(inner) => FirstPollPays(c, inner);
    case Repoll(deferred, inner) => if deferred { FirstPollPays(c, inner); } else { DoAllPays(c, inner); }
    case Branch(inner) => DoAllPays(c, inner);
    case Charge =>
    case YieldNow =>
  }

  lemma {:induction false} FirstPollPays(c: Ctx, inner: seq<Act>)
    requires c.budget <= UNLIMITED
    ensures Paid(c, FirstPoll(c, inner))
    decreases inner, 1
  {
    if c.budget > 0 {
      var d := Spend(c);
      DoAllPays(d.(firstPolls := d.firstPolls + 1), inner);
    }
  }

  lemma {:induction false} DoAllPays(c: Ctx, acts: seq<Act>)
    requires c.budget <= UNLIMITED
    ensures Paid(c, DoAll(c, acts))
    decreases acts, 0
  {
    if acts != [] {
      DoPays(c, acts[0]);
      DoAllPays(Do(c, acts[0]), acts[1..]);
    }
  }

  /** In one task poll with a finite budget, whatever nesting of coroutines it runs, at most
      `budget` awaited futures get their first poll, and if any first poll was refused the
      budget is spent and the task has woken itself. */
  lemma OnePollIsBounded(budget: nat, acts: seq<Act>)
    requires budget < UNLIMITED
    ensures var d := DoAll(Ctx(budget, false, 0, 0, 0, 0), acts);
            && d.firstPolls <= budget
            && d.firstPolls + d.items + d.budget == budget
            && (d.refusals > 0 ==> d.yielded && d.wakes >= d.refusals && d.firstPolls + d.items == budget)
  {
    DoAllPays(Ctx(budget, false, 0, 0, 0, 0), acts);
  }

  // ---- with budget to spare, and with none ---------------------------------------------------

  /** What the acts would do if nothing held them back: first polls, items, and yields. */
  datatype Wants = Wants(firsts: nat, items: nat, yieldings: nat)

  function WantOne(a: Act): Wants
    decreases a, 1
  {
    match a
    case Await(inner) => var w := WantAll(inner); w.(firsts := w.firsts + 1)
    case Repoll(deferred, inner) =>
      var w := WantAll(inner);
      if deferred then w.(firsts := w.firsts + 1) else w
    case Branch(inner) => WantAll(inner)
    case Charge => Wants(0, 1, 0)
    case YieldNow => Wants(0, 0, 1)
  }

  function WantAll(acts: seq<Act>): Wants
    decreases acts, 0
  {
    if acts == [] then Wants(0, 0, 0)
    else
      var w, rest := WantOne(acts[0]), WantAll(acts[1..]);
      Wants(w.firsts + rest.firsts, w.items + rest.items, w.yieldings + rest.yieldings)
  }

  /** The context after all of that, paid for. */
  function Served(c: Ctx, w: Wants): Ctx
    requires c.budget == UNLIMITED || c.budget >= w.firsts + w.items
  {
    Ctx(if c.budget == UNLIMITED then UNLIMITED else c.budget - w.firsts - w.items,
        c.yielded || w.yieldings > 0, c.wakes + w.yieldings, c.firstPolls + w.firsts, c.refusals, c.items + w.items)
  }

  predicate Spare(c: Ctx, w: Wants) {
    c.budget == UNLIMITED || (c.budget < UNLIMITED && c.budget > w.firsts + w.items)
  }

  /** With budget to spare, or without a limit, every future is polled, every branch entered and
      every item charged, at one unit for each first poll and each item, and the task wakes
      itself only where it asks to. */
  lemma {:induction false} AllAreServed(c: Ctx, acts: seq<Act>)
    requires Spare(c, WantAll(acts))
    ensures DoAll(c, acts) == Served(c, WantAll(acts))
    decreases acts, 0
  {
    if acts != [] {
      OneIsServed(c, acts[0]);
      AllAreServed(Do(c, acts[0]), acts[1..]);
    }
  }

  lemma {:induction false} OneIsServed(c: Ctx, a: Act)
    requires Spare(c, WantOne(a))
    ensures Do(c, a) == Served(c, WantOne(a))
    decreases a, 1
  {
    match a
    case Await(inner) => FirstIsServed(c, inner);
    case Repoll(deferred, inner) => if deferred { FirstIsServed(c, inner); } else { AllAreServed(c, inner); }
    case Branch(inner) => AllAreServed(c, inner);
    case Charge =>
    case YieldNow =>
  }

  lemma {:induction false} FirstIsServed(c: Ctx, inner: seq<Act>)
    requires var w := WantAll(inner); Spare(c, w.(firsts := w.firsts + 1))
    ensures var w := WantAll(inner); FirstPoll(c, inner) == Served(c, w.(firsts := w.firsts + 1))
    decreases inner, 1
  {
    var d := Spend(c);
    AllAreServed(d.(firstPolls := d.firstPolls + 1), inner);
  }

  /** The first polls that come up when nothing can be paid for: those not inside a future that
      is refused, or a branch that is not entered. */
  function RefusedOne(a: Act): nat
    decreases a, 1
  {
    match a
    case Await(_) => 1
    case Repoll(deferred, inner) => if deferred then 1 else RefusedAll(inner)
    case _ => 0
  }

  function RefusedAll(acts: seq<Act>): nat
    decreases acts, 0
  {
    if acts == [] then 0 else RefusedOne(acts[0]) + RefusedAll(acts[1..])
  }

  /** Something that the task must wake itself for when the budget is spent. */
  predicate YieldsOne(a: Act)
    decreases a, 1
  {
    match a
    case Repoll(deferred, inner) => deferred || YieldsAll(inner)
    case _ => true
  }

  predicate YieldsAll(acts: seq<Act>)
    decreases acts, 0
  {
    acts != [] && (YieldsOne(acts[0]) || YieldsAll(acts[1..]))
  }

  /** With the budget spent no future gets its first poll, nothing is charged, each first poll
      that comes up is refused, and the task has yielded if and only if it had, or something
      was held back or asked to. */
  lemma {:induction false} NoneAreServed(c: Ctx, acts: seq<Act>)
    requires c.budget == 0
    ensures var d := DoAll(c, acts);
            && d.budget == 0 && d.firstPolls == c.firstPolls && d.items == c.items
            && d.refusals == c.refusals + RefusedAll(acts) && (d.yielded <==> c.yielded || YieldsAll(acts))
    decreases acts, 0
  {
    if acts != [] {
      NoneIsServed(c, acts[0]);
      NoneAreServed(Do(c, acts[0]), acts[1..]);
    }
  }

  lemma {:induction false} NoneIsServed(c: Ctx, a: Act)
    requires c.budget == 0
    ensures var d := Do(c, a);
            && d.budget == 0 && d.firstPolls == c.firstPolls && d.items == c.items
            && d.refusals == c.refusals + RefusedOne(a) && (d.yielded <==> c.yielded || YieldsOne(a))
    decreases a, 1
  {
    if a.Repoll? && !a.deferred { NoneAreServed(c, a.inner); }
  }

  // ---- the objects ---------------------------------------------------------------------------

  class Context {
    var budget: nat
    var yielded: bool
    var wakes: nat             // calls of the task's waker
    ghost var firstPolls: nat
    ghost var refusals: nat
    ghost var items: nat

    constructor (budget: nat)
      ensures Now() == Ctx(budget, false, 0, 0, 0, 0)
    {
      this.budget, yielded, wakes := budget, false, 0;
      firstPolls, refusals, items := 0, 0, 0;
    }

    ghost function Now(): Ctx
      reads this
    {
      Ctx(budget, yielded, wakes, firstPolls, refusals, items)
    }

    method TryConsumeBudget() returns (ok: bool)
      modifies `budget
      ensures ok == (old(budget) > 0)
      ensures Now() == if ok then Spend(old(Now())) else old(Now())
    {
      if budget == 0 { return false; }
      if budget != UNLIMITED { budget := budget - 1; }
      return true;
    }

    method YieldToExecutor()
      modifies `yielded, `wakes
      ensures Now() == Yield(old(Now()))
    {
      yielded := true;
      wakes := wakes + 1;
    }

    /** True means: do not poll the branch, and the task is sure to be polled again. */
    method YieldIfBudgetSpent() returns (spent: bool)
      modifies `yielded, `wakes
      ensures spent == (old(budget) == 0) && (spent ==> yielded)
      ensures Now() == if spent && !old(yielded) then Yield(old(Now())) else old(Now())
    {
      if budget != 0 { return false; }
      if !yielded { YieldToExecutor(); }
      return true;
    }
  }

  class FutureAwaitable {
    const inner: seq<Act>
    var deferred: bool

    constructor (inner: seq<Act>, deferred: bool)
      ensures this.inner == inner && this.deferred == deferred
    {
      this.inner, this.deferred := inner, deferred;
    }

    method AwaitReady(ctx: Context)
      requires !deferred
      modifies this, ctx
      ensures ctx.Now() == FirstPoll(old(ctx.Now()), inner)
      ensures deferred == (old(ctx.budget) == 0)
      decreases inner, 1
    {
      var ok := ctx.TryConsumeBudget();
      if !ok {
        ctx.YieldToExecutor();
        ctx.refusals := ctx.refusals + 1;
        deferred := true;
        return;
      }
      ctx.firstPolls := ctx.firstPolls + 1;
      PollInner(ctx, inner);
    }

    /** The re-poll before the coroutine is resumed. */
    method Poll(ctx: Context)
      modifies this, ctx
      ensures ctx.Now() == if old(deferred) then FirstPoll(old(ctx.Now()), inner) else DoAll(old(ctx.Now()), inner)
      ensures deferred == (old(deferred) && old(ctx.budget) == 0)
      decreases inner, 1
    {
      if deferred {
        var ok := ctx.TryConsumeBudget();
        if !ok {
          ctx.YieldToExecutor();
          ctx.refusals := ctx.refusals + 1;
          return;
        }
        deferred := false;
        ctx.firstPolls := ctx.firstPolls + 1;
      }
      PollInner(ctx, inner);
    }
  }

  /** A future's own poll. */
  method PollInner(ctx: Context, acts: seq<Act>)
    modifies ctx
    ensures ctx.Now() == DoAll(old(ctx.Now()), acts)
    decreases acts, 0
  {
    if acts == [] { return; }
    var rest := acts[1..];
    PollOne(ctx, acts[0]);
    PollInner(ctx, rest);
  }

  method PollOne(ctx: Context, act: Act)
    modifies ctx
    ensures ctx.Now() == Do(old(ctx.Now()), act)
    decreases act, 1
  {
    match act
    case Await(inner) =>
      var f := new FutureAwaitable(inner, false);
      f.AwaitReady(ctx);
    case Repoll(deferred, inner) =>
      var f := new FutureAwaitable(inner, deferred);
      f.Poll(ctx);
    case Branch(inner) =>
      var spent := ctx.YieldIfBudgetSpent();
      if !spent { PollInner(ctx, inner); }
    case Charge =>
      var ok := ctx.TryConsumeBudget();
      if ok { ctx.items := ctx.items + 1; } else { ctx.YieldToExecutor(); }
    case YieldNow =>
      ctx.YieldToExecutor();
  }
}
