/** Structured concurrency: a coroutine's scope of dropped children
    (include/coro/detail/coro_scope.h) and the coroutine's poll (include/coro/coro.h), while
    the children finish on other threads (include/coro/detail/task_state.h). */
module CoroScopes {

  type Child = nat
  type Waker = nat

  /** The children's task states, shared with the threads that run them. Each child has one
      waiter at most, so other threads never store a waker for a child of this scope. A
      weak reference that no longer locks belongs to a terminated child. */
  class Children {
    var terminated: set<Child>
    var waker: map<Child, Waker>
    var firing: set<(Child, Waker)>  // taken by a terminated child, about to be woken
    var fired: set<(Child, Waker)>   // woken

    /** Only terminated children wake anyone. */
    ghost predicate Valid()
      reads this
    {
      forall c, w :: (c, w) in firing + fired ==> c in terminated
    }

    constructor ()
      ensures Valid() && terminated == {} && waker == map[] && firing == {} == fired
    {
      terminated, waker, firing, fired := {}, map[], {}, {};
    }

    /** Other threads' steps: any children terminate, each setting `terminated` and taking its
        stored waker in one critical section, and any that did so before fire theirs. */
    method Interfere()
      requires Valid()
      modifies this
      ensures Valid() && Later(old(terminated), old(waker), old(firing + fired))
    {
      var ending: set<Child>, waking: set<(Child, Waker)> := *, *;
      var now, woken := ending - terminated, waking * firing;
      fired := fired + woken;
      firing := (firing - woken) + set c | c in now && c in waker :: (c, waker[c]);
      waker := waker - now;
      terminated := terminated + now;
    }

    /** The children that terminated meanwhile took the waker they had, and nothing else
        changed; `f` are the wakes already taken. */
    ghost predicate Later(t: set<Child>, w: map<Child, Waker>, f: set<(Child, Waker)>)
      reads this
    {
      && t <= terminated && f <= firing + fired
      && (forall c :: c in w && c in terminated && c !in t ==> (c, w[c]) in firing + fired)
      && (forall c :: c in w && (c !in terminated || c in t) ==> c in waker && waker[c] == w[c])
      && (forall c :: c in waker ==> c in w && (c in terminated ==> c in t))
    }

    method IsComplete(c: Child) returns (done: bool)
      ensures done == (c in terminated)
    {
      return c in terminated;
    }

    /** Stored whether or not the child has terminated. */
    method SetWaker(c: Child, w: Waker)
      requires Valid()
      modifies `waker
      ensures Valid() && waker == old(waker)[c := w]
    {
      waker := waker[c := w];
    }

    /** The child has the waker w, or had it when it terminated and wakes it. */
    ghost predicate Armed(c: Child, w: Waker)
      reads this
    {
      if c in terminated then (c, w) in firing + fired else c in waker && waker[c] == w
    }
  }

  class Scope {
    const children: Children
    var pending: seq<Child>

    constructor (children: Children)
      ensures this.children == children && pending == []
    {
      this.children, pending := children, [];
    }

    method AddChild(c: Child)
      modifies this
      ensures pending == old(pending) + [c]
    {
      pending := pending + [c];
    }

    /** Drops the children seen terminated and keeps the others; ones that are kept may
        terminate at any moment from their check on. */
    method Sweep(ghost w: Waker)
      requires children.Valid()
      modifies this, children
      ensures children.Valid()
      ensures children.Later(old(children.terminated), old(children.waker), old(children.firing + children.fired))
      ensures forall c :: c in old(pending) && c !in pending ==> c in children.terminated
      ensures forall c :: c in pending ==> c in old(pending) && c !in old(children.terminated)
      ensures (forall c :: c in old(pending) && c !in old(children.terminated) ==> old(children.Armed(c, w)))
              ==> forall c :: c in pending ==> children.Armed(c, w)
    {
      var kept := [];
      var i := 0;
      while i < |pending|
        invariant 0 <= i <= |pending| && pending == old(pending)
        invariant children.Valid()
        invariant children.Later(old(children.terminated), old(children.waker), old(children.firing + children.fired))
        invariant forall c :: c in pending[..i] && c !in kept ==> c in children.terminated
        invariant forall c :: c in kept ==> c in pending && c !in old(children.terminated)
        modifies children
      {
        children.Interfere();
        var done := children.IsComplete(pending[i]);
        if !done { kept := kept + [pending[i]]; }
        i := i + 1;
      }
      pending := kept;
    }

    /** The double sweep. When it returns false every child has terminated; when it returns
        true each child that remains was running when the call began and has this waker, or
        has terminated since and wakes it. One that had terminated is not given the waker. */
    method SetDrainWaker(w: Waker) returns (any: bool)
      requires children.Valid()
      modifies this, children
      ensures children.Valid() && any == (pending != [])
      ensures forall c :: c in old(pending) && c !in pending ==> c in children.terminated
      ensures forall c :: c in pending ==> c in old(pending) && c !in old(children.terminated) && children.Armed(c, w)
      ensures old(children.terminated) <= children.terminated
      ensures forall c :: c in old(children.terminated) ==>
                && (c in children.waker <==> c in old(children.waker))
                && (c in children.waker ==> children.waker[c] == old(children.waker)[c])
    {
      if pending == [] { return false; }
      Sweep(w);
      if pending == [] { return false; }
      Install(w);
      Sweep(w);
      return pending != [];
    }

    /** Gives the waker to each pending child, finished by now or not. */
    method Install(w: Waker)
      requires children.Valid()
      modifies children
      ensures children.Valid() && old(children.terminated) <= children.terminated
      ensures forall c :: c in pending && c !in children.terminated ==> children.Armed(c, w)
      ensures forall c :: c in old(children.terminated) && c !in pending ==>
                && (c in children.waker <==> c in old(children.waker))
                && (c in children.waker ==> children.waker[c] == old(children.waker)[c])
    {
      var i := 0;
      while i < |pending|
        invariant 0 <= i <= |pending|
        invariant children.Valid() && old(children.terminated) <= children.terminated
        invariant forall c :: c in pending[..i] && c !in children.terminated ==> children.Armed(c, w)
        invariant forall c :: c in old(children.terminated) && c !in pending ==>
                    && (c in children.waker <==> c in old(children.waker))
                    && (c in children.waker ==> children.waker[c] == old(children.waker)[c])
      {
        children.Interfere();
        children.SetWaker(pending[i], w);
        i := i + 1;
      }
    }
  }

  // ---- the coroutine ------------------------------------------------------------------------

  datatype Outcome = Value | Exception

  datatype Frame =
    | NoFrame
    | Suspended(awaiting: bool, cancellable: bool)   // `awaiting`: at a co_await; a future that can be cancelled
    | Finished(outcome: Outcome)

  datatype PollResult = Pending | Ready | Error | Dropped

  class Coro {
    var frame: Frame
    const scope: Scope
    const children: Children
    var cancelled: bool
    var draining: bool               // m_cancel_draining
    ghost var registered: set<Child> // every child ever added to the scope
    ghost var outcome: Outcome       // how the body finished, once it has
    ghost var resumes: nat           // times the body was resumed
    ghost var notYet: nat            // times the awaited future was polled and was not ready
    ghost var answered: nat          // times it was polled and was ready

    constructor (children: Children)
      requires children.Valid()
      ensures Valid() && fresh(scope) && this.children == children && registered == {}
      ensures frame == Suspended(false, false) && !cancelled && !draining
    {
      this.children := children;
      scope := new Scope(children);
      frame := Suspended(false, false);
      cancelled, draining := false, false;
      registered := {};
      new;
      assert scope.pending == [];
    }

    ghost predicate Valid()
      reads this, scope, children
    {
      && scope.children == children && children.Valid()
      && (forall c :: c in registered ==> c in scope.pending || c in children.terminated)
      && (forall c :: c in scope.pending ==> c in registered)
      && (draining ==> cancelled && frame.Suspended? && frame.cancellable)
      && (frame.Finished? ==> frame.outcome == outcome)
    }

    method Cancel()
      requires Valid()
      modifies `cancelled
      ensures Valid() && cancelled
    {
      cancelled := true;
    }

    /** The body runs under the scope guard until it suspends or finishes; the handles it
        drops meanwhile register their children. */
    method Resume()
      requires Valid() && frame.Suspended? && !cancelled
      modifies `frame, `registered, `outcome, `resumes, scope
      ensures Valid() && old(registered) <= registered && frame != NoFrame && resumes == old(resumes) + 1
    {
      resumes := resumes + 1;
      RegisterSome();
      var suspends: bool, awaiting: bool, cancellable: bool, how: Outcome := *, *, *, *;
      frame := if suspends then Suspended(awaiting, cancellable) else Finished(how);
      outcome := how;
    }

    method RegisterSome()
      requires Valid()
      modifies `registered, scope
      ensures Valid() && old(registered) <= registered && old(scope.pending) <= scope.pending
    {
      var n: nat := *;
      var i := 0;
      while i < n
        invariant Valid() && old(registered) <= registered && old(scope.pending) <= scope.pending
      {
        var c: Child := *;
        scope.AddChild(c);
        registered := registered + {c};
        i := i + 1;
      }
    }

    /** Whether the awaited future is ready now. */
    method PollAwaited() returns (ready: bool)
      modifies `notYet, `answered
      ensures notYet == old(notYet) + (if ready then 0 else 1)
      ensures answered == old(answered) + (if ready then 1 else 0)
    {
      ready := *;
      if ready { answered := answered + 1; } else { notYet := notYet + 1; }
    }

    /** Nothing but a child's own completion is being waited for, and its wake is still to
        come: some child remains, and each that does was running when the poll began (`t`
        are those that had terminated) and has the waker, or has terminated since and
        wakes it. */
    ghost predicate WaitsForChildren(w: Waker, t: set<Child>)
      reads this, scope, children
    {
      scope.pending != [] && AllArmed(w, t)
    }

    ghost predicate AllArmed(w: Waker, t: set<Child>)
      reads this, scope, children
    {
      forall c :: c in scope.pending ==> c !in t && children.Armed(c, w)
    }

    /** A poll of the coroutine polls the future it awaits: once cancelled, only one that can be
        cancelled, to drain it. */
    predicate Asks(f: Frame, cancelled: bool) {
      f.Suspended? && f.awaiting && (cancelled ==> f.cancellable)
    }

    /** The coroutine reports an end only when every child registered in its scope has
        terminated. When it reports pending, it has been asked for nothing more, or waits for
        children that will wake it, or its awaited future has just been polled and is not
        ready, or its body has been resumed and suspended again. The awaited future is polled
        once, and the body is resumed if and only if it is ready; otherwise nothing changes. */
    method Poll(w: Waker) returns (r: PollResult)
      requires Valid()
      modifies this, scope, children
      ensures Valid() && cancelled == old(cancelled) && old(registered) <= registered
      ensures r != Pending ==> forall c :: c in registered ==> c in children.terminated
      ensures r == Pending && (frame.Finished? || (cancelled && frame == NoFrame)) ==>
                WaitsForChildren(w, old(children.terminated))
      ensures r == Pending && !cancelled && old(frame) != NoFrame ==> frame != NoFrame
      ensures old(frame).Finished? && r == Pending ==> frame == old(frame)
      ensures frame.Suspended? ==>
                || (notYet == old(notYet) + 1 && resumes == old(resumes) && frame == old(frame) && frame.awaiting)
                || (resumes == old(resumes) + 1 && !cancelled && AllArmed(w, old(children.terminated)))
      ensures frame.Suspended? && cancelled ==> draining && frame.cancellable
      ensures cancelled || !old(frame).Suspended? ==> resumes == old(resumes)
      ensures answered + notYet == old(answered + notYet) + (if Asks(old(frame), cancelled) then 1 else 0)
      ensures Asks(old(frame), cancelled) && answered == old(answered) ==>
                && r == Pending && frame == old(frame) && resumes == old(resumes)
                && registered == old(registered) && scope.pending == old(scope.pending)
      ensures !cancelled && old(frame).Suspended? && (old(frame).awaiting ==> answered == old(answered) + 1) ==>
                resumes == old(resumes) + 1
      ensures cancelled && old(frame).Suspended? && (Asks(old(frame), true) ==> answered == old(answered) + 1) ==>
                frame == NoFrame
      ensures r == Ready ==> !cancelled && old(frame) != NoFrame && frame == NoFrame && outcome == Value
      ensures r == Error ==> !cancelled && old(frame) != NoFrame && frame == NoFrame && outcome == Exception
      ensures r == Dropped ==> cancelled && !frame.Suspended?
    {
      if cancelled {
        r := PollCancelled(w);
        return;
      }
      if frame == NoFrame { return Pending; }
      if frame.Finished? {
        r := Deliver(w);
        return;
      }
      if frame.awaiting {
        var ready := PollAwaited();
        if !ready { return Pending; }
        frame := Suspended(false, false);
      }
      Resume();
      if frame.Finished? {
        r := Deliver(w);
        return;
      }
      if scope.pending != [] {
        var _ := scope.SetDrainWaker(w);
      }
      return Pending;
    }

    /** The body has finished: its result, once the children have. */
    method Deliver(w: Waker) returns (r: PollResult)
      requires Valid() && frame.Finished? && !cancelled
      modifies `frame, scope, children
      ensures Valid() && old(children.terminated) <= children.terminated
      ensures r == Pending ==> frame == old(frame) && WaitsForChildren(w, old(children.terminated))
      ensures r != Pending ==> frame == NoFrame && r == (if outcome == Value then Ready else Error)
      ensures r != Pending ==> forall c :: c in registered ==> c in children.terminated
    {
      if scope.pending != [] {
        var any := scope.SetDrainWaker(w);
        if any { return Pending; }
      }
      var how := frame.outcome;
      frame := NoFrame;
      return if how == Value then Ready else Error;
    }

    /** An awaited future that can be cancelled is cancelled and drained first; then the frame
        is destroyed, which may register more children; then the children are drained. The frame
        is destroyed if and only if no such future is awaited or it has drained. */
    method PollCancelled(w: Waker) returns (r: PollResult)
      requires Valid() && cancelled
      modifies `frame, `draining, `registered, `notYet, `answered, scope, children
      ensures Valid() && old(registered) <= registered && (r == Pending || r == Dropped)
      ensures r == Dropped ==> !frame.Suspended? && forall c :: c in registered ==> c in children.terminated
      ensures r == Pending && !frame.Suspended? ==> WaitsForChildren(w, old(children.terminated))
      ensures frame.Suspended? ==> notYet == old(notYet) + 1 && frame == old(frame)
      ensures frame.Suspended? ==> draining && frame.awaiting && frame.cancellable
      ensures old(frame).Finished? ==> frame == old(frame)
      ensures frame.Finished? ==> frame == old(frame)
      ensures answered + notYet == old(answered + notYet) + (if Asks(old(frame), true) then 1 else 0)
      ensures Asks(old(frame), true) && answered == old(answered) ==>
                && r == Pending && frame == old(frame)
                && registered == old(registered) && scope.pending == old(scope.pending)
      ensures old(frame).Suspended? && (Asks(old(frame), true) ==> answered == old(answered) + 1) ==> frame == NoFrame
    {
      if frame.Suspended? {
        if !draining && frame.cancellable { draining := true; }
        if draining {
          if frame.awaiting {
            var ready := PollAwaited();
            if !ready { return Pending; }
          }
          frame := Suspended(false, false);
          draining := false;
        }
        RegisterSome();
        frame := NoFrame;
      }
      if scope.pending != [] {
        var any := scope.SetDrainWaker(w);
        if any { return Pending; }
      }
      return Dropped;
    }
  }
}
