/** The non-atomic reference count (include/coro/detail/rc.h): one control block, the strong
    and weak handles to it, and a value whose destructor may itself copy, drop and lock
    handles. */
module RefCounts {

  datatype Kind = Strong | Weak

  /** What a program does with a handle. Copies and locks make a new handle. */
  datatype Use =
    | Copy(h: nat)                     // NonAtomicRc of a strong one, NonAtomicWeak of a weak one
    | Downgrade(h: nat)                // a NonAtomicWeak of a strong one
    | Drop(h: nat, inside: seq<Use>)   // `inside`: what the destructor does, if this was the last strong one
    | Lock(h: nat)                     // Weak::lock(): a new strong handle if the value is alive

  // ---- the handles that exist, without any counting -----------------------------------------

  /** The handles alive, by name; the next handle made is called `next`. */
  datatype Handles = Handles(live: map<nat, Kind>, next: nat)

  function Of(w: Handles, k: Kind): set<nat> {
    set h | h in w.live && w.live[h] == k
  }

  function Made(w: Handles, k: Kind): Handles {
    Handles(w.live[w.next := k], w.next + 1)
  }

  /** The handles after one use. Use of a handle that is not alive is skipped. The destructor's
      own uses come right after the last strong handle is gone. */
  function After(w: Handles, use: Use): Handles
    decreases use, 1
  {
    if use.h !in w.live then w
    else
      match use
      case Copy(h) => Made(w, w.live[h])
      case Downgrade(h) => if w.live[h] == Strong then Made(w, Weak) else w
      case Drop(h, inside) =>
        var rest := w.(live := w.live - {h});
        if w.live[h] == Strong && Of(rest, Strong) == {} then AfterAll(rest, inside) else rest
      case Lock(h) => if w.live[h] == Weak && Of(w, Strong) != {} then Made(w, Strong) else w
  }

  function AfterAll(w: Handles, uses: seq<Use>): Handles
    decreases uses, 0
  {
    if uses == [] then w else AfterAll(After(w, uses[0]), uses[1..])
  }

  /** make_rc: one strong handle, named 0. */
  function First(): Handles {
    Handles(map[0 := Strong], 1)
  }

  predicate Named(w: Handles) {
    forall h :: h in w.live ==> h < w.next
  }

  // ---- what that means for a handle -----------------------------------------------------------

  /** The uses drop handle h, somewhere. */
  predicate Drops(uses: seq<Use>, h: nat)
    decreases uses, 0
  {
    uses != [] && (DropsIn(uses[0], h) || Drops(uses[1..], h))
  }

  predicate DropsIn(use: Use, h: nat)
    decreases use, 1
  {
    use.Drop? && (use.h == h || Drops(use.inside, h))
  }

  /** A handle lives until it is dropped, whatever else is done, and keeps its kind; a name is
      never used again; with no strong handle left none is made any more, and with none at all
      nothing is. */
  lemma {:induction false} HandleLives(w: Handles, uses: seq<Use>, h: nat)
    requires Named(w)
    ensures var e := AfterAll(w, uses);
            && Named(e) && w.next <= e.next
            && (h in w.live && !Drops(uses, h) ==> h in e.live)
            && (h in w.live && h in e.live ==> e.live[h] == w.live[h])
            && (h < w.next && h !in w.live ==> h !in e.live)
            && (Of(w, Strong) == {} ==> Of(e, Strong) == {}) && (w.live == map[] ==> e == w)
    decreases uses, 0
  {
    if uses != [] {
      HandleLivesOne(w, uses[0], h);
      HandleLives(After(w, uses[0]), uses[1..], h);
    }
  }

  lemma {:induction false} HandleLivesOne(w: Handles, use: Use, h: nat)
    requires Named(w)
    ensures var e := After(w, use);
            && Named(e) && w.next <= e.next
            && (h in w.live && !DropsIn(use, h) ==> h in e.live)
            && (h in w.live && h in e.live ==> e.live[h] == w.live[h])
            && (h < w.next && h !in w.live ==> h !in e.live)
            && (Of(w, Strong) == {} ==> Of(e, Strong) == {}) && (w.live == map[] ==> e == w)
    decreases use, 1
  {
    if use.h in w.live && use.Drop? {
      var rest := w.(live := w.live - {use.h});
      assert Of(rest, Strong) == Of(w, Strong) - {use.h};
      HandleLives(rest, use.inside, h);
    } else if use.h in w.live && Of(w, Strong) == {} {
      assert use.h !in Of(w, Strong);
      CountMade(w, Weak);
    }
  }

  /** What each use is for. A copy of a live handle is a live handle of the same kind, and
      dropping it undoes the copy; so is a downgrade of a strong one; a lock of a weak one
      gives a strong one exactly while there is a strong one; and a drop leaves the handle
      dead. */
  lemma UsesWork(w: Handles, h: nat, inside: seq<Use>)
    requires Named(w) && h in w.live
    ensures var c := After(w, Copy(h));
            && w.next in c.live && c.live[w.next] == w.live[h]
            && After(c, Drop(w.next, inside)).live == w.live
    ensures w.live[h] == Strong ==>
              var d := After(w, Downgrade(h));
              w.next in d.live && d.live[w.next] == Weak && After(d, Drop(w.next, inside)).live == w.live
    ensures w.live[h] == Weak ==>
              var l := After(w, Lock(h));
              && (w.next in l.live <==> exists g :: g in w.live && w.live[g] == Strong)
              && (w.next in l.live ==>
                    l.live[w.next] == Strong && After(l, Drop(w.next, inside)).live == w.live)
              && (w.next !in l.live ==> l == w)
    ensures h !in After(w, Drop(h, inside)).live
  {
    UndoMade(w, w.live[h]);
    UndoMade(w, Weak);
    UndoMade(w, Strong);
    assert h in Of(w, w.live[h]);
    if g :| g in w.live && w.live[g] == Strong { assert g in Of(w, Strong); }
    if g :| g in Of(w, Strong) { assert w.live[g] == Strong; }
    HandleLives(w.(live := w.live - {h}), inside, h);
    if w.live[h] == Strong { StillStrong(w, h, inside); }
    StillThere(w, Strong, inside);
  }

  /** The destructor runs when the last strong handle goes, on the handles that are left, and at
      no other drop. */
  lemma DestructorRuns(w: Handles, h: nat, inside: seq<Use>)
    requires Named(w) && h in w.live
    ensures var rest, e := w.(live := w.live - {h}), After(w, Drop(h, inside));
            if w.live[h] == Strong && (forall g :: g in w.live && w.live[g] == Strong ==> g == h)
            then e == AfterAll(rest, inside) else e == rest
  {
    var rest := w.(live := w.live - {h});
    assert Of(rest, Strong) == Of(w, Strong) - {h};
    if g :| g in w.live && w.live[g] == Strong && g != h { assert g in Of(rest, Strong); }
  }

  lemma UndoMade(w: Handles, k: Kind)
    requires Named(w)
    ensures Made(w, k).live - {w.next} == w.live
  {
  }

  /** Dropping the newest handle does not run the destructor while another strong one lives. */
  lemma StillThere(w: Handles, k: Kind, inside: seq<Use>)
    requires Named(w)
    ensures Of(w, Strong) != {} || k == Weak ==> After(Made(w, k), Drop(w.next, inside)).live == w.live
  {
    UndoMade(w, k);
    var rest := Made(w, k).(live := Made(w, k).live - {w.next});
    assert Of(rest, Strong) == Of(w, Strong);
  }

  lemma StillStrong(w: Handles, h: nat, inside: seq<Use>)
    requires Named(w) && h in w.live && w.live[h] == Strong
    ensures After(Made(w, Strong), Drop(w.next, inside)).live == w.live
    ensures After(Made(w, Weak), Drop(w.next, inside)).live == w.live
  {
    assert h in Of(w, Strong);
    StillThere(w, Strong, inside);
    StillThere(w, Weak, inside);
  }

  lemma {:induction false} AfterLast(w: Handles, uses: seq<Use>, use: Use)
    ensures AfterAll(w, uses + [use]) == After(AfterAll(w, uses), use)
    decreases |uses|
  {
    if uses == [] {
      assert (uses + [use])[1..] == [];
    } else {
      assert (uses + [use])[1..] == uses[1..] + [use];
      AfterLast(After(w, uses[0]), uses[1..], use);
    }
  }

  // ---- how many there are -----------------------------------------------------------------------

  lemma CountMade(w: Handles, k: Kind)
    requires Named(w)
    ensures |Of(Made(w, k), k)| == |Of(w, k)| + 1
    ensures forall j :: j != k ==> Of(Made(w, k), j) == Of(w, j)
  {
    assert Of(Made(w, k), k) == Of(w, k) + {w.next};
  }

  lemma CountDropped(w: Handles, h: nat)
    requires h in w.live
    ensures var rest := w.(live := w.live - {h});
            && |Of(rest, w.live[h])| == |Of(w, w.live[h])| - 1
            && forall j :: j != w.live[h] ==> Of(rest, j) == Of(w, j)
  {
    var rest := w.(live := w.live - {h});
    assert Of(rest, w.live[h]) == Of(w, w.live[h]) - {h};
  }

  lemma NoneLeft(w: Handles)
    ensures w.live == map[] <==> |Of(w, Strong)| == 0 && |Of(w, Weak)| == 0
  {
    assert w.live.Keys == Of(w, Strong) + Of(w, Weak);
  }

  // ---- the control block ---------------------------------------------------------------------

  class ControlBlock {
    var strong: nat
    var weak: nat
    var destroying: bool
    ghost var destroyed: nat         // times the value's destructor was started
    ghost var freed: nat             // times the block was deleted

    /** The counts are the numbers of handles alive. The value's destructor starts exactly when
        the last strong handle goes. The block is deleted once: when no handle remains and that
        destructor has returned. */
    ghost predicate Valid(w: Handles)
      reads this
    {
      && Named(w) && strong == |Of(w, Strong)| && weak == |Of(w, Weak)|
      && destroyed == (if Of(w, Strong) == {} then 1 else 0)
      && (destroying ==> Of(w, Strong) == {})
      && freed == (if w.live == map[] && !destroying then 1 else 0)
    }

    /** make_rc. */
    constructor ()
      ensures Valid(First()) && !destroying
    {
      strong, weak, destroying := 1, 0, false;
      destroyed, freed := 0, 0;
      assert Of(First(), Strong) == {0} && Of(First(), Weak) == {};
    }

    method AddStrongRef()
      modifies `strong
      ensures strong == old(strong) + 1
    {
      strong := strong + 1;
    }

    method AddWeakRef()
      modifies `weak
      ensures weak == old(weak) + 1
    {
      weak := weak + 1;
    }

    /** Weak::lock(). */
    method LockWeak() returns (got: bool)
      modifies `strong
      ensures got == (old(strong) > 0) && strong == old(strong) + (if got then 1 else 0)
    {
      if strong == 0 { return false; }
      AddStrongRef();
      return true;
    }

    /** Says whether the caller must now delete the block. `rest` are the handles without the
        one released, `inside` is what the value's destructor does with them if that was the
        last strong one. */
    method ReleaseStrong(ghost w: Handles, h: nat, rest: Handles, inside: seq<Use>)
      returns (delete: bool, refs: Handles)
      requires Valid(w) && h in w.live && w.live[h] == Strong && rest == w.(live := w.live - {h})
      modifies this
      ensures refs == After(w, Drop(h, inside)) && destroying == old(destroying)
      ensures delete ==> destroying == false && refs.live == map[] && freed == 0
      ensures if delete then ValidBut(refs) else Valid(refs)
      decreases inside, 1
    {
      CountDropped(w, h);
      assert h in Of(w, Strong) && h in w.live;
      strong := strong - 1;
      if strong == 0 {
        destroying := true;
        destroyed := destroyed + 1;
        refs := DestroyValue(rest, inside);
        destroying := false;
        NoneLeft(refs);
        return weak == 0, refs;
      }
      return false, rest;
    }

    /** Valid, except that the block is still to be deleted. */
    ghost predicate ValidBut(w: Handles)
      reads this
    {
      && Named(w) && strong == |Of(w, Strong)| && weak == |Of(w, Weak)|
      && destroyed == 1 && !destroying && w.live == map[] && freed == 0
    }

    /** The value's destructor: nothing strong is left, but weak handles may be copied, dropped
        and tried. */
    method DestroyValue(w: Handles, inside: seq<Use>) returns (refs: Handles)
      requires Valid(w) && destroying
      modifies this
      ensures Valid(refs) && destroying && refs == AfterAll(w, inside) && Of(refs, Strong) == {}
      decreases inside, 0
    {
      refs := w;
      if inside != [] {
        refs := UseOne(w, inside[0]);
        refs := DestroyValue(refs, inside[1..]);
      }
    }

    /** Says whether the caller must now delete the block: never while the value's destructor
        is running, which lives in it. */
    method ReleaseWeak() returns (delete: bool)
      requires weak > 0
      modifies `weak
      ensures weak == old(weak) - 1 && delete == (strong == 0 && weak == 0 && !destroying)
    {
      weak := weak - 1;
      if destroying { return false; }
      return weak == 0 && strong == 0;
    }

    method Delete()
      requires freed == 0
      modifies `freed
      ensures freed == 1
    {
      freed := freed + 1;
    }

    /** One use, by the program or inside the destructor, as the handles' own functions make it:
        after it the counts are again the numbers of handles alive. */
    method UseOne(w: Handles, use: Use) returns (refs: Handles)
      requires Valid(w)
      modifies this
      ensures Valid(refs) && destroying == old(destroying) && refs == After(w, use)
      decreases use, 0
    {
      if use.h !in w.live { return w; }
      match use
      case Copy(h) =>
        CountMade(w, w.live[h]);
        assert h in Of(w, w.live[h]);
        if w.live[h] == Strong { AddStrongRef(); } else { AddWeakRef(); }
        refs := Made(w, w.live[h]);
      case Downgrade(h) =>
        refs := w;
        if w.live[h] == Strong {
          CountMade(w, Weak);
          AddWeakRef();
          refs := Made(w, Weak);
        }
      case Drop(h, inside) => refs := DropOne(w, h, inside);
      case Lock(h) =>
        refs := w;
        if w.live[h] == Weak {
          CountMade(w, Strong);
          var got := LockWeak();
          if got { refs := Made(w, Strong); }
        }
    }

    /** NonAtomicRc::release and NonAtomicWeak::release. */
    method DropOne(w: Handles, h: nat, inside: seq<Use>) returns (refs: Handles)
      requires Valid(w) && h in w.live
      modifies this
      ensures Valid(refs) && destroying == old(destroying) && refs == After(w, Drop(h, inside))
      decreases inside, 2
    {
      var rest := w.(live := w.live - {h});
      var delete;
      if w.live[h] == Strong {
        delete, refs := ReleaseStrong(w, h, rest, inside);
      } else {
        CountDropped(w, h);
        assert h in Of(w, Weak);
        delete := ReleaseWeak();
        refs := rest;
      }
      if delete { Delete(); }
    }
  }

  /** After any sequence of uses, with any behaviour of the destructor, the counts are the
      numbers of handles alive; the value has been destroyed once if no strong one is and not
      yet otherwise, and the block freed once if none at all is and not yet otherwise. */
  method Lifetime(uses: seq<Use>) returns (block: ControlBlock, refs: Handles)
    ensures refs == AfterAll(First(), uses)
    ensures block.strong == |Of(refs, Strong)| && block.weak == |Of(refs, Weak)|
    ensures block.destroyed == (if Of(refs, Strong) == {} then 1 else 0)
    ensures block.freed == (if refs.live == map[] then 1 else 0)
  {
    block := new ControlBlock();
    refs := First();
    for i := 0 to |uses|
      invariant block.Valid(refs) && !block.destroying && refs == AfterAll(First(), uses[..i])
    {
      AfterLast(First(), uses[..i], uses[i]);
      assert uses[..i + 1] == uses[..i] + [uses[i]];
      refs := block.UseOne(refs, uses[i]);
    }
    assert uses[..|uses|] == uses;
  }
}
