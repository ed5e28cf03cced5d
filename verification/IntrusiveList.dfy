/** The doubly-linked intrusive list (include/coro/detail/intrusive_list.h): nodes carry
    their own links, the list holds the two ends and a 64-bit size. */
module IntrusiveLists {

  class Node {
    var prev: Node?
    var next: Node?

    constructor ()
      ensures prev == null && next == null
    {
      prev, next := null, null;
    }
  }

  const SIZE_LIMIT := 0x1_0000_0000_0000_0000

  ghost function At(s: seq<Node>, i: int): Node? {
    if 0 <= i < |s| then s[i] else null
  }

  // The definitions below are used only where `Unfold(Fold)` is mentioned.
  datatype Fold = Fold
  ghost predicate Unfold(f: Fold) { true }

  ghost predicate Distinct(s: seq<Node>) {
    forall f: Fold {:trigger Unfold(f)} :: Unfold(f) ==> forall i, j :: 0 <= i < j < |s| ==> s[i] != s[j]
  }

  /** Each node of s is linked to its neighbours in s. */
  ghost predicate Chained(s: seq<Node>)
    reads s
  {
    forall f: Fold {:trigger Unfold(f)} :: Unfold(f) ==>
      && (forall i, j :: 0 <= i < |s| && 0 <= j < |s| && j == i + 1 ==> s[i].next == s[j] && s[j].prev == s[i])
      && (s != [] ==> s[0].prev == null && s[|s| - 1].next == null)
  }

  lemma ChainedAt(s: seq<Node>, k: nat)
    requires Chained(s) && Distinct(s) && k < |s|
    ensures s[k].prev == At(s, k - 1) && s[k].next == At(s, k + 1)
    ensures s[k].prev != s[k] && s[k].next != s[k] && (s[k].prev != null ==> s[k].prev != s[k].next)
  {
    assert Unfold(Fold);
  }

  /** The links p and n, by value, tie s together. */
  ghost predicate Links(s: seq<Node>, p: seq<Node?>, n: seq<Node?>) {
    forall f: Fold {:trigger Unfold(f)} :: Unfold(f) ==>
      && |p| == |n| == |s|
      && (forall i, j :: 0 <= i < |s| && 0 <= j < |s| && j == i + 1 ==> n[i] == s[j] && p[j] == s[i])
      && (s != [] ==> p[0] == null && n[|s| - 1] == null)
  }

  /** The links of a chain, as values that outlive an update. */
  lemma LinksOf(s: seq<Node>) returns (p: seq<Node?>, n: seq<Node?>)
    requires Chained(s)
    ensures |p| == |n| == |s| && Links(s, p, n)
    ensures forall i :: 0 <= i < |s| ==> p[i] == s[i].prev && n[i] == s[i].next
  {
    p := seq(|s|, i requires 0 <= i < |s| reads s => s[i].prev);
    n := seq(|s|, i requires 0 <= i < |s| reads s => s[i].next);
    assert Unfold(Fold);
  }

  lemma StillLinked(s: seq<Node>, p: seq<Node?>, n: seq<Node?>)
    requires |p| == |n| == |s| && Links(s, p, n)
    requires forall i :: 0 <= i < |s| ==> s[i].prev == p[i] && s[i].next == n[i]
    ensures Chained(s)
  {
    assert Unfold(Fold);
  }

  ghost function Without(s: seq<Node>, n: Node): seq<Node> {
    if s == [] then [] else if s[0] == n then s[1..] else [s[0]] + Without(s[1..], n)
  }

  lemma {:induction false} WithoutIs(s: seq<Node>, k: nat)
    requires k < |s| && forall i :: 0 <= i < k ==> s[i] != s[k]
    ensures Without(s, s[k]) == s[..k] + s[k + 1..]
    decreases k
  {
    if k == 0 {
      assert Without(s, s[k]) == s[1..];
    } else {
      var t := s[1..];
      forall i | 0 <= i < k - 1 ensures t[i] != t[k - 1] { assert t[i] == s[i + 1]; }
      WithoutIs(t, k - 1);
      SplitOff(s, k);
      assert Without(s, s[k]) == [s[0]] + Without(t, t[k - 1]);
    }
  }

  lemma SplitOff(s: seq<Node>, k: nat)
    requires 0 < k < |s|
    ensures s[..k] + s[k + 1..] == [s[0]] + (s[1..][..k - 1] + s[1..][k..])
  {
  }

  lemma CutDistinct(s: seq<Node>, k: nat)
    requires k < |s| && Distinct(s)
    ensures Distinct(s[..k] + s[k + 1..])
  {
    assert Unfold(Fold);
    var r := s[..k] + s[k + 1..];
    forall i, j | 0 <= i < j < |r| ensures r[i] != r[j] {
      assert r[i] == s[if i < k then i else i + 1] && r[j] == s[if j < k then j else j + 1];
    }
  }

  lemma CutEnds(s: seq<Node>, k: nat)
    requires k < |s|
    ensures var r := s[..k] + s[k + 1..];
            && |r| == |s| - 1
            && At(r, 0) == (if k == 0 then At(s, 1) else At(s, 0))
            && At(r, |r| - 1) == (if k == |r| then At(s, k - 1) else At(s, |s| - 1))
  {
  }

  lemma WithoutAt(s: seq<Node>, k: nat)
    requires k < |s| && Distinct(s)
    ensures var r := Without(s, s[k]);
            && |r| == |s| - 1 && Distinct(r)
            && At(r, 0) == (if k == 0 then At(s, 1) else At(s, 0))
            && At(r, |r| - 1) == (if k == |r| then At(s, k - 1) else At(s, |s| - 1))
  {
    WithoutIs(s, k) by { assert Unfold(Fold); }
    CutDistinct(s, k);
    CutEnds(s, k);
  }

  /** Taking the k-th node out of a chain and tying its neighbours together leaves a
      chain: p and n are the links before, and the heap holds the ones after. */
  lemma UnlinkChains(s: seq<Node>, p: seq<Node?>, n: seq<Node?>, k: nat)
    requires k < |s| == |p| == |n| && Links(s, p, n) && Distinct(s)
    requires forall i :: 0 <= i < |s| && s[i] != s[k] && s[i] != p[k] ==> s[i].next == n[i]
    requires forall i :: 0 <= i < |s| && s[i] != s[k] && s[i] != n[k] ==> s[i].prev == p[i]
    requires p[k] != null ==> p[k].next == n[k]
    requires n[k] != null ==> n[k].prev == p[k]
    ensures Chained(Without(s, s[k]))
  {
    assert p[k] == At(s, k - 1) && n[k] == At(s, k + 1) by { assert Unfold(Fold); }
    forall i | 0 <= i < |s| && i != k && i != k - 1 ensures s[i].next == n[i] { assert Unfold(Fold); }
    forall i | 0 <= i < |s| && i != k && i != k + 1 ensures s[i].prev == p[i] { assert Unfold(Fold); }
    TieChains(s, p, n, k);
    WithoutIs(s, k) by { assert Unfold(Fold); }
  }

  lemma TieChains(s: seq<Node>, p: seq<Node?>, n: seq<Node?>, k: nat)
    requires k < |s| == |p| == |n| && Links(s, p, n)
    requires forall i :: 0 <= i < |s| && i != k && i != k - 1 ==> s[i].next == n[i]
    requires forall i :: 0 <= i < |s| && i != k && i != k + 1 ==> s[i].prev == p[i]
    requires k > 0 ==> s[k - 1].next == n[k]
    requires k + 1 < |s| ==> s[k + 1].prev == p[k]
    ensures Chained(s[..k] + s[k + 1..])
  {
    assert Unfold(Fold);
    var s' := s[..k] + s[k + 1..];
    forall i, j | 0 <= i < |s'| && 0 <= j < |s'| && j == i + 1
      ensures s'[i].next == s'[j] && s'[j].prev == s'[i]
    {
      if j < k {
        assert s'[i] == s[i] && s'[j] == s[j];
      } else if i < k {
        assert s'[i] == s[k - 1] && s'[j] == s[k + 1] && s[k] == s[k];
      } else {
        assert s'[i] == s[i + 1] && s'[j] == s[j + 1];
      }
    }
    assert k == 0 && |s| > 1 ==> s'[0] == s[1];
    assert k == |s| - 1 && k > 0 ==> s'[k - 1] == s[k - 1];
  }

  /** Tying the end of one chain to the start of another makes one chain. */
  lemma JoinChains(a: seq<Node>, pa: seq<Node?>, na: seq<Node?>, b: seq<Node>, pb: seq<Node?>, nb: seq<Node?>)
    requires a != [] && b != [] && |pa| == |na| == |a| && |pb| == |nb| == |b| && Distinct(a + b)
    requires Links(a, pa, na) && Links(b, pb, nb)
    requires forall i :: 0 <= i < |a| && a[i] != b[0] ==> a[i].prev == pa[i]
    requires forall i :: 0 <= i < |a| && a[i] != a[|a| - 1] ==> a[i].next == na[i]
    requires forall i :: 0 <= i < |b| && b[i] != b[0] ==> b[i].prev == pb[i]
    requires forall i :: 0 <= i < |b| && b[i] != a[|a| - 1] ==> b[i].next == nb[i]
    requires a[|a| - 1].next == b[0] && b[0].prev == a[|a| - 1]
    ensures Chained(a + b) && At(a + b, 0) == At(a, 0) && At(a + b, |a + b| - 1) == At(b, |b| - 1)
  {
    var s := a + b;
    forall i, j | 0 <= i < |s| && 0 <= j < |s| && j == i + 1 ensures s[i].next == s[j] && s[j].prev == s[i] {
      assert Unfold(Fold);
      if j < |a| {
        assert s[i] == a[i] && s[j] == a[j] && s[|a| - 1] == a[|a| - 1] && s[|a|] == b[0];
      } else if i < |a| {
        assert s[i] == a[|a| - 1] && s[j] == b[0];
      } else {
        assert s[i] == b[i - |a|] && s[j] == b[j - |a|] && s[|a| - 1] == a[|a| - 1] && s[|a|] == b[0];
      }
    }
    assert s[0].prev == null && s[|s| - 1].next == null by {
      assert Unfold(Fold);
      assert s[0] == a[0] && s[|s| - 1] == b[|b| - 1] && s[|a| - 1] == a[|a| - 1] && s[|a|] == b[0];
    }
  }

  /** Cutting a chain in two leaves two chains. */
  lemma SplitChains(s: seq<Node>, p: seq<Node?>, n: seq<Node?>, at: nat)
    requires 0 < at < |s| == |p| == |n| && Links(s, p, n) && Distinct(s)
    requires forall i :: 0 <= i < |s| && s[i] != s[at] ==> s[i].prev == p[i]
    requires forall i :: 0 <= i < |s| && s[i] != s[at - 1] ==> s[i].next == n[i]
    requires s[at - 1].next == null && s[at].prev == null
    ensures Chained(s[..at]) && Chained(s[at..]) && Distinct(s[..at]) && Distinct(s[at..])
    ensures s[..at] + s[at..] == s && At(s[..at], 0) == At(s, 0) && At(s[..at], |s[..at]| - 1) == At(s, at - 1)
    ensures At(s[at..], 0) == At(s, at) && At(s[at..], |s[at..]| - 1) == At(s, |s| - 1)
  {
    assert Unfold(Fold);
    var b := s[at..];
    forall i, j | 0 <= i < |b| && 0 <= j < |b| && j == i + 1 ensures b[i].next == b[j] && b[j].prev == b[i] {
      assert b[i] == s[i + at] && b[j] == s[j + at];
    }
  }

  class IntrusiveList {
    var head: Node?
    var tail: Node?
    var size: nat
    ghost var nodes: seq<Node>

    ghost predicate Valid()
      reads this, nodes
    {
      && Distinct(nodes) && Chained(nodes) && size == |nodes| < SIZE_LIMIT
      && head == At(nodes, 0) && tail == At(nodes, |nodes| - 1)
    }

    constructor ()
      ensures Valid() && nodes == []
    {
      head, tail, size, nodes := null, null, 0, [];
    }

    method PushBack(node: Node)
      requires Valid() && node !in nodes && |nodes| + 1 < SIZE_LIMIT
      modifies this, node, tail
      ensures Valid() && nodes == old(nodes) + [node]
    {
      assert Unfold(Fold);
      node.prev := tail;
      node.next := null;
      if tail != null {
        tail.next := node;
      } else {
        head := node;
      }
      tail := node;
      size := size + 1;
      nodes := nodes + [node];
    }

    method PopFront() returns (node: Node?)
      requires Valid()
      modifies this, nodes
      ensures Valid()
      ensures old(nodes) == [] ==> node == null && nodes == []
      ensures old(nodes) != [] ==> node == old(nodes)[0] && nodes == old(nodes)[1..] && node.prev == null == node.next
    {
      assert Unfold(Fold);
      if head == null { return null; }
      node := head;
      assert |nodes| > 1 ==> node.next == nodes[1];
      head := node.next;
      if head != null {
        head.prev := null;
      } else {
        tail := null;
      }
      node.prev, node.next := null, null;
      size := size - 1;
      nodes := nodes[1..];
    }

    method PopBack() returns (node: Node?)
      requires Valid()
      modifies this, nodes
      ensures Valid()
      ensures old(nodes) == [] ==> node == null && nodes == []
      ensures old(nodes) != [] ==>
                var last := |old(nodes)| - 1;
                node == old(nodes)[last] && nodes == old(nodes)[..last] && node.prev == null == node.next
    {
      assert Unfold(Fold);
      if head == null { return null; }
      node := tail;
      assert |nodes| > 1 ==> node.prev == nodes[|nodes| - 2];
      tail := node.prev;
      if tail != null {
        tail.next := null;
      } else {
        head := null;
      }
      node.prev, node.next := null, null;
      size := size - 1;
      nodes := nodes[..|nodes| - 1];
    }

    /** Moves all of `other` to the back. */
    method PushBackBlock(other: IntrusiveList)
      requires Valid() && other.Valid() && other != this
      requires Distinct(nodes + other.nodes) && |nodes| + |other.nodes| < SIZE_LIMIT
      modifies this, other, tail, other.head
      ensures Valid() && other.Valid() && nodes == old(nodes + other.nodes) && other.nodes == []
    {
      if other.head == null {
        assert nodes + other.nodes == nodes;
      } else if head == null {
        TakeOver(other);
      } else {
        Append(other);
        other.Forget();
      }
    }

    // The list is empty and takes over all of the other.
    method TakeOver(other: IntrusiveList)
      requires Valid() && other.Valid() && other != this && head == null
      modifies this, other
      ensures Valid() && other.Valid() && nodes == old(nodes + other.nodes) && other.nodes == []
    {
      ghost var s := other.nodes;
      ghost var p, n := LinksOf(s);
      assert nodes + s == s;
      size, head, tail, nodes := other.size, other.head, other.tail, s;
      other.size, other.head, other.tail, other.nodes := 0, null, null, [];
      StillLinked(s, p, n);
    }

    // The last case of `PushBackBlock`, up to emptying the other list.
    method Append(other: IntrusiveList)
      requires Valid() && other.Valid() && other != this && head != null && other.head != null
      requires Distinct(nodes + other.nodes) && |nodes| + |other.nodes| < SIZE_LIMIT
      modifies this, tail, other.head
      ensures Valid() && nodes == old(nodes + other.nodes)
    {
      ghost var both := nodes + other.nodes;
      ghost var p, n := LinksOf(nodes);
      ghost var q, m := LinksOf(other.nodes);
      size := size + other.size;
      other.head.prev := tail;
      tail.next := other.head;
      JoinChains(nodes, p, n, other.nodes, q, m);
      tail := other.tail;
      nodes := both;
    }

    /** The moved-from list is empty; its nodes' links are left as they are. */
    method Forget()
      modifies this
      ensures Valid() && nodes == []
    {
      size, head, tail, nodes := 0, null, null, [];
    }

    /** Splits off the last n nodes, or all of them. */
    method PopBackBlock(n: nat) returns (list: IntrusiveList)
      requires Valid()
      modifies this, nodes
      ensures fresh(list) && Valid() && list.Valid()
      ensures |list.nodes| == (if n < |old(nodes)| then n else |old(nodes)|) && nodes + list.nodes == old(nodes)
    {
      list := new IntrusiveList();
      if size == 0 || n == 0 { return; }
      var node, i := WalkBack(n);
      if node == head {
        assert i == |nodes| by { assert Unfold(Fold); }
        list.TakeOver(this);
      } else {
        SplitAt(node, i, list);
      }
    }

    // The second case of `PopBackBlock`: `list` gets the last i nodes.
    method SplitAt(node: Node, i: nat, list: IntrusiveList)
      requires Valid() && list != this && 0 < i < |nodes|
      requires node == nodes[|nodes| - i] && node.prev == nodes[|nodes| - i - 1]
      modifies this, list, node, node.prev
      ensures Valid() && list.Valid() && |list.nodes| == i && nodes + list.nodes == old(nodes)
    {
      ghost var all, at := nodes, |nodes| - i;
      ghost var p, m := LinksOf(nodes);
      ghost var front, back := nodes[..at], nodes[at..];
      list.size, list.head, list.tail, list.nodes := i, node, tail, back;
      size, tail, nodes := size - i, node.prev, front;
      node.prev := null;
      tail.next := null;
      SplitChains(all, p, m, at);
    }

    /** The i-th node from the back, i being n or the whole size. */
    method WalkBack(n: nat) returns (node: Node, i: nat)
      requires Valid() && nodes != [] && n > 0
      ensures 1 <= i <= |nodes| && i == (if n < |nodes| then n else |nodes|) && node == nodes[|nodes| - i]
      ensures node.prev == At(nodes, |nodes| - i - 1)
    {
      node, i := tail, 1;
      ChainedAt(nodes, |nodes| - 1);
      while i < n && node.prev != null
        invariant 1 <= i <= n && i <= |nodes| && node == nodes[|nodes| - i]
        invariant node.prev == At(nodes, |nodes| - i - 1)
        decreases n - i
      {
        node := node.prev;
        i := i + 1;
        ChainedAt(nodes, |nodes| - i);
      }
    }

    /** Unlinks a node of this list. On a node that is not in it, this does nothing if both
        its links are null, and otherwise, when it sits in another list, breaks this one:
        the size no longer counts the nodes. */
    method Remove(node: Node)
      requires Valid() && node.prev != node && node.next != node
      modifies this, node, node.prev, node.next
      ensures node in old(nodes) ==> Valid() && nodes == Without(old(nodes), node) && node.prev == null == node.next
      ensures node !in old(nodes) ==> nodes == old(nodes)
      ensures node !in old(nodes) ==> (Valid() <==> old(node.prev == null && node.next == null))
      ensures node !in old(nodes) && old(node.prev == null && node.next == null) ==> unchanged(this) && unchanged(node)
    {
      ghost var k := 0;
      ghost var p, n := LinksOf(nodes);
      if node in nodes {
        k := IndexOf(nodes, node);
        ChainedAt(nodes, k);
      }
      if node.prev == null && node.next == null && head != node { return; }
      TieNeighbours(node);
      size := if size == 0 then SIZE_LIMIT - 1 else size - 1;
      if node in nodes {
        WithoutAt(nodes, k);
        UnlinkChains(nodes, p, n, k);
        nodes := Without(nodes, node);
      }
    }

    // The link updates of `Remove`.
    method TieNeighbours(node: Node)
      requires node.prev != node && node.next != node
      modifies `head, `tail, node, node.prev, node.next
      ensures old(node.prev) == null ==> head == old(node.next)
      ensures old(node.prev) != null ==> head == old(head) && old(node.prev).next == old(node.next)
      ensures old(node.prev) != null && old(node.prev) != old(node.next) ==> old(node.prev).prev == old(node.prev.prev)
      ensures old(node.next) == null ==> tail == old(node.prev)
      ensures old(node.next) != null ==> tail == old(tail) && old(node.next).prev == old(node.prev)
      ensures old(node.next) != null && old(node.prev) != old(node.next) ==> old(node.next).next == old(node.next.next)
      ensures node.prev == null == node.next
    {
      if node.prev != null {
        node.prev.next := node.next;
      } else {
        head := node.next;
      }
      if node.next != null {
        node.next.prev := node.prev;
      } else {
        tail := node.prev;
      }
      node.prev, node.next := null, null;
    }
  }

  ghost function IndexOf(s: seq<Node>, n: Node): (k: nat)
    requires n in s
    ensures k < |s| && s[k] == n
  {
    var k :| 0 <= k < |s| && s[k] == n;
    k
  }

  /** `Remove` is documented as a no-op on any node not in the list. It is not: taking a
      linked node out of the wrong list leaves that list broken. */
  method RemoveFromWrongList() returns (list: IntrusiveList)
    ensures !list.Valid()
  {
    var a := new Node();
    var b := new Node();
    var other := new IntrusiveList();
    other.PushBack(a);
    other.PushBack(b);
    list := new IntrusiveList();
    ChainedAt(other.nodes, 0);
    list.Remove(a);
  }
}
