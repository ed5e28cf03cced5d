/** The executor's set of live tasks (include/coro/detail/owned_tasks.h): shards, each an
    intrusive list with no tail and a closed flag. The blocking pool's live list
    (src/task/blocking_pool.cpp) links and unlinks in the same way. */
module OwnedTasks {
  import opened IntrusiveLists

  class Shard {
    var head: Node?
    var closed: bool
    var owned: set<Node>     // the tasks whose owned_self is set
    ghost var nodes: seq<Node>

    ghost predicate Valid()
      reads this, nodes
    {
      && Distinct(nodes) && Chained(nodes) && head == At(nodes, 0)
      && (forall x :: x in owned ==> x in nodes) && (forall x :: x in nodes ==> x in owned)
    }

    constructor ()
      ensures Valid() && nodes == [] && !closed
    {
      head, closed, owned, nodes := null, false, {}, [];
    }

    /** Links the task at the front, closed or not, and says which. */
    method Insert(task: Node) returns (wasClosed: bool)
      requires Valid() && task !in nodes
      modifies this, task, head
      ensures Valid() && nodes == [task] + old(nodes) && closed == old(closed) == wasClosed
    {
      assert Unfold(Fold);
      task.prev := null;
      task.next := head;
      if head != null { head.prev := task; }
      head := task;
      owned := owned + {task};
      nodes := [task] + nodes;
      return closed;
    }

    /** Unlinks the task if it is linked here, and says so. */
    method Remove(task: Node) returns (removed: bool, wasClosed: bool)
      requires Valid()
      modifies this, task, task.prev, task.next
      ensures Valid() && closed == old(closed) == wasClosed
      ensures removed == (task in old(nodes)) && task !in nodes
      ensures removed ==> nodes == Without(old(nodes), task) && task.prev == null == task.next
      ensures !removed ==> unchanged(this) && unchanged(task)
      ensures !removed ==> (task.prev != null ==> unchanged(task.prev)) && (task.next != null ==> unchanged(task.next))
    {
      if task !in owned { return false, closed; }
      Unlink(task);
      return true, closed;
    }

    method Unlink(task: Node)
      requires Valid() && task in nodes
      modifies this, task, task.prev, task.next
      ensures Valid() && closed == old(closed) && nodes == Without(old(nodes), task) && task !in nodes
      ensures forall x :: x in nodes ==> x in old(nodes)
      ensures forall x :: x in old(nodes) && x != task ==> x in nodes
      ensures task.prev == null == task.next
    {
      ghost var k := IndexOf(nodes, task);
      ghost var p, n := LinksOf(nodes);
      ChainedAt(nodes, k);
      TieNeighbours(task);
      WithoutAt(nodes, k);
      WithoutSame(nodes, task);
      UnlinkChains(nodes, p, n, k);
      owned := owned - {task};
      nodes := Without(nodes, task);
    }

    // The link updates of `Unlink`.
    method TieNeighbours(task: Node)
      requires task.prev != task && task.next != task
      modifies `head, task, task.prev, task.next
      ensures old(task.prev) == null ==> head == old(task.next)
      ensures old(task.prev) != null ==> head == old(head) && old(task.prev).next == old(task.next)
      ensures old(task.prev) != null && old(task.prev) != old(task.next) ==> old(task.prev).prev == old(task.prev.prev)
      ensures old(task.next) != null ==> old(task.next).prev == old(task.prev)
      ensures old(task.next) != null && old(task.prev) != old(task.next) ==> old(task.next).next == old(task.next.next)
      ensures task.prev == null == task.next
    {
      if task.prev != null {
        task.prev.next := task.next;
      } else {
        head := task.next;
      }
      if task.next != null { task.next.prev := task.prev; }
      task.prev, task.next := null, null;
    }

    /** Closes the shard and walks it. */
    method CloseAndCollect() returns (tasks: seq<Node>)
      requires Valid()
      modifies `closed
      ensures Valid() && closed && tasks == nodes
    {
      closed := true;
      tasks := [];
      var task := head;
      while task != null
        invariant |tasks| <= |nodes| && tasks == nodes[..|tasks|] && task == At(nodes, |tasks|)
        decreases |nodes| - |tasks|
        modifies {}
      {
        ChainedAt(nodes, |tasks|);
        tasks := tasks + [task];
        task := task.next;
      }
    }
  }

  lemma {:induction false} WithoutSame(s: seq<Node>, n: Node)
    requires Distinct(s) && n in s
    ensures forall x :: x in Without(s, n) <==> x in s && x != n
  {
    var k := IndexOf(s, n);
    assert Unfold(Fold);
    WithoutIs(s, k);
    var r := s[..k] + s[k + 1..];
    forall x | x in s && x != n ensures x in r {
      var i := IndexOf(s, x);
      assert if i < k then r[i] == x else r[i - 1] == x;
    }
  }

  /** All the shards. `home` is the hash of a task's address, and `all` the linked tasks. */
  class TaskSet {
    const shards: seq<Shard>
    const home: Node -> nat
    ghost var all: set<Node>

    ghost predicate Valid()
      reads this, shards, all
    {
      && |shards| > 0 && (forall i, j :: 0 <= i < j < |shards| ==> shards[i] != shards[j])
      && (forall s :: s in shards ==> (forall x :: x in s.nodes ==> x in all) && s.Valid())
      && Placed()
    }

    /** Each task is linked in its own shard, and nowhere else. */
    ghost predicate Placed()
      requires |shards| > 0
      reads this, shards
    {
      && (forall x :: x in all ==> x in ShardFor(x).nodes)
      && (forall s, x :: s in shards && x in s.nodes ==> s == ShardFor(x))
    }

    function ShardFor(task: Node): (s: Shard)
      requires |shards| > 0
      ensures s in shards
    {
      shards[home(task) % |shards|]
    }

    constructor (n: nat, home: Node -> nat)
      requires n > 0
      ensures Valid() && fresh(shards) && |shards| == n && all == {}
      ensures forall s :: s in shards ==> !s.closed
    {
      var made: seq<Shard> := [];
      while |made| < n
        invariant |made| <= n && fresh(made) && forall i, j :: 0 <= i < j < |made| ==> made[i] != made[j]
        invariant forall s :: s in made ==> s.Valid() && s.nodes == [] && !s.closed
      {
        var s := new Shard();
        made := made + [s];
      }
      shards, this.home, all := made, home, {};
    }

    /** Exactly this task is added, and the other shards' chains stay as they are. */
    method Insert(task: Node) returns (wasClosed: bool)
      requires Valid() && task !in all
      modifies this, ShardFor(task), task, ShardFor(task).head
      ensures Valid() && all == old(all) + {task}
      ensures wasClosed == ShardFor(task).closed == old(ShardFor(task).closed)
    {
      var mine := ShardFor(task);
      assert forall s :: s in shards && s != mine ==> task !in s.nodes && mine.head !in s.nodes;
      wasClosed := mine.Insert(task);
      all := all + {task};
      assert forall s :: s in shards && s != mine ==> s.Valid() && s.nodes == old(s.nodes);
    }

    /** Exactly this task is removed, if it was linked, and the other shards' chains stay as
        they are. */
    method Remove(task: Node) returns (removed: bool, wasClosed: bool)
      requires Valid()
      modifies this, ShardFor(task), task, task.prev, task.next
      ensures Valid() && removed == (task in old(all)) && all == old(all) - {task}
      ensures wasClosed == ShardFor(task).closed == old(ShardFor(task).closed)
      ensures removed ==> task.prev == null == task.next
    {
      var mine := ShardFor(task);
      wasClosed := mine.closed;
      removed := task in mine.owned;
      if removed { Unlink(mine, task); }
    }

    method Unlink(mine: Shard, task: Node)
      requires Valid() && task in all && mine == ShardFor(task)
      modifies this, mine, task, task.prev, task.next
      ensures Valid() && all == old(all) - {task} && mine.closed == old(mine.closed)
      ensures task.prev == null == task.next
    {
      NeighboursAreMine(task);
      mine.Unlink(task);
      all := all - {task};
      assert forall s :: s in shards && s != mine ==> s.Valid() && s.nodes == old(s.nodes);
    }

    /** No other shard holds a linked task or its neighbours. */
    lemma NeighboursAreMine(task: Node)
      requires Valid() && task in all
      ensures forall s :: s in shards && s != ShardFor(task) ==>
                task !in s.nodes && task.prev !in s.nodes && task.next !in s.nodes
    {
      var mine := ShardFor(task);
      var k := IndexOf(mine.nodes, task);
      ChainedAt(mine.nodes, k);
      assert task.prev != null ==> task.prev in mine.nodes;
      assert task.next != null ==> task.next in mine.nodes;
    }

    /** Closes every shard; what it returns is every task linked in any of them. */
    method CloseAndCollect() returns (tasks: seq<Node>)
      requires Valid()
      modifies shards
      ensures Valid() && all == old(all)
      ensures (forall x :: x in all ==> x in tasks) && (forall x :: x in tasks ==> x in all)
      ensures forall s :: s in shards ==> s.closed && s.nodes == old(s.nodes)
    {
      tasks := [];
      var i := 0;
      while i < |shards|
        invariant 0 <= i <= |shards| && Valid() && forall x :: x in tasks ==> x in all
        invariant forall j, x :: 0 <= j < i && x in shards[j].nodes ==> x in tasks
        invariant forall s :: s in shards ==> s.nodes == old(s.nodes)
        invariant forall j :: 0 <= j < i ==> shards[j].closed
      {
        var more := shards[i].CloseAndCollect();
        tasks := tasks + more;
        i := i + 1;
      }
    }

    method Empty() returns (empty: bool)
      requires Valid()
      ensures empty <==> all == {}
    {
      var i := 0;
      while i < |shards|
        invariant 0 <= i <= |shards| && forall j :: 0 <= j < i ==> shards[j].nodes == []
      {
        if shards[i].head != null {
          assert shards[i] in shards && shards[i].nodes[0] in shards[i].nodes;
          return false;
        }
        i := i + 1;
      }
      return true;
    }
  }
}
