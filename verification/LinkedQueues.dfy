/** Singly linked queues with a head and a tail, as the runtime keeps its writes, commands and events. */
module LinkedQueues {
  import opened Seals

  class Node<T> {
    const value: T
    var next: Node?<T>

    constructor (value: T)
      ensures this.value == value && next == null
    {
      this.value, next := value, null;
    }
  }

  /** The node behind the i-th one. */
  ghost function Behind<T>(nodes: seq<Node<T>>, i: nat): (n: Node?<T>) { if i + 1 < |nodes| then nodes[i + 1] else null }

  /** The list from `head` on is `nodes`, in order; `contents` is what it carries. `cells` holds every node the queue ever
      linked, for the frames of its users. */
  class Queue<T> {
    var head: Node?<T>
    var tail: Node?<T>
    ghost var nodes: seq<Node<T>>
    ghost var contents: seq<T>
    ghost var cells: set<Node<T>>

    ghost predicate Valid()
      reads this, cells
    {
      forall k: nat :: Unsealed(Fold.Queues, k) ==> Linked()
    }

    ghost predicate Linked()
      reads this, cells
    {
      && |contents| == |nodes|
      && (forall i :: 0 <= i < |nodes| ==> nodes[i] in cells && nodes[i].value == contents[i])
      && (forall i :: 0 <= i < |nodes| ==> nodes[i].next == Behind(nodes, i))
      && (forall i, j :: 0 <= i < j < |nodes| ==> nodes[i] != nodes[j])
      && (if nodes == [] then head == null && tail == null else head == nodes[0] && tail == nodes[|nodes| - 1])
    }

    constructor ()
      ensures Valid() && contents == [] && cells == {}
    {
      head, tail, nodes, contents, cells := null, null, [], [], {};
    }

    /** Links a new node behind the tail, or as the head of an empty queue. */
    method Push(x: T)
      requires Valid()
      modifies this, cells
      ensures Valid() && contents == old(contents) + [x]
      ensures old(cells) <= cells && fresh(cells - old(cells))
    {
      assert Unsealed(Fold.Queues, 0);
      var node := new Node(x);
      if tail == null { head := node; } else { tail.next := node; }
      tail, nodes, contents, cells := node, nodes + [node], contents + [x], cells + {node};
    }

    /** Unlinks the head; the queue that becomes empty loses its tail too. */
    method Pop() returns (x: T)
      requires Valid() && contents != []
      modifies this, cells
      ensures Valid() && x == old(contents)[0] && contents == old(contents)[1..]
      ensures cells == old(cells)
    {
      assert Unsealed(Fold.Queues, 0);
      ghost var was := nodes;
      var node := head;
      assert node == was[0] && node.next == Behind(was, 0);
      x, head := node.value, node.next;
      if head == null { tail := null; }
      node.next := null;
      nodes, contents := was[1..], contents[1..];
      forall i | 0 <= i < |nodes| ensures nodes[i].next == Behind(nodes, i) {
        assert nodes[i] == was[i + 1] && was[0] != was[i + 1];
        assert old(was[i + 1].next) == Behind(was, i + 1);
      }
    }

    twostate lemma Undisturbed()
      requires old(Valid()) && unchanged(this) && unchanged(cells)
      ensures Valid()
    {
    }

    /** The head pointer is null exactly when nothing is queued, and so is the tail. */
    lemma EmptyHead()
      requires Valid()
      ensures head == null <==> contents == []
      ensures tail == null <==> contents == []
    {
      assert Unsealed(Fold.Queues, 0);
    }
  }
}
