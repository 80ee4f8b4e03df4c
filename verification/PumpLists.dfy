/** The pump list: entries linked through a field of their own, with a head and a tail in the runtime. */
module PumpLists {
  import opened Seals
  import opened SocketObjects

  /** The entry behind the k-th one. */
  ghost function Follower(list: seq<SocketEntry>, k: nat): (e: SocketEntry?) { if k + 1 < |list| then list[k + 1] else null }

  class PumpList {
    var head: SocketEntry?
    var tail: SocketEntry?
    ghost var list: seq<SocketEntry>

    ghost predicate Valid()
      reads this, list`pumpNext
    {
      forall k: nat :: Unsealed(Fold.Pumps, k) ==> Linked()
    }

    /** Each entry once, linked in order from head to tail. */
    ghost predicate Linked()
      reads this, list`pumpNext
    {
      && (forall k :: 0 <= k < |list| ==> list[k].pumpNext == Follower(list, k))
      && (forall k, l :: 0 <= k < l < |list| ==> list[k] != list[l])
      && (if list == [] then head == null && tail == null else head == list[0] && tail == list[|list| - 1])
    }

    constructor ()
      ensures Valid() && list == []
    {
      head, tail, list := null, null, [];
    }

    /** The end of process_send: the entry goes behind the tail. Its own link is null already. */
    method Append(e: SocketEntry)
      requires Valid() && e !in list && e.pumpNext == null
      modifies this, list`pumpNext
      ensures Valid() && list == old(list) + [e] && e.pumpNext == null
    {
      assert Unsealed(Fold.Pumps, 0);
      if tail == null {
        head := e;
      } else {
        assert tail.pumpNext == Follower(list, |list| - 1);
        tail.pumpNext := e;
      }
      tail, list := e, list + [e];
    }

    /** The head of the pump loop: the entry leaves the list with its link cleared. */
    method Pop() returns (e: SocketEntry)
      requires Valid() && list != []
      modifies this, list`pumpNext
      ensures Valid() && e == old(list)[0] && list == old(list)[1..] && e.pumpNext == null
    {
      assert Unsealed(Fold.Pumps, 0);
      ghost var was := list;
      e := head;
      assert e.pumpNext == Follower(was, 0);
      head := e.pumpNext;
      if head == null { tail := null; }
      e.pumpNext := null;
      list := was[1..];
      forall k | 0 <= k < |list| ensures list[k].pumpNext == Follower(list, k) {
        assert list[k] == was[k + 1] && was[0] != was[k + 1];
        assert old(was[k + 1].pumpNext) == Follower(was, k + 1);
      }
    }

    lemma EmptyHead()
      requires Valid()
      ensures head == null <==> list == []
      ensures tail == null <==> list == []
    {
      assert Unsealed(Fold.Pumps, 0);
    }

    lemma EachOnce(k: nat, l: nat)
      requires Valid() && k < l < |list|
      ensures list[k] != list[l]
    {
      assert Unsealed(Fold.Pumps, 0);
    }
  }
}
