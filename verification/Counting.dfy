/** How often a number occurs in a list. */
module Counting {

  function CountOf(s: seq<nat>, t: nat): (n: nat) { multiset(s)[t] }

  lemma {:induction false} CountConcat(x: seq<nat>, y: seq<nat>, t: nat)
    ensures CountOf(x + y, t) == CountOf(x, t) + CountOf(y, t)
  {
    assert multiset(x + y) == multiset(x) + multiset(y);
  }

  lemma {:induction false} CountOne(x: nat, t: nat)
    ensures CountOf([x], t) == if x == t then 1 else 0
  {
    assert multiset([x]) == multiset{x};
  }
}
