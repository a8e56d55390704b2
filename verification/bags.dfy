/** Sums of multisets over the entries of a map, whatever order visits them. */
module Bags {
  import opened Values

  /** The union with multiplicities of all bags in the map. */
  ghost function Total<V>(bags: map<string, multiset<V>>): multiset<V>
    decreases bags.Keys
  {
    if bags.Keys == {} then multiset{} else
      var k :| k in bags.Keys;
      bags[k] + Total(bags - {k})
  }

  lemma SwapFirst<V>(a: multiset<V>, b: multiset<V>, c: multiset<V>)
    ensures a + (b + c) == b + (a + c)
  {
  }

  lemma {:induction false} TotalPick<V>(bags: map<string, multiset<V>>, k: string)
    requires k in bags
    ensures Total(bags) == bags[k] + Total(bags - {k})
    decreases bags.Keys
  {
    var j :| j in bags.Keys && Total(bags) == bags[j] + Total(bags - {j});
    if j != k {
      TotalPick(bags - {j}, k);
      TotalPick(bags - {k}, j);
      assert bags - {j} - {k} == bags - {k} - {j};
      SwapFirst(bags[j], bags[k], Total(bags - {k} - {j}));
    }
  }

  lemma SnocBag<V>(xs: seq<V>, x: V)
    ensures multiset(xs + [x]) == multiset(xs) + multiset{x}
  {
  }

  lemma LastInBag<V>(xs: seq<V>)
    requires xs != []
    ensures multiset(xs) == multiset(xs[..|xs| - 1]) + multiset{xs[|xs| - 1]}
  {
    assert xs == xs[..|xs| - 1] + [xs[|xs| - 1]];
  }

  function BagAt<V>(bags: map<string, multiset<V>>, k: string): multiset<V> {
    if k in bags then bags[k] else multiset{}
  }

  /** Adding to one bag adds to the total. */
  lemma TotalPut<V>(bags: map<string, multiset<V>>, k: string, more: multiset<V>)
    ensures Total(bags[k := BagAt(bags, k) + more]) == Total(bags) + more
  {
    var bags' := bags[k := BagAt(bags, k) + more];
    TotalPick(bags', k);
    assert bags' - {k} == bags - {k};
    if k in bags {
      TotalPick(bags, k);
    } else {
      assert bags - {k} == bags;
    }
  }

  /** Empty bags do not count. */
  lemma {:induction false} EmptyBagsAddNothing<V>(bags: map<string, multiset<V>>, some: map<string, multiset<V>>)
    requires forall k :: k in some ==> k in bags && some[k] == bags[k]
    requires forall k :: k in bags && k !in some ==> bags[k] == multiset{}
    ensures Total(bags) == Total(some)
    decreases bags.Keys
  {
    if k :| k in bags && k !in some {
      TotalPick(bags, k);
      EmptyBagsAddNothing(bags - {k}, some);
    } else {
      assert bags == some;
    }
  }

  function Along<V>(bags: map<string, multiset<V>>, order: seq<string>): multiset<V>
    requires forall i :: 0 <= i < |order| ==> order[i] in bags
  {
    if order == [] then multiset{} else bags[order[0]] + Along(bags, order[1..])
  }

  /** Visiting a map in any order collects the total. */
  lemma {:induction false} AnyOrderCollectsTotal<V>(bags: map<string, multiset<V>>, order: seq<string>)
    requires IsOrder(order, bags.Keys)
    ensures Along(bags, order) == Total(bags)
    decreases |order|
  {
    if order == [] {
      assert bags.Keys == {};
    } else {
      var k := order[0];
      var rest := bags - {k};
      forall x | x in rest.Keys ensures x in order[1..] {
        var i :| 0 <= i < |order| && order[i] == x;
        assert order[1..][i - 1] == x;
      }
      AnyOrderCollectsTotal(rest, order[1..]);
      AlongRest(bags, rest, order[1..]);
      TotalPick(bags, k);
    }
  }

  lemma {:induction false} AlongRest<V>(bags: map<string, multiset<V>>, rest: map<string, multiset<V>>,
                                        order: seq<string>)
    requires forall i :: 0 <= i < |order| ==> order[i] in bags && order[i] in rest && bags[order[i]] == rest[order[i]]
    ensures Along(bags, order) == Along(rest, order)
  {
    if order != [] {
      AlongRest(bags, rest, order[1..]);
    }
  }
}
