/** When the order in which Go visits an input shows in the request of an image: the objects
    of one kind appear in visiting order, so the request is the same in every order iff the
    lists that any two variables contribute to a kind commute. */
module Requests {
  import opened Values
  import opened Functions
  import opened Images

  // ------------------------------------------------------------- lists along an order

  function Concat(lists: map<string, seq<Value>>, order: seq<string>): seq<Value>
    requires forall i :: 0 <= i < |order| ==> order[i] in lists
  {
    if order == [] then [] else lists[order[0]] + Concat(lists, order[1..])
  }

  ghost predicate Commute(lists: map<string, seq<Value>>) {
    forall k, k' :: k in lists && k' in lists && k != k' ==> lists[k] + lists[k'] == lists[k'] + lists[k]
  }

  lemma Associate(a: seq<Value>, b: seq<Value>, c: seq<Value>)
    ensures a + b + c == a + (b + c)
  {
  }

  /** With commuting lists any variable may be visited first. */
  lemma {:induction false} VisitFirst(lists: map<string, seq<Value>>, a: seq<string>, x: string, b: seq<string>)
    requires Commute(lists) && x in lists && x !in a
    requires (forall i :: 0 <= i < |a| ==> a[i] in lists) && (forall i :: 0 <= i < |b| ==> b[i] in lists)
    ensures Concat(lists, a + [x] + b) == lists[x] + Concat(lists, a + b)
  {
    if a == [] {
      assert a + [x] + b == [x] + b && ([x] + b)[1..] == b && a + b == b;
    } else {
      var y, rest := a[0], a[1..];
      VisitFirst(lists, rest, x, b);
      assert (a + [x] + b)[1..] == rest + [x] + b && (a + b)[1..] == rest + b;
      assert y != x;
      var tail := Concat(lists, rest + b);
      Associate(lists[y], lists[x], tail);
      Associate(lists[x], lists[y], tail);
    }
  }

  ghost function Without(order: seq<string>, i: nat): seq<string>
    requires i < |order|
  {
    order[..i] + order[i + 1..]
  }

  lemma WithoutAt(order: seq<string>, i: nat, j: nat)
    requires i < |order| && j < |order| && j != i
    ensures var j' := if j < i then j else j - 1; j' < |Without(order, i)| && Without(order, i)[j'] == order[j]
  {
  }

  lemma OriginOf(order: seq<string>, i: nat, j: nat)
    requires i < |order| && j < |Without(order, i)|
    ensures Without(order, i)[j] == order[if j < i then j else j + 1]
  {
  }

  lemma Unrepeated(order: seq<string>, keys: set<string>, i: nat, j: nat)
    requires IsOrder(order, keys) && i < |order| && j < |order| && i != j
    ensures order[i] != order[j] && order[i] in keys && order[j] in keys
  {
  }

  lemma WithoutOne(order: seq<string>, keys: set<string>, i: nat)
    requires IsOrder(order, keys) && i < |order|
    ensures IsOrder(Without(order, i), keys - {order[i]})
  {
    var rest := Without(order, i);
    forall j | 0 <= j < |rest| ensures rest[j] in keys - {order[i]} {
      OriginOf(order, i, j);
      Unrepeated(order, keys, i, if j < i then j else j + 1);
    }
    forall j, k | 0 <= j < k < |rest| ensures rest[j] != rest[k] {
      OriginOf(order, i, j);
      OriginOf(order, i, k);
      Unrepeated(order, keys, if j < i then j else j + 1, if k < i then k else k + 1);
    }
    forall k | k in keys - {order[i]} ensures k in rest {
      assert k in order;
      var j :| 0 <= j < |order| && order[j] == k;
      WithoutAt(order, i, j);
    }
  }

  lemma MoveFirst(lists: map<string, seq<Value>>, keys: set<string>, order: seq<string>, i: nat)
    requires Commute(lists) && keys <= lists.Keys && IsOrder(order, keys) && i < |order|
    ensures forall j :: 0 <= j < |Without(order, i)| ==> Without(order, i)[j] in lists
    ensures Concat(lists, order) == lists[order[i]] + Concat(lists, Without(order, i))
  {
    WithoutOne(order, keys, i);
    var a, x, b := order[..i], order[i], order[i + 1..];
    assert forall j :: 0 <= j < |a| ==> a[j] == order[j];
    assert forall j :: 0 <= j < |b| ==> b[j] == order[i + 1 + j];
    VisitFirst(lists, a, x, b);
    assert order == a + [x] + b;
  }

  lemma {:induction false} AnyOrderConcat(lists: map<string, seq<Value>>, keys: set<string>,
                                          order: seq<string>, order': seq<string>)
    requires Commute(lists) && keys <= lists.Keys && IsOrder(order, keys) && IsOrder(order', keys)
    ensures Concat(lists, order) == Concat(lists, order')
    decreases |order|
  {
    if order == [] {
      NoKeys(order, order', keys);
    } else {
      var x := order[0];
      assert x in order';
      var i :| 0 <= i < |order'| && order'[i] == x;
      MoveFirst(lists, keys, order, 0);
      MoveFirst(lists, keys, order', i);
      WithoutOne(order, keys, 0);
      WithoutOne(order', keys, i);
      AnyOrderConcat(lists, keys - {x}, Without(order, 0), Without(order', i));
    }
  }

  lemma NoKeys(order: seq<string>, order': seq<string>, keys: set<string>)
    requires IsOrder(order, keys) && IsOrder(order', keys)
    ensures order == [] ==> order' == []
  {
    if order' != [] {
      assert order'[0] in order;
    }
  }

  lemma OrderOfPair(keys: set<string>, k: string, k': string) returns (rest: seq<string>)
    requires k in keys && k' in keys && k != k'
    ensures IsOrder([k, k'] + rest, keys) && IsOrder([k', k] + rest, keys)
    ensures forall i :: 0 <= i < |rest| ==> rest[i] in keys
  {
    rest := SomeOrder(keys - {k, k'});
    SomeOrderIsOrder(keys - {k, k'});
    JoinedOrder([k, k'], {k, k'}, rest, keys - {k, k'});
    JoinedOrder([k', k], {k, k'}, rest, keys - {k, k'});
    assert {k, k'} + (keys - {k, k'}) == keys;
  }

  lemma ConcatPair(lists: map<string, seq<Value>>, k: string, k': string, rest: seq<string>)
    requires k in lists && k' in lists && forall i :: 0 <= i < |rest| ==> rest[i] in lists
    ensures Concat(lists, [k, k'] + rest) == lists[k] + lists[k'] + Concat(lists, rest)
  {
    var order := [k, k'] + rest;
    assert order[1..] == [k'] + rest && ([k'] + rest)[1..] == rest;
    Associate(lists[k], lists[k'], Concat(lists, rest));
  }

  lemma SameFront(a: seq<Value>, b: seq<Value>, c: seq<Value>)
    requires a + c == b + c && |a| == |b|
    ensures a == b
  {
    assert (a + c)[..|a|] == a && (b + c)[..|b|] == b;
  }

  ghost predicate SameConcat(lists: map<string, seq<Value>>) {
    forall order, order' :: IsOrder(order, lists.Keys) && IsOrder(order', lists.Keys) ==>
      Concat(lists, order) == Concat(lists, order')
  }

  lemma ConcatExact(lists: map<string, seq<Value>>)
    ensures SameConcat(lists) <==> Commute(lists)
  {
    if Commute(lists) {
      forall order, order' | IsOrder(order, lists.Keys) && IsOrder(order', lists.Keys)
        ensures Concat(lists, order) == Concat(lists, order') {
        AnyOrderConcat(lists, lists.Keys, order, order');
      }
    }
    if SameConcat(lists) {
      forall k, k' | k in lists && k' in lists && k != k' ensures lists[k] + lists[k'] == lists[k'] + lists[k] {
        var rest := OrderOfPair(lists.Keys, k, k');
        ConcatPair(lists, k, k', rest);
        ConcatPair(lists, k', k, rest);
        SameFront(lists[k] + lists[k'], lists[k'] + lists[k], Concat(lists, rest));
      }
    }
  }

  // ------------------------------------------------------------------ the request

  ghost predicate AllSent(lib: Lib, env: Env) {
    forall k :: k in env ==> VarObjects(lib, env[k]).Some?
  }

  /** What each variable contributes to one kind. */
  ghost function Share(lib: Lib, env: Env, g: string): map<string, seq<Value>>
    requires AllSent(lib, env)
  {
    map k | k in env :: OfKind(lib, VarObjects(lib, env[k]).value, g)
  }

  lemma {:induction false} KindAlong(lib: Lib, env: Env, order: seq<string>, g: string)
    requires AllSent(lib, env) && forall i :: 0 <= i < |order| ==> order[i] in env
    ensures RequestAlong(lib, env, order).Some?
    ensures OfKind(lib, RequestAlong(lib, env, order).value, g) == Concat(Share(lib, env, g), order)
  {
    if order != [] {
      KindAlong(lib, env, order[1..], g);
      var first, rest := VarObjects(lib, env[order[0]]).value, RequestAlong(lib, env, order[1..]).value;
      OfKindOfTwo(lib, first, rest, g);
    }
  }

  ghost predicate SameByKind(lib: Lib, xs: seq<Value>, ys: seq<Value>) {
    forall g: string :: OfKind(lib, xs, g) == OfKind(lib, ys, g)
  }

  lemma SameKinds(lib: Lib, xs: seq<Value>, ys: seq<Value>)
    ensures Grouped(lib, xs) == Grouped(lib, ys) <==> SameByKind(lib, xs, ys)
  {
    var r, r' := Grouped(lib, xs), Grouped(lib, ys);
    GroupedByKind(lib, xs);
    GroupedByKind(lib, ys);
    if SameByKind(lib, xs, ys) {
      forall g: string ensures Same(r, r', g) {
        assert OfKind(lib, xs, g) == OfKind(lib, ys, g);
      }
      SameEverywhere(r, r');
    }
    if r == r' {
      forall g: string ensures OfKind(lib, xs, g) == OfKind(lib, ys, g) {
        assert g in r <==> g in r';
      }
    }
  }

  /** The request is the same whatever order the variables are visited in. */
  ghost predicate SameRequest(lib: Lib, env: Env) {
    forall order, order' :: IsOrder(order, env.Keys) && IsOrder(order', env.Keys) ==>
      BuiltRequest(lib, env, order) == BuiltRequest(lib, env, order')
  }

  ghost predicate SharesCommute(lib: Lib, env: Env)
    requires AllSent(lib, env)
  {
    forall g: string :: Commute(Share(lib, env, g))
  }

  lemma SentAll(lib: Lib, env: Env, order: seq<string>)
    requires IsOrder(order, env.Keys)
    ensures BuiltRequest(lib, env, order).Some? <==> AllSent(lib, env)
  {
    SentConservation(lib, env, order);
    forall k | k in env ensures VarObjects(lib, env[k]).Some? <==> Sendable(lib, env[k], 2) {
      VarObjectsMeaning(lib, env[k]);
    }
  }

  ghost predicate SameShares(lib: Lib, env: Env, order: seq<string>, order': seq<string>)
    requires AllSent(lib, env) && IsOrder(order, env.Keys) && IsOrder(order', env.Keys)
  {
    forall g: string :: Concat(Share(lib, env, g), order) == Concat(Share(lib, env, g), order')
  }

  lemma SameAlong(lib: Lib, env: Env, order: seq<string>, order': seq<string>)
    requires AllSent(lib, env) && IsOrder(order, env.Keys) && IsOrder(order', env.Keys)
    ensures BuiltRequest(lib, env, order) == BuiltRequest(lib, env, order') <==> SameShares(lib, env, order, order')
  {
    KindAlong(lib, env, order, "");
    KindAlong(lib, env, order', "");
    var xs, ys := RequestAlong(lib, env, order).value, RequestAlong(lib, env, order').value;
    SharesAreKinds(lib, env, order, order', xs, ys);
    SameKinds(lib, xs, ys);
  }

  lemma SharesAreKinds(lib: Lib, env: Env, order: seq<string>, order': seq<string>, xs: seq<Value>, ys: seq<Value>)
    requires AllSent(lib, env) && IsOrder(order, env.Keys) && IsOrder(order', env.Keys)
    requires RequestAlong(lib, env, order) == Some(xs) && RequestAlong(lib, env, order') == Some(ys)
    ensures SameByKind(lib, xs, ys) <==> SameShares(lib, env, order, order')
  {
    forall g: string
      ensures OfKind(lib, xs, g) == Concat(Share(lib, env, g), order)
      ensures OfKind(lib, ys, g) == Concat(Share(lib, env, g), order') {
      KindAlong(lib, env, order, g);
      KindAlong(lib, env, order', g);
    }
  }

  /** An input that cannot be sent fails in every order. One that can yields the same request
      in every order iff, kind by kind, what any two variables contribute commutes. */
  lemma RequestOrderExact(lib: Lib, env: Env)
    ensures SameRequest(lib, env) <==> (AllSent(lib, env) ==> SharesCommute(lib, env))
  {
    if !AllSent(lib, env) {
      forall order, order' | IsOrder(order, env.Keys) && IsOrder(order', env.Keys)
        ensures BuiltRequest(lib, env, order) == BuiltRequest(lib, env, order') {
        SentAll(lib, env, order);
        SentAll(lib, env, order');
      }
    } else if SharesCommute(lib, env) {
      forall order, order' | IsOrder(order, env.Keys) && IsOrder(order', env.Keys)
        ensures BuiltRequest(lib, env, order) == BuiltRequest(lib, env, order') {
        CommutingSame(lib, env, order, order');
      }
    } else if SameRequest(lib, env) {
      forall g: string ensures Commute(Share(lib, env, g)) {
        SameCommutes(lib, env, g);
      }
    }
  }

  lemma CommutingSame(lib: Lib, env: Env, order: seq<string>, order': seq<string>)
    requires AllSent(lib, env) && SharesCommute(lib, env) && IsOrder(order, env.Keys) && IsOrder(order', env.Keys)
    ensures BuiltRequest(lib, env, order) == BuiltRequest(lib, env, order')
  {
    forall g: string ensures Concat(Share(lib, env, g), order) == Concat(Share(lib, env, g), order') {
      assert Commute(Share(lib, env, g));
      AnyOrderConcat(Share(lib, env, g), env.Keys, order, order');
    }
    SameAlong(lib, env, order, order');
  }

  lemma SameCommutes(lib: Lib, env: Env, g: string)
    requires AllSent(lib, env) && SameRequest(lib, env)
    ensures Commute(Share(lib, env, g))
  {
    var lists := Share(lib, env, g);
    assert lists.Keys == env.Keys;
    forall order, order' | IsOrder(order, lists.Keys) && IsOrder(order', lists.Keys)
      ensures Concat(lists, order) == Concat(lists, order') {
      SameAlong(lib, env, order, order');
    }
    ConcatExact(lists);
  }

  /** In particular when no two variables contribute objects of the same kind. */
  lemma KindsApartSuffice(lib: Lib, env: Env)
    requires AllSent(lib, env)
    requires forall g, k, k' :: k in env && k' in env && k != k' ==>
               Share(lib, env, g)[k] == [] || Share(lib, env, g)[k'] == []
    ensures SameRequest(lib, env)
  {
    forall g: string ensures Commute(Share(lib, env, g)) {
      forall k, k' | k in env && k' in env && k != k'
        ensures Share(lib, env, g)[k] + Share(lib, env, g)[k'] == Share(lib, env, g)[k'] + Share(lib, env, g)[k] {
        assert Share(lib, env, g)[k] == [] || Share(lib, env, g)[k'] == [];
      }
    }
    RequestOrderExact(lib, env);
  }
}
