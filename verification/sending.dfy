/** The order inside a request: what an image gets is the object leaves of its input, read
    from left to right, sorted into kinds. */
module Sending {
  import opened Values
  import opened Functions
  import opened Images

  /** The objects in a value, from left to right and at any depth. */
  ghost function InOrder(v: Value): seq<Value>
    decreases v, 1
  {
    match v
    case Obj(_) => [v]
    case Arr(xs) => InOrderOf(xs)
    case _ => []
  }

  ghost function InOrderOf(xs: seq<Value>): seq<Value>
    decreases xs, 0
  {
    if xs == [] then [] else InOrder(xs[0]) + InOrderOf(xs[1..])
  }

  /** A list of objects is what is in it. */
  lemma {:induction false} ObjectsStayInOrder(xs: seq<Value>)
    requires forall i :: 0 <= i < |xs| ==> xs[i].Obj?
    ensures InOrderOf(xs) == xs
  {
    if xs != [] {
      ObjectsStayInOrder(xs[1..]);
    }
  }

  lemma ElementInOrder(lib: Lib, x: Value, inner: bool)
    ensures var r := ElementObjects(lib, x, inner); r.Some? ==> r.value == InOrder(x)
    decreases if inner then 0 else 1, 0
  {
    if x.Arr? && !inner {
      ListInOrder(lib, x.elems, true);
    }
  }

  lemma {:induction false} ListInOrder(lib: Lib, xs: seq<Value>, inner: bool)
    ensures var r := ListObjects(lib, xs, inner); r.Some? ==> r.value == InOrderOf(xs)
    decreases if inner then 0 else 1, |xs|
  {
    if xs != [] {
      ElementInOrder(lib, xs[0], inner);
      ListInOrder(lib, xs[1..], inner);
    }
  }

  /** The values of an input in the order in which it is visited. */
  ghost function Visited(env: Env, order: seq<string>): seq<Value>
    requires forall i :: 0 <= i < |order| ==> order[i] in env
  {
    seq(|order|, i requires 0 <= i < |order| => env[order[i]])
  }

  lemma VisitedNext(env: Env, order: seq<string>)
    requires order != [] && forall i :: 0 <= i < |order| ==> order[i] in env
    ensures Visited(env, order)[0] == env[order[0]] && Visited(env, order)[1..] == Visited(env, order[1..])
  {
  }

  lemma {:induction false} SentInOrder(lib: Lib, env: Env, order: seq<string>)
    requires forall i :: 0 <= i < |order| ==> order[i] in env
    ensures var r := RequestAlong(lib, env, order); r.Some? ==> r.value == InOrderOf(Visited(env, order))
  {
    if order != [] {
      SentInOrder(lib, env, order[1..]);
      VisitedNext(env, order);
      if env[order[0]].Arr? {
        ListInOrder(lib, env[order[0]].elems, false);
      }
    }
  }

  /** The request lists the objects of the input, visited in the given order: under every kind
      that occurs those of the kind, from left to right. */
  ghost predicate Lists(lib: Lib, env: Env, order: seq<string>, request: Request)
    requires forall i :: 0 <= i < |order| ==> order[i] in env
  {
    forall g ::
      && (g in request <==> OfKind(lib, InOrderOf(Visited(env, order)), g) != [])
      && (g in request ==> request[g] == OfKind(lib, InOrderOf(Visited(env, order)), g))
  }

  lemma ListsOnlyOne(lib: Lib, env: Env, order: seq<string>, r: Request, r': Request)
    requires forall i :: 0 <= i < |order| ==> order[i] in env
    requires Lists(lib, env, order, r) && Lists(lib, env, order, r')
    ensures r == r'
  {
    forall g: string ensures Same(r, r', g) {
      assert g in r <==> OfKind(lib, InOrderOf(Visited(env, order)), g) != [];
      assert g in r' <==> OfKind(lib, InOrderOf(Visited(env, order)), g) != [];
    }
    SameEverywhere(r, r');
  }

  lemma BuiltLists(lib: Lib, env: Env, order: seq<string>)
    requires IsOrder(order, env.Keys)
    ensures var r := BuiltRequest(lib, env, order);
            && (r.Some? <==> forall k :: k in env ==> Sendable(lib, env[k], 2))
            && (r.Some? ==> Lists(lib, env, order, r.value))
  {
    SentConservation(lib, env, order);
    var sent := RequestAlong(lib, env, order);
    if sent.Some? {
      SentInOrder(lib, env, order);
      GroupedByKind(lib, sent.value);
    }
  }

  /** A request is built iff every variable holds objects at most two lists deep, and it is
      the one that lists them. */
  lemma RequestExact(lib: Lib, env: Env, order: seq<string>, request: Request)
    requires IsOrder(order, env.Keys)
    ensures BuiltRequest(lib, env, order) == Some(request) <==>
            (forall k :: k in env ==> Sendable(lib, env[k], 2)) && Lists(lib, env, order, request)
  {
    BuiltLists(lib, env, order);
    var r := BuiltRequest(lib, env, order);
    if r.Some? && Lists(lib, env, order, request) {
      ListsOnlyOne(lib, env, order, r.value, request);
    }
  }
}
