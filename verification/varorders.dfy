/** When the order in which Go visits the local variables shows: exactly when evaluating some
    of them first changes what another one yields. Nothing is assumed about jq. */
module VarOrders {
  import opened Values
  import opened Jq
  import opened Functions
  import opened Loop
  import opened Isolation

  /** The input after the variables of `s` were set to their values in `e`. */
  ghost function Partly(env: Env, e: Env, s: set<string>): Env {
    env + map k | k in s && k in e :: e[k]
  }

  /** Every order resolves, and to the same environment. */
  ghost predicate OneResolution(lib: Lib, v: Vertex, env: Env, e: Env) {
    forall order :: IsOrder(order, v.fn.vars.Keys) ==> Resolve(lib.jq, v.fn.vars, order, env) == Some(e)
  }

  /** Variable `x` yields on the input what it yields once those of `s` have their values. */
  ghost predicate UnaffectedBy(lib: Lib, v: Vertex, env: Env, w: Env, s: set<string>, x: string)
    requires x in v.fn.vars
  {
    RunJq(lib.jq, v.fn.vars[x], Partly(env, w, s)) == RunJq(lib.jq, v.fn.vars[x], env)
  }

  /** No variable notices which of the others were evaluated before it. */
  ghost predicate Unaffected(lib: Lib, v: Vertex, env: Env)
    requires LocalsDefined(lib, v, env)
  {
    forall s: set<string>, x :: s <= v.fn.vars.Keys && x in v.fn.vars && x !in s ==>
      UnaffectedBy(lib, v, env, WithLocals(lib, v, env), s, x)
  }

  // ------------------------------------------------------------------ one resolution

  lemma {:induction false} OthersKept(jq: Evaluator, vars: map<string, string>, order: seq<string>, env: Env)
    requires forall i :: 0 <= i < |order| ==> order[i] in vars
    ensures var e := Resolve(jq, vars, order, env);
            e.Some? ==> (forall k :: k in order ==> k in e.value) && forall k :: k !in order ==> Same(e.value, env, k)
    decreases |order|
  {
    if order != [] {
      var x, rest := order[0], order[1..];
      assert forall y :: y in order <==> y == x || y in rest;
      var r := RunJq(jq, vars[x], env);
      if r.Some? {
        OthersKept(jq, vars, rest, env[x := r.value]);
      }
    }
  }

  ghost function Firsts(order: seq<string>, i: nat): set<string>
    requires i <= |order|
  {
    set k | k in order[..i]
  }

  /** Each variable is evaluated on the input and the final values of those before it. */
  lemma {:induction false} ValueInTurn(jq: Evaluator, vars: map<string, string>, order: seq<string>, env: Env, e: Env,
                                       i: nat)
    requires forall i :: 0 <= i < |order| ==> order[i] in vars
    requires forall i, j :: 0 <= i < j < |order| ==> order[i] != order[j]
    requires Resolve(jq, vars, order, env) == Some(e) && i < |order|
    ensures order[i] in e && RunJq(jq, vars[order[i]], Partly(env, e, Firsts(order, i))) == Some(e[order[i]])
    decreases |order|
  {
    var x, rest := order[0], order[1..];
    var r := RunJq(jq, vars[x], env);
    OthersKept(jq, vars, rest, env[x := r.value]);
    assert x !in rest && Same(e, env[x := r.value], x);
    if i == 0 {
      assert Partly(env, e, Firsts(order, 0)) == env;
    } else {
      ValueInTurn(jq, vars, rest, env[x := r.value], e, i - 1);
      SamePart(order, env, e, i);
    }
  }

  lemma SamePart(order: seq<string>, env: Env, e: Env, i: nat)
    requires 0 < i <= |order| && order[0] in e
    ensures Partly(env[order[0] := e[order[0]]], e, Firsts(order[1..], i - 1)) == Partly(env, e, Firsts(order, i))
  {
    var x := order[0];
    assert order[..i] == [x] + order[1..][..i - 1];
    var a, b := Partly(env[x := e[x]], e, Firsts(order[1..], i - 1)), Partly(env, e, Firsts(order, i));
    forall k ensures Same(a, b, k) {
      assert k in Firsts(order, i) <==> k == x || k in Firsts(order[1..], i - 1);
    }
    SameEverywhere(a, b);
  }

  // ------------------------------------------------------------------ the condition

  /** `w` has the value of every variable on the input. */
  ghost predicate HasValues(lib: Lib, v: Vertex, env: Env, w: Env) {
    forall x :: x in v.fn.vars ==> x in w && RunJq(lib.jq, v.fn.vars[x], env) == Some(w[x])
  }

  lemma FirstResolved(lib: Lib, v: Vertex, rest: seq<string>, env: Env, y: Value)
    requires rest != [] && forall i :: 0 <= i < |rest| ==> rest[i] in v.fn.vars
    requires RunJq(lib.jq, v.fn.vars[rest[0]], env) == Some(y)
    ensures Resolve(lib.jq, v.fn.vars, rest, env) == Resolve(lib.jq, v.fn.vars, rest[1..], env[rest[0] := y])
  {
  }

  /** With unaffected variables, what is left to resolve adds its own values. */
  lemma {:induction false} ResolveRest(lib: Lib, v: Vertex, env: Env, w: Env, rest: seq<string>, s: set<string>)
    requires HasValues(lib, v, env, w) && s <= v.fn.vars.Keys
    requires forall t: set<string>, x :: t <= v.fn.vars.Keys && x in v.fn.vars && x !in t ==>
               UnaffectedBy(lib, v, env, w, t, x)
    requires forall i :: 0 <= i < |rest| ==> rest[i] in v.fn.vars && rest[i] !in s
    requires forall i, j :: 0 <= i < j < |rest| ==> rest[i] != rest[j]
    ensures Resolve(lib.jq, v.fn.vars, rest, Partly(env, w, s)) == Some(Partly(env, w, s + Firsts(rest, |rest|)))
    decreases |rest|
  {
    if rest == [] {
      assert s + Firsts(rest, 0) == s;
    } else {
      var x, more := rest[0], rest[1..];
      assert UnaffectedBy(lib, v, env, w, s, x);
      FirstResolved(lib, v, rest, Partly(env, w, s), w[x]);
      OneMorePart(env, w, s, x);
      ResolveRest(lib, v, env, w, more, s + {x});
      FirstsNext(rest);
      assert s + {x} + Firsts(more, |more|) == s + Firsts(rest, |rest|);
    }
  }

  lemma FirstsNext(rest: seq<string>)
    requires rest != []
    ensures Firsts(rest, |rest|) == {rest[0]} + Firsts(rest[1..], |rest| - 1)
  {
    assert rest == [rest[0]] + rest[1..] && rest[..|rest|] == rest && rest[1..][..|rest| - 1] == rest[1..];
  }

  lemma OneMorePart(env: Env, w: Env, s: set<string>, x: string)
    requires x in w
    ensures Partly(env, w, s)[x := w[x]] == Partly(env, w, s + {x})
  {
    var a, b := Partly(env, w, s)[x := w[x]], Partly(env, w, s + {x});
    forall k ensures Same(a, b, k) {}
    SameEverywhere(a, b);
  }

  lemma AllParts(lib: Lib, v: Vertex, env: Env)
    requires LocalsDefined(lib, v, env)
    ensures var w := WithLocals(lib, v, env);
            && HasValues(lib, v, env, w) && Partly(env, w, {}) == env && Partly(env, w, v.fn.vars.Keys) == w
  {
    var w := WithLocals(lib, v, env);
    forall k ensures Same(Partly(env, w, v.fn.vars.Keys), w, k) {}
    SameEverywhere(Partly(env, w, v.fn.vars.Keys), w);
  }

  lemma AllFirsts(order: seq<string>, keys: set<string>)
    requires IsOrder(order, keys)
    ensures {} + Firsts(order, |order|) == keys
  {
    assert order[..|order|] == order;
  }

  lemma UnaffectedSuffices(lib: Lib, v: Vertex, env: Env)
    requires LocalsDefined(lib, v, env) && Unaffected(lib, v, env)
    ensures OneResolution(lib, v, env, WithLocals(lib, v, env))
  {
    var w := WithLocals(lib, v, env);
    AllParts(lib, v, env);
    forall order | IsOrder(order, v.fn.vars.Keys) ensures Resolve(lib.jq, v.fn.vars, order, env) == Some(w) {
      ResolveRest(lib, v, env, w, order, {});
      AllFirsts(order, v.fn.vars.Keys);
    }
  }

  /** An order that visits exactly `s` before `x`. */
  lemma OrderThrough(keys: set<string>, s: set<string>, x: string) returns (order: seq<string>, i: nat)
    requires s <= keys && x in keys && x !in s
    ensures IsOrder(order, keys) && i < |order| && order[i] == x && Firsts(order, i) == s
  {
    var a, b := SomeOrder(s), SomeOrder(keys - s - {x});
    SomeOrderIsOrder(s);
    SomeOrderIsOrder(keys - s - {x});
    JoinedOrder([x], {x}, b, keys - s - {x});
    JoinedOrder(a, s, [x] + b, {x} + (keys - s - {x}));
    order, i := a + ([x] + b), |a|;
    assert s + ({x} + (keys - s - {x})) == keys;
    assert order[..i] == a;
    assert Firsts(order, i) == s;
  }

  /** If every order resolves to `e`, each variable yields its value in `e` at any point. */
  lemma ValueAnywhere(lib: Lib, v: Vertex, env: Env, e: Env, s: set<string>, x: string)
    requires OneResolution(lib, v, env, e) && s <= v.fn.vars.Keys && x in v.fn.vars && x !in s
    ensures x in e && RunJq(lib.jq, v.fn.vars[x], Partly(env, e, s)) == Some(e[x])
  {
    var order, i := OrderThrough(v.fn.vars.Keys, s, x);
    ValueInTurn(lib.jq, v.fn.vars, order, env, e, i);
  }

  lemma SameParts(lib: Lib, v: Vertex, env: Env, e: Env, s: set<string>)
    requires LocalsDefined(lib, v, env) && HasValues(lib, v, env, e) && s <= v.fn.vars.Keys
    ensures Partly(env, WithLocals(lib, v, env), s) == Partly(env, e, s)
  {
    var a, b := Partly(env, WithLocals(lib, v, env), s), Partly(env, e, s);
    forall k ensures Same(a, b, k) {
      assert k in s ==> k in v.fn.vars;
    }
    SameEverywhere(a, b);
  }

  lemma OnlyValues(lib: Lib, v: Vertex, env: Env, e: Env)
    requires OneResolution(lib, v, env, e)
    ensures HasValues(lib, v, env, e)
  {
    forall x | x in v.fn.vars ensures x in e && RunJq(lib.jq, v.fn.vars[x], env) == Some(e[x]) {
      ValueAnywhere(lib, v, env, e, {}, x);
      assert Partly(env, e, {}) == env;
    }
  }

  lemma OnlyUnaffected(lib: Lib, v: Vertex, env: Env, e: Env)
    requires OneResolution(lib, v, env, e)
    ensures LocalsDefined(lib, v, env) && Unaffected(lib, v, env)
  {
    OnlyValues(lib, v, env, e);
    forall s: set<string>, x | s <= v.fn.vars.Keys && x in v.fn.vars && x !in s
      ensures UnaffectedBy(lib, v, env, WithLocals(lib, v, env), s, x) {
      ValueAnywhere(lib, v, env, e, s, x);
      SameParts(lib, v, env, e, s);
    }
  }

  /** All map orders of the variables resolve to the same environment iff every variable
      yields a value on the input, and the same value whichever others were set before. */
  lemma VariableOrderExact(lib: Lib, v: Vertex, env: Env)
    ensures (exists e :: OneResolution(lib, v, env, e)) <==> LocalsDefined(lib, v, env) && Unaffected(lib, v, env)
  {
    if e :| OneResolution(lib, v, env, e) {
      OnlyUnaffected(lib, v, env, e);
    }
    if LocalsDefined(lib, v, env) && Unaffected(lib, v, env) {
      UnaffectedSuffices(lib, v, env);
    }
  }
}
