/** What the range loop computes when local variables are independent: every item sees a
    fresh environment, although a single Input is mutated from start to end. */
module Isolation {
  import opened Values
  import opened Outputs
  import opened Jq
  import opened Functions
  import opened Loop
  import opened RangeLoop

  /** No local variable is read by the expression of another one; it may read itself. */
  ghost predicate Apart(lib: Lib, vars: string -> set<string>, v: Vertex) {
    && ReadsOnly(lib.jq, vars)
    && forall x :: x in v.fn.vars ==> vars(v.fn.vars[x]) !! v.fn.vars.Keys - {x}
  }

  /** No local variable is read by a local-variable expression, not even by its own. */
  ghost predicate Independent(lib: Lib, vars: string -> set<string>, v: Vertex) {
    && ReadsOnly(lib.jq, vars)
    && forall x :: x in v.fn.vars ==> vars(v.fn.vars[x]) !! v.fn.vars.Keys
  }

  ghost predicate AgreeOutside(e: Env, e': Env, names: set<string>) {
    forall k :: k !in names ==> Same(e, e', k)
  }

  ghost predicate LocalsDefined(lib: Lib, v: Vertex, env: Env) {
    forall x :: x in v.fn.vars ==> RunJq(lib.jq, v.fn.vars[x], env).Some?
  }

  /** `env` extended by all local variables, each evaluated on `env` itself. */
  ghost function WithLocals(lib: Lib, v: Vertex, env: Env): Env
    requires LocalsDefined(lib, v, env)
  {
    env + map x | x in v.fn.vars :: RunJq(lib.jq, v.fn.vars[x], env).value
  }

  /** The environments agree on what the variables from position `from` of the order read. */
  ghost predicate SameReads(vars: string -> set<string>, v: Vertex, order: seq<string>, env: Env, base: Env)
    requires forall i :: 0 <= i < |order| ==> order[i] in v.fn.vars
  {
    forall i :: 0 <= i < |order| ==> Agree(env, base, vars(v.fn.vars[order[i]]))
  }

  /** Setting the first variable of an order does not disturb the others. */
  lemma ReadsKept(lib: Lib, vars: string -> set<string>, v: Vertex, order: seq<string>, base: Env, env: Env, y: Value)
    requires Apart(lib, vars, v) && order != [] && forall i :: 0 <= i < |order| ==> order[i] in v.fn.vars
    requires forall i :: 0 < i < |order| ==> order[i] != order[0]
    requires SameReads(vars, v, order, env, base)
    ensures SameReads(vars, v, order[1..], env[order[0] := y], base)
  {
    var rest := order[1..];
    forall i | 0 <= i < |rest| ensures Agree(env[order[0] := y], base, vars(v.fn.vars[rest[i]])) {
      assert rest[i] == order[i + 1];
      assert order[0] in v.fn.vars.Keys - {rest[i]};
      assert Agree(env, base, vars(v.fn.vars[order[i + 1]]));
      SetElsewhere(env, base, vars(v.fn.vars[rest[i]]), order[0], y);
    }
  }

  lemma SetElsewhere(env: Env, base: Env, names: set<string>, x: string, y: Value)
    requires Agree(env, base, names) && x !in names
    ensures Agree(env[x := y], base, names)
  {
    forall k | k in names ensures Same(env[x := y], base, k) {
      assert Same(env, base, k);
    }
  }

  /** Resolving part of the variables, from an input that may hold stale local values. */
  lemma {:induction false} ResolvePart(lib: Lib, vars: string -> set<string>, v: Vertex, order: seq<string>,
                                       base: Env, env: Env)
    requires Apart(lib, vars, v) && forall i :: 0 <= i < |order| ==> order[i] in v.fn.vars
    requires forall i, j :: 0 <= i < j < |order| ==> order[i] != order[j]
    requires SameReads(vars, v, order, env, base)
    ensures var e := Resolve(lib.jq, v.fn.vars, order, env);
            && (e.Some? <==> forall x :: x in order ==> RunJq(lib.jq, v.fn.vars[x], base).Some?)
            && (e.Some? ==>
                  && (forall x :: x in order ==> x in e.value && e.value[x] == RunJq(lib.jq, v.fn.vars[x], base).value)
                  && (forall k :: k !in order ==> Same(e.value, env, k)))
  {
    if order != [] {
      var x, rest := order[0], order[1..];
      assert Agree(env, base, vars(v.fn.vars[x]));
      assert forall y :: y in order <==> y == x || y in rest;
      if RunJq(lib.jq, v.fn.vars[x], env).Some? {
        var y := RunJq(lib.jq, v.fn.vars[x], env).value;
        ReadsKept(lib, vars, v, order, base, env, y);
        ResolvePart(lib, vars, v, rest, base, env[x := y]);
      }
    }
  }

  /** Every variable evaluated on `base`, whatever the order and whatever local values `env`
      holds beside it, provided they agree on what the expressions read. */
  lemma ResolveAll(lib: Lib, vars: string -> set<string>, v: Vertex, order: seq<string>, base: Env, env: Env)
    requires Apart(lib, vars, v) && AgreeOutside(env, base, v.fn.vars.Keys) && IsOrder(order, v.fn.vars.Keys)
    requires SameReads(vars, v, order, env, base)
    ensures Resolve(lib.jq, v.fn.vars, order, env)
            == if LocalsDefined(lib, v, base) then Some(WithLocals(lib, v, base)) else None
  {
    ResolvePart(lib, vars, v, order, base, env);
    assert forall x :: x in order <==> x in v.fn.vars;
    if LocalsDefined(lib, v, base) {
      var e := Resolve(lib.jq, v.fn.vars, order, env).value;
      var w := WithLocals(lib, v, base);
      forall k: string ensures Same(e, w, k) {
        if k !in v.fn.vars {
          assert Same(e, env, k) && Same(env, base, k);
        }
      }
      SameEverywhere(e, w);
    }
  }

  /** Independent variables do not see the stale values of earlier items. */
  lemma ResolveAny(lib: Lib, vars: string -> set<string>, v: Vertex, order: seq<string>, base: Env, env: Env)
    requires Independent(lib, vars, v) && AgreeOutside(env, base, v.fn.vars.Keys) && IsOrder(order, v.fn.vars.Keys)
    ensures Resolve(lib.jq, v.fn.vars, order, env)
            == if LocalsDefined(lib, v, base) then Some(WithLocals(lib, v, base)) else None
  {
    forall i | 0 <= i < |order| ensures Agree(env, base, vars(v.fn.vars[order[i]])) {
      assert order[i] in v.fn.vars.Keys;
      assert forall k :: k in vars(v.fn.vars[order[i]]) ==> Same(env, base, k);
    }
    assert Apart(lib, vars, v);
    ResolveAll(lib, vars, v, order, base, env);
  }

  /** Variables that read at most themselves resolve to the same values in every order. */
  lemma ResolveOrderFree(lib: Lib, vars: string -> set<string>, v: Vertex, order: seq<string>, order': seq<string>,
                         env: Env)
    requires Apart(lib, vars, v) && IsOrder(order, v.fn.vars.Keys) && IsOrder(order', v.fn.vars.Keys)
    ensures Resolve(lib.jq, v.fn.vars, order, env) == Resolve(lib.jq, v.fn.vars, order', env)
  {
    ResolveAll(lib, vars, v, order, env, env);
    ResolveAll(lib, vars, v, order', env, env);
  }

  // ------------------------------------------------------------------ fresh environments

  ghost predicate Visible(lib: Lib, v: Vertex, base: Env, items: seq<Value>, k: nat)
    requires k < |items|
  {
    LocalsDefined(lib, v, Bind(base, items[k], k))
  }

  /** The environment of item `k`: the input, the item, and the locals on these. */
  ghost function SeenAt(lib: Lib, v: Vertex, base: Env, items: seq<Value>, k: nat): Env
    requires k < |items| && Visible(lib, v, base, items, k)
  {
    WithLocals(lib, v, Bind(base, items[k], k))
  }

  /** Name by name: item k sees its own value, its number as text and as a number, the local
      variables evaluated on these, and otherwise the input; a local variable hides the rest. */
  lemma SeenNames(lib: Lib, v: Vertex, base: Env, items: seq<Value>, k: nat)
    requires k < |items| && Visible(lib, v, base, items, k)
    ensures var seen := SeenAt(lib, v, base, items, k);
            && ("VALUE" in seen && ("VALUE" !in v.fn.vars ==> seen["VALUE"] == items[k]))
            && ("KEY" in seen && ("KEY" !in v.fn.vars ==> seen["KEY"] == Str(Decimal(k))))
            && ("INDEX" in seen && ("INDEX" !in v.fn.vars ==> seen["INDEX"] == Num(k)))
            && (forall x :: x in v.fn.vars ==>
                  x in seen && Some(seen[x]) == RunJq(lib.jq, v.fn.vars[x], Bind(base, items[k], k)))
            && (forall x :: x !in v.fn.vars && x !in {"VALUE", "KEY", "INDEX"} ==> Same(seen, base, x))
  {
    assert "VALUE" != "KEY" && "KEY" != "INDEX" && "VALUE" != "INDEX";
  }

  /** What one run on item `k` returns; no other item enters into it. */
  ghost function ResultAt(lib: Lib, v: Vertex, root: string, o: Orders, base: Env, items: seq<Value>,
                          k: nat): Option<RunOut>
    requires ValidOrders(o) && k < |items|
  {
    if !Visible(lib, v, base, items, k) then None else
      var fi := Filter(v, root, SeenAt(lib, v, base, items, k));
      Run(lib, v, fi, EnvOrder(o, k, fi), k)
  }

  ghost predicate AllVisible(lib: Lib, v: Vertex, base: Env, items: seq<Value>, n: nat)
    requires n <= |items|
  {
    forall k: nat :: k < n ==> Visible(lib, v, base, items, k)
  }

  ghost predicate AllRun(lib: Lib, v: Vertex, root: string, o: Orders, base: Env, items: seq<Value>, n: nat)
    requires ValidOrders(o) && n <= |items|
  {
    forall k: nat :: k < n ==> ResultAt(lib, v, root, o, base, items, k).Some?
  }

  /** The results of the first `n` items. */
  ghost function Results(lib: Lib, v: Vertex, root: string, o: Orders, base: Env, items: seq<Value>,
                         n: nat): (xs: seq<RunOut>)
    requires ValidOrders(o) && n <= |items| && AllRun(lib, v, root, o, base, items, n)
    ensures |xs| == n
    ensures forall k: nat :: k < n ==> ResultAt(lib, v, root, o, base, items, k) == Some(xs[k])
  {
    seq(n, k requires 0 <= k < n => ResultAt(lib, v, root, o, base, items, k).value)
  }

  ghost function RunsOf(lib: Lib, v: Vertex, root: string, base: Env, items: seq<Value>, n: nat): (runs: seq<Env>)
    requires n <= |items| && AllVisible(lib, v, base, items, n)
    ensures |runs| == n
    ensures forall k: nat :: k < n ==> runs[k] == Filter(v, root, SeenAt(lib, v, base, items, k))
  {
    seq(n, k requires 0 <= k < n => Filter(v, root, SeenAt(lib, v, base, items, k)))
  }

  /** The input as the loop leaves it. */
  ghost function EnvAfter(lib: Lib, v: Vertex, base: Env, items: seq<Value>, n: nat): Env
    requires n <= |items| && AllVisible(lib, v, base, items, n)
  {
    if n == 0 then base else SeenAt(lib, v, base, items, n - 1)
  }

  /** Binding the next item hides everything earlier turns left in the input. */
  lemma EarlierItemsAreHidden(lib: Lib, v: Vertex, base: Env, items: seq<Value>, n: nat)
    requires n < |items| && AllVisible(lib, v, base, items, n)
    ensures AgreeOutside(Bind(EnvAfter(lib, v, base, items, n), items[n], n), Bind(base, items[n], n), v.fn.vars.Keys)
  {
  }

  /** Resolving the variables for item `n`, from whatever the earlier items left. */
  lemma EnvNext(lib: Lib, vars: string -> set<string>, v: Vertex, o: Orders, base: Env, items: seq<Value>, n: nat)
    requires Independent(lib, vars, v) && ValidOrders(o) && n < |items| && AllVisible(lib, v, base, items, n)
    ensures Resolve(lib.jq, v.fn.vars, VarOrder(o, n, v), Bind(EnvAfter(lib, v, base, items, n), items[n], n))
            == if Visible(lib, v, base, items, n) then Some(SeenAt(lib, v, base, items, n)) else None
  {
    var env := EnvAfter(lib, v, base, items, n);
    EarlierItemsAreHidden(lib, v, base, items, n);
    ResolveAny(lib, vars, v, VarOrder(o, n, v), Bind(base, items[n], n), Bind(env, items[n], n));
  }

  /** A turn on a proper item. */
  lemma TurnIs(lib: Lib, v: Vertex, root: string, o: Orders, items: seq<Value>, n: nat, p: Progress)
    requires ValidOrders(o) && n < |items| && !items[n].Null?
    ensures var q, e := Turn(lib, v, root, o, n, items[n], p),
                        Resolve(lib.jq, v.fn.vars, VarOrder(o, n, v), Bind(p.env, items[n], n));
            if e.None? then q.None?
            else if !ExecutesRange(v.fn.ftype) then q == Some(p.(env := e.value))
            else q == RunOnce(lib, v, root, o, n, p.(env := e.value))
  {
  }

  lemma TurnIsolated(lib: Lib, vars: string -> set<string>, v: Vertex, root: string, o: Orders, base: Env,
                     items: seq<Value>, n: nat, p: Progress)
    requires Independent(lib, vars, v) && ValidOrders(o) && NoNulls(items)
    requires n < |items| && AllVisible(lib, v, base, items, n) && p.env == EnvAfter(lib, v, base, items, n)
    ensures var q := Turn(lib, v, root, o, n, items[n], p);
            if !ExecutesRange(v.fn.ftype) then
              q == if Visible(lib, v, base, items, n) then Some(p.(env := SeenAt(lib, v, base, items, n))) else None
            else
              var x := ResultAt(lib, v, root, o, base, items, n);
              && (x.None? ==> q.None?)
              && (x.Some? ==>
                    var seen := SeenAt(lib, v, base, items, n);
                    q == Some(Progress(seen, Record(v, p.rec, x.value, RespOrder(o, n, x.value)),
                                       p.runs + [Filter(v, root, seen)])))
  {
    EnvNext(lib, vars, v, o, base, items, n);
    TurnIs(lib, v, root, o, items, n, p);
  }

  // ----------------------------------------------------------------- the whole loop

  lemma OneMoreVisible(lib: Lib, v: Vertex, base: Env, items: seq<Value>, n: nat)
    requires n < |items|
    ensures AllVisible(lib, v, base, items, n + 1) <==>
              AllVisible(lib, v, base, items, n) && Visible(lib, v, base, items, n)
  {
  }

  /** The environments of the loop in closed form. */
  lemma {:induction false} LoopIsolated(lib: Lib, vars: string -> set<string>, v: Vertex, o: Orders, base: Env,
                                        items: seq<Value>, n: nat)
    requires Independent(lib, vars, v) && ValidOrders(o) && n <= |items|
    ensures LoopEnv(lib, v, o, base, items, n)
            == if AllVisible(lib, v, base, items, n) then Some(EnvAfter(lib, v, base, items, n)) else None
  {
    if n > 0 {
      LoopIsolated(lib, vars, v, o, base, items, n - 1);
      OneMoreVisible(lib, v, base, items, n - 1);
      if AllVisible(lib, v, base, items, n - 1) {
        EnvNext(lib, vars, v, o, base, items, n - 1);
      }
    }
  }

  lemma AnswerIsolated(lib: Lib, vars: string -> set<string>, v: Vertex, root: string, o: Orders, base: Env,
                       items: seq<Value>, k: nat)
    requires Independent(lib, vars, v) && ValidOrders(o) && k < |items|
    ensures AllVisible(lib, v, base, items, k + 1) ==>
              && InputAt(lib, v, root, o, base, items, k) == Some(Filter(v, root, SeenAt(lib, v, base, items, k)))
              && AnswerAt(lib, v, root, o, base, items, k) == ResultAt(lib, v, root, o, base, items, k)
    ensures !AllVisible(lib, v, base, items, k + 1) ==> AnswerAt(lib, v, root, o, base, items, k).None?
  {
    LoopIsolated(lib, vars, v, o, base, items, k + 1);
  }

  lemma AllRunIsVisible(lib: Lib, v: Vertex, root: string, o: Orders, base: Env, items: seq<Value>, n: nat)
    requires ValidOrders(o) && n <= |items| && AllRun(lib, v, root, o, base, items, n)
    ensures AllVisible(lib, v, base, items, n)
  {
    forall k: nat | k < n ensures Visible(lib, v, base, items, k) {
      assert ResultAt(lib, v, root, o, base, items, k).Some?;
    }
  }

  /** The runs of the loop succeed iff each item on its own does, and then get and answer
      what each item on its own does. */
  lemma AnswersIsolated(lib: Lib, vars: string -> set<string>, v: Vertex, root: string, o: Orders, base: Env,
                        items: seq<Value>, n: nat)
    requires Independent(lib, vars, v) && ValidOrders(o) && n <= |items|
    ensures AllAnswered(lib, v, root, o, base, items, n) <==> AllRun(lib, v, root, o, base, items, n)
    ensures AllRun(lib, v, root, o, base, items, n) ==>
              && AllVisible(lib, v, base, items, n)
              && Answers(lib, v, root, o, base, items, n) == Results(lib, v, root, o, base, items, n)
              && Inputs(lib, v, root, o, base, items, n) == RunsOf(lib, v, root, base, items, n)
  {
    forall k: nat | k < n
      ensures AllVisible(lib, v, base, items, k + 1) ==>
                && InputAt(lib, v, root, o, base, items, k) == Some(Filter(v, root, SeenAt(lib, v, base, items, k)))
                && AnswerAt(lib, v, root, o, base, items, k) == ResultAt(lib, v, root, o, base, items, k)
      ensures !AllVisible(lib, v, base, items, k + 1) ==> AnswerAt(lib, v, root, o, base, items, k).None? {
      AnswerIsolated(lib, vars, v, root, o, base, items, k);
    }
    if AllRun(lib, v, root, o, base, items, n) {
      AllRunIsVisible(lib, v, root, o, base, items, n);
    }
  }

  /** The single run after the loop sees the last item again. */
  lemma LastIsolated(lib: Lib, vars: string -> set<string>, v: Vertex, o: Orders, base: Env, items: seq<Value>)
    requires Independent(lib, vars, v) && ValidOrders(o) && items != []
    ensures LastEnv(lib, v, o, base, items)
            == if AllVisible(lib, v, base, items, |items|) then Some(SeenAt(lib, v, base, items, |items| - 1)) else None
  {
    var n := |items|;
    LoopIsolated(lib, vars, v, o, base, items, n);
    LastEnvIs(lib, v, o, base, items);
    if AllVisible(lib, v, base, items, n) {
      LastVisible(lib, v, base, items);
      SeenAgain(lib, vars, v, base, items, n - 1, VarOrder(o, n, v));
    }
  }

  lemma LastEnvIs(lib: Lib, v: Vertex, o: Orders, base: Env, items: seq<Value>)
    requires ValidOrders(o)
    ensures var env := LoopEnv(lib, v, o, base, items, |items|);
            LastEnv(lib, v, o, base, items)
            == if env.None? then None else Resolve(lib.jq, v.fn.vars, VarOrder(o, |items|, v), env.value)
    ensures IsOrder(VarOrder(o, |items|, v), v.fn.vars.Keys)
  {
  }

  lemma LastVisible(lib: Lib, v: Vertex, base: Env, items: seq<Value>)
    requires items != [] && AllVisible(lib, v, base, items, |items|)
    ensures Visible(lib, v, base, items, |items| - 1)
    ensures EnvAfter(lib, v, base, items, |items|) == SeenAt(lib, v, base, items, |items| - 1)
  {
  }

  /** Resolving once more changes nothing. */
  lemma SeenAgain(lib: Lib, vars: string -> set<string>, v: Vertex, base: Env, items: seq<Value>, n: nat,
                  order: seq<string>)
    requires Independent(lib, vars, v) && n < |items| && Visible(lib, v, base, items, n)
    requires IsOrder(order, v.fn.vars.Keys)
    ensures Resolve(lib.jq, v.fn.vars, order, SeenAt(lib, v, base, items, n)) == Some(SeenAt(lib, v, base, items, n))
  {
    var env := SeenAt(lib, v, base, items, n);
    assert AgreeOutside(env, Bind(base, items[n], n), v.fn.vars.Keys);
    ResolveAny(lib, vars, v, order, Bind(base, items[n], n), env);
  }
}
