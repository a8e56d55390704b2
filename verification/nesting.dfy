/** A local variable that reads its own name, as the variable topoDef of the container
    function createFabric in examples/topo4.yaml does, is wrapped in one more list by every
    resolution, whatever other local variables the function has. */
module Nesting {
  import opened Values
  import opened Outputs
  import opened Jq
  import opened Functions
  import opened Loop
  import opened RangeLoop
  import opened Isolation
  import opened Images
  import opened Meaning

  /** Some local variable is `x: $x`, over any value. */
  ghost predicate SelfNamed(lib: Lib, v: Vertex, x: string, base: Env) {
    && x in v.fn.vars && v.fn.vars[x] != ""
    && IsVariable(lib.jq, v.fn.vars[x], x)
    && x != "VALUE" && x != "KEY" && x != "INDEX"
    && x in base
  }

  ghost function Wrap(k: nat, v: Value): Value {
    if k == 0 then v else Arr([Wrap(k - 1, v)])
  }

  /** Each list around a value takes one level of what a request accepts. */
  lemma {:induction false} WrapSendable(lib: Lib, v: Value, k: nat, depth: nat)
    ensures Sendable(lib, Wrap(k, v), depth) <==> k <= depth && Sendable(lib, v, depth - k)
  {
    if k > 0 && depth > 0 {
      WrapSendable(lib, v, k - 1, depth - 1);
      assert Wrap(k, v).elems[0] == Wrap(k - 1, v);
    }
  }

  lemma OwnValue(jq: Evaluator, exp: string, x: string, env: Env)
    requires exp != "" && IsVariable(jq, exp, x) && x in env
    ensures RunJq(jq, exp, env) == Some(Arr([env[x]]))
  {
    var outs := [Yield(env[x])];
    assert jq(exp, env) == Stream(outs);
    assert outs[1..] == [] && Delivered(outs) == [env[x]] && EndsWell(outs);
  }

  /** A resolution that succeeds touches `x` once if it is in the order, and never otherwise. */
  lemma {:induction false} ResolutionOf(jq: Evaluator, vars: map<string, string>, order: seq<string>, x: string,
                                        env: Env)
    requires forall i :: 0 <= i < |order| ==> order[i] in vars
    requires forall i, j :: 0 <= i < j < |order| ==> order[i] != order[j]
    requires x in vars && vars[x] != "" && IsVariable(jq, vars[x], x) && x in env
    ensures var e := Resolve(jq, vars, order, env);
            e.Some? ==> x in e.value && e.value[x] == if x in order then Arr([env[x]]) else env[x]
  {
    if order != [] {
      var y, rest := order[0], order[1..];
      var r := RunJq(jq, vars[y], env);
      assert x in order <==> x == y || x in rest;
      if y == x {
        OwnValue(jq, vars[x], x, env);
        assert x !in rest;
      }
      if r.Some? {
        ResolutionOf(jq, vars, rest, x, env[y := r.value]);
      }
    }
  }

  /** One resolution adds one list. */
  lemma ResolutionWraps(lib: Lib, v: Vertex, x: string, base: Env, o: Orders, j: nat, p: Progress)
    requires SelfNamed(lib, v, x, base) && ValidOrders(o) && x in p.env
    ensures var q := Resolved(lib, v, o, j, p); q.Some? ==> x in q.value.env && q.value.env[x] == Arr([p.env[x]])
  {
    assert x in VarOrder(o, j, v);
    ResolutionOf(lib.jq, v.fn.vars, VarOrder(o, j, v), x, p.env);
  }

  lemma TurnWraps(lib: Lib, v: Vertex, x: string, root: string, base: Env, o: Orders, n: nat, item: Value, p: Progress)
    requires SelfNamed(lib, v, x, base) && ValidOrders(o) && !item.Null? && x in p.env
    ensures var q := Turn(lib, v, root, o, n, item, p);
            q.Some? ==> x in q.value.env && q.value.env[x] == Arr([p.env[x]])
  {
    ResolutionWraps(lib, v, x, base, o, n, p.(env := Bind(p.env, item, n)));
  }

  /** After k turns of the range loop the variable carries k lists. */
  lemma {:induction false} TurnsWrap(lib: Lib, v: Vertex, x: string, root: string, base: Env, o: Orders,
                                     items: seq<Value>, n: nat, rec: Recorder)
    requires SelfNamed(lib, v, x, base) && ValidOrders(o) && NoNulls(items) && n <= |items|
    ensures var p := Turns(lib, v, root, o, items, n, Progress(base, rec, []));
            p.Some? ==> x in p.value.env && p.value.env[x] == Wrap(n, base[x])
  {
    if n > 0 {
      TurnsWrap(lib, v, x, root, base, o, items, n - 1, rec);
      var before := Turns(lib, v, root, o, items, n - 1, Progress(base, rec, []));
      if before.Some? {
        TurnWraps(lib, v, x, root, base, o, n - 1, items[n - 1], before.value);
      }
    }
  }

  lemma FilterKeeps(v: Vertex, root: string, env: Env, x: string)
    requires x in v.fn.vars && x in env
    ensures x in Filter(v, root, env) && Filter(v, root, env)[x] == env[x]
  {
  }

  lemma RunBuilds(lib: Lib, v: Vertex, fi: Env, order: seq<string>, j: nat)
    requires IsImage(v.fn.ftype) && IsOrder(order, fi.Keys) && Run(lib, v, fi, order, j).Some?
    ensures RequestAlong(lib, fi, order).Some?
  {
  }

  lemma BuiltIsShallow(lib: Lib, fi: Env, order: seq<string>, x: string)
    requires IsOrder(order, fi.Keys) && RequestAlong(lib, fi, order).Some? && x in fi
    ensures Sendable(lib, fi[x], 2)
  {
    SentConservation(lib, fi, order);
  }

  /** A run of an image whose variable carries k lists more than its base value needs k <= 2
      and a base value that leaves room for them. */
  lemma RunNeedsShallow(lib: Lib, v: Vertex, x: string, root: string, base: Env, o: Orders, j: nat, p: Progress, k: nat)
    requires SelfNamed(lib, v, x, base) && ValidOrders(o) && IsImage(v.fn.ftype)
    requires x in p.env && p.env[x] == Wrap(k, base[x]) && RunOnce(lib, v, root, o, j, p).Some?
    ensures k <= 2 && Sendable(lib, base[x], 2 - k)
  {
    var fi := Filter(v, root, p.env);
    FilterKeeps(v, root, p.env, x);
    RunBuilds(lib, v, fi, EnvOrder(o, j, fi), j);
    BuiltIsShallow(lib, fi, EnvOrder(o, j, fi), x);
    WrapSendable(lib, base[x], k, 2);
  }

  /** Everything else that is kept being sendable, the request of a run builds iff the
      variable carries at most two lists around a base value that leaves room for them. */
  lemma RequestNeedsShallow(lib: Lib, v: Vertex, x: string, root: string, base: Env, env: Env, order: seq<string>,
                            k: nat)
    requires SelfNamed(lib, v, x, base) && IsImage(v.fn.ftype)
    requires x in env && env[x] == Wrap(k, base[x])
    requires forall y :: y in Filter(v, root, env) && y != x ==> Sendable(lib, env[y], 2)
    requires IsOrder(order, Filter(v, root, env).Keys)
    ensures RequestAlong(lib, Filter(v, root, env), order).Some? <==> k <= 2 && Sendable(lib, base[x], 2 - k)
  {
    var fi := Filter(v, root, env);
    FilterKeeps(v, root, env, x);
    SentConservation(lib, fi, order);
    WrapSendable(lib, base[x], k, 2);
  }

  lemma TooDeepFails(lib: Lib, v: Vertex, x: string, root: string, base: Env, o: Orders, j: nat, p: Progress, k: nat)
    requires SelfNamed(lib, v, x, base) && ValidOrders(o) && IsImage(v.fn.ftype)
    requires x in p.env && p.env[x] == Wrap(k, base[x]) && k > 2
    ensures RunOnce(lib, v, root, o, j, p).None?
  {
    if RunOnce(lib, v, root, o, j, p).Some? {
      RunNeedsShallow(lib, v, x, root, base, o, j, p, k);
    }
  }

  /** The run after k turns fails for k >= 2: it would send k + 1 lists. */
  lemma LastRunFails(lib: Lib, v: Vertex, x: string, root: string, base: Env, o: Orders, j: nat, p: Progress, k: nat)
    requires SelfNamed(lib, v, x, base) && ValidOrders(o) && IsImage(v.fn.ftype)
    requires x in p.env && p.env[x] == Wrap(k, base[x]) && k >= 2
    ensures SingleTurn(lib, v, root, o, j, p).None?
  {
    var q := p.(rec := Reset(p.rec));
    ResolutionWraps(lib, v, x, base, o, j, q);
    var r := Resolved(lib, v, o, j, q);
    if r.Some? {
      TooDeepFails(lib, v, x, root, base, o, j, r.value, k + 1);
    }
  }

  /** Hence an image function with such a variable fails over every range of at least two
      items: the loop makes n runs, the single run one more, and the third run is refused. */
  lemma NestingDooms(lib: Lib, v: Vertex, x: string, root: string, base: Env, o: Orders, items: seq<Value>)
    requires SelfNamed(lib, v, x, base) && ValidOrders(o) && IsImage(v.fn.ftype)
    requires PlanOf(lib.jq, v.fn.block, base) == Over(items) && |items| >= 2
    ensures RunVertex(lib, v, root, base, o) == Failure()
  {
    var n, rec := |items|, Reset(NewRecorder(v.fn.ftype));
    PlannedItems(lib.jq, v.fn.block, base);
    var p := Turns(lib, v, root, o, items, n, Progress(base, rec, []));
    if p.Some? {
      TurnsWrap(lib, v, x, root, base, o, items, n, rec);
      LastRunFails(lib, v, x, root, base, o, n, p.value, n);
    }
  }
}
