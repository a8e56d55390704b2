/** What a container or wasm function can notice of its input, and hence when it may move to
    another DAG, whose root variable it reads instead of its own. */
module Portable {
  import opened Values
  import opened Outputs
  import opened Jq
  import opened Functions
  import opened Loop

  ghost function RangeReads(vars: string -> set<string>, range: Option<string>): set<string> {
    if range.Some? then vars(range.value) else {}
  }

  ghost function BlockReads(vars: string -> set<string>, b: BlockCfg): set<string> {
    RangeReads(vars, b.range)
    + if b.condition.Some? then vars(b.condition.value.expression) + RangeReads(vars, b.condition.value.range) else {}
  }

  ghost function VarReads(vars: string -> set<string>, v: Vertex): set<string> {
    set x, y | x in v.fn.vars && y in vars(v.fn.vars[x]) :: y
  }

  /** The names that an image can notice: those its programs read, and the root variable of
      the pipeline if it has local variables to be sent along with. */
  ghost function Noticed(vars: string -> set<string>, v: Vertex, root: string): set<string> {
    BlockReads(vars, v.fn.block) + VarReads(vars, v) + if v.fn.vars == map[] then {} else {root}
  }

  lemma PlanAgrees(lib: Lib, vars: string -> set<string>, b: BlockCfg, env: Env, env': Env)
    requires ReadsOnly(lib.jq, vars) && Agree(env, env', BlockReads(vars, b))
    ensures PlanOf(lib.jq, b, env) == PlanOf(lib.jq, b, env')
  {
    if b.range.Some? {
      assert Agree(env, env', vars(b.range.value));
    }
    if b.condition.Some? {
      assert Agree(env, env', vars(b.condition.value.expression));
      if b.condition.value.range.Some? {
        assert Agree(env, env', vars(b.condition.value.range.value));
      }
    }
  }

  lemma SetAgrees(env: Env, env': Env, names: set<string>, x: string, y: Value)
    requires Agree(env, env', names)
    ensures Agree(env[x := y], env'[x := y], names + {x})
  {
    forall k | k in names + {x} ensures Same(env[x := y], env'[x := y], k) {
      if k != x {
        assert Same(env, env', k);
      }
    }
  }

  lemma FewerAgree(env: Env, env': Env, names: set<string>, fewer: set<string>)
    requires Agree(env, env', names) && fewer <= names
    ensures Agree(env, env', fewer)
  {
  }

  /** Resolving on inputs that agree on what is read leaves them agreeing on the results too. */
  lemma {:induction false} ResolveAgrees(lib: Lib, vars: string -> set<string>, v: Vertex, order: seq<string>, env: Env,
                                         env': Env, names: set<string>)
    requires ReadsOnly(lib.jq, vars) && Agree(env, env', names) && VarReads(vars, v) <= names
    requires forall i :: 0 <= i < |order| ==> order[i] in v.fn.vars
    ensures var e, e' := Resolve(lib.jq, v.fn.vars, order, env), Resolve(lib.jq, v.fn.vars, order, env');
            e.Some? == e'.Some? && (e.Some? ==> Agree(e.value, e'.value, names + set x | x in order))
    decreases |order|
  {
    if order == [] {
      assert names + (set x | x in order) == names;
    } else {
      var x, rest := order[0], order[1..];
      FewerAgree(env, env', names, vars(v.fn.vars[x]));
      var r := RunJq(lib.jq, v.fn.vars[x], env);
      if r.Some? {
        SetAgrees(env, env', names, x, r.value);
        ResolveAgrees(lib, vars, v, rest, env[x := r.value], env'[x := r.value], names + {x});
        assert names + (set y | y in order) == names + {x} + (set y | y in rest);
      }
    }
  }

  /** The same execution on inputs that differ in nothing an image can notice. */
  ghost predicate Twins(p: Option<Progress>, p': Option<Progress>, names: set<string>) {
    && p.Some? == p'.Some?
    && (p.Some? ==>
          && Agree(p.value.env, p'.value.env, names)
          && p.value.rec == p'.value.rec && p.value.runs == p'.value.runs)
  }

  lemma SameFiltered(v: Vertex, root: string, env: Env, env': Env)
    requires IsImage(v.fn.ftype) && Agree(env, env', v.fn.vars.Keys)
    requires v.fn.vars != map[] ==> Agree(env, env', {root})
    ensures Filter(v, root, env) == Filter(v, root, env')
  {
    var fi, fi' := Filter(v, root, env), Filter(v, root, env');
    forall k ensures Same(fi, fi', k) {
      if k in v.fn.vars || k == root {
        assert v.fn.vars != map[] ==> Same(env, env', k);
      }
    }
    SameEverywhere(fi, fi');
  }

  /** A resolution and the run that follows it. */
  lemma RunAgrees(lib: Lib, vars: string -> set<string>, v: Vertex, root: string, o: Orders, j: nat, p: Progress,
                  p': Progress)
    requires ReadsOnly(lib.jq, vars) && ValidOrders(o) && IsImage(v.fn.ftype)
    requires Twins(Some(p), Some(p'), Noticed(vars, v, root))
    ensures var r, r' := Resolved(lib, v, o, j, p), Resolved(lib, v, o, j, p');
            && r.Some? == r'.Some?
            && (r.Some? ==> Twins(RunOnce(lib, v, root, o, j, r.value), RunOnce(lib, v, root, o, j, r'.value),
                                  Noticed(vars, v, root)))
  {
    var names, order := Noticed(vars, v, root), VarOrder(o, j, v);
    ResolveAgrees(lib, vars, v, order, p.env, p'.env, names);
    var r, r' := Resolved(lib, v, o, j, p), Resolved(lib, v, o, j, p');
    if r.Some? {
      var all := names + set x | x in order;
      assert v.fn.vars.Keys <= all;
      FewerAgree(r.value.env, r'.value.env, all, v.fn.vars.Keys);
      FewerAgree(r.value.env, r'.value.env, all, names);
      if v.fn.vars != map[] {
        FewerAgree(r.value.env, r'.value.env, all, {root});
      }
      SameFiltered(v, root, r.value.env, r'.value.env);
    }
  }

  lemma BindAgrees(env: Env, env': Env, names: set<string>, item: Value, n: nat)
    requires Agree(env, env', names)
    ensures Agree(Bind(env, item, n), Bind(env', item, n), names)
  {
    SetAgrees(env, env', names, "VALUE", item);
    SetAgrees(env["VALUE" := item], env'["VALUE" := item], names + {"VALUE"}, "KEY", Str(Decimal(n)));
    var e, e' := env["VALUE" := item]["KEY" := Str(Decimal(n))], env'["VALUE" := item]["KEY" := Str(Decimal(n))];
    SetAgrees(e, e', names + {"VALUE"} + {"KEY"}, "INDEX", Num(n));
  }

  lemma {:induction false} TurnsAgree(lib: Lib, vars: string -> set<string>, v: Vertex, root: string, o: Orders,
                                      items: seq<Value>, n: nat, p: Progress, p': Progress)
    requires ReadsOnly(lib.jq, vars) && ValidOrders(o) && IsImage(v.fn.ftype) && n <= |items|
    requires Twins(Some(p), Some(p'), Noticed(vars, v, root))
    ensures Twins(Turns(lib, v, root, o, items, n, p), Turns(lib, v, root, o, items, n, p'), Noticed(vars, v, root))
  {
    if n > 0 {
      TurnsAgree(lib, vars, v, root, o, items, n - 1, p, p');
      var q, q' := Turns(lib, v, root, o, items, n - 1, p), Turns(lib, v, root, o, items, n - 1, p');
      if q.Some? && !items[n - 1].Null? {
        BindAgrees(q.value.env, q'.value.env, Noticed(vars, v, root), items[n - 1], n - 1);
        RunAgrees(lib, vars, v, root, o, n - 1, q.value.(env := Bind(q.value.env, items[n - 1], n - 1)),
                  q'.value.(env := Bind(q'.value.env, items[n - 1], n - 1)));
      }
    }
  }

  lemma SingleAgrees(lib: Lib, vars: string -> set<string>, v: Vertex, root: string, o: Orders, j: nat, p: Progress,
                     p': Progress)
    requires ReadsOnly(lib.jq, vars) && ValidOrders(o) && IsImage(v.fn.ftype)
    requires Twins(Some(p), Some(p'), Noticed(vars, v, root))
    ensures Finished(v, o, SingleTurn(lib, v, root, o, j, p)) == Finished(v, o, SingleTurn(lib, v, root, o, j, p'))
  {
    RunAgrees(lib, vars, v, root, o, j, p.(rec := Reset(p.rec)), p'.(rec := Reset(p'.rec)));
  }

  /** An image does the same on inputs that agree on what it can notice. */
  lemma ImageNotices(lib: Lib, vars: string -> set<string>, v: Vertex, root: string, env: Env, env': Env, o: Orders)
    requires ReadsOnly(lib.jq, vars) && ValidOrders(o) && IsImage(v.fn.ftype)
    requires Agree(env, env', Noticed(vars, v, root))
    ensures RunVertex(lib, v, root, env, o) == RunVertex(lib, v, root, env', o)
  {
    FewerAgree(env, env', Noticed(vars, v, root), BlockReads(vars, v.fn.block));
    PlanAgrees(lib, vars, v.fn.block, env, env');
    var p, p' := Progress(env, NewRecorder(v.fn.ftype), []), Progress(env', NewRecorder(v.fn.ftype), []);
    match PlanOf(lib.jq, v.fn.block, env) {
      case Once => SingleAgrees(lib, vars, v, root, o, 0, p, p');
      case Over(items) =>
        var q, q' := p.(rec := Reset(p.rec)), p'.(rec := Reset(p'.rec));
        TurnsAgree(lib, vars, v, root, o, items, |items|, q, q');
        var r, r' := Turns(lib, v, root, o, items, |items|, q), Turns(lib, v, root, o, items, |items|, q');
        if r.Some? {
          SingleAgrees(lib, vars, v, root, o, |items|, r.value, r'.value);
        }
      case _ =>
    }
  }
}
