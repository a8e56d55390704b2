/** When the vertices nested in a block get their turn, on the streams of the block's programs. */
module Entering {
  import opened Values
  import opened Outputs
  import opened Jq
  import opened Functions
  import opened Loop
  import opened Plans
  import opened RangeLoop
  import opened Images
  import opened Meaning
  import opened Programs
  import opened Vertices
  import opened Nets
  import opened Runs
  import opened Dataflow
  import opened Pipelines
  import opened Gathering

  /** Range and condition let the block run over `items`, and its variables resolve. */
  ghost predicate RunsOver(lib: Lib, v: Vertex, o: Orders, env: Env, items: seq<Value>)
    requires ValidOrders(o)
  {
    && Admits(lib.jq, v.fn.block, env)
    && (if RangeOf(v.fn.block).None? then items == [] else items != [] && Offers(lib.jq, v.fn.block, env, items))
    && LastEnv(lib, v, o, env, items).Some?
  }

  ghost predicate GoesAhead(lib: Lib, v: Vertex, o: Orders, env: Env)
    requires ValidOrders(o)
  {
    exists items :: RunsOver(lib, v, o, env, items)
  }

  lemma PlanGoesOver(lib: Lib, v: Vertex, env: Env, items: seq<Value>)
    ensures GoesOver(lib, v, env, items) <==>
            && Admits(lib.jq, v.fn.block, env)
            && if RangeOf(v.fn.block).None? then items == []
               else items != [] && Offers(lib.jq, v.fn.block, env, items)
  {
    PlanExact(lib.jq, v.fn.block, env);
  }

  lemma EnteredExact(lib: Lib, v: Vertex, root: string, env: Env, o: Orders)
    requires ValidOrders(o) && WellTyped(v.outputs) && v.fn.ftype.BlockFn? && v.blockRoot.Some?
    ensures Entered(RunVertex(lib, v, root, env, o).outcome) <==> GoesAhead(lib, v, o, env)
  {
    forall items ensures GoesOver(lib, v, env, items) && LastEnv(lib, v, o, env, items).Some? <==>
                         RunsOver(lib, v, o, env, items) {
      PlanGoesOver(lib, v, env, items);
    }
    match PlanOf(lib.jq, v.fn.block, env) {
      case Once =>
        assert GoesOver(lib, v, env, []);
        BlockGoesAhead(lib, v, root, env, o, []);
      case Over(items) =>
        assert GoesOver(lib, v, env, items);
        BlockGoesAhead(lib, v, root, env, o, items);
      case _ =>
        assert forall items :: !GoesOver(lib, v, env, items);
    }
  }

  /** In every complete run of a well-formed pipeline: a vertex nested in a block is reached iff
      the block was executed and goes ahead on what the final store offers it. */
  lemma NestedRunsExactly(lib: Lib, vars: string -> set<string>, p: Pipeline, rank: Id -> nat, gvk: Option<string>,
                          data: Value, acts: seq<Act>, b: Id, m: Id, env: Env, o: Orders)
    requires WellFormed(lib, vars, p, rank) && IsRun(NetOf(lib, p), Seed(p, gvk, data), acts) && ValidOrders(o)
    requires Complete(After(NetOf(lib, p), Seed(p, gvk, data), acts))
    requires b in p.places && m in p.places && p.places[m].owner == Some(b)
    requires InputFrom(env, InputNames(p, b), After(NetOf(lib, p), Seed(p, gvk, data), acts).store)
    ensures var fate := FatesOf(After(NetOf(lib, p), Seed(p, gvk, data), acts));
            m in fate <==> b in fate && fate[b].Ran? && GoesAhead(lib, p.places[b].v, o, env)
  {
    var net, seed := NetOf(lib, p), Seed(p, gvk, data);
    var v := p.places[b].v;
    BlocksOwn(lib, p, rank, b, m);
    MeaningOnInput(lib, vars, p, rank, After(net, seed, acts).store, b, env, o);
    assert Steady(lib, vars, v, p.root);
    EnteredExact(lib, v, p.root, env, o);
    WellFormedIsSound(lib, vars, p, rank);
    ReachedInTheEnd(net, rank, seed, acts, b, m);
  }

  lemma BlocksOwn(lib: Lib, p: Pipeline, rank: Id -> nat, b: Id, m: Id)
    requires Ranked(NetOf(lib, p), rank) && b in p.places && m in p.places && p.places[m].owner == Some(b)
    ensures p.places[b].v.fn.ftype.BlockFn? && p.places[b].v.blockRoot.Some?
    ensures m in NetOf(lib, p).nodes && NetOf(lib, p).nodes[m].owner == Some(b) && b in NetOf(lib, p).nodes
  {
    assert NetOf(lib, p).nodes[m].owner == Some(b);
    assert NetOf(lib, p).nodes[b].inner.Some?;
  }

  lemma ReachedInTheEnd(net: Net, rank: Id -> nat, seed: Store, acts: seq<Act>, b: Id, m: Id)
    requires Sound(net, rank) && IsRun(net, seed, acts) && Complete(After(net, seed, acts))
    requires m in net.nodes && net.nodes[m].owner == Some(b) && b in net.nodes
    ensures var s := After(net, seed, acts);
            m in FatesOf(s) <==>
            b in FatesOf(s) && FatesOf(s)[b].Ran? && Entered(Runs.Meaning(net, s.store, b))
  {
    FinalStateSolves(net, rank, seed, acts);
    var s := After(net, seed, acts);
    assert SolvedAt(net, seed, s.store, FatesOf(s), m);
  }

  lemma NoVariablesToResolve(lib: Lib, v: Vertex, o: Orders, env: Env)
    requires ValidOrders(o) && v.fn.vars == map[]
    ensures LastEnv(lib, v, o, env, []).Some?
  {
    NoKeysNoOrder(VarOrder(o, 0, v), v.fn.vars.Keys);
  }

  lemma SimpleCondition(lib: Lib, v: Vertex, o: Orders, env: Env, exp: string)
    requires ValidOrders(o) && v.fn.vars == map[]
    requires v.fn.block == BlockCfg(None, Some(ConditionCfg(exp, None))) && exp != ""
    ensures GoesAhead(lib, v, o, env) <==> Yields(lib.jq(exp, env), Bool(true))
  {
    NoVariablesToResolve(lib, v, o, env);
    assert RunsOver(lib, v, o, env, []) <==> Yields(lib.jq(exp, env), Bool(true));
    assert forall items :: RunsOver(lib, v, o, env, items) ==> items == [];
  }

  /** A block with a condition and neither range nor variables, as conditionalBlockImplA of
      examples/upf.yaml: its vertices are reached iff it is executed and the first thing its
      expression says is true. */
  lemma ConditionDecides(lib: Lib, vars: string -> set<string>, p: Pipeline, rank: Id -> nat, gvk: Option<string>,
                         data: Value, acts: seq<Act>, b: Id, m: Id, env: Env, exp: string)
    requires WellFormed(lib, vars, p, rank) && IsRun(NetOf(lib, p), Seed(p, gvk, data), acts)
    requires Complete(After(NetOf(lib, p), Seed(p, gvk, data), acts))
    requires b in p.places && m in p.places && p.places[m].owner == Some(b)
    requires p.places[b].v.fn.block == BlockCfg(None, Some(ConditionCfg(exp, None))) && exp != ""
    requires p.places[b].v.fn.vars == map[]
    requires InputFrom(env, InputNames(p, b), After(NetOf(lib, p), Seed(p, gvk, data), acts).store)
    ensures var fate := FatesOf(After(NetOf(lib, p), Seed(p, gvk, data), acts));
            m in fate <==> b in fate && fate[b].Ran? && Yields(lib.jq(exp, env), Bool(true))
  {
    CanonicalIsValid();
    NestedRunsExactly(lib, vars, p, rank, gvk, data, acts, b, m, env, Canonical());
    SimpleCondition(lib, p.places[b].v, Canonical(), env, exp);
  }
}
