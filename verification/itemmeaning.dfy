/** What the function types publish when no local variable reads a local variable: the inputs
    of the general theorems in closed form, item by item. */
module ItemMeaning {
  import opened Values
  import opened Outputs
  import opened Functions
  import opened Loop
  import opened RangeLoop
  import opened Isolation
  import opened Images
  import opened Meaning
  import opened Programs

  /** What the first `n` items see, each on its own. */
  ghost function SeenBy(lib: Lib, v: Vertex, base: Env, items: seq<Value>, n: nat): (envs: seq<Env>)
    requires n <= |items| && AllVisible(lib, v, base, items, n)
    ensures |envs| == n && forall k: nat :: k < n ==> envs[k] == SeenAt(lib, v, base, items, k)
  {
    seq(n, k requires 0 <= k < n => SeenAt(lib, v, base, items, k))
  }

  lemma TurnSees(lib: Lib, vars: string -> set<string>, v: Vertex, o: Orders, base: Env, items: seq<Value>, k: nat)
    requires Independent(lib, vars, v) && ValidOrders(o) && k < |items| && AllVisible(lib, v, base, items, k + 1)
    ensures Visible(lib, v, base, items, k)
    ensures LoopEnv(lib, v, o, base, items, k + 1) == Some(SeenAt(lib, v, base, items, k))
  {
    LoopIsolated(lib, vars, v, o, base, items, k + 1);
  }

  /** The loop sees each item on its own. */
  lemma EnvsIsolated(lib: Lib, vars: string -> set<string>, v: Vertex, o: Orders, base: Env, items: seq<Value>, n: nat)
    requires Independent(lib, vars, v) && ValidOrders(o) && n <= |items|
    ensures LoopEnv(lib, v, o, base, items, n).Some? <==> AllVisible(lib, v, base, items, n)
    ensures AllVisible(lib, v, base, items, n) ==>
              Envs(lib, v, o, base, items, n) == SeenBy(lib, v, base, items, n)
  {
    LoopIsolated(lib, vars, v, o, base, items, n);
    if AllVisible(lib, v, base, items, n) {
      var envs, seen := Envs(lib, v, o, base, items, n), SeenBy(lib, v, base, items, n);
      forall k: nat | k < n ensures envs[k] == seen[k] {
        TurnSees(lib, vars, v, o, base, items, k);
      }
    }
  }

  /** A slice publishes what its value program says first on each item on its own. */
  lemma SliceOfItems(lib: Lib, vars: string -> set<string>, v: Vertex, root: string, base: Env, o: Orders,
                     items: seq<Value>)
    requires Independent(lib, vars, v) && ValidOrders(o) && WellTyped(v.outputs) && v.fn.ftype.SliceFn?
    requires GoesOver(lib, v, base, items)
    ensures var n, r := |items|, RunVertex(lib, v, root, base, o);
            if AllVisible(lib, v, base, items, n) && AllYield(lib, v, SeenBy(lib, v, base, items, n)) then
              var seen := SeenBy(lib, v, base, items, n);
              exists xs :: ListOf(lib, v, seen, xs)
                           && r == Execution(Outcome(Some(PublishAll(v.outputs, Arr(xs))), None), seen)
            else r == Failure()
  {
    SliceByProgram(lib, v, root, base, o, items);
    EnvsIsolated(lib, vars, v, o, base, items, |items|);
  }

  /** A map publishes the dictionary that its two programs make of the items, each on its own:
      every key with the value of the last item that yields it. */
  lemma MapOfItems(lib: Lib, vars: string -> set<string>, v: Vertex, root: string, base: Env, o: Orders,
                   items: seq<Value>)
    requires Independent(lib, vars, v) && ValidOrders(o) && WellTyped(v.outputs) && v.fn.ftype.MapFn?
    requires GoesOver(lib, v, base, items)
    ensures var n, r := |items|, RunVertex(lib, v, root, base, o);
            if AllVisible(lib, v, base, items, n) && AllPair(lib, v, SeenBy(lib, v, base, items, n)) then
              var seen := SeenBy(lib, v, base, items, n);
              exists dict :: DictOf(lib, v, seen, dict)
                             && r == Execution(Outcome(Some(PublishAll(v.outputs, Obj(dict))), None), seen)
            else r == Failure()
  {
    MapByPrograms(lib, v, root, base, o, items);
    EnvsIsolated(lib, vars, v, o, base, items, |items|);
  }

  /** The single run after the loop sees the last item once more. */
  lemma SeenTwice(lib: Lib, vars: string -> set<string>, v: Vertex, o: Orders, base: Env, items: seq<Value>)
    requires Independent(lib, vars, v) && ValidOrders(o) && items != []
    ensures LastEnv(lib, v, o, base, items).Some? <==> AllVisible(lib, v, base, items, |items|)
    ensures AllVisible(lib, v, base, items, |items|) ==>
              && Envs(lib, v, o, base, items, |items|) == SeenBy(lib, v, base, items, |items|)
              && LastEnv(lib, v, o, base, items) == Some(SeenBy(lib, v, base, items, |items|)[|items| - 1])
  {
    LastIsolated(lib, vars, v, o, base, items);
    EnvsIsolated(lib, vars, v, o, base, items, |items|);
  }

  /** What the runs of the loop and the single run see. */
  ghost function SeenAndAgain(lib: Lib, v: Vertex, base: Env, items: seq<Value>): seq<Env>
    requires items != [] && AllVisible(lib, v, base, items, |items|)
  {
    var seen := SeenBy(lib, v, base, items, |items|);
    seen + [seen[|items| - 1]]
  }

  /** A template over n items publishes exactly the instance for the last item. */
  lemma TemplateOfItems(lib: Lib, vars: string -> set<string>, v: Vertex, root: string, base: Env, o: Orders,
                        items: seq<Value>)
    requires Independent(lib, vars, v) && ValidOrders(o) && WellTyped(v.outputs) && v.fn.ftype.GoTemplateFn?
    requires GoesOver(lib, v, base, items) && items != []
    ensures var n, r := |items|, RunVertex(lib, v, root, base, o);
            if AllVisible(lib, v, base, items, n) && AllInstances(lib, v, SeenBy(lib, v, base, items, n)) then
              exists x :: Instance(lib, v, SeenBy(lib, v, base, items, n)[n - 1], x)
                          && r == Execution(Outcome(Some(PublishAll(v.outputs, Arr([x]))), None),
                                            SeenAndAgain(lib, v, base, items))
            else r == Failure()
  {
    TemplateByText(lib, v, root, base, o, items);
    SeenTwice(lib, vars, v, o, base, items);
    if AllVisible(lib, v, base, items, |items|) {
      var seen := SeenBy(lib, v, base, items, |items|);
      InstancesAndOne(lib, v, seen, seen[|items| - 1]);
    }
  }

  /** jq, query and block do their one run on the last item. */
  lemma BindingOfItems(lib: Lib, vars: string -> set<string>, v: Vertex, root: string, base: Env, o: Orders,
                       items: seq<Value>)
    requires Independent(lib, vars, v) && ValidOrders(o) && WellTyped(v.outputs)
    requires v.fn.ftype.JqFn? || v.fn.ftype.QueryFn? || v.fn.ftype.BlockFn?
    requires GoesOver(lib, v, base, items) && items != []
    ensures var n, r := |items|, RunVertex(lib, v, root, base, o);
            if !AllVisible(lib, v, base, items, n) then r == Failure() else
              var env := SeenBy(lib, v, base, items, n)[n - 1];
              if v.fn.ftype.BlockFn? then
                r == if v.blockRoot.Some? then Execution(Outcome(Some(map[]), None), [env]) else Failure()
              else if HasResult(lib, v, env) then
                exists x :: Computes(lib, v, env, x)
                            && r == Execution(Outcome(Some(PublishAll(v.outputs, x)), None), [env])
              else r == Failure()
  {
    SeenTwice(lib, vars, v, o, base, items);
    if v.fn.ftype.BlockFn? {
      BlockGoesAhead(lib, v, root, base, o, items);
    } else {
      ComputedOnce(lib, v, root, base, o, items);
    }
  }

  /** An image calls its executor for every item on its own, and twice for the last one. */
  lemma ImageOfItems(lib: Lib, vars: string -> set<string>, v: Vertex, root: string, base: Env, o: Orders,
                     items: seq<Value>)
    requires Independent(lib, vars, v) && OneKindPerVar(v) && ValidOrders(o) && IsImage(v.fn.ftype)
    requires GoesOver(lib, v, base, items) && items != []
    ensures var n, r := |items|, RunVertex(lib, v, root, base, o);
            if AllVisible(lib, v, base, items, n) && AllReply(lib, v, root, o, SeenAndAgain(lib, v, base, items)) then
              var envs := SeenAndAgain(lib, v, base, items);
              && Sends(v, root, envs, r.runs)
              && exists resps :: RepliesAre(lib, v, root, o, envs, resps) && LastReplyWins(v, resps, r.outcome)
            else r == Failure()
  {
    ImageByCalls(lib, v, root, base, o, items);
    SeenTwice(lib, vars, v, o, base, items);
  }
}
