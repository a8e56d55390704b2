/** The generic execution of a function: range, condition, local variables, single run. */
module Loop {
  import opened Values
  import opened Outputs
  import opened Jq
  import opened Functions

  /** What range and condition of a function ask for. */
  datatype Plan = Broken | Unmet | Empty | Once | Over(items: seq<Value>)

  /** The range of the block, then its condition, then the range inside the condition,
      which replaces the outer one. */
  function PlanOf(jq: Evaluator, b: BlockCfg, env: Env): Plan {
    var outer := if b.range.Some? then RangeItems(jq(b.range.value, env)) else Some([]);
    if outer.None? then Broken
    else if b.condition.None? then Planned(b.range.Some?, outer.value)
    else
      var c := b.condition.value;
      var met := if c.expression != "" then Condition(jq(c.expression, env)) else Some(true);
      if met.None? then Broken
      else if !met.value then Unmet
      else if c.range.None? then Planned(b.range.Some?, outer.value)
      else
        var nested := RangeItems(jq(c.range.value, env));
        if nested.None? then Broken else Planned(true, nested.value)
  }

  /** A range inside a condition that holds replaces the outer range, which only has to
      evaluate; without one the outer range stands; a false condition overrides both. */
  lemma NestedRangeReplaces(jq: Evaluator, outer: string, c: ConditionCfg, env: Env)
    requires RangeItems(jq(outer, env)).Some?
    ensures var b := BlockCfg(Some(outer), Some(c));
            var met := c.expression == "" || Yields(jq(c.expression, env), Bool(true));
            && (met && c.range.Some? ==> PlanOf(jq, b, env) == PlanOf(jq, BlockCfg(c.range, None), env))
            && (met && c.range.None? ==> PlanOf(jq, b, env) == PlanOf(jq, BlockCfg(Some(outer), None), env))
            && (PlanOf(jq, b, env) == Unmet <==> c.expression != "" && Yields(jq(c.expression, env), Bool(false)))
  {
    ConditionExact(jq(c.expression, env), true);
    ConditionExact(jq(c.expression, env), false);
  }

  function Planned(isRange: bool, items: seq<Value>): Plan {
    if !isRange then Once else if items == [] then Empty else Over(items)
  }

  /** resolveLocalVars in the given order: later expressions see earlier results. */
  function Resolve(jq: Evaluator, vars: map<string, string>, order: seq<string>, env: Env): Option<Env>
    requires forall i :: 0 <= i < |order| ==> order[i] in vars
  {
    if order == [] then Some(env) else
      var v := RunJq(jq, vars[order[0]], env);
      if v.None? then None else Resolve(jq, vars, order[1..], env[order[0] := v.value])
  }

  /** The entries a range item adds to the input. */
  function Bind(env: Env, item: Value, n: nat): Env {
    env["VALUE" := item]["KEY" := Str(Decimal(n))]["INDEX" := Num(n)]
  }

  /** A function execution under way: its Input, its result fields and the inputs of all
      runs so far. */
  datatype Progress = Progress(env: Env, rec: Recorder, runs: seq<Env>)

  /** The j-th resolution, request, response and the publication iterate over maps at
      separate times, so each has its own order. */
  function VarOrder(o: Orders, j: nat, v: Vertex): seq<string> { o(4 * j, v.fn.vars.Keys) }
  function EnvOrder(o: Orders, j: nat, env: Env): seq<string> { o(4 * j + 1, env.Keys) }
  function RespOrder(o: Orders, j: nat, x: RunOut): seq<string> { if x.Ctx? then o(4 * j + 2, x.resp.Keys) else [] }
  function OutOrder(o: Orders, v: Vertex): seq<string> { o(3, v.outputs.Keys) }

  /** One run of the function on the current input, and the recording of its result. */
  ghost function RunOnce(lib: Lib, v: Vertex, root: string, o: Orders, j: nat, p: Progress): Option<Progress>
    requires ValidOrders(o)
  {
    var fi := Filter(v, root, p.env);
    var x := Run(lib, v, fi, EnvOrder(o, j, fi), j);
    if x.None? then None
    else Some(Progress(p.env, Record(v, p.rec, x.value, RespOrder(o, j, x.value)), p.runs + [fi]))
  }

  ghost function Resolved(lib: Lib, v: Vertex, o: Orders, j: nat, p: Progress): Option<Progress>
    requires ValidOrders(o)
  {
    var e := Resolve(lib.jq, v.fn.vars, VarOrder(o, j, v), p.env);
    if e.None? then None else Some(p.(env := e.value))
  }

  /** One turn of the range loop. */
  ghost function Turn(lib: Lib, v: Vertex, root: string, o: Orders, n: nat, item: Value, p: Progress): Option<Progress>
    requires ValidOrders(o)
  {
    if item.Null? then Some(p) else
      var r := Resolved(lib, v, o, n, p.(env := Bind(p.env, item, n)));
      if r.None? || !ExecutesRange(v.fn.ftype) then r else RunOnce(lib, v, root, o, n, r.value)
  }

  /** The range loop over the first `n` items. */
  ghost function Turns(lib: Lib, v: Vertex, root: string, o: Orders, items: seq<Value>, n: nat,
                       p: Progress): Option<Progress>
    requires ValidOrders(o) && n <= |items|
  {
    if n == 0 then Some(p) else
      var before := Turns(lib, v, root, o, items, n - 1, p);
      if before.None? then None else Turn(lib, v, root, o, n - 1, items[n - 1], before.value)
  }

  /** The single run after the loop; there is no `else` between the two. */
  ghost function SingleTurn(lib: Lib, v: Vertex, root: string, o: Orders, j: nat, p: Progress): Option<Progress>
    requires ValidOrders(o)
  {
    if !ExecutesSingle(v.fn.ftype) then Some(p) else
      var r := Resolved(lib, v, o, j, p.(rec := Reset(p.rec)));
      if r.None? then None else RunOnce(lib, v, root, o, j, r.value)
  }

  datatype Execution = Execution(outcome: Outcome, runs: seq<Env>)

  function Failure(): Execution { Execution(Outcome(None, Some(Failed)), []) }

  ghost function Finished(v: Vertex, o: Orders, p: Option<Progress>): Execution
    requires ValidOrders(o)
  {
    if p.None? then Failure() else Execution(FinalResult(v, p.value.rec, OutOrder(o, v)), p.value.runs)
  }

  /** fnExecConfig.exec, as a function of the gathered input and Go's map orders. */
  ghost function Exec(lib: Lib, v: Vertex, root: string, env: Env, o: Orders): Execution
    requires ValidOrders(o)
  {
    var start := Progress(env, NewRecorder(v.fn.ftype), []);
    match PlanOf(lib.jq, v.fn.block, env)
    case Broken => Failure()
    case Unmet => Execution(Outcome(Some(map[]), Some(ConditionFalse)), [])
    case Empty => Execution(Outcome(None, None), [])
    case Once => Finished(v, o, SingleTurn(lib, v, root, o, 0, start))
    case Over(items) =>
      var p := Turns(lib, v, root, o, items, |items|, start.(rec := Reset(start.rec)));
      Finished(v, o, if p.None? then None else SingleTurn(lib, v, root, o, |items|, p.value))
  }

  /** fnMap.Run: an unregistered type is an error. */
  ghost function RunVertex(lib: Lib, v: Vertex, root: string, env: Env, o: Orders): Execution
    requires ValidOrders(o)
  {
    if v.fn.ftype.OtherFn? then Failure() else Exec(lib, v, root, env, o)
  }
}
