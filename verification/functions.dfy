/** The function types of a pipeline: what one run computes, how results are recorded
    and what is published in the end. */
module Functions {
  import opened Values
  import opened Outputs
  import opened Jq

  datatype FnType =
    | RootFn | BlockFn | SliceFn | MapFn | QueryFn | GoTemplateFn | JqFn | WasmFn | ContainerFn
    | OtherFn(name: string)

  datatype ConditionCfg = ConditionCfg(expression: string, range: Option<string>)
  datatype BlockCfg = BlockCfg(range: Option<string>, condition: Option<ConditionCfg>)
  datatype InputCfg = InputCfg(key: string, value: string, expression: string, resource: string, template: string)

  datatype Function = Function(
    ftype: FnType,
    block: BlockCfg,
    vars: map<string, string>,
    input: InputCfg,
    image: string)

  /** A vertex context. `blockRoot` is the root vertex name of its nested DAG, if any. */
  datatype Vertex = Vertex(
    name: string,
    fn: Function,
    refs: seq<string>,
    outputs: Store,
    gvkToVar: map<string, string>,
    blockRoot: Option<string>)

  /** One resource of a function response: whether it decodes as an object with a kind,
      and the generic object it decodes to. */
  datatype Raw = Raw(hasKind: bool, fields: Option<Value>)
  type Response = map<string, seq<Raw>>

  /** The resources of a request, per kind and in the order in which they were added. */
  type Request = map<string, seq<Value>>

  /** The `n`-th call of the executor service that a vertex makes. */
  datatype Call = Call(vertex: string, n: nat, image: string, request: Request)

  /** Everything outside the repository, as deterministic functions. `accepts` says whether
      a value decodes as an object that a request takes, `kindOf` under which kind. */
  datatype Lib = Lib(
    jq: Evaluator,
    template: (string, Env) -> Option<Value>,
    list: string -> Option<Value>,
    accepts: Value -> bool,
    kindOf: Value -> string,
    execute: Call -> Option<Response>)

  /** What `run` returns: a value, a key/value pair, a resource context or nil. */
  datatype RunOut = Single(v: Value) | Pair(key: string, v: Value) | Ctx(resp: Response) | Unit

  datatype ImageErr = WrongType | Undecodable | UnknownVar | WrongEntry

  /** The result fields of a function object. */
  datatype Recorder =
    | Nothing
    | Items(items: seq<Value>)
    | Pairs(dict: map<string, Value>)
    | Last(v: Value)
    | Image(out: Store, errs: seq<ImageErr>)

  predicate IsImage(t: FnType) { t.WasmFn? || t.ContainerFn? }

  predicate ExecutesRange(t: FnType) { t.SliceFn? || t.MapFn? || t.GoTemplateFn? || IsImage(t) }

  predicate ExecutesSingle(t: FnType) { t.BlockFn? || t.QueryFn? || t.JqFn? || t.GoTemplateFn? || IsImage(t) }

  function NewRecorder(t: FnType): Recorder {
    if t.SliceFn? || t.GoTemplateFn? || t.BlockFn? then Items([])
    else if t.MapFn? then Pairs(map[])
    else if t.JqFn? || t.QueryFn? then Last(Null)
    else if IsImage(t) then Image(map[], [])
    else Nothing
  }

  /** initOutput: the image keeps its errors, jq and query keep everything. */
  function Reset(r: Recorder): Recorder {
    match r
    case Items(_) => Items([])
    case Pairs(_) => Pairs(map[])
    case Image(_, errs) => Image(map[], errs)
    case _ => r
  }

  // --------------------------------------------------------------- image: requests

  /** filterInput of an image: local variables and the root variable, and nothing at all
      when there are no local variables. */
  function FilterImage(vars: map<string, string>, root: string, env: Env): Env {
    map k | k in env && vars != map[] && (k in vars || k == root) :: env[k]
  }

  function Filter(v: Vertex, root: string, env: Env): Env {
    if IsImage(v.fn.ftype) then FilterImage(v.fn.vars, root, env) else env
  }

  /** The objects of the elements of a list nested `depth` levels above the innermost
      list a request accepts; None for anything else found there. */
  function ListObjects(lib: Lib, xs: seq<Value>, inner: bool): Option<seq<Value>>
    decreases if inner then 0 else 1, |xs|
  {
    if xs == [] then Some([]) else
      var first := ElementObjects(lib, xs[0], inner);
      var rest := ListObjects(lib, xs[1..], inner);
      if first.None? || rest.None? then None else Some(first.value + rest.value)
  }

  /** The objects that one element of a list contributes. */
  function ElementObjects(lib: Lib, x: Value, inner: bool): Option<seq<Value>>
    decreases if inner then 0 else 1, 0
  {
    match x
    case Obj(_) => if lib.accepts(x) then Some([x]) else None
    case Arr(ys) => if inner then None else ListObjects(lib, ys, true)
    case _ => None
  }

  /** The objects that one input variable contributes to the request. */
  function VarObjects(lib: Lib, v: Value): Option<seq<Value>> {
    match v
    case Obj(_) => if lib.accepts(v) then Some([v]) else None
    case Arr(xs) => ListObjects(lib, xs, false)
    case _ => None
  }

  /** The objects that buildResourceContextResources adds, in the order it adds them. */
  function RequestAlong(lib: Lib, env: Env, order: seq<string>): Option<seq<Value>>
    requires forall i :: 0 <= i < |order| ==> order[i] in env
  {
    if order == [] then Some([]) else
      var first := VarObjects(lib, env[order[0]]);
      var rest := RequestAlong(lib, env, order[1..]);
      if first.None? || rest.None? then None else Some(first.value + rest.value)
  }

  function AddResource(lib: Lib, r: Request, x: Value): Request {
    r[lib.kindOf(x) := (if lib.kindOf(x) in r then r[lib.kindOf(x)] else []) + [x]]
  }

  function Grouped(lib: Lib, xs: seq<Value>): Request {
    if xs == [] then map[] else AddResource(lib, Grouped(lib, xs[..|xs| - 1]), xs[|xs| - 1])
  }

  /** buildResourceContextResources, visiting the input in the given order. */
  function BuiltRequest(lib: Lib, env: Env, order: seq<string>): Option<Request>
    requires forall i :: 0 <= i < |order| ==> order[i] in env
  {
    var sent := RequestAlong(lib, env, order);
    if sent.None? then None else Some(Grouped(lib, sent.value))
  }

  // -------------------------------------------------------------- image: responses

  function Usable(raw: Raw): bool { raw.hasKind && raw.fields.Some? }

  /** The resources decoded before the first failure. */
  function Decoded(raws: seq<Raw>): seq<Value> {
    if raws == [] || !Usable(raws[0]) then [] else [raws[0].fields.value] + Decoded(raws[1..])
  }

  function AllUsable(raws: seq<Raw>): bool {
    forall i :: 0 <= i < |raws| ==> Usable(raws[i])
  }

  function Published(oi: OutputInfo, data: Value): Entry {
    Info(OutputInfo(oi.isInternal, false, oi.gvk, data))
  }

  /** The loop of image.recordOutput over the response in the given order. */
  function RecordResponse(v: Vertex, r: Recorder, resp: Response, order: seq<string>): Recorder
    requires r.Image? && forall i :: 0 <= i < |order| ==> order[i] in resp
    ensures RecordResponse(v, r, resp, order).Image?
    decreases |order|
  {
    if order == [] then r
    else if order[0] !in v.gvkToVar then RecordResponse(v, r, resp, order[1..])
    else
      var raws, varName := resp[order[0]], v.gvkToVar[order[0]];
      var errs := if AllUsable(raws) then r.errs else r.errs + [Undecodable];
      if varName !in v.outputs then Image(r.out, errs + [UnknownVar])
      else if v.outputs[varName].Foreign? then Image(r.out, errs + [WrongEntry])
      else
        var out := r.out[varName := Published(v.outputs[varName].info, Arr(Decoded(raws)))];
        RecordResponse(v, Image(out, errs), resp, order[1..])
  }

  // --------------------------------------------------------------- record, publish

  /** recordOutput of the function types; `at` numbers the iteration over a response. */
  function Record(v: Vertex, r: Recorder, x: RunOut, order: seq<string>): Recorder
    requires r.Image? && x.Ctx? ==> forall i :: 0 <= i < |order| ==> order[i] in x.resp
    ensures r.Image? ==> Record(v, r, x, order).Image?
    ensures r.Pairs? ==> Record(v, r, x, order).Pairs?
    ensures r.Items? ==> Record(v, r, x, order).Items?
    ensures r.Last? ==> Record(v, r, x, order).Last?
  {
    match r
    case Nothing => r
    case Items(items) => Items(items + [if x.Single? then x.v else Null])
    case Pairs(dict) => if x.Pair? then Pairs(dict[x.key := x.v]) else r
    case Last(_) => Last(if x.Single? then x.v else Null)
    case Image(out, errs) =>
      if x.Ctx? then RecordResponse(v, r, x.resp, order) else Image(out, errs + [WrongType])
  }

  /** getFinalResult of the single-value types: every declared output gets the data; an
      entry of a foreign type stops the loop with an error and the outputs so far. */
  function PublishAlong(outputs: Store, data: Value, order: seq<string>, o: Store): Outcome
    requires forall i :: 0 <= i < |order| ==> order[i] in outputs
  {
    if order == [] then Outcome(Some(o), None)
    else if outputs[order[0]].Foreign? then Outcome(Some(o), Some(Failed))
    else PublishAlong(outputs, data, order[1..], o[order[0] := Published(outputs[order[0]].info, data)])
  }

  function FinalResult(v: Vertex, r: Recorder, order: seq<string>): Outcome
    requires forall i :: 0 <= i < |order| ==> order[i] in v.outputs
  {
    match r
    case Nothing => Outcome(Some(map[]), None)
    case Items(items) =>
      if v.fn.ftype.BlockFn? then Outcome(Some(map[]), None) else PublishAlong(v.outputs, Arr(items), order, map[])
    case Pairs(dict) => PublishAlong(v.outputs, Obj(dict), order, map[])
    case Last(x) => PublishAlong(v.outputs, x, order, map[])
    case Image(out, errs) => if errs != [] then Outcome(None, Some(Failed)) else Outcome(Some(out), None)
  }

  // ------------------------------------------------------------------- a single run

  function RunPair(lib: Lib, key: string, value: string, env: Env): Option<RunOut> {
    if value == "" || key == "" then None else
      var v, k := First(lib.jq(value, env)), First(lib.jq(key, env));
      if v.None? || k.None? || !k.value.Str? then None else Some(Pair(k.value.s, v.value))
  }

  function Lift(v: Option<Value>): Option<RunOut> {
    if v.None? then None else Some(Single(v.value))
  }

  function RunImage(lib: Lib, v: Vertex, env: Env, order: seq<string>, n: nat): Option<RunOut>
    requires forall i :: 0 <= i < |order| ==> order[i] in env
  {
    var request := BuiltRequest(lib, env, order);
    if request.None? then None else
      var resp := lib.execute(Call(v.name, n, v.fn.image, request.value));
      if resp.None? then None else Some(Ctx(resp.value))
  }

  /** `run` of the function types on a filtered input, for the n-th time. For a block this is the part that
      does not touch the shared state: it fails without a nested DAG. */
  function Run(lib: Lib, v: Vertex, env: Env, order: seq<string>, n: nat): Option<RunOut>
    requires forall i :: 0 <= i < |order| ==> order[i] in env
  {
    var c := v.fn.input;
    match v.fn.ftype
    case SliceFn => if c.value == "" then None else Lift(First(lib.jq(c.value, env)))
    case MapFn => RunPair(lib, c.key, c.value, env)
    case JqFn => Lift(RunJq(lib.jq, c.expression, env))
    case QueryFn => Lift(lib.list(c.resource))
    case GoTemplateFn =>
      var t := if c.resource != "" then c.resource else c.template;
      if t == "" then None else Lift(lib.template(t, env))
    case WasmFn => RunImage(lib, v, env, order, n)
    case ContainerFn => RunImage(lib, v, env, order, n)
    case BlockFn => if v.blockRoot.None? then None else Some(Unit)
    case _ => None
  }
}
