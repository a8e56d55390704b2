/** A pipeline run as a step system.

    A net holds every vertex of a runtime DAG and of the DAGs nested in its block
    vertices. All of them share one output store and one result log. Each goroutine of
    the executor is cut at every access to the shared state: a vertex reads its
    references one by one, writes its output once, and appends its record afterwards. */
module Nets {
  import opened Values
  import opened Outputs

  type Id = nat

  /** One vertex context. `owner` is the block vertex whose nested DAG holds it, `inner`
      the root vertex name of its own nested DAG, `keys` the store entries its handler
      reads (in reading order), `outs` the output variables it declares and `run` its
      function, applied to the gathered input. */
  datatype Node = Node(
    name: string,
    owner: Option<Id>,
    ups: set<Id>,
    keys: seq<string>,
    outs: set<string>,
    inner: Option<string>,
    run: (Env, Orders) -> Outcome)

  /** `stop` is the failure policy of the executor: when set, a vertex is skipped unless
      every up-vertex ran successfully; when clear, only the order matters. */
  datatype Net = Net(nodes: map<Id, Node>, root: string, stop: bool)

  datatype Status = Skipped | Ran(ok: bool)

  datatype Phase =
    | Idle
    | Reading(at: nat, env: Env)
    | Inside
    | Logging(err: Option<Error>)
    | Done(status: Status)

  datatype ExecType = ExecRoot | ExecBlock

  datatype Record = Record(etype: ExecType, exec: string, vertex: string, success: bool, reason: Option<Error>)

  /** `pos` and `closed` remember where in the log a vertex, or the "total" of a DAG
      execution, was recorded. */
  datatype Sys = Sys(
    store: Store,
    phase: map<Id, Phase>,
    log: seq<Record>,
    pos: map<Id, nat>,
    closed: map<Option<Id>, nat>)

  datatype Act =
    | Begin(id: Id)
    | Skip(id: Id)
    | Read(id: Id)
    | Finish(id: Id, o: Orders)
    | Enter(id: Id, o: Orders)
    | Total(dag: Option<Id>, ok: bool)
    | Log(id: Id)

  function OkErr(err: Option<Error>): bool {
    err.None? || err.value == ConditionFalse
  }

  function OutMap(r: Outcome): Store {
    if r.out.Some? then r.out.value else map[]
  }

  /** A block's nested DAG ran exactly when its function returned a real output and no
      error: an empty range returns nil, a false condition an error. */
  function Entered(r: Outcome): bool {
    r.out.Some? && r.err.None?
  }

  function Gather(store: Store, keys: seq<string>): Env {
    map k | k in keys :: DataAt(store, k)
  }

  /** `env` holds under each name what the store has there: the data of an entry, internal or
      not, and null if there is no entry or one of a foreign type. */
  ghost predicate InputFrom(env: Env, names: set<string>, store: Store) {
    && env.Keys == names
    && forall k :: k in names ==>
         if k in store && store[k].Info? then env[k] == store[k].info.data else env[k] == Null
  }

  ghost function Ph(s: Sys, id: Id): Phase {
    if id in s.phase then s.phase[id] else Idle
  }

  ghost function Members(net: Net, dag: Option<Id>): set<Id> {
    set id | id in net.nodes && net.nodes[id].owner == dag
  }

  function ExecName(net: Net, dag: Option<Id>): string {
    if dag.None? then net.root
    else if dag.value in net.nodes && net.nodes[dag.value].inner.Some? then net.nodes[dag.value].inner.value
    else ""
  }

  ghost predicate Active(net: Net, s: Sys, id: Id)
    requires id in net.nodes
  {
    var ow := net.nodes[id].owner;
    ow.None? || Ph(s, ow.value).Inside?
  }

  ghost predicate UpsDone(net: Net, s: Sys, id: Id)
    requires id in net.nodes
  {
    forall u :: u in net.nodes[id].ups ==> Ph(s, u).Done?
  }

  /** The failure policy blocks the vertex. */
  ghost predicate Barred(net: Net, s: Sys, id: Id)
    requires id in net.nodes
  {
    net.stop && exists u :: u in net.nodes[id].ups && Ph(s, u) != Done(Ran(true))
  }

  ghost predicate ReadAll(net: Net, s: Sys, id: Id) {
    id in net.nodes && Ph(s, id).Reading? && Ph(s, id).at == |net.nodes[id].keys|
  }

  ghost predicate Enters(net: Net, s: Sys, id: Id, o: Orders)
    requires ReadAll(net, s, id)
  {
    net.nodes[id].inner.Some? && Entered(net.nodes[id].run(Ph(s, id).env, o))
  }

  ghost predicate AllDone(net: Net, s: Sys, dag: Option<Id>) {
    forall id :: id in net.nodes && net.nodes[id].owner == dag ==> Ph(s, id).Done?
  }

  ghost predicate Enabled(net: Net, s: Sys, a: Act) {
    match a
    case Begin(id) =>
      id in net.nodes && Ph(s, id).Idle? && Active(net, s, id) && UpsDone(net, s, id) && !Barred(net, s, id)
    case Skip(id) =>
      id in net.nodes && Ph(s, id).Idle? && Active(net, s, id) && UpsDone(net, s, id) && Barred(net, s, id)
    case Read(id) =>
      id in net.nodes && Ph(s, id).Reading? && Ph(s, id).at < |net.nodes[id].keys|
    case Finish(id, o) => ValidOrders(o) && ReadAll(net, s, id) && !Enters(net, s, id, o)
    case Enter(id, o) => ValidOrders(o) && ReadAll(net, s, id) && Enters(net, s, id, o)
    case Total(dag, ok) =>
      && AllDone(net, s, dag)
      && (dag.None? ==> dag !in s.closed)
      && (dag.Some? ==> dag.value in net.nodes && Ph(s, dag.value).Inside?)
    case Log(id) => id in net.nodes && Ph(s, id).Logging?
  }

  ghost function VertexRecord(net: Net, id: Id, err: Option<Error>): Record
    requires id in net.nodes
  {
    var n := net.nodes[id];
    Record(if n.owner.None? then ExecRoot else ExecBlock, ExecName(net, n.owner), n.name, OkErr(err), err)
  }

  /** RecordFinalResult always uses the root type, also for nested DAGs. */
  ghost function TotalRecord(net: Net, dag: Option<Id>, ok: bool): Record {
    Record(ExecRoot, ExecName(net, dag), "total", ok, None)
  }

  ghost function Put(s: Sys, id: Id, p: Phase): Sys {
    s.(phase := s.phase[id := p])
  }

  ghost function Next(net: Net, s: Sys, a: Act): Sys
    requires Enabled(net, s, a)
  {
    match a
    case Begin(id) => Put(s, id, Reading(0, map[]))
    case Skip(id) => Put(s, id, Done(Skipped))
    case Read(id) =>
      var p := Ph(s, id);
      var k := net.nodes[id].keys[p.at];
      Put(s, id, Reading(p.at + 1, p.env[k := DataAt(s.store, k)]))
    case Finish(id, o) =>
      var r := net.nodes[id].run(Ph(s, id).env, o);
      Put(s, id, Logging(r.err)).(store := s.store + OutMap(r))
    case Enter(id, _) => Put(s, id, Inside)
    case Total(dag, ok) =>
      var s' := s.(log := s.log + [TotalRecord(net, dag, ok)], closed := s.closed[dag := |s.log|]);
      if dag.None? then s' else Put(s', dag.value, Logging(None))
    case Log(id) =>
      var err := Ph(s, id).err;
      Put(s, id, Done(Ran(OkErr(err)))).(log := s.log + [VertexRecord(net, id, err)], pos := s.pos[id := |s.log|])
  }

  ghost function Init(seed: Store): Sys {
    Sys(seed, map[], [], map[], map[])
  }

  /** `acts` can be executed one after the other from the seeded store. */
  ghost predicate IsRun(net: Net, seed: Store, acts: seq<Act>)
    decreases |acts|, 0
  {
    acts == [] ||
    (var before := acts[..|acts| - 1];
     IsRun(net, seed, before) && Enabled(net, After(net, seed, before), acts[|acts| - 1]))
  }

  ghost function After(net: Net, seed: Store, acts: seq<Act>): Sys
    requires IsRun(net, seed, acts)
    decreases |acts|, 1
  {
    if acts == [] then Init(seed)
    else Next(net, After(net, seed, acts[..|acts| - 1]), acts[|acts| - 1])
  }

  /** The executor of the outermost DAG has called its post-run hook. */
  ghost predicate Complete(s: Sys) {
    None in s.closed
  }

  // ---------------------------------------------------------------- well-formed nets

  /** DAGs are acyclic and block nesting is finite: `rank` grows along edges and inwards. */
  ghost predicate Ranked(net: Net, rank: Id -> nat) {
    && (forall id {:trigger net.nodes[id].owner} :: id in net.nodes && net.nodes[id].owner.Some? ==>
          var b := net.nodes[id].owner.value;
          b in net.nodes && net.nodes[b].inner.Some? && rank(b) < rank(id))
    && (forall id, u {:trigger u in net.nodes[id].ups} :: id in net.nodes && u in net.nodes[id].ups ==>
          u in net.nodes && net.nodes[u].owner == net.nodes[id].owner && rank(u) < rank(id))
  }

  /** Vertex `q` lies in the DAG nested under block `a`, at any depth. */
  ghost predicate Within(net: Net, rank: Id -> nat, q: Id, a: Id)
    requires Ranked(net, rank) && q in net.nodes
    decreases rank(q)
  {
    var ow := net.nodes[q].owner;
    ow.Some? && (ow.value == a || Within(net, rank, ow.value, a))
  }

  /** Every execution is over with `q` before it starts `p`. */
  ghost predicate Before(net: Net, rank: Id -> nat, q: Id, p: Id)
    requires Ranked(net, rank) && q in net.nodes && p in net.nodes
    decreases rank(p)
  {
    || (exists u :: u in net.nodes[p].ups && (u == q || Within(net, rank, q, u) || Before(net, rank, q, u)))
    || (net.nodes[p].owner.Some? && Before(net, rank, q, net.nodes[p].owner.value))
  }

  /** A function writes only declared variables, and a block nothing at all. */
  ghost predicate Framed(n: Node) {
    forall env, o :: ValidOrders(o) && n.run(env, o).out.Some? ==>
      n.run(env, o).out.value.Keys <= (if n.inner.Some? then {} else n.outs)
  }

  /** Go's map orders do not influence the outcome. */
  ghost predicate OrderFree(n: Node) {
    forall env, o, o' :: ValidOrders(o) && ValidOrders(o') ==> n.run(env, o) == n.run(env, o')
  }

  ghost predicate Owned(net: Net, k: string) {
    exists q :: q in net.nodes && k in net.nodes[q].outs
  }

  /** What the theorems about schedules ask of a pipeline: declared outputs are pairwise
      disjoint, and whoever reads a declared variable
      comes after the vertex that declares it. */
  ghost predicate Sound(net: Net, rank: Id -> nat) {
    && Ranked(net, rank)
    && (forall id :: id in net.nodes ==> Framed(net.nodes[id]) && OrderFree(net.nodes[id]))
    && (forall p, q :: p in net.nodes && q in net.nodes && p != q ==> net.nodes[p].outs !! net.nodes[q].outs)
    && (forall p, q, k :: p in net.nodes && q in net.nodes && k in net.nodes[p].keys && k in net.nodes[q].outs ==>
          Before(net, rank, q, p))
  }
}
