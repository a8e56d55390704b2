/** Concrete inputs on which the code departs from its apparent intent, and one on which the
    hypotheses about pipelines hold. */
module Witnesses {
  import opened Values
  import opened Outputs
  import opened Jq
  import opened Functions
  import opened Loop
  import opened Stores
  import opened RangeLoop
  import opened Isolation
  import opened VarOrders
  import opened Images
  import opened Requests
  import opened Meaning
  import opened Nesting
  import opened Vertices
  import opened Portable
  import opened Inlining
  import opened Pipelines
  import opened Nets
  import opened Runs
  import opened Dataflow
  import opened History
  import opened Liveness
  import opened Controllers

  /** When one local variable reads another, the map order of the variables shows: here the
      second variable sees the first one wrapped or not. */
  lemma VariableOrderShows(jq: Evaluator, exp: string, value: Value, env: Env)
    requires exp != "" && IsVariable(jq, exp, "b") && env == map["b" := value]
    ensures var vars := map["a" := exp, "b" := exp];
            && IsOrder(["a", "b"], vars.Keys) && IsOrder(["b", "a"], vars.Keys)
            && Resolve(jq, vars, ["a", "b"], env) == Some(map["a" := Arr([value]), "b" := Arr([value])])
            && Resolve(jq, vars, ["b", "a"], env) == Some(map["a" := Arr([Arr([value])]), "b" := Arr([value])])
  {
    var vars := map["a" := exp, "b" := exp];
    OwnValue(jq, exp, "b", env);
    var e1 := env["a" := Arr([value])];
    OwnValue(jq, exp, "b", e1);
    ResolveTwo(jq, vars, "a", "b", env, Arr([value]), Arr([value]));
    assert e1["b" := Arr([value])] == map["a" := Arr([value]), "b" := Arr([value])];
    var e2 := env["b" := Arr([value])];
    OwnValue(jq, exp, "b", e2);
    ResolveTwo(jq, vars, "b", "a", env, Arr([value]), Arr([Arr([value])]));
    assert e2["a" := Arr([Arr([value])])] == map["a" := Arr([Arr([value])]), "b" := Arr([value])];
  }

  lemma ResolveTwo(jq: Evaluator, vars: map<string, string>, x: string, y: string, env: Env, v: Value, w: Value)
    requires x in vars && y in vars
    requires RunJq(jq, vars[x], env) == Some(v) && RunJq(jq, vars[y], env[x := v]) == Some(w)
    ensures Resolve(jq, vars, [x, y], env) == Some(env[x := v][y := w])
  {
    var two, one := [x, y], [y];
    assert two[1..] == one && one[1..] == [];
    assert Resolve(jq, vars, one[1..], env[x := v][y := w]) == Some(env[x := v][y := w]);
    assert Resolve(jq, vars, one, env[x := v]) == Resolve(jq, vars, one[1..], env[x := v][y := w]);
    assert Resolve(jq, vars, two, env) == Resolve(jq, vars, two[1..], env[x := v]);
  }

  /** Two variables that hold objects of the same kind: the order in which Go visits them is
      the order in which the image receives the objects. */
  lemma RequestOrderShows(lib: Lib, x: Value, y: Value)
    requires x.Obj? && y.Obj? && x != y && lib.accepts(x) && lib.accepts(y) && lib.kindOf(x) == lib.kindOf(y)
    ensures var env := map["a" := x, "b" := y];
            && IsOrder(["a", "b"], env.Keys) && IsOrder(["b", "a"], env.Keys)
            && BuiltRequest(lib, env, ["a", "b"]) == Some(map[lib.kindOf(x) := [x, y]])
            && BuiltRequest(lib, env, ["b", "a"]) == Some(map[lib.kindOf(x) := [y, x]])
            && !SameRequest(lib, env)
  {
    var env := map["a" := x, "b" := y];
    RequestOfTwo(lib, env, "a", "b");
    RequestOfTwo(lib, env, "b", "a");
    var ab, ba := ["a", "b"], ["b", "a"];
    assert IsOrder(ab, env.Keys) && IsOrder(ba, env.Keys);
    assert [x, y][0] != [y, x][0];
    assert BuiltRequest(lib, env, ab).value[lib.kindOf(x)] != BuiltRequest(lib, env, ba).value[lib.kindOf(x)];
  }

  lemma SentNext(lib: Lib, env: Env, k: string, rest: seq<string>)
    requires k in env && env[k].Obj? && lib.accepts(env[k]) && forall i :: 0 <= i < |rest| ==> rest[i] in env
    requires RequestAlong(lib, env, rest).Some?
    ensures RequestAlong(lib, env, [k] + rest) == Some([env[k]] + RequestAlong(lib, env, rest).value)
  {
    assert ([k] + rest)[1..] == rest;
  }

  lemma GroupedNext(lib: Lib, xs: seq<Value>, x: Value)
    ensures Grouped(lib, xs + [x]) == AddResource(lib, Grouped(lib, xs), x)
  {
    assert (xs + [x])[..|xs|] == xs;
  }

  lemma TwoGrouped(lib: Lib, x: Value, y: Value)
    requires lib.kindOf(x) == lib.kindOf(y)
    ensures Grouped(lib, [x] + [y]) == map[lib.kindOf(x) := [x] + [y]]
  {
    var none: seq<Value> := [];
    GroupedNext(lib, none, x);
    assert none + [x] == [x];
    assert Grouped(lib, [x]) == map[lib.kindOf(x) := [x]];
    GroupedNext(lib, [x], y);
  }

  lemma RequestOfTwo(lib: Lib, env: Env, k: string, k': string)
    requires k in env && k' in env && env[k].Obj? && env[k'].Obj? && lib.accepts(env[k]) && lib.accepts(env[k'])
    requires lib.kindOf(env[k]) == lib.kindOf(env[k'])
    ensures BuiltRequest(lib, env, [k, k']) == Some(map[lib.kindOf(env[k]) := [env[k], env[k']]])
  {
    var none: seq<string> := [];
    SentNext(lib, env, k', none);
    assert [k'] + none == [k'];
    var sent := [env[k']];
    assert RequestAlong(lib, env, none) == Some([]) && sent + [] == sent;
    assert RequestAlong(lib, env, [k']) == Some(sent);
    SentNext(lib, env, k, [k']);
    assert [k] + [k'] == [k, k'];
    assert RequestAlong(lib, env, [k, k']) == Some([env[k]] + sent);
    TwoGrouped(lib, env[k], env[k']);
    assert [env[k]] + [env[k']] == [env[k], env[k']];
  }

  // -------------------------------------------------------------- a hidden failure

  /** A pipeline whose only vertex has a function type that nobody registered. */
  function FailingPipeline(name: string): Pipeline {
    Pipeline(map[0 := Place(None, {}, SampleVertex(name, OtherFn("none"), "", [], {}, None))], "root", false)
  }

  /** The only vertex fails and the run is complete. Print says OK iff that vertex is called
      "total". */
  lemma TotalHidesFailure(lib: Lib, name: string) returns (acts: seq<Act>)
    ensures var net, seed := NetOf(lib, FailingPipeline(name)), Seed(FailingPipeline(name), None, Null);
            && IsRun(net, seed, acts) && Complete(After(net, seed, acts))
            && Ph(After(net, seed, acts), 0) == Done(Ran(false))
            && (Verdict(After(net, seed, acts).log) <==> name == "total")
  {
    var net, seed := NetOf(lib, FailingPipeline(name)), Seed(FailingPipeline(name), None, Null);
    FailingNode(lib, name);
    acts := FailingRun(net, seed);
    assert net.nodes.Keys == {0};
    OneMore(net, seed, acts, Total(None, false));
    acts := acts + [Total(None, false)];
    var rank: Id -> nat := (id: Id) => 0;
    VerdictMeaning(net, rank, seed, acts);
    assert Disguised(net.nodes[0]) <==> name == "total";
  }

  lemma FailingNode(lib: Lib, name: string)
    ensures var net := NetOf(lib, FailingPipeline(name));
            && 0 in net.nodes && net.nodes[0].keys == [] && net.nodes[0].owner.None? && net.nodes[0].ups == {}
            && net.nodes[0].inner.None? && !net.stop && net.nodes[0].name == name
            && net.nodes[0].run(map[], Canonical()) == Outcome(None, Some(Failed))
  {
    CanonicalIsValid();
  }

  lemma FailingRun(net: Net, seed: Store) returns (acts: seq<Act>)
    requires 0 in net.nodes && net.nodes[0].keys == [] && net.nodes[0].owner.None? && net.nodes[0].ups == {}
    requires net.nodes[0].inner.None? && !net.stop
    requires net.nodes[0].run(map[], Canonical()) == Outcome(None, Some(Failed))
    ensures IsRun(net, seed, acts)
    ensures var s := After(net, seed, acts); Ph(s, 0) == Done(Ran(false)) && s.closed == map[]
  {
    CanonicalIsValid();
    OneMore(net, seed, [], Begin(0));
    acts := [] + [Begin(0)];
    OneMore(net, seed, acts, Finish(0, Canonical()));
    acts := acts + [Finish(0, Canonical())];
    OneMore(net, seed, acts, Log(0));
    acts := acts + [Log(0)];
  }

  // ------------------------------------------------------- a status object by chance

  function Named(name: string): Value { Obj(map["name" := Str(name)]) }

  /** A jq evaluator under which every program yields one object, named like the program. */
  function NamingLib(): Lib {
    Lib((exp: string, env: Env) => Stream([Yield(Named(exp))]),
        (t: string, env: Env) => None, (r: string) => None, (x: Value) => true, (x: Value) => "kind", (c: Call) => None)
  }

  /** All objects are of one kind and can be applied. */
  function OneKindWorld(): World {
    World((x: Value) => true, (x: Value) => "kind", (n: nat, x: Value) => true)
  }

  /** Two jq vertices that publish an object each. */
  function TwoObjects(): Pipeline {
    Pipeline(map[
      0 := Place(None, {}, SampleVertex("first", JqFn, "x", [], {"a"}, None)),
      1 := Place(None, {}, SampleVertex("second", JqFn, "y", [], {"b"}, None))
    ], "root", false)
  }

  /** A jq vertex without range, condition and variables publishes the list of its results. */
  lemma NamingVertex(name: string, exp: string, out: string, env: Env, o: Orders)
    requires ValidOrders(o) && exp != ""
    ensures var v := SampleVertex(name, JqFn, exp, [], {out}, None);
            RunVertex(NamingLib(), v, "root", env, o).outcome
            == Outcome(Some(PublishAll(v.outputs, Arr([Named(exp)]))), None)
  {
    var lib, v := NamingLib(), SampleVertex(name, JqFn, exp, [], {out}, None);
    var outs := [Yield(Named(exp))];
    assert outs[1..] == [] && Delivered(outs) == [Named(exp)] && EndsWell(outs);
    assert RunJq(lib.jq, exp, env) == Some(Arr([Named(exp)]));
    assert VarOrder(o, 0, v) == [] by { NoKeysNoOrder(VarOrder(o, 0, v), v.fn.vars.Keys); }
    var start := Progress(env, Last(Null), []);
    assert Resolved(lib, v, o, 0, start) == Some(start);
    PublishTyped(v.outputs, Arr([Named(exp)]), OutOrder(o, v));
  }

  lemma TwoObjectsSteady(vars: string -> set<string>, id: Id)
    requires (forall e :: vars(e) == {}) && id in TwoObjects().places
    ensures Steady(NamingLib(), vars, TwoObjects().places[id].v, "root")
    ensures NetOf(NamingLib(), TwoObjects()).nodes[id].keys == []
  {
  }

  lemma TwoObjectsWellFormed(vars: string -> set<string>, rank: Id -> nat)
    requires forall e :: vars(e) == {}
    ensures WellFormed(NamingLib(), vars, TwoObjects(), rank)
  {
    var p, net := TwoObjects(), NetOf(NamingLib(), TwoObjects());
    assert Ranked(net, rank);
    forall id | id in p.places ensures Steady(NamingLib(), vars, p.places[id].v, "root") && net.nodes[id].keys == [] {
      TwoObjectsSteady(vars, id);
    }
    TwoOutputs();
  }

  lemma TwoOutputs()
    ensures var p := TwoObjects();
            forall i, j :: i in p.places && j in p.places && i != j ==>
              p.places[i].v.outputs.Keys !! p.places[j].v.outputs.Keys
  {
    assert "a" != "b";
  }

  /** In an outermost DAG without failure policy every vertex runs. */
  lemma RunsAnyway(net: Net, rank: Id -> nat, seed: Store, acts: seq<Act>, id: Id)
    requires Sound(net, rank) && IsRun(net, seed, acts) && Complete(After(net, seed, acts))
    requires id in net.nodes && net.nodes[id].owner.None? && !net.stop
    ensures var s := After(net, seed, acts); id in FatesOf(s) && FatesOf(s)[id].Ran?
  {
    FinalStateSolves(net, rank, seed, acts);
    var s := After(net, seed, acts);
    assert SolvedAt(net, seed, s.store, FatesOf(s), id);
  }

  /** What vertex `id` of a complete run leaves in its only output. */
  lemma PublishedAlone(net: Net, rank: Id -> nat, seed: Store, acts: seq<Act>, id: Id, name: string, exp: string,
                       out: string)
    requires Sound(net, rank) && IsRun(net, seed, acts) && Complete(After(net, seed, acts)) && exp != "" && !net.stop
    requires id in net.nodes
    requires net.nodes[id] == SampleNode(name, exp, out)
    ensures var store := After(net, seed, acts).store;
            out in store && EntryStatus(OneKindWorld(), store[out], "kind") == Some(Named(exp))
  {
    RunsAnyway(net, rank, seed, acts, id);
    WhoWrote(net, rank, seed, acts, out);
    CanonicalIsValid();
    var store := After(net, seed, acts).store;
    NamingVertex(name, exp, out, Gather(store, net.nodes[id].keys), Canonical());
    assert Listed(store[out]) == [Named(exp)];
  }

  lemma StatusOneWay(store: Store, k: string, x: Value, cr: Value) returns (order: seq<string>)
    requires k in store && EntryStatus(OneKindWorld(), store[k], "kind") == Some(x)
    ensures IsOrder(order, store.Keys)
    ensures StatusObject(OneKindWorld(), ListedAlong(store, order), "kind", cr) == x
  {
    order := VisitedLast(OneKindWorld(), store, k, "kind");
  }

  lemma TwoObjectsRun() returns (acts: seq<Act>, rank: Id -> nat)
    ensures var net, seed := NetOf(NamingLib(), TwoObjects()), Seed(TwoObjects(), None, Null);
            Sound(net, rank) && IsRun(net, seed, acts) && Complete(After(net, seed, acts))
  {
    var net, seed := NetOf(NamingLib(), TwoObjects()), Seed(TwoObjects(), None, Null);
    var vars: string -> set<string> := (e: string) => {};
    rank := (id: Id) => 0;
    TwoObjectsWellFormed(vars, rank);
    WellFormedIsSound(NamingLib(), vars, TwoObjects(), rank);
    acts := RunsComplete(net, rank, seed, []);
  }

  ghost function SampleNode(name: string, exp: string, out: string): Node {
    NodeOf(NamingLib(), "root", "root", Place(None, {}, SampleVertex(name, JqFn, exp, [], {out}, None)))
  }

  lemma TwoStatuses(net: Net, rank: Id -> nat, seed: Store, acts: seq<Act>, cr: Value)
    returns (order: seq<string>, order': seq<string>)
    requires Sound(net, rank) && IsRun(net, seed, acts) && Complete(After(net, seed, acts)) && !net.stop
    requires 0 in net.nodes && net.nodes[0] == SampleNode("first", "x", "a")
    requires 1 in net.nodes && net.nodes[1] == SampleNode("second", "y", "b")
    ensures var store := After(net, seed, acts).store;
            && IsOrder(order, store.Keys) && IsOrder(order', store.Keys)
            && StatusObject(OneKindWorld(), ListedAlong(store, order), "kind", cr) == Named("x")
            && StatusObject(OneKindWorld(), ListedAlong(store, order'), "kind", cr) == Named("y")
  {
    PublishedAlone(net, rank, seed, acts, 0, "first", "x", "a");
    PublishedAlone(net, rank, seed, acts, 1, "second", "y", "b");
    order := StatusOneWay(After(net, seed, acts).store, "a", Named("x"), cr);
    order' := StatusOneWay(After(net, seed, acts).store, "b", Named("y"), cr);
  }

  /** One complete run, two ways in which Go may visit its store, two status objects. */
  lemma StatusByChance(cr: Value) returns (acts: seq<Act>, order: seq<string>, order': seq<string>)
    ensures var net, seed := NetOf(NamingLib(), TwoObjects()), Seed(TwoObjects(), None, Null);
            && IsRun(net, seed, acts) && Complete(After(net, seed, acts))
            && var store := After(net, seed, acts).store;
               && IsOrder(order, store.Keys) && IsOrder(order', store.Keys)
               && StatusObject(OneKindWorld(), ListedAlong(store, order), "kind", cr) == Named("x")
               && StatusObject(OneKindWorld(), ListedAlong(store, order'), "kind", cr) == Named("y")
    ensures Named("x") != Named("y")
  {
    var rank;
    acts, rank := TwoObjectsRun();
    order, order' := TwoStatuses(NetOf(NamingLib(), TwoObjects()), rank, Seed(TwoObjects(), None, Null), acts, cr);
    assert Named("x").fields["name"] != Named("y").fields["name"];
  }

  // ------------------------------------------------------- the fabric of topo4.yaml

  const FABRIC_IMAGE := "europe-docker.pkg.dev/srlinux/eu.gcr.io/fn-fabric-image"

  /** The function createFabric of examples/topo4.yaml. */
  function Fabric(outputs: Store, gvkToVar: map<string, string>): Vertex {
    Vertex("createFabric",
           Function(ContainerFn, BlockCfg(Some("$masterTemplates | .[]"), None),
                    map["topoDef" := "$topoDef",
                        "localMasterTemplate" := "$VALUE | .",
                        "localChildTemplates" := "$VALUE | .metadata.name as $_a | $childTemplates | .[$_a]"],
                    InputCfg("", "", "", "", ""), FABRIC_IMAGE),
           ["masterTemplates", "topoDef", "childTemplates"], outputs, gvkToVar, None)
  }

  /** It fails whenever there are two master templates or more. */
  lemma FabricFails(lib: Lib, outputs: Store, gvkToVar: map<string, string>, root: string, base: Env, o: Orders,
                    items: seq<Value>)
    requires IsVariable(lib.jq, "$topoDef", "topoDef") && ValidOrders(o) && "topoDef" in base
    requires RangeItems(lib.jq("$masterTemplates | .[]", base)) == Some(items) && |items| >= 2
    ensures RunVertex(lib, Fabric(outputs, gvkToVar), root, base, o) == Failure()
  {
    var v := Fabric(outputs, gvkToVar);
    assert "topoDef" in v.fn.vars && v.fn.vars["topoDef"] == "$topoDef";
    assert "topoDef" != "VALUE" && "topoDef" != "KEY" && "topoDef" != "INDEX";
    NestingDooms(lib, v, "topoDef", root, base, o, items);
  }

  /** Its map orders cannot be observed all the same: each variable reads at most itself. */
  lemma FabricIsSteady(lib: Lib, vars: string -> set<string>, outputs: Store, gvkToVar: map<string, string>,
                       root: string)
    requires ReadsOnly(lib.jq, vars) && vars("$topoDef") == {"topoDef"} && vars("$VALUE | .") == {"VALUE"}
    requires vars("$VALUE | .metadata.name as $_a | $childTemplates | .[$_a]") == {"VALUE", "childTemplates"}
    requires WellTyped(outputs) && OneKindPerVar(Fabric(outputs, gvkToVar)) && OrderBlind(lib, FABRIC_IMAGE)
    ensures Steady(lib, vars, Fabric(outputs, gvkToVar), root) && !Independent(lib, vars, Fabric(outputs, gvkToVar))
  {
    var v := Fabric(outputs, gvkToVar);
    assert v.fn.vars.Keys == {"topoDef", "localMasterTemplate", "localChildTemplates"};
    assert "topoDef" in vars(v.fn.vars["topoDef"]) && "topoDef" in v.fn.vars.Keys;
  }

  // ------------------------------------------------------------- the upf of upf.yaml

  const UPF_IMAGE := "europe-docker.pkg.dev/srlinux/eu.gcr.io/fn-upf-image:latest"

  /** The function upfFn of examples/upf.yaml, whose pipeline has the root vertex upfcr. */
  function Upf(outputs: Store, gvkToVar: map<string, string>): Vertex {
    Vertex("upfFn",
           Function(ContainerFn, BlockCfg(None, None), map["upf" := "$upfcr"], InputCfg("", "", "", "", ""), UPF_IMAGE),
           ["upfcr"], outputs, gvkToVar, None)
  }

  lemma {:induction false} InnerAsOuter(lib: Lib, xs: seq<Value>)
    requires ListObjects(lib, xs, true).Some?
    ensures ListObjects(lib, xs, false) == ListObjects(lib, xs, true)
  {
    if xs != [] {
      InnerAsOuter(lib, xs[1..]);
    }
  }

  /** A value that can be sent inside one more list contributes the same objects. */
  lemma WrappedAlike(lib: Lib, x: Value)
    requires VarObjects(lib, Arr([x])).Some?
    ensures VarObjects(lib, x) == VarObjects(lib, Arr([x]))
  {
    var one := [x];
    assert one[1..] == [] && ListObjects(lib, one[1..], false) == Some([]);
    var first := ElementObjects(lib, x, false);
    assert first.Some? && first.value + [] == first.value;
    if x.Arr? {
      InnerAsOuter(lib, x.elems);
    }
  }

  /** The resource goes out twice, inside the variable and as the root variable, always with
      the same request, so nothing need be assumed about the image. */
  lemma UpfAlways(lib: Lib, env: Env)
    requires env.Keys <= {"upf", "upfcr"}
    requires "upf" in env && "upfcr" in env ==> env["upf"] == Arr([env["upfcr"]])
    ensures SameRequest(lib, env)
  {
    if AllSent(lib, env) {
      forall g: string ensures Commute(Share(lib, env, g)) {
        if "upf" in env && "upfcr" in env {
          WrappedAlike(lib, env["upfcr"]);
          assert Share(lib, env, g)["upf"] == Share(lib, env, g)["upfcr"];
        }
        forall k, k' | k in env && k' in env && k != k'
          ensures Share(lib, env, g)[k] + Share(lib, env, g)[k'] == Share(lib, env, g)[k'] + Share(lib, env, g)[k] {
          assert {k, k'} <= {"upf", "upfcr"};
        }
      }
    }
    RequestOrderExact(lib, env);
  }

  lemma OneVariable(order: seq<string>, x: string)
    requires IsOrder(order, {x})
    ensures order == [x]
  {
    assert x in order;
    if |order| > 1 {
      Unrepeated(order, {x}, 0, 1);
    }
  }

  lemma UpfResolved(lib: Lib, outputs: Store, gvkToVar: map<string, string>, base: Env, order: seq<string>)
    requires IsVariable(lib.jq, "$upfcr", "upfcr") && IsOrder(order, {"upf"})
    requires Resolve(lib.jq, Upf(outputs, gvkToVar).fn.vars, order, base).Some?
    ensures SameRequest(lib, Filter(Upf(outputs, gvkToVar), "upfcr",
                                    Resolve(lib.jq, Upf(outputs, gvkToVar).fn.vars, order, base).value))
  {
    var v := Upf(outputs, gvkToVar);
    var e := Resolve(lib.jq, v.fn.vars, order, base).value;
    assert "upf" != "upfcr";
    OneVariable(order, "upf");
    OthersKept(lib.jq, v.fn.vars, order, base);
    assert Same(e, base, "upfcr");
    ValueInTurn(lib.jq, v.fn.vars, order, base, e, 0);
    assert Firsts(order, 0) == {} && Partly(base, e, {}) == base;
    if "upfcr" in base {
      OwnValue(lib.jq, "$upfcr", "upfcr", base);
    }
    UpfAlways(lib, Filter(v, "upfcr", e));
  }

  lemma UpfIsSteady(lib: Lib, vars: string -> set<string>, outputs: Store, gvkToVar: map<string, string>)
    requires ReadsOnly(lib.jq, vars) && vars("$upfcr") == {"upfcr"} && IsVariable(lib.jq, "$upfcr", "upfcr")
    requires WellTyped(outputs) && OneKindPerVar(Upf(outputs, gvkToVar))
    ensures Steady(lib, vars, Upf(outputs, gvkToVar), "upfcr")
  {
    var v := Upf(outputs, gvkToVar);
    assert v.fn.vars.Keys == {"upf"};
    forall base, order | IsOrder(order, v.fn.vars.Keys) && Resolve(lib.jq, v.fn.vars, order, base).Some?
      ensures SameRequest(lib, Filter(v, "upfcr", Resolve(lib.jq, v.fn.vars, order, base).value)) {
      UpfResolved(lib, outputs, gvkToVar, base, order);
    }
    assert FixedRequests(lib, v, "upfcr");
  }

  const UPF_A_IMAGE := "europe-docker.pkg.dev/srlinux/eu.gcr.io/fn-upf-impla-image:latest"

  /** The function implFnA of examples/upf.yaml, nested in a block next to the query implA. */
  function UpfA(outputs: Store, gvkToVar: map<string, string>): Vertex {
    Vertex("implFnA",
           Function(ContainerFn, BlockCfg(None, None), map["a" := "$implA", "upf" := "$upfcr"],
                    InputCfg("", "", "", "", ""), UPF_A_IMAGE),
           ["implA", "upfcr"], outputs, gvkToVar, None)
  }

  /** It refers to all that it can notice, so its block may be inlined, whatever the name of
      the block's root vertex is. */
  lemma UpfMayMove(vars: string -> set<string>, p: Pipeline, b: Id, outputs: Store, gvkToVar: map<string, string>)
    requires vars("$implA") == {"implA"} && vars("$upfcr") == {"upfcr"}
    requires p.root == "upfcr" && b in p.places && p.places[b].owner.None?
    requires forall m :: m in p.places && p.places[m].owner == Some(b) && IsImage(p.places[m].v.fn.ftype) ==>
               p.places[m].v == UpfA(outputs, gvkToVar)
    ensures MayMove(vars, p, b)
  {
    var v := UpfA(outputs, gvkToVar);
    forall k | k in Noticed(vars, v, "upfcr") ensures k in v.refs {
      if x, y :| x in v.fn.vars && y in vars(v.fn.vars[x]) && y == k {
        assert x == "a" || x == "upf";
      }
    }
  }

  // --------------------------------------------------- a pipeline with a nested reader

  function SampleVertex(name: string, t: FnType, exp: string, refs: seq<string>, out: set<string>,
                        blockRoot: Option<string>): Vertex {
    Vertex(name, Function(t, BlockCfg(None, None), map[], InputCfg("", "", exp, "", ""), ""), refs,
           map k | k in out :: Info(OutputInfo(false, false, None, Null)), map[], blockRoot)
  }

  /** A root, a jq vertex that declares "a", a block, and in its DAG a jq vertex that reads
      "a" and declares "b". */
  function Sample(): Pipeline {
    Pipeline(map[
      0 := Place(None, {}, SampleVertex("root", RootFn, "", [], {}, None)),
      1 := Place(None, {0}, SampleVertex("first", JqFn, ".", [], {"a"}, None)),
      2 := Place(None, {1}, SampleVertex("block", BlockFn, "", ["a"], {}, Some("inner"))),
      3 := Place(Some(2), {}, SampleVertex("second", JqFn, ".", ["a"], {"b"}, None))
    ], "root", true)
  }

  /** The hypotheses about pipelines can be met, for every evaluator that depends only on the
      variables a program reads. */
  lemma SampleIsWellFormed(lib: Lib, vars: string -> set<string>) returns (rank: Id -> nat)
    requires ReadsOnly(lib.jq, vars)
    ensures WellFormed(lib, vars, Sample(), rank)
    ensures MayMove(vars, Sample(), 2) && Sample().places[2].v.blockRoot.Some?
  {
    rank := (id: Id) => id;
    SampleLinks(lib);
    SampleRanked(NetOf(lib, Sample()), rank);
    SampleSteady(lib, vars);
    SampleOutputs();
    SampleOrder(NetOf(lib, Sample()), rank);
    SampleReaders(NetOf(lib, Sample()), rank);
  }

  lemma SampleReaders(net: Net, rank: Id -> nat)
    requires Ranked(net, rank) && net.nodes.Keys == {0, 1, 2, 3} && Before(net, rank, 1, 2) && Before(net, rank, 1, 3)
    requires net.nodes[0].keys == [] && net.nodes[1].keys == [] && net.nodes[2].keys == ["a"]
    requires net.nodes[3].keys == ["a"]
    ensures var p := Sample();
            forall i, j, k :: i in p.places && j in p.places && k in net.nodes[i].keys && k in p.places[j].v.outputs ==>
              Before(net, rank, j, i)
  {
    var p := Sample();
    OnlyFirstDeclares();
    forall i, j, k | i in p.places && j in p.places && k in net.nodes[i].keys && k in p.places[j].v.outputs
      ensures Before(net, rank, j, i) {
      assert k == "a" && j == 1 && (i == 2 || i == 3);
    }
  }

  lemma OnlyFirstDeclares()
    ensures forall j :: j in Sample().places && "a" in Sample().places[j].v.outputs ==> j == 1
    ensures Sample().places.Keys == {0, 1, 2, 3}
  {
    assert "a" != "b";
  }

  /** The shape of the sample: 0 before 1 before 2, with 3 nested in 2. */
  ghost predicate Linked(net: Net) {
    && net.nodes.Keys == {0, 1, 2, 3}
    && net.nodes[0].ups == {} && net.nodes[1].ups == {0} && net.nodes[2].ups == {1} && net.nodes[3].ups == {}
    && net.nodes[0].owner == None && net.nodes[1].owner == None
    && net.nodes[2].owner == None && net.nodes[3].owner == Some(2)
    && net.nodes[2].inner.Some?
  }

  lemma SampleLinks(lib: Lib)
    ensures Linked(NetOf(lib, Sample()))
    ensures var net := NetOf(lib, Sample());
            net.nodes[0].keys == [] && net.nodes[1].keys == []
            && net.nodes[2].keys == ["a"] && net.nodes[3].keys == ["a"]
  {
  }

  lemma SampleRanked(net: Net, rank: Id -> nat)
    requires (forall id: Id :: rank(id) == id) && Linked(net)
    ensures Ranked(net, rank)
  {
  }

  lemma SampleSteady(lib: Lib, vars: string -> set<string>)
    requires ReadsOnly(lib.jq, vars)
    ensures forall id :: id in Sample().places ==> Steady(lib, vars, Sample().places[id].v, "root")
  {
  }

  lemma SampleOutputs()
    ensures var p := Sample();
            && (forall i, j :: i in p.places && j in p.places && i != j ==>
                  p.places[i].v.outputs.Keys !! p.places[j].v.outputs.Keys)
            && forall m :: m in p.places ==> !IsImage(p.places[m].v.fn.ftype)
  {
    assert "a" != "b";
  }

  /** The block and the vertex nested in it come after the vertex they read from, and only
      that vertex declares what they read. */
  lemma SampleOrder(net: Net, rank: Id -> nat)
    requires (forall id: Id :: rank(id) == id) && Linked(net) && Ranked(net, rank)
    ensures Before(net, rank, 1, 2) && Before(net, rank, 1, 3)
  {
    assert 1 in net.nodes[2].ups;
    assert Before(net, rank, 1, 2);
  }
}
