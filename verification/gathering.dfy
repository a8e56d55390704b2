/** What the vertices of a pipeline read, on the fields of the store entries. */
module Gathering {
  import opened Values
  import opened Outputs
  import opened Functions
  import Loop
  import opened Nets
  import opened Runs
  import opened Dataflow
  import opened Pipelines

  /** The names in the input of a vertex: none for a root vertex, its references for any
      other, and for an image also the root variable of the DAG it lies in. */
  ghost function InputNames(p: Pipeline, id: Id): set<string>
    requires id in p.places
  {
    var v := p.places[id].v;
    if v.fn.ftype.RootFn? then {} else (set k | k in v.refs) + if IsImage(v.fn.ftype) then RootNames(p, id) else {}
  }

  /** The pipeline's root variable, or the root variable of the block around the vertex. */
  ghost function RootNames(p: Pipeline, id: Id): set<string>
    requires id in p.places
  {
    match p.places[id].owner
    case None => {p.root}
    case Some(b) => if b in p.places && p.places[b].v.blockRoot.Some? then {p.places[b].v.blockRoot.value} else {}
  }

  lemma NamesAreKeys(lib: Lib, p: Pipeline, rank: Id -> nat, id: Id)
    requires Ranked(NetOf(lib, p), rank) && id in p.places
    ensures id in NetOf(lib, p).nodes && InputNames(p, id) == set k | k in NetOf(lib, p).nodes[id].keys
  {
    var v, n := p.places[id].v, NetOf(lib, p).nodes[id];
    assert n.owner == p.places[id].owner;
    if IsImage(v.fn.ftype) {
      assert n.keys == [DagRoot(p, p.places[id].owner)] + v.refs;
      assert RootNames(p, id) == {DagRoot(p, p.places[id].owner)};
    }
  }

  lemma GatheredInput(lib: Lib, p: Pipeline, rank: Id -> nat, id: Id, store: Store)
    requires Ranked(NetOf(lib, p), rank) && id in p.places
    ensures id in NetOf(lib, p).nodes
    ensures InputFrom(Gather(store, NetOf(lib, p).nodes[id].keys), InputNames(p, id), store)
  {
    NamesAreKeys(lib, p, rank, id);
  }

  lemma ReadIsGathered(net: Net, rank: Id -> nat, seed: Store, acts: seq<Act>, id: Id)
    requires Sound(net, rank) && IsRun(net, seed, acts) && ReadAll(net, After(net, seed, acts), id)
    ensures var s := After(net, seed, acts); Ph(s, id).env == Gather(s.store, net.nodes[id].keys)
  {
    RunInvariant(net, rank, seed, acts);
    assert SemAt(net, seed, After(net, seed, acts), id);
    assert net.nodes[id].keys[..|net.nodes[id].keys|] == net.nodes[id].keys;
  }

  /** In every run, whatever the interleaving: the input that a vertex has gathered one
      reference at a time is what the store holds when it has read the last one. */
  lemma InputInRun(lib: Lib, vars: string -> set<string>, p: Pipeline, rank: Id -> nat, gvk: Option<string>,
                   data: Value, acts: seq<Act>, id: Id)
    requires WellFormed(lib, vars, p, rank) && IsRun(NetOf(lib, p), Seed(p, gvk, data), acts) && id in p.places
    requires ReadAll(NetOf(lib, p), After(NetOf(lib, p), Seed(p, gvk, data), acts), id)
    ensures var s := After(NetOf(lib, p), Seed(p, gvk, data), acts);
            InputFrom(Ph(s, id).env, InputNames(p, id), s.store)
  {
    WellFormedIsSound(lib, vars, p, rank);
    ReadIsGathered(NetOf(lib, p), rank, Seed(p, gvk, data), acts, id);
    GatheredInput(lib, p, rank, id, After(NetOf(lib, p), Seed(p, gvk, data), acts).store);
  }

  /** A root entry that nobody declares holds the custom resource during the whole run. */
  lemma RootHoldsTheResource(lib: Lib, vars: string -> set<string>, p: Pipeline, rank: Id -> nat, gvk: Option<string>,
                             data: Value, acts: seq<Act>)
    requires WellFormed(lib, vars, p, rank) && IsRun(NetOf(lib, p), Seed(p, gvk, data), acts) && RootIsOwn(p)
    ensures var store := After(NetOf(lib, p), Seed(p, gvk, data), acts).store;
            && p.root in store && store[p.root].Info?
            && store[p.root].info.data == data && store[p.root].info.gvk == gvk
            && store[p.root].info.isInternal && !store[p.root].info.conditioned
  {
    var net, seed := NetOf(lib, p), Seed(p, gvk, data);
    WellFormedIsSound(lib, vars, p, rank);
    RunInvariant(net, rank, seed, acts);
    RootIsUnowned(lib, p);
    assert Same(After(net, seed, acts).store, seed, p.root);
  }

  /** Every vertex that reads the root variable of the pipeline receives the custom resource. */
  lemma ReadersGetTheResource(lib: Lib, vars: string -> set<string>, p: Pipeline, rank: Id -> nat, gvk: Option<string>,
                              data: Value, acts: seq<Act>, id: Id)
    requires WellFormed(lib, vars, p, rank) && IsRun(NetOf(lib, p), Seed(p, gvk, data), acts) && RootIsOwn(p)
    requires id in p.places && p.root in InputNames(p, id)
    requires ReadAll(NetOf(lib, p), After(NetOf(lib, p), Seed(p, gvk, data), acts), id)
    ensures var env := Ph(After(NetOf(lib, p), Seed(p, gvk, data), acts), id).env;
            p.root in env && env[p.root] == data
  {
    InputInRun(lib, vars, p, rank, gvk, data, acts, id);
    RootHoldsTheResource(lib, vars, p, rank, gvk, data, acts);
  }

  /** The meaning of a vertex, on the fields of the store. */
  lemma MeaningOnInput(lib: Lib, vars: string -> set<string>, p: Pipeline, rank: Id -> nat, store: Store, id: Id,
                       env: Env, o: Orders)
    requires WellFormed(lib, vars, p, rank) && id in p.places && ValidOrders(o)
    requires InputFrom(env, InputNames(p, id), store)
    ensures id in NetOf(lib, p).nodes
    ensures Runs.Meaning(NetOf(lib, p), store, id) == Loop.RunVertex(lib, p.places[id].v, p.root, env, o).outcome
  {
    var n := NetOf(lib, p).nodes[id];
    WellFormedIsSound(lib, vars, p, rank);
    GatheredInput(lib, p, rank, id, store);
    assert env == Gather(store, n.keys);
    CanonicalIsValid();
    assert OrderFree(n);
  }

  /** The vertex ran and ended as `r`: its fate says whether it failed, and what it published
      is in the store. */
  ghost predicate EndedAs(v: Vertex, s: Sys, id: Id, r: Outcome) {
    && id in FatesOf(s) && FatesOf(s)[id] == Ran(r.err != Some(Failed))
    && forall k :: k in v.outputs && r.out.Some? && k in r.out.value ==> k in s.store && s.store[k] == r.out.value[k]
  }

  /** In every complete run a vertex that is executed ends as its function does on the input
      that the final store offers. */
  lemma OutcomeOnFinalInput(lib: Lib, vars: string -> set<string>, p: Pipeline, rank: Id -> nat, gvk: Option<string>,
                            data: Value, acts: seq<Act>, id: Id, env: Env, o: Orders)
    requires WellFormed(lib, vars, p, rank) && IsRun(NetOf(lib, p), Seed(p, gvk, data), acts) && id in p.places
    requires Complete(After(NetOf(lib, p), Seed(p, gvk, data), acts)) && ValidOrders(o)
    requires InputFrom(env, InputNames(p, id), After(NetOf(lib, p), Seed(p, gvk, data), acts).store)
    ensures var s := After(NetOf(lib, p), Seed(p, gvk, data), acts);
            id in FatesOf(s) && FatesOf(s)[id].Ran? ==>
              EndedAs(p.places[id].v, s, id, Loop.RunVertex(lib, p.places[id].v, p.root, env, o).outcome)
  {
    var net, seed := NetOf(lib, p), Seed(p, gvk, data);
    WellFormedIsSound(lib, vars, p, rank);
    MeaningOnInput(lib, vars, p, rank, After(net, seed, acts).store, id, env, o);
    SolutionEnds(net, rank, seed, acts, p, id);
  }

  lemma SolutionEnds(net: Net, rank: Id -> nat, seed: Store, acts: seq<Act>, p: Pipeline, id: Id)
    requires Sound(net, rank) && IsRun(net, seed, acts) && Complete(After(net, seed, acts))
    requires id in net.nodes && id in p.places && net.nodes[id].outs == p.places[id].v.outputs.Keys
    ensures var s := After(net, seed, acts);
            id in FatesOf(s) && FatesOf(s)[id].Ran? ==>
              EndedAs(p.places[id].v, s, id, Runs.Meaning(net, s.store, id))
  {
    FinalStateSolves(net, rank, seed, acts);
    var s := After(net, seed, acts);
    assert SolvedAt(net, seed, s.store, FatesOf(s), id);
  }
}
