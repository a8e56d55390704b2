/** Runtime DAGs with their nested DAGs, and their reading as nets. */
module Pipelines {
  import opened Values
  import opened Outputs
  import Jq
  import opened Functions
  import opened Loop
  import opened Plans
  import opened RangeLoop
  import opened Isolation
  import opened Images
  import opened Meaning
  import opened Vertices
  import opened Portable
  import opened Nets
  import opened Runs
  import opened Dataflow
  import opened History
  import opened Inlining

  /** A vertex of the DAG nested in block `owner`, or of the outermost DAG. */
  datatype Place = Place(owner: Option<Id>, ups: set<Id>, v: Vertex)

  /** `root` is the root vertex name of the outermost DAG, `stop` the failure policy. */
  datatype Pipeline = Pipeline(places: map<Id, Place>, root: string, stop: bool)

  /** The root vertex name of the DAG a vertex lies in. */
  function DagRoot(p: Pipeline, dag: Option<Id>): string {
    if dag.None? then p.root
    else if dag.value in p.places && p.places[dag.value].v.blockRoot.Some? then p.places[dag.value].v.blockRoot.value
    else ""
  }

  /** What FunctionRun reads: nothing for the root, the references, and for images first
      the root variable of the DAG at hand. */
  function InputKeys(dagRoot: string, v: Vertex): seq<string> {
    if v.fn.ftype.RootFn? then []
    else if IsImage(v.fn.ftype) then [dagRoot] + v.refs
    else v.refs
  }

  ghost function Runner(lib: Lib, v: Vertex, root: string): (Env, Orders) -> Outcome {
    (env: Env, o: Orders) => if ValidOrders(o) then RunVertex(lib, v, root, env, o).outcome else Outcome(None, None)
  }

  ghost function NodeOf(lib: Lib, root: string, dagRoot: string, pl: Place): Node {
    Node(pl.v.name, pl.owner, pl.ups, InputKeys(dagRoot, pl.v), pl.v.outputs.Keys,
         if pl.v.fn.ftype.BlockFn? then pl.v.blockRoot else None,
         Runner(lib, pl.v, root))
  }

  ghost function NetOf(lib: Lib, p: Pipeline): Net {
    Net(map id | id in p.places :: NodeOf(lib, p.root, DagRoot(p, p.places[id].owner), p.places[id]), p.root, p.stop)
  }

  /** builder.New seeds the root entry as internal. */
  function Seed(p: Pipeline, gvk: Option<string>, data: Value): Store {
    map[p.root := Info(OutputInfo(true, false, gvk, data))]
  }

  /** No vertex declares the root entry. */
  ghost predicate RootIsOwn(p: Pipeline) {
    forall id :: id in p.places ==> p.root !in p.places[id].v.outputs
  }

  lemma RootIsUnowned(lib: Lib, p: Pipeline)
    requires RootIsOwn(p)
    ensures !Owned(NetOf(lib, p), p.root)
  {
  }

  /** A pipeline whose outcome should not depend on chance: steady vertices, disjoint
      declared outputs apart from the root name, and every reader after the declarer. */
  ghost predicate WellFormed(lib: Lib, vars: string -> set<string>, p: Pipeline, rank: Id -> nat) {
    var net := NetOf(lib, p);
    && Ranked(net, rank)
    && (forall id :: id in p.places ==> Steady(lib, vars, p.places[id].v, p.root))
    && (forall i, j :: i in p.places && j in p.places && i != j ==>
          p.places[i].v.outputs.Keys !! p.places[j].v.outputs.Keys)
    && (forall i, j, k :: i in p.places && j in p.places && k in net.nodes[i].keys && k in p.places[j].v.outputs ==>
          Before(net, rank, j, i))
  }

  lemma NodeIsFramed(lib: Lib, root: string, dagRoot: string, pl: Place)
    ensures Framed(NodeOf(lib, root, dagRoot, pl))
  {
    var n := NodeOf(lib, root, dagRoot, pl);
    forall env, o | ValidOrders(o) && n.run(env, o).out.Some?
      ensures n.run(env, o).out.value.Keys <= (if n.inner.Some? then {} else n.outs) {
      VertexFrame(lib, pl.v, root, env, o);
    }
  }

  lemma NodeIsOrderFree(lib: Lib, vars: string -> set<string>, root: string, dagRoot: string, pl: Place)
    requires Steady(lib, vars, pl.v, root)
    ensures OrderFree(NodeOf(lib, root, dagRoot, pl))
  {
    var n := NodeOf(lib, root, dagRoot, pl);
    forall env, o, o' | ValidOrders(o) && ValidOrders(o') ensures n.run(env, o) == n.run(env, o') {
      VertexOrderFree(lib, vars, pl.v, root, env, o, o');
    }
  }

  lemma WellFormedIsSound(lib: Lib, vars: string -> set<string>, p: Pipeline, rank: Id -> nat)
    requires WellFormed(lib, vars, p, rank)
    ensures Sound(NetOf(lib, p), rank)
  {
    var net := NetOf(lib, p);
    forall id | id in net.nodes ensures Framed(net.nodes[id]) && OrderFree(net.nodes[id]) {
      var dagRoot := DagRoot(p, p.places[id].owner);
      NodeIsFramed(lib, p.root, dagRoot, p.places[id]);
      NodeIsOrderFree(lib, vars, p.root, dagRoot, p.places[id]);
    }
  }

  /** Two complete runs of a well-formed pipeline end in the same store, give every vertex
      the same fate and print the same verdict, whatever the scheduler, the interleaving of
      the shared accesses and Go's map orders. */
  lemma PipelineConfluence(lib: Lib, vars: string -> set<string>, p: Pipeline, rank: Id -> nat,
                           gvk: Option<string>, data: Value, acts: seq<Act>, acts': seq<Act>)
    requires WellFormed(lib, vars, p, rank)
    requires IsRun(NetOf(lib, p), Seed(p, gvk, data), acts) && IsRun(NetOf(lib, p), Seed(p, gvk, data), acts')
    requires Complete(After(NetOf(lib, p), Seed(p, gvk, data), acts))
    requires Complete(After(NetOf(lib, p), Seed(p, gvk, data), acts'))
    ensures var s, s' := After(NetOf(lib, p), Seed(p, gvk, data), acts),
                         After(NetOf(lib, p), Seed(p, gvk, data), acts');
            && s.store == s'.store && FatesOf(s) == FatesOf(s')
            && |s.log| == |s'.log| && Verdict(s.log) == Verdict(s'.log)
  {
    WellFormedIsSound(lib, vars, p, rank);
    Confluence(NetOf(lib, p), rank, Seed(p, gvk, data), acts, acts');
    SameStory(NetOf(lib, p), rank, Seed(p, gvk, data), acts, acts');
  }

  /** The effect of one vertex on the store: declared variables only, and nothing at all on
      an error, a false condition or an empty range. */
  lemma FinishIsAtomic(lib: Lib, p: Pipeline, s: Sys, id: Id, o: Orders)
    requires id in p.places && WellTyped(p.places[id].v.outputs) && Enabled(NetOf(lib, p), s, Finish(id, o))
    ensures var s' := Next(NetOf(lib, p), s, Finish(id, o));
            && (forall k :: k !in p.places[id].v.outputs ==> Same(s'.store, s.store, k))
            && s'.phase[id].Logging? && (s'.phase[id].err.Some? ==> s'.store == s.store)
            && (TurnsDown(lib.jq, p.places[id].v.fn.block, Ph(s, id).env) ==> s'.store == s.store)
  {
    var v, env := p.places[id].v, Ph(s, id).env;
    WritesAtomically(lib, v, p.root, env, o);
  }

  // ---------------------------------------------------------------------- inlining

  ghost function SplicePipeline(lib: Lib, p: Pipeline, b: Id): Pipeline
    requires b in p.places
  {
    p.(places := map id | id in p.places && id != b ::
         var n := SplicedNode(NetOf(lib, p), b, id);
         Place(n.owner, n.ups, p.places[id].v))
  }

  lemma OwnersAreBlocks(lib: Lib, p: Pipeline, rank: Id -> nat, id: Id)
    requires Ranked(NetOf(lib, p), rank) && id in p.places && p.places[id].owner.Some?
    ensures p.places[id].owner.value in p.places && p.places[id].owner != Some(id)
  {
    assert NetOf(lib, p).nodes[id].owner == p.places[id].owner;
  }

  /** An image inside block `b` reads the root variable of the block's DAG, and that of the
      surrounding DAG once it is spliced in. That makes no difference to it if it refers to
      them anyway or cannot notice them, and if nobody declares what it newly reads. */
  ghost predicate MovesAlike(vars: string -> set<string>, p: Pipeline, b: Id, m: Id)
    requires b in p.places && m in p.places
  {
    var v, inner, outer := p.places[m].v, DagRoot(p, Some(b)), DagRoot(p, p.places[b].owner);
    IsImage(v.fn.ftype) ==>
      && (inner in v.refs || inner !in Noticed(vars, v, p.root))
      && (outer in v.refs || (outer !in Noticed(vars, v, p.root)
                              && forall j :: j in p.places ==> outer !in p.places[j].v.outputs))
  }

  ghost predicate MayMove(vars: string -> set<string>, p: Pipeline, b: Id)
    requires b in p.places
  {
    forall m :: m in p.places && p.places[m].owner == Some(b) ==> MovesAlike(vars, p, b, m)
  }

  lemma SplicedRoot(lib: Lib, p: Pipeline, b: Id, id: Id)
    requires b in p.places && id in p.places && id != b && p.places[b].owner != Some(b)
    requires p.places[id].owner.Some? ==> p.places[id].owner.value in p.places
    ensures var q := SplicePipeline(lib, p, b);
            && id in q.places
            && DagRoot(q, q.places[id].owner) ==
               DagRoot(p, if p.places[id].owner == Some(b) then p.places[b].owner else p.places[id].owner)
  {
  }

  /** The spliced pipeline's vertex, up to the keys of an image. */
  lemma SplicedVertex(lib: Lib, p: Pipeline, b: Id, id: Id)
    requires b in p.places && id in p.places && id != b && p.places[b].owner != Some(b)
    requires p.places[id].owner.Some? ==> p.places[id].owner.value in p.places
    ensures id in NetOf(lib, SplicePipeline(lib, p, b)).nodes && id in Splice(NetOf(lib, p), b).nodes
    ensures var n', n := NetOf(lib, SplicePipeline(lib, p, b)).nodes[id], Splice(NetOf(lib, p), b).nodes[id];
            var v := p.places[id].v;
            && n' == n.(keys := n'.keys) && n.run == Runner(lib, v, p.root)
            && if p.places[id].owner == Some(b) && IsImage(v.fn.ftype) then
                 && n.keys == [DagRoot(p, Some(b))] + v.refs
                 && n'.keys == [DagRoot(p, p.places[b].owner)] + v.refs
               else n'.keys == n.keys
  {
    SplicedRoot(lib, p, b, id);
    var q, s := SplicePipeline(lib, p, b), SplicedNode(NetOf(lib, p), b, id);
    assert q.places[id] == Place(s.owner, s.ups, p.places[id].v);
    assert NetOf(lib, q).nodes[id] == NodeOf(lib, p.root, DagRoot(q, s.owner), q.places[id]);
    assert Splice(NetOf(lib, p), b).nodes[id] == s;
  }

  lemma GatheredAlike(f: Store, x: string, y: string, refs: seq<string>, names: set<string>)
    requires (x in refs || x !in names) && (y in refs || y !in names)
    ensures Agree(Gather(f, [x] + refs), Gather(f, [y] + refs), names)
  {
    forall k | k in names ensures Same(Gather(f, [x] + refs), Gather(f, [y] + refs), k) {
      assert k in [x] + refs <==> k == x || k in refs;
      assert k in [y] + refs <==> k == y || k in refs;
    }
  }

  lemma SplicedMeaning(lib: Lib, vars: string -> set<string>, p: Pipeline, b: Id, id: Id, f: Store)
    requires Jq.ReadsOnly(lib.jq, vars) && b in p.places && id in p.places && id != b && p.places[b].owner != Some(b)
    requires p.places[id].owner.Some? ==> p.places[id].owner.value in p.places
    requires MayMove(vars, p, b)
    ensures id in NetOf(lib, SplicePipeline(lib, p, b)).nodes && id in Splice(NetOf(lib, p), b).nodes
    ensures Runs.Meaning(NetOf(lib, SplicePipeline(lib, p, b)), f, id) == Runs.Meaning(Splice(NetOf(lib, p), b), f, id)
  {
    SplicedVertex(lib, p, b, id);
    var v := p.places[id].v;
    if p.places[id].owner == Some(b) && IsImage(v.fn.ftype) {
      var inner, outer := DagRoot(p, Some(b)), DagRoot(p, p.places[b].owner);
      assert MovesAlike(vars, p, b, id);
      CanonicalIsValid();
      GatheredAlike(f, inner, outer, v.refs, Noticed(vars, v, p.root));
      ImageNotices(lib, vars, v, p.root, Gather(f, [inner] + v.refs), Gather(f, [outer] + v.refs), Canonical());
    }
  }

  lemma SplicingIsVariant(lib: Lib, vars: string -> set<string>, p: Pipeline, b: Id)
    requires Jq.ReadsOnly(lib.jq, vars) && b in p.places && MayMove(vars, p, b)
    requires forall m :: m in p.places && p.places[m].owner.Some? ==>
               p.places[m].owner.value in p.places && p.places[m].owner != Some(m)
    ensures Variant(Splice(NetOf(lib, p), b), NetOf(lib, SplicePipeline(lib, p, b)))
  {
    var net, net' := Splice(NetOf(lib, p), b), NetOf(lib, SplicePipeline(lib, p, b));
    assert net'.nodes.Keys == net.nodes.Keys;
    forall id | id in net.nodes
      ensures net'.nodes[id] == net.nodes[id].(keys := net'.nodes[id].keys)
      ensures forall f: Store :: Runs.Meaning(net', f, id) == Runs.Meaning(net, f, id) {
      SplicedVertex(lib, p, b, id);
      forall f: Store ensures Runs.Meaning(net', f, id) == Runs.Meaning(net, f, id) {
        SplicedMeaning(lib, vars, p, b, id, f);
      }
    }
  }

  lemma SplicedOutputs(lib: Lib, p: Pipeline, b: Id, j: Id)
    requires b in p.places && j in Splice(NetOf(lib, p), b).nodes
    ensures j in p.places && Splice(NetOf(lib, p), b).nodes[j].outs == p.places[j].v.outputs.Keys
  {
    assert NetOf(lib, p).nodes[j].outs == p.places[j].v.outputs.Keys;
  }

  lemma NewKeysUndeclared(lib: Lib, vars: string -> set<string>, p: Pipeline, b: Id)
    requires b in p.places && MayMove(vars, p, b)
    requires forall m :: m in p.places && p.places[m].owner.Some? ==>
               p.places[m].owner.value in p.places && p.places[m].owner != Some(m)
    ensures NothingNewRead(Splice(NetOf(lib, p), b), NetOf(lib, SplicePipeline(lib, p, b)))
  {
    var net, net' := Splice(NetOf(lib, p), b), NetOf(lib, SplicePipeline(lib, p, b));
    forall id, k | id in net.nodes && id in net'.nodes && k in net'.nodes[id].keys
      ensures k in net.nodes[id].keys || !Owned(net, k) {
      SplicedVertex(lib, p, b, id);
      if k !in net.nodes[id].keys {
        assert MovesAlike(vars, p, b, id);
        assert k == DagRoot(p, p.places[b].owner) && k !in p.places[id].v.refs;
        forall j | j in net.nodes ensures k !in net.nodes[j].outs {
          SplicedOutputs(lib, p, b, j);
        }
      }
    }
  }

  /** Running a block is running its vertices in the surrounding DAG. */
  lemma BlockIsItsVertices(lib: Lib, vars: string -> set<string>, p: Pipeline, rank: Id -> nat,
                           gvk: Option<string>, data: Value, b: Id, acts: seq<Act>, acts': seq<Act>)
    requires WellFormed(lib, vars, p, rank) && b in p.places && MayMove(vars, p, b)
    requires IsRun(NetOf(lib, p), Seed(p, gvk, data), acts) && Complete(After(NetOf(lib, p), Seed(p, gvk, data), acts))
    requires var s := After(NetOf(lib, p), Seed(p, gvk, data), acts);
             RanWhole(NetOf(lib, p), s.store, FatesOf(s), b)
    requires var q := NetOf(lib, SplicePipeline(lib, p, b));
             IsRun(q, Seed(p, gvk, data), acts') && Complete(After(q, Seed(p, gvk, data), acts'))
    ensures var s, s' := After(NetOf(lib, p), Seed(p, gvk, data), acts),
                         After(NetOf(lib, SplicePipeline(lib, p, b)), Seed(p, gvk, data), acts');
            s'.store == s.store && FatesOf(s') == FatesOf(s) - {b}
  {
    var net, seed := NetOf(lib, p), Seed(p, gvk, data);
    WellFormedIsSound(lib, vars, p, rank);
    forall m | m in p.places && p.places[m].owner.Some?
      ensures p.places[m].owner.value in p.places && p.places[m].owner != Some(m) {
      OwnersAreBlocks(lib, p, rank, m);
    }
    assert Jq.ReadsOnly(lib.jq, vars) by {
      assert Steady(lib, vars, p.places[b].v, p.root);
    }
    SplicingIsVariant(lib, vars, p, b);
    NewKeysUndeclared(lib, vars, p, b);
    InliningPreservesMeaning(net, NetOf(lib, SplicePipeline(lib, p, b)), rank, seed, b, acts, acts');
  }

  // ----------------------------------------------------------------------- removal

  ghost function PrunePipeline(lib: Lib, p: Pipeline, rank: Id -> nat, b: Id): Pipeline
    requires Ranked(NetOf(lib, p), rank) && b in p.places
  {
    p.(places := map id | id in p.places && Kept(NetOf(lib, p), rank, b, id) ::
         p.places[id].(ups := PrunedNode(NetOf(lib, p), b, id).ups))
  }

  lemma PruningIsPruning(lib: Lib, p: Pipeline, rank: Id -> nat, b: Id)
    requires Ranked(NetOf(lib, p), rank) && b in p.places
    ensures NetOf(lib, PrunePipeline(lib, p, rank, b)) == Prune(NetOf(lib, p), rank, b)
  {
    var net, q := NetOf(lib, p), PrunePipeline(lib, p, rank, b);
    var nodes, nodes' := NetOf(lib, q).nodes, Prune(net, rank, b).nodes;
    forall id: Id ensures Same(nodes, nodes', id) {
      if Kept(net, rank, b, id) {
        KeptAround(net, rank, b, id);
        assert net.nodes[id].owner == p.places[id].owner;
        assert DagRoot(q, q.places[id].owner) == DagRoot(p, p.places[id].owner);
      }
    }
    SameEverywhere(nodes, nodes');
  }

  /** A block that got its turn with a false condition or an empty range. */
  ghost predicate TurnedDown(lib: Lib, p: Pipeline, s: Sys, b: Id) {
    && b in p.places && p.places[b].v.fn.ftype.BlockFn? && p.places[b].v.blockRoot.Some?
    && Ph(s, b).Done? && Ph(s, b).status.Ran?
    && TurnsDown(lib.jq, p.places[b].v.fn.block, Gather(s.store, p.places[b].v.refs))
  }

  lemma TurnedDownIsRefused(lib: Lib, p: Pipeline, seed: Store, s: Sys, b: Id)
    requires TurnedDown(lib, p, s, b) && SolvedAt(NetOf(lib, p), seed, s.store, FatesOf(s), b)
    ensures Refused(NetOf(lib, p), s.store, FatesOf(s), b)
  {
    var net := NetOf(lib, p);
    CanonicalIsValid();
    assert net.nodes[b].keys == p.places[b].v.refs;
    PlanExact(lib.jq, p.places[b].v.fn.block, Gather(s.store, p.places[b].v.refs));
    var m := Runs.Meaning(net, s.store, b);
    assert m == RunVertex(lib, p.places[b].v, p.root, Gather(s.store, p.places[b].v.refs), Canonical()).outcome;
    assert !Entered(m) && OkErr(m.err);
  }

  /** A block whose condition is false is as good as absent, together with all its vertices. */
  lemma BlockTurnedDownIsNoBlock(lib: Lib, vars: string -> set<string>, p: Pipeline, rank: Id -> nat,
                                 gvk: Option<string>, data: Value, b: Id, acts: seq<Act>, acts': seq<Act>)
    requires WellFormed(lib, vars, p, rank) && b in p.places
    requires IsRun(NetOf(lib, p), Seed(p, gvk, data), acts) && Complete(After(NetOf(lib, p), Seed(p, gvk, data), acts))
    requires TurnedDown(lib, p, After(NetOf(lib, p), Seed(p, gvk, data), acts), b)
    requires var q := NetOf(lib, PrunePipeline(lib, p, rank, b));
             IsRun(q, Seed(p, gvk, data), acts') && Complete(After(q, Seed(p, gvk, data), acts'))
    ensures var s, s' := After(NetOf(lib, p), Seed(p, gvk, data), acts),
                         After(NetOf(lib, PrunePipeline(lib, p, rank, b)), Seed(p, gvk, data), acts');
            s'.store == s.store && FatesOf(s') == PrunedFates(NetOf(lib, p), rank, FatesOf(s), b)
  {
    var net, seed := NetOf(lib, p), Seed(p, gvk, data);
    WellFormedIsSound(lib, vars, p, rank);
    var net' := NetOf(lib, PrunePipeline(lib, p, rank, b));
    assert net' == Prune(net, rank, b) by { PruningIsPruning(lib, p, rank, b); }
    FinalStateSolves(net, rank, seed, acts);
    assert SolvedAt(net, seed, After(net, seed, acts).store, FatesOf(After(net, seed, acts)), b);
    TurnedDownIsRefused(lib, p, seed, After(net, seed, acts), b);
    PrunedStory(net, net', rank, seed, b, acts, acts');
  }

  lemma PrunedStory(net: Net, net': Net, rank: Id -> nat, seed: Store, b: Id, acts: seq<Act>, acts': seq<Act>)
    requires Sound(net, rank) && b in net.nodes && net' == Prune(net, rank, b)
    requires IsRun(net, seed, acts) && Complete(After(net, seed, acts))
    requires Refused(net, After(net, seed, acts).store, FatesOf(After(net, seed, acts)), b)
    requires IsRun(net', seed, acts') && Complete(After(net', seed, acts'))
    ensures After(net', seed, acts').store == After(net, seed, acts).store
    ensures FatesOf(After(net', seed, acts')) == PrunedFates(net, rank, FatesOf(After(net, seed, acts)), b)
  {
    RefusedBlockIsNoBlock(net, rank, seed, b, acts, acts');
  }
}
