/** The marks of a store entry: what a vertex publishes is internal or not and has the kind
    that it declares for the variable, and it is never conditioned. Hence what reaches the
    final output is what is declared for it. */
module Marks {
  import opened Values
  import opened Outputs
  import opened Functions
  import opened Loop
  import opened Stores
  import opened Nets
  import opened Runs
  import opened Dataflow
  import opened Pipelines
  import opened Gathering

  ghost predicate Marked(declared: Entry, e: Entry) {
    && declared.Info? && e.Info?
    && e.info.isInternal == declared.info.isInternal && e.info.gvk == declared.info.gvk && !e.info.conditioned
  }

  /** Every entry has the marks declared for it. */
  ghost predicate AsDeclared(v: Vertex, o: Store) {
    forall k :: k in o ==> k in v.outputs && Marked(v.outputs[k], o[k])
  }

  ghost predicate DeclaredRec(v: Vertex, r: Recorder) {
    r.Image? ==> AsDeclared(v, r.out)
  }

  lemma {:induction false} PublishDeclared(v: Vertex, data: Value, order: seq<string>, o: Store)
    requires AsDeclared(v, o) && forall i :: 0 <= i < |order| ==> order[i] in v.outputs
    ensures var r := PublishAlong(v.outputs, data, order, o); r.out.Some? && AsDeclared(v, r.out.value)
    decreases |order|
  {
    if order != [] && v.outputs[order[0]].Info? {
      PublishDeclared(v, data, order[1..], o[order[0] := Published(v.outputs[order[0]].info, data)]);
    }
  }

  lemma {:induction false} ResponseDeclared(v: Vertex, r: Recorder, resp: Response, order: seq<string>)
    requires r.Image? && AsDeclared(v, r.out) && forall i :: 0 <= i < |order| ==> order[i] in resp
    ensures AsDeclared(v, RecordResponse(v, r, resp, order).out)
    decreases |order|
  {
    if order != [] {
      var g := order[0];
      if g !in v.gvkToVar {
        ResponseDeclared(v, r, resp, order[1..]);
      } else if v.gvkToVar[g] in v.outputs && v.outputs[v.gvkToVar[g]].Info? {
        var raws := resp[g];
        var errs := if AllUsable(raws) then r.errs else r.errs + [Undecodable];
        var out := r.out[v.gvkToVar[g] := Published(v.outputs[v.gvkToVar[g]].info, Arr(Decoded(raws)))];
        ResponseDeclared(v, Image(out, errs), resp, order[1..]);
      }
    }
  }

  lemma RunOnceDeclared(lib: Lib, v: Vertex, root: string, o: Orders, j: nat, p: Progress)
    requires ValidOrders(o) && DeclaredRec(v, p.rec)
    ensures var q := RunOnce(lib, v, root, o, j, p); q.Some? ==> DeclaredRec(v, q.value.rec)
  {
    var fi := Filter(v, root, p.env);
    var x := Run(lib, v, fi, EnvOrder(o, j, fi), j);
    if x.Some? && x.value.Ctx? && p.rec.Image? {
      ResponseDeclared(v, p.rec, x.value.resp, RespOrder(o, j, x.value));
    }
  }

  lemma {:induction false} TurnsDeclared(lib: Lib, v: Vertex, root: string, o: Orders, items: seq<Value>, n: nat,
                                         p: Progress)
    requires ValidOrders(o) && n <= |items| && DeclaredRec(v, p.rec)
    ensures var q := Turns(lib, v, root, o, items, n, p); q.Some? ==> DeclaredRec(v, q.value.rec)
  {
    if n > 0 {
      TurnsDeclared(lib, v, root, o, items, n - 1, p);
      var q := Turns(lib, v, root, o, items, n - 1, p);
      if q.Some? {
        var r := Resolved(lib, v, o, n - 1, q.value.(env := Bind(q.value.env, items[n - 1], n - 1)));
        if r.Some? {
          RunOnceDeclared(lib, v, root, o, n - 1, r.value);
        }
      }
    }
  }

  lemma FinishedDeclared(v: Vertex, o: Orders, p: Option<Progress>)
    requires ValidOrders(o) && (p.Some? ==> DeclaredRec(v, p.value.rec))
    ensures var r := Finished(v, o, p).outcome; r.out.Some? ==> AsDeclared(v, r.out.value)
  {
    if p.Some? {
      match p.value.rec {
        case Items(items) => PublishDeclared(v, Arr(items), OutOrder(o, v), map[]);
        case Pairs(dict) => PublishDeclared(v, Obj(dict), OutOrder(o, v), map[]);
        case Last(x) => PublishDeclared(v, x, OutOrder(o, v), map[]);
        case _ =>
      }
    }
  }

  lemma EndDeclared(lib: Lib, v: Vertex, root: string, o: Orders, j: nat, p: Progress)
    requires ValidOrders(o) && DeclaredRec(v, p.rec)
    ensures var r := Finished(v, o, SingleTurn(lib, v, root, o, j, p)).outcome;
            r.out.Some? ==> AsDeclared(v, r.out.value)
  {
    var r := Resolved(lib, v, o, j, p.(rec := Reset(p.rec)));
    if r.Some? {
      RunOnceDeclared(lib, v, root, o, j, r.value);
    }
    FinishedDeclared(v, o, SingleTurn(lib, v, root, o, j, p));
  }

  /** What a vertex publishes, whatever its type and the orders, has the marks it declares. */
  lemma VertexPublishesAsDeclared(lib: Lib, v: Vertex, root: string, env: Env, o: Orders)
    requires ValidOrders(o)
    ensures var r := RunVertex(lib, v, root, env, o).outcome; r.out.Some? ==> AsDeclared(v, r.out.value)
  {
    var start := Progress(env, NewRecorder(v.fn.ftype), []);
    match PlanOf(lib.jq, v.fn.block, env) {
      case Once => EndDeclared(lib, v, root, o, 0, start);
      case Over(items) =>
        var begin := start.(rec := Reset(start.rec));
        TurnsDeclared(lib, v, root, o, items, |items|, begin);
        var q := Turns(lib, v, root, o, items, |items|, begin);
        if q.Some? {
          EndDeclared(lib, v, root, o, |items|, q.value);
        }
      case _ =>
    }
  }

  // ------------------------------------------------------------------------- whole runs

  /** Some vertex declares the variable with these marks. */
  ghost predicate DeclaredAs(p: Pipeline, k: string, e: Entry) {
    exists id :: id in p.places && k in p.places[id].v.outputs && Marked(p.places[id].v.outputs[k], e)
  }

  /** An entry is the seeded one or has the marks that a vertex declares for it. */
  ghost predicate Traced(p: Pipeline, seed: Store, store: Store) {
    forall k :: k in store ==> Same(store, seed, k) || DeclaredAs(p, k, store[k])
  }

  lemma StepTraced(lib: Lib, p: Pipeline, seed: Store, s: Sys, a: Act)
    requires Traced(p, seed, s.store) && Enabled(NetOf(lib, p), s, a)
    ensures Traced(p, seed, Next(NetOf(lib, p), s, a).store)
  {
    if a.Finish? {
      VertexPublishesAsDeclared(lib, p.places[a.id].v, p.root, Ph(s, a.id).env, a.o);
    }
  }

  /** At every point of every run each entry is the seeded one or as its vertex declares it. */
  lemma {:induction false} EntriesAreTraced(lib: Lib, p: Pipeline, gvk: Option<string>, data: Value, acts: seq<Act>)
    requires IsRun(NetOf(lib, p), Seed(p, gvk, data), acts)
    ensures Traced(p, Seed(p, gvk, data), After(NetOf(lib, p), Seed(p, gvk, data), acts).store)
    decreases |acts|
  {
    if acts != [] {
      var before := acts[..|acts| - 1];
      EntriesAreTraced(lib, p, gvk, data, before);
      StepTraced(lib, p, Seed(p, gvk, data), After(NetOf(lib, p), Seed(p, gvk, data), before), acts[|acts| - 1]);
    }
  }

  /** The entry of a declared variable, once it is there, is internal iff it is declared so and
      has the declared kind; only the root entry may still be the seeded one. */
  lemma DeclaredMarks(lib: Lib, vars: string -> set<string>, p: Pipeline, rank: Id -> nat, gvk: Option<string>,
                      data: Value, acts: seq<Act>, id: Id, k: string)
    requires WellFormed(lib, vars, p, rank) && IsRun(NetOf(lib, p), Seed(p, gvk, data), acts)
    requires id in p.places && k in p.places[id].v.outputs
    ensures var store, declared := After(NetOf(lib, p), Seed(p, gvk, data), acts).store, p.places[id].v.outputs[k];
            k in store && (k != p.root || !Same(store, Seed(p, gvk, data), k)) ==>
              && declared.Info? && store[k].Info?
              && store[k].info.isInternal == declared.info.isInternal && store[k].info.gvk == declared.info.gvk
  {
    EntriesAreTraced(lib, p, gvk, data, acts);
    var store := After(NetOf(lib, p), Seed(p, gvk, data), acts).store;
    if k in store && (k != p.root || !Same(store, Seed(p, gvk, data), k)) {
      var j :| j in p.places && k in p.places[j].v.outputs && Marked(p.places[j].v.outputs[k], store[k]);
      assert j == id;
    }
  }

  /** No function copies the conditioned mark of a declared output, so at no point of any run
      does the store hold a conditioned entry. */
  lemma NothingIsConditioned(lib: Lib, p: Pipeline, gvk: Option<string>, data: Value, acts: seq<Act>)
    requires IsRun(NetOf(lib, p), Seed(p, gvk, data), acts)
    ensures var store := After(NetOf(lib, p), Seed(p, gvk, data), acts).store;
            Conditioned(store) == map[] && forall k :: k in store ==> store[k].Info? && !store[k].info.conditioned
  {
    EntriesAreTraced(lib, p, gvk, data, acts);
  }

  /** The part of the store that some vertex declares as not internal. */
  ghost function Meant(p: Pipeline, store: Store): Store {
    map k | k in store && (exists id :: id in p.places && MeantBy(p.places[id].v, k)) :: store[k]
  }

  ghost predicate MeantBy(v: Vertex, k: string) {
    k in v.outputs && v.outputs[k].Info? && !v.outputs[k].info.isInternal
  }

  /** Variables declared internal, and the seeded root entry, add nothing to the final output. */
  lemma InternalAddsNothing(lib: Lib, p: Pipeline, gvk: Option<string>, data: Value, acts: seq<Act>)
    requires IsRun(NetOf(lib, p), Seed(p, gvk, data), acts)
    ensures var store := After(NetOf(lib, p), Seed(p, gvk, data), acts).store;
            FinalObjects(store) == FinalObjects(Meant(p, store))
  {
    EntriesAreTraced(lib, p, gvk, data, acts);
    var store := After(NetOf(lib, p), Seed(p, gvk, data), acts).store;
    forall k | k in store && k !in Meant(p, store) ensures !Contributes(store[k]) {
      if !Same(store, Seed(p, gvk, data), k) {
        var id :| id in p.places && k in p.places[id].v.outputs && Marked(p.places[id].v.outputs[k], store[k]);
        assert !MeantBy(p.places[id].v, k);
      }
    }
    OnlyListsCount(store, Meant(p, store));
  }

  /** A list that a vertex publishes for a variable not declared internal is in the final
      output in full. */
  lemma PublishedIsFinal(lib: Lib, vars: string -> set<string>, p: Pipeline, rank: Id -> nat, gvk: Option<string>,
                         data: Value, acts: seq<Act>, id: Id, env: Env, o: Orders, k: string)
    requires WellFormed(lib, vars, p, rank) && IsRun(NetOf(lib, p), Seed(p, gvk, data), acts)
    requires Complete(After(NetOf(lib, p), Seed(p, gvk, data), acts)) && ValidOrders(o)
    requires var s := After(NetOf(lib, p), Seed(p, gvk, data), acts);
             id in p.places && InputFrom(env, InputNames(p, id), s.store) && id in FatesOf(s) && FatesOf(s)[id].Ran?
    requires var out := RunVertex(lib, p.places[id].v, p.root, env, o).outcome.out;
             && out.Some? && k in out.value && out.value[k].Info? && out.value[k].info.data.Arr?
             && MeantBy(p.places[id].v, k)
    ensures var store := After(NetOf(lib, p), Seed(p, gvk, data), acts).store;
            var xs := RunVertex(lib, p.places[id].v, p.root, env, o).outcome.out.value[k].info.data.elems;
            k in store && FinalObjects(store) == multiset(xs) + FinalObjects(store - {k})
  {
    OutcomeOnFinalInput(lib, vars, p, rank, gvk, data, acts, id, env, o);
    VertexPublishesAsDeclared(lib, p.places[id].v, p.root, env, o);
    ListIsFinal(After(NetOf(lib, p), Seed(p, gvk, data), acts).store, k);
  }
}
