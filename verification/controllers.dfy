/** What a controller does with a pipeline: one apply reconciliation, from the custom
    resource to the objects applied and the status object. */
module Controllers {
  import opened Values
  import opened Outputs
  import opened Bags
  import opened Stores
  import opened Functions
  import opened Nets
  import opened Runs
  import opened Dataflow
  import opened History
  import opened Vertices
  import opened Meaning
  import opened Pipelines
  import opened Engines

  /** The codec and the API server: whether an object has a kind to decode by, its
      group-version-kind, and whether the n-th Apply call succeeds. */
  datatype World = World(decodes: Value -> bool, gvkOf: Value -> string, accepts: (nat, Value) -> bool)

  class Client {
    const world: World
    var applied: seq<Value>
    var calls: nat

    constructor (world: World)
      ensures this.world == world && applied == [] && calls == 0
    {
      this.world := world;
      applied, calls := [], 0;
    }

    method Apply(u: Value) returns (ok: bool)
      modifies this
      ensures calls == old(calls) + 1 && ok == world.accepts(old(calls), u)
      ensures applied == if ok then old(applied) + [u] else old(applied)
    {
      ok := world.accepts(calls, u);
      calls := calls + 1;
      if ok {
        applied := applied + [u];
      }
    }
  }

  // ----------------------------------------------------------------- the apply loop

  /** The objects of other kinds, in order. */
  function Others(w: World, outs: seq<Value>, own: string): seq<Value> {
    if outs == [] then [] else
      Others(w, outs[..|outs| - 1], own) + if w.gvkOf(outs[|outs| - 1]) == own then [] else [outs[|outs| - 1]]
  }

  /** The objects of the controller's own kind, in order. */
  function Own(w: World, outs: seq<Value>, own: string): seq<Value> {
    if outs == [] then [] else
      Own(w, outs[..|outs| - 1], own) + if w.gvkOf(outs[|outs| - 1]) == own then [outs[|outs| - 1]] else []
  }

  /** The last object of the controller's own kind. */
  function LastOwn(w: World, outs: seq<Value>, own: string): Option<Value> {
    if outs == [] then None
    else if w.gvkOf(outs[|outs| - 1]) == own then Some(outs[|outs| - 1])
    else LastOwn(w, outs[..|outs| - 1], own)
  }

  /** The object whose status is updated. */
  function StatusObject(w: World, outs: seq<Value>, own: string, cr: Value): Value {
    var mine := LastOwn(w, outs, own);
    if mine.None? then cr else mine.value
  }

  lemma Exchange(all: multiset<Value>, others: multiset<Value>, mine: multiset<Value>, x: Value)
    requires all == others + mine
    ensures all + multiset{x} == others + multiset{x} + mine
    ensures all + multiset{x} == others + (mine + multiset{x})
  {
  }

  /** Every output is either applied or of the controller's own kind, as often as it occurs. */
  lemma {:induction false} NothingLost(w: World, outs: seq<Value>, own: string)
    ensures multiset(outs) == multiset(Others(w, outs, own)) + multiset(Own(w, outs, own))
  {
    if outs != [] {
      var before, x := outs[..|outs| - 1], outs[|outs| - 1];
      NothingLost(w, before, own);
      LastInBag(outs);
      Exchange(multiset(before), multiset(Others(w, before, own)), multiset(Own(w, before, own)), x);
      if w.gvkOf(x) == own {
        SnocBag(Own(w, before, own), x);
        assert Others(w, outs, own) == Others(w, before, own);
      } else {
        SnocBag(Others(w, before, own), x);
        assert Own(w, outs, own) == Own(w, before, own);
      }
    }
  }

  /** `applied` and `mine` together are all the objects of the store's final output, as often
      as they occur there; `mine` are those of the controller's own kind. */
  ghost predicate AllHandled(w: World, store: Store, own: string, applied: seq<Value>, mine: seq<Value>) {
    && multiset(applied) + multiset(mine) == FinalObjects(store)
    && (forall x :: x in applied ==> w.gvkOf(x) != own)
    && (forall x :: x in mine ==> w.gvkOf(x) == own)
  }

  lemma OutputsAreHandled(w: World, store: Store, own: string, outs: seq<Value>)
    requires multiset(outs) == FinalObjects(store)
    ensures AllHandled(w, store, own, Others(w, outs, own), Own(w, outs, own))
  {
    NothingLost(w, outs, own);
    Sorted(w, outs, own);
  }

  /** Then every object of a list that is not internal is among them, as often as it occurs in
      the list. */
  lemma HandledInFull(w: World, store: Store, own: string, applied: seq<Value>, mine: seq<Value>, k: string, x: Value)
    requires AllHandled(w, store, own, applied, mine) && k in store && Contributes(store[k])
    ensures multiset(store[k].info.data.elems)[x] <= multiset(if w.gvkOf(x) == own then mine else applied)[x]
  {
    ListIsFinal(store, k);
    var all := multiset(applied) + multiset(mine);
    assert all[x] == multiset(store[k].info.data.elems)[x] + FinalObjects(store - {k})[x];
    if w.gvkOf(x) == own {
      assert x !in multiset(applied);
    } else {
      assert x !in multiset(mine);
    }
  }

  /** The status object is the last of the controller's own kind. */
  lemma {:induction false} LastOfOwn(w: World, outs: seq<Value>, own: string)
    ensures var mine := Own(w, outs, own); LastOwn(w, outs, own) == if mine == [] then None else Some(mine[|mine| - 1])
  {
    if outs != [] {
      LastOfOwn(w, outs[..|outs| - 1], own);
    }
  }

  lemma {:induction false} Sorted(w: World, outs: seq<Value>, own: string)
    ensures forall x :: x in Others(w, outs, own) ==> w.gvkOf(x) != own
    ensures forall x :: x in Own(w, outs, own) ==> w.gvkOf(x) == own
  {
    if outs != [] {
      Sorted(w, outs[..|outs| - 1], own);
    }
  }

  /** The outputs one by one: an object of the controller's own kind replaces the resource
      at hand, every other object is applied; the loop stops at the first failure. Either
      way the kind of the resource at hand never changes. */
  method ApplyOutputs(outs: seq<Value>, first: Value, client: Client) returns (ok: bool, cr: Value, done: nat)
    modifies client
    ensures done <= |outs| && (ok <==> done == |outs|)
    ensures client.world.gvkOf(cr) == client.world.gvkOf(first)
    ensures !ok && client.world.decodes(outs[done]) ==> client.calls > 0
    ensures var own := client.world.gvkOf(first);
            && client.applied == old(client.applied) + Others(client.world, outs[..done], own)
            && cr == StatusObject(client.world, outs[..done], own, first)
            && (forall k :: 0 <= k < done ==> client.world.decodes(outs[k]))
            && (!ok ==> !client.world.decodes(outs[done]) ||
                        (client.world.gvkOf(outs[done]) != own && !client.world.accepts(client.calls - 1, outs[done])))
    ensures client.calls - old(client.calls)
            == |Others(client.world, outs[..done], client.world.gvkOf(first))|
               + if ok || !client.world.decodes(outs[done]) then 0 else 1
  {
    ghost var own := client.world.gvkOf(first);
    cr, done := first, 0;
    while done < |outs|
      invariant done <= |outs| && client.world.gvkOf(cr) == own
      invariant client.applied == old(client.applied) + Others(client.world, outs[..done], own)
      invariant cr == StatusObject(client.world, outs[..done], own, first)
      invariant forall k :: 0 <= k < done ==> client.world.decodes(outs[k])
      invariant client.calls - old(client.calls) == |Others(client.world, outs[..done], own)|
    {
      var u := outs[done];
      if !client.world.decodes(u) {
        return false, cr, done;
      }
      assert outs[..done + 1][..done] == outs[..done];
      if client.world.gvkOf(u) == client.world.gvkOf(cr) {
        cr := u;
      } else {
        var applied := client.Apply(u);
        if !applied {
          return false, cr, done;
        }
      }
      done := done + 1;
    }
    return true, cr, done;
  }

  // ------------------------------------------------------- the order of the outputs

  lemma {:induction false} LastOwnOfTwo(w: World, outs: seq<Value>, more: seq<Value>, own: string)
    ensures LastOwn(w, outs + more, own)
            == if LastOwn(w, more, own).Some? then LastOwn(w, more, own) else LastOwn(w, outs, own)
    decreases |more|
  {
    if more == [] {
      assert outs + more == outs;
    } else {
      var n := |more| - 1;
      LastOwnOfTwo(w, outs, more[..n], own);
      assert (outs + more)[..|outs| + n] == outs + more[..n];
    }
  }

  /** The status object one store entry would leave. */
  ghost function EntryStatus(w: World, e: Entry, own: string): Option<Value> {
    LastOwn(w, Listed(e), own)
  }

  ghost function StoreStatus(w: World, store: Store, order: seq<string>, own: string): Option<Value>
    requires forall i :: 0 <= i < |order| ==> order[i] in store
  {
    LastOwn(w, ListedAlong(store, order), own)
  }

  /** All entries with objects of the controller's own kind end with the same one. */
  ghost predicate OneStatus(w: World, store: Store, own: string) {
    forall k, k' :: k in store && k' in store &&
                    EntryStatus(w, store[k], own).Some? && EntryStatus(w, store[k'], own).Some? ==>
      EntryStatus(w, store[k], own) == EntryStatus(w, store[k'], own)
  }

  lemma StatusNext(w: World, store: Store, order: seq<string>, own: string)
    requires order != [] && forall i :: 0 <= i < |order| ==> order[i] in store
    ensures var rest := StoreStatus(w, store, order[1..], own);
            StoreStatus(w, store, order, own) == if rest.Some? then rest else EntryStatus(w, store[order[0]], own)
  {
    LastOwnOfTwo(w, Listed(store[order[0]]), ListedAlong(store, order[1..]), own);
  }

  /** The status comes from some entry visited. */
  lemma {:induction false} StatusFrom(w: World, store: Store, order: seq<string>, own: string) returns (k: string)
    requires forall i :: 0 <= i < |order| ==> order[i] in store
    requires StoreStatus(w, store, order, own).Some?
    ensures k in store && EntryStatus(w, store[k], own) == StoreStatus(w, store, order, own)
  {
    StatusNext(w, store, order, own);
    if StoreStatus(w, store, order[1..], own).Some? {
      k := StatusFrom(w, store, order[1..], own);
    } else {
      k := order[0];
    }
  }

  /** An entry that offers a status is not passed over in favour of none. */
  lemma {:induction false} StatusGiven(w: World, store: Store, order: seq<string>, own: string, k: string)
    requires forall i :: 0 <= i < |order| ==> order[i] in store
    requires k in order && k in store && EntryStatus(w, store[k], own).Some?
    ensures StoreStatus(w, store, order, own).Some?
  {
    StatusNext(w, store, order, own);
    if k != order[0] {
      InTail(order, k);
      StatusGiven(w, store, order[1..], own, k);
    }
  }

  lemma InTail(order: seq<string>, k: string)
    requires order != [] && k in order && k != order[0]
    ensures k in order[1..]
  {
    var i :| 0 <= i < |order| && order[i] == k;
    assert order[1..][i - 1] == k;
  }

  /** The entry visited last has the last word. */
  lemma LastEntryDecides(w: World, store: Store, rest: seq<string>, k: string, own: string)
    requires (forall i :: 0 <= i < |rest| ==> rest[i] in store) && k in store && EntryStatus(w, store[k], own).Some?
    ensures StoreStatus(w, store, rest + [k], own) == EntryStatus(w, store[k], own)
  {
    ListedSnoc(store, rest, k);
    LastOwnOfTwo(w, ListedAlong(store, rest), Listed(store[k]), own);
  }

  lemma ListedOne(store: Store, k: string)
    requires k in store
    ensures ListedAlong(store, [k]) == Listed(store[k])
  {
    var one := [k];
    assert one[1..] == [];
  }

  lemma ListedFirst(store: Store, k: string, rest: seq<string>)
    requires k in store && forall i :: 0 <= i < |rest| ==> rest[i] in store
    ensures ListedAlong(store, [k] + rest) == Listed(store[k]) + ListedAlong(store, rest)
  {
    assert ([k] + rest)[1..] == rest;
  }

  lemma {:induction false} ListedSnoc(store: Store, rest: seq<string>, k: string)
    requires (forall i :: 0 <= i < |rest| ==> rest[i] in store) && k in store
    ensures ListedAlong(store, rest + [k]) == ListedAlong(store, rest) + Listed(store[k])
  {
    if rest == [] {
      ListedOne(store, k);
      assert rest + [k] == [k];
    } else {
      var first, more := rest[0], rest[1..];
      ListedSnoc(store, more, k);
      ListedFirst(store, first, more + [k]);
      assert [first] + (more + [k]) == rest + [k];
      assert ListedAlong(store, rest) == Listed(store[first]) + ListedAlong(store, more);
    }
  }

  /** Go may visit any entry last. */
  lemma VisitedLast(w: World, store: Store, k: string, own: string) returns (order: seq<string>)
    requires k in store && EntryStatus(w, store[k], own).Some?
    ensures IsOrder(order, store.Keys) && StoreStatus(w, store, order, own) == EntryStatus(w, store[k], own)
  {
    var rest := SomeLast(store.Keys, k);
    order := rest + [k];
    LastEntryDecides(w, store, rest, k, own);
  }

  lemma SameStatus(w: World, store: Store, own: string, order: seq<string>, order': seq<string>)
    requires OneStatus(w, store, own) && IsOrder(order, store.Keys) && IsOrder(order', store.Keys)
    requires StoreStatus(w, store, order, own).Some?
    ensures StoreStatus(w, store, order', own) == StoreStatus(w, store, order, own)
  {
    var k := StatusFrom(w, store, order, own);
    assert k in order';
    StatusGiven(w, store, order', own, k);
    var k' := StatusFrom(w, store, order', own);
  }

  ghost predicate StatusFixed(w: World, store: Store, own: string) {
    forall order, order' :: IsOrder(order, store.Keys) && IsOrder(order', store.Keys) ==>
      StoreStatus(w, store, order, own) == StoreStatus(w, store, order', own)
  }

  /** The status object is the same for every order in which Go visits the store iff all
      entries that offer one offer the same one; otherwise it is a matter of chance. */
  lemma StatusIsChance(w: World, store: Store, own: string)
    ensures OneStatus(w, store, own) <==> StatusFixed(w, store, own)
  {
    if OneStatus(w, store, own) {
      forall order, order' | IsOrder(order, store.Keys) && IsOrder(order', store.Keys)
        ensures StoreStatus(w, store, order, own) == StoreStatus(w, store, order', own) {
        if StoreStatus(w, store, order, own).Some? {
          SameStatus(w, store, own, order, order');
        } else if StoreStatus(w, store, order', own).Some? {
          SameStatus(w, store, own, order', order);
        }
      }
    }
    if StatusFixed(w, store, own) {
      forall k, k' | k in store && k' in store &&
                     EntryStatus(w, store[k], own).Some? && EntryStatus(w, store[k'], own).Some?
        ensures EntryStatus(w, store[k], own) == EntryStatus(w, store[k'], own) {
        FixedMeansOne(w, store, own, k, k');
      }
    }
  }

  lemma FixedMeansOne(w: World, store: Store, own: string, k: string, k': string)
    requires StatusFixed(w, store, own) && k in store && k' in store
    requires EntryStatus(w, store[k], own).Some? && EntryStatus(w, store[k'], own).Some?
    ensures EntryStatus(w, store[k], own) == EntryStatus(w, store[k'], own)
  {
    var order := VisitedLast(w, store, k, own);
    var order' := VisitedLast(w, store, k', own);
  }

  // ---------------------------------------------------------------- a reconciliation

  /** An entry of the store is the seeded one unless the vertex that declares it published. */
  lemma WhoWrote(net: Net, rank: Id -> nat, seed: Store, acts: seq<Act>, k: string)
    requires Sound(net, rank) && IsRun(net, seed, acts) && Complete(After(net, seed, acts))
    ensures var f := After(net, seed, acts).store;
            && (!Owned(net, k) ==> Same(f, seed, k))
            && forall id :: id in net.nodes && k in net.nodes[id].outs ==>
                 if id in FatesOf(After(net, seed, acts)) && FatesOf(After(net, seed, acts))[id].Ran?
                    && k in OutMap(Runs.Meaning(net, f, id))
                 then k in f && f[k] == OutMap(Runs.Meaning(net, f, id))[k]
                 else Same(f, seed, k)
  {
    FinalStateSolves(net, rank, seed, acts);
    var s := After(net, seed, acts);
    forall id | id in net.nodes && k in net.nodes[id].outs
      ensures if id in FatesOf(s) && FatesOf(s)[id].Ran? && k in OutMap(Runs.Meaning(net, s.store, id))
              then k in s.store && s.store[k] == OutMap(Runs.Meaning(net, s.store, id))[k]
              else Same(s.store, seed, k) {
      assert SolvedAt(net, seed, s.store, FatesOf(s), id);
    }
  }

  lemma NoListNoObject(store: Store, k: string)
    requires k in store && !Contributes(store[k])
    ensures FinalObjects(store) == FinalObjects(store - {k})
  {
    OnlyListsCount(store, store - {k});
  }

  /** Vertex `id`, if it declares the root entry, decides what it is in the end. */
  ghost predicate RootDecided(net: Net, seed: Store, s: Sys, root: string, id: Id)
    requires id in net.nodes
  {
    var out := OutMap(Runs.Meaning(net, s.store, id));
    root in net.nodes[id].outs ==>
      if id in FatesOf(s) && FatesOf(s)[id].Ran? && root in out then root in s.store && s.store[root] == out[root]
      else Same(s.store, seed, root)
  }

  lemma RootIsThere(net: Net, rank: Id -> nat, seed: Store, acts: seq<Act>, root: string)
    requires Sound(net, rank) && IsRun(net, seed, acts) && Complete(After(net, seed, acts)) && root in seed
    ensures root in After(net, seed, acts).store
    ensures (!Owned(net, root) ==> Same(After(net, seed, acts).store, seed, root))
    ensures forall id :: id in net.nodes ==> RootDecided(net, seed, After(net, seed, acts), root, id)
  {
    WhoWrote(net, rank, seed, acts, root);
    if Owned(net, root) {
      var id :| id in net.nodes && root in net.nodes[id].outs;
      assert id in net.nodes;
    }
  }

  /** The root entry is always there. Unless a vertex declares and publishes it, it is the
      seeded one, which is internal and adds nothing to the final output. */
  lemma RootIsLeftOut(lib: Lib, vars: string -> set<string>, p: Pipeline, rank: Id -> nat,
                      gvk: Option<string>, data: Value, acts: seq<Act>)
    requires WellFormed(lib, vars, p, rank) && IsRun(NetOf(lib, p), Seed(p, gvk, data), acts)
    requires Complete(After(NetOf(lib, p), Seed(p, gvk, data), acts))
    ensures var net, seed, s := NetOf(lib, p), Seed(p, gvk, data), After(NetOf(lib, p), Seed(p, gvk, data), acts);
            && p.root in s.store
            && (RootIsOwn(p) ==> Same(s.store, seed, p.root))
            && (Same(s.store, seed, p.root) ==> FinalObjects(s.store) == FinalObjects(s.store - {p.root}))
            && (forall id :: id in net.nodes ==> RootDecided(net, seed, s, p.root, id))
  {
    WellFormedIsSound(lib, vars, p, rank);
    if RootIsOwn(p) {
      RootIsUnowned(lib, p);
    }
    RootIsThere(NetOf(lib, p), rank, Seed(p, gvk, data), acts, p.root);
    var store := After(NetOf(lib, p), Seed(p, gvk, data), acts).store;
    if Same(store, Seed(p, gvk, data), p.root) {
      NoListNoObject(store, p.root);
    }
  }

  /** The apply branch of Reconcile: a new store and log, a run of the pipeline, and the
      outputs applied. Whatever schedule the executor follows and whatever order Go visits
      its maps in, the printed verdict and the objects handed over are those of any other
      complete run of the pipeline. */
  method ReconcileApply(lib: Lib, pipe: Pipeline, choice: Id -> Orders, orders: Orders, gvk: Option<string>, cr: Value,
                        client: Client, ghost rank: Id -> nat, ghost vars: string -> set<string>)
    returns (outs: seq<Value>, verdict: bool, ok: bool, status: Value, done: nat)
    requires Ranked(NetOf(lib, pipe), rank) && (forall id: Id :: ValidOrders(choice(id))) && ValidOrders(orders)
    modifies client
    ensures WellFormed(lib, vars, pipe, rank) ==>
              forall acts :: IsRun(NetOf(lib, pipe), Seed(pipe, gvk, cr), acts) &&
                             Complete(After(NetOf(lib, pipe), Seed(pipe, gvk, cr), acts)) ==>
                var s := After(NetOf(lib, pipe), Seed(pipe, gvk, cr), acts);
                && verdict == Verdict(s.log) && multiset(outs) == FinalObjects(s.store)
                && AllHandled(client.world, s.store, client.world.gvkOf(cr),
                              Others(client.world, outs, client.world.gvkOf(cr)),
                              Own(client.world, outs, client.world.gvkOf(cr)))
                && (RootIsOwn(pipe) ==> multiset(outs) == FinalObjects(s.store - {pipe.root}))
    ensures done <= |outs| && (ok <==> done == |outs|)
    ensures ok ==> client.applied == old(client.applied) + Others(client.world, outs, client.world.gvkOf(cr))
    ensures var own := client.world.gvkOf(cr);
            && client.world.gvkOf(status) == own
            && status == StatusObject(client.world, outs[..done], own, cr)
            && client.applied == old(client.applied) + Others(client.world, outs[..done], own)
  {
    var o, log := RunPipeline(lib, pipe, choice, gvk, cr, rank, vars);
    verdict := log.Print();
    outs := o.GetFinalOutput(orders(0, o.entries.Keys));
    ok, status, done := ApplyOutputs(outs, cr, client);
    assert outs[..|outs|] == outs;
    if multiset(outs) == FinalObjects(o.entries) {
      OutputsAreHandled(client.world, o.entries, client.world.gvkOf(cr), outs);
    }
  }

  method RunPipeline(lib: Lib, pipe: Pipeline, choice: Id -> Orders, gvk: Option<string>, cr: Value,
                     ghost rank: Id -> nat, ghost vars: string -> set<string>)
    returns (o: Output, log: ResultLog)
    requires Ranked(NetOf(lib, pipe), rank) && (forall id: Id :: ValidOrders(choice(id)))
    ensures fresh(o) && fresh(log)
    ensures WellFormed(lib, vars, pipe, rank) ==>
              forall acts :: IsRun(NetOf(lib, pipe), Seed(pipe, gvk, cr), acts) &&
                             Complete(After(NetOf(lib, pipe), Seed(pipe, gvk, cr), acts)) ==>
                var s := After(NetOf(lib, pipe), Seed(pipe, gvk, cr), acts);
                && Verdict(log.records) == Verdict(s.log) && o.entries == s.store
                && (RootIsOwn(pipe) ==> FinalObjects(o.entries) == FinalObjects(s.store - {pipe.root}))
  {
    o := new Output();
    log := new ResultLog();
    var e := new Engine(lib, pipe, choice, o, log, gvk, cr, rank);
    e.RunDag(None);
    if WellFormed(lib, vars, pipe, rank) {
      forall acts | IsRun(NetOf(lib, pipe), Seed(pipe, gvk, cr), acts) &&
                    Complete(After(NetOf(lib, pipe), Seed(pipe, gvk, cr), acts))
        ensures var s := After(NetOf(lib, pipe), Seed(pipe, gvk, cr), acts);
                && Verdict(log.records) == Verdict(s.log) && o.entries == s.store
                && (RootIsOwn(pipe) ==> FinalObjects(o.entries) == FinalObjects(s.store - {pipe.root})) {
        PipelineConfluence(lib, vars, pipe, rank, gvk, cr, e.trace, acts);
        RootIsLeftOut(lib, vars, pipe, rank, gvk, cr, acts);
      }
    }
  }
}
