/** What every interleaving of a run keeps, and what every complete run ends in. */
module Runs {
  import opened Values
  import opened Outputs
  import opened Nets

  // ------------------------------------------------------------ structural invariant

  ghost predicate Opened(p: Phase) {
    p.Inside? || p.Logging? || (p.Done? && p.status.Ran?)
  }

  ghost predicate Over(p: Phase) {
    p.Logging? || p.Done?
  }

  ghost predicate StructAt(net: Net, s: Sys, id: Id)
    requires id in net.nodes
  {
    var p, ow := Ph(s, id), net.nodes[id].owner;
    && (!p.Idle? ==> UpsDone(net, s, id))
    && (!p.Idle? && ow.Some? ==> Opened(Ph(s, ow.value)))
    && (ow.Some? && Over(Ph(s, ow.value)) ==> p.Idle? || p.Done?)
    && (p.Reading? ==> p.at <= |net.nodes[id].keys|)
    && (p.Inside? ==> net.nodes[id].inner.Some?)
  }

  ghost predicate Struct(net: Net, s: Sys) {
    && s.phase.Keys <= net.nodes.Keys
    && (forall id :: id in net.nodes ==> StructAt(net, s, id))
  }

  /** The vertex whose phase an action moves. */
  ghost function Mover(a: Act): Option<Id> {
    if a.Total? then a.dag else Some(a.id)
  }

  lemma OthersKeepPhase(net: Net, s: Sys, a: Act)
    requires Enabled(net, s, a)
    ensures forall id: Id :: Mover(a) != Some(id) ==> Ph(Next(net, s, a), id) == Ph(s, id)
    ensures Mover(a).Some? ==> Mover(a).value in net.nodes && !Ph(s, Mover(a).value).Done?
    ensures Mover(a).Some? && Opened(Ph(s, Mover(a).value)) ==> Opened(Ph(Next(net, s, a), Mover(a).value))
    ensures Mover(a).Some? ==> !Ph(Next(net, s, a), Mover(a).value).Idle?
  {
  }

  lemma MoverKeepsStruct(net: Net, rank: Id -> nat, s: Sys, a: Act)
    requires Ranked(net, rank) && Struct(net, s) && Enabled(net, s, a) && Mover(a).Some?
    ensures StructAt(net, Next(net, s, a), Mover(a).value)
  {
    var p := Mover(a).value;
    OthersKeepPhase(net, s, a);
    assert StructAt(net, s, p);
    forall u | u in net.nodes[p].ups ensures u != p {}
    assert net.nodes[p].owner != Some(p);
    if net.nodes[p].owner.Some? {
      assert net.nodes[p].owner.value in net.nodes;
    }
  }

  lemma OthersKeepStruct(net: Net, rank: Id -> nat, s: Sys, a: Act, id: Id)
    requires Ranked(net, rank) && Struct(net, s) && Enabled(net, s, a) && id in net.nodes && Mover(a) != Some(id)
    ensures StructAt(net, Next(net, s, a), id)
  {
    OthersKeepPhase(net, s, a);
    assert StructAt(net, s, id);
    if Mover(a).Some? && net.nodes[id].owner == Mover(a) {
      var b := Mover(a).value;
      assert StructAt(net, s, b);
      if a.Finish? || a.Skip? {
        assert !Opened(Ph(s, b));
      }
    }
  }

  lemma StructStep(net: Net, rank: Id -> nat, s: Sys, a: Act)
    requires Ranked(net, rank) && Struct(net, s) && Enabled(net, s, a)
    ensures Struct(net, Next(net, s, a))
  {
    forall id | id in net.nodes ensures StructAt(net, Next(net, s, a), id) {
      if Mover(a) == Some(id) {
        MoverKeepsStruct(net, rank, s, a);
      } else {
        OthersKeepStruct(net, rank, s, a, id);
      }
    }
  }

  // ------------------------------------------------------- what can no longer change

  /** `q` is through, or lies in a DAG whose block is through. */
  ghost predicate Settled(net: Net, rank: Id -> nat, s: Sys, q: Id)
    requires Ranked(net, rank) && q in net.nodes
    decreases rank(q)
  {
    Over(Ph(s, q)) || (net.nodes[q].owner.Some? && Settled(net, rank, s, net.nodes[q].owner.value))
  }

  /** A vertex at work is not settled, nor is any block around it. */
  lemma {:induction false} BusyIsUnsettled(net: Net, rank: Id -> nat, s: Sys, q: Id)
    requires Ranked(net, rank) && Struct(net, s) && q in net.nodes
    requires Ph(s, q).Reading? || Ph(s, q).Inside?
    ensures !Settled(net, rank, s, q)
    decreases rank(q)
  {
    assert StructAt(net, s, q);
    if net.nodes[q].owner.Some? {
      BusyIsUnsettled(net, rank, s, net.nodes[q].owner.value);
    }
  }

  lemma {:induction false} WithinSettled(net: Net, rank: Id -> nat, s: Sys, q: Id, a: Id)
    requires Ranked(net, rank) && q in net.nodes && a in net.nodes
    requires Within(net, rank, q, a) && Settled(net, rank, s, a)
    ensures Settled(net, rank, s, q)
    decreases rank(q)
  {
    var b := net.nodes[q].owner.value;
    if b != a {
      WithinSettled(net, rank, s, b, a);
    }
  }

  /** When a vertex has started, everything before it is settled. */
  lemma {:induction false} BeforeIsSettled(net: Net, rank: Id -> nat, s: Sys, q: Id, p: Id)
    requires Ranked(net, rank) && Struct(net, s) && q in net.nodes && p in net.nodes
    requires Before(net, rank, q, p) && !Ph(s, p).Idle?
    ensures Settled(net, rank, s, q)
    decreases rank(p)
  {
    assert StructAt(net, s, p);
    if u :| u in net.nodes[p].ups && (u == q || Within(net, rank, q, u) || Before(net, rank, q, u)) {
      if u == q {
      } else if Within(net, rank, q, u) {
        WithinSettled(net, rank, s, q, u);
      } else {
        BeforeIsSettled(net, rank, s, q, u);
      }
    } else {
      BeforeIsSettled(net, rank, s, q, net.nodes[p].owner.value);
    }
  }

  // --------------------------------------------------------------- data-flow meaning

  /** The outcome of a vertex on the inputs a store offers. */
  ghost function Meaning(net: Net, store: Store, id: Id): Outcome
    requires id in net.nodes
  {
    net.nodes[id].run(Gather(store, net.nodes[id].keys), Canonical())
  }

  ghost predicate SameOn(m: Store, m': Store, ks: set<string>) {
    forall k :: k in ks ==> Same(m, m', k)
  }

  /** What a phase says about the store and the meaning of its vertex. */
  ghost predicate SemAt(net: Net, seed: Store, s: Sys, id: Id)
    requires id in net.nodes
  {
    var n, m := net.nodes[id], Meaning(net, s.store, id);
    && (n.owner.Some? && n.owner.value in net.nodes && !Ph(s, id).Idle? ==>
          Entered(Meaning(net, s.store, n.owner.value)))
    && match Ph(s, id)
       case Idle => SameOn(s.store, seed, n.outs)
       case Reading(k, env) =>
         k <= |n.keys| && env == Gather(s.store, n.keys[..k]) && SameOn(s.store, seed, n.outs) && !Barred(net, s, id)
       case Inside => Entered(m) && SameOn(s.store, seed, n.outs) && !Barred(net, s, id)
       case Logging(err) =>
         && err == m.err && SameOn(s.store, seed + OutMap(m), n.outs) && !Barred(net, s, id)
         && (n.inner.Some? && Entered(m) ==> AllDone(net, s, Some(id)))
       case Done(status) =>
         if status.Skipped? then Barred(net, s, id) && SameOn(s.store, seed, n.outs)
         else
           && status.ok == OkErr(m.err) && SameOn(s.store, seed + OutMap(m), n.outs) && !Barred(net, s, id)
           && (n.inner.Some? && Entered(m) ==> AllDone(net, s, Some(id)))
  }

  ghost predicate Sem(net: Net, seed: Store, s: Sys) {
    && (forall id :: id in net.nodes ==> SemAt(net, seed, s, id))
    && (forall k :: !Owned(net, k) ==> Same(s.store, seed, k))
  }

  lemma GatherFrame(store: Store, store': Store, keys: seq<string>)
    requires forall k :: k in keys ==> Same(store, store', k)
    ensures Gather(store, keys) == Gather(store', keys)
  {
  }

  /** The inputs of a vertex that has started are out of reach of every later write. */
  lemma InputsAreStable(net: Net, rank: Id -> nat, s: Sys, p: Id, w: Id, store': Store)
    requires Sound(net, rank) && Struct(net, s) && p in net.nodes && !Ph(s, p).Idle?
    requires w in net.nodes && Ph(s, w).Reading?
    requires forall k :: k !in net.nodes[w].outs ==> Same(s.store, store', k)
    ensures forall k :: k in net.nodes[p].keys ==> Same(s.store, store', k)
  {
    BusyIsUnsettled(net, rank, s, w);
    forall k | k in net.nodes[p].keys ensures k !in net.nodes[w].outs {
      if k in net.nodes[w].outs {
        BeforeIsSettled(net, rank, s, w, p);
      }
    }
  }

  /** One action changes at most the outputs of the vertex that finishes. */
  lemma WriteFrame(net: Net, rank: Id -> nat, s: Sys, a: Act)
    requires Sound(net, rank) && Enabled(net, s, a)
    ensures !a.Finish? ==> Next(net, s, a).store == s.store
    ensures a.Finish? ==> forall k :: k !in net.nodes[a.id].outs ==> Same(s.store, Next(net, s, a).store, k)
  {
    if a.Finish? {
      var n := net.nodes[a.id];
      var r := n.run(Ph(s, a.id).env, a.o);
      assert Framed(n);
      assert OutMap(r).Keys <= n.outs;
    }
  }

  lemma InputsKept(net: Net, rank: Id -> nat, s: Sys, a: Act, p: Id)
    requires Sound(net, rank) && Struct(net, s) && Enabled(net, s, a) && p in net.nodes && !Ph(s, p).Idle?
    ensures forall k :: k in net.nodes[p].keys ==> Same(s.store, Next(net, s, a).store, k)
    ensures Meaning(net, Next(net, s, a).store, p) == Meaning(net, s.store, p)
  {
    WriteFrame(net, rank, s, a);
    if a.Finish? {
      InputsAreStable(net, rank, s, p, a.id, Next(net, s, a).store);
    }
    GatherFrame(s.store, Next(net, s, a).store, net.nodes[p].keys);
  }

  /** `s'` gives vertex `id` the same surroundings as `s`. */
  ghost predicate SameView(net: Net, s: Sys, s': Sys, id: Id)
    requires id in net.nodes
  {
    var n := net.nodes[id];
    && (forall u :: u in n.ups && Ph(s, u).Done? ==> Ph(s', u) == Ph(s, u))
    && (AllDone(net, s, Some(id)) ==> AllDone(net, s', Some(id)))
    && (!Ph(s, id).Idle? ==>
          && Meaning(net, s'.store, id) == Meaning(net, s.store, id)
          && Gather(s'.store, n.keys) == Gather(s.store, n.keys)
          && (n.owner.Some? && n.owner.value in net.nodes ==>
                Meaning(net, s'.store, n.owner.value) == Meaning(net, s.store, n.owner.value)))
  }

  lemma ViewStep(net: Net, rank: Id -> nat, s: Sys, a: Act, id: Id)
    requires Sound(net, rank) && Struct(net, s) && Enabled(net, s, a) && id in net.nodes
    ensures SameView(net, s, Next(net, s, a), id)
  {
    OthersKeepPhase(net, s, a);
    if !Ph(s, id).Idle? {
      assert StructAt(net, s, id);
      InputsKept(net, rank, s, a, id);
      GatherFrame(s.store, Next(net, s, a).store, net.nodes[id].keys);
      if net.nodes[id].owner.Some? {
        InputsKept(net, rank, s, a, net.nodes[id].owner.value);
      }
    }
  }

  /** Facts of vertex `id` survive when neither it nor its view changes. */
  lemma SemTransfer(net: Net, seed: Store, s: Sys, s': Sys, id: Id)
    requires id in net.nodes && StructAt(net, s, id) && SemAt(net, seed, s, id)
    requires Ph(s', id) == Ph(s, id) && SameView(net, s, s', id)
    requires SameOn(s.store, s'.store, net.nodes[id].outs)
    ensures SemAt(net, seed, s', id)
  {
    var n := net.nodes[id];
    if Ph(s, id).Reading? {
      var k := Ph(s, id).at;
      forall x | x in n.keys[..k] ensures DataAt(s'.store, x) == DataAt(s.store, x) {
        assert x in n.keys;
        assert Gather(s'.store, n.keys)[x] == Gather(s.store, n.keys)[x];
      }
    }
    if !Ph(s, id).Idle? {
      assert Barred(net, s', id) == Barred(net, s, id);
    }
  }

  lemma OthersKeepSem(net: Net, rank: Id -> nat, seed: Store, s: Sys, a: Act, id: Id)
    requires Sound(net, rank) && Struct(net, s) && Sem(net, seed, s) && Enabled(net, s, a)
    requires id in net.nodes && Mover(a) != Some(id)
    ensures SemAt(net, seed, Next(net, s, a), id)
  {
    OthersKeepPhase(net, s, a);
    WriteFrame(net, rank, s, a);
    ViewStep(net, rank, s, a, id);
    assert SemAt(net, seed, s, id) && StructAt(net, s, id);
    assert a.Finish? ==> net.nodes[a.id].outs !! net.nodes[id].outs;
    SemTransfer(net, seed, s, Next(net, s, a), id);
  }

  lemma MoverKeepsSem(net: Net, rank: Id -> nat, seed: Store, s: Sys, a: Act)
    requires Sound(net, rank) && Struct(net, s) && Sem(net, seed, s) && Enabled(net, s, a) && Mover(a).Some?
    ensures SemAt(net, seed, Next(net, s, a), Mover(a).value)
  {
    if a.Begin? || a.Skip? {
      BeginKeepsSem(net, rank, seed, s, a);
    } else if a.Finish? {
      FinishKeepsSem(net, rank, seed, s, a);
    } else if a.Read? {
      ReadKeepsSem(net, rank, seed, s, a);
    } else if a.Enter? {
      EnterKeepsSem(net, rank, seed, s, a);
    } else if a.Total? {
      CloseKeepsSem(net, rank, seed, s, a);
    } else {
      LogKeepsSem(net, rank, seed, s, a);
    }
  }

  /** Reading on, entering a block, closing its DAG and logging leave the store alone. */
  lemma QuietFacts(net: Net, rank: Id -> nat, s: Sys, a: Act)
    requires Sound(net, rank) && Struct(net, s) && Enabled(net, s, a) && Mover(a).Some?
    requires a.Read? || a.Enter? || a.Total? || a.Log?
    ensures var s', id := Next(net, s, a), Mover(a).value;
            && s'.store == s.store && StructAt(net, s, id) && Barred(net, s', id) == Barred(net, s, id)
            && (AllDone(net, s, Some(id)) ==> AllDone(net, s', Some(id)))
  {
    OthersKeepPhase(net, s, a);
    assert StructAt(net, s, Mover(a).value);
  }

  lemma GatherNext(store: Store, keys: seq<string>, k: nat)
    requires k < |keys|
    ensures Gather(store, keys[..k])[keys[k] := DataAt(store, keys[k])] == Gather(store, keys[..k + 1])
  {
    assert keys[..k + 1] == keys[..k] + [keys[k]];
  }

  lemma ReadKeepsSem(net: Net, rank: Id -> nat, seed: Store, s: Sys, a: Act)
    requires Sound(net, rank) && Struct(net, s) && Sem(net, seed, s) && Enabled(net, s, a) && a.Read?
    ensures SemAt(net, seed, Next(net, s, a), a.id)
  {
    QuietFacts(net, rank, s, a);
    assert SemAt(net, seed, s, a.id);
    GatherNext(s.store, net.nodes[a.id].keys, Ph(s, a.id).at);
  }

  lemma EnterKeepsSem(net: Net, rank: Id -> nat, seed: Store, s: Sys, a: Act)
    requires Sound(net, rank) && Struct(net, s) && Sem(net, seed, s) && Enabled(net, s, a) && a.Enter?
    ensures SemAt(net, seed, Next(net, s, a), a.id)
  {
    QuietFacts(net, rank, s, a);
    assert SemAt(net, seed, s, a.id);
    var n := net.nodes[a.id];
    assert n.keys[..|n.keys|] == n.keys;
    CanonicalIsValid();
    assert OrderFree(n);
    assert n.run(Ph(s, a.id).env, a.o) == Meaning(net, s.store, a.id);
  }

  lemma CloseKeepsSem(net: Net, rank: Id -> nat, seed: Store, s: Sys, a: Act)
    requires Sound(net, rank) && Struct(net, s) && Sem(net, seed, s) && Enabled(net, s, a)
    requires Mover(a).Some? && a.Total?
    ensures SemAt(net, seed, Next(net, s, a), Mover(a).value)
  {
    QuietFacts(net, rank, s, a);
    var id := Mover(a).value;
    assert SemAt(net, seed, s, id);
    var m := Meaning(net, s.store, id);
    assert Framed(net.nodes[id]);
    CanonicalIsValid();
    assert m.out.value.Keys <= {};
    assert m.out.value == map[];
  }

  lemma LogKeepsSem(net: Net, rank: Id -> nat, seed: Store, s: Sys, a: Act)
    requires Sound(net, rank) && Struct(net, s) && Sem(net, seed, s) && Enabled(net, s, a) && a.Log?
    ensures SemAt(net, seed, Next(net, s, a), a.id)
  {
    QuietFacts(net, rank, s, a);
    assert SemAt(net, seed, s, a.id);
  }

  lemma BeginKeepsSem(net: Net, rank: Id -> nat, seed: Store, s: Sys, a: Act)
    requires Ranked(net, rank) && Struct(net, s) && Enabled(net, s, a) && (a.Begin? || a.Skip?)
    requires (forall id :: id in net.nodes ==> SemAt(net, seed, s, id))
    ensures SemAt(net, seed, Next(net, s, a), a.id)
  {
    var s', n := Next(net, s, a), net.nodes[a.id];
    OthersKeepPhase(net, s, a);
    assert SemAt(net, seed, s, a.id);
    assert forall u :: u in n.ups ==> u != a.id;
    if n.owner.Some? {
      assert SemAt(net, seed, s, n.owner.value);
    }
    assert Gather(s.store, n.keys[..0]) == map[];
  }

  /** What a vertex computes from the input it gathered is its meaning. */
  lemma FinishedMeaning(net: Net, rank: Id -> nat, seed: Store, s: Sys, a: Act)
    requires Sound(net, rank) && Enabled(net, s, a) && a.Finish? && SemAt(net, seed, s, a.id)
    ensures net.nodes[a.id].run(Ph(s, a.id).env, a.o) == Meaning(net, s.store, a.id)
  {
    var n := net.nodes[a.id];
    assert n.keys[..|n.keys|] == n.keys;
    CanonicalIsValid();
    assert OrderFree(n);
  }

  /** The owner of a vertex at work keeps its meaning. */
  lemma OwnerKept(net: Net, rank: Id -> nat, s: Sys, a: Act)
    requires Sound(net, rank) && Struct(net, s) && Enabled(net, s, a) && a.Finish? && net.nodes[a.id].owner.Some?
    ensures var b := net.nodes[a.id].owner.value;
            b in net.nodes && Meaning(net, Next(net, s, a).store, b) == Meaning(net, s.store, b)
  {
    assert StructAt(net, s, a.id);
    var b := net.nodes[a.id].owner.value;
    assert b in net.nodes && StructAt(net, s, b);
    InputsKept(net, rank, s, a, b);
  }

  lemma UpsKept(net: Net, rank: Id -> nat, s: Sys, a: Act)
    requires Ranked(net, rank) && Struct(net, s) && Enabled(net, s, a) && a.Finish?
    ensures Barred(net, Next(net, s, a), a.id) == Barred(net, s, a.id)
  {
    OthersKeepPhase(net, s, a);
    assert forall u :: u in net.nodes[a.id].ups ==> u != a.id;
  }

  /** The facts of a vertex that has just written its outcome. */
  lemma WrittenSem(net: Net, seed: Store, s: Sys, s': Sys, id: Id)
    requires id in net.nodes && SameOn(s.store, seed, net.nodes[id].outs) && !Barred(net, s', id)
    requires var m := Meaning(net, s'.store, id);
             && Ph(s', id) == Logging(m.err) && s'.store == s.store + OutMap(m)
             && !(net.nodes[id].inner.Some? && Entered(m))
    requires net.nodes[id].owner.Some? && net.nodes[id].owner.value in net.nodes ==>
               Entered(Meaning(net, s'.store, net.nodes[id].owner.value))
    ensures SemAt(net, seed, s', id)
  {
    assert forall k :: k in net.nodes[id].outs ==> Same(s.store, seed, k);
  }

  lemma FinishKeepsSem(net: Net, rank: Id -> nat, seed: Store, s: Sys, a: Act)
    requires Sound(net, rank) && Struct(net, s) && Sem(net, seed, s) && Enabled(net, s, a) && a.Finish?
    ensures SemAt(net, seed, Next(net, s, a), a.id)
  {
    InputsKept(net, rank, s, a, a.id);
    assert SemAt(net, seed, s, a.id);
    UpsKept(net, rank, s, a);
    FinishedMeaning(net, rank, seed, s, a);
    if net.nodes[a.id].owner.Some? {
      OwnerKept(net, rank, s, a);
    }
    WrittenSem(net, seed, s, Next(net, s, a), a.id);
  }

  lemma SemStep(net: Net, rank: Id -> nat, seed: Store, s: Sys, a: Act)
    requires Sound(net, rank) && Struct(net, s) && Sem(net, seed, s) && Enabled(net, s, a)
    ensures Sem(net, seed, Next(net, s, a))
  {
    forall id | id in net.nodes ensures SemAt(net, seed, Next(net, s, a), id) {
      if Mover(a) == Some(id) {
        MoverKeepsSem(net, rank, seed, s, a);
      } else {
        OthersKeepSem(net, rank, seed, s, a, id);
      }
    }
    WriteFrame(net, rank, s, a);
    forall k | !Owned(net, k) ensures Same(Next(net, s, a).store, seed, k) {
      if a.Finish? {
        assert a.id in net.nodes;
        assert k !in net.nodes[a.id].outs;
      }
    }
  }

  /** The invariant of every run. */
  lemma {:induction false} RunInvariant(net: Net, rank: Id -> nat, seed: Store, acts: seq<Act>)
    requires Sound(net, rank) && IsRun(net, seed, acts)
    ensures Struct(net, After(net, seed, acts)) && Sem(net, seed, After(net, seed, acts))
    decreases |acts|
  {
    if acts == [] {
      assert forall id :: id in net.nodes ==> SemAt(net, seed, Init(seed), id);
    } else {
      var before := acts[..|acts| - 1];
      RunInvariant(net, rank, seed, before);
      StructStep(net, rank, After(net, seed, before), acts[|acts| - 1]);
      SemStep(net, rank, seed, After(net, seed, before), acts[|acts| - 1]);
    }
  }
}
