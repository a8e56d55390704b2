/** Block vertices as syntax: running a block is the same as running its vertices in the
    surrounding DAG, and refusing it is the same as not having it. */
module Inlining {
  import opened Values
  import opened Outputs
  import opened Nets
  import opened Runs
  import opened Ranks
  import opened Dataflow

  // ------------------------------------------------------------------------ splicing

  ghost function SplicedUps(net: Net, b: Id, id: Id): set<Id>
    requires b in net.nodes && id in net.nodes
  {
    var n := net.nodes[id];
    (if b in n.ups then n.ups - {b} + net.nodes[b].ups + Members(net, Some(b)) else n.ups)
    + (if n.owner == Some(b) then net.nodes[b].ups else {})
  }

  ghost function SplicedNode(net: Net, b: Id, id: Id): Node
    requires b in net.nodes && id in net.nodes
  {
    var n := net.nodes[id];
    n.(owner := if n.owner == Some(b) then net.nodes[b].owner else n.owner, ups := SplicedUps(net, b, id))
  }

  /** Block `b` is replaced by the vertices of its DAG: they wait for what `b` waited for,
      and who waited for `b` waits for all of them. */
  ghost function Splice(net: Net, b: Id): Net
    requires b in net.nodes
  {
    net.(nodes := map id | id in net.nodes && id != b :: SplicedNode(net, b, id))
  }

  lemma SplicedUp(net: Net, rank: Id -> nat, b: Id, id: Id, u: Id)
    requires Ranked(net, rank) && b in net.nodes && id in net.nodes && id != b && u in SplicedUps(net, b, id)
    requires forall x :: x in net.nodes && b in net.nodes[id].ups && Within(net, rank, x, b) ==> rank(x) < rank(id)
    ensures u in net.nodes && u != b && rank(u) < rank(id)
    ensures SplicedNode(net, b, u).owner == SplicedNode(net, b, id).owner
  {
    if u in Members(net, Some(b)) && b in net.nodes[id].ups {
      assert Within(net, rank, u, b);
    }
  }

  lemma SplicedOwner(net: Net, rank: Id -> nat, b: Id, id: Id)
    requires Ranked(net, rank) && b in net.nodes && id in net.nodes && SplicedNode(net, b, id).owner.Some?
    ensures var c := SplicedNode(net, b, id).owner.value;
            c in net.nodes && c != b && net.nodes[c].inner.Some? && rank(c) < rank(id)
  {
    assert net.nodes[id].owner.Some?;
  }

  lemma SplicedUpsRanked(net: Net, rank: Id -> nat, b: Id, id: Id)
    requires Ranked(net, rank) && DeepRanked(net, rank) && b in net.nodes && id in Splice(net, b).nodes
    ensures var net' := Splice(net, b);
            forall u :: u in net'.nodes[id].ups ==>
              u in net'.nodes && net'.nodes[u].owner == net'.nodes[id].owner && rank(u) < rank(id)
  {
    forall u | u in Splice(net, b).nodes[id].ups
      ensures u in Splice(net, b).nodes && Splice(net, b).nodes[u].owner == Splice(net, b).nodes[id].owner
      ensures rank(u) < rank(id) {
      SplicedUp(net, rank, b, id, u);
    }
  }

  lemma SpliceRanked(net: Net, rank: Id -> nat, b: Id)
    requires Ranked(net, rank) && DeepRanked(net, rank) && b in net.nodes
    ensures Ranked(Splice(net, b), rank)
  {
    var net' := Splice(net, b);
    forall id | id in net'.nodes
      ensures forall u :: u in net'.nodes[id].ups ==>
                u in net'.nodes && net'.nodes[u].owner == net'.nodes[id].owner && rank(u) < rank(id) {
      SplicedUpsRanked(net, rank, b, id);
    }
    forall id | id in net'.nodes && net'.nodes[id].owner.Some?
      ensures var c := net'.nodes[id].owner.value; c in net'.nodes && net'.nodes[c].inner.Some? && rank(c) < rank(id)
    {
      SplicedOwner(net, rank, b, id);
    }
  }

  lemma {:induction false} WithinSpliced(net: Net, rank: Id -> nat, b: Id, q: Id, a: Id)
    requires Ranked(net, rank) && b in net.nodes && Ranked(Splice(net, b), rank)
    requires q in net.nodes && a in net.nodes && q != b && a != b && Within(net, rank, q, a)
    ensures Within(Splice(net, b), rank, q, a)
    decreases rank(q)
  {
    var c := net.nodes[q].owner.value;
    if c != a {
      if c == b {
        var d := net.nodes[b].owner.value;
        if d != a { WithinSpliced(net, rank, b, d, a); }
      } else {
        WithinSpliced(net, rank, b, c, a);
      }
    }
  }

  /** A vertex below the block is, or lies below, one of the vertices spliced in. */
  lemma {:induction false} BelowSpliced(net: Net, rank: Id -> nat, b: Id, q: Id) returns (m: Id)
    requires Ranked(net, rank) && b in net.nodes && Ranked(Splice(net, b), rank)
    requires q in net.nodes && q != b && Within(net, rank, q, b)
    ensures m in Members(net, Some(b)) && (q == m || Within(Splice(net, b), rank, q, m))
    decreases rank(q)
  {
    var c := net.nodes[q].owner.value;
    if c == b {
      m := q;
    } else {
      m := BelowSpliced(net, rank, b, c);
    }
  }

  /** Being before `b` carries over to whoever waits for what `b` waited for. */
  lemma {:induction false} BeforeBlock(net: Net, rank: Id -> nat, b: Id, q: Id, p: Id)
    requires Ranked(net, rank) && b in net.nodes && Ranked(Splice(net, b), rank)
    requires q in net.nodes && p in net.nodes && q != b && p != b && Before(net, rank, q, b)
    requires net.nodes[b].ups <= SplicedUps(net, b, p) && SplicedNode(net, b, p).owner == net.nodes[b].owner
    requires rank(b) < rank(p)
    ensures Before(Splice(net, b), rank, q, p)
    decreases rank(b), 0
  {
    var net' := Splice(net, b);
    if w :| w in net.nodes[b].ups && (w == q || Within(net, rank, q, w) || Before(net, rank, q, w)) {
      assert w in net'.nodes[p].ups;
      if w == q {
      } else if Within(net, rank, q, w) {
        WithinSpliced(net, rank, b, q, w);
      } else {
        BeforeSpliced(net, rank, b, q, w);
      }
    } else {
      BeforeSpliced(net, rank, b, q, net.nodes[b].owner.value);
    }
  }

  lemma {:induction false} BeforeSpliced(net: Net, rank: Id -> nat, b: Id, q: Id, p: Id)
    requires Ranked(net, rank) && b in net.nodes && Ranked(Splice(net, b), rank)
    requires q in net.nodes && p in net.nodes && q != b && p != b && Before(net, rank, q, p)
    ensures Before(Splice(net, b), rank, q, p)
    decreases rank(p), 1
  {
    var net' := Splice(net, b);
    if u :| u in net.nodes[p].ups && (u == q || Within(net, rank, q, u) || Before(net, rank, q, u)) {
      if u != b {
        assert u in net'.nodes[p].ups;
        if u == q {
        } else if Within(net, rank, q, u) {
          WithinSpliced(net, rank, b, q, u);
        } else {
          BeforeSpliced(net, rank, b, q, u);
        }
      } else if Within(net, rank, q, b) {
        var m := BelowSpliced(net, rank, b, q);
        assert m in net'.nodes[p].ups;
      } else {
        BeforeBlock(net, rank, b, q, p);
      }
    } else if net.nodes[p].owner == Some(b) {
      BeforeBlock(net, rank, b, q, p);
    } else {
      BeforeSpliced(net, rank, b, q, net.nodes[p].owner.value);
    }
  }

  lemma SpliceSound(net: Net, rank: Id -> nat, b: Id)
    requires Sound(net, rank) && DeepRanked(net, rank) && b in net.nodes
    ensures Sound(Splice(net, b), rank)
  {
    var net' := Splice(net, b);
    SpliceRanked(net, rank, b);
    forall id | id in net'.nodes ensures Framed(net'.nodes[id]) && OrderFree(net'.nodes[id]) {
      assert Framed(net.nodes[id]) && OrderFree(net.nodes[id]);
      assert net'.nodes[id].run == net.nodes[id].run;
    }
    forall p, q, k | p in net'.nodes && q in net'.nodes && k in net'.nodes[p].keys && k in net'.nodes[q].outs
      ensures Before(net', rank, q, p) {
      BeforeSpliced(net, rank, b, q, p);
    }
  }

  /** Block `b` was entered and, if the failure policy would make others wait for it, every
      vertex of its DAG succeeded. */
  ghost predicate RanWhole(net: Net, f: Store, fate: Fates, b: Id) {
    && b in net.nodes && net.nodes[b].inner.Some? && b in fate && fate[b].Ran? && Entered(Meaning(net, f, b))
    && (net.stop ==> forall m :: m in Members(net, Some(b)) ==> Fared(fate, m, Ran(true)))
  }

  lemma SpliceBlocked(net: Net, rank: Id -> nat, seed: Store, f: Store, fate: Fates, b: Id, id: Id)
    requires Ranked(net, rank) && RanWhole(net, f, fate, b) && SolvedAt(net, seed, f, fate, b)
    requires id in net.nodes && id != b && SolvedAt(net, seed, f, fate, id)
    ensures Blocked(Splice(net, b), fate - {b}, id) == Blocked(net, fate, id)
  {
    var net', n := Splice(net, b), net.nodes[id];
    assert fate[b] == Ran(true) && !Blocked(net, fate, b);
    assert forall u :: u != b ==> Fared(fate - {b}, u, Ran(true)) == Fared(fate, u, Ran(true));
    if net.stop {
      assert forall u :: u in net.nodes[b].ups ==> Fared(fate, u, Ran(true));
      if Blocked(net, fate, id) {
        var u :| u in n.ups && !Fared(fate, u, Ran(true));
        assert u in net'.nodes[id].ups && u != b;
      }
      if Blocked(net', fate - {b}, id) {
        var u :| u in net'.nodes[id].ups && !Fared(fate - {b}, u, Ran(true));
        assert u != b;
        assert u in n.ups;
      }
    }
  }

  lemma SpliceSolvedAt(net: Net, rank: Id -> nat, seed: Store, f: Store, fate: Fates, b: Id, id: Id)
    requires Ranked(net, rank) && RanWhole(net, f, fate, b) && SolvedAt(net, seed, f, fate, b)
    requires id in net.nodes && id != b && SolvedAt(net, seed, f, fate, id)
    ensures SolvedAt(Splice(net, b), seed, f, fate - {b}, id)
  {
    SpliceBlocked(net, rank, seed, f, fate, b, id);
    var net', n := Splice(net, b), net.nodes[id];
    assert Meaning(net', f, id) == Meaning(net, f, id);
    var c := net'.nodes[id].owner;
    if c.Some? {
      assert c.value in net.nodes && c.value != b;
      assert Meaning(net', f, c.value) == Meaning(net, f, c.value);
    }
  }

  lemma SpliceSolves(net: Net, rank: Id -> nat, seed: Store, f: Store, fate: Fates, b: Id)
    requires Sound(net, rank) && Solution(net, seed, f, fate) && RanWhole(net, f, fate, b)
    ensures Solution(Splice(net, b), seed, f, fate - {b})
  {
    var net' := Splice(net, b);
    assert SolvedAt(net, seed, f, fate, b);
    forall id | id in net'.nodes ensures SolvedAt(net', seed, f, fate - {b}, id) {
      assert SolvedAt(net, seed, f, fate, id);
      SpliceSolvedAt(net, rank, seed, f, fate, b, id);
    }
    forall k | !Owned(net', k) ensures Same(f, seed, k) {
      if Owned(net, k) {
        var q :| q in net.nodes && k in net.nodes[q].outs;
        assert q == b || q in net'.nodes;
        BlockWritesNothing(net, seed, f, fate, b, k);
      }
    }
  }

  /** A block writes nothing, so the variables it declares keep their seeded state. */
  lemma BlockWritesNothing(net: Net, seed: Store, f: Store, fate: Fates, b: Id, k: string)
    requires b in net.nodes && net.nodes[b].inner.Some? && SolvedAt(net, seed, f, fate, b) && Framed(net.nodes[b])
    requires k in net.nodes[b].outs
    ensures Same(f, seed, k)
  {
    CanonicalIsValid();
    assert OutMap(Meaning(net, f, b)).Keys <= {};
  }

  // ------------------------------------------------------------- other keys, same meaning

  /** The nets differ at most in which store entries their vertices read, and that does not
      change what any vertex means. */
  ghost predicate Variant(net: Net, net': Net) {
    && net'.root == net.root && net'.stop == net.stop && net'.nodes.Keys == net.nodes.Keys
    && forall id :: id in net.nodes ==>
         && net'.nodes[id] == net.nodes[id].(keys := net'.nodes[id].keys)
         && forall f: Store :: Meaning(net', f, id) == Meaning(net, f, id)
  }

  /** What is read in addition is declared by nobody. */
  ghost predicate NothingNewRead(net: Net, net': Net) {
    forall id, k :: id in net.nodes && id in net'.nodes && k in net'.nodes[id].keys ==>
      k in net.nodes[id].keys || !Owned(net, k)
  }

  lemma VariantRanked(net: Net, net': Net, rank: Id -> nat)
    requires Ranked(net, rank) && Variant(net, net')
    ensures Ranked(net', rank)
  {
    forall id | id in net'.nodes
      ensures net'.nodes[id].owner == net.nodes[id].owner && net'.nodes[id].ups == net.nodes[id].ups
              && net'.nodes[id].inner == net.nodes[id].inner {
      assert net'.nodes[id] == net.nodes[id].(keys := net'.nodes[id].keys);
    }
  }

  lemma {:induction false} WithinVariant(net: Net, net': Net, rank: Id -> nat, q: Id, a: Id)
    requires Ranked(net, rank) && Ranked(net', rank) && Variant(net, net') && q in net.nodes
    ensures Within(net', rank, q, a) == Within(net, rank, q, a)
    decreases rank(q)
  {
    assert net'.nodes[q] == net.nodes[q].(keys := net'.nodes[q].keys);
    if net.nodes[q].owner.Some? {
      WithinVariant(net, net', rank, net.nodes[q].owner.value, a);
    }
  }

  lemma {:induction false} BeforeVariant(net: Net, net': Net, rank: Id -> nat, q: Id, p: Id)
    requires Ranked(net, rank) && Ranked(net', rank) && Variant(net, net')
    requires q in net.nodes && p in net.nodes && Before(net, rank, q, p)
    ensures Before(net', rank, q, p)
    decreases rank(p)
  {
    assert net'.nodes[p] == net.nodes[p].(keys := net'.nodes[p].keys);
    if u :| u in net.nodes[p].ups && (u == q || Within(net, rank, q, u) || Before(net, rank, q, u)) {
      assert u in net'.nodes[p].ups;
      WithinVariant(net, net', rank, q, u);
      if u != q && !Within(net, rank, q, u) {
        BeforeVariant(net, net', rank, q, u);
      }
    } else {
      BeforeVariant(net, net', rank, q, net.nodes[p].owner.value);
    }
  }

  lemma SameOwned(net: Net, net': Net, k: string)
    requires Variant(net, net')
    ensures Owned(net', k) == Owned(net, k)
  {
    forall q | q in net.nodes ensures net'.nodes[q].outs == net.nodes[q].outs {
      assert net'.nodes[q] == net.nodes[q].(keys := net'.nodes[q].keys);
    }
    if q :| q in net.nodes && k in net.nodes[q].outs {
      assert q in net'.nodes && k in net'.nodes[q].outs;
    }
    if q :| q in net'.nodes && k in net'.nodes[q].outs {
      assert q in net.nodes && k in net.nodes[q].outs;
    }
  }

  lemma VariantNode(net: Net, net': Net, id: Id)
    requires Variant(net, net') && id in net.nodes && Framed(net.nodes[id]) && OrderFree(net.nodes[id])
    ensures Framed(net'.nodes[id]) && OrderFree(net'.nodes[id]) && net'.nodes[id].outs == net.nodes[id].outs
  {
    assert net'.nodes[id] == net.nodes[id].(keys := net'.nodes[id].keys);
    assert net'.nodes[id].run == net.nodes[id].run;
  }

  lemma ReadsLater(net: Net, net': Net, rank: Id -> nat, p: Id, q: Id, k: string)
    requires Sound(net, rank) && Ranked(net', rank) && Variant(net, net') && NothingNewRead(net, net')
    requires p in net.nodes && q in net.nodes && k in net'.nodes[p].keys && k in net'.nodes[q].outs
    ensures Before(net', rank, q, p)
  {
    assert k in net.nodes[q].outs by {
      VariantNode(net, net', q);
    }
    assert Owned(net, k);
    assert k in net.nodes[p].keys;
    assert Before(net, rank, q, p);
    BeforeVariant(net, net', rank, q, p);
  }

  lemma VariantSound(net: Net, net': Net, rank: Id -> nat)
    requires Sound(net, rank) && Variant(net, net') && NothingNewRead(net, net')
    ensures Sound(net', rank)
  {
    VariantRanked(net, net', rank);
    forall id | id in net'.nodes
      ensures Framed(net'.nodes[id]) && OrderFree(net'.nodes[id]) && net'.nodes[id].outs == net.nodes[id].outs {
      VariantNode(net, net', id);
    }
    forall p, q, k | p in net'.nodes && q in net'.nodes && k in net'.nodes[p].keys && k in net'.nodes[q].outs
      ensures Before(net', rank, q, p) {
      ReadsLater(net, net', rank, p, q, k);
    }
  }

  lemma VariantSolvedAt(net: Net, net': Net, seed: Store, f: Store, fate: Fates, id: Id)
    requires Variant(net, net') && id in net.nodes && SolvedAt(net, seed, f, fate, id)
    ensures SolvedAt(net', seed, f, fate, id)
  {
    assert net'.nodes[id] == net.nodes[id].(keys := net'.nodes[id].keys);
    assert Meaning(net', f, id) == Meaning(net, f, id);
    var ow := net.nodes[id].owner;
    if ow.Some? && ow.value in net.nodes {
      assert Meaning(net', f, ow.value) == Meaning(net, f, ow.value);
    }
  }

  lemma VariantSolves(net: Net, net': Net, seed: Store, f: Store, fate: Fates)
    requires Variant(net, net') && Solution(net, seed, f, fate)
    ensures Solution(net', seed, f, fate)
  {
    forall id | id in net'.nodes ensures SolvedAt(net', seed, f, fate, id) {
      VariantSolvedAt(net, net', seed, f, fate, id);
    }
    forall k | !Owned(net', k) ensures Same(f, seed, k) {
      SameOwned(net, net', k);
    }
  }

  // ------------------------------------------------------------------------- inlining

  lemma SplicedRunAgrees(net: Net, net': Net, rank: Id -> nat, seed: Store, b: Id, acts: seq<Act>, acts': seq<Act>)
    requires Sound(net, rank) && DeepRanked(net, rank) && b in net.nodes
    requires Variant(Splice(net, b), net') && NothingNewRead(Splice(net, b), net')
    requires IsRun(net, seed, acts) && Complete(After(net, seed, acts))
    requires RanWhole(net, After(net, seed, acts).store, FatesOf(After(net, seed, acts)), b)
    requires IsRun(net', seed, acts') && Complete(After(net', seed, acts'))
    ensures After(net', seed, acts').store == After(net, seed, acts).store
    ensures FatesOf(After(net', seed, acts')) == FatesOf(After(net, seed, acts)) - {b}
  {
    var s := After(net, seed, acts);
    FinalStateSolves(net, rank, seed, acts);
    SpliceSolves(net, rank, seed, s.store, FatesOf(s), b);
    SpliceSound(net, rank, b);
    VariantSolves(Splice(net, b), net', seed, s.store, FatesOf(s) - {b});
    VariantSound(Splice(net, b), net', rank);
    CompleteRunIsTheSolution(net', rank, seed, acts', s.store, FatesOf(s) - {b});
  }

  /** Inlining preserves meaning: when a block is entered and, under the failure policy, all
      its vertices succeed, any run of the pipeline and any run of the spliced pipeline end in
      the same store, with the same fate for every other vertex. In the spliced pipeline the
      vertices may read other entries, as long as it makes no difference to them. */
  lemma InliningPreservesMeaning(net: Net, net': Net, rank: Id -> nat, seed: Store, b: Id, acts: seq<Act>,
                                 acts': seq<Act>)
    requires Sound(net, rank) && b in net.nodes
    requires Variant(Splice(net, b), net') && NothingNewRead(Splice(net, b), net')
    requires IsRun(net, seed, acts) && Complete(After(net, seed, acts))
    requires RanWhole(net, After(net, seed, acts).store, FatesOf(After(net, seed, acts)), b)
    requires IsRun(net', seed, acts') && Complete(After(net', seed, acts'))
    ensures After(net', seed, acts').store == After(net, seed, acts).store
    ensures FatesOf(After(net', seed, acts')) == FatesOf(After(net, seed, acts)) - {b}
  {
    var deep := DeepRank(net, rank);
    DeepRankExists(net, rank);
    SoundAnyway(net, rank, deep);
    SplicedRunAgrees(net, net', deep, seed, b, acts, acts');
  }

  // ------------------------------------------------------------------------- pruning

  ghost predicate Kept(net: Net, rank: Id -> nat, b: Id, id: Id)
    requires Ranked(net, rank)
  {
    id in net.nodes && id != b && !Within(net, rank, id, b)
  }

  ghost function PrunedNode(net: Net, b: Id, id: Id): Node
    requires b in net.nodes && id in net.nodes
  {
    var n := net.nodes[id];
    n.(ups := if b in n.ups then n.ups - {b} + net.nodes[b].ups else n.ups)
  }

  /** Block `b` and everything nested in it is dropped. */
  ghost function Prune(net: Net, rank: Id -> nat, b: Id): Net
    requires Ranked(net, rank) && b in net.nodes
  {
    net.(nodes := map id | id in net.nodes && Kept(net, rank, b, id) :: PrunedNode(net, b, id))
  }

  /** Up-vertices and blocks of a kept vertex are kept, `b` itself apart. */
  lemma KeptAround(net: Net, rank: Id -> nat, b: Id, id: Id)
    requires Ranked(net, rank) && b in net.nodes && Kept(net, rank, b, id)
    ensures net.nodes[id].owner.Some? ==> Kept(net, rank, b, net.nodes[id].owner.value)
    ensures forall u :: u in net.nodes[id].ups && u != b ==> Kept(net, rank, b, u)
    ensures b in net.nodes[id].ups ==>
              net.nodes[b].owner == net.nodes[id].owner && rank(b) < rank(id)
              && forall u :: u in net.nodes[b].ups ==> Kept(net, rank, b, u)
  {
    forall u | u in net.nodes[id].ups && u != b ensures Kept(net, rank, b, u) {
      SiblingKept(net, rank, b, id, u);
    }
    if b in net.nodes[id].ups {
      forall u | u in net.nodes[b].ups ensures Kept(net, rank, b, u) {
        SiblingKept(net, rank, b, id, u);
      }
    }
  }

  lemma SiblingKept(net: Net, rank: Id -> nat, b: Id, id: Id, u: Id)
    requires Ranked(net, rank) && b in net.nodes && Kept(net, rank, b, id)
    requires u in net.nodes && u != b && net.nodes[u].owner == net.nodes[id].owner
    ensures Kept(net, rank, b, u)
  {
  }

  lemma PruneRanked(net: Net, rank: Id -> nat, b: Id)
    requires Ranked(net, rank) && b in net.nodes
    ensures Ranked(Prune(net, rank, b), rank)
  {
    var net' := Prune(net, rank, b);
    forall id, u | id in net'.nodes && u in net'.nodes[id].ups
      ensures u in net'.nodes && net'.nodes[u].owner == net'.nodes[id].owner && rank(u) < rank(id)
    {
      KeptAround(net, rank, b, id);
    }
    forall id | id in net'.nodes && net'.nodes[id].owner.Some?
      ensures var c := net'.nodes[id].owner.value; c in net'.nodes && net'.nodes[c].inner.Some? && rank(c) < rank(id)
    {
      KeptAround(net, rank, b, id);
      assert net.nodes[id].owner.Some?;
    }
  }

  lemma {:induction false} WithinPruned(net: Net, rank: Id -> nat, b: Id, q: Id, a: Id)
    requires Ranked(net, rank) && b in net.nodes && Ranked(Prune(net, rank, b), rank)
    requires Kept(net, rank, b, q) && a in net.nodes && Within(net, rank, q, a)
    ensures Within(Prune(net, rank, b), rank, q, a)
    decreases rank(q)
  {
    var c := net.nodes[q].owner.value;
    if c != a {
      KeptAround(net, rank, b, q);
      WithinPruned(net, rank, b, c, a);
    }
  }

  lemma {:induction false} BeforePruned(net: Net, rank: Id -> nat, b: Id, q: Id, p: Id)
    requires Ranked(net, rank) && b in net.nodes && Ranked(Prune(net, rank, b), rank)
    requires Kept(net, rank, b, q) && Kept(net, rank, b, p) && Before(net, rank, q, p)
    ensures Before(Prune(net, rank, b), rank, q, p)
    decreases rank(p), 1
  {
    KeptAround(net, rank, b, p);
    if u :| u in net.nodes[p].ups && (u == q || Within(net, rank, q, u) || Before(net, rank, q, u)) {
      if u != b {
        BeforeVia(net, rank, b, q, p, u);
      } else if w :| w in net.nodes[b].ups && (w == q || Within(net, rank, q, w) || Before(net, rank, q, w)) {
        BeforeVia(net, rank, b, q, p, w);
      } else {
        BeforePruned(net, rank, b, q, net.nodes[p].owner.value);
      }
    } else {
      BeforePruned(net, rank, b, q, net.nodes[p].owner.value);
    }
  }

  lemma {:induction false} BeforeVia(net: Net, rank: Id -> nat, b: Id, q: Id, p: Id, u: Id)
    requires Ranked(net, rank) && b in net.nodes && Ranked(Prune(net, rank, b), rank)
    requires Kept(net, rank, b, q) && Kept(net, rank, b, p) && Kept(net, rank, b, u)
    requires u in Prune(net, rank, b).nodes[p].ups && rank(u) < rank(p)
    requires u == q || Within(net, rank, q, u) || Before(net, rank, q, u)
    ensures Before(Prune(net, rank, b), rank, q, p)
    decreases rank(p), 0
  {
    if u == q {
    } else if Within(net, rank, q, u) {
      WithinPruned(net, rank, b, q, u);
    } else {
      BeforePruned(net, rank, b, q, u);
    }
  }

  lemma PruneSound(net: Net, rank: Id -> nat, b: Id)
    requires Sound(net, rank) && b in net.nodes
    ensures Sound(Prune(net, rank, b), rank)
  {
    var net' := Prune(net, rank, b);
    PruneRanked(net, rank, b);
    forall id | id in net'.nodes ensures Framed(net'.nodes[id]) && OrderFree(net'.nodes[id]) {
      assert Framed(net.nodes[id]) && OrderFree(net.nodes[id]);
      assert net'.nodes[id].run == net.nodes[id].run;
    }
    forall p, q, k | p in net'.nodes && q in net'.nodes && k in net'.nodes[p].keys && k in net'.nodes[q].outs
      ensures Before(net', rank, q, p) {
      BeforePruned(net, rank, b, q, p);
    }
  }

  /** Block `b` succeeded without being entered: its condition is false or its range empty. */
  ghost predicate Refused(net: Net, f: Store, fate: Fates, b: Id) {
    b in net.nodes && net.nodes[b].inner.Some? && Fared(fate, b, Ran(true)) && !Entered(Meaning(net, f, b))
  }

  ghost function PrunedFates(net: Net, rank: Id -> nat, fate: Fates, b: Id): Fates
    requires Ranked(net, rank) && b in net.nodes
  {
    map id | id in fate && Kept(net, rank, b, id) :: fate[id]
  }

  lemma PruneSolvedAt(net: Net, rank: Id -> nat, seed: Store, f: Store, fate: Fates, b: Id, id: Id)
    requires Ranked(net, rank) && Refused(net, f, fate, b) && SolvedAt(net, seed, f, fate, b)
    requires Kept(net, rank, b, id) && SolvedAt(net, seed, f, fate, id)
    ensures SolvedAt(Prune(net, rank, b), seed, f, PrunedFates(net, rank, fate, b), id)
  {
    var net', fate' := Prune(net, rank, b), PrunedFates(net, rank, fate, b);
    KeptAround(net, rank, b, id);
    assert !Blocked(net, fate, b);
    assert forall u :: Kept(net, rank, b, u) ==> Fared(fate', u, Ran(true)) == Fared(fate, u, Ran(true));
    assert forall u :: net.stop && u in net.nodes[b].ups ==> Fared(fate, u, Ran(true));
    PruneBlocked(net, rank, fate, b, id);
    assert Meaning(net', f, id) == Meaning(net, f, id);
    if net.nodes[id].owner.Some? {
      assert Meaning(net', f, net.nodes[id].owner.value) == Meaning(net, f, net.nodes[id].owner.value);
    }
  }

  lemma PruneBlocked(net: Net, rank: Id -> nat, fate: Fates, b: Id, id: Id)
    requires Ranked(net, rank) && b in net.nodes && Fared(fate, b, Ran(true)) && !Blocked(net, fate, b)
    requires Kept(net, rank, b, id)
    ensures Blocked(Prune(net, rank, b), PrunedFates(net, rank, fate, b), id) == Blocked(net, fate, id)
  {
    var net', fate' := Prune(net, rank, b), PrunedFates(net, rank, fate, b);
    KeptAround(net, rank, b, id);
    assert forall u :: Kept(net, rank, b, u) ==> Fared(fate', u, Ran(true)) == Fared(fate, u, Ran(true));
    if net.stop {
      if Blocked(net, fate, id) {
        var u :| u in net.nodes[id].ups && !Fared(fate, u, Ran(true));
        assert u in net'.nodes[id].ups && Kept(net, rank, b, u);
      }
      if Blocked(net', fate', id) {
        var u :| u in net'.nodes[id].ups && !Fared(fate', u, Ran(true));
        assert Kept(net, rank, b, u);
        assert u in net.nodes[id].ups;
      }
    }
  }

  lemma PruneSolves(net: Net, rank: Id -> nat, seed: Store, f: Store, fate: Fates, b: Id)
    requires Sound(net, rank) && Solution(net, seed, f, fate) && Refused(net, f, fate, b)
    ensures Solution(Prune(net, rank, b), seed, f, PrunedFates(net, rank, fate, b))
  {
    var net' := Prune(net, rank, b);
    assert SolvedAt(net, seed, f, fate, b);
    forall id | id in net'.nodes ensures SolvedAt(net', seed, f, PrunedFates(net, rank, fate, b), id) {
      assert SolvedAt(net, seed, f, fate, id);
      PruneSolvedAt(net, rank, seed, f, fate, b, id);
    }
    forall k | !Owned(net', k) ensures Same(f, seed, k) {
      if Owned(net, k) {
        var q :| q in net.nodes && k in net.nodes[q].outs;
        DroppedIsSeeded(net, rank, seed, f, fate, b, q, k);
      }
    }
  }

  lemma KeptOwns(net: Net, rank: Id -> nat, b: Id, q: Id, k: string)
    requires Ranked(net, rank) && b in net.nodes && q in net.nodes && k in net.nodes[q].outs
    ensures Kept(net, rank, b, q) ==> Owned(Prune(net, rank, b), k)
  {
    var net' := Prune(net, rank, b);
    assert Kept(net, rank, b, q) ==> q in net'.nodes && k in net'.nodes[q].outs;
  }

  lemma DroppedIsSeeded(net: Net, rank: Id -> nat, seed: Store, f: Store, fate: Fates, b: Id, q: Id, k: string)
    requires Sound(net, rank) && Solution(net, seed, f, fate) && Refused(net, f, fate, b)
    requires q in net.nodes && k in net.nodes[q].outs && !Owned(Prune(net, rank, b), k)
    ensures Same(f, seed, k)
  {
    KeptOwns(net, rank, b, q, k);
    if q == b {
      assert SolvedAt(net, seed, f, fate, b);
      BlockWritesNothing(net, seed, f, fate, b, k);
    } else {
      NothingBelow(net, rank, seed, f, fate, q, b);
    }
  }

  /** A refused block leaves no trace: any run of the pipeline and any run without the
      block and its vertices end in the same store, with the same fate for the rest. */
  lemma RefusedBlockIsNoBlock(net: Net, rank: Id -> nat, seed: Store, b: Id, acts: seq<Act>, acts': seq<Act>)
    requires Sound(net, rank) && b in net.nodes
    requires IsRun(net, seed, acts) && Complete(After(net, seed, acts))
    requires Refused(net, After(net, seed, acts).store, FatesOf(After(net, seed, acts)), b)
    requires IsRun(Prune(net, rank, b), seed, acts') && Complete(After(Prune(net, rank, b), seed, acts'))
    ensures After(Prune(net, rank, b), seed, acts').store == After(net, seed, acts).store
    ensures FatesOf(After(Prune(net, rank, b), seed, acts'))
            == PrunedFates(net, rank, FatesOf(After(net, seed, acts)), b)
  {
    var s := After(net, seed, acts);
    FinalStateSolves(net, rank, seed, acts);
    PruneSolves(net, rank, seed, s.store, FatesOf(s), b);
    PruneSound(net, rank, b);
    CompleteRunIsTheSolution(Prune(net, rank, b), rank, seed, acts', s.store, PrunedFates(net, rank, FatesOf(s), b));
  }
}
