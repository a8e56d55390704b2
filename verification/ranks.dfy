/** Nesting and precedence do not depend on the rank that witnesses them, and every ranked
    net has a rank that also puts a vertex after everything nested in its up-vertices. */
module Ranks {
  import opened Values
  import opened Nets

  /** The rank orders a vertex after everything nested in its up-vertices, as any sequential
      execution order does. */
  ghost predicate DeepRanked(net: Net, rank: Id -> nat)
    requires Ranked(net, rank)
  {
    forall q, u, x :: q in net.nodes && u in net.nodes[q].ups && x in net.nodes && Within(net, rank, x, u) ==>
      rank(x) < rank(q)
  }

  // ------------------------------------------------------------------------- nesting

  lemma {:induction false} WithinIsHigher(net: Net, rank: Id -> nat, q: Id, a: Id)
    requires Ranked(net, rank) && q in net.nodes && Within(net, rank, q, a)
    ensures rank(a) < rank(q)
    decreases rank(q)
  {
    var c := net.nodes[q].owner.value;
    if c != a {
      WithinIsHigher(net, rank, c, a);
    }
  }

  lemma {:induction false} WithinTwice(net: Net, rank: Id -> nat, q: Id, m: Id, b: Id)
    requires Ranked(net, rank) && q in net.nodes && m in net.nodes
    requires Within(net, rank, q, m) && Within(net, rank, m, b)
    ensures Within(net, rank, q, b)
    decreases rank(q)
  {
    var c := net.nodes[q].owner.value;
    if c != m {
      WithinTwice(net, rank, c, m, b);
    }
  }

  /** Vertices of one DAG are not nested in each other. */
  lemma SiblingsApart(net: Net, rank: Id -> nat, q: Id, m: Id)
    requires Ranked(net, rank) && q in net.nodes && m in net.nodes && net.nodes[q].owner == net.nodes[m].owner
    ensures !Within(net, rank, q, m)
  {
    if Within(net, rank, q, m) {
      var c := net.nodes[q].owner.value;
      if c != m {
        WithinIsHigher(net, rank, c, m);
      }
    }
  }

  ghost predicate InTree(net: Net, rank: Id -> nat, q: Id, a: Id)
    requires Ranked(net, rank) && q in net.nodes
  {
    q == a || Within(net, rank, q, a)
  }

  /** A vertex lies under at most one vertex of a DAG. */
  lemma {:induction false} OneSibling(net: Net, rank: Id -> nat, x: Id, a: Id, b: Id)
    requires Ranked(net, rank) && x in net.nodes && a in net.nodes && b in net.nodes
    requires net.nodes[a].owner == net.nodes[b].owner && InTree(net, rank, x, a) && InTree(net, rank, x, b)
    ensures a == b
    decreases rank(x)
  {
    SiblingsApart(net, rank, a, b);
    SiblingsApart(net, rank, b, a);
    if x != a && x != b {
      OneSibling(net, rank, net.nodes[x].owner.value, a, b);
    }
  }

  // ---------------------------------------------------------------------- precedence

  /** Precedence is decided between two vertices of one DAG. */
  lemma {:induction false} BeforeSplits(net: Net, rank: Id -> nat, q: Id, p: Id) returns (a: Id, b: Id)
    requires Ranked(net, rank) && q in net.nodes && p in net.nodes && Before(net, rank, q, p)
    ensures a in net.nodes && b in net.nodes && net.nodes[a].owner == net.nodes[b].owner && rank(a) < rank(b)
    ensures InTree(net, rank, q, a) && InTree(net, rank, p, b)
    decreases rank(p)
  {
    if u :| u in net.nodes[p].ups && (u == q || Within(net, rank, q, u) || Before(net, rank, q, u)) {
      if u == q || Within(net, rank, q, u) {
        a, b := u, p;
      } else {
        a, b := BeforeSplits(net, rank, q, u);
        if u == b {
          b := p;
        }
      }
    } else {
      a, b := BeforeSplits(net, rank, q, net.nodes[p].owner.value);
    }
  }

  lemma NeverBeforeItself(net: Net, rank: Id -> nat, x: Id)
    requires Ranked(net, rank) && x in net.nodes
    ensures !Before(net, rank, x, x)
  {
    if Before(net, rank, x, x) {
      var a, b := BeforeSplits(net, rank, x, x);
      OneSibling(net, rank, x, a, b);
    }
  }

  // ------------------------------------------------------- independence of the rank

  lemma {:induction false} SameWithin(net: Net, rank: Id -> nat, rank': Id -> nat, q: Id, a: Id)
    requires Ranked(net, rank) && Ranked(net, rank') && q in net.nodes
    ensures Within(net, rank, q, a) == Within(net, rank', q, a)
    decreases rank(q)
  {
    if net.nodes[q].owner.Some? {
      SameWithin(net, rank, rank', net.nodes[q].owner.value, a);
    }
  }

  lemma {:induction false} BeforeAnyway(net: Net, rank: Id -> nat, rank': Id -> nat, q: Id, p: Id)
    requires Ranked(net, rank) && Ranked(net, rank') && q in net.nodes && p in net.nodes && Before(net, rank, q, p)
    ensures Before(net, rank', q, p)
    decreases rank(p)
  {
    if u :| u in net.nodes[p].ups && (u == q || Within(net, rank, q, u) || Before(net, rank, q, u)) {
      SameWithin(net, rank, rank', q, u);
      if u != q && !Within(net, rank, q, u) {
        BeforeAnyway(net, rank, rank', q, u);
      }
    } else {
      BeforeAnyway(net, rank, rank', q, net.nodes[p].owner.value);
    }
  }

  /** Nor does soundness depend on the rank. */
  lemma SoundAnyway(net: Net, rank: Id -> nat, rank': Id -> nat)
    requires Sound(net, rank) && Ranked(net, rank')
    ensures Sound(net, rank')
  {
    forall p, q, k | p in net.nodes && q in net.nodes && k in net.nodes[p].keys && k in net.nodes[q].outs
      ensures Before(net, rank', q, p) {
      BeforeAnyway(net, rank, rank', q, p);
    }
  }

  // --------------------------------------------------------------------- a deep rank

  /** `x` is through before `q` starts, or is a block around `q`. */
  ghost predicate Precedes(net: Net, rank: Id -> nat, x: Id, q: Id)
    requires Ranked(net, rank) && x in net.nodes && q in net.nodes
  {
    Before(net, rank, x, q) || Within(net, rank, q, x)
  }

  ghost function Predecessors(net: Net, rank: Id -> nat, q: Id): set<Id>
    requires Ranked(net, rank) && q in net.nodes
  {
    set x | x in net.nodes && Precedes(net, rank, x, q)
  }

  ghost function DeepRank(net: Net, rank: Id -> nat): Id -> nat
    requires Ranked(net, rank)
  {
    (q: Id) => if Ranked(net, rank) && q in net.nodes then |Predecessors(net, rank, q)| else 0
  }

  lemma NotItself(net: Net, rank: Id -> nat, x: Id)
    requires Ranked(net, rank) && x in net.nodes
    ensures x !in Predecessors(net, rank, x)
  {
    NeverBeforeItself(net, rank, x);
    if Within(net, rank, x, x) {
      WithinIsHigher(net, rank, x, x);
    }
  }

  lemma MoreElements(s: set<Id>, t: set<Id>, x: Id)
    requires s <= t && x in t && x !in s
    ensures |s| < |t|
  {
    var rest := t - s;
    assert t == s + rest && x in rest;
    assert |t| == |s| + |rest|;
  }

  lemma HigherBy(net: Net, rank: Id -> nat, x: Id, q: Id)
    requires Ranked(net, rank) && x in net.nodes && q in net.nodes && Precedes(net, rank, x, q)
    requires forall y :: y in net.nodes && Precedes(net, rank, y, x) ==> Precedes(net, rank, y, q)
    ensures DeepRank(net, rank)(x) < DeepRank(net, rank)(q)
  {
    NotItself(net, rank, x);
    MoreElements(Predecessors(net, rank, x), Predecessors(net, rank, q), x);
  }

  /** What precedes a vertex nested in an up-vertex of `q` precedes `q`. */
  lemma {:induction false} InsideUp(net: Net, rank: Id -> nat, y: Id, x: Id, u: Id, q: Id)
    requires Ranked(net, rank) && y in net.nodes && x in net.nodes && q in net.nodes && u in net.nodes[q].ups
    requires InTree(net, rank, x, u) && Precedes(net, rank, y, x)
    ensures Precedes(net, rank, y, q)
    decreases rank(x)
  {
    if x != u {
      var c := net.nodes[x].owner.value;
      if Within(net, rank, x, y) {
        if c == y {
          assert InTree(net, rank, y, u);
        } else {
          InsideUp(net, rank, y, c, u, q);
        }
      } else if w :| w in net.nodes[x].ups && (w == y || Within(net, rank, y, w) || Before(net, rank, y, w)) {
        assert Within(net, rank, w, u);
        if Within(net, rank, y, w) {
          WithinTwice(net, rank, y, w, u);
        } else if w != y {
          InsideUp(net, rank, y, w, u, q);
        }
      } else {
        InsideUp(net, rank, y, c, u, q);
      }
    }
  }

  lemma UpIsLower(net: Net, rank: Id -> nat, x: Id, u: Id, q: Id)
    requires Ranked(net, rank) && q in net.nodes && u in net.nodes[q].ups && x in net.nodes && InTree(net, rank, x, u)
    ensures DeepRank(net, rank)(x) < DeepRank(net, rank)(q)
  {
    forall y | y in net.nodes && Precedes(net, rank, y, x) ensures Precedes(net, rank, y, q) {
      InsideUp(net, rank, y, x, u, q);
    }
    HigherBy(net, rank, x, q);
  }

  lemma OwnerIsLower(net: Net, rank: Id -> nat, b: Id, q: Id)
    requires Ranked(net, rank) && q in net.nodes && net.nodes[q].owner == Some(b)
    ensures DeepRank(net, rank)(b) < DeepRank(net, rank)(q)
  {
    HigherBy(net, rank, b, q);
  }

  /** Every ranked net has a deep rank. */
  lemma DeepRankExists(net: Net, rank: Id -> nat)
    requires Ranked(net, rank)
    ensures Ranked(net, DeepRank(net, rank)) && DeepRanked(net, DeepRank(net, rank))
  {
    var deep := DeepRank(net, rank);
    forall q, u | q in net.nodes && u in net.nodes[q].ups ensures deep(u) < deep(q) {
      UpIsLower(net, rank, u, u, q);
    }
    forall q | q in net.nodes && net.nodes[q].owner.Some? ensures deep(net.nodes[q].owner.value) < deep(q) {
      OwnerIsLower(net, rank, net.nodes[q].owner.value, q);
    }
    assert Ranked(net, deep);
    forall q, u, x | q in net.nodes && u in net.nodes[q].ups && x in net.nodes && Within(net, deep, x, u)
      ensures deep(x) < deep(q) {
      SameWithin(net, rank, deep, x, u);
      UpIsLower(net, rank, x, u, q);
    }
  }
}
