/** The schedule-free meaning of a pipeline: a store and a fate per vertex that solve its
    data-flow equations. Every complete run ends in a solution, and in the same one. */
module Dataflow {
  import opened Values
  import opened Outputs
  import opened Nets
  import opened Runs
  import opened Ranks

  /** Status of the vertices that were started or skipped; a vertex of a DAG whose block
      was not entered has none. */
  type Fates = map<Id, Status>

  ghost predicate Fared(fate: Fates, id: Id, st: Status) {
    id in fate && fate[id] == st
  }

  /** The DAG of the vertex is executed at all. */
  ghost predicate Reached(net: Net, f: Store, fate: Fates, id: Id)
    requires id in net.nodes
  {
    var ow := net.nodes[id].owner;
    ow.None? || (ow.value in net.nodes && ow.value in fate && fate[ow.value].Ran? && Entered(Meaning(net, f, ow.value)))
  }

  ghost predicate Blocked(net: Net, fate: Fates, id: Id)
    requires id in net.nodes
  {
    net.stop && exists u :: u in net.nodes[id].ups && !Fared(fate, u, Ran(true))
  }

  ghost predicate SolvedAt(net: Net, seed: Store, f: Store, fate: Fates, id: Id)
    requires id in net.nodes
  {
    var m := Meaning(net, f, id);
    && (id in fate <==> Reached(net, f, fate, id))
    && (id in fate ==> fate[id] == if Blocked(net, fate, id) then Skipped else Ran(OkErr(m.err)))
    && SameOn(f, if id in fate && fate[id].Ran? then seed + OutMap(m) else seed, net.nodes[id].outs)
  }

  ghost predicate Solution(net: Net, seed: Store, f: Store, fate: Fates) {
    && fate.Keys <= net.nodes.Keys
    && (forall id :: id in net.nodes ==> SolvedAt(net, seed, f, fate, id))
    && (forall k :: !Owned(net, k) ==> Same(f, seed, k))
  }

  ghost function FatesOf(s: Sys): Fates {
    map id | id in s.phase && s.phase[id].Done? :: s.phase[id].status
  }

  /** Bookkeeping of a finished execution: its post-run hook came last. */
  ghost predicate HookLast(net: Net, s: Sys) {
    None in s.closed ==> AllDone(net, s, None)
  }

  lemma {:induction false} HooksComeLast(net: Net, seed: Store, acts: seq<Act>)
    requires IsRun(net, seed, acts)
    ensures HookLast(net, After(net, seed, acts))
    decreases |acts|
  {
    if acts != [] {
      var before, a := acts[..|acts| - 1], acts[|acts| - 1];
      HooksComeLast(net, seed, before);
      OthersKeepPhase(net, After(net, seed, before), a);
    }
  }

  /** When the outermost execution is over, every vertex is done or was never reached. */
  lemma {:induction false} NothingPending(net: Net, rank: Id -> nat, s: Sys, id: Id)
    requires Ranked(net, rank) && Struct(net, s) && AllDone(net, s, None) && id in net.nodes
    ensures Ph(s, id).Idle? || Ph(s, id).Done?
    decreases rank(id)
  {
    assert StructAt(net, s, id);
    if net.nodes[id].owner.Some? {
      var b := net.nodes[id].owner.value;
      NothingPending(net, rank, s, b);
    }
  }

  /** Part one: the final state of a complete run solves the equations. */
  lemma FinalStateSolves(net: Net, rank: Id -> nat, seed: Store, acts: seq<Act>)
    requires Sound(net, rank) && IsRun(net, seed, acts) && Complete(After(net, seed, acts))
    ensures var s := After(net, seed, acts); Solution(net, seed, s.store, FatesOf(s))
  {
    var s := After(net, seed, acts);
    RunInvariant(net, rank, seed, acts);
    HooksComeLast(net, seed, acts);
    forall id | id in net.nodes ensures SolvedAt(net, seed, s.store, FatesOf(s), id) {
      SolvedInTheEnd(net, rank, seed, s, id);
    }
  }

  lemma SolvedInTheEnd(net: Net, rank: Id -> nat, seed: Store, s: Sys, id: Id)
    requires Ranked(net, rank) && Struct(net, s) && Sem(net, seed, s) && AllDone(net, s, None) && id in net.nodes
    ensures SolvedAt(net, seed, s.store, FatesOf(s), id)
  {
    NothingPending(net, rank, s, id);
    assert SemAt(net, seed, s, id) && StructAt(net, s, id);
    assert forall u :: Fared(FatesOf(s), u, Ran(true)) <==> Ph(s, u) == Done(Ran(true));
    assert Blocked(net, FatesOf(s), id) == Barred(net, s, id);
    if net.nodes[id].owner.Some? {
      var b := net.nodes[id].owner.value;
      NothingPending(net, rank, s, b);
      assert SemAt(net, seed, s, b) && StructAt(net, s, b);
    }
  }

  // --------------------------------------------------- every run follows any solution

  /** The run so far agrees with the solution. */
  ghost predicate Follows(net: Net, rank: Id -> nat, s: Sys, f: Store, fate: Fates)
    requires Ranked(net, rank)
  {
    && (forall id :: id in net.nodes && !Ph(s, id).Idle? ==>
          id in fate && fate[id].Ran? == !(Ph(s, id) == Done(Skipped))
          && (Ph(s, id).Done? ==> fate[id] == Ph(s, id).status))
    && (forall id :: id in net.nodes && Settled(net, rank, s, id) ==> SameOn(s.store, f, net.nodes[id].outs))
  }

  /** A vertex that has started means the same under the run and under the solution. */
  lemma SameInput(net: Net, rank: Id -> nat, seed: Store, s: Sys, f: Store, fate: Fates, p: Id, k: string)
    requires Sound(net, rank) && Struct(net, s) && p in net.nodes && k in net.nodes[p].keys && !Ph(s, p).Idle?
    requires Follows(net, rank, s, f, fate)
    requires !Owned(net, k) ==> Same(s.store, seed, k) && Same(f, seed, k)
    ensures Same(s.store, f, k)
  {
    if Owned(net, k) {
      var q :| q in net.nodes && k in net.nodes[q].outs;
      BeforeIsSettled(net, rank, s, q, p);
    }
  }

  lemma SameMeaning(net: Net, rank: Id -> nat, seed: Store, s: Sys, f: Store, fate: Fates, p: Id)
    requires Sound(net, rank) && Struct(net, s) && Sem(net, seed, s)
    requires Solution(net, seed, f, fate) && Follows(net, rank, s, f, fate)
    requires p in net.nodes && !Ph(s, p).Idle?
    ensures Meaning(net, s.store, p) == Meaning(net, f, p)
  {
    forall k | k in net.nodes[p].keys ensures Same(s.store, f, k) {
      SameInput(net, rank, seed, s, f, fate, p, k);
    }
    GatherFrame(s.store, f, net.nodes[p].keys);
  }

  /** Below a block that was skipped or refused, nothing happens in the solution. */
  lemma {:induction false} NothingBelow(net: Net, rank: Id -> nat, seed: Store, f: Store, fate: Fates, q: Id, a: Id)
    requires Ranked(net, rank) && Solution(net, seed, f, fate) && q in net.nodes && a in net.nodes
    requires Within(net, rank, q, a) && !(a in fate && fate[a].Ran? && Entered(Meaning(net, f, a)))
    ensures q !in fate && SameOn(f, seed, net.nodes[q].outs)
    decreases rank(q)
  {
    assert SolvedAt(net, seed, f, fate, q);
    var b := net.nodes[q].owner.value;
    if b != a {
      NothingBelow(net, rank, seed, f, fate, b, a);
    }
  }

  /** Who becomes settled when vertex `p` gets through. */
  lemma {:induction false} NewlySettled(net: Net, rank: Id -> nat, s: Sys, s': Sys, p: Id, q: Id)
    requires Ranked(net, rank) && p in net.nodes && q in net.nodes
    requires forall id: Id :: id != p ==> Ph(s', id) == Ph(s, id)
    requires Settled(net, rank, s', q)
    ensures Settled(net, rank, s, q) || q == p || Within(net, rank, q, p)
    decreases rank(q)
  {
    if !Over(Ph(s', q)) {
      NewlySettled(net, rank, s, s', p, net.nodes[q].owner.value);
    }
  }

  ghost predicate FateFits(net: Net, s: Sys, fate: Fates, id: Id) {
    id in fate && fate[id].Ran? == !(Ph(s, id) == Done(Skipped))
    && (Ph(s, id).Done? ==> fate[id] == Ph(s, id).status)
  }

  /** The vertex about to start is reached in the solution too. */
  lemma ReachedToo(net: Net, rank: Id -> nat, seed: Store, s: Sys, id: Id, f: Store, fate: Fates)
    requires Sound(net, rank) && Struct(net, s) && Sem(net, seed, s)
    requires Solution(net, seed, f, fate) && Follows(net, rank, s, f, fate)
    requires id in net.nodes && Active(net, s, id)
    ensures Reached(net, f, fate, id)
  {
    if net.nodes[id].owner.Some? {
      var b := net.nodes[id].owner.value;
      assert SemAt(net, seed, s, b);
      SameMeaning(net, rank, seed, s, f, fate, b);
    }
  }

  /** Starting or skipping a vertex is what the solution prescribes. */
  lemma StartFollows(net: Net, rank: Id -> nat, seed: Store, s: Sys, a: Act, f: Store, fate: Fates)
    requires Sound(net, rank) && Struct(net, s) && Sem(net, seed, s) && Enabled(net, s, a)
    requires Solution(net, seed, f, fate) && Follows(net, rank, s, f, fate) && (a.Begin? || a.Skip?)
    ensures FateFits(net, Next(net, s, a), fate, a.id)
  {
    ReachedToo(net, rank, seed, s, a.id, f, fate);
    assert SolvedAt(net, seed, f, fate, a.id);
    forall u | u in net.nodes[a.id].ups ensures Fared(fate, u, Ran(true)) <==> Ph(s, u) == Done(Ran(true)) {
      assert Ph(s, u).Done?;
    }
    assert Blocked(net, fate, a.id) == Barred(net, s, a.id);
  }

  /** A vertex at work keeps the fate it was started with; its record has the right flag. */
  lemma WorkFollows(net: Net, rank: Id -> nat, seed: Store, s: Sys, a: Act, f: Store, fate: Fates)
    requires Sound(net, rank) && Struct(net, s) && Sem(net, seed, s) && Enabled(net, s, a)
    requires Solution(net, seed, f, fate) && Follows(net, rank, s, f, fate)
    requires Mover(a).Some? && !a.Begin? && !a.Skip?
    ensures FateFits(net, Next(net, s, a), fate, Mover(a).value)
  {
    var p := Mover(a).value;
    assert SemAt(net, seed, s, p) && SolvedAt(net, seed, f, fate, p);
    assert !Ph(s, p).Idle?;
    SameMeaning(net, rank, seed, s, f, fate, p);
  }

  lemma FatesFollow(net: Net, rank: Id -> nat, seed: Store, s: Sys, a: Act, f: Store, fate: Fates, id: Id)
    requires Sound(net, rank) && Struct(net, s) && Sem(net, seed, s) && Enabled(net, s, a)
    requires Solution(net, seed, f, fate) && Follows(net, rank, s, f, fate)
    requires id in net.nodes && !Ph(Next(net, s, a), id).Idle?
    ensures FateFits(net, Next(net, s, a), fate, id)
  {
    OthersKeepPhase(net, s, a);
    if Mover(a) == Some(id) {
      if a.Begin? || a.Skip? {
        StartFollows(net, rank, seed, s, a, f, fate);
      } else {
        WorkFollows(net, rank, seed, s, a, f, fate);
      }
    }
  }

  /** What the vertex that just got through leaves in the store. */
  lemma MoverLeaves(net: Net, rank: Id -> nat, seed: Store, s: Sys, a: Act, f: Store, fate: Fates)
    requires Sound(net, rank) && Struct(net, s) && Sem(net, seed, s) && Enabled(net, s, a)
    requires Solution(net, seed, f, fate) && Follows(net, rank, s, f, fate)
    requires Mover(a).Some? && Over(Ph(Next(net, s, a), Mover(a).value))
    ensures SameOn(Next(net, s, a).store, f, net.nodes[Mover(a).value].outs)
  {
    var p, s' := Mover(a).value, Next(net, s, a);
    var n := net.nodes[p];
    StructStep(net, rank, s, a);
    SemStep(net, rank, seed, s, a);
    FatesFollow(net, rank, seed, s, a, f, fate, p);
    assert SemAt(net, seed, s', p) && SolvedAt(net, seed, f, fate, p);
    if !a.Skip? {
      SameMeaning(net, rank, seed, s, f, fate, p);
      InputsKept(net, rank, s, a, p);
    }
  }

  /** A block that is skipped or refused is skipped or refused in the solution as well. */
  lemma RefusalFollows(net: Net, rank: Id -> nat, seed: Store, s: Sys, a: Act, f: Store, fate: Fates)
    requires Sound(net, rank) && Struct(net, s) && Sem(net, seed, s) && Enabled(net, s, a)
    requires Solution(net, seed, f, fate) && Follows(net, rank, s, f, fate)
    requires a.Skip? || (a.Finish? && net.nodes[a.id].inner.Some?)
    ensures !(a.id in fate && fate[a.id].Ran? && Entered(Meaning(net, f, a.id)))
  {
    FatesFollow(net, rank, seed, s, a, f, fate, a.id);
    if a.Finish? {
      var n := net.nodes[a.id];
      SameMeaning(net, rank, seed, s, f, fate, a.id);
      assert SemAt(net, seed, s, a.id);
      assert n.keys[..|n.keys|] == n.keys;
      CanonicalIsValid();
      assert OrderFree(n);
    }
  }

  /** Everything below a vertex that was refused keeps its seeded state. */
  lemma BelowRefused(net: Net, rank: Id -> nat, seed: Store, s: Sys, f: Store, fate: Fates, p: Id, q: Id)
    requires Ranked(net, rank) && Struct(net, s) && Sem(net, seed, s) && Solution(net, seed, f, fate)
    requires p in net.nodes && q in net.nodes && Within(net, rank, q, p)
    requires !(p in fate && fate[p].Ran? && Entered(Meaning(net, f, p)))
    requires Ph(s, q).Idle?
    ensures SameOn(s.store, f, net.nodes[q].outs)
  {
    NothingBelow(net, rank, seed, f, fate, q, p);
    assert SemAt(net, seed, s, q);
  }

  lemma StillIdle(net: Net, rank: Id -> nat, s: Sys, a: Act, q: Id)
    requires Ranked(net, rank) && Struct(net, s) && Enabled(net, s, a) && Mover(a).Some?
    requires q in net.nodes && Within(net, rank, q, Mover(a).value) && !Settled(net, rank, s, q)
    requires Over(Ph(Next(net, s, a), Mover(a).value)) && (a.Skip? || a.Finish?)
    ensures Ph(Next(net, s, a), q).Idle?
  {
    StructStep(net, rank, s, a);
    UnsettledBelowIsIdle(net, rank, Next(net, s, a), q, Mover(a).value);
    OthersKeepPhase(net, s, a);
    WithinIsHigher(net, rank, q, Mover(a).value);
  }

  /** Vertices below a block that got through: its DAG is done, or never ran anywhere. */
  lemma BelowLeaves(net: Net, rank: Id -> nat, seed: Store, s: Sys, a: Act, f: Store, fate: Fates, q: Id)
    requires Sound(net, rank) && Struct(net, s) && Sem(net, seed, s) && Enabled(net, s, a)
    requires Solution(net, seed, f, fate) && Follows(net, rank, s, f, fate)
    requires Mover(a).Some? && Over(Ph(Next(net, s, a), Mover(a).value))
    requires q in net.nodes && Within(net, rank, q, Mover(a).value) && !Settled(net, rank, s, q)
    ensures SameOn(Next(net, s, a).store, f, net.nodes[q].outs)
  {
    var p, s' := Mover(a).value, Next(net, s, a);
    if a.Total? {
      NotBelowFinished(net, rank, s, p, q);
    } else if a.Log? {
      WithinSettled(net, rank, s, q, p);
    } else {
      WithinHasInner(net, rank, q, p);
      RefusalFollows(net, rank, seed, s, a, f, fate);
      StillIdle(net, rank, s, a, q);
      StructStep(net, rank, s, a);
      SemStep(net, rank, seed, s, a);
      BelowRefused(net, rank, seed, s', f, fate, p, q);
    }
  }

  lemma {:induction false} WithinHasInner(net: Net, rank: Id -> nat, q: Id, a: Id)
    requires Ranked(net, rank) && q in net.nodes && a in net.nodes && Within(net, rank, q, a)
    ensures net.nodes[a].inner.Some?
    decreases rank(q)
  {
    if net.nodes[q].owner.value != a {
      WithinHasInner(net, rank, net.nodes[q].owner.value, a);
    }
  }

  /** Below a block whose members are all done, everything is settled. */
  lemma {:induction false} NotBelowFinished(net: Net, rank: Id -> nat, s: Sys, p: Id, q: Id)
    requires Ranked(net, rank) && p in net.nodes && q in net.nodes && Within(net, rank, q, p)
    requires AllDone(net, s, Some(p))
    ensures Settled(net, rank, s, q)
    decreases rank(q)
  {
    var b := net.nodes[q].owner.value;
    if b != p {
      NotBelowFinished(net, rank, s, p, b);
    }
  }

  /** Below a block that is through, an unfinished vertex never started. */
  lemma {:induction false} UnsettledBelowIsIdle(net: Net, rank: Id -> nat, s: Sys, q: Id, p: Id)
    requires Ranked(net, rank) && Struct(net, s) && p in net.nodes && q in net.nodes
    requires Within(net, rank, q, p) && Over(Ph(s, p))
    ensures Ph(s, q).Idle? || Ph(s, q).Done? || Ph(s, q).Logging?
    decreases rank(q)
  {
    if Ph(s, q).Reading? || Ph(s, q).Inside? {
      BusyIsUnsettled(net, rank, s, q);
      WithinSettled(net, rank, s, q, p);
    }
  }

  /** No write touches the outputs of a settled vertex. */
  lemma SettledKeepsOutputs(net: Net, rank: Id -> nat, s: Sys, a: Act, q: Id)
    requires Sound(net, rank) && Struct(net, s) && Enabled(net, s, a)
    requires q in net.nodes && Settled(net, rank, s, q)
    ensures SameOn(Next(net, s, a).store, s.store, net.nodes[q].outs)
  {
    WriteFrame(net, rank, s, a);
    if a.Finish? {
      BusyIsUnsettled(net, rank, s, a.id);
      assert net.nodes[a.id].outs !! net.nodes[q].outs;
    }
  }

  lemma SettledFollows(net: Net, rank: Id -> nat, seed: Store, s: Sys, a: Act, f: Store, fate: Fates, q: Id)
    requires Sound(net, rank) && Struct(net, s) && Sem(net, seed, s) && Enabled(net, s, a)
    requires Solution(net, seed, f, fate) && Follows(net, rank, s, f, fate)
    requires q in net.nodes && Settled(net, rank, Next(net, s, a), q)
    ensures SameOn(Next(net, s, a).store, f, net.nodes[q].outs)
  {
    if Settled(net, rank, s, q) {
      SettledKeepsOutputs(net, rank, s, a, q);
    } else {
      OnlyMoverSettles(net, rank, s, a, q);
      if q == Mover(a).value {
        MoverLeaves(net, rank, seed, s, a, f, fate);
      } else {
        BelowLeaves(net, rank, seed, s, a, f, fate, q);
      }
    }
  }

  /** An action settles at most the vertex that got through and what lies below it. */
  lemma OnlyMoverSettles(net: Net, rank: Id -> nat, s: Sys, a: Act, q: Id)
    requires Ranked(net, rank) && Enabled(net, s, a)
    requires q in net.nodes && Settled(net, rank, Next(net, s, a), q) && !Settled(net, rank, s, q)
    ensures Mover(a).Some? && Over(Ph(Next(net, s, a), Mover(a).value))
    ensures q == Mover(a).value || Within(net, rank, q, Mover(a).value)
  {
    var s' := Next(net, s, a);
    OthersKeepPhase(net, s, a);
    if Mover(a).None? {
      SettledByPhase(net, rank, s, s', q);
    } else {
      var p := Mover(a).value;
      NewlySettled(net, rank, s, s', p, q);
      if !Over(Ph(s', p)) {
        StillUnsettled(net, rank, s, s', p, q);
      }
    }
  }

  lemma {:induction false} SettledByPhase(net: Net, rank: Id -> nat, s: Sys, s': Sys, q: Id)
    requires Ranked(net, rank) && q in net.nodes && s'.phase == s.phase
    ensures Settled(net, rank, s', q) == Settled(net, rank, s, q)
    decreases rank(q)
  {
    if net.nodes[q].owner.Some? {
      SettledByPhase(net, rank, s, s', net.nodes[q].owner.value);
    }
  }

  lemma {:induction false} StillUnsettled(net: Net, rank: Id -> nat, s: Sys, s': Sys, p: Id, q: Id)
    requires Ranked(net, rank) && p in net.nodes && q in net.nodes
    requires forall id: Id :: id != p ==> Ph(s', id) == Ph(s, id)
    requires !Over(Ph(s', p)) && Settled(net, rank, s', q)
    ensures Settled(net, rank, s, q)
    decreases rank(q)
  {
    if !Over(Ph(s', q)) {
      StillUnsettled(net, rank, s, s', p, net.nodes[q].owner.value);
    }
  }

  lemma FollowStep(net: Net, rank: Id -> nat, seed: Store, s: Sys, a: Act, f: Store, fate: Fates)
    requires Sound(net, rank) && Struct(net, s) && Sem(net, seed, s) && Enabled(net, s, a)
    requires Solution(net, seed, f, fate) && Follows(net, rank, s, f, fate)
    ensures Follows(net, rank, Next(net, s, a), f, fate)
  {
    forall id | id in net.nodes && !Ph(Next(net, s, a), id).Idle? ensures FateFits(net, Next(net, s, a), fate, id) {
      FatesFollow(net, rank, seed, s, a, f, fate, id);
    }
    forall q | q in net.nodes && Settled(net, rank, Next(net, s, a), q)
      ensures SameOn(Next(net, s, a).store, f, net.nodes[q].outs) {
      SettledFollows(net, rank, seed, s, a, f, fate, q);
    }
  }

  lemma {:induction false} NothingSettledYet(net: Net, rank: Id -> nat, seed: Store, q: Id)
    requires Ranked(net, rank) && q in net.nodes
    ensures !Settled(net, rank, Init(seed), q)
    decreases rank(q)
  {
    if net.nodes[q].owner.Some? {
      NothingSettledYet(net, rank, seed, net.nodes[q].owner.value);
    }
  }

  lemma {:induction false} RunFollows(net: Net, rank: Id -> nat, seed: Store, acts: seq<Act>, f: Store, fate: Fates)
    requires Sound(net, rank) && IsRun(net, seed, acts) && Solution(net, seed, f, fate)
    ensures Follows(net, rank, After(net, seed, acts), f, fate)
    decreases |acts|
  {
    if acts == [] {
      forall q | q in net.nodes ensures !Settled(net, rank, Init(seed), q) {
        NothingSettledYet(net, rank, seed, q);
      }
    } else {
      var before := acts[..|acts| - 1];
      RunFollows(net, rank, seed, before, f, fate);
      RunInvariant(net, rank, seed, before);
      FollowStep(net, rank, seed, After(net, seed, before), acts[|acts| - 1], f, fate);
    }
  }

  lemma {:induction false} EverythingSettled(net: Net, rank: Id -> nat, s: Sys, q: Id)
    requires Ranked(net, rank) && Struct(net, s) && AllDone(net, s, None) && q in net.nodes
    ensures Settled(net, rank, s, q)
    decreases rank(q)
  {
    if net.nodes[q].owner.Some? {
      EverythingSettled(net, rank, s, net.nodes[q].owner.value);
    }
  }

  /** A vertex the run never reached is unreached in the solution. */
  lemma {:induction false} UnreachedToo(net: Net, rank: Id -> nat, seed: Store, s: Sys, f: Store, fate: Fates, id: Id)
    requires Sound(net, rank) && Struct(net, s) && Sem(net, seed, s) && AllDone(net, s, None)
    requires Solution(net, seed, f, fate) && Follows(net, rank, s, f, fate)
    requires id in net.nodes && Ph(s, id).Idle?
    ensures id !in fate
    decreases rank(id)
  {
    assert SolvedAt(net, seed, f, fate, id);
    var b := net.nodes[id].owner.value;
    if Ph(s, b).Idle? {
      UnreachedToo(net, rank, seed, s, f, fate, b);
    } else {
      NothingPending(net, rank, s, b);
      assert SemAt(net, seed, s, b) && StructAt(net, s, b);
      SameMeaning(net, rank, seed, s, f, fate, b);
    }
  }

  lemma KeyMatches(net: Net, rank: Id -> nat, seed: Store, s: Sys, f: Store, k: string)
    requires Ranked(net, rank) && Struct(net, s) && AllDone(net, s, None)
    requires forall q :: q in net.nodes && Settled(net, rank, s, q) ==> SameOn(s.store, f, net.nodes[q].outs)
    requires !Owned(net, k) ==> Same(s.store, seed, k) && Same(f, seed, k)
    ensures Same(s.store, f, k)
  {
    if Owned(net, k) {
      var q :| q in net.nodes && k in net.nodes[q].outs;
      EverythingSettled(net, rank, s, q);
      assert SameOn(s.store, f, net.nodes[q].outs);
    }
  }

  lemma StoreMatches(net: Net, rank: Id -> nat, seed: Store, s: Sys, f: Store, fate: Fates)
    requires Sound(net, rank) && Struct(net, s) && Sem(net, seed, s) && AllDone(net, s, None)
    requires Solution(net, seed, f, fate) && Follows(net, rank, s, f, fate)
    ensures s.store == f
  {
    forall k ensures Same(s.store, f, k) {
      KeyMatches(net, rank, seed, s, f, k);
    }
    SameEverywhere(s.store, f);
  }

  /** Part two: every complete run ends exactly in a given solution. */
  lemma CompleteRunIsTheSolution(net: Net, rank: Id -> nat, seed: Store, acts: seq<Act>, f: Store, fate: Fates)
    requires Sound(net, rank) && IsRun(net, seed, acts) && Complete(After(net, seed, acts))
    requires Solution(net, seed, f, fate)
    ensures After(net, seed, acts).store == f && FatesOf(After(net, seed, acts)) == fate
  {
    RunInvariant(net, rank, seed, acts);
    HooksComeLast(net, seed, acts);
    RunFollows(net, rank, seed, acts, f, fate);
    StoreMatches(net, rank, seed, After(net, seed, acts), f, fate);
    FatesMatch(net, rank, seed, After(net, seed, acts), f, fate);
  }

  lemma FateMatches(net: Net, rank: Id -> nat, seed: Store, s: Sys, f: Store, fate: Fates, id: Id)
    requires Sound(net, rank) && Struct(net, s) && Sem(net, seed, s) && AllDone(net, s, None)
    requires Solution(net, seed, f, fate) && Follows(net, rank, s, f, fate)
    ensures Same(FatesOf(s), fate, id)
  {
    if id in net.nodes {
      NothingPending(net, rank, s, id);
      if Ph(s, id).Idle? {
        UnreachedToo(net, rank, seed, s, f, fate, id);
      }
    }
  }

  lemma FatesMatch(net: Net, rank: Id -> nat, seed: Store, s: Sys, f: Store, fate: Fates)
    requires Sound(net, rank) && Struct(net, s) && Sem(net, seed, s) && AllDone(net, s, None)
    requires Solution(net, seed, f, fate) && Follows(net, rank, s, f, fate)
    ensures FatesOf(s) == fate
  {
    forall id: Id ensures Same(FatesOf(s), fate, id) {
      FateMatches(net, rank, seed, s, f, fate, id);
    }
    SameEverywhere(FatesOf(s), fate);
  }

  /** Whatever the scheduler, the interleaving of reads and writes and Go's map orders:
      two complete runs of a pipeline leave the same store and the same vertex fates. */
  lemma Confluence(net: Net, rank: Id -> nat, seed: Store, acts: seq<Act>, acts': seq<Act>)
    requires Sound(net, rank) && IsRun(net, seed, acts) && IsRun(net, seed, acts')
    requires Complete(After(net, seed, acts)) && Complete(After(net, seed, acts'))
    ensures After(net, seed, acts).store == After(net, seed, acts').store
    ensures FatesOf(After(net, seed, acts)) == FatesOf(After(net, seed, acts'))
  {
    FinalStateSolves(net, rank, seed, acts');
    var s' := After(net, seed, acts');
    CompleteRunIsTheSolution(net, rank, seed, acts, s'.store, FatesOf(s'));
  }
}
