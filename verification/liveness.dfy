/** A run never gets stuck and never goes on for ever, blocks included. */
module Liveness {
  import opened Values
  import opened Outputs
  import opened Nets
  import opened Runs

  // ------------------------------------------------------------------ no deadlock

  lemma {:induction false} LowestRank(rank: Id -> nat, ids: set<Id>) returns (low: Id)
    requires ids != {}
    ensures low in ids && forall x :: x in ids ==> rank(low) <= rank(x)
    decreases ids
  {
    var x :| x in ids;
    if ids == {x} {
      low := x;
    } else {
      var rest := LowestRank(rank, ids - {x});
      low := if rank(rest) <= rank(x) then rest else x;
    }
  }

  /** The vertices that a DAG, or a DAG nested in it, may hold. */
  ghost function Below(net: Net, rank: Id -> nat, dag: Option<Id>): set<Id> {
    set id | id in net.nodes && (dag.Some? ==> rank(dag.value) < rank(id))
  }

  /** In an execution that is under way some goroutine, at this or a deeper level, can act. */
  lemma {:induction false} SomeoneCanAct(net: Net, rank: Id -> nat, s: Sys, dag: Option<Id>) returns (a: Act)
    requires Ranked(net, rank) && Struct(net, s) && !AllDone(net, s, dag)
    requires dag.Some? ==> dag.value in net.nodes && Ph(s, dag.value).Inside?
    ensures Enabled(net, s, a)
    decreases Below(net, rank, dag)
  {
    var waiting := set id | id in net.nodes && net.nodes[id].owner == dag && !Ph(s, id).Done?;
    var some :| some in net.nodes && net.nodes[some].owner == dag && !Ph(s, some).Done?;
    assert some in waiting;
    var id := LowestRank(rank, waiting);
    assert StructAt(net, s, id);
    CanonicalIsValid();
    match Ph(s, id)
    case Idle =>
      forall u | u in net.nodes[id].ups ensures Ph(s, u).Done? {
        assert Ph(s, u).Done? || u in waiting;
      }
      a := if Barred(net, s, id) then Skip(id) else Begin(id);
    case Reading(k, _) =>
      if k < |net.nodes[id].keys| {
        a := Read(id);
      } else if Enters(net, s, id, Canonical()) {
        a := Enter(id, Canonical());
      } else {
        a := Finish(id, Canonical());
      }
    case Inside =>
      if AllDone(net, s, Some(id)) {
        a := Total(Some(id), true);
      } else {
        assert id in Below(net, rank, dag) && id !in Below(net, rank, Some(id));
        assert Below(net, rank, Some(id)) < Below(net, rank, dag);
        a := SomeoneCanAct(net, rank, s, Some(id));
      }
    case Logging(_) =>
      a := Log(id);
  }

  lemma {:induction false} RunStruct(net: Net, rank: Id -> nat, seed: Store, acts: seq<Act>)
    requires Ranked(net, rank) && IsRun(net, seed, acts)
    ensures Struct(net, After(net, seed, acts))
    decreases |acts|
  {
    if acts != [] {
      RunStruct(net, rank, seed, acts[..|acts| - 1]);
      StructStep(net, rank, After(net, seed, acts[..|acts| - 1]), acts[|acts| - 1]);
    }
  }

  lemma OneMore(net: Net, seed: Store, acts: seq<Act>, a: Act)
    requires IsRun(net, seed, acts) && Enabled(net, After(net, seed, acts), a)
    ensures IsRun(net, seed, acts + [a])
    ensures After(net, seed, acts + [a]) == Next(net, After(net, seed, acts), a)
  {
    assert (acts + [a])[..|acts + [a]| - 1] == acts;
  }

  /** Unless the run is over, some action is enabled. */
  lemma NoDeadlock(net: Net, rank: Id -> nat, seed: Store, acts: seq<Act>) returns (a: Act)
    requires Ranked(net, rank) && IsRun(net, seed, acts) && !Complete(After(net, seed, acts))
    ensures Enabled(net, After(net, seed, acts), a)
  {
    var s := After(net, seed, acts);
    RunStruct(net, rank, seed, acts);
    if AllDone(net, s, None) {
      a := Total(None, true);
    } else {
      a := SomeoneCanAct(net, rank, s, None);
    }
  }

  // ------------------------------------------------------------------ termination

  ghost function Sum(ids: set<Id>, w: Id -> nat): nat {
    if ids == {} then 0 else
      var id :| id in ids;
      w(id) + Sum(ids - {id}, w)
  }

  lemma {:induction false} SumPick(ids: set<Id>, w: Id -> nat, p: Id)
    requires p in ids
    ensures Sum(ids, w) == w(p) + Sum(ids - {p}, w)
    decreases ids
  {
    var id :| id in ids && Sum(ids, w) == w(id) + Sum(ids - {id}, w);
    if id != p {
      SumPick(ids - {id}, w, p);
      SumPick(ids - {p}, w, id);
      assert ids - {id} - {p} == ids - {p} - {id};
    }
  }

  lemma {:induction false} SumSame(ids: set<Id>, w: Id -> nat, w': Id -> nat)
    requires forall id :: id in ids ==> w(id) == w'(id)
    ensures Sum(ids, w) == Sum(ids, w')
    decreases ids
  {
    if ids != {} {
      var id :| id in ids;
      SumPick(ids, w, id);
      SumPick(ids, w', id);
      SumSame(ids - {id}, w, w');
    }
  }

  /** What a vertex still has to do. */
  ghost function Weight(net: Net, s: Sys, id: Id): nat {
    var todo := if id in net.nodes then |net.nodes[id].keys| else 0;
    match Ph(s, id)
    case Idle => todo + 5
    case Reading(k, _) => if k <= todo then todo - k + 4 else 4
    case Inside => 3
    case Logging(_) => 2
    case Done(_) => 0
  }

  ghost function WeightOf(net: Net, s: Sys): Id -> nat {
    (id: Id) => Weight(net, s, id)
  }

  ghost function Work(net: Net, s: Sys): nat {
    Sum(net.nodes.Keys, WeightOf(net, s)) + if Complete(s) then 0 else 1
  }

  lemma MoverGetsLighter(net: Net, s: Sys, a: Act)
    requires Struct(net, s) && Enabled(net, s, a) && Mover(a).Some?
    ensures Weight(net, Next(net, s, a), Mover(a).value) < Weight(net, s, Mover(a).value)
    ensures Complete(Next(net, s, a)) == Complete(s)
  {
    assert StructAt(net, s, Mover(a).value);
  }

  lemma SumDrops(ids: set<Id>, w: Id -> nat, w': Id -> nat, p: Id)
    requires p in ids && w'(p) < w(p) && forall id :: id in ids && id != p ==> w(id) == w'(id)
    ensures Sum(ids, w') < Sum(ids, w)
  {
    SumPick(ids, w, p);
    SumPick(ids, w', p);
    SumSame(ids - {p}, w, w');
  }

  lemma MoverCosts(net: Net, s: Sys, a: Act)
    requires Struct(net, s) && Enabled(net, s, a) && Mover(a).Some? && Mover(a).value in net.nodes
    requires forall id: Id :: Mover(a) != Some(id) ==> Ph(Next(net, s, a), id) == Ph(s, id)
    ensures Work(net, Next(net, s, a)) < Work(net, s)
  {
    MoverGetsLighter(net, s, a);
    SumDrops(net.nodes.Keys, WeightOf(net, s), WeightOf(net, Next(net, s, a)), Mover(a).value);
  }

  lemma StepsCost(net: Net, s: Sys, a: Act)
    requires Struct(net, s) && Enabled(net, s, a)
    ensures Work(net, Next(net, s, a)) < Work(net, s)
  {
    OthersKeepPhase(net, s, a);
    if Mover(a).Some? {
      MoverCosts(net, s, a);
    } else {
      SumSame(net.nodes.Keys, WeightOf(net, s), WeightOf(net, Next(net, s, a)));
    }
  }

  /** No run is longer than the work there is at the start. */
  lemma {:induction false} RunsAreBounded(net: Net, rank: Id -> nat, seed: Store, acts: seq<Act>)
    requires Ranked(net, rank) && IsRun(net, seed, acts)
    ensures |acts| + Work(net, After(net, seed, acts)) <= Work(net, Init(seed))
    decreases |acts|
  {
    if acts != [] {
      var before := acts[..|acts| - 1];
      RunsAreBounded(net, rank, seed, before);
      RunStruct(net, rank, seed, before);
      StepsCost(net, After(net, seed, before), acts[|acts| - 1]);
    }
  }

  /** Hence every run can be continued to a complete one. */
  lemma {:induction false} RunsComplete(net: Net, rank: Id -> nat, seed: Store, acts: seq<Act>) returns (all: seq<Act>)
    requires Ranked(net, rank) && IsRun(net, seed, acts)
    ensures acts <= all && IsRun(net, seed, all) && Complete(After(net, seed, all))
    decreases Work(net, After(net, seed, acts))
  {
    if Complete(After(net, seed, acts)) {
      all := acts;
    } else {
      var a := NoDeadlock(net, rank, seed, acts);
      RunStruct(net, rank, seed, acts);
      StepsCost(net, After(net, seed, acts), a);
      OneMore(net, seed, acts, a);
      all := RunsComplete(net, rank, seed, acts + [a]);
    }
  }
}
