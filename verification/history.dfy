/** The result log: what it holds after any run, and what its printed verdict means. */
module History {
  import opened Values
  import opened Outputs
  import opened Nets
  import opened Runs
  import opened Dataflow

  ghost predicate LoggedAt(net: Net, s: Sys, id: Id)
    requires id in net.nodes
  {
    && (id in s.pos <==> Ph(s, id).Done? && Ph(s, id).status.Ran?)
    && (id in s.pos ==>
          && s.pos[id] < |s.log|
          && s.log[s.pos[id]] == VertexRecord(net, id, s.log[s.pos[id]].reason)
          && Ph(s, id) == Done(Ran(s.log[s.pos[id]].success)))
  }

  /** The total record of the DAG nested under a block comes once its vertices are done
      and before the record of the block itself. */
  ghost predicate BlockAt(net: Net, s: Sys, b: Id) {
    && (Some(b) in s.closed ==> Over(Ph(s, b)) && AllDone(net, s, Some(b)))
    && (b in s.pos && Some(b) in s.closed ==> s.closed[Some(b)] < s.pos[b])
  }

  /** The record of a vertex precedes the total record of its DAG. */
  ghost predicate MemberAt(net: Net, s: Sys, id: Id)
    requires id in net.nodes
  {
    var ow := net.nodes[id].owner;
    && (id in s.pos && ow.Some? && ow in s.closed ==> s.pos[id] < s.closed[ow])
    && (!Ph(s, id).Idle? && ow.Some? && Over(Ph(s, ow.value)) ==> ow in s.closed)
  }

  ghost predicate TotalAt(net: Net, s: Sys, dag: Option<Id>)
    requires dag in s.closed
  {
    && s.closed[dag] < |s.log|
    && s.log[s.closed[dag]] == TotalRecord(net, dag, s.log[s.closed[dag]].success)
    && (dag.Some? ==> dag.value in net.nodes)
  }

  ghost predicate WrittenBy(s: Sys, i: nat) {
    (exists id :: id in s.pos && s.pos[id] == i) || (exists dag :: dag in s.closed && s.closed[dag] == i)
  }

  /** Every log position has exactly one author: a vertex or a DAG execution. */
  ghost predicate Authors(s: Sys) {
    && (forall i: nat :: i < |s.log| ==> WrittenBy(s, i))
    && (forall p, q :: p in s.pos && q in s.pos && p != q ==> s.pos[p] != s.pos[q])
    && (forall p, d :: p in s.pos && d in s.closed ==> s.pos[p] != s.closed[d])
    && |s.log| == |s.pos| + |s.closed|
  }

  ghost predicate Logged(net: Net, s: Sys) {
    && s.pos.Keys <= net.nodes.Keys
    && (forall id :: id in net.nodes ==> LoggedAt(net, s, id) && BlockAt(net, s, id) && MemberAt(net, s, id))
    && (forall dag :: dag in s.closed ==> TotalAt(net, s, dag))
  }

  lemma LoggedStep(net: Net, s: Sys, a: Act, id: Id)
    requires id in net.nodes && LoggedAt(net, s, id) && Enabled(net, s, a)
    ensures LoggedAt(net, Next(net, s, a), id)
  {
    OthersKeepPhase(net, s, a);
  }

  lemma TotalsStep(net: Net, s: Sys, a: Act, dag: Option<Id>)
    requires Enabled(net, s, a) && dag in Next(net, s, a).closed
    requires dag in s.closed ==> TotalAt(net, s, dag)
    ensures TotalAt(net, Next(net, s, a), dag)
  {
  }

  lemma BlockStep(net: Net, s: Sys, a: Act, b: Id)
    requires b in net.nodes && LoggedAt(net, s, b) && BlockAt(net, s, b) && Enabled(net, s, a)
    requires Some(b) in s.closed ==> TotalAt(net, s, Some(b))
    ensures BlockAt(net, Next(net, s, a), b)
  {
    var s' := Next(net, s, a);
    OthersKeepPhase(net, s, a);
    if AllDone(net, s, Some(b)) {
      assert AllDone(net, s', Some(b));
    }
    if a.Log? && a.id == b && Some(b) in s.closed {
      assert s.closed[Some(b)] < |s.log|;
    }
  }

  lemma MemberStep(net: Net, rank: Id -> nat, s: Sys, a: Act, id: Id)
    requires Ranked(net, rank) && id in net.nodes && net.nodes[id].owner.Some? && Enabled(net, s, a)
    requires LoggedAt(net, s, id) && MemberAt(net, s, id) && BlockAt(net, s, net.nodes[id].owner.value)
    requires StructAt(net, s, id) && StructAt(net, s, net.nodes[id].owner.value)
    ensures MemberAt(net, Next(net, s, a), id)
  {
    var b := net.nodes[id].owner.value;
    OthersKeepPhase(net, s, a);
    if a.Log? && a.id == id {
      assert Some(b) !in s.closed;
    }
  }

  /** The log positions known so far lie inside the log. */
  ghost predicate Bounded(s: Sys) {
    (forall p :: p in s.pos ==> s.pos[p] < |s.log|) && (forall d :: d in s.closed ==> s.closed[d] < |s.log|)
  }

  lemma StillWritten(s: Sys, s': Sys, i: nat)
    requires WrittenBy(s, i)
    requires forall id :: id in s.pos ==> id in s'.pos && s'.pos[id] == s.pos[id]
    requires forall d :: d in s.closed ==> d in s'.closed && s'.closed[d] == s.closed[d]
    ensures WrittenBy(s', i)
  {
    if id :| id in s.pos && s.pos[id] == i {
      assert id in s'.pos && s'.pos[id] == i;
    } else {
      var d :| d in s.closed && s.closed[d] == i;
      assert d in s'.closed && s'.closed[d] == i;
    }
  }

  lemma OneMoreKey<K, V>(m: map<K, V>, k: K, v: V)
    requires k !in m
    ensures |m[k := v]| == |m| + 1
  {
    assert m[k := v].Keys == m.Keys + {k};
    assert |m[k := v]| == |m[k := v].Keys| == |m.Keys| + 1;
  }

  lemma VertexSigns(s: Sys, s': Sys, id: Id)
    requires Bounded(s) && Authors(s) && id !in s.pos
    requires |s'.log| == |s.log| + 1 && s'.closed == s.closed && s'.pos == s.pos[id := |s.log|]
    ensures Authors(s')
  {
    forall i: nat | i < |s'.log| ensures WrittenBy(s', i) {
      if i < |s.log| {
        StillWritten(s, s', i);
      } else {
        assert id in s'.pos && s'.pos[id] == i;
      }
    }
    OneMoreKey(s.pos, id, |s.log|);
  }

  lemma ExecutionSigns(s: Sys, s': Sys, d: Option<Id>)
    requires Bounded(s) && Authors(s) && d !in s.closed
    requires |s'.log| == |s.log| + 1 && s'.pos == s.pos && s'.closed == s.closed[d := |s.log|]
    ensures Authors(s')
  {
    forall i: nat | i < |s'.log| ensures WrittenBy(s', i) {
      if i < |s.log| {
        StillWritten(s, s', i);
      } else {
        assert d in s'.closed && s'.closed[d] == i;
      }
    }
    OneMoreKey(s.closed, d, |s.log|);
  }

  lemma NothingSigned(s: Sys, s': Sys)
    requires Authors(s) && s'.log == s.log && s'.pos == s.pos && s'.closed == s.closed
    ensures Authors(s')
  {
    forall i: nat | i < |s'.log| ensures WrittenBy(s', i) {
      StillWritten(s, s', i);
    }
  }

  lemma AuthorsStep(net: Net, s: Sys, a: Act)
    requires Logged(net, s) && Authors(s) && Enabled(net, s, a)
    ensures Authors(Next(net, s, a))
  {
    var s' := Next(net, s, a);
    forall p | p in s.pos ensures s.pos[p] < |s.log| { assert LoggedAt(net, s, p); }
    forall d | d in s.closed ensures s.closed[d] < |s.log| { assert TotalAt(net, s, d); }
    if a.Log? {
      assert LoggedAt(net, s, a.id);
      VertexSigns(s, s', a.id);
    } else if a.Total? {
      if a.dag.Some? { assert BlockAt(net, s, a.dag.value); }
      ExecutionSigns(s, s', a.dag);
    } else {
      NothingSigned(s, s');
    }
  }

  lemma HistoryStep(net: Net, rank: Id -> nat, s: Sys, a: Act)
    requires Ranked(net, rank) && Struct(net, s) && Logged(net, s) && Authors(s) && Enabled(net, s, a)
    ensures Logged(net, Next(net, s, a)) && Authors(Next(net, s, a))
  {
    var s' := Next(net, s, a);
    forall id | id in net.nodes ensures LoggedAt(net, s', id) && BlockAt(net, s', id) && MemberAt(net, s', id) {
      assert LoggedAt(net, s, id) && BlockAt(net, s, id) && MemberAt(net, s, id) && StructAt(net, s, id);
      LoggedStep(net, s, a, id);
      BlockStep(net, s, a, id);
      if net.nodes[id].owner.Some? {
        assert net.nodes[id].owner.value in net.nodes;
        MemberStep(net, rank, s, a, id);
      }
    }
    forall dag | dag in s'.closed ensures TotalAt(net, s', dag) {
      TotalsStep(net, s, a, dag);
    }
    AuthorsStep(net, s, a);
  }

  /** Records appear in nesting order, one per executed vertex and one per execution. */
  lemma {:induction false} RunHistory(net: Net, rank: Id -> nat, seed: Store, acts: seq<Act>)
    requires Ranked(net, rank) && IsRun(net, seed, acts)
    ensures var s := After(net, seed, acts); Struct(net, s) && Logged(net, s) && Authors(s)
    decreases |acts|
  {
    if acts != [] {
      var before := acts[..|acts| - 1];
      RunHistory(net, rank, seed, before);
      StructStep(net, rank, After(net, seed, before), acts[|acts| - 1]);
      HistoryStep(net, rank, After(net, seed, before), acts[|acts| - 1]);
    }
  }

  // ----------------------------------------------------------------------- verdict

  /** Print skips what it takes for a total record: the root type and the name "total". */
  predicate Counted(r: Record) {
    !(r.etype == ExecRoot && r.vertex == "total")
  }

  /** "success: OK" on the last line of Print. */
  predicate Verdict(log: seq<Record>) {
    forall i :: 0 <= i < |log| && Counted(log[i]) ==> log[i].success
  }

  /** The name clash that Print cannot tell from a total record. */
  predicate Disguised(n: Node) {
    n.owner.None? && n.name == "total"
  }

  /** The verdict is OK iff every vertex executed so far, at every nesting level, was
      successful, except those of the outermost DAG that are called "total". */
  lemma VerdictMeaning(net: Net, rank: Id -> nat, seed: Store, acts: seq<Act>)
    requires Ranked(net, rank) && IsRun(net, seed, acts)
    ensures var s := After(net, seed, acts);
            Verdict(s.log) <==>
            forall id :: id in net.nodes && !Disguised(net.nodes[id]) ==> Ph(s, id) != Done(Ran(false))
  {
    var s := After(net, seed, acts);
    RunHistory(net, rank, seed, acts);
    if Verdict(s.log) {
      forall id | id in net.nodes && !Disguised(net.nodes[id]) ensures Ph(s, id) != Done(Ran(false)) {
        assert LoggedAt(net, s, id);
        if id in s.pos { assert Counted(s.log[s.pos[id]]); }
      }
    }
    if forall id :: id in net.nodes && !Disguised(net.nodes[id]) ==> Ph(s, id) != Done(Ran(false)) {
      forall i: nat | i < |s.log| && Counted(s.log[i]) ensures s.log[i].success {
        assert WrittenBy(s, i);
        if dag :| dag in s.closed && s.closed[dag] == i {
          assert TotalAt(net, s, dag);
        } else {
          var id :| id in s.pos && s.pos[id] == i;
          assert LoggedAt(net, s, id);
        }
      }
    }
  }

  // --------------------------------------------------------------- what a record says

  /** The execution a record belongs to: the outermost DAG or the one nested in a block. */
  ghost predicate NamesExecution(net: Net, dag: Option<Id>, exec: string) {
    match dag
    case None => exec == net.root
    case Some(b) => b in net.nodes && net.nodes[b].inner == Some(exec)
  }

  /** The record of a vertex carries its name, the DAG it lies in and, unless it failed,
      success; a false condition is no failure. */
  lemma RecordsSay(net: Net, rank: Id -> nat, seed: Store, acts: seq<Act>, id: Id)
    requires Ranked(net, rank) && IsRun(net, seed, acts) && id in After(net, seed, acts).pos
    ensures var s := After(net, seed, acts);
            && id in net.nodes && s.pos[id] < |s.log|
            && var r, n := s.log[s.pos[id]], net.nodes[id];
               && r.vertex == n.name && NamesExecution(net, n.owner, r.exec)
               && r.etype == (if n.owner.None? then ExecRoot else ExecBlock)
               && r.success == (r.reason != Some(Failed)) && Ph(s, id) == Done(Ran(r.success))
  {
    RunHistory(net, rank, seed, acts);
    assert LoggedAt(net, After(net, seed, acts), id);
    assert net.nodes[id].owner.Some? ==> net.nodes[id].owner.value in net.nodes;
  }

  // ------------------------------------------------------------------ size and order

  /** A nested execution is recorded iff its block was entered. */
  ghost predicate ClosedAt(net: Net, s: Sys, b: Id)
    requires b in net.nodes
  {
    Some(b) in s.closed <==>
    Over(Ph(s, b)) && Ph(s, b) != Done(Skipped) && net.nodes[b].inner.Some? && Entered(Meaning(net, s.store, b))
  }

  lemma OthersStayClosed(net: Net, rank: Id -> nat, s: Sys, a: Act, b: Id)
    requires Sound(net, rank) && Struct(net, s) && Enabled(net, s, a) && Mover(a) != Some(b)
    requires b in net.nodes && ClosedAt(net, s, b)
    ensures ClosedAt(net, Next(net, s, a), b)
  {
    OthersKeepPhase(net, s, a);
    if !Ph(s, b).Idle? {
      InputsKept(net, rank, s, a, b);
    }
  }

  lemma ClosedStep(net: Net, rank: Id -> nat, seed: Store, s: Sys, a: Act, b: Id)
    requires Sound(net, rank) && Struct(net, s) && Sem(net, seed, s) && Enabled(net, s, a)
    requires b in net.nodes && ClosedAt(net, s, b)
    ensures ClosedAt(net, Next(net, s, a), b)
  {
    if Mover(a) != Some(b) {
      OthersStayClosed(net, rank, s, a, b);
    } else if !Ph(s, b).Idle? {
      InputsKept(net, rank, s, a, b);
      assert SemAt(net, seed, s, b) && StructAt(net, s, b);
      if a.Finish? {
        FinishedMeaning(net, rank, seed, s, a);
      }
    }
  }

  lemma {:induction false} RunCloses(net: Net, rank: Id -> nat, seed: Store, acts: seq<Act>)
    requires Sound(net, rank) && IsRun(net, seed, acts)
    ensures forall b :: b in net.nodes ==> ClosedAt(net, After(net, seed, acts), b)
    decreases |acts|
  {
    if acts != [] {
      var before, a := acts[..|acts| - 1], acts[|acts| - 1];
      RunCloses(net, rank, seed, before);
      RunInvariant(net, rank, seed, before);
      forall b | b in net.nodes ensures ClosedAt(net, After(net, seed, acts), b) {
        ClosedStep(net, rank, seed, After(net, seed, before), a, b);
      }
    }
  }

  /** The total record of a DAG execution, nested or not, has the root type and the DAG's name. */
  lemma TotalsSay(net: Net, rank: Id -> nat, seed: Store, acts: seq<Act>, d: Option<Id>)
    requires Sound(net, rank) && IsRun(net, seed, acts) && d in After(net, seed, acts).closed
    ensures var s := After(net, seed, acts);
            && s.closed[d] < |s.log|
            && var r := s.log[s.closed[d]];
               && r.vertex == "total" && r.etype == ExecRoot
               && NamesExecution(net, d, r.exec) && r.reason == None
  {
    RunHistory(net, rank, seed, acts);
    assert TotalAt(net, After(net, seed, acts), d);
    if d.Some? {
      RunCloses(net, rank, seed, acts);
      assert ClosedAt(net, After(net, seed, acts), d.value);
    }
  }

  ghost function Executed(fate: Fates): set<Id> {
    set id | id in fate && fate[id].Ran?
  }

  /** The outermost execution and the execution of every block that was entered. */
  ghost function Executions(net: Net, f: Store, fate: Fates): set<Option<Id>> {
    {None} + (set b | b in net.nodes && b in fate && fate[b].Ran? && net.nodes[b].inner.Some? &&
                      Entered(Meaning(net, f, b)) :: Some(b))
  }

  lemma PosIsExecuted(net: Net, s: Sys)
    requires Struct(net, s) && s.pos.Keys <= net.nodes.Keys
    requires forall id :: id in net.nodes ==> LoggedAt(net, s, id)
    ensures s.pos.Keys == Executed(FatesOf(s))
  {
    forall id: Id ensures id in s.pos <==> id in Executed(FatesOf(s)) {
      if id in net.nodes { assert LoggedAt(net, s, id); }
    }
  }

  lemma ExecutionClosed(net: Net, rank: Id -> nat, s: Sys, d: Option<Id>)
    requires Ranked(net, rank) && Struct(net, s) && Complete(s) && AllDone(net, s, None)
    requires forall b :: Some(b) in s.closed ==> b in net.nodes
    requires forall b :: b in net.nodes ==> ClosedAt(net, s, b)
    ensures d in s.closed <==> d in Executions(net, s.store, FatesOf(s))
  {
    if d.Some? && d.value in net.nodes {
      assert ClosedAt(net, s, d.value);
      NothingPending(net, rank, s, d.value);
    }
  }

  lemma ClosedIsExecutions(net: Net, rank: Id -> nat, seed: Store, acts: seq<Act>)
    requires Sound(net, rank) && IsRun(net, seed, acts) && Complete(After(net, seed, acts))
    ensures var s := After(net, seed, acts); s.closed.Keys == Executions(net, s.store, FatesOf(s))
  {
    var s := After(net, seed, acts);
    RunHistory(net, rank, seed, acts);
    RunCloses(net, rank, seed, acts);
    HooksComeLast(net, seed, acts);
    forall b | Some(b) in s.closed ensures b in net.nodes { assert TotalAt(net, s, Some(b)); }
    forall d: Option<Id> ensures d in s.closed <==> d in Executions(net, s.store, FatesOf(s)) {
      ExecutionClosed(net, rank, s, d);
    }
  }

  /** The record of a nested vertex, the total of its DAG and the record of its block. */
  lemma NestingOrder(net: Net, rank: Id -> nat, s: Sys, id: Id, b: Id)
    requires Ranked(net, rank) && Struct(net, s) && Logged(net, s) && AllDone(net, s, None)
    requires id in s.pos && net.nodes[id].owner == Some(b)
    ensures b in s.pos && Some(b) in s.closed && s.pos[id] < s.closed[Some(b)] < s.pos[b]
  {
    assert StructAt(net, s, id) && LoggedAt(net, s, id) && MemberAt(net, s, id);
    assert b in net.nodes && LoggedAt(net, s, b) && BlockAt(net, s, b);
    NothingPending(net, rank, s, b);
  }

  /** The same for every block around the vertex. */
  lemma {:induction false} WithinOrder(net: Net, rank: Id -> nat, s: Sys, id: Id, b: Id)
    requires Ranked(net, rank) && Struct(net, s) && Logged(net, s) && AllDone(net, s, None)
    requires id in s.pos && Within(net, rank, id, b)
    ensures b in s.pos && Some(b) in s.closed && s.pos[id] < s.closed[Some(b)] < s.pos[b]
    decreases rank(id)
  {
    var c := net.nodes[id].owner.value;
    NestingOrder(net, rank, s, id, c);
    if c != b {
      WithinOrder(net, rank, s, c, b);
    }
  }

  /** A complete run logs one record per executed vertex, at all levels, and one total per
      DAG execution. Every block around an executed vertex has its record too; the vertex, the
      total of the block's DAG and the block come in that order. */
  lemma CompleteLog(net: Net, rank: Id -> nat, seed: Store, acts: seq<Act>)
    requires Sound(net, rank) && IsRun(net, seed, acts) && Complete(After(net, seed, acts))
    ensures var s := After(net, seed, acts);
            && |s.log| == |Executed(FatesOf(s))| + |Executions(net, s.store, FatesOf(s))|
            && s.pos.Keys == Executed(FatesOf(s)) && s.pos.Keys <= net.nodes.Keys
            && forall id, b :: id in s.pos && Within(net, rank, id, b) ==>
                 b in s.pos && Some(b) in s.closed && s.pos[id] < s.closed[Some(b)] < s.pos[b]
  {
    var s := After(net, seed, acts);
    RunHistory(net, rank, seed, acts);
    PosIsExecuted(net, s);
    ClosedIsExecutions(net, rank, seed, acts);
    HooksComeLast(net, seed, acts);
    forall id, b | id in s.pos && Within(net, rank, id, b)
      ensures b in s.pos && Some(b) in s.closed && s.pos[id] < s.closed[Some(b)] < s.pos[b] {
      WithinOrder(net, rank, s, id, b);
    }
    assert |s.pos| == |s.pos.Keys| && |s.closed| == |s.closed.Keys|;
  }

  lemma SameFailures(s: Sys, s': Sys)
    requires FatesOf(s) == FatesOf(s')
    ensures forall id: Id :: Ph(s, id) == Done(Ran(false)) <==> Ph(s', id) == Done(Ran(false))
  {
    forall id: Id ensures Ph(s, id) == Done(Ran(false)) <==> Ph(s', id) == Done(Ran(false)) {
      assert Ph(s, id) == Done(Ran(false)) <==> Fared(FatesOf(s), id, Ran(false));
      assert Ph(s', id) == Done(Ran(false)) <==> Fared(FatesOf(s'), id, Ran(false));
    }
  }

  /** The log's length and the printed verdict do not depend on the schedule either. */
  lemma SameStory(net: Net, rank: Id -> nat, seed: Store, acts: seq<Act>, acts': seq<Act>)
    requires Sound(net, rank) && IsRun(net, seed, acts) && IsRun(net, seed, acts')
    requires Complete(After(net, seed, acts)) && Complete(After(net, seed, acts'))
    ensures |After(net, seed, acts).log| == |After(net, seed, acts').log|
    ensures Verdict(After(net, seed, acts).log) == Verdict(After(net, seed, acts').log)
  {
    var s, s' := After(net, seed, acts), After(net, seed, acts');
    Confluence(net, rank, seed, acts, acts');
    CompleteLog(net, rank, seed, acts);
    CompleteLog(net, rank, seed, acts');
    VerdictMeaning(net, rank, seed, acts);
    VerdictMeaning(net, rank, seed, acts');
    SameFailures(s, s');
  }
}
