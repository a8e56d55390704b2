/** The execution engine itself: an executor that runs the vertices of a DAG one after the
    other, the handler that gathers inputs and merges outputs, and blocks that re-enter the
    executor on the same store and log. A ghost trace shows that whatever it does is a run
    of the step system, so everything proved about runs holds of it. */
module Engines {
  import opened Values
  import opened Outputs
  import opened Stores
  import opened Functions
  import opened Loop
  import opened Meaning
  import opened Vertices
  import opened FunctionObjects
  import opened Nets
  import opened Runs
  import opened Ranks
  import opened History
  import opened Liveness
  import opened Pipelines
  import opened Gathering

  class ResultLog {
    var records: seq<Record>

    constructor ()
      ensures records == []
    {
      records := [];
    }

    method Add(r: Record)
      modifies this
      ensures records == old(records) + [r]
    {
      records := records + [r];
    }

    /** The success flag on the last line that Print writes. */
    method Print() returns (totalSuccess: bool)
      ensures totalSuccess == Verdict(records)
    {
      totalSuccess := true;
      for i := 0 to |records|
        invariant totalSuccess == Verdict(records[..i])
      {
        var ri := records[i];
        if ri.etype == ExecRoot && ri.vertex == "total" {
        } else if !ri.success {
          totalSuccess := false;
        }
        VerdictOfOneMore(records[..i], ri);
        assert records[..i + 1] == records[..i] + [ri];
      }
      assert records[..|records|] == records;
    }
  }

  lemma VerdictOfOneMore(log: seq<Record>, r: Record)
    ensures Verdict(log + [r]) == (Verdict(log) && (Counted(r) ==> r.success))
  {
    var more := log + [r];
    if Verdict(more) {
      forall i | 0 <= i < |log| && Counted(log[i]) ensures log[i].success {
        assert more[i] == log[i];
      }
      assert more[|log|] == r;
    }
  }

  // ------------------------------------------------------------------ step lemmas

  /** Only `id` and what is nested in it may have moved; the outermost execution goes on. */
  ghost predicate Touches(net: Net, rank: Id -> nat, s: Sys, s': Sys, id: Id)
    requires Ranked(net, rank)
  {
    && (None in s'.closed <==> None in s.closed)
    && forall q: Id {:trigger Ph(s', q)} ::
         q != id && !(q in net.nodes && Within(net, rank, q, id)) ==> Ph(s', q) == Ph(s, q)
  }

  /** `t'` continues `t`. */
  ghost predicate Extends(t: seq<Act>, t': seq<Act>)
    decreases |t'|
  {
    t == t' || (t' != [] && Extends(t, t'[..|t'| - 1]))
  }

  lemma {:induction false} ExtendsTwice(t: seq<Act>, t': seq<Act>, t'': seq<Act>)
    requires Extends(t, t') && Extends(t', t'')
    ensures Extends(t, t'')
    decreases |t''|
  {
    if t' != t'' {
      ExtendsTwice(t, t', t''[..|t''| - 1]);
    }
  }

  lemma ExtendsByOne(t: seq<Act>, a: Act)
    ensures Extends(t, t + [a])
  {
    assert (t + [a])[..|t|] == t;
  }

  lemma {:induction false} ExtendsIsPrefix(t: seq<Act>, t': seq<Act>)
    ensures Extends(t, t') <==> t <= t'
    decreases |t'|
  {
    if t' != [] {
      var before := t'[..|t'| - 1];
      ExtendsIsPrefix(t, before);
      if t <= t' && t != t' {
        assert t <= before;
      }
    }
  }

  /** The steps from `t` to `t'` start with the first and end with the last step of `id`. */
  ghost predicate Spans(id: Id, t: seq<Act>, t': seq<Act>) {
    Extends(t + [Begin(id)], t') && t' != [] && t'[|t'| - 1] == Log(id)
  }

  ghost function ReadSoFar(store: Store, keys: seq<string>, at: nat): Env
    requires at <= |keys|
  {
    if at == 0 then map[] else ReadSoFar(store, keys, at - 1)[keys[at - 1] := DataAt(store, keys[at - 1])]
  }

  /** Reading the next key. */
  lemma ReadStep(net: Net, s0: Sys, id: Id, at: nat, env: Env)
    requires id in net.nodes && at < |net.nodes[id].keys| && env == ReadSoFar(s0.store, net.nodes[id].keys, at)
    ensures var s, k := Put(s0, id, Reading(at, env)), net.nodes[id].keys[at];
            var env' := env[k := DataAt(s0.store, k)];
            && env' == ReadSoFar(s0.store, net.nodes[id].keys, at + 1)
            && Enabled(net, s, Read(id)) && Next(net, s, Read(id)) == Put(s0, id, Reading(at + 1, env'))
  {
    var k := net.nodes[id].keys[at];
    PutTwice(s0, id, Reading(at, env), Reading(at + 1, env[k := DataAt(s0.store, k)]));
  }

  lemma {:induction false} ReadIsGathered(store: Store, keys: seq<string>, at: nat)
    requires at <= |keys|
    ensures ReadSoFar(store, keys, at) == Gather(store, keys[..at])
  {
    if at > 0 {
      ReadIsGathered(store, keys, at - 1);
      GatherNext(store, keys, at - 1);
    }
  }

  lemma AllRead(store: Store, keys: seq<string>)
    ensures ReadSoFar(store, keys, |keys|) == Gather(store, keys)
  {
    ReadIsGathered(store, keys, |keys|);
    assert keys[..|keys|] == keys;
  }

  lemma PutTwice(s: Sys, id: Id, p: Phase, q: Phase)
    ensures Put(Put(s, id, p), id, q) == Put(s, id, q)
  {
    assert s.phase[id := p][id := q] == s.phase[id := q];
  }

  lemma PutTouches(net: Net, rank: Id -> nat, s: Sys, id: Id, p: Phase)
    requires Ranked(net, rank)
    ensures Touches(net, rank, s, Put(s, id, p), id)
  {
  }

  /** A step of a vertex moves that vertex only. */
  lemma StepTouches(net: Net, rank: Id -> nat, s: Sys, a: Act)
    requires Ranked(net, rank) && Enabled(net, s, a) && Mover(a).Some?
    ensures Touches(net, rank, s, Next(net, s, a), Mover(a).value)
  {
    OthersKeepPhase(net, s, a);
  }

  lemma TouchesTwice(net: Net, rank: Id -> nat, s: Sys, s': Sys, s'': Sys, id: Id)
    requires Ranked(net, rank) && Touches(net, rank, s, s', id) && Touches(net, rank, s', s'', id)
    ensures Touches(net, rank, s, s'', id)
  {
  }

  lemma TouchesInside(net: Net, rank: Id -> nat, s: Sys, s': Sys, m: Id, b: Id)
    requires Ranked(net, rank) && m in net.nodes && net.nodes[m].owner == Some(b) && Touches(net, rank, s, s', m)
    ensures Touches(net, rank, s, s', b) && Ph(s', b) == Ph(s, b)
  {
    forall q: Id | q != b && !(q in net.nodes && Within(net, rank, q, b)) ensures Ph(s', q) == Ph(s, q) {
      if q in net.nodes && Within(net, rank, q, m) {
        assert Within(net, rank, m, b);
        WithinTwice(net, rank, q, m, b);
      }
    }
    if Within(net, rank, b, m) {
      WithinIsHigher(net, rank, b, m);
    }
  }

  lemma SiblingsUntouched(net: Net, rank: Id -> nat, s: Sys, s': Sys, m: Id, q: Id)
    requires Ranked(net, rank) && m in net.nodes && q in net.nodes && net.nodes[m].owner == net.nodes[q].owner
    requires q != m && Touches(net, rank, s, s', m)
    ensures Ph(s', q) == Ph(s, q)
  {
    SiblingsApart(net, rank, q, m);
  }

  /** Before a block is entered, nothing in its DAG has moved. */
  lemma NestedAreIdle(net: Net, rank: Id -> nat, s: Sys, b: Id)
    requires Ranked(net, rank) && Struct(net, s) && Ph(s, b).Reading?
    ensures forall m :: m in net.nodes && net.nodes[m].owner == Some(b) ==> Ph(s, m).Idle?
  {
    forall m | m in net.nodes && net.nodes[m].owner == Some(b) ensures Ph(s, m).Idle? {
      assert StructAt(net, s, m);
    }
  }

  lemma EnterEffect(net: Net, rank: Id -> nat, s: Sys, b: Id, o: Orders)
    requires Ranked(net, rank) && Struct(net, s) && Enabled(net, s, Enter(b, o))
    ensures Touches(net, rank, s, Next(net, s, Enter(b, o)), b) && Ph(Next(net, s, Enter(b, o)), b).Inside?
    ensures forall m :: m in net.nodes && net.nodes[m].owner == Some(b) ==> Ph(Next(net, s, Enter(b, o)), m).Idle?
  {
    NestedAreIdle(net, rank, s, b);
    StepTouches(net, rank, s, Enter(b, o));
    forall m | m in net.nodes && net.nodes[m].owner == Some(b)
      ensures Ph(Next(net, s, Enter(b, o)), m) == Ph(s, m) {
      assert Ph(s, b).Reading? && Ph(s, m).Idle?;
    }
  }

  /** A block that resolved its variables and has a DAG ends with an empty output. */
  lemma BlockSucceeds(lib: Lib, v: Vertex, root: string, o: Orders, j: nat, p: Progress)
    requires ValidOrders(o) && v.fn.ftype.BlockFn? && v.blockRoot.Some? && p.rec.Items?
    requires Resolved(lib, v, o, j, p.(rec := Reset(p.rec))).Some?
    ensures Finished(v, o, SingleTurn(lib, v, root, o, j, p)).outcome == Outcome(Some(map[]), None)
  {
  }

  /** The range loop does not run blocks. */
  lemma LoopKeepsItems(lib: Lib, v: Vertex, root: string, o: Orders, items: seq<Value>, p: Progress)
    requires ValidOrders(o) && p.rec == Reset(NewRecorder(v.fn.ftype))
    ensures var q := Turns(lib, v, root, o, items, |items|, p); v.fn.ftype.BlockFn? && q.Some? ==> q.value.rec.Items?
  {
    TurnsFrame(lib, v, root, o, items, |items|, p);
  }

  class Engine {
    const lib: Lib
    const pipe: Pipeline
    /** Go's map orders in the execution of each vertex. */
    const choice: Id -> Orders
    const output: Output
    const result: ResultLog
    ghost const rank: Id -> nat
    ghost const seed: Store
    ghost var trace: seq<Act>

    /** builder.New, on the new store and log that its callers pass. */
    constructor (lib: Lib, pipe: Pipeline, choice: Id -> Orders, output: Output, result: ResultLog,
                 gvk: Option<string>, data: Value, ghost rank: Id -> nat)
      requires Ranked(NetOf(lib, pipe), rank) && forall id: Id :: ValidOrders(choice(id))
      requires output.entries == map[] && result.records == []
      modifies output
      ensures this.lib == lib && this.pipe == pipe && this.output == output && this.result == result
      ensures this.rank == rank && this.choice == choice
      ensures seed == Seed(pipe, gvk, data) && trace == [] && Valid()
    {
      this.lib, this.pipe, this.choice, this.output, this.result := lib, pipe, choice, output, result;
      this.rank, this.seed, trace := rank, Seed(pipe, gvk, data), [];
      output.AddEntry(pipe.root, Info(OutputInfo(true, false, gvk, data)));
    }

    ghost predicate Wired() {
      Ranked(NetOf(lib, pipe), rank) && forall id: Id :: ValidOrders(choice(id))
    }

    ghost function State(): Sys
      reads this
      requires IsRun(NetOf(lib, pipe), seed, trace)
    {
      After(NetOf(lib, pipe), seed, trace)
    }

    /** The trace is a run, and store and log are what that run makes them. */
    ghost predicate Valid()
      reads this, output, result
    {
      && Wired() && IsRun(NetOf(lib, pipe), seed, trace)
      && State().store == output.entries && State().log == result.records
    }

    ghost method Step(a: Act)
      requires IsRun(NetOf(lib, pipe), seed, trace) && Enabled(NetOf(lib, pipe), State(), a)
      modifies this`trace
      ensures trace == old(trace) + [a] && Extends(old(trace), trace) && IsRun(NetOf(lib, pipe), seed, trace)
      ensures State() == Next(NetOf(lib, pipe), old(State()), a)
    {
      OneMore(NetOf(lib, pipe), seed, trace, a);
      ExtendsByOne(trace, a);
      trace := trace + [a];
    }

    // --------------------------------------------------------------- the handler

    /** The vertex has read its first `at` keys into the input, and nothing else moved. */
    ghost predicate HasRead(s0: Sys, id: Id, i: Input, at: nat)
      requires IsRun(NetOf(lib, pipe), seed, trace) && id in pipe.places
      reads this, i
    {
      && at <= |NetOf(lib, pipe).nodes[id].keys| && State() == Put(s0, id, Reading(at, i.entries))
      && i.entries == ReadSoFar(s0.store, NetOf(lib, pipe).nodes[id].keys, at)
    }

    method ReadInto(id: Id, i: Input, at: nat, k: string, ghost s0: Sys)
      requires Valid() && id in pipe.places && HasRead(s0, id, i, at)
      requires at < |NetOf(lib, pipe).nodes[id].keys| && NetOf(lib, pipe).nodes[id].keys[at] == k
      modifies this`trace, i
      ensures Valid() && HasRead(s0, id, i, at + 1) && Extends(old(trace), trace)
    {
      ReadStep(NetOf(lib, pipe), s0, id, at, i.entries);
      i.AddEntry(k, output.GetData(k));
      Step(Read(id));
    }

    lemma KeyAt(keys: seq<string>, at: nat, n: nat)
      requires at <= |keys| && n < |keys[at..]|
      ensures at + n < |keys| && keys[at + n] == keys[at..][n]
    {
    }

    /** What a vertex reads of a store: its references, for images after the root variable of
        their DAG. */
    ghost function InputOf(id: Id, store: Store): Env
      requires id in pipe.places
    {
      Gather(store, NetOf(lib, pipe).nodes[id].keys)
    }

    /** Reading the references, from the `at`-th key on. */
    method ReadRefs(id: Id, i: Input, at: nat, ghost s0: Sys)
      requires Valid() && id in pipe.places && HasRead(s0, id, i, at)
      requires NetOf(lib, pipe).nodes[id].keys[at..] == pipe.places[id].v.refs
      modifies this`trace, i
      ensures Valid() && HasRead(s0, id, i, |NetOf(lib, pipe).nodes[id].keys|) && Extends(old(trace), trace)
    {
      ghost var keys := NetOf(lib, pipe).nodes[id].keys;
      var refs := pipe.places[id].v.refs;
      for n := 0 to |refs|
        invariant Valid() && HasRead(s0, id, i, at + n) && Extends(old(trace), trace)
      {
        KeyAt(keys, at, n);
        ghost var t := trace;
        ReadInto(id, i, at + n, refs[n], s0);
        ExtendsTwice(old(trace), t, trace);
      }
    }

    lemma KeysOf(id: Id)
      requires id in pipe.places
      ensures var keys, v := NetOf(lib, pipe).nodes[id].keys, pipe.places[id].v;
              && id in NetOf(lib, pipe).nodes
              && (v.fn.ftype.RootFn? ==> keys == [])
              && (IsImage(v.fn.ftype) ==>
                    |keys| > 0 && keys[0] == DagRoot(pipe, pipe.places[id].owner) && keys[1..] == v.refs)
              && (!v.fn.ftype.RootFn? && !IsImage(v.fn.ftype) ==> keys[0..] == v.refs)
    {
    }

    method GatherInput(id: Id) returns (i: Input)
      requires Valid() && id in pipe.places && Ph(State(), id) == Reading(0, map[])
      modifies this`trace
      ensures fresh(i) && Valid() && ReadAll(NetOf(lib, pipe), State(), id) && Ph(State(), id).env == i.entries
      ensures i.entries == InputOf(id, output.entries) && Extends(old(trace), trace)
      ensures InputFrom(i.entries, InputNames(pipe, id), output.entries)
      ensures State() == Put(old(State()), id, Ph(State(), id))
    {
      var v := pipe.places[id].v;
      ghost var s0 := State();
      i := new Input();
      KeysOf(id);
      assert s0 == Put(s0, id, Reading(0, map[])) && HasRead(s0, id, i, 0);
      if v.fn.ftype.RootFn? {
      } else if IsImage(v.fn.ftype) {
        ReadInto(id, i, 0, DagRoot(pipe, pipe.places[id].owner), s0);
        ghost var t := trace;
        ReadRefs(id, i, 1, s0);
        ExtendsTwice(old(trace), t, trace);
      } else {
        ReadRefs(id, i, 0, s0);
      }
      AllRead(output.entries, NetOf(lib, pipe).nodes[id].keys);
      GatheredInput(lib, pipe, rank, id, output.entries);
    }

    /** Vertex `id`, with the outcome `r`, ran the DAG nested in it. */
    ghost predicate Nested(id: Id, r: Outcome)
      requires id in pipe.places
    {
      NetOf(lib, pipe).nodes[id].inner.Some? && Entered(r)
    }

    ghost function OutcomeOf(id: Id, env: Env): Outcome
      requires Wired() && id in pipe.places
    {
      RunVertex(lib, pipe.places[id].v, pipe.root, env, choice(id)).outcome
    }

    /** What is left to nested executions decreases. */
    ghost function Inner(dag: Option<Id>): set<Id>
      requires Wired()
    {
      Below(NetOf(lib, pipe), rank, dag)
    }

    /** A vertex starts and gathers its input. */
    method Start(id: Id) returns (i: Input)
      requires Valid() && id in pipe.places && Enabled(NetOf(lib, pipe), State(), Begin(id))
      modifies this`trace
      ensures fresh(i) && Valid() && ReadAll(NetOf(lib, pipe), State(), id) && Ph(State(), id).env == i.entries
      ensures i.entries == InputOf(id, output.entries) && Extends(old(trace) + [Begin(id)], trace)
      ensures Touches(NetOf(lib, pipe), rank, old(State()), State(), id)
    {
      ghost var s := State();
      Step(Begin(id));
      ghost var s' := State();
      i := GatherInput(id);
      PutTouches(NetOf(lib, pipe), rank, s, id, Reading(0, map[]));
      PutTouches(NetOf(lib, pipe), rank, s', id, Ph(State(), id));
    }

    function RecordOf(id: Id, success: bool, err: Option<Error>): Record
      requires id in pipe.places
    {
      Record(if pipe.places[id].owner.None? then ExecRoot else ExecBlock,
             DagRoot(pipe, pipe.places[id].owner), pipe.places[id].v.name, success, err)
    }

    /** The output of a vertex goes to the store, unless its nested DAG already wrote there. */
    method Merge(id: Id, ghost env: Env, out: Output?, err: Option<Error>)
      requires Valid() && id in pipe.places && out != output && Delivers(out, err, OutcomeOf(id, env))
      requires if Nested(id, OutcomeOf(id, env)) then Ph(State(), id) == Logging(None)
               else ReadAll(NetOf(lib, pipe), State(), id) && Ph(State(), id).env == env
      modifies this`trace, output
      ensures output.entries
              == old(output.entries) + if Nested(id, OutcomeOf(id, env)) then map[] else OutMap(OutcomeOf(id, env))
      ensures Valid() && Ph(State(), id) == Logging(err) && Extends(old(trace), trace)
      ensures Touches(NetOf(lib, pipe), rank, old(State()), State(), id)
    {
      output.Add(out);
      if Nested(id, OutcomeOf(id, env)) {
        VertexFrame(lib, pipe.places[id].v, pipe.root, env, choice(id));
        assert output.entries == old(output.entries);
      } else {
        StepTouches(NetOf(lib, pipe), rank, State(), Finish(id, choice(id)));
        Step(Finish(id, choice(id)));
      }
    }

    method AddRecord(id: Id, success: bool, err: Option<Error>)
      requires Valid() && id in pipe.places && Ph(State(), id) == Logging(err) && success == OkErr(err)
      modifies this`trace, result
      ensures result.records == old(result.records) + [RecordOf(id, success, err)]
      ensures Valid() && Ph(State(), id) == Done(Ran(success)) && trace == old(trace) + [Log(id)]
      ensures Extends(old(trace), trace)
      ensures Touches(NetOf(lib, pipe), rank, old(State()), State(), id)
    {
      OwnerNamed(id);
      result.Add(RecordOf(id, success, err));
      StepTouches(NetOf(lib, pipe), rank, State(), Log(id));
      Step(Log(id));
    }

    lemma OwnerNamed(id: Id)
      requires Wired() && id in pipe.places
      ensures DagRoot(pipe, pipe.places[id].owner) == ExecName(NetOf(lib, pipe), NetOf(lib, pipe).nodes[id].owner)
      ensures NetOf(lib, pipe).nodes[id].owner == pipe.places[id].owner
    {
    }

    /** What a vertex that is not a block does to the store: declared variables only, and
        nothing unless its function succeeds on a true condition. */
    ghost predicate StoreEffect(id: Id, before: Store, after: Store, err: Option<Error>)
      requires id in pipe.places
    {
      && (forall k :: k !in pipe.places[id].v.outputs ==> Same(after, before, k))
      && (err.Some? && WellTyped(pipe.places[id].v.outputs) ==> after == before)
    }

    /** The record of vertex `id` on a store, and unless it is a block all that it adds. */
    ghost predicate Effect(id: Id, store: Store, log: seq<Record>, store': Store, log': seq<Record>, success: bool)
      requires Wired() && id in pipe.places
    {
      var r := OutcomeOf(id, InputOf(id, store));
      && success == OkErr(r.err)
      && log' != [] && log'[|log'| - 1] == RecordOf(id, success, r.err)
      && (!pipe.places[id].v.fn.ftype.BlockFn? ==>
            log' == log + [RecordOf(id, success, r.err)] && store' == store + OutMap(r)
            && StoreEffect(id, store, store', r.err))
    }

    lemma MergedEffect(id: Id, store: Store, log: seq<Record>, mid: Store, midLog: seq<Record>, store': Store,
                       log': seq<Record>, success: bool)
      requires Wired() && id in pipe.places
      requires var r := OutcomeOf(id, InputOf(id, store));
               && success == OkErr(r.err) && log' == midLog + [RecordOf(id, success, r.err)]
               && (!Nested(id, r) ==> mid == store && midLog == log && store' == mid + OutMap(r))
      ensures Effect(id, store, log, store', log', success)
    {
      var env := InputOf(id, store);
      VertexFrame(lib, pipe.places[id].v, pipe.root, env, choice(id));
      if WellTyped(pipe.places[id].v.outputs) {
        AllOrNothing(lib, pipe.places[id].v, pipe.root, env, choice(id));
      }
    }

    /** Gathering the input and running the function on it. */
    method Produce(id: Id) returns (out: Output?, err: Option<Error>, ghost env: Env)
      requires Valid() && id in pipe.places && Enabled(NetOf(lib, pipe), State(), Begin(id))
      modifies this`trace, output, result
      ensures Valid() && (out == null || fresh(out)) && env == InputOf(id, old(output.entries))
      ensures Delivers(out, err, OutcomeOf(id, env)) && Extends(old(trace) + [Begin(id)], trace)
      ensures !Nested(id, OutcomeOf(id, env)) ==>
                unchanged(output) && unchanged(result)
                && ReadAll(NetOf(lib, pipe), State(), id) && Ph(State(), id).env == env
      ensures Nested(id, OutcomeOf(id, env)) ==> Ph(State(), id) == Logging(None)
      ensures Touches(NetOf(lib, pipe), rank, old(State()), State(), id)
      decreases Inner(pipe.places[id].owner), 5
    {
      ghost var s := State();
      var i := Start(id);
      env := i.entries;
      ghost var t := trace;
      out, err := Run(id, i);
      assert Extends(t, trace);
      ExtendsTwice(old(trace) + [Begin(id)], t, trace);
      assert Touches(NetOf(lib, pipe), rank, s, State(), id);
    }

    /** Merging the output and appending the record. */
    method Conclude(id: Id, ghost env: Env, out: Output?, err: Option<Error>, success: bool)
      requires Valid() && id in pipe.places && out != output && Delivers(out, err, OutcomeOf(id, env))
      requires if Nested(id, OutcomeOf(id, env)) then Ph(State(), id) == Logging(None)
               else ReadAll(NetOf(lib, pipe), State(), id) && Ph(State(), id).env == env
      requires success == OkErr(err)
      modifies this`trace, output, result
      ensures output.entries
              == old(output.entries) + if Nested(id, OutcomeOf(id, env)) then map[] else OutMap(OutcomeOf(id, env))
      ensures result.records == old(result.records) + [RecordOf(id, success, err)]
      ensures Valid() && Ph(State(), id) == Done(Ran(success))
      ensures Extends(old(trace), trace) && trace != [] && trace[|trace| - 1] == Log(id)
      ensures Touches(NetOf(lib, pipe), rank, old(State()), State(), id)
    {
      ghost var s := State();
      Merge(id, env, out, err);
      ghost var s', t := State(), trace;
      AddRecord(id, success, err);
      ExtendsTwice(old(trace), t, trace);
      TouchesTwice(NetOf(lib, pipe), rank, s, s', State(), id);
    }

    /** One vertex: `mid` and `log` are what the DAG nested in it leaves before its own outputs
        and its record are added. */
    method Perform(id: Id) returns (success: bool, ghost mid: Store, ghost log: seq<Record>)
      requires Valid() && id in pipe.places && Enabled(NetOf(lib, pipe), State(), Begin(id))
      modifies this`trace, output, result
      ensures var r := OutcomeOf(id, InputOf(id, old(output.entries)));
              && success == OkErr(r.err) && result.records == log + [RecordOf(id, success, r.err)]
              && (!Nested(id, r) ==>
                    && mid == old(output.entries) && log == old(result.records)
                    && output.entries == mid + OutMap(r))
      ensures Spans(id, old(trace), trace)
      ensures Valid() && Ph(State(), id) == Done(Ran(success))
      ensures Touches(NetOf(lib, pipe), rank, old(State()), State(), id)
      decreases Inner(pipe.places[id].owner), 6
    {
      ghost var s := State();
      var out, err, env := Produce(id);
      ghost var s' := State();
      success := true;
      if err.Some? {
        if err.value != ConditionFalse {
          success := false;
        }
      }
      ghost var t := trace;
      mid, log := output.entries, result.records;
      Conclude(id, env, out, err, success);
      ExtendsTwice(old(trace) + [Begin(id)], t, trace);
      TouchesTwice(NetOf(lib, pipe), rank, s, s', State(), id);
    }

    /** One vertex, from its first step to its record: it adds a run of its own steps and of
        those nested in it, and its record carries the error of its function on what the store
        offered. Unless it is a block, this record and its outputs are all it adds. */
    method FunctionRun(id: Id) returns (success: bool)
      requires Valid() && id in pipe.places && Enabled(NetOf(lib, pipe), State(), Begin(id))
      modifies this`trace, output, result
      ensures Effect(id, old(output.entries), old(result.records), output.entries, result.records, success)
      ensures Spans(id, old(trace), trace)
      ensures Valid() && Ph(State(), id) == Done(Ran(success))
      ensures Touches(NetOf(lib, pipe), rank, old(State()), State(), id)
      decreases Inner(pipe.places[id].owner), 7
    {
      ghost var mid, log;
      success, mid, log := Perform(id);
      MergedEffect(id, old(output.entries), old(result.records), mid, log, output.entries, result.records, success);
    }

    /** fnMap.Run. */
    method Run(id: Id, i: Input) returns (out: Output?, err: Option<Error>)
      requires Valid() && id in pipe.places && ReadAll(NetOf(lib, pipe), State(), id)
      requires Ph(State(), id).env == i.entries
      modifies this`trace, output, result, i
      ensures Valid() && (out == null || fresh(out))
      ensures Delivers(out, err, OutcomeOf(id, old(i.entries)))
      ensures !Nested(id, OutcomeOf(id, old(i.entries))) ==>
                trace == old(trace) && unchanged(output) && unchanged(result)
      ensures Nested(id, OutcomeOf(id, old(i.entries))) ==>
                && Ph(State(), id) == Logging(None) && Extends(old(trace), trace)
                && Touches(NetOf(lib, pipe), rank, old(State()), State(), id)
      decreases Inner(pipe.places[id].owner), 4
    {
      if pipe.places[id].v.fn.ftype.OtherFn? {
        return null, Some(Failed);
      }
      var f := new Fn(lib, pipe.places[id].v, pipe.root);
      out, err := Exec(id, f, i);
    }

    method Exec(id: Id, f: Fn, i: Input) returns (out: Output?, err: Option<Error>)
      requires Valid() && id in pipe.places && ReadAll(NetOf(lib, pipe), State(), id)
      requires Ph(State(), id).env == i.entries
      requires !f.v.fn.ftype.OtherFn?
      requires f.lib == lib && f.v == pipe.places[id].v && f.root == pipe.root
      requires f.rec == NewRecorder(f.v.fn.ftype) && f.runs == []
      modifies this`trace, output, result, f, i
      ensures Valid() && (out == null || fresh(out))
      ensures Delivers(out, err, OutcomeOf(id, old(i.entries)))
      ensures !Nested(id, OutcomeOf(id, old(i.entries))) ==>
                trace == old(trace) && unchanged(output) && unchanged(result)
      ensures Nested(id, OutcomeOf(id, old(i.entries))) ==>
                && Ph(State(), id) == Logging(None) && Extends(old(trace), trace)
                && Touches(NetOf(lib, pipe), rank, old(State()), State(), id)
      decreases Inner(pipe.places[id].owner), 3
    {
      ghost var env := i.entries;
      var plan := f.MakePlan(i);
      match plan {
        case Broken => return null, Some(Failed);
        case Unmet =>
          out := new Output();
          return out, Some(ConditionFalse);
        case Empty =>
          f.InitOutput();
          return null, None;
        case Once => out, err := AfterLoop(id, f, i, 0, env);
        case Over(items) =>
          var ok := OverItems(id, f, i, items);
          if !ok {
            return null, Some(Failed);
          }
          out, err := AfterLoop(id, f, i, |items|, env);
      }
    }

    /** The range loop of `exec`, up to the single run. */
    method OverItems(id: Id, f: Fn, i: Input, items: seq<Value>) returns (ok: bool)
      requires Wired() && id in pipe.places && !f.v.fn.ftype.OtherFn?
      requires f.lib == lib && f.v == pipe.places[id].v && f.root == pipe.root
      requires f.rec == NewRecorder(f.v.fn.ftype) && f.runs == []
      requires PlanOf(lib.jq, f.v.fn.block, i.entries) == Over(items)
      modifies f, i
      ensures f.v.fn.ftype.BlockFn? ==> !ok || f.rec.Items?
      ensures RunVertex(lib, f.v, f.root, old(i.entries), choice(id))
              == Finished(f.v, choice(id),
                          if ok then SingleTurn(lib, f.v, f.root, choice(id), |items|, f.At(i)) else None)
    {
      ghost var env := i.entries;
      f.InitOutput();
      ok := f.RangeLoop(i, choice(id), items);
      LoopKeepsItems(lib, f.v, f.root, choice(id), items, Progress(env, Reset(NewRecorder(f.v.fn.ftype)), []));
    }

    /** The rest of `exec`: there is no `else` between the range loop and the single run. */
    method AfterLoop(id: Id, f: Fn, i: Input, n: nat, ghost env: Env) returns (out: Output?, err: Option<Error>)
      requires Valid() && id in pipe.places && ReadAll(NetOf(lib, pipe), State(), id) && Ph(State(), id).env == env
      requires f.lib == lib && f.v == pipe.places[id].v && f.root == pipe.root
      requires f.v.fn.ftype.BlockFn? ==> f.rec.Items?
      requires RunVertex(lib, f.v, f.root, env, choice(id))
               == Finished(f.v, choice(id), SingleTurn(lib, f.v, f.root, choice(id), n, f.At(i)))
      modifies this`trace, output, result, f, i
      ensures Valid() && (out == null || fresh(out))
      ensures Delivers(out, err, OutcomeOf(id, env))
      ensures !Nested(id, OutcomeOf(id, env)) ==> trace == old(trace) && unchanged(output) && unchanged(result)
      ensures Nested(id, OutcomeOf(id, env)) ==>
                && Ph(State(), id) == Logging(None) && Extends(old(trace), trace)
                && Touches(NetOf(lib, pipe), rank, old(State()), State(), id)
      decreases Inner(pipe.places[id].owner), 2
    {
      if ExecutesSingle(f.v.fn.ftype) {
        var ok := SingleRun(id, f, i, n, env);
        if !ok {
          return null, Some(Failed);
        }
      } else {
        OnlyBlocksNest(id);
      }
      out, err := f.GetFinalResult(OutOrder(choice(id), f.v));
    }

    lemma OnlyBlocksNest(id: Id)
      requires id in pipe.places
      ensures NetOf(lib, pipe).nodes[id].inner.Some? ==> ExecutesSingle(pipe.places[id].v.fn.ftype)
    {
    }

    /** The single run of `exec`. For a block it is the execution of the nested DAG. */
    method SingleRun(id: Id, f: Fn, i: Input, n: nat, ghost env: Env) returns (ok: bool)
      requires Valid() && id in pipe.places && ReadAll(NetOf(lib, pipe), State(), id) && Ph(State(), id).env == env
      requires f.lib == lib && f.v == pipe.places[id].v && f.root == pipe.root && ExecutesSingle(f.v.fn.ftype)
      requires f.v.fn.ftype.BlockFn? ==> f.rec.Items?
      requires RunVertex(lib, f.v, f.root, env, choice(id))
               == Finished(f.v, choice(id), SingleTurn(lib, f.v, f.root, choice(id), n, f.At(i)))
      modifies this`trace, output, result, f, i
      ensures Valid()
      ensures var p := SingleTurn(lib, f.v, f.root, choice(id), n, old(f.At(i)));
              ok == p.Some? && (ok ==> f.At(i) == p.value)
      ensures !Nested(id, OutcomeOf(id, env)) ==> trace == old(trace) && unchanged(output) && unchanged(result)
      ensures Nested(id, OutcomeOf(id, env)) ==>
                && Ph(State(), id) == Logging(None) && Extends(old(trace), trace)
                && Touches(NetOf(lib, pipe), rank, old(State()), State(), id)
      decreases Inner(pipe.places[id].owner), 1
    {
      var o := choice(id);
      ghost var p := f.At(i);
      f.InitOutput();
      ok := f.ResolveTurn(i, o, n);
      if !ok {
        return;
      }
      if f.v.fn.ftype.BlockFn? && f.v.blockRoot.Some? {
        BlockSucceeds(lib, f.v, f.root, o, n, p);
        RunNested(id, env);
      }
      ok := f.RunAndRecord(i, o, n);
    }

    /** A block runs its DAG on the same store and the same log. */
    method RunNested(id: Id, ghost env: Env)
      requires Valid() && id in pipe.places && ReadAll(NetOf(lib, pipe), State(), id) && Ph(State(), id).env == env
      requires Nested(id, OutcomeOf(id, env))
      modifies this`trace, output, result
      ensures Valid() && Ph(State(), id) == Logging(None) && Extends(old(trace), trace)
      ensures Touches(NetOf(lib, pipe), rank, old(State()), State(), id)
      decreases Inner(pipe.places[id].owner), 0
    {
      EnterBlock(id, env);
      InnerShrinks(id);
      ghost var t := trace;
      RunDag(Some(id));
      ExtendsTwice(old(trace), t, trace);
    }

    ghost method EnterBlock(id: Id, env: Env)
      requires Valid() && id in pipe.places && ReadAll(NetOf(lib, pipe), State(), id) && Ph(State(), id).env == env
      requires Nested(id, OutcomeOf(id, env))
      modifies this`trace
      ensures Valid() && Ph(State(), id).Inside? && Extends(old(trace), trace)
      ensures Touches(NetOf(lib, pipe), rank, old(State()), State(), id)
      ensures forall m :: m in pipe.places && pipe.places[m].owner == Some(id) ==> Ph(State(), m).Idle?
    {
      ghost var net, s := NetOf(lib, pipe), State();
      RunStruct(net, rank, seed, trace);
      EnterEffect(net, rank, s, id, choice(id));
      Step(Enter(id, choice(id)));
      forall m | m in pipe.places && pipe.places[m].owner == Some(id) ensures Ph(State(), m).Idle? {
        assert net.nodes[m].owner == Some(id);
      }
    }

    lemma InnerShrinks(id: Id)
      requires Wired() && id in pipe.places
      ensures Inner(Some(id)) < Inner(pipe.places[id].owner)
    {
      assert NetOf(lib, pipe).nodes[id].owner == pipe.places[id].owner;
      assert id in Inner(pipe.places[id].owner) && id !in Inner(Some(id));
    }

    /** RecordFinalResult. */
    method RecordFinalResult(dag: Option<Id>, success: bool)
      requires Valid() && Enabled(NetOf(lib, pipe), State(), Total(dag, success))
      modifies this`trace, result
      ensures Extends(old(trace), trace)
      ensures Valid() && State() == Next(NetOf(lib, pipe), old(State()), Total(dag, success))
    {
      RunStruct(NetOf(lib, pipe), rank, seed, trace);
      if dag.Some? {
        assert StructAt(NetOf(lib, pipe), State(), dag.value);
      }
      result.Add(Record(ExecRoot, DagRoot(pipe, dag), "total", success, None));
      Step(Total(dag, success));
    }

    /** The executor: it starts a vertex when its up-vertices are through, unless the
        failure policy skips it, and calls the post-run hook in the end. */
    method RunDag(dag: Option<Id>)
      requires Valid()
      requires dag.Some? ==> dag.value in pipe.places && Ph(State(), dag.value).Inside?
      requires dag.None? ==> None !in State().closed
      requires forall m :: m in pipe.places && pipe.places[m].owner == dag ==> Ph(State(), m).Idle?
      modifies this`trace, output, result
      ensures Valid() && Extends(old(trace), trace)
      ensures dag.None? ==> Complete(State())
      ensures dag.Some? ==>
                && Ph(State(), dag.value) == Logging(None)
                && Touches(NetOf(lib, pipe), rank, old(State()), State(), dag.value)
      decreases Inner(dag), 10
    {
      var todo := set id | id in pipe.places && pipe.places[id].owner == dag;
      var status: map<Id, Status> := map[];
      ghost var s0 := State();
      NothingTaken(dag, s0, todo);
      while todo != {}
        invariant Valid() && Executing(dag, s0, State(), todo, status) && Extends(old(trace), trace)
        decreases |todo|
      {
        ghost var t := trace;
        todo, status := NextTurn(dag, s0, todo, status);
        ExtendsTwice(old(trace), t, trace);
      }
      var ok := forall m :: m in status ==> status[m] == Ran(true);
      ghost var t := trace;
      Close(dag, s0, ok, status);
      ExtendsTwice(old(trace), t, trace);
    }

    /** Between two turns of the executor. */
    ghost predicate Executing(dag: Option<Id>, s0: Sys, s: Sys, todo: set<Id>, status: map<Id, Status>)
      requires Wired()
    {
      && todo !! status.Keys && todo <= pipe.places.Keys && status.Keys <= pipe.places.Keys
      && (forall m :: m in pipe.places ==> (pipe.places[m].owner == dag <==> m in todo || m in status))
      && (forall m :: m in todo ==> Ph(s, m).Idle?)
      && (forall m :: m in status ==> Ph(s, m) == Done(status[m]))
      && (None in s.closed <==> None in s0.closed)
      && (dag.Some? ==> Ph(s, dag.value).Inside? && Touches(NetOf(lib, pipe), rank, s0, s, dag.value))
    }

    method NextTurn(dag: Option<Id>, ghost s0: Sys, todo: set<Id>, status: map<Id, Status>)
      returns (todo': set<Id>, status': map<Id, Status>)
      requires Valid() && Executing(dag, s0, State(), todo, status) && todo != {}
      modifies this`trace, output, result
      ensures Valid() && Executing(dag, s0, State(), todo', status') && |todo'| < |todo| && Extends(old(trace), trace)
      decreases Inner(dag), 9
    {
      SomeoneIsReady(todo);
      var id :| id in todo && pipe.places[id].ups !! todo;
      var barred := pipe.stop && exists u :: u in pipe.places[id].ups && !(u in status && status[u] == Ran(true));
      ghost var s := State();
      UpsKnown(dag, id, s0, s, todo, status, barred);
      var st := TakeTurn(id, barred);
      todo', status' := todo - {id}, status[id := st];
      StillExecuting(dag, id, s0, s, State(), todo, status, st);
    }

    lemma NothingTaken(dag: Option<Id>, s: Sys, todo: set<Id>)
      requires Wired() && todo == (set id | id in pipe.places && pipe.places[id].owner == dag)
      requires forall m :: m in pipe.places && pipe.places[m].owner == dag ==> Ph(s, m).Idle?
      requires dag.Some? ==> Ph(s, dag.value).Inside?
      ensures Executing(dag, s, s, todo, map[])
    {
    }

    /** The post-run hook. */
    method Close(dag: Option<Id>, ghost s0: Sys, ok: bool, status: map<Id, Status>)
      requires Valid() && Executing(dag, s0, State(), {}, status) && (dag.None? ==> None !in s0.closed)
      requires dag.Some? ==> dag.value in pipe.places
      modifies this`trace, result
      ensures Valid() && (dag.None? ==> Complete(State())) && Extends(old(trace), trace)
      ensures dag.Some? ==>
                Ph(State(), dag.value) == Logging(None) && Touches(NetOf(lib, pipe), rank, s0, State(), dag.value)
    {
      ghost var s := State();
      AllTaken(dag, s0, s, status);
      RecordFinalResult(dag, ok);
      if dag.Some? {
        StepTouches(NetOf(lib, pipe), rank, s, Total(dag, ok));
        TouchesTwice(NetOf(lib, pipe), rank, s0, s, State(), dag.value);
      }
    }

    /** A vertex whose up-vertices are through. */
    method TakeTurn(id: Id, barred: bool) returns (st: Status)
      requires Valid() && id in pipe.places && Ph(State(), id).Idle?
      requires Active(NetOf(lib, pipe), State(), id) && UpsDone(NetOf(lib, pipe), State(), id)
      requires barred == Barred(NetOf(lib, pipe), State(), id)
      modifies this`trace, output, result
      ensures Valid() && Ph(State(), id) == Done(st) && Extends(old(trace), trace)
      ensures Touches(NetOf(lib, pipe), rank, old(State()), State(), id)
      decreases Inner(pipe.places[id].owner), 8
    {
      if barred {
        Step(Skip(id));
        return Skipped;
      }
      var ok := FunctionRun(id);
      ExtendsByOne(old(trace), Begin(id));
      ExtendsTwice(old(trace), old(trace) + [Begin(id)], trace);
      return Ran(ok);
    }

    lemma UpsKnown(dag: Option<Id>, id: Id, s0: Sys, s: Sys, todo: set<Id>, status: map<Id, Status>, barred: bool)
      requires Wired() && Executing(dag, s0, s, todo, status) && id in todo && pipe.places[id].ups !! todo
      requires barred == (pipe.stop && exists u :: u in pipe.places[id].ups && !(u in status && status[u] == Ran(true)))
      ensures pipe.places[id].owner == dag && Ph(s, id).Idle?
      ensures UpsDone(NetOf(lib, pipe), s, id) && Active(NetOf(lib, pipe), s, id)
      ensures barred == Barred(NetOf(lib, pipe), s, id)
    {
      var net := NetOf(lib, pipe);
      assert net.nodes[id].ups == pipe.places[id].ups && net.nodes[id].owner == dag;
      forall u | u in pipe.places[id].ups ensures u in status {
        assert u in net.nodes[id].ups;
        assert pipe.places[u].owner == dag;
      }
    }

    lemma StillExecuting(dag: Option<Id>, id: Id, s0: Sys, s: Sys, s': Sys, todo: set<Id>, status: map<Id, Status>,
                         st: Status)
      requires Wired() && Executing(dag, s0, s, todo, status) && id in todo
      requires Touches(NetOf(lib, pipe), rank, s, s', id) && Ph(s', id) == Done(st)
      ensures Executing(dag, s0, s', todo - {id}, status[id := st])
    {
      OthersKept(dag, id, s, s');
      if dag.Some? {
        TouchesTwice(NetOf(lib, pipe), rank, s0, s, s', dag.value);
      }
      Noted(dag, s, s', todo, status, id, st);
    }

    lemma Noted(dag: Option<Id>, s: Sys, s': Sys, todo: set<Id>, status: map<Id, Status>, id: Id, st: Status)
      requires todo !! status.Keys && todo <= pipe.places.Keys && status.Keys <= pipe.places.Keys && id in todo
      requires forall m :: m in pipe.places ==> (pipe.places[m].owner == dag <==> m in todo || m in status)
      requires (forall m :: m in todo ==> Ph(s, m).Idle?) && (forall m :: m in status ==> Ph(s, m) == Done(status[m]))
      requires forall m :: m in pipe.places && pipe.places[m].owner == dag && m != id ==> Ph(s', m) == Ph(s, m)
      requires Ph(s', id) == Done(st)
      ensures forall m :: m in pipe.places ==>
                (pipe.places[m].owner == dag <==> m in todo - {id} || m in status[id := st])
      ensures forall m :: m in todo - {id} ==> Ph(s', m).Idle?
      ensures forall m :: m in status[id := st] ==> Ph(s', m) == Done(status[id := st][m])
    {
    }

    lemma OthersKept(dag: Option<Id>, id: Id, s: Sys, s': Sys)
      requires Wired() && id in pipe.places && pipe.places[id].owner == dag
      requires Touches(NetOf(lib, pipe), rank, s, s', id)
      ensures forall m :: m in pipe.places && pipe.places[m].owner == dag && m != id ==> Ph(s', m) == Ph(s, m)
      ensures dag.Some? ==> Ph(s', dag.value) == Ph(s, dag.value) && Touches(NetOf(lib, pipe), rank, s, s', dag.value)
    {
      var net := NetOf(lib, pipe);
      assert net.nodes[id].owner == dag;
      forall m | m in pipe.places && pipe.places[m].owner == dag && m != id ensures Ph(s', m) == Ph(s, m) {
        SiblingsUntouched(net, rank, s, s', id, m);
      }
      if dag.Some? {
        TouchesInside(net, rank, s, s', id, dag.value);
      }
    }

    lemma AllTaken(dag: Option<Id>, s0: Sys, s: Sys, status: map<Id, Status>)
      requires Wired() && Executing(dag, s0, s, {}, status)
      ensures AllDone(NetOf(lib, pipe), s, dag)
    {
    }

    lemma SomeoneIsReady(todo: set<Id>)
      requires Wired() && todo != {} && forall m :: m in todo ==> m in pipe.places
      ensures exists id :: id in todo && pipe.places[id].ups !! todo
    {
      var id := LowestRank(rank, todo);
      forall u | u in pipe.places[id].ups ensures u !in todo {
        assert u in NetOf(lib, pipe).nodes[id].ups;
      }
    }
  }
}
