/** The range loop without its recorder: which inputs the function sees one after the other,
    what it answers, and how the two make up the state of the loop. Nothing is asked of the
    local variables; they may read each other and themselves. */
module RangeLoop {
  import opened Values
  import opened Outputs
  import opened Jq
  import opened Functions
  import opened Loop

  ghost predicate NoNulls(items: seq<Value>) {
    forall i :: 0 <= i < |items| ==> !items[i].Null?
  }

  lemma PlannedItems(jq: Evaluator, b: BlockCfg, env: Env)
    ensures PlanOf(jq, b, env).Over? ==> NoNulls(PlanOf(jq, b, env).items) && PlanOf(jq, b, env).items != []
  {
    forall p: Program | RangeItems(p).Some? ensures NoNulls(RangeItems(p).value) {
      RangeItemsAreNotNull(Delivered(p.outs));
    }
  }

  /** The execution goes over `items`; without a range there are none, but the function is
      executed all the same. */
  ghost predicate GoesOver(lib: Lib, v: Vertex, base: Env, items: seq<Value>) {
    var plan := PlanOf(lib.jq, v.fn.block, base);
    (plan.Once? && items == []) || plan == Over(items)
  }

  // ------------------------------------------------------------- inputs and answers

  /** The input after the first `n` items were bound and the variables resolved each time. */
  ghost function LoopEnv(lib: Lib, v: Vertex, o: Orders, base: Env, items: seq<Value>, n: nat): Option<Env>
    requires ValidOrders(o) && n <= |items|
  {
    if n == 0 then Some(base) else
      var before := LoopEnv(lib, v, o, base, items, n - 1);
      if before.None? then None
      else Resolve(lib.jq, v.fn.vars, VarOrder(o, n - 1, v), Bind(before.value, items[n - 1], n - 1))
  }

  /** What the run on item `k` gets and answers. */
  ghost function InputAt(lib: Lib, v: Vertex, root: string, o: Orders, base: Env, items: seq<Value>,
                         k: nat): Option<Env>
    requires ValidOrders(o) && k < |items|
  {
    var env := LoopEnv(lib, v, o, base, items, k + 1);
    if env.None? then None else Some(Filter(v, root, env.value))
  }

  ghost function AnswerAt(lib: Lib, v: Vertex, root: string, o: Orders, base: Env, items: seq<Value>,
                          k: nat): Option<RunOut>
    requires ValidOrders(o) && k < |items|
  {
    var fi := InputAt(lib, v, root, o, base, items, k);
    if fi.None? then None else Run(lib, v, fi.value, EnvOrder(o, k, fi.value), k)
  }

  ghost predicate AllAnswered(lib: Lib, v: Vertex, root: string, o: Orders, base: Env, items: seq<Value>, n: nat)
    requires ValidOrders(o) && n <= |items|
  {
    forall k: nat :: k < n ==> AnswerAt(lib, v, root, o, base, items, k).Some?
  }

  /** The inputs and the answers of the first `n` runs, in item order. */
  ghost function Inputs(lib: Lib, v: Vertex, root: string, o: Orders, base: Env, items: seq<Value>,
                        n: nat): (envs: seq<Env>)
    requires ValidOrders(o) && n <= |items| && AllAnswered(lib, v, root, o, base, items, n)
    ensures |envs| == n
    ensures forall k: nat :: k < n ==> InputAt(lib, v, root, o, base, items, k) == Some(envs[k])
  {
    if n == 0 then [] else
      assert AnswerAt(lib, v, root, o, base, items, n - 1).Some?;
      Inputs(lib, v, root, o, base, items, n - 1) + [InputAt(lib, v, root, o, base, items, n - 1).value]
  }

  ghost function Answers(lib: Lib, v: Vertex, root: string, o: Orders, base: Env, items: seq<Value>,
                         n: nat): (xs: seq<RunOut>)
    requires ValidOrders(o) && n <= |items| && AllAnswered(lib, v, root, o, base, items, n)
    ensures |xs| == n
    ensures forall k: nat :: k < n ==> AnswerAt(lib, v, root, o, base, items, k) == Some(xs[k])
  {
    seq(n, k requires 0 <= k < n => AnswerAt(lib, v, root, o, base, items, k).value)
  }

  /** The result fields after recording `xs` one by one. */
  ghost function RecordAll(v: Vertex, rec: Recorder, xs: seq<RunOut>, o: Orders): Recorder
    requires ValidOrders(o)
  {
    if xs == [] then rec else
      var n := |xs| - 1;
      Record(v, RecordAll(v, rec, xs[..n], o), xs[n], RespOrder(o, n, xs[n]))
  }

  /** The input and the answer of the single run after the loop. */
  ghost function LastEnv(lib: Lib, v: Vertex, o: Orders, base: Env, items: seq<Value>): Option<Env>
    requires ValidOrders(o)
  {
    var env := LoopEnv(lib, v, o, base, items, |items|);
    if env.None? then None else Resolve(lib.jq, v.fn.vars, VarOrder(o, |items|, v), env.value)
  }

  ghost function LastAnswer(lib: Lib, v: Vertex, root: string, o: Orders, base: Env, items: seq<Value>): Option<RunOut>
    requires ValidOrders(o)
  {
    var env := LastEnv(lib, v, o, base, items);
    if env.None? then None else
      var fi := Filter(v, root, env.value);
      Run(lib, v, fi, EnvOrder(o, |items|, fi), |items|)
  }

  // ------------------------------------------------------------------------ the loop

  /** The state of the loop after `n` answered items of a type that runs per item. */
  ghost function LoopState(lib: Lib, v: Vertex, root: string, o: Orders, base: Env, items: seq<Value>, n: nat,
                           rec: Recorder): Progress
    requires ValidOrders(o) && n <= |items| && AllAnswered(lib, v, root, o, base, items, n)
    requires LoopEnv(lib, v, o, base, items, n).Some?
  {
    Progress(LoopEnv(lib, v, o, base, items, n).value,
             RecordAll(v, rec, Answers(lib, v, root, o, base, items, n), o),
             Inputs(lib, v, root, o, base, items, n))
  }

  lemma AnsweredHasEnv(lib: Lib, v: Vertex, root: string, o: Orders, base: Env, items: seq<Value>, n: nat)
    requires ValidOrders(o) && n <= |items| && AllAnswered(lib, v, root, o, base, items, n)
    ensures LoopEnv(lib, v, o, base, items, n).Some?
  {
    if n > 0 {
      assert AnswerAt(lib, v, root, o, base, items, n - 1).Some?;
    }
  }

  lemma StateNext(lib: Lib, v: Vertex, root: string, o: Orders, base: Env, items: seq<Value>, n: nat, rec: Recorder)
    requires ValidOrders(o) && n < |items| && AllAnswered(lib, v, root, o, base, items, n + 1)
    requires LoopEnv(lib, v, o, base, items, n).Some? && LoopEnv(lib, v, o, base, items, n + 1).Some?
    ensures var p := LoopState(lib, v, root, o, base, items, n, rec);
            var x, env := AnswerAt(lib, v, root, o, base, items, n), LoopEnv(lib, v, o, base, items, n + 1).value;
            && x.Some?
            && LoopState(lib, v, root, o, base, items, n + 1, rec)
               == Progress(env, Record(v, p.rec, x.value, RespOrder(o, n, x.value)), p.runs + [Filter(v, root, env)])
  {
    var xs := Answers(lib, v, root, o, base, items, n + 1);
    assert AnswerAt(lib, v, root, o, base, items, n) == Some(xs[n]);
    assert xs[..n] == Answers(lib, v, root, o, base, items, n);
  }

  lemma TurnsNext(lib: Lib, v: Vertex, root: string, o: Orders, items: seq<Value>, n: nat, start: Progress, p: Progress)
    requires ValidOrders(o) && 0 < n <= |items| && Turns(lib, v, root, o, items, n - 1, start) == Some(p)
    ensures Turns(lib, v, root, o, items, n, start) == Turn(lib, v, root, o, n - 1, items[n - 1], p)
  {
  }

  /** One turn of a type that runs per item. */
  lemma RunningTurn(lib: Lib, v: Vertex, root: string, o: Orders, base: Env, items: seq<Value>, n: nat, p: Progress)
    requires ValidOrders(o) && NoNulls(items) && n < |items| && ExecutesRange(v.fn.ftype)
    requires LoopEnv(lib, v, o, base, items, n) == Some(p.env)
    ensures var q, x := Turn(lib, v, root, o, n, items[n], p), AnswerAt(lib, v, root, o, base, items, n);
            && (x.None? ==> q.None?)
            && (x.Some? ==>
                  && LoopEnv(lib, v, o, base, items, n + 1).Some?
                  && var env := LoopEnv(lib, v, o, base, items, n + 1).value;
                     q == Some(Progress(env, Record(v, p.rec, x.value, RespOrder(o, n, x.value)),
                                        p.runs + [Filter(v, root, env)])))
  {
  }

  lemma {:induction false} RunningAll(lib: Lib, v: Vertex, root: string, o: Orders, base: Env, items: seq<Value>,
                                      n: nat, rec: Recorder)
    requires ValidOrders(o) && NoNulls(items) && n <= |items| && ExecutesRange(v.fn.ftype)
    requires AllAnswered(lib, v, root, o, base, items, n)
    ensures LoopEnv(lib, v, o, base, items, n).Some?
    ensures Turns(lib, v, root, o, items, n, Progress(base, rec, []))
            == Some(LoopState(lib, v, root, o, base, items, n, rec))
  {
    AnsweredHasEnv(lib, v, root, o, base, items, n);
    if n > 0 {
      RunningAll(lib, v, root, o, base, items, n - 1, rec);
      var p := LoopState(lib, v, root, o, base, items, n - 1, rec);
      TurnsNext(lib, v, root, o, items, n, Progress(base, rec, []), p);
      RunningTurn(lib, v, root, o, base, items, n - 1, p);
      StateNext(lib, v, root, o, base, items, n - 1, rec);
    }
  }

  lemma RunningStops(lib: Lib, v: Vertex, root: string, o: Orders, base: Env, items: seq<Value>, n: nat, rec: Recorder)
    requires ValidOrders(o) && NoNulls(items) && n < |items| && ExecutesRange(v.fn.ftype)
    requires AllAnswered(lib, v, root, o, base, items, n) && AnswerAt(lib, v, root, o, base, items, n).None?
    ensures Turns(lib, v, root, o, items, n + 1, Progress(base, rec, [])).None?
  {
    RunningAll(lib, v, root, o, base, items, n, rec);
    var p := LoopState(lib, v, root, o, base, items, n, rec);
    TurnsNext(lib, v, root, o, items, n + 1, Progress(base, rec, []), p);
    RunningTurn(lib, v, root, o, base, items, n, p);
  }

  lemma {:induction false} RunningNone(lib: Lib, v: Vertex, root: string, o: Orders, base: Env, items: seq<Value>,
                                       n: nat, rec: Recorder)
    requires ValidOrders(o) && NoNulls(items) && n <= |items| && ExecutesRange(v.fn.ftype)
    requires !AllAnswered(lib, v, root, o, base, items, n)
    ensures Turns(lib, v, root, o, items, n, Progress(base, rec, [])).None?
  {
    if AllAnswered(lib, v, root, o, base, items, n - 1) {
      RunningStops(lib, v, root, o, base, items, n - 1, rec);
    } else {
      RunningNone(lib, v, root, o, base, items, n - 1, rec);
    }
  }

  /** The range loop of a type that runs per item (map, slice, template, image): it succeeds
      iff every run answers, and has then recorded the answers in item order. */
  lemma RunningLoop(lib: Lib, v: Vertex, root: string, o: Orders, base: Env, items: seq<Value>, n: nat, rec: Recorder)
    requires ValidOrders(o) && NoNulls(items) && n <= |items| && ExecutesRange(v.fn.ftype)
    ensures AllAnswered(lib, v, root, o, base, items, n) ==> LoopEnv(lib, v, o, base, items, n).Some?
    ensures Turns(lib, v, root, o, items, n, Progress(base, rec, []))
            == if AllAnswered(lib, v, root, o, base, items, n)
               then Some(LoopState(lib, v, root, o, base, items, n, rec)) else None
  {
    if AllAnswered(lib, v, root, o, base, items, n) {
      RunningAll(lib, v, root, o, base, items, n, rec);
    } else {
      RunningNone(lib, v, root, o, base, items, n, rec);
    }
  }

  /** The range loop of a type that only binds items (jq, query, block). */
  lemma {:induction false} BindingLoop(lib: Lib, v: Vertex, root: string, o: Orders, base: Env, items: seq<Value>,
                                       n: nat, rec: Recorder)
    requires ValidOrders(o) && NoNulls(items) && n <= |items| && !ExecutesRange(v.fn.ftype)
    ensures var env := LoopEnv(lib, v, o, base, items, n);
            Turns(lib, v, root, o, items, n, Progress(base, rec, []))
            == if env.Some? then Some(Progress(env.value, rec, [])) else None
  {
    if n > 0 {
      BindingLoop(lib, v, root, o, base, items, n - 1, rec);
    }
  }

  /** The single run after the loop. */
  lemma LastTurn(lib: Lib, v: Vertex, root: string, o: Orders, base: Env, items: seq<Value>, p: Progress)
    requires ValidOrders(o) && ExecutesSingle(v.fn.ftype) && LoopEnv(lib, v, o, base, items, |items|) == Some(p.env)
    ensures var x := LastAnswer(lib, v, root, o, base, items);
            SingleTurn(lib, v, root, o, |items|, p)
            == if x.None? then None else
                 var env := LastEnv(lib, v, o, base, items).value;
                 Some(Progress(env, Record(v, Reset(p.rec), x.value, RespOrder(o, |items|, x.value)),
                               p.runs + [Filter(v, root, env)]))
  {
  }

  // ------------------------------------------------------------------- the execution

  lemma FreshRecorder(t: FnType)
    ensures Reset(NewRecorder(t)) == NewRecorder(t)
  {
  }

  /** An execution that is not turned down is the loop and then the single run, also when
      there is nothing to loop over. */
  lemma LoopThenSingle(lib: Lib, v: Vertex, root: string, o: Orders, base: Env, items: seq<Value>)
    requires ValidOrders(o) && !v.fn.ftype.OtherFn? && GoesOver(lib, v, base, items)
    ensures NoNulls(items)
    ensures var p := Turns(lib, v, root, o, items, |items|, Progress(base, Reset(NewRecorder(v.fn.ftype)), []));
            RunVertex(lib, v, root, base, o)
            == Finished(v, o, if p.None? then None else SingleTurn(lib, v, root, o, |items|, p.value))
  {
    PlannedItems(lib.jq, v.fn.block, base);
    FreshRecorder(v.fn.ftype);
  }

  /** A type that runs per item: n runs in the loop, then the single run if it has one. */
  lemma RunningExecution(lib: Lib, v: Vertex, root: string, o: Orders, base: Env, items: seq<Value>)
    requires ValidOrders(o) && ExecutesRange(v.fn.ftype) && GoesOver(lib, v, base, items)
    ensures var n, rec := |items|, Reset(NewRecorder(v.fn.ftype));
            && (AllAnswered(lib, v, root, o, base, items, n) ==> LoopEnv(lib, v, o, base, items, n).Some?)
            && RunVertex(lib, v, root, base, o)
               == if AllAnswered(lib, v, root, o, base, items, n) then
                    Finished(v, o, SingleTurn(lib, v, root, o, n, LoopState(lib, v, root, o, base, items, n, rec)))
                  else Failure()
  {
    LoopThenSingle(lib, v, root, o, base, items);
    RunningLoop(lib, v, root, o, base, items, |items|, Reset(NewRecorder(v.fn.ftype)));
  }

  /** A type that does not run per item: one run in the input that the last item left. */
  lemma BindingExecution(lib: Lib, v: Vertex, root: string, o: Orders, base: Env, items: seq<Value>)
    requires ValidOrders(o) && !ExecutesRange(v.fn.ftype) && !v.fn.ftype.OtherFn? && GoesOver(lib, v, base, items)
    ensures var env, rec := LoopEnv(lib, v, o, base, items, |items|), Reset(NewRecorder(v.fn.ftype));
            RunVertex(lib, v, root, base, o)
            == if env.Some? then Finished(v, o, SingleTurn(lib, v, root, o, |items|, Progress(env.value, rec, [])))
               else Failure()
  {
    LoopThenSingle(lib, v, root, o, base, items);
    BindingLoop(lib, v, root, o, base, items, |items|, Reset(NewRecorder(v.fn.ftype)));
  }
}
