/** What each function type publishes, in closed form, and the facts about vertices that
    the schedule theorems build on. */
module Meaning {
  import opened Values
  import opened Outputs
  import opened Jq
  import opened Functions
  import opened Loop
  import opened RangeLoop
  import opened Images

  // ------------------------------------------------------------------- publication

  ghost predicate WellTyped(outputs: Store) {
    forall k :: k in outputs ==> outputs[k].Info?
  }

  /** Every declared output as it is declared, internal or not and with its kind, but with the
      data and without the conditioned mark. */
  ghost function PublishAll(outputs: Store, data: Value): Store
    requires WellTyped(outputs)
  {
    map k | k in outputs :: Info(outputs[k].info.(conditioned := false, data := data))
  }

  lemma {:induction false} PublishPart(outputs: Store, data: Value, order: seq<string>, o: Store)
    requires forall i :: 0 <= i < |order| ==> order[i] in outputs
    ensures var r := PublishAlong(outputs, data, order, o);
            && r.out.Some? && r.out.value.Keys <= o.Keys + outputs.Keys
            && (r.err.Some? <==> exists i :: 0 <= i < |order| && outputs[order[i]].Foreign?)
            && (r.err.None? || r.err == Some(Failed))
            && (r.err.None? ==>
                  && (forall k :: k in order ==> k in r.out.value && outputs[k].Info?
                                                 && r.out.value[k] == Published(outputs[k].info, data))
                  && (forall k :: k !in order ==> Same(r.out.value, o, k)))
    decreases |order|
  {
    if order != [] && outputs[order[0]].Info? {
      var rest := order[1..];
      assert order == [order[0]] + rest;
      PublishPart(outputs, data, rest, o[order[0] := Published(outputs[order[0]].info, data)]);
    }
  }

  /** Publication is all or nothing unless the pipeline declares a foreign entry. */
  lemma PublishTyped(outputs: Store, data: Value, order: seq<string>)
    requires WellTyped(outputs) && IsOrder(order, outputs.Keys)
    ensures PublishAlong(outputs, data, order, map[]) == Outcome(Some(PublishAll(outputs, data)), None)
  {
    PublishPart(outputs, data, order, map[]);
    var out := PublishAlong(outputs, data, order, map[]).out.value;
    forall k: string ensures Same(out, PublishAll(outputs, data), k) {
      assert k in order <==> k in outputs;
      if k !in order { assert Same<string, Entry>(out, map[], k); }
    }
    SameEverywhere(out, PublishAll(outputs, data));
  }

  // ------------------------------------------------------------- recording results

  /** The list that slices and templates build from their results. */
  ghost function Payload(xs: seq<RunOut>): seq<Value> {
    seq(|xs|, i requires 0 <= i < |xs| => if xs[i].Single? then xs[i].v else Null)
  }

  lemma PayloadNext(xs: seq<RunOut>)
    requires xs != []
    ensures var n := |xs| - 1; Payload(xs) == Payload(xs[..n]) + [if xs[n].Single? then xs[n].v else Null]
  {
  }

  lemma {:induction false} RecordedItems(v: Vertex, xs: seq<RunOut>, o: Orders)
    requires ValidOrders(o)
    ensures RecordAll(v, Items([]), xs, o) == Items(Payload(xs))
    decreases |xs|
  {
    if xs != [] {
      RecordedItems(v, xs[..|xs| - 1], o);
      PayloadNext(xs);
    }
  }

  /** `dict` maps each key to the value of the last result that carries it. */
  ghost predicate LastWins(xs: seq<RunOut>, dict: map<string, Value>) {
    && (forall key :: key in dict <==> exists k :: 0 <= k < |xs| && xs[k].Pair? && xs[k].key == key)
    && (forall k :: 0 <= k < |xs| && xs[k].Pair? && Latest(xs, k) ==>
          xs[k].key in dict && dict[xs[k].key] == xs[k].v)
  }

  /** No later result has the same key. */
  ghost predicate Latest(xs: seq<RunOut>, k: nat)
    requires k < |xs| && xs[k].Pair?
  {
    forall j :: k < j < |xs| && xs[j].Pair? ==> xs[j].key != xs[k].key
  }

  lemma {:induction false} RecordedPairs(v: Vertex, xs: seq<RunOut>, o: Orders)
    requires ValidOrders(o)
    ensures var r := RecordAll(v, Pairs(map[]), xs, o); r.Pairs? && LastWins(xs, r.dict)
    decreases |xs|
  {
    if xs != [] {
      var n := |xs| - 1;
      RecordedPairs(v, xs[..n], o);
      LastWinsStep(xs, RecordAll(v, Pairs(map[]), xs[..n], o).dict);
    }
  }

  function WithResult(dict: map<string, Value>, x: RunOut): map<string, Value> {
    if x.Pair? then dict[x.key := x.v] else dict
  }

  lemma KeysOfResults(xs: seq<RunOut>, dict: map<string, Value>, key: string)
    requires xs != [] && LastWins(xs[..|xs| - 1], dict)
    ensures key in WithResult(dict, xs[|xs| - 1]) <==> exists k :: 0 <= k < |xs| && xs[k].Pair? && xs[k].key == key
  {
    var n := |xs| - 1;
    var ys := xs[..n];
    if key in dict {
      var k :| 0 <= k < n && ys[k].Pair? && ys[k].key == key;
      assert xs[k].Pair? && xs[k].key == key;
    }
    if k :| 0 <= k < |xs| && xs[k].Pair? && xs[k].key == key {
      assert k < n ==> ys[k].Pair? && ys[k].key == key;
    }
  }

  lemma ValueOfResult(xs: seq<RunOut>, dict: map<string, Value>, k: nat)
    requires xs != [] && LastWins(xs[..|xs| - 1], dict)
    requires k < |xs| && xs[k].Pair? && Latest(xs, k)
    ensures var dict' := WithResult(dict, xs[|xs| - 1]); xs[k].key in dict' && dict'[xs[k].key] == xs[k].v
  {
    var n := |xs| - 1;
    var ys := xs[..n];
    if k < n {
      assert ys[k].Pair? && Latest(ys, k);
    }
  }

  lemma LastWinsStep(xs: seq<RunOut>, dict: map<string, Value>)
    requires xs != [] && LastWins(xs[..|xs| - 1], dict)
    ensures LastWins(xs, WithResult(dict, xs[|xs| - 1]))
  {
    var dict' := WithResult(dict, xs[|xs| - 1]);
    forall key ensures key in dict' <==> exists k :: 0 <= k < |xs| && xs[k].Pair? && xs[k].key == key {
      KeysOfResults(xs, dict, key);
    }
    forall k | 0 <= k < |xs| && xs[k].Pair? && Latest(xs, k)
      ensures xs[k].key in dict' && dict'[xs[k].key] == xs[k].v {
      ValueOfResult(xs, dict, k);
    }
  }

  // ---------------------------------------------------------------- range functions

  /** What is published once the result fields hold a list. */
  lemma FinishedItems(v: Vertex, o: Orders, p: Progress)
    requires ValidOrders(o) && WellTyped(v.outputs) && p.rec.Items? && !v.fn.ftype.BlockFn?
    ensures Finished(v, o, Some(p)) == Execution(Outcome(Some(PublishAll(v.outputs, Arr(p.rec.items))), None), p.runs)
  {
    PublishTyped(v.outputs, Arr(p.rec.items), OutOrder(o, v));
  }

  /** A slice over n items makes n runs and publishes their n answers in item order, or
      nothing at all; without a range it publishes the empty list. */
  lemma SliceMeaning(lib: Lib, v: Vertex, root: string, base: Env, o: Orders, items: seq<Value>)
    requires ValidOrders(o) && WellTyped(v.outputs) && v.fn.ftype.SliceFn? && GoesOver(lib, v, base, items)
    ensures var n := |items|;
            RunVertex(lib, v, root, base, o)
            == if AllAnswered(lib, v, root, o, base, items, n) then
                 Execution(Outcome(Some(PublishAll(v.outputs,
                                                   Arr(Payload(Answers(lib, v, root, o, base, items, n))))), None),
                           Inputs(lib, v, root, o, base, items, n))
               else Failure()
  {
    RunningExecution(lib, v, root, o, base, items);
    if AllAnswered(lib, v, root, o, base, items, |items|) {
      RecordedItems(v, Answers(lib, v, root, o, base, items, |items|), o);
      FinishedItems(v, o, LoopState(lib, v, root, o, base, items, |items|, Items([])));
    }
  }

  /** What is published once the result fields hold a dictionary. */
  lemma FinishedPairs(v: Vertex, o: Orders, p: Progress)
    requires ValidOrders(o) && WellTyped(v.outputs) && p.rec.Pairs?
    ensures Finished(v, o, Some(p)) == Execution(Outcome(Some(PublishAll(v.outputs, Obj(p.rec.dict))), None), p.runs)
  {
    PublishTyped(v.outputs, Obj(p.rec.dict), OutOrder(o, v));
  }

  /** A map over n items makes n runs and publishes, for each key, the value of the
      highest-index item that produced it, and no other key; an error of any item publishes
      nothing. Without a range it publishes the empty dictionary. */
  lemma MapMeaning(lib: Lib, v: Vertex, root: string, base: Env, o: Orders, items: seq<Value>)
    requires ValidOrders(o) && WellTyped(v.outputs) && v.fn.ftype.MapFn? && GoesOver(lib, v, base, items)
    ensures var n, r := |items|, RunVertex(lib, v, root, base, o);
            if AllAnswered(lib, v, root, o, base, items, n) then
              exists dict :: LastWins(Answers(lib, v, root, o, base, items, n), dict)
                             && r == Execution(Outcome(Some(PublishAll(v.outputs, Obj(dict))), None),
                                               Inputs(lib, v, root, o, base, items, n))
            else r == Failure()
  {
    RunningExecution(lib, v, root, o, base, items);
    if AllAnswered(lib, v, root, o, base, items, |items|) {
      RecordedPairs(v, Answers(lib, v, root, o, base, items, |items|), o);
      FinishedPairs(v, o, LoopState(lib, v, root, o, base, items, |items|, Pairs(map[])));
    }
  }

  // ---------------------------------------------------------- templates, jq, query, block

  /** The list of a template's single run. */
  lemma LastItemOnly(v: Vertex, o: Orders, j: nat, p: Progress, env: Env, x: RunOut)
    requires ValidOrders(o) && WellTyped(v.outputs) && v.fn.ftype.GoTemplateFn? && p.rec.Items? && x.Single?
    ensures Finished(v, o, Some(Progress(env, Record(v, Reset(p.rec), x, RespOrder(o, j, x)), p.runs + [env])))
            == Execution(Outcome(Some(PublishAll(v.outputs, Arr([x.v]))), None), p.runs + [env])
  {
    assert [] + [x.v] == [x.v];
    FinishedItems(v, o, Progress(env, Items([x.v]), p.runs + [env]));
  }

  lemma TemplateAfterLoop(lib: Lib, v: Vertex, root: string, base: Env, o: Orders, items: seq<Value>, p: Progress)
    requires ValidOrders(o) && WellTyped(v.outputs) && v.fn.ftype.GoTemplateFn? && p.rec.Items?
    requires LoopEnv(lib, v, o, base, items, |items|) == Some(p.env)
    ensures var x, r := LastAnswer(lib, v, root, o, base, items),
                        Finished(v, o, SingleTurn(lib, v, root, o, |items|, p));
            if x.None? then r == Failure()
            else
              && x.value.Single? && LastEnv(lib, v, o, base, items).Some?
              && r == Execution(Outcome(Some(PublishAll(v.outputs, Arr([x.value.v]))), None),
                                p.runs + [LastEnv(lib, v, o, base, items).value])
  {
    LastTurn(lib, v, root, o, base, items, p);
    var x := LastAnswer(lib, v, root, o, base, items);
    if x.Some? {
      LastItemOnly(v, o, |items|, p, LastEnv(lib, v, o, base, items).value, x.value);
    }
  }

  lemma TemplateExecution(lib: Lib, v: Vertex, root: string, base: Env, o: Orders, items: seq<Value>)
    requires ValidOrders(o) && v.fn.ftype.GoTemplateFn? && GoesOver(lib, v, base, items)
    ensures var n := |items|;
            if AllAnswered(lib, v, root, o, base, items, n) then
              && LoopEnv(lib, v, o, base, items, n).Some?
              && var p := LoopState(lib, v, root, o, base, items, n, Items([]));
                 p.rec.Items? && RunVertex(lib, v, root, base, o) == Finished(v, o, SingleTurn(lib, v, root, o, n, p))
            else RunVertex(lib, v, root, base, o) == Failure()
  {
    RunningExecution(lib, v, root, o, base, items);
    if AllAnswered(lib, v, root, o, base, items, |items|) {
      RecordedItems(v, Answers(lib, v, root, o, base, items, |items|), o);
    }
  }

  /** A template over n items is instantiated n + 1 times, and only the last instance is
      published; without a range it is instantiated once. It fails iff an instance does. */
  lemma TemplateMeaning(lib: Lib, v: Vertex, root: string, base: Env, o: Orders, items: seq<Value>)
    requires ValidOrders(o) && WellTyped(v.outputs) && v.fn.ftype.GoTemplateFn? && GoesOver(lib, v, base, items)
    ensures var n, x := |items|, LastAnswer(lib, v, root, o, base, items);
            if AllAnswered(lib, v, root, o, base, items, n) && x.Some? then
              && x.value.Single? && LastEnv(lib, v, o, base, items).Some?
              && RunVertex(lib, v, root, base, o)
                 == Execution(Outcome(Some(PublishAll(v.outputs, Arr([x.value.v]))), None),
                              Inputs(lib, v, root, o, base, items, n) + [LastEnv(lib, v, o, base, items).value])
            else RunVertex(lib, v, root, base, o) == Failure()
  {
    TemplateExecution(lib, v, root, base, o, items);
    if AllAnswered(lib, v, root, o, base, items, |items|) {
      TemplateAfterLoop(lib, v, root, base, o, items, LoopState(lib, v, root, o, base, items, |items|, Items([])));
    }
  }

  /** What a single recorded value comes to. */
  lemma FinishedBinding(v: Vertex, o: Orders, j: nat, env: Env, x: RunOut)
    requires ValidOrders(o) && WellTyped(v.outputs) && (v.fn.ftype.JqFn? || v.fn.ftype.QueryFn?) && x.Single?
    ensures Finished(v, o, Some(Progress(env, Record(v, Last(Null), x, RespOrder(o, j, x)), [env])))
            == Execution(Outcome(Some(PublishAll(v.outputs, x.v)), None), [env])
  {
    PublishTyped(v.outputs, x.v, OutOrder(o, v));
  }

  /** jq, query and block run exactly once, in the input that the last item left, resolved
      once more; a block publishes nothing. They fail iff a resolution or that run does. */
  lemma BindingMeaning(lib: Lib, v: Vertex, root: string, base: Env, o: Orders, items: seq<Value>)
    requires ValidOrders(o) && WellTyped(v.outputs) && GoesOver(lib, v, base, items)
    requires v.fn.ftype.JqFn? || v.fn.ftype.QueryFn? || v.fn.ftype.BlockFn?
    ensures var x, r := LastAnswer(lib, v, root, o, base, items), RunVertex(lib, v, root, base, o);
            if x.None? then r == Failure()
            else
              && LastEnv(lib, v, o, base, items).Some? && (!v.fn.ftype.BlockFn? ==> x.value.Single?)
              && var out := if v.fn.ftype.BlockFn? then map[] else PublishAll(v.outputs, x.value.v);
                 r == Execution(Outcome(Some(out), None), [LastEnv(lib, v, o, base, items).value])
  {
    BindingExecution(lib, v, root, o, base, items);
    var x, start := LastAnswer(lib, v, root, o, base, items), LoopEnv(lib, v, o, base, items, |items|);
    if start.Some? {
      LastTurn(lib, v, root, o, base, items, Progress(start.value, Reset(NewRecorder(v.fn.ftype)), []));
      if x.Some? && !v.fn.ftype.BlockFn? {
        FinishedBinding(v, o, |items|, LastEnv(lib, v, o, base, items).value, x.value);
      }
    }
  }
}
