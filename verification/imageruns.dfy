/** An image function over a range: every item is sent and must come back clean, but only
    the response to the last item is kept. */
module ImageRuns {
  import opened Values
  import opened Outputs
  import opened Jq
  import opened Functions
  import opened Loop
  import opened RangeLoop
  import opened Images
  import opened Meaning
  import opened Vertices

  /** All responses are clean. */
  ghost predicate AllClean(v: Vertex, xs: seq<RunOut>) {
    forall k :: 0 <= k < |xs| ==> xs[k].Ctx? && GoodResponse(v, xs[k].resp)
  }

  lemma RecordedVerdict(v: Vertex, r: Recorder, resp: Response, order: seq<string>)
    requires r.Image? && IsOrder(order, resp.Keys)
    ensures RecordResponse(v, r, resp, order).errs == [] <==> r.errs == [] && GoodResponse(v, resp)
  {
    ErrorsAreSticky(v, r, resp, order);
    AllKindsVisited(v, resp, order);
  }

  lemma RecordAny(v: Vertex, r: Recorder, x: RunOut, o: Orders, j: nat)
    requires r.Image? && ValidOrders(o)
    ensures Record(v, r, x, RespOrder(o, j, x)).Image?
    ensures Record(v, r, x, RespOrder(o, j, x)).errs == [] <==> r.errs == [] && x.Ctx? && GoodResponse(v, x.resp)
  {
    if x.Ctx? {
      RecordedVerdict(v, r, x.resp, RespOrder(o, j, x));
    }
  }

  lemma AllCleanNext(v: Vertex, xs: seq<RunOut>)
    requires xs != []
    ensures var x := xs[|xs| - 1]; AllClean(v, xs) <==> AllClean(v, xs[..|xs| - 1]) && x.Ctx? && GoodResponse(v, x.resp)
  {
    assert xs == xs[..|xs| - 1] + [xs[|xs| - 1]];
  }

  /** The errors of all items accumulate; an answer that is no response is one. */
  lemma {:induction false} ErrorsAccumulate(v: Vertex, xs: seq<RunOut>, o: Orders)
    requires ValidOrders(o)
    ensures var r := RecordAll(v, Image(map[], []), xs, o); r.Image? && (r.errs == [] <==> AllClean(v, xs))
    decreases |xs|
  {
    if xs != [] {
      var n := |xs| - 1;
      ErrorsAccumulate(v, xs[..n], o);
      RecordAny(v, RecordAll(v, Image(map[], []), xs[..n], o), xs[n], o, n);
      AllCleanNext(v, xs);
    }
  }

  /** The outcome of the last record. */
  lemma FinishedImage(v: Vertex, o: Orders, j: nat, env: Env, runs: seq<Env>, errs: seq<ImageErr>, x: RunOut)
    requires ValidOrders(o) && x.Ctx? && OneKindPerVar(v)
    ensures var r := Finished(v, o,
                Some(Progress(env, RecordResponse(v, Image(map[], errs), x.resp, RespOrder(o, j, x)), runs)));
            && r.runs == runs
            && if errs == [] && GoodResponse(v, x.resp) then
                 r.outcome.out.Some? && r.outcome.err.None? && HoldsResponse(v, x.resp, r.outcome.out.value)
               else r.outcome == Outcome(None, Some(Failed))
  {
    ResponseOrderFree(v, errs, x.resp, RespOrder(o, j, x));
  }

  lemma ImageAnswersWithResponses(lib: Lib, v: Vertex, root: string, o: Orders, base: Env, items: seq<Value>, n: nat)
    requires ValidOrders(o) && n <= |items| && AllAnswered(lib, v, root, o, base, items, n) && IsImage(v.fn.ftype)
    ensures forall k :: 0 <= k < n ==> Answers(lib, v, root, o, base, items, n)[k].Ctx?
    ensures LastAnswer(lib, v, root, o, base, items).Some? ==> LastAnswer(lib, v, root, o, base, items).value.Ctx?
  {
    var xs := Answers(lib, v, root, o, base, items, n);
    forall k: nat | k < n ensures xs[k].Ctx? {
      assert AnswerAt(lib, v, root, o, base, items, k) == Some(xs[k]);
    }
  }

  /** The published output is the last response; it takes a clean record of all of them. */
  ghost predicate ImageResult(v: Vertex, xs: seq<RunOut>, runs: seq<Env>, r: Execution) {
    && xs != [] && r.runs == runs
    && if AllClean(v, xs) then
         var last := xs[|xs| - 1];
         && last.Ctx? && GoodResponse(v, last.resp)
         && r.outcome.out.Some? && r.outcome.err.None? && HoldsResponse(v, last.resp, r.outcome.out.value)
         && forall out :: HoldsResponse(v, last.resp, out) ==> r.outcome.out == Some(out)
       else r.outcome == Outcome(None, Some(Failed))
  }

  lemma OnlyOutput(v: Vertex, resp: Response, out: Store)
    requires GoodResponse(v, resp) && HoldsResponse(v, resp, out)
    ensures forall out' :: HoldsResponse(v, resp, out') ==> out == out'
  {
    forall out' | HoldsResponse(v, resp, out') ensures out == out' {
      HoldsOnlyOne(v, resp, out, out');
    }
  }

  /** From the responses of the items and the extra one to the result. */
  lemma FinishedRuns(v: Vertex, o: Orders, env: Env, runs: seq<Env>, rec: Recorder, xs: seq<RunOut>, x: RunOut)
    requires ValidOrders(o) && OneKindPerVar(v) && x.Ctx? && forall k :: 0 <= k < |xs| ==> xs[k].Ctx?
    requires rec == RecordAll(v, Image(map[], []), xs, o)
    ensures rec.Image?
    ensures var last := Record(v, Reset(rec), x, RespOrder(o, |xs|, x));
            ImageResult(v, xs + [x], runs, Finished(v, o, Some(Progress(env, last, runs))))
  {
    ErrorsAccumulate(v, xs, o);
    assert (xs + [x])[..|xs|] == xs;
    AllCleanNext(v, xs + [x]);
    FinishedImage(v, o, |xs|, env, runs, rec.errs, x);
    var r := Finished(v, o, Some(Progress(env, Record(v, Reset(rec), x, RespOrder(o, |xs|, x)), runs)));
    if AllClean(v, xs + [x]) {
      OnlyOutput(v, x.resp, r.outcome.out.value);
    }
  }

  /** From the end of the loop to the result. */
  lemma ImageAfterLoop(lib: Lib, v: Vertex, root: string, base: Env, o: Orders, items: seq<Value>, xs: seq<RunOut>,
                       p: Progress)
    requires OneKindPerVar(v) && ValidOrders(o) && IsImage(v.fn.ftype)
    requires LoopEnv(lib, v, o, base, items, |items|) == Some(p.env)
    requires |xs| == |items| && forall k :: 0 <= k < |xs| ==> xs[k].Ctx?
    requires LastAnswer(lib, v, root, o, base, items).Some? ==> LastAnswer(lib, v, root, o, base, items).value.Ctx?
    requires p.rec == RecordAll(v, Image(map[], []), xs, o)
    ensures var x, r := LastAnswer(lib, v, root, o, base, items),
                        Finished(v, o, SingleTurn(lib, v, root, o, |items|, p));
            if x.None? then r == Failure()
            else
              && LastEnv(lib, v, o, base, items).Some?
              && ImageResult(v, xs + [x.value], p.runs + [Filter(v, root, LastEnv(lib, v, o, base, items).value)], r)
  {
    LastTurn(lib, v, root, o, base, items, p);
    var x := LastAnswer(lib, v, root, o, base, items);
    if x.Some? {
      var env := LastEnv(lib, v, o, base, items).value;
      FinishedRuns(v, o, env, p.runs + [Filter(v, root, env)], p.rec, xs, x.value);
    }
  }

  lemma FreshImage(t: FnType)
    requires IsImage(t)
    ensures Reset(NewRecorder(t)) == Image(map[], [])
  {
  }

  lemma ImageExecution(lib: Lib, v: Vertex, root: string, base: Env, o: Orders, items: seq<Value>)
    requires ValidOrders(o) && IsImage(v.fn.ftype) && GoesOver(lib, v, base, items)
    ensures var n := |items|;
            && (AllAnswered(lib, v, root, o, base, items, n) ==> LoopEnv(lib, v, o, base, items, n).Some?)
            && RunVertex(lib, v, root, base, o)
               == if AllAnswered(lib, v, root, o, base, items, n) then
                    Finished(v, o, SingleTurn(lib, v, root, o, n,
                                   LoopState(lib, v, root, o, base, items, n, Image(map[], []))))
                  else Failure()
  {
    FreshImage(v.fn.ftype);
    RunningExecution(lib, v, root, o, base, items);
  }

  /** n items cost n + 1 requests, and an image without a range costs one. The function
      succeeds iff all of them are answered and all responses are clean, errors of earlier
      items included, and then publishes exactly the last response. */
  lemma ImageMeaning(lib: Lib, v: Vertex, root: string, base: Env, o: Orders, items: seq<Value>)
    requires OneKindPerVar(v) && ValidOrders(o) && IsImage(v.fn.ftype) && GoesOver(lib, v, base, items)
    ensures var n, x, r := |items|, LastAnswer(lib, v, root, o, base, items), RunVertex(lib, v, root, base, o);
            if AllAnswered(lib, v, root, o, base, items, n) && x.Some? then
              && LastEnv(lib, v, o, base, items).Some?
              && ImageResult(v, Answers(lib, v, root, o, base, items, n) + [x.value],
                             Inputs(lib, v, root, o, base, items, n)
                             + [Filter(v, root, LastEnv(lib, v, o, base, items).value)],
                             r)
            else r == Failure()
  {
    ImageExecution(lib, v, root, base, o, items);
    var n := |items|;
    if AllAnswered(lib, v, root, o, base, items, n) {
      ImageAnswersWithResponses(lib, v, root, o, base, items, n);
      ImageAfterLoop(lib, v, root, base, o, items, Answers(lib, v, root, o, base, items, n),
                     LoopState(lib, v, root, o, base, items, n, Image(map[], [])));
    }
  }
}
