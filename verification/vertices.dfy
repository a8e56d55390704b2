/** Vertex functions as nodes of a net: they write only what they declare, all or nothing,
    and Go's map orders do not show in their outcome. */
module Vertices {
  import opened Values
  import opened Outputs
  import opened Jq
  import opened Functions
  import opened Loop
  import opened Plans
  import opened RangeLoop
  import opened Isolation
  import opened Images
  import opened Requests
  import opened Meaning

  /** Whatever the input, the image gets the same request in every map order. */
  ghost predicate FixedRequests(lib: Lib, v: Vertex, root: string) {
    forall base, order :: IsOrder(order, v.fn.vars.Keys) && Resolve(lib.jq, v.fn.vars, order, base).Some? ==>
      SameRequest(lib, Filter(v, root, Resolve(lib.jq, v.fn.vars, order, base).value))
  }

  /** The conditions under which map orders cannot be observed. An image must not care about
      the order of the objects in a request, or always get the same request. */
  ghost predicate Steady(lib: Lib, vars: string -> set<string>, v: Vertex, root: string) {
    && Apart(lib, vars, v) && WellTyped(v.outputs)
    && (IsImage(v.fn.ftype) ==> OneKindPerVar(v) && (OrderBlind(lib, v.fn.image) || FixedRequests(lib, v, root)))
  }

  /** The order of the objects in the request on this input does not show. */
  ghost predicate RequestHidden(lib: Lib, v: Vertex, root: string, env: Env) {
    IsImage(v.fn.ftype) ==> OrderBlind(lib, v.fn.image) || SameRequest(lib, Filter(v, root, env))
  }

  /** Result fields that lead to the same final result. */
  ghost predicate Alike(r: Recorder, r': Recorder) {
    r == r' || (r.Image? && r'.Image? && r.errs != [] && r'.errs != [])
  }

  ghost predicate AlikeProgress(p: Option<Progress>, p': Option<Progress>) {
    && p.Some? == p'.Some?
    && (p.Some? ==> p.value.env == p'.value.env && p.value.runs == p'.value.runs && Alike(p.value.rec, p'.value.rec))
  }

  lemma GoodResponseOrderFree(v: Vertex, r: Recorder, resp: Response, order: seq<string>, order': seq<string>)
    requires r.Image? && OneKindPerVar(v) && GoodResponse(v, resp)
    requires IsOrder(order, resp.Keys) && IsOrder(order', resp.Keys)
    ensures RecordResponse(v, r, resp, order).out == RecordResponse(v, r, resp, order').out
  {
    ResponsePart(v, r, resp, order);
    ResponsePart(v, r, resp, order');
    var out, out' := RecordResponse(v, r, resp, order).out, RecordResponse(v, r, resp, order').out;
    forall x: string ensures Same(out, out', x) {
      if Visits(v, order', x) {
        SameVisits(v, resp, order', order, x);
      }
      if Visits(v, order, x) {
        var i :| 0 <= i < |order| && order[i] in v.gvkToVar && v.gvkToVar[order[i]] == x;
        assert order[i] in order';
        SameVisits(v, resp, order, order', x);
      }
    }
    SameEverywhere(out, out');
  }

  lemma SameVisits(v: Vertex, resp: Response, order: seq<string>, order': seq<string>, x: string)
    requires IsOrder(order, resp.Keys) && IsOrder(order', resp.Keys) && Visits(v, order, x)
    ensures Visits(v, order', x)
  {
    var i :| 0 <= i < |order| && order[i] in v.gvkToVar && v.gvkToVar[order[i]] == x;
    assert order[i] in order';
  }

  lemma AllKindsVisited(v: Vertex, resp: Response, order: seq<string>)
    requires IsOrder(order, resp.Keys)
    ensures (forall i :: 0 <= i < |order| ==> GoodKind(v, resp, order[i])) <==> GoodResponse(v, resp)
  {
    if forall i :: 0 <= i < |order| ==> GoodKind(v, resp, order[i]) {
      forall g | g in resp ensures GoodKind(v, resp, g) {
        assert g in order;
      }
    }
  }

  lemma RecordAlike(v: Vertex, r: Recorder, r': Recorder, x: RunOut,
                    order: seq<string>, order': seq<string>)
    requires Alike(r, r') && (r.Image? ==> OneKindPerVar(v))
    requires x.Ctx? ==> IsOrder(order, x.resp.Keys) && IsOrder(order', x.resp.Keys)
    ensures Alike(Record(v, r, x, order), Record(v, r', x, order'))
  {
    if r.Image? && x.Ctx? {
      ErrorsAreSticky(v, r, x.resp, order);
      ErrorsAreSticky(v, r', x.resp, order');
      AllKindsVisited(v, x.resp, order);
      AllKindsVisited(v, x.resp, order');
      if r == r' && GoodResponse(v, x.resp) {
        GoodResponseOrderFree(v, r, x.resp, order, order');
      }
    }
  }

  /** The result fields fit the function type. */
  ghost predicate Fits(v: Vertex, p: Option<Progress>) {
    p.Some? ==> (p.value.rec.Image? <==> IsImage(v.fn.ftype)) && (v.fn.ftype.BlockFn? ==> p.value.rec.Items?)
  }

  lemma RunOrderFree(lib: Lib, v: Vertex, env: Env, order: seq<string>, order': seq<string>, n: nat)
    requires IsOrder(order, env.Keys) && IsOrder(order', env.Keys)
    requires IsImage(v.fn.ftype) ==> OrderBlind(lib, v.fn.image) || SameRequest(lib, env)
    ensures Run(lib, v, env, order, n) == Run(lib, v, env, order', n)
  {
    if IsImage(v.fn.ftype) {
      if OrderBlind(lib, v.fn.image) {
        ImageOrderFree(lib, v, env, order, order', n);
      } else {
        assert BuiltRequest(lib, env, order) == BuiltRequest(lib, env, order');
      }
    }
  }

  lemma RunOnceAlike(lib: Lib, vars: string -> set<string>, v: Vertex, root: string, o: Orders, o': Orders, j: nat,
                     p: Progress, p': Progress)
    requires Steady(lib, vars, v, root) && RequestHidden(lib, v, root, p.env) && ValidOrders(o) && ValidOrders(o')
    requires AlikeProgress(Some(p), Some(p')) && Fits(v, Some(p))
    ensures AlikeProgress(RunOnce(lib, v, root, o, j, p), RunOnce(lib, v, root, o', j, p'))
    ensures Fits(v, RunOnce(lib, v, root, o, j, p))
  {
    var fi := Filter(v, root, p.env);
    RunOrderFree(lib, v, fi, EnvOrder(o, j, fi), EnvOrder(o', j, fi), j);
    var x := Run(lib, v, fi, EnvOrder(o, j, fi), j);
    if x.Some? {
      RecordAlike(v, p.rec, p'.rec, x.value, RespOrder(o, j, x.value), RespOrder(o', j, x.value));
    }
  }

  lemma ResolvedAlike(lib: Lib, vars: string -> set<string>, v: Vertex, o: Orders, o': Orders, j: nat, p: Progress,
                      p': Progress)
    requires Apart(lib, vars, v) && ValidOrders(o) && ValidOrders(o')
    requires AlikeProgress(Some(p), Some(p')) && Fits(v, Some(p))
    ensures AlikeProgress(Resolved(lib, v, o, j, p), Resolved(lib, v, o', j, p')) && Fits(v, Resolved(lib, v, o, j, p))
  {
    ResolveOrderFree(lib, vars, v, VarOrder(o, j, v), VarOrder(o', j, v), p.env);
  }

  /** Once the variables are resolved, the order of the request is hidden. */
  lemma ResolvedIsHidden(lib: Lib, vars: string -> set<string>, v: Vertex, root: string, o: Orders, j: nat, p: Progress)
    requires Steady(lib, vars, v, root) && ValidOrders(o)
    ensures var r := Resolved(lib, v, o, j, p); r.Some? ==> RequestHidden(lib, v, root, r.value.env)
  {
    assert IsOrder(VarOrder(o, j, v), v.fn.vars.Keys);
  }

  lemma TurnAlike(lib: Lib, vars: string -> set<string>, v: Vertex, root: string, o: Orders, o': Orders, n: nat,
                  item: Value, p: Progress, p': Progress)
    requires Steady(lib, vars, v, root) && ValidOrders(o) && ValidOrders(o')
    requires AlikeProgress(Some(p), Some(p')) && Fits(v, Some(p))
    ensures AlikeProgress(Turn(lib, v, root, o, n, item, p), Turn(lib, v, root, o', n, item, p'))
    ensures Fits(v, Turn(lib, v, root, o, n, item, p))
  {
    var q, q' := p.(env := Bind(p.env, item, n)), p'.(env := Bind(p'.env, item, n));
    ResolvedAlike(lib, vars, v, o, o', n, q, q');
    var r, r' := Resolved(lib, v, o, n, q), Resolved(lib, v, o', n, q');
    if r.Some? {
      ResolvedIsHidden(lib, vars, v, root, o, n, q);
      RunOnceAlike(lib, vars, v, root, o, o', n, r.value, r'.value);
    }
  }

  lemma {:induction false} TurnsAlike(lib: Lib, vars: string -> set<string>, v: Vertex, root: string, o: Orders,
                                      o': Orders,
                                      items: seq<Value>, n: nat, p: Progress)
    requires Steady(lib, vars, v, root) && ValidOrders(o) && ValidOrders(o') && n <= |items| && Fits(v, Some(p))
    ensures AlikeProgress(Turns(lib, v, root, o, items, n, p), Turns(lib, v, root, o', items, n, p))
    ensures Fits(v, Turns(lib, v, root, o, items, n, p))
  {
    if n > 0 {
      TurnsAlike(lib, vars, v, root, o, o', items, n - 1, p);
      var q, q' := Turns(lib, v, root, o, items, n - 1, p), Turns(lib, v, root, o', items, n - 1, p);
      if q.Some? {
        TurnAlike(lib, vars, v, root, o, o', n - 1, items[n - 1], q.value, q'.value);
      }
    }
  }

  lemma SingleTurnAlike(lib: Lib, vars: string -> set<string>, v: Vertex, root: string, o: Orders, o': Orders, j: nat,
                     p: Progress, p': Progress)
    requires Steady(lib, vars, v, root) && ValidOrders(o) && ValidOrders(o')
    requires AlikeProgress(Some(p), Some(p')) && Fits(v, Some(p))
    ensures AlikeProgress(SingleTurn(lib, v, root, o, j, p), SingleTurn(lib, v, root, o', j, p'))
    ensures Fits(v, SingleTurn(lib, v, root, o, j, p))
  {
    var q, q' := p.(rec := Reset(p.rec)), p'.(rec := Reset(p'.rec));
    ResolvedAlike(lib, vars, v, o, o', j, q, q');
    var r, r' := Resolved(lib, v, o, j, q), Resolved(lib, v, o', j, q');
    if r.Some? {
      ResolvedIsHidden(lib, vars, v, root, o, j, q);
      RunOnceAlike(lib, vars, v, root, o, o', j, r.value, r'.value);
    }
  }

  lemma FinishedAlike(v: Vertex, o: Orders, o': Orders, p: Option<Progress>, p': Option<Progress>)
    requires WellTyped(v.outputs) && ValidOrders(o) && ValidOrders(o') && AlikeProgress(p, p')
    ensures Finished(v, o, p) == Finished(v, o', p')
  {
    if p.Some? {
      var r := p.value.rec;
      match r {
        case Items(items) =>
          PublishTyped(v.outputs, Arr(items), OutOrder(o, v));
          PublishTyped(v.outputs, Arr(items), OutOrder(o', v));
        case Pairs(dict) =>
          PublishTyped(v.outputs, Obj(dict), OutOrder(o, v));
          PublishTyped(v.outputs, Obj(dict), OutOrder(o', v));
        case Last(x) =>
          PublishTyped(v.outputs, x, OutOrder(o, v));
          PublishTyped(v.outputs, x, OutOrder(o', v));
        case _ =>
      }
    }
  }

  /** The order in which Go walks variables, inputs, responses and outputs is invisible. */
  lemma VertexOrderFree(lib: Lib, vars: string -> set<string>, v: Vertex, root: string, env: Env, o: Orders, o': Orders)
    requires Steady(lib, vars, v, root) && ValidOrders(o) && ValidOrders(o')
    ensures RunVertex(lib, v, root, env, o) == RunVertex(lib, v, root, env, o')
  {
    var start := Progress(env, NewRecorder(v.fn.ftype), []);
    match PlanOf(lib.jq, v.fn.block, env) {
      case Once =>
        SingleTurnAlike(lib, vars, v, root, o, o', 0, start, start);
        FinishedAlike(v, o, o', SingleTurn(lib, v, root, o, 0, start), SingleTurn(lib, v, root, o', 0, start));
      case Over(items) =>
        LoopAlike(lib, vars, v, root, env, o, o', items);
      case _ =>
    }
  }

  lemma LoopAlike(lib: Lib, vars: string -> set<string>, v: Vertex, root: string, env: Env, o: Orders, o': Orders,
                  items: seq<Value>)
    requires Steady(lib, vars, v, root) && ValidOrders(o) && ValidOrders(o')
    requires PlanOf(lib.jq, v.fn.block, env) == Over(items)
    ensures Exec(lib, v, root, env, o) == Exec(lib, v, root, env, o')
  {
    var start := Progress(env, Reset(NewRecorder(v.fn.ftype)), []);
    TurnsAlike(lib, vars, v, root, o, o', items, |items|, start);
    var q, q' := Turns(lib, v, root, o, items, |items|, start), Turns(lib, v, root, o', items, |items|, start);
    if q.Some? {
      SingleTurnAlike(lib, vars, v, root, o, o', |items|, q.value, q'.value);
      FinishedAlike(v, o, o', SingleTurn(lib, v, root, o, |items|, q.value),
                    SingleTurn(lib, v, root, o', |items|, q'.value));
    }
  }

  // ------------------------------------------------------------------------- frame

  ghost predicate RecordedWithin(v: Vertex, r: Recorder) {
    r.Image? ==> r.out.Keys <= v.outputs.Keys
  }

  lemma RunOnceFrame(lib: Lib, v: Vertex, root: string, o: Orders, j: nat, p: Progress)
    requires ValidOrders(o) && RecordedWithin(v, p.rec) && Fits(v, Some(p))
    ensures var q := RunOnce(lib, v, root, o, j, p); (q.Some? ==> RecordedWithin(v, q.value.rec)) && Fits(v, q)
  {
    var fi := Filter(v, root, p.env);
    var x := Run(lib, v, fi, EnvOrder(o, j, fi), j);
    if x.Some? && x.value.Ctx? && p.rec.Image? {
      ResponseFrame(v, p.rec, x.value.resp, RespOrder(o, j, x.value));
    }
  }

  lemma {:induction false} TurnsFrame(lib: Lib, v: Vertex, root: string, o: Orders, items: seq<Value>, n: nat,
                                      p: Progress)
    requires ValidOrders(o) && n <= |items| && RecordedWithin(v, p.rec) && Fits(v, Some(p))
    ensures var q := Turns(lib, v, root, o, items, n, p); (q.Some? ==> RecordedWithin(v, q.value.rec)) && Fits(v, q)
  {
    if n > 0 {
      TurnsFrame(lib, v, root, o, items, n - 1, p);
      var q := Turns(lib, v, root, o, items, n - 1, p);
      if q.Some? && !items[n - 1].Null? {
        var r := Resolved(lib, v, o, n - 1, q.value.(env := Bind(q.value.env, items[n - 1], n - 1)));
        if r.Some? && ExecutesRange(v.fn.ftype) {
          RunOnceFrame(lib, v, root, o, n - 1, r.value);
        }
      }
    }
  }

  lemma FinishedFrame(v: Vertex, o: Orders, p: Option<Progress>)
    requires ValidOrders(o) && Fits(v, p) && (p.Some? ==> RecordedWithin(v, p.value.rec))
    ensures var r := Finished(v, o, p).outcome; r.out.Some? ==> r.out.value.Keys <= v.outputs.Keys
  {
    if p.Some? {
      match p.value.rec {
        case Items(items) => PublishPart(v.outputs, Arr(items), OutOrder(o, v), map[]);
        case Pairs(dict) => PublishPart(v.outputs, Obj(dict), OutOrder(o, v), map[]);
        case Last(x) => PublishPart(v.outputs, x, OutOrder(o, v), map[]);
        case _ =>
      }
    }
  }

  lemma SingleTurnFrame(lib: Lib, v: Vertex, root: string, o: Orders, j: nat, p: Progress)
    requires ValidOrders(o) && RecordedWithin(v, p.rec) && Fits(v, Some(p))
    ensures var q := SingleTurn(lib, v, root, o, j, p); (q.Some? ==> RecordedWithin(v, q.value.rec)) && Fits(v, q)
  {
    var r := Resolved(lib, v, o, j, p.(rec := Reset(p.rec)));
    if r.Some? && ExecutesSingle(v.fn.ftype) {
      RunOnceFrame(lib, v, root, o, j, r.value);
    }
  }

  /** Whatever happens, a vertex writes declared variables only; a block writes none. */
  lemma VertexFrame(lib: Lib, v: Vertex, root: string, env: Env, o: Orders)
    requires ValidOrders(o)
    ensures var r := RunVertex(lib, v, root, env, o).outcome;
            r.out.Some? ==> r.out.value.Keys <= v.outputs.Keys && (v.fn.ftype.BlockFn? ==> r.out.value == map[])
  {
    var start := Progress(env, NewRecorder(v.fn.ftype), []);
    match PlanOf(lib.jq, v.fn.block, env) {
      case Once =>
        SingleTurnFrame(lib, v, root, o, 0, start);
        FinishedFrame(v, o, SingleTurn(lib, v, root, o, 0, start));
        BlockPublishesNothing(lib, v, root, o, 0, start);
      case Over(items) =>
        var begin := start.(rec := Reset(start.rec));
        TurnsFrame(lib, v, root, o, items, |items|, begin);
        var q := Turns(lib, v, root, o, items, |items|, begin);
        if q.Some? {
          SingleTurnFrame(lib, v, root, o, |items|, q.value);
          FinishedFrame(v, o, SingleTurn(lib, v, root, o, |items|, q.value));
          BlockPublishesNothing(lib, v, root, o, |items|, q.value);
        }
      case _ =>
    }
  }

  lemma BlockPublishesNothing(lib: Lib, v: Vertex, root: string, o: Orders, j: nat, p: Progress)
    requires ValidOrders(o) && Fits(v, Some(p))
    ensures v.fn.ftype.BlockFn? ==>
              var r := Finished(v, o, SingleTurn(lib, v, root, o, j, p)).outcome; r.out.Some? ==> r.out.value == map[]
  {
    if v.fn.ftype.BlockFn? {
      var r := Resolved(lib, v, o, j, p.(rec := Reset(p.rec)));
      if r.Some? {
        assert SingleTurn(lib, v, root, o, j, p) == RunOnce(lib, v, root, o, j, r.value);
      }
    }
  }

  /** Run errors, false conditions and empty ranges leave no trace in the store: an error
      comes with an output only when the pipeline declares an entry of a foreign type. */
  lemma AllOrNothing(lib: Lib, v: Vertex, root: string, env: Env, o: Orders)
    requires ValidOrders(o) && WellTyped(v.outputs)
    ensures var r := RunVertex(lib, v, root, env, o).outcome;
            && (r.err.Some? ==> r.out.None? || r.out.value == map[])
            && (r.out.None? && r.err.None? <==>
                  !v.fn.ftype.OtherFn? && Admits(lib.jq, v.fn.block, env) && Offers(lib.jq, v.fn.block, env, []))
            && (r.err == Some(ConditionFalse) <==>
                  !v.fn.ftype.OtherFn? && Evaluates(lib.jq, v.fn.block.range, env)
                  && Decides(lib.jq, v.fn.block, env, false))
  {
    PlanExact(lib.jq, v.fn.block, env);
    var start := Progress(env, NewRecorder(v.fn.ftype), []);
    match PlanOf(lib.jq, v.fn.block, env) {
      case Once =>
        FinishedIsAtomic(v, o, SingleTurn(lib, v, root, o, 0, start));
      case Over(items) =>
        var q := Turns(lib, v, root, o, items, |items|, start.(rec := Reset(start.rec)));
        FinishedIsAtomic(v, o, if q.None? then None else SingleTurn(lib, v, root, o, |items|, q.value));
      case _ =>
    }
  }

  /** A vertex writes declared variables only, and nothing on an error or when it is turned
      down. */
  lemma WritesAtomically(lib: Lib, v: Vertex, root: string, env: Env, o: Orders)
    requires ValidOrders(o) && WellTyped(v.outputs)
    ensures var r := RunVertex(lib, v, root, env, o).outcome;
            r.out.Some? ==>
              && r.out.value.Keys <= v.outputs.Keys
              && (r.err.Some? || TurnsDown(lib.jq, v.fn.block, env) ==> r.out.value == map[])
  {
    VertexFrame(lib, v, root, env, o);
    AllOrNothing(lib, v, root, env, o);
    PlanExact(lib.jq, v.fn.block, env);
  }

  lemma FinishedIsAtomic(v: Vertex, o: Orders, p: Option<Progress>)
    requires ValidOrders(o) && WellTyped(v.outputs)
    ensures var r := Finished(v, o, p).outcome; r.out.None? == r.err.Some? && (r.err.Some? ==> r.err == Some(Failed))
  {
    if p.Some? {
      match p.value.rec {
        case Items(items) => PublishTyped(v.outputs, Arr(items), OutOrder(o, v));
        case Pairs(dict) => PublishTyped(v.outputs, Obj(dict), OutOrder(o, v));
        case Last(x) => PublishTyped(v.outputs, x, OutOrder(o, v));
        case _ =>
      }
    }
  }

  /** With a foreign entry atomicity is lost: publication fails, and part of the outputs is
      handed to the store anyway unless the foreign entry happens to be visited first. */
  lemma PartialPublication(outputs: Store, data: Value, order: seq<string>)
    requires IsOrder(order, outputs.Keys) && !WellTyped(outputs)
    ensures var r := PublishAlong(outputs, data, order, map[]);
            && r.err == Some(Failed) && r.out.Some? && order != []
            && (r.out.value == map[] <==> outputs[order[0]].Foreign?)
  {
    var k :| k in outputs && outputs[k].Foreign?;
    assert k in order;
    PublishPart(outputs, data, order, map[]);
    if outputs[order[0]].Info? {
      PublishKeeps(outputs, data, order[1..], map[order[0] := Published(outputs[order[0]].info, data)], order[0]);
    }
  }

  /** Whatever order Go visits the declared outputs in, an error leaves nothing behind. */
  ghost predicate Atomic(outputs: Store, data: Value) {
    forall order :: IsOrder(order, outputs.Keys) && PublishAlong(outputs, data, order, map[]).err.Some? ==>
      PublishAlong(outputs, data, order, map[]).out == Some(map[])
  }

  /** Publication is atomic in every order iff the declared entries are all of the proper type
      or all foreign. */
  lemma AtomicExact(outputs: Store, data: Value)
    ensures Atomic(outputs, data) <==> WellTyped(outputs) || forall k :: k in outputs ==> outputs[k].Foreign?
  {
    forall order | IsOrder(order, outputs.Keys)
      ensures PublishAlong(outputs, data, order, map[]).err.None? <==> WellTyped(outputs)
      ensures !WellTyped(outputs) ==>
                && PublishAlong(outputs, data, order, map[]).out.Some?
                && order != [] && order[0] in outputs
                && (PublishAlong(outputs, data, order, map[]).out.value == map[] <==> outputs[order[0]].Foreign?) {
      if WellTyped(outputs) {
        PublishTyped(outputs, data, order);
      } else {
        PartialPublication(outputs, data, order);
      }
    }
    if k :| k in outputs && outputs[k].Info? {
      var order := SomeFirst(outputs.Keys, k);
      assert IsOrder(order, outputs.Keys);
    }
  }

  lemma {:induction false} PublishKeeps(outputs: Store, data: Value, order: seq<string>, o: Store, k: string)
    requires (forall i :: 0 <= i < |order| ==> order[i] in outputs) && k in o
    ensures PublishAlong(outputs, data, order, o).out.Some? && k in PublishAlong(outputs, data, order, o).out.value
    decreases |order|
  {
    if order != [] && outputs[order[0]].Info? {
      PublishKeeps(outputs, data, order[1..], o[order[0] := Published(outputs[order[0]].info, data)], k);
    }
  }
}
