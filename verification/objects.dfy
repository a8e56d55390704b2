/** Function objects as they are at work: result fields that the generic loop resets, fills
    and publishes through, loops over Go maps in a given order, and an Input mutated from
    the first range item to the last. Every method is tied to the pure semantics. */
module FunctionObjects {
  import opened Values
  import opened Outputs
  import opened Stores
  import opened Jq
  import opened Functions
  import opened Loop

  // -------------------------------------------------------------------- sub-steps

  /** What was collected so far, followed by the rest if that can be had at all. */
  function Joined(sent: seq<Value>, rest: Option<seq<Value>>): Option<seq<Value>> {
    if rest.None? then None else Some(sent + rest.value)
  }

  lemma JoinedTwice(sent: seq<Value>, first: seq<Value>, rest: Option<seq<Value>>)
    ensures Joined(sent, Joined(first, rest)) == Joined(sent + first, rest)
    ensures Joined([], rest) == rest
    ensures Joined(sent, Some([])) == Some(sent)
  {
    if rest.Some? {
      assert sent + (first + rest.value) == sent + first + rest.value;
      assert [] + rest.value == rest.value;
    }
    assert sent + [] == sent;
  }

  lemma RequestNext(lib: Lib, env: Env, order: seq<string>, n: nat, sent: seq<Value>)
    requires n < |order| && forall i :: 0 <= i < |order| ==> order[i] in env
    ensures var first := VarObjects(lib, env[order[n]]);
            Joined(sent, RequestAlong(lib, env, order[n..]))
            == if first.None? then None else Joined(sent + first.value, RequestAlong(lib, env, order[n + 1..]))
  {
    assert order[n..][0] == order[n] && order[n..][1..] == order[n + 1..];
    var first := VarObjects(lib, env[order[n]]);
    if first.Some? {
      JoinedTwice(sent, first.value, RequestAlong(lib, env, order[n + 1..]));
    }
  }

  lemma ListNext(lib: Lib, xs: seq<Value>, n: nat, inner: bool, sent: seq<Value>)
    requires n < |xs|
    ensures var first := ElementObjects(lib, xs[n], inner);
            Joined(sent, ListObjects(lib, xs[n..], inner))
            == if first.None? then None else Joined(sent + first.value, ListObjects(lib, xs[n + 1..], inner))
  {
    assert xs[n..][0] == xs[n] && xs[n..][1..] == xs[n + 1..];
    var first := ElementObjects(lib, xs[n], inner);
    if first.Some? {
      JoinedTwice(sent, first.value, ListObjects(lib, xs[n + 1..], inner));
    }
  }

  lemma ResolveNext(jq: Evaluator, vars: map<string, string>, order: seq<string>, n: nat, env: Env)
    requires n < |order| && forall i :: 0 <= i < |order| ==> order[i] in vars
    ensures var v := RunJq(jq, vars[order[n]], env);
            Resolve(jq, vars, order[n..], env)
            == if v.None? then None else Resolve(jq, vars, order[n + 1..], env[order[n] := v.value])
  {
    assert order[n..][0] == order[n] && order[n..][1..] == order[n + 1..];
  }

  lemma PublishNext(outputs: Store, data: Value, order: seq<string>, n: nat, o: Store)
    requires n < |order| && forall i :: 0 <= i < |order| ==> order[i] in outputs
    ensures PublishAlong(outputs, data, order[n..], o)
            == if outputs[order[n]].Foreign? then Outcome(Some(o), Some(Failed))
               else PublishAlong(outputs, data, order[n + 1..], o[order[n] := Published(outputs[order[n]].info, data)])
  {
    assert order[n..][0] == order[n] && order[n..][1..] == order[n + 1..];
  }

  lemma DecodedNext(raws: seq<Raw>, n: nat)
    requires n < |raws|
    ensures Decoded(raws[n..]) == if Usable(raws[n]) then [raws[n].fields.value] + Decoded(raws[n + 1..]) else []
    ensures AllUsable(raws[n..]) == (Usable(raws[n]) && AllUsable(raws[n + 1..]))
  {
    assert raws[n..][0] == raws[n] && raws[n..][1..] == raws[n + 1..];
    assert raws[n..] == [raws[n]] + raws[n + 1..];
  }

  /** What one kind of a response does to the result fields; None ends the loop there. */
  function KindStep(v: Vertex, r: Recorder, resp: Response, g: string): (Recorder, bool)
    requires r.Image? && g in resp
  {
    if g !in v.gvkToVar then (r, true) else
      var errs := if AllUsable(resp[g]) then r.errs else r.errs + [Undecodable];
      var x := v.gvkToVar[g];
      if x !in v.outputs then (Image(r.out, errs + [UnknownVar]), false)
      else if v.outputs[x].Foreign? then (Image(r.out, errs + [WrongEntry]), false)
      else (Image(r.out[x := Published(v.outputs[x].info, Arr(Decoded(resp[g])))], errs), true)
  }

  lemma ResponseNext(v: Vertex, r: Recorder, resp: Response, order: seq<string>, n: nat)
    requires r.Image? && n < |order| && forall i :: 0 <= i < |order| ==> order[i] in resp
    ensures var (r', more) := KindStep(v, r, resp, order[n]);
            r'.Image? && RecordResponse(v, r, resp, order[n..])
            == if more then RecordResponse(v, r', resp, order[n + 1..]) else r'
  {
    assert order[n..][0] == order[n] && order[n..][1..] == order[n + 1..];
  }

  lemma EmptyOrder<V>(order: seq<string>, m: map<string, V>)
    requires IsOrder(order, m.Keys)
    ensures order == [] <==> m == map[]
    ensures forall k :: k in order <==> k in m
  {
    if m != map[] {
      var k :| k in m;
      assert k in order;
    }
    if order != [] {
      assert order[0] in m.Keys;
    }
  }

  // ------------------------------------------------------------- building requests

  /** The resources under construction, per kind; `sent` remembers the order of addition. */
  class Resources {
    const lib: Lib
    var byKind: Request
    ghost var sent: seq<Value>

    constructor (lib: Lib)
      ensures this.lib == lib && sent == [] && Valid()
    {
      this.lib := lib;
      byKind, sent := map[], [];
    }

    ghost predicate Valid()
      reads this
    {
      byKind == Grouped(lib, sent)
    }

    method AddResource(x: Value)
      requires Valid()
      modifies this
      ensures Valid() && sent == old(sent) + [x]
    {
      var before := if lib.kindOf(x) in byKind then byKind[lib.kindOf(x)] else [];
      byKind := byKind[lib.kindOf(x) := before + [x]];
      assert (sent + [x])[..|sent|] == sent;
      sent := sent + [x];
    }

    method AddInnerList(xs: seq<Value>) returns (ok: bool)
      requires Valid()
      modifies this
      ensures Valid()
      ensures var more := ListObjects(lib, xs, true); ok == more.Some? && (ok ==> sent == old(sent) + more.value)
    {
      assert xs[0..] == xs;
      for n := 0 to |xs|
        invariant Valid()
        invariant Joined(old(sent), ListObjects(lib, xs, true)) == Joined(sent, ListObjects(lib, xs[n..], true))
      {
        ListNext(lib, xs, n, true, sent);
        match xs[n] {
          case Obj(_) =>
            if !lib.accepts(xs[n]) {
              return false;
            }
            AddResource(xs[n]);
          case _ => return false;
        }
      }
      JoinedTwice(sent, [], None);
      return true;
    }

    method AddList(xs: seq<Value>) returns (ok: bool)
      requires Valid()
      modifies this
      ensures Valid()
      ensures var more := ListObjects(lib, xs, false); ok == more.Some? && (ok ==> sent == old(sent) + more.value)
    {
      assert xs[0..] == xs;
      for n := 0 to |xs|
        invariant Valid()
        invariant Joined(old(sent), ListObjects(lib, xs, false)) == Joined(sent, ListObjects(lib, xs[n..], false))
      {
        ListNext(lib, xs, n, false, sent);
        match xs[n] {
          case Obj(_) =>
            if !lib.accepts(xs[n]) {
              return false;
            }
            AddResource(xs[n]);
          case Arr(ys) =>
            var inner := AddInnerList(ys);
            if !inner {
              return false;
            }
          case _ => return false;
        }
      }
      JoinedTwice(sent, [], None);
      return true;
    }

    /** All variables of the input in the given order. */
    method AddInput(env: Env, order: seq<string>) returns (ok: bool)
      requires Valid() && forall n :: 0 <= n < |order| ==> order[n] in env
      modifies this
      ensures Valid()
      ensures var more := RequestAlong(lib, env, order); ok == more.Some? && (ok ==> sent == old(sent) + more.value)
    {
      assert order[0..] == order;
      for n := 0 to |order|
        invariant Valid()
        invariant Joined(old(sent), RequestAlong(lib, env, order)) == Joined(sent, RequestAlong(lib, env, order[n..]))
      {
        RequestNext(lib, env, order, n, sent);
        match env[order[n]] {
          case Obj(_) =>
            if !lib.accepts(env[order[n]]) {
              return false;
            }
            AddResource(env[order[n]]);
          case Arr(xs) =>
            var inner := AddList(xs);
            if !inner {
              return false;
            }
          case _ => return false;
        }
      }
      JoinedTwice(sent, [], None);
      return true;
    }
  }

  method BuildRequest(lib: Lib, i: Input, order: seq<string>) returns (request: Option<Request>)
    requires forall n :: 0 <= n < |order| ==> order[n] in i.entries
    ensures request == BuiltRequest(lib, i.entries, order)
  {
    var resources := new Resources(lib);
    var ok := resources.AddInput(i.entries, order);
    if !ok {
      return None;
    }
    assert resources.sent == RequestAlong(lib, i.entries, order).value;
    return Some(resources.byKind);
  }

  // ------------------------------------------------------------------ the object

  ghost predicate Delivers(out: Output?, err: Option<Error>, r: Outcome)
    reads out
  {
    (out == null <==> r.out.None?) && (out != null ==> r.out == Some(out.entries)) && err == r.err
  }

  class Fn {
    const lib: Lib
    const v: Vertex
    const root: string
    var rec: Recorder
    ghost var runs: seq<Env>

    constructor (lib: Lib, v: Vertex, root: string)
      ensures this.lib == lib && this.v == v && this.root == root
      ensures rec == NewRecorder(v.fn.ftype) && runs == []
    {
      this.lib, this.v, this.root := lib, v, root;
      rec := NewRecorder(v.fn.ftype);
      runs := [];
    }

    /** How far the execution on input `i` has come. */
    ghost function At(i: Input): Progress
      reads this, i
    {
      Progress(i.entries, rec, runs)
    }

    method InitOutput()
      modifies this`rec
      ensures rec == Reset(old(rec))
    {
      match rec {
        case Items(_) => rec := Items([]);
        case Pairs(_) => rec := Pairs(map[]);
        case Image(_, errs) => rec := Image(map[], errs);
        case _ =>
      }
    }

    /** The inner loop of filterInput: the local variables against one input variable. */
    method FilterVar(i: Input, fi: Input, varName: string, varOrder: seq<string>)
      requires IsOrder(varOrder, v.fn.vars.Keys) && i != fi && varName in i.entries
      modifies fi
      ensures fi.entries == if v.fn.vars != map[] && (varName in v.fn.vars || varName == root)
                            then old(fi.entries)[varName := i.entries[varName]] else old(fi.entries)
    {
      EmptyOrder(varOrder, v.fn.vars);
      for m := 0 to |varOrder|
        invariant fi.entries == if varName in varOrder[..m] || (m > 0 && varName == root)
                                then old(fi.entries)[varName := i.entries[varName]] else old(fi.entries)
      {
        assert varOrder[..m + 1] == varOrder[..m] + [varOrder[m]];
        if varName == varOrder[m] {
          fi.AddEntry(varName, i.entries[varName]);
        } else if varName == root {
          fi.AddEntry(varName, i.entries[varName]);
        }
      }
      assert varOrder[..|varOrder|] == varOrder;
    }

    method FilterInput(i: Input, order: seq<string>, varOrder: seq<string>) returns (fi: Input)
      requires IsOrder(order, i.entries.Keys) && IsOrder(varOrder, v.fn.vars.Keys)
      ensures fi.entries == Filter(v, root, i.entries)
      ensures fi == i || fresh(fi)
    {
      if !IsImage(v.fn.ftype) {
        return i;
      }
      fi := new Input();
      for n := 0 to |order|
        invariant fresh(fi)
        invariant forall k :: k in fi.entries <==> k in order[..n] && k in FilterImage(v.fn.vars, root, i.entries)
        invariant forall k :: k in fi.entries ==> fi.entries[k] == i.entries[k]
      {
        assert order[..n + 1] == order[..n] + [order[n]];
        FilterVar(i, fi, order[n], varOrder);
      }
      EmptyOrder(order, i.entries);
      assert order[..|order|] == order;
    }

    method RunImage(fi: Input, order: seq<string>, n: nat) returns (x: Option<RunOut>)
      requires forall m :: 0 <= m < |order| ==> order[m] in fi.entries
      ensures x == Functions.RunImage(lib, v, fi.entries, order, n)
    {
      var request := BuildRequest(lib, fi, order);
      if request.None? {
        return None;
      }
      var resp := lib.execute(Call(v.name, n, v.fn.image, request.value));
      return if resp.None? then None else Some(Ctx(resp.value));
    }

    /** The key/value pair of one item: the value is computed first, the key must be text. */
    method RunMap(fi: Input) returns (x: Option<RunOut>)
      ensures x == RunPair(lib, v.fn.input.key, v.fn.input.value, fi.entries)
    {
      if v.fn.input.value == "" {
        return None;
      }
      if v.fn.input.key == "" {
        return None;
      }
      var valueProgram := lib.jq(v.fn.input.value, fi.entries);
      if valueProgram.Rejected? {
        return None;
      }
      var keyProgram := lib.jq(v.fn.input.key, fi.entries);
      if keyProgram.Rejected? {
        return None;
      }
      var value := First(valueProgram);
      if value.None? {
        return None;
      }
      var key := First(keyProgram);
      if key.None? {
        return None;
      }
      match key.value {
        case Str(s) => return Some(Pair(s, value.value));
        case _ => return None;
      }
    }

    /** One run on a filtered input, the n-th; a block's nested execution is the engine's
        business. */
    method Run(fi: Input, order: seq<string>, n: nat) returns (x: Option<RunOut>)
      requires forall m :: 0 <= m < |order| ==> order[m] in fi.entries
      modifies this`runs
      ensures x == Functions.Run(lib, v, fi.entries, order, n)
      ensures runs == old(runs) + [fi.entries]
    {
      runs := runs + [fi.entries];
      match v.fn.ftype {
        case SliceFn =>
          if v.fn.input.value == "" {
            return None;
          }
          return Lift(First(lib.jq(v.fn.input.value, fi.entries)));
        case MapFn => x := RunMap(fi);
        case JqFn =>
          var r := CollectJq(lib.jq, v.fn.input.expression, fi.entries);
          return Lift(r);
        case QueryFn => return Lift(lib.list(v.fn.input.resource));
        case GoTemplateFn =>
          var t := if v.fn.input.resource != "" then v.fn.input.resource else v.fn.input.template;
          if t == "" {
            return None;
          }
          return Lift(lib.template(t, fi.entries));
        case WasmFn => x := RunImage(fi, order, n);
        case ContainerFn => x := RunImage(fi, order, n);
        case BlockFn => return if v.blockRoot.None? then None else Some(Unit);
        case _ => return None;
      }
    }

    method DecodeKind(raws: seq<Raw>) returns (krm: seq<Value>)
      requires rec.Image?
      modifies this`rec
      ensures krm == Decoded(raws)
      ensures rec == Image(old(rec).out, if AllUsable(raws) then old(rec).errs else old(rec).errs + [Undecodable])
    {
      krm := [];
      assert raws[0..] == raws;
      for n := 0 to |raws|
        invariant rec == old(rec)
        invariant Decoded(raws) == krm + Decoded(raws[n..]) && AllUsable(raws) == AllUsable(raws[n..])
      {
        DecodedNext(raws, n);
        if !raws[n].hasKind {
          rec := Image(rec.out, rec.errs + [Undecodable]);
          return;
        }
        if raws[n].fields.None? {
          rec := Image(rec.out, rec.errs + [Undecodable]);
          return;
        }
        krm := krm + [raws[n].fields.value];
      }
    }

    method RecordKind(resp: Response, g: string) returns (more: bool)
      requires rec.Image? && g in resp
      modifies this`rec
      ensures (rec, more) == KindStep(v, old(rec), resp, g)
    {
      if g !in v.gvkToVar {
        return true;
      }
      var krm := DecodeKind(resp[g]);
      var varName := v.gvkToVar[g];
      if varName !in v.outputs {
        rec := Image(rec.out, rec.errs + [UnknownVar]);
        return false;
      }
      match v.outputs[varName] {
        case Foreign =>
          rec := Image(rec.out, rec.errs + [WrongEntry]);
          return false;
        case Info(oi) =>
          rec := Image(rec.out[varName := Published(oi, Arr(krm))], rec.errs);
          return true;
      }
    }

    method RecordOutput(x: RunOut, order: seq<string>)
      requires rec.Image? && x.Ctx? ==> forall n :: 0 <= n < |order| ==> order[n] in x.resp
      modifies this`rec
      ensures rec == Record(v, old(rec), x, order)
    {
      match rec {
        case Nothing =>
        case Items(items) => rec := Items(items + [if x.Single? then x.v else Null]);
        case Pairs(dict) =>
          if x.Pair? {
            rec := Pairs(dict[x.key := x.v]);
          }
        case Last(_) => rec := Last(if x.Single? then x.v else Null);
        case Image(out, errs) =>
          if !x.Ctx? {
            rec := Image(out, errs + [WrongType]);
            return;
          }
          assert order[0..] == order;
          for n := 0 to |order|
            invariant rec.Image?
            invariant RecordResponse(v, old(rec), x.resp, order) == RecordResponse(v, rec, x.resp, order[n..])
          {
            ResponseNext(v, rec, x.resp, order, n);
            var more := RecordKind(x.resp, order[n]);
            if !more {
              return;
            }
          }
      }
    }

    method Publish(data: Value, order: seq<string>) returns (out: Output, err: Option<Error>)
      requires forall n :: 0 <= n < |order| ==> order[n] in v.outputs
      ensures fresh(out) && Delivers(out, err, PublishAlong(v.outputs, data, order, map[]))
    {
      out := new Output();
      assert order[0..] == order;
      for n := 0 to |order|
        invariant fresh(out)
        invariant PublishAlong(v.outputs, data, order, map[]) == PublishAlong(v.outputs, data, order[n..], out.entries)
      {
        PublishNext(v.outputs, data, order, n, out.entries);
        match v.outputs[order[n]] {
          case Foreign => return out, Some(Failed);
          case Info(oi) => out.AddEntry(order[n], Published(oi, data));
        }
      }
      return out, None;
    }

    method GetFinalResult(order: seq<string>) returns (out: Output?, err: Option<Error>)
      requires forall n :: 0 <= n < |order| ==> order[n] in v.outputs
      ensures out == null || fresh(out)
      ensures Delivers(out, err, FinalResult(v, rec, order))
    {
      match rec {
        case Nothing =>
          out := new Output();
          return out, None;
        case Items(items) =>
          if v.fn.ftype.BlockFn? {
            out := new Output();
            return out, None;
          }
          out, err := Publish(Arr(items), order);
        case Pairs(dict) => out, err := Publish(Obj(dict), order);
        case Last(x) => out, err := Publish(x, order);
        case Image(o, errs) =>
          if |errs| > 0 {
            return null, Some(Failed);
          }
          out := new Output();
          out.entries := o;
          return out, None;
      }
    }

    // ------------------------------------------------------------ the generic loop

    method ResolveLocalVars(i: Input, order: seq<string>) returns (ok: bool)
      requires forall n :: 0 <= n < |order| ==> order[n] in v.fn.vars
      modifies i
      ensures var e := Resolve(lib.jq, v.fn.vars, order, old(i.entries)); ok == e.Some? && (ok ==> i.entries == e.value)
    {
      assert order[0..] == order;
      for n := 0 to |order|
        invariant Resolve(lib.jq, v.fn.vars, order, old(i.entries)) == Resolve(lib.jq, v.fn.vars, order[n..], i.entries)
      {
        ResolveNext(lib.jq, v.fn.vars, order, n, i.entries);
        var r := CollectJq(lib.jq, v.fn.vars[order[n]], i.entries);
        if r.None? {
          return false;
        }
        i.AddEntry(order[n], r.value);
      }
      return true;
    }

    /** What range and condition ask for. */
    method MakePlan(i: Input) returns (plan: Plan)
      ensures plan == PlanOf(lib.jq, v.fn.block, i.entries)
    {
      var items: seq<Value>, isRange := [], false;
      if v.fn.block.range.Some? {
        var r := RunRange(lib.jq, v.fn.block.range.value, i.entries);
        if r.None? {
          return Broken;
        }
        items, isRange := r.value, true;
      }
      if v.fn.block.condition.Some? {
        var c := v.fn.block.condition.value;
        if c.expression != "" {
          var met := Condition(lib.jq(c.expression, i.entries));
          if met.None? {
            return Broken;
          }
          if !met.value {
            return Unmet;
          }
        }
        if c.range.Some? {
          var r := RunRange(lib.jq, c.range.value, i.entries);
          if r.None? {
            return Broken;
          }
          items, isRange := r.value, true;
        }
      }
      return if !isRange then Once else if |items| == 0 then Empty else Over(items);
    }

    /** Filter, run and record; `j` numbers the resolution it follows. */
    method RunAndRecord(i: Input, o: Orders, j: nat) returns (ok: bool)
      requires ValidOrders(o)
      modifies this
      ensures var p := RunOnce(lib, v, root, o, j, old(At(i))); ok == p.Some? && (ok ==> At(i) == p.value)
    {
      var fi := FilterInput(i, o(4 * j + 1, i.entries.Keys), VarOrder(o, j, v));
      var x := Run(fi, EnvOrder(o, j, fi.entries), j);
      if x.None? {
        return false;
      }
      RecordOutput(x.value, RespOrder(o, j, x.value));
      return true;
    }

    method ResolveTurn(i: Input, o: Orders, j: nat) returns (ok: bool)
      requires ValidOrders(o)
      modifies i
      ensures var p := Resolved(lib, v, o, j, old(At(i))); ok == p.Some? && (ok ==> At(i) == p.value)
    {
      ok := ResolveLocalVars(i, VarOrder(o, j, v));
    }

    method TakeItem(i: Input, o: Orders, n: nat, item: Value) returns (ok: bool)
      requires ValidOrders(o)
      modifies this, i
      ensures var p := Turn(lib, v, root, o, n, item, old(At(i))); ok == p.Some? && (ok ==> At(i) == p.value)
    {
      if item.Null? {
        return true;
      }
      i.AddEntry("VALUE", item);
      i.AddEntry("KEY", Str(Decimal(n)));
      i.AddEntry("INDEX", Num(n));
      ok := ResolveTurn(i, o, n);
      if !ok || !ExecutesRange(v.fn.ftype) {
        return;
      }
      ok := RunAndRecord(i, o, n);
    }

    /** One Input, mutated item by item. */
    method RangeLoop(i: Input, o: Orders, items: seq<Value>) returns (ok: bool)
      requires ValidOrders(o)
      modifies this, i
      ensures var p := Turns(lib, v, root, o, items, |items|, old(At(i))); ok == p.Some? && (ok ==> At(i) == p.value)
    {
      for n := 0 to |items|
        invariant Turns(lib, v, root, o, items, n, old(At(i))) == Some(At(i))
      {
        ok := TakeItem(i, o, n, items[n]);
        if !ok {
          TurnsFail(lib, v, root, o, items, n + 1, |items|, old(At(i)));
          return;
        }
      }
      return true;
    }
  }

  lemma {:induction false} TurnsFail(lib: Lib, v: Vertex, root: string, o: Orders, items: seq<Value>, n: nat, m: nat,
                                     p: Progress)
    requires ValidOrders(o) && n <= m <= |items| && Turns(lib, v, root, o, items, n, p).None?
    ensures Turns(lib, v, root, o, items, m, p).None?
    decreases m
  {
    if n < m {
      TurnsFail(lib, v, root, o, items, n, m - 1, p);
    }
  }
}
