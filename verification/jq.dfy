/** How the results of a jq program are consumed. The evaluator itself is a library: a
    function from expression text and variables to a rejected program or a finite stream
    of results, some of which may be errors. */
module Jq {
  import opened Values

  /** One call of the iterator's Next; `nullIteration` marks the error whose text contains
      "cannot iterate over: null". */
  datatype Next = Yield(v: Value) | Fault(nullIteration: bool)

  /** A parse or compile error, or what the iterator delivers. */
  datatype Program = Rejected | Stream(outs: seq<Next>)

  type Evaluator = (string, Env) -> Program

  /** The values delivered before the first error. */
  function Delivered(outs: seq<Next>): (vs: seq<Value>)
    ensures |vs| <= |outs|
  {
    if outs == [] || outs[0].Fault? then [] else [outs[0].v] + Delivered(outs[1..])
  }

  /** No error, or the tolerated one first. */
  function EndsWell(outs: seq<Next>): bool {
    if outs == [] then true
    else if outs[0].Fault? then outs[0].nullIteration
    else EndsWell(outs[1..])
  }

  function NonNull(vs: seq<Value>): seq<Value> {
    if vs == [] then [] else (if vs[0].Null? then [] else [vs[0]]) + NonNull(vs[1..])
  }

  function RangeItems(p: Program): Option<seq<Value>> {
    if p.Stream? && EndsWell(p.outs) then Some(NonNull(Delivered(p.outs))) else None
  }

  function RunJq(jq: Evaluator, exp: string, env: Env): Option<Value> {
    if exp == "" then None else
      var p := jq(exp, env);
      if p.Stream? && EndsWell(p.outs) then Some(Arr(Delivered(p.outs))) else None
  }

  function First(p: Program): Option<Value> {
    if p.Stream? && p.outs != [] && p.outs[0].Yield? then Some(p.outs[0].v) else None
  }

  function Condition(p: Program): Option<bool> {
    var r := First(p);
    if r.Some? && r.value.Bool? then Some(r.value.b) else None
  }

  /** The stream is cut at the first error; the cut decides success. */
  lemma {:induction false} StreamIsCutAtFirstFault(outs: seq<Next>)
    ensures var n := |Delivered(outs)|;
            && (forall i :: 0 <= i < n ==> outs[i] == Yield(Delivered(outs)[i]))
            && (n < |outs| ==> outs[n].Fault?)
            && (EndsWell(outs) <==> n == |outs| || outs[n].nullIteration)
  {
    if outs != [] && outs[0].Yield? {
      StreamIsCutAtFirstFault(outs[1..]);
    }
  }

  lemma {:induction false} NonNullIsFiltering(vs: seq<Value>, ws: seq<Value>)
    ensures NonNull(vs + ws) == NonNull(vs) + NonNull(ws)
  {
    if vs == [] {
      assert vs + ws == ws;
    } else {
      NonNullIsFiltering(vs[1..], ws);
      assert (vs + ws)[1..] == vs[1..] + ws;
      var head := if vs[0].Null? then [] else [vs[0]];
      assert head + NonNull(vs[1..]) + NonNull(ws) == head + (NonNull(vs[1..]) + NonNull(ws));
    }
  }

  /** The nil guard of the range loop never fires. */
  lemma {:induction false} RangeItemsAreNotNull(vs: seq<Value>)
    ensures forall i :: 0 <= i < |NonNull(vs)| ==> !NonNull(vs)[i].Null?
  {
    if vs != [] {
      RangeItemsAreNotNull(vs[1..]);
    }
  }

  lemma Advance(outs: seq<Next>, i: nat)
    requires i < |outs|
    ensures outs[i].Fault? ==> Delivered(outs[i..]) == [] && EndsWell(outs[i..]) == outs[i].nullIteration
    ensures outs[i].Yield? ==>
              Delivered(outs[i..]) == [outs[i].v] + Delivered(outs[i + 1..])
              && EndsWell(outs[i..]) == EndsWell(outs[i + 1..])
  {
    assert outs[i..][0] == outs[i] && outs[i..][1..] == outs[i + 1..];
  }

  lemma AdvanceCollect(outs: seq<Next>, i: nat, result: seq<Value>)
    requires i < |outs|
    ensures outs[i].Fault? ==>
              result + Delivered(outs[i..]) == result && EndsWell(outs[i..]) == outs[i].nullIteration
    ensures outs[i].Yield? ==>
              && EndsWell(outs[i..]) == EndsWell(outs[i + 1..])
              && result + Delivered(outs[i..]) == result + [outs[i].v] + Delivered(outs[i + 1..])
  {
    Advance(outs, i);
  }

  lemma AdvanceRange(outs: seq<Next>, i: nat, result: seq<Value>)
    requires i < |outs|
    ensures outs[i].Fault? ==>
              result + NonNull(Delivered(outs[i..])) == result && EndsWell(outs[i..]) == outs[i].nullIteration
    ensures outs[i].Yield? ==>
              && EndsWell(outs[i..]) == EndsWell(outs[i + 1..])
              && result + NonNull(Delivered(outs[i..]))
                 == (if outs[i].v.Null? then result else result + [outs[i].v]) + NonNull(Delivered(outs[i + 1..]))
  {
    Advance(outs, i);
    if outs[i].Yield? {
      NonNullIsFiltering([outs[i].v], Delivered(outs[i + 1..]));
    }
  }

  method RunRange(jq: Evaluator, exp: string, env: Env) returns (items: Option<seq<Value>>)
    ensures items == RangeItems(jq(exp, env))
  {
    var p := jq(exp, env);
    if p.Rejected? {
      return None;
    }
    var result: seq<Value> := [];
    var i := 0;
    while i < |p.outs|
      invariant 0 <= i <= |p.outs|
      invariant EndsWell(p.outs) == EndsWell(p.outs[i..])
      invariant NonNull(Delivered(p.outs)) == result + NonNull(Delivered(p.outs[i..]))
    {
      var v := p.outs[i];
      AdvanceRange(p.outs, i, result);
      if v.Fault? {
        if v.nullIteration {
          return Some(result);
        }
        return None;
      }
      if !v.v.Null? {
        result := result + [v.v];
      }
      i := i + 1;
    }
    assert p.outs[i..] == [] && result + NonNull([]) == result;
    return Some(result);
  }

  method CollectJq(jq: Evaluator, exp: string, env: Env) returns (r: Option<Value>)
    ensures r == RunJq(jq, exp, env)
  {
    if exp == "" {
      return None;
    }
    var p := jq(exp, env);
    if p.Rejected? {
      return None;
    }
    var result: seq<Value> := [];
    var i := 0;
    while i < |p.outs|
      invariant 0 <= i <= |p.outs|
      invariant EndsWell(p.outs) == EndsWell(p.outs[i..])
      invariant Delivered(p.outs) == result + Delivered(p.outs[i..])
    {
      var v := p.outs[i];
      AdvanceCollect(p.outs, i, result);
      if v.Fault? {
        if v.nullIteration {
          return Some(Arr(result));
        }
        return None;
      }
      result := result + [v.v];
      i := i + 1;
    }
    assert p.outs[i..] == [] && result + [] == result;
    return Some(Arr(result));
  }

  // ------------------------------------------------------- the same, on the stream itself

  /** The first result is the value `x`. */
  ghost predicate Yields(p: Program, x: Value) {
    p.Stream? && p.outs != [] && p.outs[0] == Yield(x)
  }

  /** The program delivers exactly the values `vs`; after them the stream ends, or there is
      the one error that is tolerated. */
  ghost predicate Collects(p: Program, vs: seq<Value>) {
    && p.Stream? && |vs| <= |p.outs| && (forall i :: 0 <= i < |vs| ==> p.outs[i] == Yield(vs[i]))
    && (|vs| == |p.outs| || p.outs[|vs|] == Fault(true))
  }

  lemma CollectsIsDelivered(p: Program, vs: seq<Value>)
    ensures Collects(p, vs) <==> p.Stream? && EndsWell(p.outs) && Delivered(p.outs) == vs
  {
    if p.Stream? {
      StreamIsCutAtFirstFault(p.outs);
    }
  }

  /** A condition is what its program says first, if that is a boolean. */
  lemma ConditionExact(p: Program, b: bool)
    ensures Condition(p) == Some(b) <==> Yields(p, Bool(b))
  {
  }

  /** A local variable becomes the list of all values that its program delivers. */
  lemma VariableExact(jq: Evaluator, exp: string, env: Env, x: Value)
    ensures RunJq(jq, exp, env) == Some(x) <==> exp != "" && x.Arr? && Collects(jq(exp, env), x.elems)
  {
    if x.Arr? {
      CollectsIsDelivered(jq(exp, env), x.elems);
    }
  }

  /** Null is dropped, every other value is kept as often as it occurs. */
  lemma {:induction false} NonNullKeeps(vs: seq<Value>, x: Value)
    ensures multiset(NonNull(vs))[x] == if x.Null? then 0 else multiset(vs)[x]
  {
    if vs != [] {
      NonNullKeeps(vs[1..], x);
      assert vs == [vs[0]] + vs[1..];
    }
  }

  /** The items of a range are the values that its program delivers, without the nulls. */
  lemma RangeExact(p: Program, items: seq<Value>)
    ensures RangeItems(p) == Some(items) <==> exists vs :: Collects(p, vs) && items == NonNull(vs)
  {
    if p.Stream? {
      CollectsIsDelivered(p, Delivered(p.outs));
    }
    forall vs | Collects(p, vs) ensures RangeItems(p) == Some(NonNull(vs)) {
      CollectsIsDelivered(p, vs);
    }
  }

  // ------------------------------------------------------------ evaluator hypotheses

  /** A program depends only on the variables it reads. */
  ghost predicate ReadsOnly(jq: Evaluator, vars: string -> set<string>) {
    forall exp, e, e' :: Agree(e, e', vars(exp)) ==> jq(exp, e) == jq(exp, e')
  }

  /** `exp` is the program `$x`. */
  ghost predicate IsVariable(jq: Evaluator, exp: string, x: string) {
    forall env: Env :: x in env ==> jq(exp, env) == Stream([Yield(env[x])])
  }
}
