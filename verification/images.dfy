/** Requests and responses of image functions: what is sent and what is kept, for every
    order in which Go visits the maps involved. */
module Images {
  import opened Values
  import opened Outputs
  import opened Bags
  import opened Functions

  // ---------------------------------------------------------------------- requests

  /** An object, or lists of objects nested at most `depth` deep, all objects decodable. */
  ghost predicate Sendable(lib: Lib, v: Value, depth: nat) {
    match v
    case Obj(_) => lib.accepts(v)
    case Arr(xs) => depth > 0 && forall i :: 0 <= i < |xs| ==> Sendable(lib, xs[i], depth - 1)
    case _ => false
  }

  /** The object leaves of a value, at any depth. */
  ghost function Leaves(v: Value): multiset<Value>
    decreases v, 1
  {
    match v
    case Obj(_) => multiset{v}
    case Arr(xs) => LeavesOf(xs)
    case _ => multiset{}
  }

  ghost function LeavesOf(xs: seq<Value>): multiset<Value>
    decreases xs, 0
  {
    if xs == [] then multiset{} else Leaves(xs[0]) + LeavesOf(xs[1..])
  }

  lemma AllSendableNext(lib: Lib, xs: seq<Value>, depth: nat)
    requires xs != []
    ensures (forall i :: 0 <= i < |xs| ==> Sendable(lib, xs[i], depth)) <==>
            Sendable(lib, xs[0], depth) && forall i :: 0 <= i < |xs[1..]| ==> Sendable(lib, xs[1..][i], depth)
  {
    assert forall i :: 0 <= i < |xs[1..]| ==> xs[1..][i] == xs[i + 1];
    if Sendable(lib, xs[0], depth) && forall i :: 0 <= i < |xs[1..]| ==> Sendable(lib, xs[1..][i], depth) {
      forall i | 0 <= i < |xs| ensures Sendable(lib, xs[i], depth) {
        assert i > 0 ==> xs[1..][i - 1] == xs[i];
      }
    }
  }

  lemma JoinedBag(a: seq<Value>, b: seq<Value>)
    ensures multiset(a + b) == multiset(a) + multiset(b)
  {
  }

  lemma ElementMeaning(lib: Lib, x: Value, inner: bool)
    ensures var r := ElementObjects(lib, x, inner);
            && (r.Some? <==> Sendable(lib, x, if inner then 0 else 1))
            && (r.Some? ==> multiset(r.value) == Leaves(x))
    decreases if inner then 0 else 1, 0
  {
    if x.Arr? && !inner {
      ListObjectsMeaning(lib, x.elems, true);
    }
  }

  lemma {:induction false} ListObjectsMeaning(lib: Lib, xs: seq<Value>, inner: bool)
    ensures var r := ListObjects(lib, xs, inner);
            && (r.Some? <==> forall i :: 0 <= i < |xs| ==> Sendable(lib, xs[i], if inner then 0 else 1))
            && (r.Some? ==> multiset(r.value) == LeavesOf(xs))
    decreases if inner then 0 else 1, |xs|
  {
    if xs != [] {
      ElementMeaning(lib, xs[0], inner);
      ListObjectsMeaning(lib, xs[1..], inner);
      AllSendableNext(lib, xs, if inner then 0 else 1);
      var first, rest := ElementObjects(lib, xs[0], inner), ListObjects(lib, xs[1..], inner);
      if first.Some? && rest.Some? {
        JoinedBag(first.value, rest.value);
      }
    }
  }

  lemma VarObjectsMeaning(lib: Lib, v: Value)
    ensures VarObjects(lib, v).Some? <==> Sendable(lib, v, 2)
    ensures VarObjects(lib, v).Some? ==> multiset(VarObjects(lib, v).value) == Leaves(v)
  {
    if v.Arr? {
      ListObjectsMeaning(lib, v.elems, false);
    }
  }

  ghost function LeavesPerVar(env: Env): map<string, multiset<Value>> {
    map k | k in env :: Leaves(env[k])
  }

  ghost predicate AllSendable(lib: Lib, env: Env, order: seq<string>) {
    forall i :: 0 <= i < |order| ==> order[i] in env && Sendable(lib, env[order[i]], 2)
  }

  lemma {:induction false} RequestPart(lib: Lib, env: Env, order: seq<string>)
    requires forall i :: 0 <= i < |order| ==> order[i] in env
    ensures RequestAlong(lib, env, order).Some? <==> AllSendable(lib, env, order)
    ensures RequestAlong(lib, env, order).Some? ==>
              multiset(RequestAlong(lib, env, order).value) == Along(LeavesPerVar(env), order)
  {
    if order != [] {
      RequestPart(lib, env, order[1..]);
      VarObjectsMeaning(lib, env[order[0]]);
      AllSendableHead(lib, env, order);
    }
  }

  lemma AllSendableHead(lib: Lib, env: Env, order: seq<string>)
    requires order != []
    ensures AllSendable(lib, env, order) <==>
            order[0] in env && Sendable(lib, env[order[0]], 2) && AllSendable(lib, env, order[1..])
  {
    assert forall i :: 0 <= i < |order[1..]| ==> order[1..][i] == order[i + 1];
    if AllSendable(lib, env, order[1..]) && order[0] in env && Sendable(lib, env[order[0]], 2) {
      forall i | 0 <= i < |order| ensures order[i] in env && Sendable(lib, env[order[i]], 2) {
        if i > 0 { assert order[1..][i - 1] == order[i]; }
      }
    }
  }

  /** The objects sent for an input: sending succeeds iff every variable holds an object or
      lists of objects nested at most two deep; the objects are then exactly the object leaves
      of the input, in whatever order the variables are visited. */
  lemma SentConservation(lib: Lib, env: Env, order: seq<string>)
    requires IsOrder(order, env.Keys)
    ensures var r := RequestAlong(lib, env, order);
            && (r.Some? <==> forall k :: k in env ==> Sendable(lib, env[k], 2))
            && (r.Some? ==> multiset(r.value) == Total(LeavesPerVar(env)))
  {
    RequestPart(lib, env, order);
    AnyOrderCollectsTotal(LeavesPerVar(env), order);
    if AllSendable(lib, env, order) {
      forall k | k in env ensures Sendable(lib, env[k], 2) {
        assert k in order;
      }
    }
  }

  // -------------------------------------------------------------- requests by kind

  /** The objects of one kind, in order. */
  function OfKind(lib: Lib, xs: seq<Value>, g: string): seq<Value> {
    if xs == [] then [] else
      OfKind(lib, xs[..|xs| - 1], g) + if lib.kindOf(xs[|xs| - 1]) == g then [xs[|xs| - 1]] else []
  }

  /** A request lists, for each kind that occurs, the objects of that kind in order. */
  lemma {:induction false} GroupedByKind(lib: Lib, xs: seq<Value>)
    ensures var r := Grouped(lib, xs);
            && (forall g :: g in r <==> OfKind(lib, xs, g) != [])
            && (forall g :: g in r ==> r[g] == OfKind(lib, xs, g))
  {
    if xs != [] {
      GroupedByKind(lib, xs[..|xs| - 1]);
    }
  }

  lemma {:induction false} OfKindOfTwo(lib: Lib, xs: seq<Value>, ys: seq<Value>, g: string)
    ensures OfKind(lib, xs + ys, g) == OfKind(lib, xs, g) + OfKind(lib, ys, g)
    decreases |ys|
  {
    if ys == [] {
      assert xs + ys == xs;
    } else {
      var n := |ys| - 1;
      OfKindOfTwo(lib, xs, ys[..n], g);
      assert (xs + ys)[..|xs| + n] == xs + ys[..n];
    }
  }

  ghost function KindBags(r: Request): map<string, multiset<Value>> {
    map g | g in r :: multiset(r[g])
  }

  lemma AddedBag(lib: Lib, r: Request, x: Value)
    ensures Total(KindBags(AddResource(lib, r, x))) == Total(KindBags(r)) + multiset{x}
  {
    var g, bags := lib.kindOf(x), KindBags(r);
    var before := if g in r then r[g] else [];
    SnocBag(before, x);
    var bags' := bags[g := BagAt(bags, g) + multiset{x}];
    forall h ensures Same(KindBags(AddResource(lib, r, x)), bags', h) {}
    SameEverywhere(KindBags(AddResource(lib, r, x)), bags');
    TotalPut(bags, g, multiset{x});
  }

  lemma NothingGrouped(lib: Lib)
    ensures Total(KindBags(Grouped(lib, []))) == multiset{}
  {
    assert KindBags(Grouped(lib, [])).Keys == {};
  }

  /** Grouping neither loses nor doubles an object. */
  lemma {:induction false} GroupedBag(lib: Lib, xs: seq<Value>)
    ensures Total(KindBags(Grouped(lib, xs))) == multiset(xs)
  {
    if xs == [] {
      NothingGrouped(lib);
    } else {
      GroupedBag(lib, xs[..|xs| - 1]);
      AddedBag(lib, Grouped(lib, xs[..|xs| - 1]), xs[|xs| - 1]);
      LastInBag(xs);
    }
  }

  lemma {:induction false} OfKindIsOfKind(lib: Lib, xs: seq<Value>, g: string)
    ensures forall x :: x in OfKind(lib, xs, g) ==> lib.kindOf(x) == g
  {
    if xs != [] {
      OfKindIsOfKind(lib, xs[..|xs| - 1], g);
    }
  }

  /** Building a request succeeds iff every variable holds an object or lists of objects
      nested at most two deep; the request then holds exactly the object leaves of the input,
      each under its own kind, in whatever order the variables are visited. */
  lemma RequestConservation(lib: Lib, env: Env, order: seq<string>)
    requires IsOrder(order, env.Keys)
    ensures var r := BuiltRequest(lib, env, order);
            && (r.Some? <==> forall k :: k in env ==> Sendable(lib, env[k], 2))
            && (r.Some? ==> Total(KindBags(r.value)) == Total(LeavesPerVar(env)))
            && (r.Some? ==> forall g, x :: g in r.value && x in r.value[g] ==> lib.kindOf(x) == g)
  {
    SentConservation(lib, env, order);
    var sent := RequestAlong(lib, env, order);
    if sent.Some? {
      GroupedBag(lib, sent.value);
      GroupedByKind(lib, sent.value);
      forall g | g in Grouped(lib, sent.value)
        ensures forall x :: x in Grouped(lib, sent.value)[g] ==> lib.kindOf(x) == g {
        OfKindIsOfKind(lib, sent.value, g);
      }
    }
  }

  /** The object leaves of the local variables and the root variable. */
  ghost function LeavesSent(vars: map<string, string>, root: string, env: Env): map<string, multiset<Value>> {
    map k | k in env && (k in vars || k == root) :: Leaves(env[k])
  }

  lemma LeavesSentAre(vars: map<string, string>, root: string, env: Env)
    requires vars != map[]
    ensures LeavesPerVar(FilterImage(vars, root, env)) == LeavesSent(vars, root, env)
  {
    var sent, kept := LeavesSent(vars, root, env), LeavesPerVar(FilterImage(vars, root, env));
    forall k ensures Same(kept, sent, k) {}
    SameEverywhere(kept, sent);
  }

  /** What an image receives of an input: everything of its local variables and the root
      variable that is there, provided each holds objects at most two lists deep; without
      local variables the request is empty, root variable or not. */
  lemma ImageRequest(lib: Lib, vars: map<string, string>, root: string, env: Env, order: seq<string>)
    requires IsOrder(order, FilterImage(vars, root, env).Keys)
    ensures var r := BuiltRequest(lib, FilterImage(vars, root, env), order);
            && (vars == map[] ==> r == Some(map[]))
            && (vars != map[] ==>
                  (r.Some? <==> forall k :: k in env && (k in vars || k == root) ==> Sendable(lib, env[k], 2)))
            && (vars != map[] && r.Some? ==> Total(KindBags(r.value)) == Total(LeavesSent(vars, root, env)))
  {
    var fi := FilterImage(vars, root, env);
    RequestConservation(lib, fi, order);
    if vars == map[] {
      assert fi == map[];
      NoKeysNoOrder(order, fi.Keys);
    } else {
      LeavesSentAre(vars, root, env);
      assert forall k :: k in fi <==> k in env && (k in vars || k == root);
    }
  }

  lemma NoKeysNoOrder(order: seq<string>, keys: set<string>)
    requires IsOrder(order, keys)
    ensures keys == {} ==> order == []
  {
    if order != [] {
      assert order[0] in keys;
    }
  }

  // ------------------------------------------------------- the order inside a request

  /** The same objects under every kind, in whatever order. */
  ghost predicate Reordered(r: Request, r': Request) {
    r.Keys == r'.Keys && forall g :: g in r ==> multiset(r[g]) == multiset(r'[g])
  }

  /** The image does not care in which order a request lists the objects of a kind. */
  ghost predicate OrderBlind(lib: Lib, image: string) {
    forall c: Call, r: Request :: c.image == image && Reordered(c.request, r) ==>
      lib.execute(c) == lib.execute(c.(request := r))
  }

  lemma {:induction false} KindBag(lib: Lib, xs: seq<Value>, g: string, x: Value)
    ensures multiset(OfKind(lib, xs, g))[x] == if lib.kindOf(x) == g then multiset(xs)[x] else 0
  {
    if xs != [] {
      var before, y := xs[..|xs| - 1], xs[|xs| - 1];
      KindBag(lib, before, g, x);
      assert xs == before + [y];
    }
  }

  lemma SameKindBag(lib: Lib, xs: seq<Value>, ys: seq<Value>, g: string)
    requires multiset(xs) == multiset(ys)
    ensures multiset(OfKind(lib, xs, g)) == multiset(OfKind(lib, ys, g))
  {
    forall x ensures multiset(OfKind(lib, xs, g))[x] == multiset(OfKind(lib, ys, g))[x] {
      KindBag(lib, xs, g, x);
      KindBag(lib, ys, g, x);
    }
  }

  lemma SameBagReordered(lib: Lib, xs: seq<Value>, ys: seq<Value>)
    requires multiset(xs) == multiset(ys)
    ensures Reordered(Grouped(lib, xs), Grouped(lib, ys))
  {
    GroupedByKind(lib, xs);
    GroupedByKind(lib, ys);
    forall g: string ensures multiset(OfKind(lib, xs, g)) == multiset(OfKind(lib, ys, g)) {
      SameKindBag(lib, xs, ys, g);
    }
    forall g: string ensures OfKind(lib, xs, g) == [] <==> OfKind(lib, ys, g) == [] {
      assert |multiset(OfKind(lib, xs, g))| == |OfKind(lib, xs, g)|;
      assert |multiset(OfKind(lib, ys, g))| == |OfKind(lib, ys, g)|;
    }
  }

  lemma SentReordered(lib: Lib, env: Env, order: seq<string>, order': seq<string>)
    requires IsOrder(order, env.Keys) && IsOrder(order', env.Keys)
    ensures var r, r' := BuiltRequest(lib, env, order), BuiltRequest(lib, env, order');
            r.Some? == r'.Some? && (r.Some? ==> Reordered(r.value, r'.value))
  {
    SentConservation(lib, env, order);
    SentConservation(lib, env, order');
    var sent, sent' := RequestAlong(lib, env, order), RequestAlong(lib, env, order');
    if sent.Some? {
      SameBagReordered(lib, sent.value, sent'.value);
    }
  }

  /** Map order shows in a request at most as a reordering, which a blind image ignores. */
  lemma ImageOrderFree(lib: Lib, v: Vertex, env: Env, order: seq<string>, order': seq<string>, n: nat)
    requires IsOrder(order, env.Keys) && IsOrder(order', env.Keys) && OrderBlind(lib, v.fn.image)
    ensures RunImage(lib, v, env, order, n) == RunImage(lib, v, env, order', n)
  {
    SentReordered(lib, env, order, order');
    var r, r' := BuiltRequest(lib, env, order), BuiltRequest(lib, env, order');
    if r.Some? {
      var c := Call(v.name, n, v.fn.image, r.value);
      assert lib.execute(c) == lib.execute(c.(request := r'.value));
    }
  }

  // --------------------------------------------------------------------- responses

  /** No two resource kinds of the function feed the same variable. */
  ghost predicate OneKindPerVar(v: Vertex) {
    forall g, h :: g in v.gvkToVar && h in v.gvkToVar && v.gvkToVar[g] == v.gvkToVar[h] ==> g == h
  }

  /** Every resource has a kind and decodes. */
  ghost predicate Decodes(raws: seq<Raw>) {
    forall i :: 0 <= i < |raws| ==> raws[i].hasKind && raws[i].fields.Some?
  }

  ghost predicate GoodKind(v: Vertex, resp: Response, g: string) {
    g in resp && g in v.gvkToVar ==>
      Decodes(resp[g]) && v.gvkToVar[g] in v.outputs && v.outputs[v.gvkToVar[g]].Info?
  }

  /** Every registered kind decodes and belongs to a declared variable. */
  ghost predicate GoodResponse(v: Vertex, resp: Response) {
    forall g :: g in resp ==> GoodKind(v, resp, g)
  }

  ghost function DecodedAll(raws: seq<Raw>): seq<Value>
    requires Decodes(raws)
  {
    seq(|raws|, i requires 0 <= i < |raws| => raws[i].fields.value)
  }

  lemma {:induction false} DecodedInFull(raws: seq<Raw>)
    requires Decodes(raws)
    ensures Decoded(raws) == DecodedAll(raws)
  {
    if raws != [] {
      assert forall i :: 0 <= i < |raws[1..]| ==> raws[1..][i] == raws[i + 1];
      DecodedInFull(raws[1..]);
    }
  }

  /** The entry a good response leaves for variable `x`, fed by kind `g`. */
  ghost function KindEntry(v: Vertex, resp: Response, g: string): Entry
    requires g in resp && g in v.gvkToVar && GoodKind(v, resp, g)
  {
    Info(v.outputs[v.gvkToVar[g]].info.(conditioned := false, data := Arr(DecodedAll(resp[g]))))
  }

  /** `out` holds exactly the decoded lists of the registered kinds of the response. */
  ghost predicate HoldsResponse(v: Vertex, resp: Response, out: Store)
    requires GoodResponse(v, resp)
  {
    && (forall g :: g in resp && g in v.gvkToVar ==>
          GoodKind(v, resp, g) && v.gvkToVar[g] in out && out[v.gvkToVar[g]] == KindEntry(v, resp, g))
    && (forall x :: x in out ==> exists g :: g in resp && g in v.gvkToVar && v.gvkToVar[g] == x)
  }

  lemma HeldAlike(v: Vertex, resp: Response, out: Store, out': Store, x: string)
    requires GoodResponse(v, resp) && HoldsResponse(v, resp, out) && HoldsResponse(v, resp, out') && x in out
    ensures x in out' && out'[x] == out[x]
  {
    var g :| g in resp && g in v.gvkToVar && v.gvkToVar[g] == x;
  }

  lemma HoldsOnlyOne(v: Vertex, resp: Response, out: Store, out': Store)
    requires GoodResponse(v, resp) && HoldsResponse(v, resp, out) && HoldsResponse(v, resp, out')
    ensures out == out'
  {
    forall x: string ensures Same(out, out', x) {
      if x in out { HeldAlike(v, resp, out, out', x); }
      if x in out' { HeldAlike(v, resp, out', out, x); }
    }
    SameEverywhere(out, out');
  }

  /** Errors are only ever added, and one is added iff a visited kind is bad. */
  lemma {:induction false} ErrorsAreSticky(v: Vertex, r: Recorder, resp: Response, order: seq<string>)
    requires r.Image? && forall i :: 0 <= i < |order| ==> order[i] in resp
    ensures var r' := RecordResponse(v, r, resp, order);
            && r.errs <= r'.errs
            && (r'.errs == r.errs <==> forall i :: 0 <= i < |order| ==> GoodKind(v, resp, order[i]))
    decreases |order|
  {
    if order != [] {
      var g := order[0];
      assert forall i :: 0 <= i < |order[1..]| ==> order[1..][i] == order[i + 1];
      assert (forall i :: 0 <= i < |order| ==> GoodKind(v, resp, order[i])) <==>
             GoodKind(v, resp, g) && forall i :: 0 <= i < |order[1..]| ==> GoodKind(v, resp, order[1..][i]);
      if g !in v.gvkToVar {
        ErrorsAreSticky(v, r, resp, order[1..]);
      } else if v.gvkToVar[g] in v.outputs && v.outputs[v.gvkToVar[g]].Info? {
        var raws := resp[g];
        var errs := if AllUsable(raws) then r.errs else r.errs + [Undecodable];
        var out := r.out[v.gvkToVar[g] := Published(v.outputs[v.gvkToVar[g]].info, Arr(Decoded(raws)))];
        ErrorsAreSticky(v, Image(out, errs), resp, order[1..]);
      }
    }
  }

  ghost predicate Visits(v: Vertex, order: seq<string>, x: string) {
    exists i :: 0 <= i < |order| && order[i] in v.gvkToVar && v.gvkToVar[order[i]] == x
  }

  /** Recording part of a good response. */
  lemma {:induction false} ResponsePart(v: Vertex, r: Recorder, resp: Response, order: seq<string>)
    requires r.Image? && OneKindPerVar(v) && GoodResponse(v, resp)
    requires forall i :: 0 <= i < |order| ==> order[i] in resp
    requires forall i, j :: 0 <= i < j < |order| ==> order[i] != order[j]
    ensures var out := RecordResponse(v, r, resp, order).out;
            && (forall i :: 0 <= i < |order| && order[i] in v.gvkToVar ==>
                  v.gvkToVar[order[i]] in out && out[v.gvkToVar[order[i]]] == KindEntry(v, resp, order[i]))
            && (forall x :: !Visits(v, order, x) ==> Same(out, r.out, x))
    decreases |order|
  {
    if order != [] {
      var g, rest := order[0], order[1..];
      assert GoodKind(v, resp, g);
      assert forall i :: 0 <= i < |rest| ==> rest[i] == order[i + 1];
      assert forall x :: Visits(v, rest, x) ==> Visits(v, order, x);
      if g !in v.gvkToVar {
        ResponsePart(v, r, resp, rest);
      } else {
        DecodedInFull(resp[g]);
        var r1 := Image(r.out[v.gvkToVar[g] := KindEntry(v, resp, g)], r.errs);
        ResponsePart(v, r1, resp, rest);
        assert Visits(v, order, v.gvkToVar[g]);
        assert !Visits(v, rest, v.gvkToVar[g]);
      }
    }
  }

  /** Recording a response into freshly reset outputs: the verdict is the same for every
      visiting order, early breaks included; on success every registered kind of the
      response holds its full decoded list. */
  lemma ResponseOrderFree(v: Vertex, errs: seq<ImageErr>, resp: Response, order: seq<string>)
    requires IsOrder(order, resp.Keys)
    ensures var r := RecordResponse(v, Image(map[], errs), resp, order);
            && errs <= r.errs
            && (r.errs == errs <==> GoodResponse(v, resp))
            && (GoodResponse(v, resp) && OneKindPerVar(v) ==> HoldsResponse(v, resp, r.out))
  {
    ErrorsAreSticky(v, Image(map[], errs), resp, order);
    forall g | g in resp ensures exists i :: 0 <= i < |order| && order[i] == g {
      assert g in order;
    }
    if GoodResponse(v, resp) && OneKindPerVar(v) {
      ResponsePart(v, Image(map[], errs), resp, order);
      var out := RecordResponse(v, Image(map[], errs), resp, order).out;
      forall x | x in out ensures exists g :: g in resp && g in v.gvkToVar && v.gvkToVar[g] == x {
        assert !Same(out, map[], x);
        var i :| 0 <= i < |order| && order[i] in v.gvkToVar && v.gvkToVar[order[i]] == x;
        assert order[i] in resp;
      }
    }
  }

  /** Recording never touches undeclared variables. */
  lemma {:induction false} ResponseFrame(v: Vertex, r: Recorder, resp: Response, order: seq<string>)
    requires r.Image? && forall i :: 0 <= i < |order| ==> order[i] in resp
    ensures RecordResponse(v, r, resp, order).out.Keys <= r.out.Keys + v.outputs.Keys
    decreases |order|
  {
    if order != [] {
      var g := order[0];
      if g !in v.gvkToVar {
        ResponseFrame(v, r, resp, order[1..]);
      } else if v.gvkToVar[g] in v.outputs && v.outputs[v.gvkToVar[g]].Info? {
        var raws := resp[g];
        var errs := if AllUsable(raws) then r.errs else r.errs + [Undecodable];
        var out := r.out[v.gvkToVar[g] := Published(v.outputs[v.gvkToVar[g]].info, Arr(Decoded(raws)))];
        ResponseFrame(v, Image(out, errs), resp, order[1..]);
      }
    }
  }
}
