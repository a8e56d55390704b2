/** What a vertex publishes, in terms of the programs, templates, resources and calls of its
    configuration: which field is evaluated on which input, and where its result ends up.
    Nothing is asked of the local variables. */
module Programs {
  import opened Values
  import opened Outputs
  import opened Jq
  import opened Functions
  import opened Loop
  import opened RangeLoop
  import opened Images
  import opened Sending
  import opened Meaning
  import opened ImageRuns

  // ------------------------------------------------------------------ what one run does

  /** The value program of a slice says `x` first. */
  ghost predicate ValueYields(lib: Lib, v: Vertex, env: Env, x: Value) {
    v.fn.input.value != "" && Yields(lib.jq(v.fn.input.value, env), x)
  }

  /** The key program of a map says the text `key` first, and its value program `x`. */
  ghost predicate PairYields(lib: Lib, v: Vertex, env: Env, key: string, x: Value) {
    && v.fn.input.key != "" && Yields(lib.jq(v.fn.input.key, env), Str(key))
    && v.fn.input.value != "" && Yields(lib.jq(v.fn.input.value, env), x)
  }

  /** The resource of a template, or else its template text, is instantiated as `x`. */
  ghost predicate Instance(lib: Lib, v: Vertex, env: Env, x: Value) {
    || (v.fn.input.resource != "" && lib.template(v.fn.input.resource, env) == Some(x))
    || (v.fn.input.resource == "" && v.fn.input.template != "" && lib.template(v.fn.input.template, env) == Some(x))
  }

  /** A jq expression delivers the list `x`, a query lists `x`. */
  ghost predicate Computes(lib: Lib, v: Vertex, env: Env, x: Value) {
    if v.fn.ftype.JqFn? then
      v.fn.input.expression != "" && x.Arr? && Collects(lib.jq(v.fn.input.expression, env), x.elems)
    else lib.list(v.fn.input.resource) == Some(x)
  }

  /** Some value, pair, instance, result. */
  ghost predicate HasValue(lib: Lib, v: Vertex, env: Env) { exists x :: ValueYields(lib, v, env, x) }
  ghost predicate HasPair(lib: Lib, v: Vertex, env: Env) { exists key :: HasKey(lib, v, env, key) }
  ghost predicate HasKey(lib: Lib, v: Vertex, env: Env, key: string) { exists x :: PairYields(lib, v, env, key, x) }
  ghost predicate HasInstance(lib: Lib, v: Vertex, env: Env) { exists x :: Instance(lib, v, env, x) }
  ghost predicate HasResult(lib: Lib, v: Vertex, env: Env) { exists x :: Computes(lib, v, env, x) }

  lemma SliceRun(lib: Lib, v: Vertex, env: Env, order: seq<string>, n: nat)
    requires v.fn.ftype.SliceFn? && forall i :: 0 <= i < |order| ==> order[i] in env
    ensures var r := Run(lib, v, env, order, n);
            && (r.Some? <==> HasValue(lib, v, env))
            && (r.Some? ==> r.value.Single? && ValueYields(lib, v, env, r.value.v))
  {
    var r := Run(lib, v, env, order, n);
    if r.Some? {
      assert ValueYields(lib, v, env, r.value.v);
    }
  }

  lemma MapRun(lib: Lib, v: Vertex, env: Env, order: seq<string>, n: nat)
    requires v.fn.ftype.MapFn? && forall i :: 0 <= i < |order| ==> order[i] in env
    ensures var r := Run(lib, v, env, order, n);
            && (r.Some? <==> HasPair(lib, v, env))
            && (r.Some? ==> r.value.Pair? && PairYields(lib, v, env, r.value.key, r.value.v))
  {
    var r := Run(lib, v, env, order, n);
    if r.Some? {
      assert PairYields(lib, v, env, r.value.key, r.value.v) && HasKey(lib, v, env, r.value.key);
    }
  }

  lemma TemplateRun(lib: Lib, v: Vertex, env: Env, order: seq<string>, n: nat)
    requires v.fn.ftype.GoTemplateFn? && forall i :: 0 <= i < |order| ==> order[i] in env
    ensures var r := Run(lib, v, env, order, n);
            && (r.Some? <==> HasInstance(lib, v, env))
            && (r.Some? ==> r.value.Single? && Instance(lib, v, env, r.value.v))
  {
    var r := Run(lib, v, env, order, n);
    if r.Some? {
      assert Instance(lib, v, env, r.value.v);
    }
  }

  lemma ComputedRun(lib: Lib, v: Vertex, env: Env, order: seq<string>, n: nat)
    requires (v.fn.ftype.JqFn? || v.fn.ftype.QueryFn?) && forall i :: 0 <= i < |order| ==> order[i] in env
    ensures var r := Run(lib, v, env, order, n);
            && (r.Some? <==> HasResult(lib, v, env))
            && (r.Some? ==> r.value.Single? && Computes(lib, v, env, r.value.v))
  {
    forall x ensures v.fn.ftype.JqFn? ==>
        (Computes(lib, v, env, x) <==> RunJq(lib.jq, v.fn.input.expression, env) == Some(x)) {
      VariableExact(lib.jq, v.fn.input.expression, env, x);
    }
    var r := Run(lib, v, env, order, n);
    if r.Some? {
      assert Computes(lib, v, env, r.value.v);
    }
  }

  // ------------------------------------------------------------- the inputs of the loop

  lemma {:induction false} EarlierEnvs(lib: Lib, v: Vertex, o: Orders, base: Env, items: seq<Value>, n: nat)
    requires ValidOrders(o) && n <= |items| && LoopEnv(lib, v, o, base, items, n).Some?
    ensures forall k: nat :: k <= n ==> LoopEnv(lib, v, o, base, items, k).Some?
  {
    if n > 0 {
      EarlierEnvs(lib, v, o, base, items, n - 1);
    }
  }

  /** The inputs that the first `n` runs of the loop see. */
  ghost function Envs(lib: Lib, v: Vertex, o: Orders, base: Env, items: seq<Value>, n: nat): (envs: seq<Env>)
    requires ValidOrders(o) && n <= |items| && LoopEnv(lib, v, o, base, items, n).Some?
    ensures |envs| == n && forall k :: 0 <= k < n ==> LoopEnv(lib, v, o, base, items, k + 1) == Some(envs[k])
  {
    EarlierEnvs(lib, v, o, base, items, n);
    seq(n, k requires 0 <= k < n => LoopEnv(lib, v, o, base, items, k + 1).value)
  }

  /** For all but images a run gets the input of the loop as it is. */
  lemma AnswerByRun(lib: Lib, v: Vertex, root: string, o: Orders, base: Env, items: seq<Value>, n: nat, k: nat)
    requires ValidOrders(o) && k < n <= |items| && !IsImage(v.fn.ftype) && LoopEnv(lib, v, o, base, items, n).Some?
    ensures var env := Envs(lib, v, o, base, items, n)[k];
            && InputAt(lib, v, root, o, base, items, k) == Some(env)
            && AnswerAt(lib, v, root, o, base, items, k) == Run(lib, v, env, EnvOrder(o, k, env), k)
  {
    assert LoopEnv(lib, v, o, base, items, k + 1) == Some(Envs(lib, v, o, base, items, n)[k]);
  }

  lemma InputsAreEnvs(lib: Lib, v: Vertex, root: string, o: Orders, base: Env, items: seq<Value>, n: nat)
    requires ValidOrders(o) && n <= |items| && !IsImage(v.fn.ftype) && LoopEnv(lib, v, o, base, items, n).Some?
    requires AllAnswered(lib, v, root, o, base, items, n)
    ensures Inputs(lib, v, root, o, base, items, n) == Envs(lib, v, o, base, items, n)
  {
    forall k: nat | k < n
      ensures Inputs(lib, v, root, o, base, items, n)[k] == Envs(lib, v, o, base, items, n)[k] {
      AnswerByRun(lib, v, root, o, base, items, n, k);
      assert InputAt(lib, v, root, o, base, items, k) == Some(Inputs(lib, v, root, o, base, items, n)[k]);
    }
  }

  lemma NotBoundNotAnswered(lib: Lib, v: Vertex, root: string, o: Orders, base: Env, items: seq<Value>)
    requires ValidOrders(o) && LoopEnv(lib, v, o, base, items, |items|).None?
    ensures !AllAnswered(lib, v, root, o, base, items, |items|)
  {
    if AllAnswered(lib, v, root, o, base, items, |items|) {
      AnsweredHasEnv(lib, v, root, o, base, items, |items|);
    }
  }

  // ------------------------------------------------------------------------------ slice

  ghost predicate AllYield(lib: Lib, v: Vertex, envs: seq<Env>) {
    forall k :: 0 <= k < |envs| ==> HasValue(lib, v, envs[k])
  }

  /** `xs` are the first results of the value program on the inputs, one by one. */
  ghost predicate ListOf(lib: Lib, v: Vertex, envs: seq<Env>, xs: seq<Value>) {
    |xs| == |envs| && forall k :: 0 <= k < |xs| ==> ValueYields(lib, v, envs[k], xs[k])
  }

  lemma SliceAnswers(lib: Lib, v: Vertex, root: string, o: Orders, base: Env, items: seq<Value>, n: nat)
    requires ValidOrders(o) && v.fn.ftype.SliceFn? && n <= |items| && LoopEnv(lib, v, o, base, items, n).Some?
    ensures AllAnswered(lib, v, root, o, base, items, n) <==> AllYield(lib, v, Envs(lib, v, o, base, items, n))
    ensures AllAnswered(lib, v, root, o, base, items, n) ==>
              ListOf(lib, v, Envs(lib, v, o, base, items, n), Payload(Answers(lib, v, root, o, base, items, n)))
  {
    var envs := Envs(lib, v, o, base, items, n);
    forall k: nat | k < n
      ensures var x := AnswerAt(lib, v, root, o, base, items, k);
              && (x.Some? <==> HasValue(lib, v, envs[k]))
              && (x.Some? ==> x.value.Single? && ValueYields(lib, v, envs[k], x.value.v)) {
      AnswerByRun(lib, v, root, o, base, items, n, k);
      SliceRun(lib, v, envs[k], EnvOrder(o, k, envs[k]), k);
    }
    if AllAnswered(lib, v, root, o, base, items, n) {
      var xs := Answers(lib, v, root, o, base, items, n);
      forall k: nat | k < n ensures xs[k].Single? && ValueYields(lib, v, envs[k], xs[k].v) {
        assert AnswerAt(lib, v, root, o, base, items, k) == Some(xs[k]);
      }
    }
  }

  /** A slice publishes the list of what its value program says first on each item, or fails
      if it says nothing on one of them or a variable does not resolve. */
  lemma SliceByProgram(lib: Lib, v: Vertex, root: string, base: Env, o: Orders, items: seq<Value>)
    requires ValidOrders(o) && WellTyped(v.outputs) && v.fn.ftype.SliceFn? && GoesOver(lib, v, base, items)
    ensures var r, end := RunVertex(lib, v, root, base, o), LoopEnv(lib, v, o, base, items, |items|);
            if end.Some? && AllYield(lib, v, Envs(lib, v, o, base, items, |items|)) then
              var envs := Envs(lib, v, o, base, items, |items|);
              exists xs :: ListOf(lib, v, envs, xs)
                           && r == Execution(Outcome(Some(PublishAll(v.outputs, Arr(xs))), None), envs)
            else r == Failure()
  {
    SliceMeaning(lib, v, root, base, o, items);
    if LoopEnv(lib, v, o, base, items, |items|).Some? {
      SliceAnswers(lib, v, root, o, base, items, |items|);
      if AllAnswered(lib, v, root, o, base, items, |items|) {
        InputsAreEnvs(lib, v, root, o, base, items, |items|);
      }
    } else {
      NotBoundNotAnswered(lib, v, root, o, base, items);
    }
  }

  // -------------------------------------------------------------------------------- map

  ghost predicate AllPair(lib: Lib, v: Vertex, envs: seq<Env>) {
    forall k :: 0 <= k < |envs| ==> HasPair(lib, v, envs[k])
  }

  /** No later input yields the key. */
  ghost predicate LastWith(lib: Lib, v: Vertex, envs: seq<Env>, k: nat, key: string) {
    && k < |envs| && HasKey(lib, v, envs[k], key)
    && forall j :: k < j < |envs| ==> !HasKey(lib, v, envs[j], key)
  }

  /** The keys of `dict` are those the key program yields on some input, and the value is what
      the value program says on the last such input. */
  ghost predicate DictOf(lib: Lib, v: Vertex, envs: seq<Env>, dict: map<string, Value>) {
    && (forall key :: key in dict <==> exists k :: 0 <= k < |envs| && HasKey(lib, v, envs[k], key))
    && (forall k: nat, key :: LastWith(lib, v, envs, k, key) ==>
          key in dict && PairYields(lib, v, envs[k], key, dict[key]))
  }

  lemma DictOfAnswers(lib: Lib, v: Vertex, envs: seq<Env>, xs: seq<RunOut>, dict: map<string, Value>)
    requires |xs| == |envs| && LastWins(xs, dict)
    requires forall k :: 0 <= k < |xs| ==> xs[k].Pair? && PairYields(lib, v, envs[k], xs[k].key, xs[k].v)
    ensures DictOf(lib, v, envs, dict)
  {
    forall k, key | 0 <= k < |xs| ensures HasKey(lib, v, envs[k], key) <==> key == xs[k].key {}
    forall key ensures key in dict <==> exists k :: 0 <= k < |envs| && HasKey(lib, v, envs[k], key) {
      if key in dict {
        var k :| 0 <= k < |xs| && xs[k].Pair? && xs[k].key == key;
        assert HasKey(lib, v, envs[k], key);
      }
    }
    forall k: nat, key | LastWith(lib, v, envs, k, key)
      ensures key in dict && PairYields(lib, v, envs[k], key, dict[key]) {
      assert xs[k].key == key && Latest(xs, k);
    }
  }

  lemma MapAnswers(lib: Lib, v: Vertex, root: string, o: Orders, base: Env, items: seq<Value>, n: nat)
    requires ValidOrders(o) && v.fn.ftype.MapFn? && n <= |items| && LoopEnv(lib, v, o, base, items, n).Some?
    ensures var envs := Envs(lib, v, o, base, items, n);
            && (AllAnswered(lib, v, root, o, base, items, n) <==> AllPair(lib, v, envs))
            && (AllAnswered(lib, v, root, o, base, items, n) ==>
                  var xs := Answers(lib, v, root, o, base, items, n);
                  forall k :: 0 <= k < n ==> xs[k].Pair? && PairYields(lib, v, envs[k], xs[k].key, xs[k].v))
  {
    var envs := Envs(lib, v, o, base, items, n);
    forall k: nat | k < n
      ensures var x := AnswerAt(lib, v, root, o, base, items, k);
              && (x.Some? <==> HasPair(lib, v, envs[k]))
              && (x.Some? ==> x.value.Pair? && PairYields(lib, v, envs[k], x.value.key, x.value.v)) {
      AnswerByRun(lib, v, root, o, base, items, n, k);
      MapRun(lib, v, envs[k], EnvOrder(o, k, envs[k]), k);
    }
    if AllAnswered(lib, v, root, o, base, items, n) {
      var xs := Answers(lib, v, root, o, base, items, n);
      forall k: nat | k < n ensures xs[k].Pair? && PairYields(lib, v, envs[k], xs[k].key, xs[k].v) {
        assert AnswerAt(lib, v, root, o, base, items, k) == Some(xs[k]);
      }
    }
  }

  /** A map publishes the dictionary of its two programs: for each key the value of the last
      item that yields it. It fails if a program says nothing on an item, or no text as key. */
  lemma MapByPrograms(lib: Lib, v: Vertex, root: string, base: Env, o: Orders, items: seq<Value>)
    requires ValidOrders(o) && WellTyped(v.outputs) && v.fn.ftype.MapFn? && GoesOver(lib, v, base, items)
    ensures var r, end := RunVertex(lib, v, root, base, o), LoopEnv(lib, v, o, base, items, |items|);
            if end.Some? && AllPair(lib, v, Envs(lib, v, o, base, items, |items|)) then
              var envs := Envs(lib, v, o, base, items, |items|);
              exists dict :: DictOf(lib, v, envs, dict)
                             && r == Execution(Outcome(Some(PublishAll(v.outputs, Obj(dict))), None), envs)
            else r == Failure()
  {
    MapMeaning(lib, v, root, base, o, items);
    if LoopEnv(lib, v, o, base, items, |items|).Some? {
      MapAnswers(lib, v, root, o, base, items, |items|);
      if AllAnswered(lib, v, root, o, base, items, |items|) {
        InputsAreEnvs(lib, v, root, o, base, items, |items|);
        var xs := Answers(lib, v, root, o, base, items, |items|);
        forall dict | LastWins(xs, dict) ensures DictOf(lib, v, Envs(lib, v, o, base, items, |items|), dict) {
          DictOfAnswers(lib, v, Envs(lib, v, o, base, items, |items|), xs, dict);
        }
      }
    } else {
      NotBoundNotAnswered(lib, v, root, o, base, items);
    }
  }

  // -------------------------------------------------------------------------- templates

  ghost predicate AllInstances(lib: Lib, v: Vertex, envs: seq<Env>) {
    forall k :: 0 <= k < |envs| ==> HasInstance(lib, v, envs[k])
  }

  lemma TemplateAnswers(lib: Lib, v: Vertex, root: string, o: Orders, base: Env, items: seq<Value>, n: nat)
    requires ValidOrders(o) && v.fn.ftype.GoTemplateFn? && n <= |items| && LoopEnv(lib, v, o, base, items, n).Some?
    ensures AllAnswered(lib, v, root, o, base, items, n) <==> AllInstances(lib, v, Envs(lib, v, o, base, items, n))
  {
    var envs := Envs(lib, v, o, base, items, n);
    forall k: nat | k < n
      ensures AnswerAt(lib, v, root, o, base, items, k).Some? <==> HasInstance(lib, v, envs[k]) {
      AnswerByRun(lib, v, root, o, base, items, n, k);
      TemplateRun(lib, v, envs[k], EnvOrder(o, k, envs[k]), k);
    }
  }

  /** The single run after the loop, for all but images. */
  lemma LastByRun(lib: Lib, v: Vertex, root: string, o: Orders, base: Env, items: seq<Value>)
    requires ValidOrders(o) && !IsImage(v.fn.ftype)
    ensures var env, x := LastEnv(lib, v, o, base, items), LastAnswer(lib, v, root, o, base, items);
            x == if env.None? then None else Run(lib, v, env.value, EnvOrder(o, |items|, env.value), |items|)
  {
  }

  /** A template is instantiated on every item and once more after the last one; what it
      publishes is the list of that last instance alone. */
  lemma TemplateByText(lib: Lib, v: Vertex, root: string, base: Env, o: Orders, items: seq<Value>)
    requires ValidOrders(o) && WellTyped(v.outputs) && v.fn.ftype.GoTemplateFn? && GoesOver(lib, v, base, items)
    ensures var r, last := RunVertex(lib, v, root, base, o), LastEnv(lib, v, o, base, items);
            if last.Some? && AllInstances(lib, v, Envs(lib, v, o, base, items, |items|) + [last.value]) then
              exists x :: Instance(lib, v, last.value, x)
                          && r == Execution(Outcome(Some(PublishAll(v.outputs, Arr([x]))), None),
                                            Envs(lib, v, o, base, items, |items|) + [last.value])
            else r == Failure()
  {
    TemplateMeaning(lib, v, root, base, o, items);
    LastByRun(lib, v, root, o, base, items);
    var last := LastEnv(lib, v, o, base, items);
    if last.Some? {
      TemplateRun(lib, v, last.value, EnvOrder(o, |items|, last.value), |items|);
    }
    if LoopEnv(lib, v, o, base, items, |items|).Some? {
      TemplateAnswers(lib, v, root, o, base, items, |items|);
      if AllAnswered(lib, v, root, o, base, items, |items|) {
        InputsAreEnvs(lib, v, root, o, base, items, |items|);
      }
      if last.Some? {
        InstancesAndOne(lib, v, Envs(lib, v, o, base, items, |items|), last.value);
      }
    } else {
      NotBoundNotAnswered(lib, v, root, o, base, items);
    }
  }

  lemma InstancesAndOne(lib: Lib, v: Vertex, envs: seq<Env>, env: Env)
    ensures AllInstances(lib, v, envs + [env]) <==> AllInstances(lib, v, envs) && HasInstance(lib, v, env)
  {
    var all := envs + [env];
    assert all[|envs|] == env && forall k :: 0 <= k < |envs| ==> all[k] == envs[k];
    if AllInstances(lib, v, all) {
      forall k | 0 <= k < |envs| ensures HasInstance(lib, v, envs[k]) {
        assert HasInstance(lib, v, all[k]);
      }
    }
  }

  // ------------------------------------------------------------ jq, query, block and root

  /** jq and query publish what their expression or resource comes to in the environment that
      the last item left. */
  lemma ComputedOnce(lib: Lib, v: Vertex, root: string, base: Env, o: Orders, items: seq<Value>)
    requires ValidOrders(o) && WellTyped(v.outputs) && GoesOver(lib, v, base, items)
    requires v.fn.ftype.JqFn? || v.fn.ftype.QueryFn?
    ensures var r, last := RunVertex(lib, v, root, base, o), LastEnv(lib, v, o, base, items);
            if last.Some? && HasResult(lib, v, last.value) then
              exists x :: Computes(lib, v, last.value, x)
                          && r == Execution(Outcome(Some(PublishAll(v.outputs, x)), None), [last.value])
            else r == Failure()
  {
    BindingMeaning(lib, v, root, base, o, items);
    LastByRun(lib, v, root, o, base, items);
    var last := LastEnv(lib, v, o, base, items);
    if last.Some? {
      ComputedRun(lib, v, last.value, EnvOrder(o, |items|, last.value), |items|);
    }
  }

  /** A block that goes ahead resolves its variables and hands over to its DAG, if it has one. */
  lemma BlockGoesAhead(lib: Lib, v: Vertex, root: string, base: Env, o: Orders, items: seq<Value>)
    requires ValidOrders(o) && WellTyped(v.outputs) && GoesOver(lib, v, base, items) && v.fn.ftype.BlockFn?
    ensures var r, last := RunVertex(lib, v, root, base, o), LastEnv(lib, v, o, base, items);
            r == if last.Some? && v.blockRoot.Some? then Execution(Outcome(Some(map[]), None), [last.value])
                 else Failure()
  {
    BindingMeaning(lib, v, root, base, o, items);
    LastByRun(lib, v, root, o, base, items);
  }

  /** A root vertex runs nothing and publishes nothing. */
  lemma RootDoesNothing(lib: Lib, v: Vertex, root: string, base: Env, o: Orders, items: seq<Value>)
    requires ValidOrders(o) && GoesOver(lib, v, base, items) && v.fn.ftype.RootFn?
    ensures RunVertex(lib, v, root, base, o)
            == if LoopEnv(lib, v, o, base, items, |items|).Some? then Execution(Outcome(Some(map[]), None), [])
               else Failure()
  {
    BindingExecution(lib, v, root, o, base, items);
  }

  // ----------------------------------------------------------------------------- images

  /** What is left of an input for an image. */
  ghost predicate Keeps(v: Vertex, root: string, env: Env, fi: Env) {
    forall k ::
      && (k in fi <==> v.fn.vars != map[] && k in env && (k in v.fn.vars || k == root))
      && (k in fi ==> k in env && fi[k] == env[k])
  }

  /** The `n`-th call of the image on this input is answered with `resp`. */
  ghost predicate Replies(lib: Lib, v: Vertex, root: string, o: Orders, env: Env, n: nat, resp: Response)
    requires ValidOrders(o)
  {
    exists fi, request ::
      && Keeps(v, root, env, fi) && (forall k :: k in fi ==> Sendable(lib, fi[k], 2))
      && Lists(lib, fi, o(4 * n + 1, fi.Keys), request)
      && lib.execute(Call(v.name, n, v.fn.image, request)) == Some(resp)
  }

  lemma FilterKeepsExactly(v: Vertex, root: string, env: Env, fi: Env)
    requires IsImage(v.fn.ftype)
    ensures Keeps(v, root, env, fi) <==> fi == Filter(v, root, env)
  {
    if Keeps(v, root, env, fi) {
      forall k: string ensures Same(fi, Filter(v, root, env), k) {}
      SameEverywhere(fi, Filter(v, root, env));
    }
  }

  lemma CallIsAnswered(lib: Lib, v: Vertex, root: string, o: Orders, env: Env, n: nat, resp: Response)
    requires ValidOrders(o) && IsImage(v.fn.ftype) && Replies(lib, v, root, o, env, n, resp)
    ensures var fi := Filter(v, root, env); Run(lib, v, fi, EnvOrder(o, n, fi), n) == Some(Ctx(resp))
  {
    var fi, request :|
      && Keeps(v, root, env, fi) && (forall k :: k in fi ==> Sendable(lib, fi[k], 2))
      && Lists(lib, fi, o(4 * n + 1, fi.Keys), request)
      && lib.execute(Call(v.name, n, v.fn.image, request)) == Some(resp);
    FilterKeepsExactly(v, root, env, fi);
    RequestExact(lib, fi, o(4 * n + 1, fi.Keys), request);
  }

  lemma AnsweredIsCall(lib: Lib, v: Vertex, root: string, o: Orders, env: Env, n: nat)
    requires ValidOrders(o) && IsImage(v.fn.ftype)
    ensures var fi := Filter(v, root, env);
            var r := Run(lib, v, fi, EnvOrder(o, n, fi), n);
            r.Some? ==> r.value.Ctx? && Replies(lib, v, root, o, env, n, r.value.resp)
  {
    var fi := Filter(v, root, env);
    FilterKeepsExactly(v, root, env, fi);
    var built := BuiltRequest(lib, fi, EnvOrder(o, n, fi));
    if built.Some? {
      RequestExact(lib, fi, EnvOrder(o, n, fi), built.value);
      assert Lists(lib, fi, o(4 * n + 1, fi.Keys), built.value);
    }
  }

  ghost predicate IsReplied(lib: Lib, v: Vertex, root: string, o: Orders, env: Env, n: nat)
    requires ValidOrders(o)
  {
    exists resp :: Replies(lib, v, root, o, env, n, resp)
  }

  lemma CallExact(lib: Lib, v: Vertex, root: string, o: Orders, env: Env, n: nat)
    requires ValidOrders(o) && IsImage(v.fn.ftype)
    ensures var fi := Filter(v, root, env);
            var r := Run(lib, v, fi, EnvOrder(o, n, fi), n);
            && (r.Some? <==> IsReplied(lib, v, root, o, env, n))
            && (r.Some? ==> r.value.Ctx? && Replies(lib, v, root, o, env, n, r.value.resp))
  {
    AnsweredIsCall(lib, v, root, o, env, n);
    if resp :| Replies(lib, v, root, o, env, n, resp) {
      CallIsAnswered(lib, v, root, o, env, n, resp);
    }
  }

  /** The runs saw what is left of the inputs for an image. */
  ghost predicate Sends(v: Vertex, root: string, envs: seq<Env>, runs: seq<Env>) {
    |runs| == |envs| && forall k :: 0 <= k < |envs| ==> Keeps(v, root, envs[k], runs[k])
  }

  lemma InputsAreSent(lib: Lib, v: Vertex, root: string, o: Orders, base: Env, items: seq<Value>, env: Env)
    requires ValidOrders(o) && IsImage(v.fn.ftype) && LoopEnv(lib, v, o, base, items, |items|).Some?
    requires AllAnswered(lib, v, root, o, base, items, |items|)
    ensures Sends(v, root, Envs(lib, v, o, base, items, |items|) + [env],
                  Inputs(lib, v, root, o, base, items, |items|) + [Filter(v, root, env)])
  {
    var n, envs, runs := |items|, Envs(lib, v, o, base, items, |items|), Inputs(lib, v, root, o, base, items, |items|);
    forall k: nat | k < n ensures Keeps(v, root, envs[k], runs[k]) {
      assert LoopEnv(lib, v, o, base, items, k + 1) == Some(envs[k]);
      assert InputAt(lib, v, root, o, base, items, k) == Some(runs[k]);
      FilterKeepsExactly(v, root, envs[k], runs[k]);
    }
    FilterKeepsExactly(v, root, env, Filter(v, root, env));
  }

  /** All calls for the inputs, one after the other, are answered. */
  ghost predicate AllReply(lib: Lib, v: Vertex, root: string, o: Orders, envs: seq<Env>)
    requires ValidOrders(o)
  {
    forall k: nat :: k < |envs| ==> IsReplied(lib, v, root, o, envs[k], k)
  }

  ghost predicate RepliesAre(lib: Lib, v: Vertex, root: string, o: Orders, envs: seq<Env>, resps: seq<Response>)
    requires ValidOrders(o)
  {
    |resps| == |envs| && forall k: nat :: k < |envs| ==> Replies(lib, v, root, o, envs[k], k, resps[k])
  }

  lemma ImageAnswers(lib: Lib, v: Vertex, root: string, o: Orders, base: Env, items: seq<Value>, n: nat)
    requires ValidOrders(o) && IsImage(v.fn.ftype) && n <= |items| && LoopEnv(lib, v, o, base, items, n).Some?
    ensures var envs := Envs(lib, v, o, base, items, n);
            && (AllAnswered(lib, v, root, o, base, items, n) <==> AllReply(lib, v, root, o, envs))
            && (AllAnswered(lib, v, root, o, base, items, n) ==>
                  var xs := Answers(lib, v, root, o, base, items, n);
                  forall k: nat :: k < n ==> xs[k].Ctx? && Replies(lib, v, root, o, envs[k], k, xs[k].resp))
  {
    var envs := Envs(lib, v, o, base, items, n);
    forall k: nat | k < n
      ensures var x := AnswerAt(lib, v, root, o, base, items, k);
              && (x.Some? <==> IsReplied(lib, v, root, o, envs[k], k))
              && (x.Some? ==> x.value.Ctx? && Replies(lib, v, root, o, envs[k], k, x.value.resp)) {
      assert LoopEnv(lib, v, o, base, items, k + 1) == Some(envs[k]);
      CallExact(lib, v, root, o, envs[k], k);
    }
    if AllAnswered(lib, v, root, o, base, items, n) {
      var xs := Answers(lib, v, root, o, base, items, n);
      forall k: nat | k < n ensures xs[k].Ctx? && Replies(lib, v, root, o, envs[k], k, xs[k].resp) {
        assert AnswerAt(lib, v, root, o, base, items, k) == Some(xs[k]);
      }
    }
  }

  lemma AllReplyNext(lib: Lib, v: Vertex, root: string, o: Orders, loop: seq<Env>, env: Env)
    requires ValidOrders(o)
    ensures AllReply(lib, v, root, o, loop + [env]) <==>
            AllReply(lib, v, root, o, loop) && IsReplied(lib, v, root, o, env, |loop|)
  {
    var envs := loop + [env];
    assert envs[|loop|] == env && forall k :: 0 <= k < |loop| ==> envs[k] == loop[k];
    if AllReply(lib, v, root, o, envs) {
      assert IsReplied(lib, v, root, o, envs[|loop|], |loop|);
      forall k: nat | k < |loop| ensures IsReplied(lib, v, root, o, loop[k], k) {
        assert IsReplied(lib, v, root, o, envs[k], k);
      }
    }
  }

  /** The single run of an image after the loop. */
  lemma LastCall(lib: Lib, v: Vertex, root: string, o: Orders, base: Env, items: seq<Value>, env: Env)
    requires ValidOrders(o) && IsImage(v.fn.ftype) && LastEnv(lib, v, o, base, items) == Some(env)
    ensures var x := LastAnswer(lib, v, root, o, base, items);
            && (x.Some? <==> IsReplied(lib, v, root, o, env, |items|))
            && (x.Some? ==> x.value.Ctx? && Replies(lib, v, root, o, env, |items|, x.value.resp))
  {
    CallExact(lib, v, root, o, env, |items|);
  }

  lemma RepliesNext(lib: Lib, v: Vertex, root: string, o: Orders, loop: seq<Env>, env: Env, ys: seq<RunOut>, x: RunOut)
    requires ValidOrders(o) && |ys| == |loop|
    requires forall k: nat :: k < |ys| ==> ys[k].Ctx? && Replies(lib, v, root, o, loop[k], k, ys[k].resp)
    requires x.Ctx? && Replies(lib, v, root, o, env, |loop|, x.resp)
    ensures var envs, xs := loop + [env], ys + [x];
            forall k: nat :: k <= |loop| ==> xs[k].Ctx? && Replies(lib, v, root, o, envs[k], k, xs[k].resp)
  {
  }

  /** The calls of the loop and the one after it. */
  lemma AllCalls(lib: Lib, v: Vertex, root: string, o: Orders, base: Env, items: seq<Value>, env: Env)
    requires ValidOrders(o) && IsImage(v.fn.ftype) && LoopEnv(lib, v, o, base, items, |items|).Some?
    requires LastEnv(lib, v, o, base, items) == Some(env)
    requires var envs := Envs(lib, v, o, base, items, |items|) + [env]; AllReply(lib, v, root, o, envs)
    ensures AllAnswered(lib, v, root, o, base, items, |items|) && LastAnswer(lib, v, root, o, base, items).Some?
    ensures var envs := Envs(lib, v, o, base, items, |items|) + [env];
            var xs := Answers(lib, v, root, o, base, items, |items|)
                      + [LastAnswer(lib, v, root, o, base, items).value];
            forall k: nat :: k <= |items| ==> xs[k].Ctx? && Replies(lib, v, root, o, envs[k], k, xs[k].resp)
  {
    ImageAnswers(lib, v, root, o, base, items, |items|);
    LastCall(lib, v, root, o, base, items, env);
    var loop := Envs(lib, v, o, base, items, |items|);
    AllReplyNext(lib, v, root, o, loop, env);
    RepliesNext(lib, v, root, o, loop, env, Answers(lib, v, root, o, base, items, |items|),
                LastAnswer(lib, v, root, o, base, items).value);
  }

  lemma NoReplyNoAnswer(lib: Lib, v: Vertex, root: string, o: Orders, base: Env, items: seq<Value>, env: Env)
    requires ValidOrders(o) && IsImage(v.fn.ftype) && LoopEnv(lib, v, o, base, items, |items|).Some?
    requires LastEnv(lib, v, o, base, items) == Some(env)
    requires !AllReply(lib, v, root, o, Envs(lib, v, o, base, items, |items|) + [env])
    ensures !(AllAnswered(lib, v, root, o, base, items, |items|) && LastAnswer(lib, v, root, o, base, items).Some?)
  {
    ImageAnswers(lib, v, root, o, base, items, |items|);
    LastCall(lib, v, root, o, base, items, env);
    AllReplyNext(lib, v, root, o, Envs(lib, v, o, base, items, |items|), env);
  }

  /** The last response is published as it decodes, if all responses are clean. */
  ghost predicate LastReplyWins(v: Vertex, resps: seq<Response>, r: Outcome) {
    && resps != []
    && if forall k :: 0 <= k < |resps| ==> GoodResponse(v, resps[k]) then
         && GoodResponse(v, resps[|resps| - 1])
         && r.out.Some? && r.err.None? && HoldsResponse(v, resps[|resps| - 1], r.out.value)
       else r == Outcome(None, Some(Failed))
  }

  lemma FromAnswers(v: Vertex, xs: seq<RunOut>, runs: seq<Env>, r: Execution) returns (resps: seq<Response>)
    requires ImageResult(v, xs, runs, r) && forall k :: 0 <= k < |xs| ==> xs[k].Ctx?
    ensures |resps| == |xs| && (forall k :: 0 <= k < |xs| ==> resps[k] == xs[k].resp)
    ensures LastReplyWins(v, resps, r.outcome)
  {
    resps := seq(|xs|, k requires 0 <= k < |xs| => xs[k].resp);
    if AllClean(v, xs) {
      forall k | 0 <= k < |resps| ensures GoodResponse(v, resps[k]) {
        assert GoodResponse(v, xs[k].resp);
      }
    } else {
      var k :| 0 <= k < |xs| && !GoodResponse(v, xs[k].resp);
      assert !GoodResponse(v, resps[k]);
    }
  }

  /** An image calls its executor once per item and once more after the last item, each time
      with the objects of its local variables and the root variable of the pipeline, and
      publishes the last response; it fails unless all calls are answered by clean responses. */
  lemma ImageByCalls(lib: Lib, v: Vertex, root: string, base: Env, o: Orders, items: seq<Value>)
    requires OneKindPerVar(v) && ValidOrders(o) && IsImage(v.fn.ftype) && GoesOver(lib, v, base, items)
    ensures var r, last := RunVertex(lib, v, root, base, o), LastEnv(lib, v, o, base, items);
            if last.Some? && AllReply(lib, v, root, o, Envs(lib, v, o, base, items, |items|) + [last.value]) then
              var envs := Envs(lib, v, o, base, items, |items|) + [last.value];
              && Sends(v, root, envs, r.runs)
              && exists resps :: RepliesAre(lib, v, root, o, envs, resps) && LastReplyWins(v, resps, r.outcome)
            else r == Failure()
  {
    ImageMeaning(lib, v, root, base, o, items);
    var n, last := |items|, LastEnv(lib, v, o, base, items);
    if last.Some? {
      var envs := Envs(lib, v, o, base, items, n) + [last.value];
      if AllReply(lib, v, root, o, envs) {
        AllCalls(lib, v, root, o, base, items, last.value);
        var xs := Answers(lib, v, root, o, base, items, n) + [LastAnswer(lib, v, root, o, base, items).value];
        var r := RunVertex(lib, v, root, base, o);
        InputsAreSent(lib, v, root, o, base, items, last.value);
        var resps := FromAnswers(v, xs, r.runs, r);
        assert RepliesAre(lib, v, root, o, envs, resps);
      } else {
        NoReplyNoAnswer(lib, v, root, o, base, items, last.value);
      }
    }
  }
}
