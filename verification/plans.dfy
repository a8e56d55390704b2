/** When a function is executed at all, and over what: range and condition on the streams of
    their programs, and what that means for the vertices nested in a block. */
module Plans {
  import opened Values
  import opened Outputs
  import opened Jq
  import opened Functions
  import opened Loop

  /** The outer range, if there is one, evaluates. */
  ghost predicate Evaluates(jq: Evaluator, range: Option<string>, env: Env) {
    range.Some? ==> exists vs :: Collects(jq(range.value, env), vs)
  }

  /** The condition is `verdict`; without one, or with an empty expression, it is true. */
  ghost predicate Decides(jq: Evaluator, b: BlockCfg, env: Env, verdict: bool) {
    if b.condition.None? || b.condition.value.expression == "" then verdict
    else Yields(jq(b.condition.value.expression, env), Bool(verdict))
  }

  /** A range inside the condition replaces the outer one. */
  ghost function RangeOf(b: BlockCfg): Option<string> {
    if b.condition.Some? && b.condition.value.range.Some? then b.condition.value.range else b.range
  }

  /** The range in force has these items. */
  ghost predicate Offers(jq: Evaluator, b: BlockCfg, env: Env, items: seq<Value>) {
    RangeOf(b).Some? && exists vs :: Collects(jq(RangeOf(b).value, env), vs) && items == NonNull(vs)
  }

  /** Neither a fault nor a false condition stands in the way. */
  ghost predicate Admits(jq: Evaluator, b: BlockCfg, env: Env) {
    Evaluates(jq, b.range, env) && Decides(jq, b, env, true)
  }

  /** The function is turned down: a condition that is false, or nothing to range over. */
  ghost predicate TurnsDown(jq: Evaluator, b: BlockCfg, env: Env) {
    || (Evaluates(jq, b.range, env) && Decides(jq, b, env, false))
    || (Admits(jq, b, env) && Offers(jq, b, env, []))
  }

  lemma RangeEvaluates(jq: Evaluator, range: Option<string>, env: Env)
    ensures Evaluates(jq, range, env) <==> range.None? || RangeItems(jq(range.value, env)).Some?
  {
    if range.Some? {
      var p := jq(range.value, env);
      if RangeItems(p).Some? {
        RangeExact(p, RangeItems(p).value);
      }
      if vs :| Collects(p, vs) {
        RangeExact(p, NonNull(vs));
      }
    }
  }

  lemma OffersExact(jq: Evaluator, b: BlockCfg, env: Env, items: seq<Value>)
    ensures Offers(jq, b, env, items) <==> RangeOf(b).Some? && RangeItems(jq(RangeOf(b).value, env)) == Some(items)
  {
    if RangeOf(b).Some? {
      RangeExact(jq(RangeOf(b).value, env), items);
    }
  }

  lemma DecidesExact(jq: Evaluator, b: BlockCfg, env: Env, verdict: bool)
    requires b.condition.Some? && b.condition.value.expression != ""
    ensures Decides(jq, b, env, verdict) <==> Condition(jq(b.condition.value.expression, env)) == Some(verdict)
  {
    ConditionExact(jq(b.condition.value.expression, env), verdict);
  }

  /** The plan on the streams of the three programs. Whatever is not listed breaks the
      execution: a rejected program, a condition that delivers nothing, a fault or something
      that is no boolean, and a range that runs into an error. */
  lemma PlanExact(jq: Evaluator, b: BlockCfg, env: Env)
    ensures var plan := PlanOf(jq, b, env);
            && (plan.Unmet? <==> Evaluates(jq, b.range, env) && Decides(jq, b, env, false))
            && (plan.Once? <==> Admits(jq, b, env) && RangeOf(b).None?)
            && (plan.Empty? <==> Admits(jq, b, env) && Offers(jq, b, env, []))
            && (forall items :: plan == Over(items) <==> Admits(jq, b, env) && Offers(jq, b, env, items) && items != [])
  {
    RangeEvaluates(jq, b.range, env);
    forall items ensures Offers(jq, b, env, items) <==>
                         RangeOf(b).Some? && RangeItems(jq(RangeOf(b).value, env)) == Some(items) {
      OffersExact(jq, b, env, items);
    }
    if b.condition.Some? && b.condition.value.expression != "" {
      DecidesExact(jq, b, env, true);
      DecidesExact(jq, b, env, false);
    }
  }
}
