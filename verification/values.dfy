/** The values that travel through a pipeline, and the two shared conventions of the
    model: map iteration orders are explicit, and errors keep only the one
    distinction the handler looks at. */
module Values {

  datatype Option<+T> = None | Some(value: T)

  /** JSON-like data (Go's `any` as produced by jq, templates and decoders). */
  datatype Value =
    | Null
    | Bool(b: bool)
    | Num(n: int)
    | Str(s: string)
    | Arr(elems: seq<Value>)
    | Obj(fields: map<string, Value>)

  /** The content of an Input: variable name to value. */
  type Env = map<string, Value>

  /** `errors.Is(err, ErrConditionFalse)` is the only question ever asked of an error. */
  datatype Error = ConditionFalse | Failed

  /** Go's %d of a number that is not negative. */
  function Decimal(n: nat): string {
    if n < 10 then [['0', '1', '2', '3', '4', '5', '6', '7', '8', '9'][n]]
    else Decimal(n / 10) + [['0', '1', '2', '3', '4', '5', '6', '7', '8', '9'][n % 10]]
  }

  /** Two maps agree on one key. */
  ghost predicate Same<K, V>(m: map<K, V>, m': map<K, V>, k: K) {
    (k in m <==> k in m') && (k in m ==> m[k] == m'[k])
  }

  lemma SameEverywhere<K(!new), V>(m: map<K, V>, m': map<K, V>)
    requires forall k: K :: Same(m, m', k)
    ensures m == m'
  {
    assert forall k: K :: k in m <==> k in m' by {
      forall k: K ensures k in m <==> k in m' { assert Same(m, m', k); }
    }
    assert forall k: K :: k in m ==> Same(m, m', k);
  }

  /** Two environments agree on a set of names. */
  ghost predicate Agree(e: Env, e': Env, names: set<string>) {
    forall k :: k in names ==> Same(e, e', k)
  }

  /** `order` lists every key of a map exactly once. */
  predicate IsOrder(order: seq<string>, keys: set<string>) {
    && (forall i, j :: 0 <= i < j < |order| ==> order[i] != order[j])
    && (forall i :: 0 <= i < |order| ==> order[i] in keys)
    && (forall k :: k in keys ==> k in order)
  }

  /** Go leaves the iteration order of a map open. An `Orders` value settles it: the
      n-th iteration over a map with key set `ks` visits `o(n, ks)` from left to right.
      Statements quantify over every valid choice. */
  type Orders = (nat, set<string>) -> seq<string>

  ghost predicate ValidOrders(o: Orders) {
    forall n: nat, ks: set<string> :: IsOrder(o(n, ks), ks)
  }

  /** One particular order of a key set. */
  ghost function SomeOrder(ks: set<string>): seq<string> {
    if ks == {} then [] else
      var k :| k in ks;
      [k] + SomeOrder(ks - {k})
  }

  lemma {:induction false} SomeOrderIsOrder(ks: set<string>)
    ensures IsOrder(SomeOrder(ks), ks)
    decreases ks
  {
    if ks != {} {
      var order := SomeOrder(ks);
      var k := order[0];
      SomeOrderIsOrder(ks - {k});
      assert order == [k] + SomeOrder(ks - {k});
    }
  }

  /** The orders of two disjoint key sets make an order of both. */
  lemma JoinedOrder(a: seq<string>, s: set<string>, b: seq<string>, t: set<string>)
    requires IsOrder(a, s) && IsOrder(b, t) && s !! t
    ensures IsOrder(a + b, s + t)
  {
    var order := a + b;
    forall i | 0 <= i < |order| ensures order[i] in if i < |a| then s else t {
      assert order[i] == if i < |a| then a[i] else b[i - |a|];
    }
    forall k | k in s + t ensures k in order {
      assert k in a || k in b;
    }
  }

  /** Any key can come first. */
  lemma SomeFirst(keys: set<string>, k: string) returns (order: seq<string>)
    requires k in keys
    ensures IsOrder(order, keys) && order != [] && order[0] == k
  {
    SomeOrderIsOrder(keys - {k});
    JoinedOrder([k], {k}, SomeOrder(keys - {k}), keys - {k});
    order := [k] + SomeOrder(keys - {k});
    assert {k} + (keys - {k}) == keys;
  }

  /** Any key can come last. */
  lemma SomeLast(keys: set<string>, k: string) returns (rest: seq<string>)
    requires k in keys
    ensures IsOrder(rest + [k], keys) && forall i :: 0 <= i < |rest| ==> rest[i] in keys
  {
    rest := SomeOrder(keys - {k});
    SomeOrderIsOrder(keys - {k});
    JoinedOrder(rest, keys - {k}, [k], {k});
    assert keys - {k} + {k} == keys;
  }

  ghost function Canonical(): Orders {
    (n: nat, ks: set<string>) => SomeOrder(ks)
  }

  lemma CanonicalIsValid()
    ensures ValidOrders(Canonical())
  {
    forall n: nat, ks: set<string> ensures IsOrder(Canonical()(n, ks), ks) {
      SomeOrderIsOrder(ks);
    }
  }
}
