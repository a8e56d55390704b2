/** The mutable maps of an execution, the input of one vertex and the output store shared
    by all vertices, and what the controller takes from the store in the end. */
module Stores {
  import opened Values
  import opened Outputs
  import opened Bags

  class Input {
    var entries: Env

    constructor ()
      ensures entries == map[]
    {
      entries := map[];
    }

    method AddEntry(k: string, v: Value)
      modifies this
      ensures entries == old(entries)[k := v]
    {
      entries := entries[k := v];
    }
  }

  /** The list data an entry contributes to the final output. */
  function Listed(e: Entry): seq<Value> {
    if e.Info? && !e.info.isInternal && e.info.data.Arr? then e.info.data.elems else []
  }

  function ListedAlong(store: Store, order: seq<string>): seq<Value>
    requires forall i :: 0 <= i < |order| ==> order[i] in store
  {
    if order == [] then [] else Listed(store[order[0]]) + ListedAlong(store, order[1..])
  }

  ghost function ListedBags(store: Store): map<string, multiset<Value>> {
    map k | k in store :: multiset(Listed(store[k]))
  }

  /** A list that is not internal. */
  predicate Contributes(e: Entry) {
    e.Info? && !e.info.isInternal && e.info.data.Arr?
  }

  ghost function ListsOf(store: Store): map<string, multiset<Value>> {
    map k | k in store && Contributes(store[k]) :: multiset(store[k].info.data.elems)
  }

  lemma {:induction false} ListedInAnyOrder(store: Store, order: seq<string>)
    requires forall i :: 0 <= i < |order| ==> order[i] in store
    ensures multiset(ListedAlong(store, order)) == Along(ListedBags(store), order)
  {
    if order != [] {
      ListedInAnyOrder(store, order[1..]);
    }
  }

  /** The objects of all lists that are not internal, each as often as it occurs in them. */
  ghost function FinalObjects(store: Store): multiset<Value> {
    Total(ListsOf(store))
  }

  lemma ListedAreLists(store: Store)
    ensures Total(ListedBags(store)) == FinalObjects(store)
  {
    EmptyBagsAddNothing(ListedBags(store), ListsOf(store));
  }

  /** Every list counts in full. */
  lemma ListIsFinal(store: Store, k: string)
    requires k in store && Contributes(store[k])
    ensures FinalObjects(store) == multiset(store[k].info.data.elems) + FinalObjects(store - {k})
  {
    TotalPick(ListsOf(store), k);
    assert ListsOf(store) - {k} == ListsOf(store - {k});
  }

  /** If there is one list only, the final output is that list. */
  lemma OnlyList(store: Store, k: string)
    requires k in store && Contributes(store[k])
    requires forall j :: j in store && j != k ==> !Contributes(store[j])
    ensures FinalObjects(store) == multiset(store[k].info.data.elems)
  {
    ListIsFinal(store, k);
    assert ListsOf(store - {k}) == map[];
  }

  /** Everything else does not count. */
  lemma OnlyListsCount(store: Store, some: Store)
    requires forall k :: k in some ==> k in store && some[k] == store[k]
    requires forall k :: k in store && k !in some ==> !Contributes(store[k])
    ensures FinalObjects(store) == FinalObjects(some)
  {
    forall k: string ensures Same(ListsOf(store), ListsOf(some), k) {}
    SameEverywhere(ListsOf(store), ListsOf(some));
  }

  lemma AllListed(store: Store, order: seq<string>)
    requires IsOrder(order, store.Keys)
    ensures multiset(ListedAlong(store, order)) == FinalObjects(store)
  {
    ListedInAnyOrder(store, order);
    AnyOrderCollectsTotal(ListedBags(store), order);
    ListedAreLists(store);
  }

  lemma ListedNext(store: Store, order: seq<string>, n: nat, fo: seq<Value>)
    requires n < |order| && forall i :: 0 <= i < |order| ==> order[i] in store
    ensures fo + ListedAlong(store, order[n..]) == fo + Listed(store[order[n]]) + ListedAlong(store, order[n + 1..])
  {
    assert order[n..][0] == order[n] && order[n..][1..] == order[n + 1..];
  }

  lemma ListedEnds(store: Store, order: seq<string>)
    requires forall i :: 0 <= i < |order| ==> order[i] in store
    ensures [] + ListedAlong(store, order[0..]) == ListedAlong(store, order)
    ensures ListedAlong(store, order[|order|..]) == []
  {
    assert order[0..] == order;
  }

  /** The conditioned entries of a store. */
  ghost function Conditioned(store: Store): Store {
    map k | k in store && store[k].Info? && store[k].info.conditioned :: store[k]
  }

  class Output {
    var entries: Store

    constructor ()
      ensures entries == map[]
    {
      entries := map[];
    }

    method AddEntry(k: string, e: Entry)
      modifies this
      ensures entries == old(entries)[k := e]
    {
      entries := entries[k := e];
    }

    method DeleteEntry(k: string)
      modifies this
      ensures entries == old(entries) - {k}
    {
      entries := entries - {k};
    }

    /** A nil output adds nothing; otherwise its entries overwrite. */
    method Add(o: Output?)
      modifies this
      ensures entries == old(entries) + if o == null then map[] else old(o.entries)
    {
      if o == null {
        return;
      }
      entries := entries + o.entries;
    }

    /** The data of an entry, internal or not; null if there is none or it is foreign. */
    function GetData(k: string): (v: Value)
      reads this
      ensures k in entries && entries[k].Info? ==> v == entries[k].info.data
      ensures !(k in entries && entries[k].Info?) ==> v == Null
    {
      DataAt(entries, k)
    }

    /** Every object in the list data of a non-internal entry, as often as it occurs there,
        and nothing else, in whatever order Go visits the store. */
    method GetFinalOutput(order: seq<string>) returns (fo: seq<Value>)
      requires IsOrder(order, entries.Keys)
      ensures multiset(fo) == FinalObjects(entries)
      ensures fo == ListedAlong(entries, order)
    {
      AllListed(entries, order);
      fo := Collect(order);
    }

    method Collect(order: seq<string>) returns (fo: seq<Value>)
      requires forall i :: 0 <= i < |order| ==> order[i] in entries
      ensures fo == ListedAlong(entries, order)
    {
      ListedEnds(entries, order);
      fo := [];
      for n := 0 to |order|
        invariant ListedAlong(entries, order) == fo + ListedAlong(entries, order[n..])
      {
        ListedNext(entries, order, n, fo);
        var data := GetListed(order[n]);
        fo := fo + data;
      }
      assert fo + [] == fo;
    }

    method GetListed(k: string) returns (data: seq<Value>)
      requires k in entries
      ensures data == Listed(entries[k])
    {
      var e := entries[k];
      if e.Info? {
        if !e.info.isInternal {
          match e.info.data {
            case Arr(d) => return d;
            case _ =>
          }
        }
      }
      return [];
    }

    method GetConditionedOutput(order: seq<string>) returns (co: Store)
      requires IsOrder(order, entries.Keys)
      ensures co == Conditioned(entries)
      ensures forall k :: k in co <==> k in entries && entries[k].Info? && entries[k].info.conditioned
      ensures forall k :: k in co ==> co[k] == entries[k]
    {
      co := map[];
      for n := 0 to |order|
        invariant forall k :: k in co <==> k in order[..n] && k in Conditioned(entries)
        invariant forall k :: k in co ==> co[k] == entries[k]
      {
        var e := entries[order[n]];
        assert order[..n + 1] == order[..n] + [order[n]];
        if e.Info? && e.info.conditioned {
          co := co[order[n] := e];
        }
      }
      assert order[..|order|] == order;
    }
  }
}
