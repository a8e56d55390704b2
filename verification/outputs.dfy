module Outputs {
  import opened Values

  datatype OutputInfo = OutputInfo(isInternal: bool, conditioned: bool, gvk: Option<string>, data: Value)

  /** The store holds `any`; everything that is not an *OutputInfo is `Foreign`. */
  datatype Entry = Info(info: OutputInfo) | Foreign

  type Store = map<string, Entry>

  /** What a function hands back: a nil or real output, and a nil or real error. */
  datatype Outcome = Outcome(out: Option<Store>, err: Option<Error>)

  function DataAt(store: Store, k: string): Value {
    if k in store && store[k].Info? then store[k].info.data else Null
  }
}
