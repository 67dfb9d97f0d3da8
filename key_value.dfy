/**
 * The Workers key-value namespace the bot persists into: text values under
 * text keys. Whether a call reaches the store is not up to the bot, so every
 * operation takes `reachable`, the answer the environment gives.
 */
module KeyValue {
  import opened Wrappers

  datatype StoreError = StoreError

  /** `kv.get(key).text()`: the stored text, if any; an unreachable store is an error. */
  function Get(entries: map<string, string>, key: string, reachable: bool): (r: Result<Option<string>, StoreError>)
    ensures r.Failure? <==> !reachable
    ensures r.Success? ==> (r.value.Some? <==> key in entries)
    ensures r.Success? && r.value.Some? ==> r.value.value == entries[key]
  {
    if !reachable then Failure(StoreError)
    else if key in entries then Success(Some(entries[key]))
    else Success(None)
  }

  class KvStore {
    var entries: map<string, string>

    constructor (initial: map<string, string>)
      ensures entries == initial
    {
      entries := initial;
    }

    /** `kv.put(key, value)?.execute().await?`: overwrite `key`, or fail and change nothing. */
    method Put(key: string, value: string, reachable: bool) returns (o: Outcome<StoreError>)
      modifies this
      ensures reachable ==> o == Pass && entries == old(entries)[key := value]
      ensures !reachable ==> o == Fail(StoreError) && entries == old(entries)
    {
      if reachable {
        entries := entries[key := value];
        o := Pass;
      } else {
        o := Fail(StoreError);
      }
    }
  }
}
