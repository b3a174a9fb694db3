/**
 * The Redis store that the tool server writes and the chat endpoint reads:
 * string keys mapped to string values (both processes connect with
 * `decode_responses=True`, so every value is text).
 */
module KeyValue {
  import opened Common

  class Cache {
    var entries: map<string, string>

    /**
     * A client of a server that is already running: the entries are whatever
     * the server holds, written by either process, before a restart included.
     */
    constructor (initial: map<string, string>)
      ensures entries == initial
    {
      entries := initial;
    }

    /** `redis.set(key, value)`: no expiry is given in this source. */
    method Set(key: string, value: string)
      modifies this
      ensures entries == old(entries)[key := value]
    {
      entries := entries[key := value];
    }

    /** `redis.get(key)`: `None` when the key is absent. */
    method Get(key: string) returns (value: Option<string>)
      ensures value.Some? <==> key in entries
      ensures value.Some? ==> value.value == entries[key]
    {
      value := if key in entries then Some(entries[key]) else None;
    }

    /** `redis.delete(key)`: deleting an absent key is not an error. */
    method Delete(key: string)
      modifies this
      ensures entries == old(entries) - {key}
    {
      entries := entries - {key};
    }
  }
}
