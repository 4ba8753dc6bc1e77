/**
 * The read-modify-write persistence adapter (src/utils/database/database_manager.rs)
 * over the browser's key-value store (src/services/local_storage.rs).
 *
 * The store is a map from keys to strings plus two conditions of the
 * environment: whether the storage object can be obtained at all, and whether
 * it accepts a write. The JSON codec is a parameter: a total encoder that may
 * fail and a partial decoder.
 */
module DatabaseManager {
  import opened Wrappers

  /** Why a store call failed (`JsValue` in the source). */
  datatype StoreError = StorageUnavailable | WriteRejected

  /** The key-value store behind `LocalStorageService`. */
  class Store {
    var items: map<string, string>
    /** `window.local_storage()` yields a storage object. */
    var available: bool
    /** `set_item` accepts a write (for instance, the quota is not exceeded). */
    var writable: bool

    constructor (items: map<string, string>, available: bool, writable: bool)
      ensures this.items == items && this.available == available && this.writable == writable
    {
      this.items := items;
      this.available := available;
      this.writable := writable;
    }

    /** `LocalStorageService::create` (and `update`, which delegates to it). */
    method Create(key: string, value: string) returns (r: Result<(), StoreError>)
      modifies this`items
      ensures !available ==> r == Failure(StorageUnavailable) && items == old(items)
      ensures available && !writable ==> r == Failure(WriteRejected) && items == old(items)
      ensures available && writable ==> r == Success(()) && items == old(items)[key := value]
    {
      if !available {
        r := Failure(StorageUnavailable);
      } else if !writable {
        r := Failure(WriteRejected);
      } else {
        items := items[key := value];
        r := Success(());
      }
    }

    /** `LocalStorageService::read`. */
    method Read(key: string) returns (r: Result<Option<string>, StoreError>)
      ensures !available ==> r == Failure(StorageUnavailable)
      ensures available && key in items ==> r == Success(Some(items[key]))
      ensures available && key !in items ==> r == Success(None)
    {
      if !available {
        r := Failure(StorageUnavailable);
      } else if key in items {
        r := Success(Some(items[key]));
      } else {
        r := Success(None);
      }
    }

    /** `LocalStorageService::delete`. */
    method Delete(key: string) returns (r: Result<(), StoreError>)
      modifies this`items
      ensures !available ==> r == Failure(StorageUnavailable) && items == old(items)
      ensures available ==> r == Success(()) && items == old(items) - {key}
    {
      if !available {
        r := Failure(StorageUnavailable);
      } else {
        items := items - {key};
        r := Success(());
      }
    }
  }

  /** The store test of the source: a value just created is read back. */
  method CreateThenRead(store: Store, key: string, value: string) returns (r: Result<Option<string>, StoreError>)
    requires store.available && store.writable
    modifies store`items
    ensures r == Success(Some(value))
  {
    var _ := store.Create(key, value);
    r := store.Read(key);
  }

  /** The store test of the source: a deleted key reads back as absent. */
  method DeleteThenRead(store: Store, key: string) returns (r: Result<Option<string>, StoreError>)
    requires store.available
    modifies store`items
    ensures r == Success(None)
  {
    var _ := store.Delete(key);
    r := store.Read(key);
  }

  /** `serialize_json_array` and `deserialize_json_array`, seen from outside. */
  datatype Codec<!T> = Codec(encode: seq<T> -> Option<string>, decode: string -> Option<seq<T>>)

  /** Decoding what was encoded gives the sequence back. */
  ghost predicate RoundTrip<T(!new)>(codec: Codec<T>) {
    forall xs: seq<T> :: codec.encode(xs).Some? ==> codec.decode(codec.encode(xs).value) == Some(xs)
  }

  /** `deserialize_and_read`: a value that does not decode reads as the empty log. */
  function DeserializeAndRead<T>(codec: Codec<T>, value: string): (log: seq<T>)
    ensures codec.decode(value).Some? ==> log == codec.decode(value).value
    ensures codec.decode(value).None? ==> log == []
  {
    match codec.decode(value)
    case Some(log) => log
    case None => []
  }

  /** The log that a reachable store holds under `key`. */
  function StoredLog<T>(codec: Codec<T>, items: map<string, string>, key: string): seq<T> {
    if key in items then DeserializeAndRead(codec, items[key]) else []
  }

  /** The store contents after `write_data(data, key)` from `items`. */
  function WriteResult<T>(codec: Codec<T>, items: map<string, string>, available: bool, writable: bool,
                          data: T, key: string): map<string, string>
  {
    if !available then items
    else match codec.encode(StoredLog(codec, items, key) + [data])
      case None => items
      case Some(s) => if writable then items[key := s] else items
  }

  /** `serialize_and_write`: append, encode, store; a failure is only logged. */
  method SerializeAndWrite<T>(store: Store, codec: Codec<T>, dataVector: seq<T>, data: T, key: string)
    modifies store`items
    ensures codec.encode(dataVector + [data]).Some? && store.available && store.writable
      ==> store.items == old(store.items)[key := codec.encode(dataVector + [data]).value]
    ensures !(codec.encode(dataVector + [data]).Some? && store.available && store.writable)
      ==> store.items == old(store.items)
  {
    var vector := dataVector + [data];
    match codec.encode(vector) {
      case Some(res) =>
        var _ := store.Create(key, res);
      case None =>
    }
  }

  /** `write_data`: read the current log (fail-soft), append `data`, write it back. */
  method WriteData<T>(store: Store, codec: Codec<T>, data: T, key: string)
    modifies store`items
    ensures store.items == WriteResult(codec, old(store.items), store.available, store.writable, data, key)
  {
    var read := store.Read(key);
    match read {
      case Success(Some(value)) =>
        var dataVector := DeserializeAndRead(codec, value);
        SerializeAndWrite(store, codec, dataVector, data, key);
      case Success(None) =>
        SerializeAndWrite(store, codec, [], data, key);
      case Failure(_) =>
    }
  }

  /** `read_data`: the stored log, or the empty log on any failure. */
  method ReadData<T>(store: Store, codec: Codec<T>, key: string) returns (r: seq<T>)
    ensures store.available ==> r == StoredLog(codec, store.items, key)
    ensures !store.available ==> r == []
    ensures store.available && key in store.items && codec.decode(store.items[key]).None? ==> r == []
  {
    var read := store.Read(key);
    match read {
      case Success(Some(value)) =>
        r := DeserializeAndRead(codec, value);
      case _ =>
        r := [];
    }
  }

  // ---------------------------------------------------------------------------
  // Properties of a write

  /** A write to an absent key stores the one-record log. */
  lemma WriteToAbsentKey<T>(codec: Codec<T>, items: map<string, string>, data: T, key: string)
    requires key !in items && codec.encode([data]).Some?
    ensures WriteResult(codec, items, true, true, data, key) == items[key := codec.encode([data]).value]
  {
    assert StoredLog(codec, items, key) + [data] == [data];
  }

  /** A write to a key holding a decodable log stores that log with `data` appended. */
  lemma WriteAppends<T>(codec: Codec<T>, items: map<string, string>, data: T, key: string, log: seq<T>)
    requires key in items && codec.decode(items[key]) == Some(log)
    requires codec.encode(log + [data]).Some?
    ensures WriteResult(codec, items, true, true, data, key) == items[key := codec.encode(log + [data]).value]
  {
  }

  /** A write to a key holding an undecodable value replaces it by the one-record log. */
  lemma WriteDiscardsUndecodable<T>(codec: Codec<T>, items: map<string, string>, data: T, key: string)
    requires key in items && codec.decode(items[key]).None?
    requires codec.encode([data]).Some?
    ensures WriteResult(codec, items, true, true, data, key) == items[key := codec.encode([data]).value]
  {
    assert StoredLog(codec, items, key) + [data] == [data];
  }

  /** An unreachable store, an encoding failure or a refused write leaves the store as it was. */
  lemma WriteFailureKeepsStore<T>(codec: Codec<T>, items: map<string, string>, available: bool,
                                  writable: bool, data: T, key: string)
    requires !available || !writable || codec.encode(StoredLog(codec, items, key) + [data]).None?
    ensures WriteResult(codec, items, available, writable, data, key) == items
  {
  }

  /** A write changes no key but its own. */
  lemma WriteTouchesOnlyKey<T>(codec: Codec<T>, items: map<string, string>, available: bool,
                               writable: bool, data: T, key: string, other: string)
    requires other != key
    ensures var after := WriteResult(codec, items, available, writable, data, key);
      (other in after <==> other in items) && (other in items ==> after[other] == items[other])
  {
  }

  /** With a faithful codec, reading after a successful write gives the earlier read plus `data`. */
  lemma ReadAfterWrite<T(!new)>(codec: Codec<T>, items: map<string, string>, data: T, key: string)
    requires RoundTrip(codec)
    requires codec.encode(StoredLog(codec, items, key) + [data]).Some?
    ensures StoredLog(codec, WriteResult(codec, items, true, true, data, key), key)
      == StoredLog(codec, items, key) + [data]
  {
    var log := StoredLog(codec, items, key) + [data];
    assert codec.decode(codec.encode(log).value) == Some(log);
  }

  /** The write-then-read sequence on a reachable store, through the methods. */
  method WriteThenRead<T(!new)>(store: Store, codec: Codec<T>, data: T, key: string) returns (r: seq<T>)
    requires RoundTrip(codec) && store.available && store.writable
    requires codec.encode(StoredLog(codec, store.items, key) + [data]).Some?
    modifies store`items
    ensures r == StoredLog(codec, old(store.items), key) + [data]
  {
    ReadAfterWrite(codec, store.items, data, key);
    WriteData(store, codec, data, key);
    r := ReadData(store, codec, key);
  }
}
