/**
 * The host's storage ocalls (sgx/app/src/enclave/ocall/db.rs) over the
 * node's key-value store, which is reached through the `Db` trait
 * (sgx/app/src/traits.rs).  Store errors end in `expect` panics in the
 * source; the store here is total.
 */
module HostDb {
  import opened Wrappers
  import opened Bytes
  import opened FfiTypes
  import opened Doorbell
  import opened Ecalls
  import opened HostAllocate

  /** The store behind the `Db` trait. */
  class KvStore {
    var entries: map<seq<Byte>, seq<Byte>>

    constructor ()
      ensures entries == map[]
    {
      entries := map[];
    }

    method Get(key: seq<Byte>) returns (value: Option<seq<Byte>>)
      ensures value.Some? <==> key in entries
      ensures value.Some? ==> value.value == entries[key]
    {
      value := if key in entries then Some(entries[key]) else Option.None;
    }

    method Put(key: seq<Byte>, value: seq<Byte>)
      modifies this
      ensures entries == old(entries)[key := value]
    {
      entries := entries[key := value];
    }

    method Delete(key: seq<Byte>)
      modifies this
      ensures entries == old(entries) - {key}
    {
      entries := entries - {key};
    }
  }

  /**
   * `ocall_db_get`.  A present value is copied into a new enclave buffer
   * (the allocation must succeed: `expect`) whose handle is written to
   * `*value`; an absent key gives `None` and leaves `*value` as it was.
   * `value` is the slot's content before the call, `valueOut` after.
   */
  method OcallDbGet(store: KvStore, doorbell: EnclaveDoorbell, heap: EnclaveHeap,
                    value: EnclaveBuffer, key: seq<Byte>, conditions: AllocConditions)
    returns (ret: OcallReturn, valueOut: EnclaveBuffer)
    requires doorbell.enclave.Loaded?
    requires heap.Valid()
    modifies doorbell, heap
    ensures heap.Valid()
    ensures doorbell.count == old(doorbell.count)
    ensures key !in store.entries ==>
              ret == OcallReturn.None && valueOut == value
              && heap.stack == old(heap.stack) && heap.boxes == old(heap.boxes)
    ensures key in store.entries && !conditions.Copies() ==>
              ret == Success && valueOut.IsNull()
              && heap.stack == old(heap.stack) && heap.boxes == old(heap.boxes)
    ensures key in store.entries && conditions.Copies() ==>
              && ret == Success
              && |heap.stack| == |old(heap.stack)| + 1
              && heap.stack[..|old(heap.stack)|] == old(heap.stack)
              && var top := heap.stack[|heap.stack| - 1];
              && !top.IsNull() && top.ptr !in old(heap.boxes)
              && heap.boxes == old(heap.boxes)[top.ptr := store.entries[key]]
              && valueOut == (if conditions.safetyBufferRestored then top else DefaultEnclaveBuffer())
  {
    ret := Success;
    valueOut := value;
    var res := store.Get(key);
    if res.Some? {
      var enclaveBuffer := AllocateEnclaveBuffer(doorbell, heap, res.value, SgxSuccess, conditions);
      valueOut := enclaveBuffer.value;
    } else {
      ret := OcallReturn.None;
    }
  }

  /**
   * `ocall_db_get_fixed`: copy the value into the caller's buffer of
   * `value_max_len` bytes and report its length, or answer `TooBig` or
   * `None` without writing anything.  `valueLen` is `*value_len` before
   * the call, `valueLenOut` after.
   */
  method OcallDbGetFixed(store: KvStore, key: seq<Byte>, value: array<Byte>, valueMaxLen: nat, valueLen: nat)
    returns (ret: OcallReturn, valueLenOut: nat)
    requires valueMaxLen <= value.Length
    modifies value
    ensures key !in store.entries ==>
              ret == OcallReturn.None && value[..] == old(value[..]) && valueLenOut == valueLen
    ensures key in store.entries && |store.entries[key]| > valueMaxLen ==>
              ret == TooBig && value[..] == old(value[..]) && valueLenOut == valueLen
    ensures key in store.entries && |store.entries[key]| <= valueMaxLen ==>
              && ret == Success
              && valueLenOut == |store.entries[key]|
              && value[..valueLenOut] == store.entries[key]
              && value[valueLenOut..] == old(value[valueLenOut..])
  {
    ret := Success;
    valueLenOut := valueLen;
    var res := store.Get(key);
    if res.Some? {
      var v := res.value;
      if |v| > valueMaxLen {
        ret := TooBig;
      } else {
        var i := 0;
        while i < |v|
          invariant 0 <= i <= |v|
          invariant value[..i] == v[..i]
          invariant value[i..] == old(value[i..])
        {
          value[i] := v[i];
          i := i + 1;
          assert value[..i] == value[..i - 1] + [v[i - 1]];
          assert v[..i] == v[..i - 1] + [v[i - 1]];
        }
        valueLenOut := |v|;
      }
    } else {
      ret := OcallReturn.None;
    }
  }

  /** `ocall_db_delete`: removes the key, present or not, and answers `Success`. */
  method OcallDbDelete(store: KvStore, key: seq<Byte>) returns (ret: OcallReturn)
    modifies store
    ensures store.entries == old(store.entries) - {key}
    ensures ret == Success
  {
    store.Delete(key);
    ret := Success;
  }

  /** `ocall_db_put`: stores the value under the key and answers `Success`. */
  method OcallDbPut(store: KvStore, key: seq<Byte>, value: seq<Byte>) returns (ret: OcallReturn)
    modifies store
    ensures store.entries == old(store.entries)[key := value]
    ensures ret == Success
  {
    store.Put(key, value);
    ret := Success;
  }

  /** `ocall_db_flush`: the store's contents do not change and the answer is `Success`. */
  method OcallDbFlush(store: KvStore) returns (ret: OcallReturn)
    ensures ret == Success
  {
    ret := Success;
  }
}
