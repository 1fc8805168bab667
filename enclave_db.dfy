/**
 * The enclave's storage wrappers (sgx/enclave/src/external/db.rs).  Each
 * makes an ocall to the host, first checks the SGX transport status, then
 * the `OcallReturn` the host wrote.  The host is not trusted: what it
 * reports (status, handle, bytes written, length) is an input here, and
 * the honest host's behaviour is composed in separately at the end.
 */
module EnclaveDb {
  import opened Wrappers
  import opened Bytes
  import opened FfiTypes
  import opened Doorbell
  import opened Ecalls
  import opened HostDb

  /**
   * The `String` errors of the wrappers: the SGX status's own text, an
   * ocall status the wrapper does not accept, or a handle that could not be
   * recovered.
   */
  datatype DbError =
    | Transport(status: SgxStatus)
    | Returned(ocall: string, ret: OcallReturn)
    | RecoveryFailed
    | ReportedLengthTooLong(reported: nat, maxBytes: nat)
  {
    /** The message text, for the errors whose text the wrappers spell out. */
    function Message(): (m: string)
      requires Returned? || RecoveryFailed?
      ensures Returned? ==> m == ocall + " returned " + ret.Name()
      ensures RecoveryFailed? ==> m == "Failed to recover enclave buffer"
    {
      if Returned? then ocall + " returned " + ret.Name()
      else "Failed to recover enclave buffer"
    }
  }

  /**
   * The status check shared by `db_put` and `db_flush`: Ok exactly when
   * both the transport and the ocall report success, and the transport is
   * looked at first.
   */
  function CheckUnitCall(ocall: string, transport: SgxStatus, ret: OcallReturn): (r: Result<(), DbError>)
    ensures r.Ok? <==> transport == SgxSuccess && ret == Success
    ensures transport != SgxSuccess ==> r == Err(Transport(transport))
    ensures transport == SgxSuccess && ret != Success ==> r == Err(Returned(ocall, ret))
  {
    if transport != SgxSuccess then Err(Transport(transport))
    else if ret == Success then Ok(())
    else Err(Returned(ocall, ret))
  }

  /** `db_put`, given what the `ocall_db_put` call reported. */
  function DbPut(transport: SgxStatus, ret: OcallReturn): (r: Result<(), DbError>)
    ensures r.Ok? <==> transport == SgxSuccess && ret == Success
    ensures r.Err? && transport == SgxSuccess ==>
              r.error.Returned? && r.error.Message() == "ocall_db_put returned " + ret.Name()
  {
    CheckUnitCall("ocall_db_put", transport, ret)
  }

  /** `db_flush`, given what the `ocall_db_flush` call reported. */
  function DbFlush(transport: SgxStatus, ret: OcallReturn): (r: Result<(), DbError>)
    ensures r.Ok? <==> transport == SgxSuccess && ret == Success
    ensures r.Err? && transport == SgxSuccess ==>
              r.error.Returned? && r.error.Message() == "ocall_db_flush returned " + ret.Name()
  {
    CheckUnitCall("ocall_db_flush", transport, ret)
  }

  /**
   * `db_get`, given the transport status, the ocall status and the handle
   * the host wrote.  On `Success` the handle goes through `recover_buffer`.
   */
  method DbGet(heap: EnclaveHeap, transport: SgxStatus, ret: OcallReturn, handle: EnclaveBuffer)
    returns (r: Result<Option<seq<Byte>>, DbError>)
    requires heap.Valid()
    modifies heap
    ensures heap.Valid()
    ensures !(transport == SgxSuccess && ret == Success && !handle.IsNull() && handle in old(heap.stack)) ==>
              heap.stack == old(heap.stack) && heap.boxes == old(heap.boxes)
    ensures transport != SgxSuccess ==> r == Err(Transport(transport))
    ensures transport == SgxSuccess && ret == OcallReturn.None ==> r == Ok(Option.None)
    ensures transport == SgxSuccess && ret !in {Success, OcallReturn.None} ==> r == Err(Returned("ocall_db_get", ret))
    ensures transport == SgxSuccess && ret == Success && handle.IsNull() ==> r == Ok(Option.None)
    ensures transport == SgxSuccess && ret == Success && !handle.IsNull() && handle !in old(heap.stack) ==>
              r == Err(RecoveryFailed)
    ensures transport == SgxSuccess && ret == Success && !handle.IsNull() && handle in old(heap.stack) ==>
              && r == Ok(Some(old(heap.boxes)[handle.ptr]))
              && (exists i :: TopmostAt(old(heap.stack), handle.ptr, i) && heap.stack == SwapRemove(old(heap.stack), i))
              && multiset(heap.stack) == multiset(old(heap.stack)) - multiset{handle}
              && heap.boxes == old(heap.boxes) - {handle.ptr}
  {
    if transport != SgxSuccess {
      return Err(Transport(transport));
    }
    match ret {
      case Success =>
        var recovered := heap.Recover(handle);
        if recovered.Err? {
          return Err(RecoveryFailed);
        }
        r := Ok(recovered.value);
      case None =>
        r := Ok(Option.None);
      case _ =>
        r := Err(Returned("ocall_db_get", ret));
    }
  }

  /** `vec![0; max_bytes]` after the host wrote `written` at its start. */
  function ZeroFilled(maxBytes: nat, written: seq<Byte>): (buf: seq<Byte>)
    requires |written| <= maxBytes
    ensures |buf| == maxBytes
    ensures buf[..|written|] == written
    ensures forall i :: |written| <= i < maxBytes ==> buf[i] == 0
  {
    written + seq(maxBytes - |written|, _ => 0)
  }

  /** `Vec::truncate`: shortens to `len`, and never lengthens. */
  function Truncate(v: seq<Byte>, len: nat): (r: seq<Byte>)
    ensures |r| == Min(len, |v|)
    ensures r == v[..|r|]
  {
    if len < |v| then v[..len] else v
  }

  /**
   * What `db_get_fixed` hands back on `Success`: `min(value_len, max_bytes)`
   * bytes, the host's where it wrote and 0 elsewhere.
   */
  lemma {:induction false} FixedValueShape(maxBytes: nat, written: seq<Byte>, valueLen: nat)
    requires |written| <= maxBytes
    ensures var v := Truncate(ZeroFilled(maxBytes, written), valueLen);
            && |v| == Min(valueLen, maxBytes)
            && (forall i :: 0 <= i < |v| && i < |written| ==> v[i] == written[i])
            && (forall i :: |written| <= i < |v| ==> v[i] == 0)
  {
    var buf := ZeroFilled(maxBytes, written);
    var v := Truncate(buf, valueLen);
    forall i | 0 <= i < |v| && i < |written|
      ensures v[i] == written[i]
    {
      assert v[i] == buf[i] == buf[..|written|][i];
    }
  }

  /**
   * `db_get_fixed`, given the transport status, the ocall status, the bytes
   * the host wrote at the start of the buffer, and the length it reported
   * in `value_len` (which starts at 0).  The buffer is `max_bytes` zeros;
   * on `Success` it is truncated to the reported length.
   */
  method DbGetFixed(maxBytes: nat, transport: SgxStatus, ret: OcallReturn, written: seq<Byte>, valueLen: nat)
    returns (r: Result<Option<seq<Byte>>, DbError>)
    requires |written| <= maxBytes
    ensures transport != SgxSuccess ==> r == Err(Transport(transport))
    ensures transport == SgxSuccess && ret == Success ==>
              r == Ok(Some(Truncate(ZeroFilled(maxBytes, written), valueLen)))
    ensures transport == SgxSuccess && ret == OcallReturn.None ==> r == Ok(Option.None)
    ensures transport == SgxSuccess && ret !in {Success, OcallReturn.None} ==>
              r == Err(Returned("ocall_db_get_fixed", ret))
  {
    var value := new Byte[maxBytes](_ => 0);
    var i := 0;
    while i < |written|
      invariant 0 <= i <= |written|
      invariant value[..] == written[..i] + seq(maxBytes - i, _ => 0)
    {
      value[i] := written[i];
      i := i + 1;
    }
    assert written[..|written|] == written;
    if transport != SgxSuccess {
      return Err(Transport(transport));
    }
    match ret {
      case Success =>
        var kept := Truncate(value[..], valueLen);
        r := Ok(Some(kept));
      case None =>
        r := Ok(Option.None);
      case _ =>
        r := Err(Returned("ocall_db_get_fixed", ret));
    }
  }

  /**
   * `db_get_fixed` refusing a reported length above `max_bytes`, the one
   * case where `truncate` cannot bring the buffer to the reported length.
   */
  method DbGetFixedChecked(maxBytes: nat, transport: SgxStatus, ret: OcallReturn, written: seq<Byte>, valueLen: nat)
    returns (r: Result<Option<seq<Byte>>, DbError>)
    requires |written| <= maxBytes
    ensures transport != SgxSuccess ==> r == Err(Transport(transport))
    ensures transport == SgxSuccess && ret == Success && valueLen > maxBytes ==>
              r == Err(ReportedLengthTooLong(valueLen, maxBytes))
    ensures transport == SgxSuccess && ret == Success && valueLen <= maxBytes ==>
              r.Ok? && r.value.Some? && |r.value.value| == valueLen
              && r.value.value == ZeroFilled(maxBytes, written)[..valueLen]
    ensures r.Ok? && r.value.Some? ==> |r.value.value| == valueLen
    ensures transport == SgxSuccess && ret == OcallReturn.None ==> r == Ok(Option.None)
    ensures transport == SgxSuccess && ret !in {Success, OcallReturn.None} ==>
              r == Err(Returned("ocall_db_get_fixed", ret))
  {
    r := DbGetFixed(maxBytes, transport, ret, written, valueLen);
    if transport == SgxSuccess && ret == Success && valueLen > maxBytes {
      r := Err(ReportedLengthTooLong(valueLen, maxBytes));
    }
  }

  /**
   * A host that reports 100 bytes for a 4-byte buffer, writing nothing:
   * the wrapper answers with four zero bytes as the stored value; the
   * checked wrapper refuses.
   */
  method OversizeReportedLength() returns (asWritten: Result<Option<seq<Byte>>, DbError>,
                                            checked: Result<Option<seq<Byte>>, DbError>)
    ensures asWritten == Ok(Some([0, 0, 0, 0]))
    ensures checked == Err(ReportedLengthTooLong(100, 4))
  {
    asWritten := DbGetFixed(4, SgxSuccess, Success, [], 100);
    assert ZeroFilled(4, []) == [0, 0, 0, 0];
    checked := DbGetFixedChecked(4, SgxSuccess, Success, [], 100);
  }

  /**
   * `db_get_fixed` against the honest host handler: the stored value when
   * it fits, `TooBig` reported as an error when it does not, and `None`
   * for an absent key.
   */
  method HonestGetFixed(store: KvStore, key: seq<Byte>, maxBytes: nat)
    returns (r: Result<Option<seq<Byte>>, DbError>)
    ensures key !in store.entries ==> r == Ok(Option.None)
    ensures key in store.entries && |store.entries[key]| <= maxBytes ==> r == Ok(Some(store.entries[key]))
    ensures key in store.entries && |store.entries[key]| > maxBytes ==>
              r == Err(Returned("ocall_db_get_fixed", TooBig))
  {
    var buffer := new Byte[maxBytes](_ => 0);
    var ret, valueLen := OcallDbGetFixed(store, key, buffer, maxBytes, 0);
    var written := buffer[..Min(valueLen, maxBytes)];
    r := DbGetFixed(maxBytes, SgxSuccess, ret, written, valueLen);
    if key in store.entries && |store.entries[key]| <= maxBytes {
      assert written == store.entries[key];
      assert Truncate(ZeroFilled(maxBytes, written), valueLen) == written;
    }
  }

  /** The allocation conditions under which nothing goes wrong. */
  const HEALTHY: AllocConditions := AllocConditions(true, true, false, true)

  /**
   * `db_get` against the honest host handler: the stored value or `None`,
   * and the allocation stack is back where it started.
   */
  method HonestGet(store: KvStore, doorbell: EnclaveDoorbell, heap: EnclaveHeap, key: seq<Byte>, slot: EnclaveBuffer)
    returns (r: Result<Option<seq<Byte>>, DbError>)
    requires doorbell.enclave.Loaded?
    requires heap.Valid()
    modifies doorbell, heap
    ensures heap.Valid()
    ensures key in store.entries ==> r == Ok(Some(store.entries[key]))
    ensures key !in store.entries ==> r == Ok(Option.None)
    ensures heap.stack == old(heap.stack) && heap.boxes == old(heap.boxes)
    ensures doorbell.count == old(doorbell.count)
  {
    ghost var stack0, boxes0 := heap.stack, heap.boxes;
    var ret, handle := OcallDbGet(store, doorbell, heap, slot, key, HEALTHY);
    if key in store.entries {
      ghost var stack1 := heap.stack;
      assert stack1 == stack0 + [handle];
      assert handle.ptr !in boxes0 && !handle.IsNull() && handle in stack1;
      ghost var boxes1 := heap.boxes;
      assert boxes1 == boxes0[handle.ptr := store.entries[key]];
      r := DbGet(heap, SgxSuccess, ret, handle);
      assert heap.boxes == boxes1 - {handle.ptr};
      UpdateThenRemove(boxes0, handle.ptr, store.entries[key]);
      // the entry removed is the one just pushed, which sits on top
      ghost var i :| TopmostAt(stack1, handle.ptr, i) && heap.stack == SwapRemove(stack1, i);
      RemoveJustPushed(stack0, handle, i);
    } else {
      r := DbGet(heap, SgxSuccess, ret, handle);
    }
  }

  /** Adding a fresh address to the heap and then freeing it leaves the heap as it was. */
  lemma UpdateThenRemove(boxes: map<nat, seq<Byte>>, ptr: nat, bytes: seq<Byte>)
    requires ptr !in boxes
    ensures boxes[ptr := bytes] - {ptr} == boxes
  {
  }

  /** Swap-removing the entry nearest the top, when that entry was the last one pushed, undoes the push. */
  lemma RemoveJustPushed(stack: seq<EnclaveBuffer>, handle: EnclaveBuffer, i: nat)
    requires TopmostAt(stack + [handle], handle.ptr, i)
    ensures SwapRemove(stack + [handle], i) == stack
  {
    assert i == |stack|;
    assert (stack + [handle])[..i] == stack;
  }

  /** `db_put` against the honest host handler: stored, and Ok. */
  method HonestPut(store: KvStore, key: seq<Byte>, value: seq<Byte>) returns (r: Result<(), DbError>)
    modifies store
    ensures store.entries == old(store.entries)[key := value]
    ensures r == Ok(())
  {
    var ret := OcallDbPut(store, key, value);
    r := DbPut(SgxSuccess, ret);
  }

  /** `db_flush` against the honest host handler: Ok. */
  method HonestFlush(store: KvStore) returns (r: Result<(), DbError>)
    ensures r == Ok(())
  {
    var ret := OcallDbFlush(store);
    r := DbFlush(SgxSuccess, ret);
  }
}
