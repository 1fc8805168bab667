/**
 * The host half of the allocation round trip
 * (sgx/app/src/enclave/allocate.rs): copy a host slice into a new enclave
 * buffer through `ecall_allocate`, holding a recursive doorbell token.
 */
module HostAllocate {
  import opened Wrappers
  import opened Bytes
  import opened FfiTypes
  import opened Doorbell
  import opened Ecalls

  /**
   * `allocate_enclave_buffer`.  It is always called from inside an ocall, so
   * it asks for recursive access, which is always granted and leaves the
   * count alone; the enclave must be loaded (`expect`).  The ecall is given
   * the slice's own address and its full length.  `transport` is the status
   * the SGX bridge reports; a failing status is handed back unchanged.  On
   * success the result is whatever handle the enclave wrote, starting from
   * the null default.
   */
  method AllocateEnclaveBuffer(doorbell: EnclaveDoorbell, heap: EnclaveHeap, buffer: seq<Byte>,
                               transport: SgxStatus, conditions: AllocConditions)
    returns (r: Result<EnclaveBuffer, SgxStatus>)
    requires doorbell.enclave.Loaded?
    requires heap.Valid()
    modifies doorbell, heap
    ensures heap.Valid()
    ensures doorbell.count == old(doorbell.count)
    ensures transport != SgxSuccess ==>
              r == Err(transport) && heap.stack == old(heap.stack) && heap.boxes == old(heap.boxes)
    ensures transport == SgxSuccess && !conditions.Copies() ==>
              r == Ok(DefaultEnclaveBuffer()) && heap.stack == old(heap.stack) && heap.boxes == old(heap.boxes)
    ensures transport == SgxSuccess && conditions.Copies() ==>
              && r.Ok?
              && |heap.stack| == |old(heap.stack)| + 1
              && heap.stack[..|old(heap.stack)|] == old(heap.stack)
              && var top := heap.stack[|heap.stack| - 1];
              && !top.IsNull() && top.ptr !in old(heap.boxes)
              && heap.boxes == old(heap.boxes)[top.ptr := buffer]
              && r.value == (if conditions.safetyBufferRestored then top else DefaultEnclaveBuffer())
    ensures r == Err(SgxErrorBusy) ==> transport == SgxErrorBusy
  {
    var enclaveBuffer := DefaultEnclaveBuffer();
    var token := doorbell.GetAccess(true, TimedOut);
    var enclaveId := token.value.enclave.eid;
    if transport == SgxSuccess {
      enclaveBuffer := heap.Allocate(buffer, |buffer|, conditions);
      assert buffer[..|buffer|] == buffer;
      r := Ok(enclaveBuffer);
    } else {
      r := Err(transport);
    }
    doorbell.Drop(token.value);
  }
}
