/**
 * Starting the enclave's API server from the host (sgx/app/src/api/server.rs):
 * choose a worker-thread count, reserve that many doorbell slots plus one for
 * the calling thread, and enter the enclave with the NUL-terminated address.
 */
module ApiServer {
  import opened Bytes
  import opened FfiTypes
  import opened Doorbell

  /** Upper bound on the server's worker threads. */
  const THREAD_NUM: nat := 8

  /**
   * `min(min(THREAD_NUM, capacity - 1), num_cpus as u8)`.  `capacity - 1` is
   * `u8` arithmetic, so the capacity must be at least 1.
   */
  function ThreadCount(capacity: Byte, cpus: nat): (t: Byte)
    requires capacity >= 1
    ensures t <= THREAD_NUM && t <= capacity - 1 && t <= AsByte(cpus)
    ensures t == THREAD_NUM || t == capacity - 1 || t == AsByte(cpus)
  {
    Min(Min(THREAD_NUM, capacity - 1), AsByte(cpus))
  }

  /** The slots the start path reserves fit in the capacity it read. */
  lemma ReservationFits(capacity: Byte, cpus: nat)
    requires capacity >= 1
    ensures 1 <= ThreadCount(capacity, cpus) + 1 <= capacity
  {
  }

  /** The arguments of `ecall_api_server_start`. */
  datatype ServerStartCall = ServerStartCall(eid: nat, addr: seq<Byte>, threadCount: Byte)

  /**
   * `start_api_service`.  The token must be granted and the enclave loaded
   * (both are unwrapped), and the address may not contain a NUL byte
   * (`CString::new(..).unwrap()`).  The token is dropped on return, giving
   * back one slot: the doorbell ends `thread_count` slots lower.  A failing
   * ecall status is only logged; `started` reports it.
   */
  method StartApiService(doorbell: EnclaveDoorbell, addr: seq<Byte>, cpus: nat, ecallStatus: SgxStatus)
    returns (call: ServerStartCall, started: bool)
    requires doorbell.count >= 1
    requires doorbell.enclave.Loaded?
    requires 0 !in addr
    modifies doorbell
    ensures call.threadCount == ThreadCount(old(doorbell.count), cpus)
    ensures call.eid == doorbell.enclave.eid
    ensures call.addr == addr + [0] && 0 !in call.addr[..|addr|]
    ensures started <==> ecallStatus == SgxSuccess
    ensures doorbell.count == old(doorbell.count) - call.threadCount
  {
    var capacity := doorbell.Capacity();
    var threadCount := ThreadCount(capacity, cpus);
    ReservationFits(capacity, cpus);
    var token := doorbell.GetAccessFor(false, threadCount + 1, TimedOut);
    var enclave := token.value.enclave;
    var cAddr := addr + [0];
    call := ServerStartCall(enclave.eid, cAddr, threadCount);
    started := ecallStatus == SgxSuccess;
    doorbell.Drop(token.value);
  }
}
