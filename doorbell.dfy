/**
 * The host's gate in front of the enclave (sgx/app/src/enclave/doorbell.rs):
 * a counting semaphore over a `u8` that limits how many threads are inside
 * the enclave at once.  Recursive entries (an ocall re-entering the enclave
 * from a thread that is already inside) bypass the count.
 */
module Doorbell {
  import opened Wrappers
  import opened Bytes
  import opened FfiTypes

  /** Seconds a non-recursive request waits for a free slot. */
  const ENCLAVE_LOCK_TIMEOUT_SECS: nat := 6 * 5
  /** Thread control structures the enclave is built with. */
  const TCS_NUM: nat := 12

  /** The result of loading the enclave: its id, or the SGX failure. */
  datatype EnclaveHandle = Loaded(eid: nat) | LoadFailed(status: SgxStatus)

  /**
   * The starting count, `min(TCS_NUM, num_cpus as u8)`.  The cast keeps the
   * low eight bits, so a machine with 256 CPUs starts at 0.
   */
  function InitialCount(cpus: nat): (c: Byte)
    ensures c <= TCS_NUM && c <= AsByte(cpus)
    ensures c == TCS_NUM || c == AsByte(cpus)
    ensures cpus < 256 ==> c <= cpus
  {
    Min(TCS_NUM, AsByte(cpus))
  }

  /**
   * The condition-variable wait, seen from the waiting thread: it either
   * times out, or wakes up and finds the count other threads left behind.
   */
  datatype WaitOutcome = TimedOut | Notified(countAfter: Byte)

  /**
   * The slots a non-recursive request finds: the count itself when it is
   * non-zero, otherwise what is there after waking, or 0 after a timeout.
   */
  function SlotsSeen(count: Byte, wait: WaitOutcome): (seen: Byte)
    ensures count != 0 ==> seen == count
    ensures count == 0 && wait.TimedOut? ==> seen == 0
  {
    if count != 0 then count
    else if wait.Notified? then wait.countAfter
    else 0
  }

  /** `EnclaveAccessToken`: which enclave it gives access to, and whether it was recursive. */
  datatype AccessToken = AccessToken(enclave: EnclaveHandle, recursive: bool)

  class EnclaveDoorbell {
    const enclave: EnclaveHandle
    /** The number of free slots. */
    var count: Byte

    constructor (enclave: EnclaveHandle, cpus: nat)
      ensures this.enclave == enclave && count == InitialCount(cpus)
    {
      this.enclave := enclave;
      count := InitialCount(cpus);
    }

    /**
     * `wait_for`.  A non-recursive request at count 0 waits; it gives up
     * when the wait times out or the count is still 0.  A granted request
     * takes `reserve` slots; the `u8` subtraction must not underflow.
     */
    method WaitFor(recursive: bool, reserve: Byte, wait: WaitOutcome) returns (token: Option<AccessToken>)
      requires !recursive && SlotsSeen(count, wait) != 0 ==> reserve <= SlotsSeen(count, wait)
      modifies this
      ensures recursive ==> token == Some(AccessToken(enclave, true)) && count == old(count)
      ensures !recursive && SlotsSeen(old(count), wait) == 0 ==> token.None? && count == 0
      ensures !recursive && SlotsSeen(old(count), wait) != 0 ==>
                token == Some(AccessToken(enclave, false)) && count == SlotsSeen(old(count), wait) - reserve
    {
      if !recursive {
        if count == 0 {
          if wait.TimedOut? {
            return Option.None;
          }
          count := wait.countAfter;
          if count == 0 {
            return Option.None;
          }
        }
        count := count - reserve;
      }
      token := Some(AccessToken(enclave, recursive));
    }

    /** `get_access`: one slot. */
    method GetAccess(recursive: bool, wait: WaitOutcome) returns (token: Option<AccessToken>)
      requires !recursive && SlotsSeen(count, wait) != 0 ==> 1 <= SlotsSeen(count, wait)
      modifies this
      ensures recursive ==> token == Some(AccessToken(enclave, true)) && count == old(count)
      ensures !recursive && SlotsSeen(old(count), wait) == 0 ==> token.None? && count == 0
      ensures !recursive && SlotsSeen(old(count), wait) != 0 ==>
                token == Some(AccessToken(enclave, false)) && count == SlotsSeen(old(count), wait) - 1
    {
      token := GetAccessFor(recursive, 1, wait);
    }

    /** `get_access_for`: `reserve` slots, waiting at most the lock timeout. */
    method GetAccessFor(recursive: bool, reserve: Byte, wait: WaitOutcome) returns (token: Option<AccessToken>)
      requires !recursive && SlotsSeen(count, wait) != 0 ==> reserve <= SlotsSeen(count, wait)
      modifies this
      ensures recursive ==> token == Some(AccessToken(enclave, true)) && count == old(count)
      ensures !recursive && SlotsSeen(old(count), wait) == 0 ==> token.None? && count == 0
      ensures !recursive && SlotsSeen(old(count), wait) != 0 ==>
                token == Some(AccessToken(enclave, false)) && count == SlotsSeen(old(count), wait) - reserve
    {
      token := WaitFor(recursive, reserve, wait);
    }

    /** `capacity`: the free slots, read under the lock. */
    method Capacity() returns (c: Byte)
      ensures c == count
    {
      c := count;
    }

    /**
     * `Drop for EnclaveAccessToken`: a non-recursive token gives back one
     * slot, however many it reserved.  The `u8` addition must not overflow.
     */
    method Drop(token: AccessToken)
      requires !token.recursive ==> count < 255
      modifies this
      ensures count == old(count) + (if token.recursive then 0 else 1)
    {
      if !token.recursive {
        count := count + 1;
      }
    }

    /** The release that matches `get_access_for`: gives back all `reserved` slots. */
    method DropReserved(token: AccessToken, reserved: Byte)
      requires !token.recursive ==> count + reserved < 256
      modifies this
      ensures count == old(count) + (if token.recursive then 0 else reserved)
    {
      if !token.recursive {
        count := count + reserved;
      }
    }
  }

  /**
   * Reserving `reserve` slots on a fresh doorbell and dropping the token:
   * the count ends `reserve - 1` below where it started.
   */
  method ReserveThenDrop(cpus: nat, reserve: Byte) returns (before: Byte, after: Byte)
    requires 1 <= reserve <= InitialCount(cpus)
    ensures before == InitialCount(cpus)
    ensures after == before - reserve + 1
  {
    var doorbell := new EnclaveDoorbell(Loaded(0), cpus);
    before := doorbell.Capacity();
    var token := doorbell.GetAccessFor(false, reserve, TimedOut);
    doorbell.Drop(token.value);
    after := doorbell.Capacity();
  }

  /** The same with the matching release: the count is restored. */
  method ReserveThenDropReserved(cpus: nat, reserve: Byte) returns (before: Byte, after: Byte)
    requires 1 <= reserve <= InitialCount(cpus)
    ensures before == InitialCount(cpus)
    ensures after == before
  {
    var doorbell := new EnclaveDoorbell(Loaded(0), cpus);
    before := doorbell.Capacity();
    var token := doorbell.GetAccessFor(false, reserve, TimedOut);
    doorbell.DropReserved(token.value, reserve);
    after := doorbell.Capacity();
  }
}
