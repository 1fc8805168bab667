/**
 * The enclave's side of the buffer-allocation round trip
 * (sgx/enclave/src/external/ecalls.rs): `ecall_allocate` copies host bytes
 * into a boxed vector inside the enclave and remembers the handle on
 * `ECALL_ALLOCATE_STACK`; `recover_buffer` later takes the handle off the
 * stack and hands the bytes back.
 */
module Ecalls {
  import opened Wrappers
  import opened Bytes
  import opened FfiTypes

  datatype BufferRecoveryError = BufferRecoveryError

  /**
   * What happens inside `ecall_allocate_impl` that the model does not
   * compute: registering the OOM handler, the `validate_const_ptr!` check on
   * the host range, an out-of-memory panic during the copy, and restoring the
   * OOM safety buffer afterwards.
   */
  datatype AllocConditions = AllocConditions(
    oomHandlerRegistered: bool,
    pointerValid: bool,
    copyOutOfMemory: bool,
    safetyBufferRestored: bool)
  {
    /** The copy is made and its handle pushed. */
    predicate Copies() { oomHandlerRegistered && pointerValid && !copyOutOfMemory }
    /** Nothing goes wrong: the caller receives the handle. */
    predicate Healthy() { Copies() && safetyBufferRestored }
  }

  /** `i` is the position of the entry for `ptr` nearest the top of `stack`. */
  predicate TopmostAt(stack: seq<EnclaveBuffer>, ptr: nat, i: nat)
  {
    i < |stack| && stack[i].ptr == ptr &&
    forall j :: i < j < |stack| ==> stack[j].ptr != ptr
  }

  /**
   * The search in `recover_buffer`: `iter().rev().position(..)`, turned back
   * into an index from the bottom.
   */
  method FindFromTop(stack: seq<EnclaveBuffer>, ptr: nat) returns (index: Option<nat>)
    ensures index.Some? ==> TopmostAt(stack, ptr, index.value)
    ensures index.None? <==> forall j :: 0 <= j < |stack| ==> stack[j].ptr != ptr
  {
    var fromTheEnd := 0;
    while fromTheEnd < |stack|
      invariant 0 <= fromTheEnd <= |stack|
      invariant forall j :: |stack| - fromTheEnd <= j < |stack| ==> stack[j].ptr != ptr
    {
      if stack[|stack| - 1 - fromTheEnd].ptr == ptr {
        return Some(|stack| - fromTheEnd - 1);
      }
      fromTheEnd := fromTheEnd + 1;
    }
    return Option.None;
  }

  /**
   * `Vec::swap_remove`: the last element takes the place of the removed one.
   * Exactly one occurrence of `s[i]` leaves; the order of the rest changes
   * only at position `i`.
   */
  function SwapRemove<T>(s: seq<T>, i: nat): (r: seq<T>)
    requires i < |s|
    ensures |r| == |s| - 1
    ensures multiset(r) == multiset(s) - multiset{s[i]}
    ensures forall j :: 0 <= j < |r| && j != i ==> r[j] == s[j]
    ensures i < |r| ==> r[i] == s[|s| - 1]
  {
    if i == |s| - 1 then
      assert s == s[..i] + [s[i]];
      s[..i]
    else
      SwapRemoveGap(s, i);
      s[..i] + [s[|s| - 1]] + s[i + 1..|s| - 1]
  }

  /** Moving the last element into the gap at `i` keeps every other element. */
  lemma SwapRemoveGap<T>(s: seq<T>, i: nat)
    requires i < |s| - 1
    ensures var r := s[..i] + [s[|s| - 1]] + s[i + 1..|s| - 1];
            |r| == |s| - 1 && multiset(r) == multiset(s) - multiset{s[i]}
            && (forall j :: 0 <= j < |r| && j != i ==> r[j] == s[j]) && r[i] == s[|s| - 1]
  {
    var front, middle, last := s[..i], s[i + 1..|s| - 1], s[|s| - 1];
    assert s == front + [s[i]] + middle + [last];
    GapMultiset(front, s[i], middle, last);
  }

  lemma GapMultiset<T>(front: seq<T>, gone: T, middle: seq<T>, last: T)
    ensures multiset(front + [last] + middle) == multiset(front + [gone] + middle + [last]) - multiset{gone}
  {
    calc {
      multiset(front + [gone] + middle + [last]);
      multiset(front) + multiset{gone} + multiset(middle) + multiset{last};
    }
  }

  /**
   * The enclave heap as far as the allocation round trip sees it: the live
   * boxed vectors by address, and `ECALL_ALLOCATE_STACK`.
   */
  class EnclaveHeap {
    /** `ECALL_ALLOCATE_STACK`, bottom first. */
    var stack: seq<EnclaveBuffer>
    /** The live `Box<Vec<u8>>` allocations, by address. */
    var boxes: map<nat, seq<Byte>>
    /** The allocator: every address at or above this one is unused. */
    var nextAddr: nat

    ghost predicate Valid()
      reads this
    {
      && NULL < nextAddr
      && NULL !in boxes
      && (forall a :: a in boxes ==> a < nextAddr)
      && (forall i :: 0 <= i < |stack| ==> stack[i].ptr in boxes)
      && (forall i, j :: 0 <= i < j < |stack| ==> stack[i].ptr != stack[j].ptr)
    }

    constructor ()
      ensures Valid() && stack == [] && boxes == map[]
    {
      stack := [];
      boxes := map[];
      nextAddr := 1;
    }

    /**
     * `ecall_allocate_impl`.  `host` is the host memory at `buffer`; the
     * unsafe contract asks that it hold `length` bytes.  When the copy is
     * made but the safety buffer cannot be restored, the null handle is
     * returned although the entry was already pushed: the stack then keeps
     * an entry no caller holds.
     */
    method Allocate(host: seq<Byte>, length: nat, conditions: AllocConditions)
      returns (handle: EnclaveBuffer)
      requires Valid()
      requires length <= |host|
      modifies this
      ensures Valid()
      ensures !conditions.Copies() ==>
                handle.IsNull() && stack == old(stack) && boxes == old(boxes)
      ensures conditions.Copies() ==>
                && |stack| == |old(stack)| + 1
                && stack[..|old(stack)|] == old(stack)
                && var top := stack[|stack| - 1];
                && !top.IsNull() && top.ptr !in old(boxes)
                && boxes == old(boxes)[top.ptr := host[..length]]
                && handle == (if conditions.safetyBufferRestored then top else DefaultEnclaveBuffer())
    {
      if !conditions.oomHandlerRegistered {
        return DefaultEnclaveBuffer();
      }
      if !conditions.pointerValid {
        return DefaultEnclaveBuffer();
      }
      var slice := host[..length];
      var result: Option<EnclaveBuffer> := Option.None;
      if !conditions.copyOutOfMemory {
        var enclaveBuffer := EnclaveBuffer(nextAddr);
        boxes := boxes[nextAddr := slice];
        nextAddr := nextAddr + 1;
        stack := stack + [enclaveBuffer.UnsafeClone()];
        result := Some(enclaveBuffer);
      }
      if !conditions.safetyBufferRestored {
        return DefaultEnclaveBuffer();
      }
      handle := if result.Some? then result.value else DefaultEnclaveBuffer();
    }

    /**
     * `recover_buffer`: a null handle gives `Ok(Option.None)`; a handle that is not on
     * the stack is refused; otherwise the entry nearest the top is swap-removed
     * and the box is taken apart to give back its bytes.
     */
    method Recover(handle: EnclaveBuffer) returns (r: Result<Option<seq<Byte>>, BufferRecoveryError>)
      requires Valid()
      modifies this
      ensures Valid()
      ensures handle.IsNull() ==> r == Ok(Option.None) && stack == old(stack) && boxes == old(boxes)
      ensures !handle.IsNull() && handle !in old(stack) ==>
                r == Err(BufferRecoveryError) && stack == old(stack) && boxes == old(boxes)
      ensures !handle.IsNull() && handle in old(stack) ==>
                && r == Ok(Some(old(boxes)[handle.ptr]))
                && (exists i :: TopmostAt(old(stack), handle.ptr, i) && stack == SwapRemove(old(stack), i))
                && multiset(stack) == multiset(old(stack)) - multiset{handle}
                && handle !in stack
                && boxes == old(boxes) - {handle.ptr}
    {
      if handle.IsNull() {
        return Ok(Option.None);
      }
      var maybeIndex := FindFromTop(stack, handle.ptr);
      if maybeIndex.None? {
        return Err(BufferRecoveryError);
      }
      var index := maybeIndex.value;
      ghost var before := stack;
      stack := SwapRemove(stack, index);
      forall k | 0 <= k < |stack|
        ensures stack[k] != handle
      {
        if k == index {
          assert stack[k] == before[|before| - 1];
        } else {
          assert stack[k] == before[k];
        }
      }
      var bytes := boxes[handle.ptr];
      boxes := boxes - {handle.ptr};
      r := Ok(Some(bytes));
    }
  }
}
