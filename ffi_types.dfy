/**
 * The plain types shared by the host application and the enclave across the
 * SGX boundary (sgx/ffi-types/src/types.rs).  Raw pointers are addresses:
 * a `nat`, with 0 standing for the null pointer.
 */
module FfiTypes {

  /** `core::ptr::null_mut()`. */
  const NULL: nat := 0

  /** An opaque pointer into host (untrusted) memory. */
  datatype UserSpaceBuffer = UserSpaceBuffer(ptr: nat)

  /** An opaque pointer to a boxed `Vec<u8>` inside the enclave. */
  datatype EnclaveBuffer = EnclaveBuffer(ptr: nat)
  {
    predicate IsNull() { ptr == NULL }

    /** `EnclaveBuffer::unsafe_clone`: a second handle to the same allocation. */
    function UnsafeClone(): (c: EnclaveBuffer)
      ensures c.ptr == ptr && c == this
    {
      EnclaveBuffer(ptr)
    }
  }

  /** `EnclaveBuffer::default()`: the null handle. */
  function DefaultEnclaveBuffer(): (b: EnclaveBuffer)
    ensures b.IsNull()
  {
    EnclaveBuffer(NULL)
  }

  /** A pointer to host memory holding the storage context. */
  datatype Ctx = Ctx(data: nat)
  {
    /** `Ctx::unsafe_clone`. */
    function UnsafeClone(): (c: Ctx)
      ensures c.data == data && c == this
    {
      Ctx(data)
    }
  }

  datatype HealthCheckResult = HealthSuccess

  /** `HealthCheckResult::default()`. */
  function DefaultHealthCheck(): (h: HealthCheckResult)
    ensures h.HealthSuccess?
  {
    HealthSuccess
  }

  /**
   * The status an ocall hands back.  The enum in types.rs declares only
   * `Success`, `Failure` and `Panic`, but the host handlers return `None` and
   * `TooBig` and the enclave wrappers match on `None`; all five are modelled
   * and `Declared` tells the three declared ones apart.
   */
  datatype OcallReturn = Success | Failure | Panic | None | TooBig
  {
    predicate Declared() { Success? || Failure? || Panic? }

    /** The `{:?}` rendering used in the wrappers' error messages. */
    function Name(): (s: string)
      ensures |s| > 0
    {
      match this
      case Success => "Success"
      case Failure => "Failure"
      case Panic => "Panic"
      case None => "None"
      case TooBig => "TooBig"
    }
  }

  /** The variants used on the ocall paths that types.rs does not declare. */
  lemma UndeclaredVariants()
    ensures !OcallReturn.None.Declared() && !OcallReturn.TooBig.Declared()
    ensures forall r: OcallReturn :: r.Declared() <==> r in {Success, Failure, Panic}
  {
  }

  /** Distinct statuses print distinctly, so an error message names its status. */
  lemma NamesDistinct(a: OcallReturn, b: OcallReturn)
    requires a != b
    ensures a.Name() != b.Name()
  {
  }

  /** The SGX transport status of an ecall or ocall (`sgx_status_t`). */
  datatype SgxStatus = SgxSuccess | SgxErrorBusy | SgxOtherError(code: nat)
}
