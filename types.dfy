/** Values shared by every rocBLAS entry point of this model: the status enum, the handle,
    pointer modes, fill modes, scalar arguments and the datatype tags. */
module Types {

  /** rocblas_status. */
  datatype Status =
    | Success
    | InvalidHandle
    | NotImplemented
    | InvalidPointer
    | InvalidSize
    | MemoryError
    | InternalError
    | PerfDegraded
    | SizeQueryMismatch
    | SizeIncreased
    | SizeUnchanged
    | InvalidValue
    | Continue
    | CheckNumericsFail

  /** rocblas_pointer_mode: where scalar arguments such as alpha and beta live. */
  datatype PointerMode = HostMode | DeviceMode

  /** rocblas_fill. */
  datatype Fill = FillUpper | FillLower | FillFull

  /** rocblas_side. */
  datatype Side = SideLeft | SideRight

  /** The library handle as the entry points see it: either the null pointer, or a context
      with its pointer mode, the device-memory size-query flag and the check_numerics mode. */
  datatype Handle =
    | NullHandle
    | Handle(pointerMode: PointerMode, sizeQuery: bool, checkNumerics: int)

  /** A scalar argument passed by pointer. Only the facts the entry points test are kept:
      whether the pointer is null and, when it is read on the host, whether the value is 0 or 1. */
  datatype Scalar = NullScalar | Zero | One | OtherValue

  /** rocblas_datatype. */
  datatype DataType =
    | F16R | F32R | F64R | F16C | F32C | F64C
    | I8R | U8R | I32R | U32R | I8C | U8C | I32C | U32C
    | BF16R | BF16C

  predicate IsSizeQuery(h: Handle) {
    h.Handle? && h.sizeQuery
  }

  predicate IsHostMode(h: Handle) {
    h.Handle? && h.pointerMode == HostMode
  }

  /** `if(check_numerics)`: any non-zero mode turns the numerics checks on. */
  predicate ChecksNumerics(h: Handle) {
    h.Handle? && h.checkNumerics != 0
  }

  /** The value test `!*alpha` done on the host: only in host pointer mode is the scalar read. */
  predicate HostAlphaZero(h: Handle, alpha: Scalar) {
    IsHostMode(h) && alpha == Zero
  }

  predicate IsLowerOrUpper(uplo: Fill) {
    uplo == FillLower || uplo == FillUpper
  }
}
