/** rocblas_trsm_batched_ex_impl and the compute_type dispatch of rocblas_trsm_batched_ex. */
module Trsm {
  import opened Types
  import opened Guards

  /** Block sizes of the single- and double-precision solvers. */
  const STRSM_BLOCK: int := 128
  const DTRSM_BLOCK: int := 128

  /** The arguments the status depends on; transA and diag only reach the templates. */
  datatype TrsmArgs = TrsmArgs(
    side: Side, uplo: Fill, m: int, n: int, alpha: bool, a: bool, lda: int,
    b: bool, ldb: int, batchCount: int)

  /** The results of rocblas_internal_trsm_template_mem (memory setup, which also answers a
      size query) and of rocblas_internal_trsm_template. */
  datatype TrsmServices = TrsmServices(memory: Status, template: Status)

  /** A is k by k: k = m when A multiplies from the left, n otherwise. */
  function K(t: TrsmArgs): int
  {
    if t.side == SideLeft then t.m else t.n
  }

  predicate BadSize(t: TrsmArgs)
  {
    t.batchCount < 0 || t.m < 0 || t.n < 0 || t.lda < K(t) || t.ldb < t.m
  }

  predicate Empty(t: TrsmArgs)
  {
    t.m == 0 || t.n == 0 || t.batchCount == 0
  }

  /** The status of the quick return: a size query is told that no memory is needed. */
  function QuickStatus(h: Handle): Status
  {
    if IsSizeQuery(h) then SizeUnchanged else Success
  }

  function Checks(h: Handle, t: TrsmArgs): seq<Check>
  {
    [ Check(h.NullHandle?, InvalidHandle),
      Check(!IsLowerOrUpper(t.uplo), InvalidValue),
      Check(BadSize(t), InvalidSize),
      Check(Empty(t), QuickStatus(h)),
      Check(!t.alpha || !t.a || !t.b, InvalidPointer) ]
  }

  /** A memory setup that neither succeeded nor only degraded performance is returned as it is;
      otherwise the template runs, and its failure wins over perf_status. */
  function AfterGuards(sv: TrsmServices): Outcome
  {
    if sv.memory != Success && sv.memory != PerfDegraded then Outcome(sv.memory, [])
    else Outcome(if sv.template != Success then sv.template else sv.memory, [Kernel])
  }

  function TrsmBatchedExImpl(h: Handle, t: TrsmArgs, sv: TrsmServices): Outcome
  {
    Run(Checks(h, t), AfterGuards(sv))
  }

  /** The element types the solver is instantiated for. */
  datatype Elem = Float | Double | FloatComplex | DoubleComplex

  datatype Dispatch = NotDispatched | Dispatched(block: int, elem: Elem)

  /** The `switch(compute_type)` of rocblas_trsm_batched_ex. */
  function TrsmDispatch(computeType: DataType): Dispatch
  {
    match computeType
    case F64R => Dispatched(DTRSM_BLOCK, Double)
    case F32R => Dispatched(STRSM_BLOCK, Float)
    case F64C => Dispatched(DTRSM_BLOCK, DoubleComplex)
    case F32C => Dispatched(STRSM_BLOCK, FloatComplex)
    case _ => NotDispatched
  }

  /** rocblas_trsm_batched_ex: the type switch comes first, then the implementation. */
  function TrsmBatchedEx(h: Handle, t: TrsmArgs, computeType: DataType, sv: TrsmServices): Outcome
  {
    if TrsmDispatch(computeType).NotDispatched? then Outcome(NotImplemented, [])
    else TrsmBatchedExImpl(h, t, sv)
  }

  /** Double precision (real or complex) runs with DTRSM_BLOCK and single precision with
      STRSM_BLOCK, both 128; every other compute_type is not_implemented, even with a null
      handle. */
  lemma TrsmDispatchTypes(h: Handle, t: TrsmArgs, computeType: DataType, sv: TrsmServices)
    ensures computeType in {F64R, F64C} ==> TrsmDispatch(computeType).Dispatched? && TrsmDispatch(computeType).block == 128
    ensures computeType in {F32R, F32C} ==> TrsmDispatch(computeType).Dispatched? && TrsmDispatch(computeType).block == 128
    ensures computeType !in {F64R, F64C, F32R, F32C} ==> TrsmBatchedEx(h, t, computeType, sv) == Outcome(NotImplemented, [])
    ensures computeType in {F64R, F64C, F32R, F32C} ==> TrsmBatchedEx(h, t, computeType, sv) == TrsmBatchedExImpl(h, t, sv)
  {
  }

  lemma TrsmNullHandle(t: TrsmArgs, sv: TrsmServices)
    ensures TrsmBatchedExImpl(NullHandle, t, sv) == Outcome(InvalidHandle, [])
  {
    RunFirstFiring(Checks(NullHandle, t), AfterGuards(sv), 0);
  }

  /** An uplo other than lower or upper is invalid_value, whatever the sizes and pointers. */
  lemma TrsmInvalidUplo(h: Handle, t: TrsmArgs, sv: TrsmServices)
    requires h.Handle? && !IsLowerOrUpper(t.uplo)
    ensures TrsmBatchedExImpl(h, t, sv) == Outcome(InvalidValue, [])
  {
    RunFirstFiring(Checks(h, t), AfterGuards(sv), 1);
  }

  /** With a valid uplo, bad sizes give invalid_size whatever the pointers; and invalid_size
      is returned only for bad sizes, unless a template reported it. */
  lemma TrsmInvalidSize(h: Handle, t: TrsmArgs, sv: TrsmServices)
    requires h.Handle? && IsLowerOrUpper(t.uplo)
    ensures BadSize(t) ==> TrsmBatchedExImpl(h, t, sv) == Outcome(InvalidSize, [])
    ensures TrsmBatchedExImpl(h, t, sv).status == InvalidSize ==>
              BadSize(t) || sv.memory == InvalidSize || sv.template == InvalidSize
  {
    if BadSize(t) {
      RunFirstFiring(Checks(h, t), AfterGuards(sv), 2);
    } else {
      RunCases(Checks(h, t), AfterGuards(sv));
    }
  }

  /** An empty problem with valid arguments returns size_unchanged to a size query and
      success otherwise, before any pointer is checked. */
  lemma TrsmQuickReturn(h: Handle, t: TrsmArgs, sv: TrsmServices)
    requires h.Handle? && IsLowerOrUpper(t.uplo) && !BadSize(t) && Empty(t)
    ensures TrsmBatchedExImpl(h, t, sv) == Outcome(if h.sizeQuery then SizeUnchanged else Success, [])
  {
    RunFirstFiring(Checks(h, t), AfterGuards(sv), 3);
  }

  /** Past the quick return a null alpha, A or B is an invalid pointer. */
  lemma TrsmNullPointer(h: Handle, t: TrsmArgs, sv: TrsmServices)
    requires h.Handle? && IsLowerOrUpper(t.uplo) && !BadSize(t) && !Empty(t)
    requires !t.alpha || !t.a || !t.b
    ensures TrsmBatchedExImpl(h, t, sv) == Outcome(InvalidPointer, [])
  {
    RunFirstFiring(Checks(h, t), AfterGuards(sv), 4);
  }

  /** With every guard passed: a memory status other than success or perf_degraded returns
      without running the template; otherwise a failing template status wins, and a
      successful one gives the memory status (success or perf_degraded). */
  lemma TrsmFinalStatus(h: Handle, t: TrsmArgs, sv: TrsmServices)
    requires h.Handle? && IsLowerOrUpper(t.uplo) && !BadSize(t) && !Empty(t)
    requires t.alpha && t.a && t.b
    ensures var o := TrsmBatchedExImpl(h, t, sv);
      (sv.memory !in {Success, PerfDegraded} ==> o == Outcome(sv.memory, []))
      && (sv.memory in {Success, PerfDegraded} ==>
            o.steps == [Kernel]
            && (sv.template != Success ==> o.status == sv.template)
            && (sv.template == Success ==> o.status == sv.memory))
  {
    RunNoneFires(Checks(h, t), AfterGuards(sv));
  }
}
