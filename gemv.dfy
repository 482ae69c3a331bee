/** rocblas_gemv_strided_batched_impl: argument validation, the quick returns and the final
    combination of the kernel status with the workspace status. */
module Gemv {
  import opened Types
  import opened Guards

  /** The arguments that the status depends on. Pointers are present (true) or null (false);
      transA and the three strides only reach the workspace-size helper and the kernel. */
  datatype GemvArgs = GemvArgs(
    m: int, n: int, alpha: Scalar, a: bool, lda: int, x: bool, incx: int,
    beta: Scalar, y: bool, incy: int, batchCount: int)

  /** The results of the services the entry point calls: the size-query answer of
      set_optimal_device_memory_size, whether device_malloc gave the workspace, the two
      rocblas_gemv_check_numerics calls and rocblas_internal_gemv_template. */
  datatype GemvServices = GemvServices(
    sizeQuery: Status, workspace: bool, inputCheck: Status, kernel: Status, outputCheck: Status)

  predicate BadSize(g: GemvArgs)
  {
    g.m < 0 || g.n < 0 || g.lda < g.m || g.lda < 1 || g.incx == 0 || g.incy == 0 || g.batchCount < 0
  }

  predicate Empty(g: GemvArgs)
  {
    g.batchCount == 0 || g.m == 0 || g.n == 0
  }

  function Checks(h: Handle, g: GemvArgs, sv: GemvServices): seq<Check>
  {
    [ Check(h.NullHandle?, InvalidHandle),
      Check(IsSizeQuery(h), sv.sizeQuery),
      Check(BadSize(g), InvalidSize),
      Check(Empty(g), Success),
      Check(g.alpha == NullScalar || g.beta == NullScalar, InvalidPointer),
      Check(HostAlphaZero(h, g.alpha) && g.beta == One, Success),
      Check(!HostAlphaZero(h, g.alpha) && (!g.a || !g.x), InvalidPointer),
      Check(!g.y, InvalidPointer) ]
  }

  /** perf_status: degraded when the workspace could not be allocated. */
  function PerfStatus(workspace: bool): Status
  {
    if workspace then Success else PerfDegraded
  }

  /** `status = (status != success) ? status : perf_status`. */
  function Combine(kernel: Status, perf: Status): Status
  {
    if kernel != Success then kernel else perf
  }

  /** What follows the guards: the numerics pipeline, with the kernel's status combined with
      perf_status before the output check. */
  function AfterGuards(h: Handle, g: GemvArgs, sv: GemvServices): Outcome
  {
    Pipeline(ChecksNumerics(h), g.batchCount, sv.inputCheck,
             Combine(sv.kernel, PerfStatus(sv.workspace)), sv.outputCheck)
  }

  function GemvStridedBatched(h: Handle, g: GemvArgs, sv: GemvServices): Outcome
  {
    Run(Checks(h, g, sv), AfterGuards(h, g, sv))
  }

  /** Two argument lists that agree on everything but the five pointers. */
  predicate SameSizes(g: GemvArgs, g': GemvArgs)
  {
    g.m == g'.m && g.n == g'.n && g.lda == g'.lda && g.incx == g'.incx
    && g.incy == g'.incy && g.batchCount == g'.batchCount
  }

  /** A live handle that is not answering a size query: the case where sizes are examined. */
  predicate Working(h: Handle)
  {
    h.Handle? && !h.sizeQuery
  }

  lemma GemvNullHandle(h: Handle, g: GemvArgs, sv: GemvServices)
    requires h.NullHandle?
    ensures GemvStridedBatched(h, g, sv) == Outcome(InvalidHandle, [])
  {
    RunFirstFiring(Checks(h, g, sv), AfterGuards(h, g, sv), 0);
  }

  /** A size query is answered before any size or pointer is validated. */
  lemma GemvSizeQuery(h: Handle, g: GemvArgs, sv: GemvServices)
    requires IsSizeQuery(h)
    ensures GemvStridedBatched(h, g, sv) == Outcome(sv.sizeQuery, [])
  {
    RunFirstFiring(Checks(h, g, sv), AfterGuards(h, g, sv), 1);
  }

  /** Bad sizes give invalid_size whatever the pointers are; and invalid_size is returned only
      for bad sizes, unless one of the services itself reported it. */
  lemma GemvInvalidSize(h: Handle, g: GemvArgs, g': GemvArgs, sv: GemvServices)
    requires Working(h) && SameSizes(g, g')
    ensures BadSize(g) ==> GemvStridedBatched(h, g, sv) == Outcome(InvalidSize, [])
                           && GemvStridedBatched(h, g', sv) == Outcome(InvalidSize, [])
    ensures GemvStridedBatched(h, g, sv).status == InvalidSize ==>
              BadSize(g) || InvalidSize in {sv.inputCheck, sv.kernel, sv.outputCheck}
  {
    var rest := AfterGuards(h, g, sv);
    if BadSize(g) {
      RunFirstFiring(Checks(h, g, sv), rest, 2);
      RunFirstFiring(Checks(h, g', sv), rest, 2);
    } else {
      RunCases(Checks(h, g, sv), rest);
    }
  }

  /** With valid sizes, an empty problem succeeds without looking at any pointer. */
  lemma GemvQuickReturn(h: Handle, g: GemvArgs, sv: GemvServices)
    requires Working(h) && !BadSize(g) && Empty(g)
    ensures GemvStridedBatched(h, g, sv) == Outcome(Success, [])
  {
    RunFirstFiring(Checks(h, g, sv), AfterGuards(h, g, sv), 3);
  }

  /** Past the quick return, a null alpha or beta is an invalid pointer. */
  lemma GemvNullScalar(h: Handle, g: GemvArgs, sv: GemvServices)
    requires Working(h) && !BadSize(g) && !Empty(g)
    requires g.alpha == NullScalar || g.beta == NullScalar
    ensures GemvStridedBatched(h, g, sv) == Outcome(InvalidPointer, [])
  {
    RunFirstFiring(Checks(h, g, sv), AfterGuards(h, g, sv), 4);
  }

  /** Host mode, alpha == 0 and beta == 1: y is already the answer, so the call succeeds
      without examining A, x or y and without any kernel. */
  lemma GemvHostAlphaZeroBetaOne(h: Handle, g: GemvArgs, sv: GemvServices)
    requires Working(h) && !BadSize(g) && !Empty(g)
    requires IsHostMode(h) && g.alpha == Zero && g.beta == One
    ensures GemvStridedBatched(h, g, sv) == Outcome(Success, [])
  {
    RunFirstFiring(Checks(h, g, sv), AfterGuards(h, g, sv), 5);
  }

  /** Past the scalar checks: a null y is always an invalid pointer; a null A or x is one
      except in host mode with alpha == 0, where A and x are never examined. */
  lemma GemvPointerChecks(h: Handle, g: GemvArgs, sv: GemvServices)
    requires Working(h) && !BadSize(g) && !Empty(g)
    requires g.alpha != NullScalar && g.beta != NullScalar
    requires !(HostAlphaZero(h, g.alpha) && g.beta == One)
    ensures !g.y ==> GemvStridedBatched(h, g, sv) == Outcome(InvalidPointer, [])
    ensures !HostAlphaZero(h, g.alpha) && (!g.a || !g.x) ==> GemvStridedBatched(h, g, sv) == Outcome(InvalidPointer, [])
    ensures HostAlphaZero(h, g.alpha) ==>
              forall a: bool, x: bool :: GemvStridedBatched(h, g.(a := a, x := x), sv) == GemvStridedBatched(h, g, sv)
  {
    var rest := AfterGuards(h, g, sv);
    if !HostAlphaZero(h, g.alpha) && (!g.a || !g.x) {
      RunFirstFiring(Checks(h, g, sv), rest, 6);
    } else if !g.y {
      RunFirstFiring(Checks(h, g, sv), rest, 7);
    }
    if HostAlphaZero(h, g.alpha) {
      forall a: bool, x: bool ensures GemvStridedBatched(h, g.(a := a, x := x), sv) == GemvStridedBatched(h, g, sv) {
        var g' := g.(a := a, x := x);
        assert Checks(h, g', sv) == Checks(h, g, sv);
      }
    }
  }

  /** Every guard passes exactly when the handle is live and not querying, the sizes are valid,
      the problem is not empty, alpha and beta are present, the host alpha == 0, beta == 1
      shortcut does not apply, A and x are present unless host alpha == 0, and y is present. */
  predicate GuardsPass(h: Handle, g: GemvArgs)
  {
    Working(h) && !BadSize(g) && !Empty(g) && g.alpha != NullScalar && g.beta != NullScalar
    && !(HostAlphaZero(h, g.alpha) && g.beta == One)
    && (HostAlphaZero(h, g.alpha) || (g.a && g.x)) && g.y
  }

  /** After the guards: a failing kernel status is returned as it is; a successful kernel
      becomes perf_degraded when the workspace allocation failed, and that status returns
      before the output numerics check; otherwise the result is success. The kernel runs
      exactly when every guard passes and the input check (if on) passes. */
  lemma GemvFinalStatus(h: Handle, g: GemvArgs, sv: GemvServices)
    requires GuardsPass(h, g)
    ensures var o := GemvStridedBatched(h, g, sv);
      var numerics := ChecksNumerics(h);
      (numerics && sv.inputCheck != Success ==> o == Outcome(sv.inputCheck, [InputCheck(g.batchCount)]))
      && (!numerics || sv.inputCheck == Success ==>
            (sv.kernel != Success ==> o.status == sv.kernel)
            && (sv.kernel == Success && !sv.workspace ==> o.status == PerfDegraded && OutputCheck(g.batchCount) !in o.steps)
            && (sv.kernel == Success && sv.workspace ==>
                  o.status == (if numerics then sv.outputCheck else Success)))
    ensures GemvStridedBatched(h, g, sv).status == Success <==>
              (!ChecksNumerics(h) || (sv.inputCheck == Success && sv.outputCheck == Success))
              && sv.kernel == Success && sv.workspace
  {
    var rest := AfterGuards(h, g, sv);
    RunNoneFires(Checks(h, g, sv), rest);
  }

  /** A call reaches the kernel only when every guard passes. */
  lemma GemvKernelNeedsGuards(h: Handle, g: GemvArgs, sv: GemvServices)
    ensures Kernel in GemvStridedBatched(h, g, sv).steps ==> GuardsPass(h, g)
  {
    var rest := AfterGuards(h, g, sv);
    RunCases(Checks(h, g, sv), rest);
    if NoneFires(Checks(h, g, sv)) {
      var c := Checks(h, g, sv);
      assert !c[0].fires && !c[1].fires && !c[2].fires && !c[3].fires;
      assert !c[4].fires && !c[5].fires && !c[6].fires && !c[7].fires;
    }
  }
}
