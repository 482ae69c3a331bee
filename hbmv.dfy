/** rocblas_hbmv_batched_impl: validation of a Hermitian band matrix-vector product, then the
    numerics -> kernel -> numerics pipeline. */
module Hbmv {
  import opened Types
  import opened Guards

  datatype HbmvArgs = HbmvArgs(
    uplo: Fill, n: int, k: int, alpha: Scalar, a: bool, lda: int, x: bool, incx: int,
    beta: Scalar, y: bool, incy: int, batchCount: int)

  /** The results of the two rocblas_hbmv_check_numerics calls and of rocblas_hbmv_template. */
  datatype Services = Services(inputCheck: Status, kernel: Status, outputCheck: Status)

  /** The band needs lda > k: the comparison is strict. */
  predicate BadSize(g: HbmvArgs)
  {
    g.n < 0 || g.k < 0 || g.lda <= g.k || g.incx == 0 || g.incy == 0 || g.batchCount < 0
  }

  predicate Empty(g: HbmvArgs)
  {
    g.n == 0 || g.batchCount == 0
  }

  /** There is no check of uplo anywhere in this chain. */
  function Checks(h: Handle, g: HbmvArgs): seq<Check>
  {
    [ Check(h.NullHandle?, InvalidHandle),
      Check(IsSizeQuery(h), SizeUnchanged),
      Check(BadSize(g), InvalidSize),
      Check(Empty(g), Success),
      Check(g.alpha == NullScalar || g.beta == NullScalar, InvalidPointer),
      Check(HostAlphaZero(h, g.alpha) && g.beta == One, Success),
      Check(!HostAlphaZero(h, g.alpha) && (!g.a || !g.x), InvalidPointer),
      Check(!g.y, InvalidPointer) ]
  }

  function AfterGuards(h: Handle, g: HbmvArgs, sv: Services): Outcome
  {
    Pipeline(ChecksNumerics(h), g.batchCount, sv.inputCheck, sv.kernel, sv.outputCheck)
  }

  function HbmvBatched(h: Handle, g: HbmvArgs, sv: Services): Outcome
  {
    Run(Checks(h, g), AfterGuards(h, g, sv))
  }

  predicate Working(h: Handle)
  {
    h.Handle? && !h.sizeQuery
  }

  lemma HbmvNullHandle(g: HbmvArgs, sv: Services)
    ensures HbmvBatched(NullHandle, g, sv) == Outcome(InvalidHandle, [])
  {
    RunFirstFiring(Checks(NullHandle, g), AfterGuards(NullHandle, g, sv), 0);
  }

  /** invalid_size exactly for n < 0, k < 0, lda <= k, incx == 0, incy == 0 or
      batch_count < 0 (unless a service itself reported invalid_size). */
  lemma HbmvInvalidSize(h: Handle, g: HbmvArgs, sv: Services)
    requires Working(h)
    ensures BadSize(g) ==> HbmvBatched(h, g, sv) == Outcome(InvalidSize, [])
    ensures HbmvBatched(h, g, sv).status == InvalidSize ==>
              BadSize(g) || InvalidSize in {sv.inputCheck, sv.kernel, sv.outputCheck}
  {
    if BadSize(g) {
      RunFirstFiring(Checks(h, g), AfterGuards(h, g, sv), 2);
    } else {
      RunCases(Checks(h, g), AfterGuards(h, g, sv));
    }
  }

  /** n == 0 or batch_count == 0 succeeds before any pointer is checked. */
  lemma HbmvQuickReturn(h: Handle, g: HbmvArgs, sv: Services)
    requires Working(h) && !BadSize(g) && Empty(g)
    ensures HbmvBatched(h, g, sv) == Outcome(Success, [])
  {
    RunFirstFiring(Checks(h, g), AfterGuards(h, g, sv), 3);
  }

  lemma HbmvNullScalar(h: Handle, g: HbmvArgs, sv: Services)
    requires Working(h) && !BadSize(g) && !Empty(g)
    requires g.alpha == NullScalar || g.beta == NullScalar
    ensures HbmvBatched(h, g, sv) == Outcome(InvalidPointer, [])
  {
    RunFirstFiring(Checks(h, g), AfterGuards(h, g, sv), 4);
  }

  /** Host mode with alpha == 0 and beta == 1 succeeds without checking A, x or y; otherwise
      a null A or x (outside host mode with alpha == 0) and a null y are invalid pointers. */
  lemma HbmvPointerChecks(h: Handle, g: HbmvArgs, sv: Services)
    requires Working(h) && !BadSize(g) && !Empty(g)
    requires g.alpha != NullScalar && g.beta != NullScalar
    ensures HostAlphaZero(h, g.alpha) && g.beta == One ==> HbmvBatched(h, g, sv) == Outcome(Success, [])
    ensures !(HostAlphaZero(h, g.alpha) && g.beta == One) ==>
              (!g.y ==> HbmvBatched(h, g, sv) == Outcome(InvalidPointer, []))
              && (!HostAlphaZero(h, g.alpha) && (!g.a || !g.x) ==> HbmvBatched(h, g, sv) == Outcome(InvalidPointer, []))
  {
    if HostAlphaZero(h, g.alpha) && g.beta == One {
      RunFirstFiring(Checks(h, g), AfterGuards(h, g, sv), 5);
    } else if !HostAlphaZero(h, g.alpha) && (!g.a || !g.x) {
      RunFirstFiring(Checks(h, g), AfterGuards(h, g, sv), 6);
    } else if !g.y {
      RunFirstFiring(Checks(h, g), AfterGuards(h, g, sv), 7);
    }
  }

  /** uplo is never validated: the outcome is the same for every fill mode, full included. */
  lemma HbmvIgnoresUplo(h: Handle, g: HbmvArgs, sv: Services, uplo: Fill)
    ensures HbmvBatched(h, g.(uplo := uplo), sv) == HbmvBatched(h, g, sv)
  {
    assert Checks(h, g.(uplo := uplo)) == Checks(h, g);
  }

  predicate GuardsPass(h: Handle, g: HbmvArgs)
  {
    Working(h) && !BadSize(g) && !Empty(g) && g.alpha != NullScalar && g.beta != NullScalar
    && !(HostAlphaZero(h, g.alpha) && g.beta == One)
    && (HostAlphaZero(h, g.alpha) || (g.a && g.x)) && g.y
  }

  /** Past the guards: a failing input check returns before the kernel, a failing kernel
      before the output check, and the numerics checks see the caller's batch_count. */
  lemma HbmvPipeline(h: Handle, g: HbmvArgs, sv: Services)
    requires GuardsPass(h, g)
    ensures var o := HbmvBatched(h, g, sv);
      (ChecksNumerics(h) && sv.inputCheck != Success ==> o == Outcome(sv.inputCheck, [InputCheck(g.batchCount)]))
      && ((!ChecksNumerics(h) || sv.inputCheck == Success) && sv.kernel != Success ==>
            o.status == sv.kernel && OutputCheck(g.batchCount) !in o.steps)
      && (o.status == Success <==>
            (!ChecksNumerics(h) || (sv.inputCheck == Success && sv.outputCheck == Success)) && sv.kernel == Success)
  {
    RunNoneFires(Checks(h, g), AfterGuards(h, g, sv));
  }
}
