/** rocblas_hpmv_batched_impl: validation of a Hermitian packed matrix-vector product. */
module Hpmv {
  import opened Types
  import opened Guards

  datatype HpmvArgs = HpmvArgs(
    uplo: Fill, n: int, alpha: Scalar, ap: bool, x: bool, incx: int,
    beta: Scalar, y: bool, incy: int, batchCount: int)

  /** The results of the two rocblas_hpmv_check_numerics calls and of rocblas_hpmv_template. */
  datatype Services = Services(inputCheck: Status, kernel: Status, outputCheck: Status)

  predicate BadSize(g: HpmvArgs)
  {
    g.n < 0 || g.incx == 0 || g.incy == 0 || g.batchCount < 0
  }

  predicate Empty(g: HpmvArgs)
  {
    g.n == 0 || g.batchCount == 0
  }

  function Checks(h: Handle, g: HpmvArgs): seq<Check>
  {
    [ Check(h.NullHandle?, InvalidHandle),
      Check(IsSizeQuery(h), SizeUnchanged),
      Check(!IsLowerOrUpper(g.uplo), InvalidValue),
      Check(BadSize(g), InvalidSize),
      Check(Empty(g), Success),
      Check(g.alpha == NullScalar || g.beta == NullScalar, InvalidPointer),
      Check(HostAlphaZero(h, g.alpha) && g.beta == One, Success),
      Check(!HostAlphaZero(h, g.alpha) && (!g.ap || !g.x), InvalidPointer),
      Check(!g.y, InvalidPointer) ]
  }

  function AfterGuards(h: Handle, g: HpmvArgs, sv: Services): Outcome
  {
    Pipeline(ChecksNumerics(h), g.batchCount, sv.inputCheck, sv.kernel, sv.outputCheck)
  }

  function HpmvBatched(h: Handle, g: HpmvArgs, sv: Services): Outcome
  {
    Run(Checks(h, g), AfterGuards(h, g, sv))
  }

  predicate Working(h: Handle)
  {
    h.Handle? && !h.sizeQuery
  }

  lemma HpmvNullHandle(g: HpmvArgs, sv: Services)
    ensures HpmvBatched(NullHandle, g, sv) == Outcome(InvalidHandle, [])
  {
    RunFirstFiring(Checks(NullHandle, g), AfterGuards(NullHandle, g, sv), 0);
  }

  /** A bad uplo is invalid_value even when the sizes are bad too. */
  lemma HpmvInvalidUplo(h: Handle, g: HpmvArgs, sv: Services)
    requires Working(h) && !IsLowerOrUpper(g.uplo)
    ensures HpmvBatched(h, g, sv) == Outcome(InvalidValue, [])
  {
    RunFirstFiring(Checks(h, g), AfterGuards(h, g, sv), 2);
  }

  /** invalid_size exactly for n < 0, incx == 0, incy == 0 or batch_count < 0 (unless a
      service itself reported it). */
  lemma HpmvInvalidSize(h: Handle, g: HpmvArgs, sv: Services)
    requires Working(h) && IsLowerOrUpper(g.uplo)
    ensures BadSize(g) ==> HpmvBatched(h, g, sv) == Outcome(InvalidSize, [])
    ensures HpmvBatched(h, g, sv).status == InvalidSize ==>
              BadSize(g) || InvalidSize in {sv.inputCheck, sv.kernel, sv.outputCheck}
  {
    if BadSize(g) {
      RunFirstFiring(Checks(h, g), AfterGuards(h, g, sv), 3);
    } else {
      RunCases(Checks(h, g), AfterGuards(h, g, sv));
    }
  }

  /** n == 0 or batch_count == 0 succeeds whatever the pointers. */
  lemma HpmvQuickReturn(h: Handle, g: HpmvArgs, sv: Services)
    requires Working(h) && IsLowerOrUpper(g.uplo) && !BadSize(g) && Empty(g)
    ensures HpmvBatched(h, g, sv) == Outcome(Success, [])
  {
    RunFirstFiring(Checks(h, g), AfterGuards(h, g, sv), 4);
  }

  lemma HpmvNullScalar(h: Handle, g: HpmvArgs, sv: Services)
    requires Working(h) && IsLowerOrUpper(g.uplo) && !BadSize(g) && !Empty(g)
    requires g.alpha == NullScalar || g.beta == NullScalar
    ensures HpmvBatched(h, g, sv) == Outcome(InvalidPointer, [])
  {
    RunFirstFiring(Checks(h, g), AfterGuards(h, g, sv), 5);
  }

  /** Host mode with alpha == 0 and beta == 1 succeeds; otherwise a null AP or x (outside host
      mode with alpha == 0) and a null y are invalid pointers. */
  lemma HpmvPointerChecks(h: Handle, g: HpmvArgs, sv: Services)
    requires Working(h) && IsLowerOrUpper(g.uplo) && !BadSize(g) && !Empty(g)
    requires g.alpha != NullScalar && g.beta != NullScalar
    ensures HostAlphaZero(h, g.alpha) && g.beta == One ==> HpmvBatched(h, g, sv) == Outcome(Success, [])
    ensures !(HostAlphaZero(h, g.alpha) && g.beta == One) ==>
              (!g.y ==> HpmvBatched(h, g, sv) == Outcome(InvalidPointer, []))
              && (!HostAlphaZero(h, g.alpha) && (!g.ap || !g.x) ==> HpmvBatched(h, g, sv) == Outcome(InvalidPointer, []))
  {
    if HostAlphaZero(h, g.alpha) && g.beta == One {
      RunFirstFiring(Checks(h, g), AfterGuards(h, g, sv), 6);
    } else if !HostAlphaZero(h, g.alpha) && (!g.ap || !g.x) {
      RunFirstFiring(Checks(h, g), AfterGuards(h, g, sv), 7);
    } else if !g.y {
      RunFirstFiring(Checks(h, g), AfterGuards(h, g, sv), 8);
    }
  }

  predicate GuardsPass(h: Handle, g: HpmvArgs)
  {
    Working(h) && IsLowerOrUpper(g.uplo) && !BadSize(g) && !Empty(g)
    && g.alpha != NullScalar && g.beta != NullScalar
    && !(HostAlphaZero(h, g.alpha) && g.beta == One)
    && (HostAlphaZero(h, g.alpha) || (g.ap && g.x)) && g.y
  }

  /** Past the guards the call is the numerics pipeline over the caller's batch_count. */
  lemma HpmvPipeline(h: Handle, g: HpmvArgs, sv: Services)
    requires GuardsPass(h, g)
    ensures HpmvBatched(h, g, sv) == Pipeline(ChecksNumerics(h), g.batchCount, sv.inputCheck, sv.kernel, sv.outputCheck)
  {
    RunNoneFires(Checks(h, g), AfterGuards(h, g, sv));
  }
}
