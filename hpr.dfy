/** rocblas_hpr_impl: validation of a Hermitian packed rank-1 update (not batched). */
module Hpr {
  import opened Types
  import opened Guards

  datatype HprArgs = HprArgs(uplo: Fill, n: int, alpha: bool, x: bool, incx: int, ap: bool)

  /** The results of the two rocblas_hpr_check_numerics calls and of rocblas_hpr_template. */
  datatype Services = Services(inputCheck: Status, kernel: Status, outputCheck: Status)

  predicate BadSize(g: HprArgs)
  {
    g.n < 0 || g.incx == 0
  }

  function Checks(h: Handle, g: HprArgs): seq<Check>
  {
    [ Check(h.NullHandle?, InvalidHandle),
      Check(IsSizeQuery(h), SizeUnchanged),
      Check(!IsLowerOrUpper(g.uplo), InvalidValue),
      Check(BadSize(g), InvalidSize),
      Check(g.n == 0, Success),
      Check(!g.x || !g.ap || !g.alpha, InvalidPointer) ]
  }

  /** The fixed batch_count of 1 is what the numerics checks see. */
  function AfterGuards(h: Handle, sv: Services): Outcome
  {
    Pipeline(ChecksNumerics(h), 1, sv.inputCheck, sv.kernel, sv.outputCheck)
  }

  function HprImpl(h: Handle, g: HprArgs, sv: Services): Outcome
  {
    Run(Checks(h, g), AfterGuards(h, sv))
  }

  predicate Working(h: Handle)
  {
    h.Handle? && !h.sizeQuery
  }

  lemma HprNullHandle(g: HprArgs, sv: Services)
    ensures HprImpl(NullHandle, g, sv) == Outcome(InvalidHandle, [])
  {
    RunFirstFiring(Checks(NullHandle, g), AfterGuards(NullHandle, sv), 0);
  }

  /** A bad uplo is invalid_value, before the sizes are looked at. */
  lemma HprInvalidUplo(h: Handle, g: HprArgs, sv: Services)
    requires Working(h) && !IsLowerOrUpper(g.uplo)
    ensures HprImpl(h, g, sv) == Outcome(InvalidValue, [])
  {
    RunFirstFiring(Checks(h, g), AfterGuards(h, sv), 2);
  }

  /** invalid_size exactly for n < 0 or incx == 0 (unless a service itself reported it). */
  lemma HprInvalidSize(h: Handle, g: HprArgs, sv: Services)
    requires Working(h) && IsLowerOrUpper(g.uplo)
    ensures BadSize(g) ==> HprImpl(h, g, sv) == Outcome(InvalidSize, [])
    ensures HprImpl(h, g, sv).status == InvalidSize ==>
              BadSize(g) || InvalidSize in {sv.inputCheck, sv.kernel, sv.outputCheck}
  {
    if BadSize(g) {
      RunFirstFiring(Checks(h, g), AfterGuards(h, sv), 3);
    } else {
      RunCases(Checks(h, g), AfterGuards(h, sv));
    }
  }

  /** n == 0 succeeds before the pointers are checked. */
  lemma HprQuickReturn(h: Handle, g: HprArgs, sv: Services)
    requires Working(h) && IsLowerOrUpper(g.uplo) && g.n == 0 && g.incx != 0
    ensures HprImpl(h, g, sv) == Outcome(Success, [])
  {
    RunFirstFiring(Checks(h, g), AfterGuards(h, sv), 4);
  }

  lemma HprNullPointer(h: Handle, g: HprArgs, sv: Services)
    requires Working(h) && IsLowerOrUpper(g.uplo) && !BadSize(g) && g.n != 0
    requires !g.x || !g.ap || !g.alpha
    ensures HprImpl(h, g, sv) == Outcome(InvalidPointer, [])
  {
    RunFirstFiring(Checks(h, g), AfterGuards(h, sv), 5);
  }

  /** Past the guards: a failing input check keeps the kernel from running, and a failing
      kernel returns before the output check. */
  lemma HprPipeline(h: Handle, g: HprArgs, sv: Services)
    requires Working(h) && IsLowerOrUpper(g.uplo) && !BadSize(g) && g.n != 0
    requires g.x && g.ap && g.alpha
    ensures var o := HprImpl(h, g, sv);
      (ChecksNumerics(h) && sv.inputCheck != Success ==> Kernel !in o.steps && o.status == sv.inputCheck)
      && ((!ChecksNumerics(h) || sv.inputCheck == Success) && sv.kernel != Success ==>
            o.status == sv.kernel && OutputCheck(1) !in o.steps)
      && o == Pipeline(ChecksNumerics(h), 1, sv.inputCheck, sv.kernel, sv.outputCheck)
  {
    RunNoneFires(Checks(h, g), AfterGuards(h, sv));
  }
}
