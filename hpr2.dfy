/** rocblas_hpr2_batched_impl: validation of a Hermitian packed rank-2 update. */
module Hpr2 {
  import opened Types
  import opened Guards

  /** alpha is only tested for null: there is no alpha == 0 shortcut. */
  datatype Hpr2Args = Hpr2Args(
    uplo: Fill, n: int, alpha: bool, x: bool, incx: int, y: bool, incy: int,
    ap: bool, batchCount: int)

  /** The results of the two rocblas_hpr2_check_numerics calls and of rocblas_hpr2_template. */
  datatype Services = Services(inputCheck: Status, kernel: Status, outputCheck: Status)

  predicate BadSize(g: Hpr2Args)
  {
    g.n < 0 || g.incx == 0 || g.incy == 0 || g.batchCount < 0
  }

  predicate Empty(g: Hpr2Args)
  {
    g.n == 0 || g.batchCount == 0
  }

  function Checks(h: Handle, g: Hpr2Args): seq<Check>
  {
    [ Check(h.NullHandle?, InvalidHandle),
      Check(IsSizeQuery(h), SizeUnchanged),
      Check(!IsLowerOrUpper(g.uplo), InvalidValue),
      Check(BadSize(g), InvalidSize),
      Check(Empty(g), Success),
      Check(!g.x || !g.y || !g.ap || !g.alpha, InvalidPointer) ]
  }

  /** Both numerics checks are called with a batch count of 1. */
  function AfterGuards(h: Handle, sv: Services): Outcome
  {
    Pipeline(ChecksNumerics(h), 1, sv.inputCheck, sv.kernel, sv.outputCheck)
  }

  function Hpr2Batched(h: Handle, g: Hpr2Args, sv: Services): Outcome
  {
    Run(Checks(h, g), AfterGuards(h, sv))
  }

  predicate Working(h: Handle)
  {
    h.Handle? && !h.sizeQuery
  }

  lemma Hpr2NullHandle(g: Hpr2Args, sv: Services)
    ensures Hpr2Batched(NullHandle, g, sv) == Outcome(InvalidHandle, [])
  {
    RunFirstFiring(Checks(NullHandle, g), AfterGuards(NullHandle, sv), 0);
  }

  /** uplo = fill_full (or any value but lower and upper) is invalid_value. */
  lemma Hpr2InvalidUplo(h: Handle, g: Hpr2Args, sv: Services)
    requires Working(h) && !IsLowerOrUpper(g.uplo)
    ensures Hpr2Batched(h, g, sv) == Outcome(InvalidValue, [])
  {
    RunFirstFiring(Checks(h, g), AfterGuards(h, sv), 2);
  }

  /** invalid_size exactly for n < 0, incx == 0, incy == 0 or batch_count < 0 (unless a
      service itself reported it). */
  lemma Hpr2InvalidSize(h: Handle, g: Hpr2Args, sv: Services)
    requires Working(h) && IsLowerOrUpper(g.uplo)
    ensures BadSize(g) ==> Hpr2Batched(h, g, sv) == Outcome(InvalidSize, [])
    ensures Hpr2Batched(h, g, sv).status == InvalidSize ==>
              BadSize(g) || InvalidSize in {sv.inputCheck, sv.kernel, sv.outputCheck}
  {
    if BadSize(g) {
      RunFirstFiring(Checks(h, g), AfterGuards(h, sv), 3);
    } else {
      RunCases(Checks(h, g), AfterGuards(h, sv));
    }
  }

  /** The client test's expectation: with every pointer null, bad sizes give invalid_size and
      an empty problem gives success. */
  lemma Hpr2AllNullPointers(h: Handle, uplo: Fill, n: int, incx: int, incy: int, batchCount: int, sv: Services)
    requires Working(h) && IsLowerOrUpper(uplo)
    requires var g := Hpr2Args(uplo, n, false, false, incx, false, incy, false, batchCount);
      BadSize(g) || Empty(g)
    ensures var g := Hpr2Args(uplo, n, false, false, incx, false, incy, false, batchCount);
      Hpr2Batched(h, g, sv) == Outcome(if BadSize(g) then InvalidSize else Success, [])
  {
    var g := Hpr2Args(uplo, n, false, false, incx, false, incy, false, batchCount);
    if BadSize(g) {
      RunFirstFiring(Checks(h, g), AfterGuards(h, sv), 3);
    } else {
      RunFirstFiring(Checks(h, g), AfterGuards(h, sv), 4);
    }
  }

  /** Past the quick return any null x, y, AP or alpha is an invalid pointer. */
  lemma Hpr2NullPointer(h: Handle, g: Hpr2Args, sv: Services)
    requires Working(h) && IsLowerOrUpper(g.uplo) && !BadSize(g) && !Empty(g)
    requires !g.x || !g.y || !g.ap || !g.alpha
    ensures Hpr2Batched(h, g, sv) == Outcome(InvalidPointer, [])
  {
    RunFirstFiring(Checks(h, g), AfterGuards(h, sv), 5);
  }

  /** Past the guards: the numerics checks are told batch_count 1 whatever the caller passed,
      and the first failure among input check, kernel and output check is returned. */
  lemma Hpr2Pipeline(h: Handle, g: Hpr2Args, sv: Services)
    requires Working(h) && IsLowerOrUpper(g.uplo) && !BadSize(g) && !Empty(g)
    requires g.x && g.y && g.ap && g.alpha
    ensures Hpr2Batched(h, g, sv) == Pipeline(ChecksNumerics(h), 1, sv.inputCheck, sv.kernel, sv.outputCheck)
    ensures forall s :: s in Hpr2Batched(h, g, sv).steps && !s.Kernel? ==> s.batchCount == 1
  {
    RunNoneFires(Checks(h, g), AfterGuards(h, sv));
  }
}
