/** rocblas_rotm_impl: the guard chain of the non-batched rotm, its numerics checks of x
    and y, and the template call with one batch. */
module Rotm {
  import opened Types
  import opened Guards
  import CheckNumerics
  import RotmKernel

  /** The parameter block pointer: null, or the five values it points to. */
  datatype ParamPtr = NullParam | ParamValues(values: seq<int>)

  datatype RotmArgs = RotmArgs(n: int, x: bool, incx: int, y: bool, incy: int, param: ParamPtr)

  /** The device copies and flags behind the four vector checks: x then y on input, x then
      y on output. */
  datatype Services = Services(inX: CheckNumerics.Probe, inY: CheckNumerics.Probe,
                               outX: CheckNumerics.Probe, outY: CheckNumerics.Probe)

  /** A parameter block always holds five values. */
  predicate WellFormed(g: RotmArgs)
  {
    g.param.ParamValues? ==> |g.param.values| == 5
  }

  /** rocblas_rotm_check_numerics: x is checked first and a failure is returned before y is
      looked at; the rotm entry point passes batch_count 1. */
  function RotmCheckNumerics(n: int, x: bool, incx: int, y: bool, incy: int, batchCount: int,
                             mode: int, isInput: bool, px: CheckNumerics.Probe, py: CheckNumerics.Probe): Status
  {
    var cx := CheckNumerics.CheckVector(n, x, incx, batchCount, mode, isInput, px);
    if cx.status != Success then cx.status
    else CheckNumerics.CheckVector(n, y, incy, batchCount, mode, isInput, py).status
  }

  function Checks(h: Handle, g: RotmArgs): seq<Check>
    requires WellFormed(g)
  {
    [ Check(h.NullHandle?, InvalidHandle),
      Check(IsSizeQuery(h), SizeUnchanged),
      Check(g.n <= 0, Success),
      Check(g.param.NullParam?, InvalidPointer),
      Check(h.Handle? && g.param.ParamValues? && RotmKernel.QuickReturnParam(h, false, g.param.values, 0), Success),
      Check(!g.x || !g.y, InvalidPointer) ]
  }

  /** The status rocblas_rotm_template returns for the plain routine: one batch, a shared
      parameter block. */
  function TemplateStatus(h: Handle, g: RotmArgs): Status
    requires WellFormed(g)
  {
    if h.Handle? && g.param.ParamValues? then
      RotmKernel.TemplatePlan(h, false, false, g.n, g.param.values, 0, 1).status
    else Success
  }

  function AfterGuards(h: Handle, g: RotmArgs, sv: Services): Outcome
    requires WellFormed(g)
  {
    var mode := if h.Handle? then h.checkNumerics else 0;
    Pipeline(ChecksNumerics(h), 1,
             RotmCheckNumerics(g.n, g.x, g.incx, g.y, g.incy, 1, mode, true, sv.inX, sv.inY),
             TemplateStatus(h, g),
             RotmCheckNumerics(g.n, g.x, g.incx, g.y, g.incy, 1, mode, false, sv.outX, sv.outY))
  }

  function RotmImpl(h: Handle, g: RotmArgs, sv: Services): Outcome
    requires WellFormed(g)
  {
    Run(Checks(h, g), AfterGuards(h, g, sv))
  }

  predicate Working(h: Handle)
  {
    h.Handle? && !h.sizeQuery
  }

  lemma RotmNullHandle(g: RotmArgs, sv: Services)
    requires WellFormed(g)
    ensures RotmImpl(NullHandle, g, sv) == Outcome(InvalidHandle, [])
  {
    RunFirstFiring(Checks(NullHandle, g), AfterGuards(NullHandle, g, sv), 0);
  }

  lemma RotmSizeQuery(h: Handle, g: RotmArgs, sv: Services)
    requires WellFormed(g) && IsSizeQuery(h)
    ensures RotmImpl(h, g, sv) == Outcome(SizeUnchanged, [])
  {
    RunFirstFiring(Checks(h, g), AfterGuards(h, g, sv), 1);
  }

  /** n <= 0 succeeds before param, x or y are looked at. */
  lemma RotmQuickReturn(h: Handle, g: RotmArgs, sv: Services)
    requires WellFormed(g) && Working(h) && g.n <= 0
    ensures RotmImpl(h, g, sv) == Outcome(Success, [])
  {
    RunFirstFiring(Checks(h, g), AfterGuards(h, g, sv), 2);
  }

  /** With n > 0: a null param is invalid_pointer; in host mode a flag of -2 is success
      without x or y being checked (it is not a shortcut in device mode, where the flag is
      not read on the host); otherwise a null x or y is invalid_pointer. */
  lemma RotmPointerChecks(h: Handle, g: RotmArgs, sv: Services)
    requires WellFormed(g) && Working(h) && g.n > 0
    ensures g.param.NullParam? ==> RotmImpl(h, g, sv) == Outcome(InvalidPointer, [])
    ensures g.param.ParamValues? && h.pointerMode == HostMode && g.param.values[0] == -2 ==>
              RotmImpl(h, g, sv) == Outcome(Success, [])
    ensures g.param.ParamValues? && !(h.pointerMode == HostMode && g.param.values[0] == -2) && (!g.x || !g.y) ==>
              RotmImpl(h, g, sv) == Outcome(InvalidPointer, [])
  {
    var checks, rest := Checks(h, g), AfterGuards(h, g, sv);
    if g.param.NullParam? {
      RunFirstFiring(checks, rest, 3);
    } else if h.pointerMode == HostMode && g.param.values[0] == -2 {
      RunFirstFiring(checks, rest, 4);
    } else if !g.x || !g.y {
      RunFirstFiring(checks, rest, 5);
    }
  }

  /** incx and incy are never validated: no guard of the chain returns invalid_size, and the
      call returns it only if a device copy of the numerics checks does. */
  lemma RotmNoInvalidSize(h: Handle, g: RotmArgs, sv: Services)
    requires WellFormed(g)
    ensures forall c :: c in Checks(h, g) ==> c.status != InvalidSize
    ensures RotmImpl(h, g, sv).status == InvalidSize ==>
              InvalidSize in {sv.inX.toDevice, sv.inX.toHost, sv.inY.toDevice, sv.inY.toHost,
                              sv.outX.toDevice, sv.outX.toHost, sv.outY.toDevice, sv.outY.toHost}
  {
    RunCases(Checks(h, g), AfterGuards(h, g, sv));
    if Working(h) && g.n > 0 && g.param.ParamValues? {
      RotmKernel.TemplatePlanStatus(h, false, false, g.n, g.param.values, 0, 1);
    }
  }

  predicate GuardsPass(h: Handle, g: RotmArgs)
    requires WellFormed(g)
  {
    Working(h) && g.n > 0 && g.param.ParamValues?
    && !(h.pointerMode == HostMode && g.param.values[0] == -2) && g.x && g.y
  }

  /** Past the guards the template, called for one batch of the plain routine, always
      succeeds, so the call fails only through a numerics check: the input check of x and
      y, then the template, then the output check, each given batch_count 1. */
  lemma RotmPipeline(h: Handle, g: RotmArgs, sv: Services)
    requires WellFormed(g) && GuardsPass(h, g)
    ensures TemplateStatus(h, g) == Success
    ensures var o := RotmImpl(h, g, sv);
      o == Pipeline(ChecksNumerics(h), 1,
                    RotmCheckNumerics(g.n, g.x, g.incx, g.y, g.incy, 1, h.checkNumerics, true, sv.inX, sv.inY),
                    Success,
                    RotmCheckNumerics(g.n, g.x, g.incx, g.y, g.incy, 1, h.checkNumerics, false, sv.outX, sv.outY))
      && (!ChecksNumerics(h) ==> o == Outcome(Success, [Kernel]))
  {
    RunNoneFires(Checks(h, g), AfterGuards(h, g, sv));
    RotmKernel.TemplatePlanStatus(h, false, false, g.n, g.param.values, 0, 1);
  }

  /** The numerics check stops at the first vector that fails; x failing means y is not
      checked. */
  lemma RotmCheckNumericsOrder(n: int, x: bool, incx: int, y: bool, incy: int, batchCount: int,
                               mode: int, isInput: bool, px: CheckNumerics.Probe, py: CheckNumerics.Probe)
    ensures var cx := CheckNumerics.CheckVector(n, x, incx, batchCount, mode, isInput, px);
      var cy := CheckNumerics.CheckVector(n, y, incy, batchCount, mode, isInput, py);
      (cx.status != Success ==> RotmCheckNumerics(n, x, incx, y, incy, batchCount, mode, isInput, px, py) == cx.status)
      && (cx.status == Success ==> RotmCheckNumerics(n, x, incx, y, incy, batchCount, mode, isInput, px, py) == cy.status)
      && (RotmCheckNumerics(n, x, incx, y, incy, batchCount, mode, isInput, px, py) == Success <==>
            cx.status == Success && cy.status == Success)
  {
  }
}
