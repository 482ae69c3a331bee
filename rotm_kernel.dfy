/** rocblas_rotm.hpp: the modified Givens update of rotm_kernel_calc, run as a sequential
    loop per batch, quick_return_param, and rocblas_rotm_template with its quick returns,
    negative-increment shift, grid size and pointer-mode branch. Elements are integers. */
module RotmKernel {
  import opened Types
  import opened Strides

  /** Threads per block of the rotm kernels. */
  const NB: int := 512

  /** The five values of a rotm parameter block, in memory order p[0..4]:
      flag, h11, h21, h12, h22. */
  datatype Param = Param(flag: int, h11: int, h21: int, h12: int, h22: int)

  function ParamAt(p: seq<int>, at: int): Param
    requires 0 <= at && at + 5 <= |p|
  {
    Param(p[at], p[at + 1], p[at + 2], p[at + 3], p[at + 4])
  }

  /** The new x and y element the kernel computes from the old pair (w, z). */
  function NewX(p: Param, w: int, z: int): int
  {
    if p.flag == -2 then w
    else if p.flag < 0 then w * p.h11 + z * p.h12
    else if p.flag == 0 then w + z * p.h12
    else w * p.h11 + z
  }

  function NewY(p: Param, w: int, z: int): int
  {
    if p.flag == -2 then z
    else if p.flag < 0 then w * p.h21 + z * p.h22
    else if p.flag == 0 then w * p.h21 + z
    else -w + z * p.h22
  }

  /** The flag conventions of the modified Givens transform: -2 is the identity; a
      negative flag applies the full matrix H = [h11 h12; h21 h22]; flag 0 is H with
      h11 = h22 = 1, and a positive flag is H with h12 = 1, h21 = -1, so that the entries
      a flag implies are never read from the parameter block. */
  lemma RotmFlagConventions(p: Param, w: int, z: int)
    ensures p.flag == -2 ==> NewX(p, w, z) == w && NewY(p, w, z) == z
    ensures p.flag < 0 && p.flag != -2 ==>
              NewX(p, w, z) == w * p.h11 + z * p.h12 && NewY(p, w, z) == w * p.h21 + z * p.h22
    ensures p.flag == 0 ==>
              NewX(p, w, z) == NewX(p.(flag := -1, h11 := 1, h22 := 1), w, z)
              && NewY(p, w, z) == NewY(p.(flag := -1, h11 := 1, h22 := 1), w, z)
    ensures p.flag > 0 ==>
              NewX(p, w, z) == NewX(p.(flag := -1, h12 := 1, h21 := -1), w, z)
              && NewY(p, w, z) == NewY(p.(flag := -1, h12 := 1, h21 := -1), w, z)
    ensures forall a, b :: p.flag == 0 ==>
              NewX(p.(h11 := a, h22 := b), w, z) == NewX(p, w, z) && NewY(p.(h11 := a, h22 := b), w, z) == NewY(p, w, z)
    ensures forall a, b :: p.flag > 0 ==>
              NewX(p.(h12 := a, h21 := b), w, z) == NewX(p, w, z) && NewY(p.(h12 := a, h21 := b), w, z) == NewY(p, w, z)
  {
  }

  /** The transform is linear in (w, z): it maps sums to sums, as a matrix must. */
  lemma RotmLinear(p: Param, w1: int, z1: int, w2: int, z2: int)
    ensures NewX(p, w1 + w2, z1 + z2) == NewX(p, w1, z1) + NewX(p, w2, z2)
    ensures NewY(p, w1 + w2, z1 + z2) == NewY(p, w1, z1) + NewY(p, w2, z2)
  {
    if p.flag != -2 && p.flag < 0 {
      assert (w1 + w2) * p.h11 == w1 * p.h11 + w2 * p.h11;
      assert (z1 + z2) * p.h12 == z1 * p.h12 + z2 * p.h12;
      assert (w1 + w2) * p.h21 == w1 * p.h21 + w2 * p.h21;
      assert (z1 + z2) * p.h22 == z1 * p.h22 + z2 * p.h22;
    } else if p.flag == 0 {
      assert (z1 + z2) * p.h12 == z1 * p.h12 + z2 * p.h12;
      assert (w1 + w2) * p.h21 == w1 * p.h21 + w2 * p.h21;
    } else if p.flag > 0 {
      assert (w1 + w2) * p.h11 == w1 * p.h11 + w2 * p.h11;
      assert (z1 + z2) * p.h22 == z1 * p.h22 + z2 * p.h22;
    }
  }

  /** Every element the kernel reads and writes lies inside its buffer. */
  predicate InBounds(len: int, base: int, inc: int, n: int)
  {
    forall i :: 0 <= i < n ==> 0 <= At(base, inc, i) < len
  }

  /** rotm_kernel_calc for one batch, its threads tid = 0..n-1 run one after the other:
      x[baseX + tid*incx] and y[baseY + tid*incy] get the transformed pair, unless flag is -2;
      nothing else is written. x and y are distinct buffers and the increments non-zero. */
  method RotmKernelCalc(n: int, x: array<int>, baseX: int, incx: int, y: array<int>, baseY: int, incy: int, p: Param)
    requires x != y && incx != 0 && incy != 0 && n >= 0
    requires InBounds(x.Length, baseX, incx, n) && InBounds(y.Length, baseY, incy, n)
    modifies x, y
    ensures forall i :: 0 <= i < n ==>
      x[At(baseX, incx, i)] == NewX(p, old(x[At(baseX, incx, i)]), old(y[At(baseY, incy, i)]))
      && y[At(baseY, incy, i)] == NewY(p, old(x[At(baseX, incx, i)]), old(y[At(baseY, incy, i)]))
    ensures forall k :: 0 <= k < x.Length && !Touched(baseX, incx, n, k) ==> x[k] == old(x[k])
    ensures forall k :: 0 <= k < y.Length && !Touched(baseY, incy, n, k) ==> y[k] == old(y[k])
    ensures p.flag == -2 ==> x[..] == old(x[..]) && y[..] == old(y[..])
  {
    ghost var x0, y0 := x[..], y[..];
    var tid := 0;
    while tid < n
      invariant 0 <= tid <= n
      invariant forall i :: 0 <= i < tid ==>
        x[At(baseX, incx, i)] == NewX(p, x0[At(baseX, incx, i)], y0[At(baseY, incy, i)])
        && y[At(baseY, incy, i)] == NewY(p, x0[At(baseX, incx, i)], y0[At(baseY, incy, i)])
      invariant forall k :: 0 <= k < x.Length && !Touched(baseX, incx, tid, k) ==> x[k] == x0[k]
      invariant forall k :: 0 <= k < y.Length && !Touched(baseY, incy, tid, k) ==> y[k] == y0[k]
      invariant p.flag == -2 ==> x[..] == x0 && y[..] == y0
    {
      var ix, iy := At(baseX, incx, tid), At(baseY, incy, tid);
      TouchedStep(baseX, incx, tid, ix);
      TouchedStep(baseY, incy, tid, iy);
      forall i | 0 <= i < tid
        ensures At(baseX, incx, i) != ix && At(baseY, incy, i) != iy
      {
        AtInjective(baseX, incx, i, tid);
        AtInjective(baseY, incy, i, tid);
      }
      if p.flag != -2 {
        var w, z := x[ix], y[iy];
        x[ix] := NewX(p, w, z);
        y[iy] := NewY(p, w, z);
      }
      forall k | 0 <= k < x.Length && !Touched(baseX, incx, tid + 1, k)
        ensures x[k] == x0[k]
      {
        TouchedStep(baseX, incx, tid, k);
      }
      forall k | 0 <= k < y.Length && !Touched(baseY, incy, tid + 1, k)
        ensures y[k] == y0[k]
      {
        TouchedStep(baseY, incy, tid, k);
      }
      tid := tid + 1;
    }
  }

  /** quick_return_param: for a parameter block given by a plain pointer, the call does nothing
      in host mode when flag is -2 and all batches share the block (stride 0); for an array of
      per-batch pointers (`paramArray`) it never returns early. */
  predicate QuickReturnParam(h: Handle, paramArray: bool, param: seq<int>, strideParam: int)
    requires |param| >= 1
  {
    !paramArray && IsHostMode(h) && param[0] == -2 && strideParam == 0
  }

  /** The transforms rocblas_rotm_template runs and the status it returns. */
  datatype TemplateRun = TemplateRun(status: Status, launch: Launch)

  /** The template's decision: quick returns, then the launch of (n-1)/NB + 1 by batch_count
      blocks of NB threads, in device mode with per-batch parameter blocks and in host mode
      only for the plain (non-batched) routine. */
  function TemplatePlan(h: Handle, batched: bool, paramArray: bool, n: int, param: seq<int>, strideParam: int, batchCount: int): TemplateRun
    requires h.Handle? && |param| >= 1
  {
    if n <= 0 || batchCount <= 0 then TemplateRun(Success, NoLaunch)
    else if QuickReturnParam(h, paramArray, param, strideParam) then TemplateRun(Success, NoLaunch)
    else if h.pointerMode == DeviceMode || !batched then TemplateRun(Success, Launch(Blocks(n, NB), batchCount, NB))
    else TemplateRun(NotImplemented, NoLaunch)
  }

  /** The only status other than success is not_implemented, for host mode with a batched or
      strided call; a launch always covers all n elements of every batch with no idle block. */
  lemma TemplatePlanStatus(h: Handle, batched: bool, paramArray: bool, n: int, param: seq<int>, strideParam: int, batchCount: int)
    requires h.Handle? && |param| >= 1
    ensures var r := TemplatePlan(h, batched, paramArray, n, param, strideParam, batchCount);
      (r.status == NotImplemented <==>
         n > 0 && batchCount > 0 && h.pointerMode == HostMode && batched
         && !QuickReturnParam(h, paramArray, param, strideParam))
      && (r.status != NotImplemented ==> r.status == Success)
      && (n <= 0 || batchCount <= 0 ==> r == TemplateRun(Success, NoLaunch))
      && (r.launch.Launch? ==>
            r.launch.blocksY == batchCount && r.launch.threads == NB
            && (r.launch.blocksX - 1) * NB < n <= r.launch.blocksX * NB)
  {
    if n >= 1 {
      BlocksCover(n, NB);
    }
  }

  /** The parameter block batch b uses: in device mode its own block at
      offset_param + b*stride_param, in host mode the values param[0..4] for every batch. */
  function BatchParam(h: Handle, param: seq<int>, offsetParam: int, strideParam: int, b: int): Param
    requires h.Handle? && |param| >= 5
    requires h.pointerMode == DeviceMode ==> 0 <= Base(offsetParam, strideParam, b) && Base(offsetParam, strideParam, b) + 5 <= |param|
  {
    if h.pointerMode == DeviceMode then ParamAt(param, Base(offsetParam, strideParam, b)) else ParamAt(param, 0)
  }

  /** The quick return is sound: when it fires, the block every batch would use has flag -2,
      so each batch's transform is the identity and running the kernel would leave x and y
      as they are. */
  lemma QuickReturnParamIsIdentity(h: Handle, paramArray: bool, param: seq<int>, offsetParam: int, strideParam: int)
    requires h.Handle? && |param| >= 5
    ensures QuickReturnParam(h, paramArray, param, strideParam) ==>
              forall b, w, z ::
                NewX(BatchParam(h, param, offsetParam, strideParam, b), w, z) == w
                && NewY(BatchParam(h, param, offsetParam, strideParam, b), w, z) == z
  {
    if QuickReturnParam(h, paramArray, param, strideParam) {
      forall b, w, z
        ensures NewX(BatchParam(h, param, offsetParam, strideParam, b), w, z) == w
        ensures NewY(BatchParam(h, param, offsetParam, strideParam, b), w, z) == z
      {
        var p := BatchParam(h, param, offsetParam, strideParam, b);
        assert p == ParamAt(param, 0);
        RotmFlagConventions(p, w, z);
      }
    }
  }

  /** Every parameter block a device-mode launch reads lies inside the buffer. */
  predicate ParamsInBounds(param: seq<int>, offsetParam: int, strideParam: int, batchCount: int)
  {
    forall b :: 0 <= b < batchCount ==> 0 <= Base(offsetParam, strideParam, b) && Base(offsetParam, strideParam, b) + 5 <= |param|
  }

  /** The elements of batch b of a strided vector after the negative-increment shift. */
  predicate VectorInBounds(len: int, offset: int, inc: int, stride: int, n: int, batchCount: int)
  {
    forall b :: 0 <= b < batchCount ==> InBounds(len, Base(Shift(offset, inc, n), stride, b), inc, n)
  }

  /** rocblas_rotm_template over strided buffers x and y (a batched call's array of pointers
      is modelled as one buffer with a stride). Batch b's element i is
      x[shift_x + b*stride_x + i*incx], where shift_x moves a negative increment's start to
      the far end; the batches are applied one after the other and do not overlap. */
  method RotmTemplate(h: Handle, batched: bool, paramArray: bool, n: int,
                      x: array<int>, offsetX: int, incx: int, strideX: int,
                      y: array<int>, offsetY: int, incy: int, strideY: int,
                      param: seq<int>, offsetParam: int, strideParam: int, batchCount: int)
    returns (run: TemplateRun)
    requires h.Handle? && |param| >= 5 && x != y && incx != 0 && incy != 0
    requires batchCount > 1 ==> strideX >= n * Abs(incx) && strideY >= n * Abs(incy)
    requires VectorInBounds(x.Length, offsetX, incx, strideX, n, batchCount)
    requires VectorInBounds(y.Length, offsetY, incy, strideY, n, batchCount)
    requires h.pointerMode == DeviceMode ==> ParamsInBounds(param, offsetParam, strideParam, batchCount)
    modifies x, y
    ensures run == TemplatePlan(h, batched, paramArray, n, param, strideParam, batchCount)
    ensures run.launch.Launch? ==> forall b, i :: 0 <= b < batchCount && 0 <= i < n ==>
      var ix := At(Base(Shift(offsetX, incx, n), strideX, b), incx, i);
      var iy := At(Base(Shift(offsetY, incy, n), strideY, b), incy, i);
      x[ix] == NewX(BatchParam(h, param, offsetParam, strideParam, b), old(x[ix]), old(y[iy]))
      && y[iy] == NewY(BatchParam(h, param, offsetParam, strideParam, b), old(x[ix]), old(y[iy]))
    ensures run.launch.Launch? ==>
      (forall k :: 0 <= k < x.Length && !TouchedBatches(Shift(offsetX, incx, n), strideX, incx, n, batchCount, k) ==> x[k] == old(x[k]))
      && (forall k :: 0 <= k < y.Length && !TouchedBatches(Shift(offsetY, incy, n), strideY, incy, n, batchCount, k) ==> y[k] == old(y[k]))
    ensures run.launch.NoLaunch? ==> x[..] == old(x[..]) && y[..] == old(y[..])
  {
    if n <= 0 || batchCount <= 0 {
      return TemplateRun(Success, NoLaunch);
    }
    if QuickReturnParam(h, paramArray, param, strideParam) {
      return TemplateRun(Success, NoLaunch);
    }
    if h.pointerMode == HostMode && batched {
      return TemplateRun(NotImplemented, NoLaunch);
    }
    var shiftX, shiftY := Shift(offsetX, incx, n), Shift(offsetY, incy, n);
    ghost var x0, y0 := x[..], y[..];
    var b := 0;
    while b < batchCount
      invariant 0 <= b <= batchCount
      invariant forall c, i :: 0 <= c < b && 0 <= i < n ==>
        var ix := At(Base(shiftX, strideX, c), incx, i);
        var iy := At(Base(shiftY, strideY, c), incy, i);
        x[ix] == NewX(BatchParam(h, param, offsetParam, strideParam, c), x0[ix], y0[iy])
        && y[iy] == NewY(BatchParam(h, param, offsetParam, strideParam, c), x0[ix], y0[iy])
      invariant forall k :: 0 <= k < x.Length && !TouchedBatches(shiftX, strideX, incx, n, b, k) ==> x[k] == x0[k]
      invariant forall k :: 0 <= k < y.Length && !TouchedBatches(shiftY, strideY, incy, n, b, k) ==> y[k] == y0[k]
    {
      BatchStep(h, n, x, y, x0, y0, shiftX, offsetX, incx, strideX, shiftY, offsetY, incy, strideY,
                param, offsetParam, strideParam, batchCount, b);
      b := b + 1;
    }
    return TemplateRun(Success, Launch(Blocks(n, NB), batchCount, NB));
  }

  /** One batch of the template's loop: runs the kernel on batch b and re-establishes the
      loop's invariant for b + 1. */
  method BatchStep(h: Handle, n: int, x: array<int>, y: array<int>, ghost x0: seq<int>, ghost y0: seq<int>,
                   shiftX: int, offsetX: int, incx: int, strideX: int,
                   shiftY: int, offsetY: int, incy: int, strideY: int,
                   param: seq<int>, offsetParam: int, strideParam: int, batchCount: int, b: int)
    requires h.Handle? && |param| >= 5 && x != y && incx != 0 && incy != 0 && n > 0 && 0 <= b < batchCount
    requires |x0| == x.Length && |y0| == y.Length
    requires shiftX == Shift(offsetX, incx, n) && shiftY == Shift(offsetY, incy, n)
    requires batchCount > 1 ==> strideX >= n * Abs(incx) && strideY >= n * Abs(incy)
    requires VectorInBounds(x.Length, offsetX, incx, strideX, n, batchCount)
    requires VectorInBounds(y.Length, offsetY, incy, strideY, n, batchCount)
    requires h.pointerMode == DeviceMode ==> ParamsInBounds(param, offsetParam, strideParam, batchCount)
    requires forall c, i :: 0 <= c < b && 0 <= i < n ==>
        var ix := At(Base(shiftX, strideX, c), incx, i);
        var iy := At(Base(shiftY, strideY, c), incy, i);
        x[ix] == NewX(BatchParam(h, param, offsetParam, strideParam, c), x0[ix], y0[iy])
        && y[iy] == NewY(BatchParam(h, param, offsetParam, strideParam, c), x0[ix], y0[iy])
    requires forall k :: 0 <= k < x.Length && !TouchedBatches(shiftX, strideX, incx, n, b, k) ==> x[k] == x0[k]
    requires forall k :: 0 <= k < y.Length && !TouchedBatches(shiftY, strideY, incy, n, b, k) ==> y[k] == y0[k]
    modifies x, y
    ensures forall c, i :: 0 <= c < b + 1 && 0 <= i < n ==>
        var ix := At(Base(shiftX, strideX, c), incx, i);
        var iy := At(Base(shiftY, strideY, c), incy, i);
        x[ix] == NewX(BatchParam(h, param, offsetParam, strideParam, c), x0[ix], y0[iy])
        && y[iy] == NewY(BatchParam(h, param, offsetParam, strideParam, c), x0[ix], y0[iy])
    ensures forall k :: 0 <= k < x.Length && !TouchedBatches(shiftX, strideX, incx, n, b + 1, k) ==> x[k] == x0[k]
    ensures forall k :: 0 <= k < y.Length && !TouchedBatches(shiftY, strideY, incy, n, b + 1, k) ==> y[k] == y0[k]
  {
    var baseX, baseY := Base(shiftX, strideX, b), Base(shiftY, strideY, b);
    assert InBounds(x.Length, baseX, incx, n) && InBounds(y.Length, baseY, incy, n);
    var p := if h.pointerMode == DeviceMode then ParamAt(param, Base(offsetParam, strideParam, b)) else ParamAt(param, 0);
    assert p == BatchParam(h, param, offsetParam, strideParam, b);
    BatchFrame(offsetX, incx, n, strideX, b);
    BatchFrame(offsetY, incy, n, strideY, b);
    ghost var xb, yb := x[..], y[..];
    RotmKernelCalc(n, x, baseX, incx, y, baseY, incy, p);
    forall c, i | 0 <= c < b + 1 && 0 <= i < n
      ensures var ix := At(Base(shiftX, strideX, c), incx, i);
        var iy := At(Base(shiftY, strideY, c), incy, i);
        x[ix] == NewX(BatchParam(h, param, offsetParam, strideParam, c), x0[ix], y0[iy])
        && y[iy] == NewY(BatchParam(h, param, offsetParam, strideParam, c), x0[ix], y0[iy])
    {
      var ix := At(Base(shiftX, strideX, c), incx, i);
      var iy := At(Base(shiftY, strideY, c), incy, i);
      if c < b {
        assert !Touched(baseX, incx, n, ix) && !Touched(baseY, incy, n, iy);
        assert x[ix] == xb[ix] && y[iy] == yb[iy];
      } else {
        assert !TouchedBatches(shiftX, strideX, incx, n, b, ix);
        assert !TouchedBatches(shiftY, strideY, incy, n, b, iy);
        assert xb[ix] == x0[ix] && yb[iy] == y0[iy];
      }
    }
    forall k | 0 <= k < x.Length && !TouchedBatches(shiftX, strideX, incx, n, b + 1, k)
      ensures x[k] == x0[k]
    {
      TouchedBatchesStep(shiftX, strideX, incx, n, b, k);
    }
    forall k | 0 <= k < y.Length && !TouchedBatches(shiftY, strideY, incy, n, b + 1, k)
      ensures y[k] == y0[k]
    {
      TouchedBatchesStep(shiftY, strideY, incy, n, b, k);
    }
  }
}
