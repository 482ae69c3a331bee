/** rocblas_her.hpp: the Hermitian rank-1 update A := A + alpha*x*x^H of her_kernel_calc,
    run as a sequential nested loop per batch; the alpha == 0 exit of rocblas_her_kernel;
    rocblas_her_template's quick return, shift and grid; and rocblas_her_check_numerics.
    Complex elements are pairs of integers and alpha is a real integer. */
module Her {
  import opened Types
  import opened Strides
  import CheckNumerics

  datatype Complex = Complex(re: int, im: int)

  function Add(a: Complex, b: Complex): Complex
  {
    Complex(a.re + b.re, a.im + b.im)
  }

  function Mul(a: Complex, b: Complex): Complex
  {
    Complex(a.re * b.re - a.im * b.im, a.re * b.im + a.im * b.re)
  }

  function Conj(a: Complex): Complex
  {
    Complex(a.re, -a.im)
  }

  function Scale(s: int, a: Complex): Complex
  {
    Complex(s * a.re, s * a.im)
  }

  /** The rank-1 term `alpha * x_i * conj(x_j)` of entry (i, j). */
  function Term(alpha: int, xi: Complex, xj: Complex): Complex
  {
    Scale(alpha, Mul(xi, Conj(xj)))
  }

  /** Whether entry (row i, column j) lies strictly inside the triangle being updated:
      above the diagonal for upper, below it for lower. */
  predicate InTriangle(upper: bool, i: int, j: int)
  {
    if upper then i < j else j < i
  }

  /** The new value of entry (row i, column j) of an n by n matrix, given x_i, x_j and
      the old entry a: the strict triangle gets the rank-1 term added; the diagonal keeps
      its real part plus alpha*|x_i|^2 and loses any imaginary part; every other entry
      keeps its value. */
  function HerValue(upper: bool, alpha: int, xi: Complex, xj: Complex, a: Complex, i: int, j: int): Complex
  {
    if InTriangle(upper, i, j) then Add(a, Term(alpha, xi, xj))
    else if i == j then Complex(a.re + alpha * (xi.re * xi.re + xi.im * xi.im), 0)
    else a
  }

  /** The rank-1 term is Hermitian: entry (j, i) is the conjugate of entry (i, j). */
  lemma TermHermitian(alpha: int, xi: Complex, xj: Complex)
    ensures Term(alpha, xi, xj) == Conj(Term(alpha, xj, xi))
  {
    assert xi.im * xj.re - xi.re * xj.im == -(xj.im * xi.re - xj.re * xi.im);
    assert alpha * (xi.im * xj.re - xi.re * xj.im) == -(alpha * (xj.im * xi.re - xj.re * xi.im));
    assert xi.re * xj.re + xi.im * xj.im == xj.re * xi.re + xj.im * xi.im;
  }

  /** On the diagonal the rank-1 term alpha*x_i*conj(x_i) is the real alpha*|x_i|^2: the
      updated diagonal entry is the real part of the full update a + alpha*x_i*conj(x_i),
      with its imaginary part forced to zero. */
  lemma DiagonalIsRealUpdate(upper: bool, alpha: int, xi: Complex, a: Complex, i: int)
    ensures Term(alpha, xi, xi).im == 0
    ensures HerValue(upper, alpha, xi, xi, a, i, i) == Complex(Add(a, Term(alpha, xi, xi)).re, 0)
  {
    assert xi.im * xi.re - xi.re * xi.im == 0;
    assert xi.re * xi.re - xi.im * -xi.im == xi.re * xi.re + xi.im * xi.im;
  }

  /** Only one triangle is written: for upper, entries below the diagonal keep their value,
      for lower, entries above it; inside the updated triangle the term is added. */
  lemma HerValueTriangles(upper: bool, alpha: int, xi: Complex, xj: Complex, a: Complex, i: int, j: int)
    ensures upper && i > j ==> HerValue(upper, alpha, xi, xj, a, i, j) == a
    ensures !upper && i < j ==> HerValue(upper, alpha, xi, xj, a, i, j) == a
    ensures (if upper then i < j else j < i) ==> HerValue(upper, alpha, xi, xj, a, i, j) == Add(a, Term(alpha, xi, xj))
    ensures i == j ==> HerValue(upper, alpha, xi, xj, a, i, j).im == 0
  {
  }

  /** Where entry (row i, column j) of a column-major matrix with leading dimension lda
      lives: `base + i + lda*j`. */
  function APos(base: int, lda: int, i: int, j: int): int
  {
    base + i + lda * j
  }

  lemma APosInjective(base: int, lda: int, i1: int, j1: int, i2: int, j2: int)
    requires 0 <= i1 < lda && 0 <= i2 < lda
    requires APos(base, lda, i1, j1) == APos(base, lda, i2, j2)
    ensures i1 == i2 && j1 == j2
  {
    var d := j1 - j2;
    assert d * lda == i2 - i1;
    if d > 0 {
      MulMonotone(1, d, lda);
    } else if d < 0 {
      MulMonotone(1, -d, lda);
    }
  }

  /** Element k is one of the n by n entries of the matrix at `base`. */
  predicate InMatrix(base: int, lda: int, n: int, k: int)
  {
    exists i, j :: 0 <= i < n && 0 <= j < n && k == APos(base, lda, i, j)
  }

  predicate MatrixInBounds(len: int, base: int, lda: int, n: int)
  {
    forall i, j :: 0 <= i < n && 0 <= j < n ==> 0 <= APos(base, lda, i, j) < len
  }

  predicate VectorInBounds(len: int, base: int, inc: int, n: int)
  {
    forall i :: 0 <= i < n ==> 0 <= At(base, inc, i) < len
  }

  /** Entry (i, j) has been visited once the column loop passed column j, or is in column j
      above row tx. */
  predicate Visited(ty: int, tx: int, i: int, j: int)
  {
    j < ty || (j == ty && i < tx)
  }

  /** rocblas_her_kernel for one batch, its threads (tx, ty) in [0, n) x [0, n) run one after
      the other (threads outside that square write nothing). With alpha == 0 it returns
      without writing; otherwise every entry of the n by n matrix gets its HerValue, and
      nothing else in A changes. x is read only and is a different buffer from A. */
  method HerKernel(upper: bool, n: int, alpha: int, x: array<Complex>, baseX: int, incx: int,
                   a: array<Complex>, baseA: int, lda: int)
    requires x != a && incx != 0 && 0 <= n <= lda
    requires VectorInBounds(x.Length, baseX, incx, n) && MatrixInBounds(a.Length, baseA, lda, n)
    modifies a
    ensures alpha == 0 ==> a[..] == old(a[..])
    ensures alpha != 0 ==> forall i, j :: 0 <= i < n && 0 <= j < n ==>
      a[APos(baseA, lda, i, j)] ==
        HerValue(upper, alpha, x[At(baseX, incx, i)], x[At(baseX, incx, j)], old(a[APos(baseA, lda, i, j)]), i, j)
    ensures forall k :: 0 <= k < a.Length && !InMatrix(baseA, lda, n, k) ==> a[k] == old(a[k])
  {
    if alpha == 0 {
      return;
    }
    ghost var a0 := a[..];
    var ty := 0;
    while ty < n
      invariant 0 <= ty <= n
      invariant forall i, j :: 0 <= i < n && 0 <= j < n ==>
        a[APos(baseA, lda, i, j)] ==
          if j < ty then HerValue(upper, alpha, x[At(baseX, incx, i)], x[At(baseX, incx, j)], a0[APos(baseA, lda, i, j)], i, j)
          else a0[APos(baseA, lda, i, j)]
      invariant forall k :: 0 <= k < a.Length && !InMatrix(baseA, lda, n, k) ==> a[k] == a0[k]
    {
      var tx := 0;
      while tx < n
        invariant 0 <= tx <= n
        invariant forall i, j :: 0 <= i < n && 0 <= j < n ==>
          a[APos(baseA, lda, i, j)] ==
            if Visited(ty, tx, i, j) then HerValue(upper, alpha, x[At(baseX, incx, i)], x[At(baseX, incx, j)], a0[APos(baseA, lda, i, j)], i, j)
            else a0[APos(baseA, lda, i, j)]
        invariant forall k :: 0 <= k < a.Length && !InMatrix(baseA, lda, n, k) ==> a[k] == a0[k]
      {
        HerCalc(upper, n, alpha, x, baseX, incx, a, baseA, lda, a0, tx, ty);
        tx := tx + 1;
      }
      ty := ty + 1;
    }
  }

  /** her_kernel_calc for thread (tx, ty): one step of the nested loop. */
  method HerCalc(upper: bool, n: int, alpha: int, x: array<Complex>, baseX: int, incx: int,
                 a: array<Complex>, baseA: int, lda: int, ghost a0: seq<Complex>, tx: int, ty: int)
    requires x != a && incx != 0 && 0 <= n <= lda && 0 <= tx < n && 0 <= ty < n && |a0| == a.Length
    requires VectorInBounds(x.Length, baseX, incx, n) && MatrixInBounds(a.Length, baseA, lda, n)
    requires forall i, j :: 0 <= i < n && 0 <= j < n ==>
      a[APos(baseA, lda, i, j)] ==
        if Visited(ty, tx, i, j) then HerValue(upper, alpha, x[At(baseX, incx, i)], x[At(baseX, incx, j)], a0[APos(baseA, lda, i, j)], i, j)
        else a0[APos(baseA, lda, i, j)]
    requires forall k :: 0 <= k < a.Length && !InMatrix(baseA, lda, n, k) ==> a[k] == a0[k]
    modifies a
    ensures forall i, j :: 0 <= i < n && 0 <= j < n ==>
      a[APos(baseA, lda, i, j)] ==
        if Visited(ty, tx + 1, i, j) then HerValue(upper, alpha, x[At(baseX, incx, i)], x[At(baseX, incx, j)], a0[APos(baseA, lda, i, j)], i, j)
        else a0[APos(baseA, lda, i, j)]
    ensures forall k :: 0 <= k < a.Length && !InMatrix(baseA, lda, n, k) ==> a[k] == a0[k]
  {
    var p := APos(baseA, lda, tx, ty);
    assert InMatrix(baseA, lda, n, p);
    forall i, j | 0 <= i < n && 0 <= j < n && (i != tx || j != ty)
      ensures APos(baseA, lda, i, j) != p
    {
      if APos(baseA, lda, i, j) == p {
        APosInjective(baseA, lda, i, j, tx, ty);
      }
    }
    var xi, xj := x[At(baseX, incx, tx)], x[At(baseX, incx, ty)];
    if InTriangle(upper, tx, ty) {
      a[p] := Add(a[p], Term(alpha, xi, xj));
    } else if tx == ty {
      a[p] := Complex(a[p].re + alpha * (xi.re * xi.re + xi.im * xi.im), 0);
    }
  }

  const HER_DIM_X: int := 128
  const HER_DIM_Y: int := 8

  /** The launch of rocblas_her_kernel: blocksX by blocksY by batch_count blocks of
      HER_DIM_X by HER_DIM_Y threads. */
  datatype HerLaunch = NoHerLaunch | HerLaunch(blocksX: int, blocksY: int, batches: int, threadsX: int, threadsY: int)

  function HerGrid(n: int, batchCount: int): HerLaunch
  {
    HerLaunch(Blocks(n, HER_DIM_X), Blocks(n, HER_DIM_Y), batchCount, HER_DIM_X, HER_DIM_Y)
  }

  /** The grid covers every thread (tx, ty) with tx, ty < n of every batch, with no block
      idle in either direction. */
  lemma HerGridCovers(n: int, batchCount: int)
    requires n >= 1
    ensures var g := HerGrid(n, batchCount);
      n <= g.blocksX * g.threadsX && (g.blocksX - 1) * g.threadsX < n
      && n <= g.blocksY * g.threadsY && (g.blocksY - 1) * g.threadsY < n
      && g.batches == batchCount
  {
    BlocksCover(n, HER_DIM_X);
    BlocksCover(n, HER_DIM_Y);
  }

  /** Matrix batches that lie at least n*lda apart do not overlap. */
  lemma MatrixBatchesDisjoint(offset: int, stride: int, lda: int, n: int, c1: int, i1: int, j1: int, c2: int, i2: int, j2: int)
    requires 0 <= n <= lda && 0 <= c1 < c2 && stride >= n * lda
    requires 0 <= i1 < n && 0 <= j1 < n && 0 <= i2 < n && 0 <= j2 < n
    ensures APos(Base(offset, stride, c1), lda, i1, j1) < APos(Base(offset, stride, c2), lda, i2, j2)
  {
    MulMonotone(j1, n - 1, lda);
    MulMonotone(0, j2, lda);
    assert lda * (n - 1) + lda == n * lda;
    MulMonotone(1, c2 - c1, stride);
    assert c2 * stride - c1 * stride == (c2 - c1) * stride;
  }

  /** Element k belongs to the matrix of one of the first b batches. */
  predicate InBatches(offset: int, stride: int, lda: int, n: int, b: int, k: int)
  {
    exists c, i, j :: 0 <= c < b && 0 <= i < n && 0 <= j < n && k == APos(Base(offset, stride, c), lda, i, j)
  }

  /** What HerTemplate leaves in entry (i, j) of batch c's matrix. */
  predicate BatchUpdated(upper: bool, alpha: int, x: seq<Complex>, shiftX: int, incx: int, strideX: int,
                         a: seq<Complex>, a0: seq<Complex>, offsetA: int, lda: int, strideA: int, n: int, c: int)
  {
    forall i, j :: 0 <= i < n && 0 <= j < n ==>
      var p := APos(Base(offsetA, strideA, c), lda, i, j);
      var pi, pj := At(Base(shiftX, strideX, c), incx, i), At(Base(shiftX, strideX, c), incx, j);
      0 <= p < |a| && p < |a0| && 0 <= pi < |x| && 0 <= pj < |x| && a[p] == HerValue(upper, alpha, x[pi], x[pj], a0[p], i, j)
  }

  predicate AllUpdated(upper: bool, alpha: int, x: seq<Complex>, shiftX: int, incx: int, strideX: int,
                      a: seq<Complex>, a0: seq<Complex>, offsetA: int, lda: int, strideA: int, n: int, count: int)
  {
    forall c :: 0 <= c < count ==> BatchUpdated(upper, alpha, x, shiftX, incx, strideX, a, a0, offsetA, lda, strideA, n, c)
  }

  /** rocblas_her_template over strided buffers (a batched call's array of pointers is
      modelled as one buffer with a stride). It returns success: for n == 0 or
      batch_count == 0 without a launch, and otherwise after running the kernel on each batch,
      x shifted for a negative increment and A at offset_A + b*stride_A. Whether alpha is read
      on the host or the device does not change what is computed. */
  method HerTemplate(h: Handle, uplo: Fill, n: int, alpha: int,
                     x: array<Complex>, offsetX: int, incx: int, strideX: int,
                     a: array<Complex>, lda: int, offsetA: int, strideA: int, batchCount: int)
    returns (status: Status, launch: HerLaunch)
    requires h.Handle? && x != a && incx != 0 && 0 <= n <= lda && batchCount >= 0
    requires batchCount > 1 ==> strideA >= n * lda
    requires forall b :: 0 <= b < batchCount ==>
      VectorInBounds(x.Length, Base(Shift(offsetX, incx, n), strideX, b), incx, n)
      && MatrixInBounds(a.Length, Base(offsetA, strideA, b), lda, n)
    modifies a
    ensures status == Success
    ensures launch == (if n == 0 || batchCount == 0 then NoHerLaunch else HerGrid(n, batchCount))
    ensures alpha != 0 ==>
      AllUpdated(uplo == FillUpper, alpha, x[..], Shift(offsetX, incx, n), incx, strideX,
                 a[..], old(a[..]), offsetA, lda, strideA, n, batchCount)
    ensures alpha == 0 || launch.NoHerLaunch? ==> a[..] == old(a[..])
    ensures forall k :: 0 <= k < a.Length && !InBatches(offsetA, strideA, lda, n, batchCount, k) ==> a[k] == old(a[k])
  {
    if n == 0 || batchCount == 0 {
      return Success, NoHerLaunch;
    }
    var shiftX := Shift(offsetX, incx, n);
    var upper := uplo == FillUpper;
    ghost var a0 := a[..];
    var b := 0;
    while b < batchCount
      invariant 0 <= b <= batchCount
      invariant alpha != 0 ==> AllUpdated(upper, alpha, x[..], shiftX, incx, strideX, a[..], a0, offsetA, lda, strideA, n, b)
      invariant alpha == 0 ==> a[..] == a0
      invariant forall k :: 0 <= k < a.Length && !InBatches(offsetA, strideA, lda, n, b, k) ==> a[k] == a0[k]
    {
      HerBatchStep(upper, n, alpha, x, shiftX, incx, strideX, a, a0, lda, offsetA, strideA, batchCount, b);
      b := b + 1;
    }
    return Success, HerGrid(n, batchCount);
  }

  /** One batch of the template's loop. */
  method HerBatchStep(upper: bool, n: int, alpha: int, x: array<Complex>, shiftX: int, incx: int, strideX: int,
                      a: array<Complex>, ghost a0: seq<Complex>, lda: int, offsetA: int, strideA: int,
                      batchCount: int, b: int)
    requires x != a && incx != 0 && 0 < n <= lda && 0 <= b < batchCount && |a0| == a.Length
    requires batchCount > 1 ==> strideA >= n * lda
    requires forall c :: 0 <= c < batchCount ==>
      VectorInBounds(x.Length, Base(shiftX, strideX, c), incx, n)
      && MatrixInBounds(a.Length, Base(offsetA, strideA, c), lda, n)
    requires alpha != 0 ==> AllUpdated(upper, alpha, x[..], shiftX, incx, strideX, a[..], a0, offsetA, lda, strideA, n, b)
    requires alpha == 0 ==> a[..] == a0
    requires forall k :: 0 <= k < a.Length && !InBatches(offsetA, strideA, lda, n, b, k) ==> a[k] == a0[k]
    modifies a
    ensures alpha != 0 ==> AllUpdated(upper, alpha, x[..], shiftX, incx, strideX, a[..], a0, offsetA, lda, strideA, n, b + 1)
    ensures alpha == 0 ==> a[..] == a0
    ensures forall k :: 0 <= k < a.Length && !InBatches(offsetA, strideA, lda, n, b + 1, k) ==> a[k] == a0[k]
  {
    var baseA := Base(offsetA, strideA, b);
    var baseX := Base(shiftX, strideX, b);
    assert VectorInBounds(x.Length, baseX, incx, n) && MatrixInBounds(a.Length, baseA, lda, n);
    ghost var ab := a[..];
    HerKernel(upper, n, alpha, x, baseX, incx, a, baseA, lda);
    if alpha != 0 {
      forall c | 0 <= c < b + 1
        ensures BatchUpdated(upper, alpha, x[..], shiftX, incx, strideX, a[..], a0, offsetA, lda, strideA, n, c)
      {
        forall i, j | 0 <= i < n && 0 <= j < n
          ensures var p := APos(Base(offsetA, strideA, c), lda, i, j);
            var pi, pj := At(Base(shiftX, strideX, c), incx, i), At(Base(shiftX, strideX, c), incx, j);
            0 <= p < a.Length && p < |a0| && 0 <= pi < x.Length && 0 <= pj < x.Length
            && a[p] == HerValue(upper, alpha, x[pi], x[pj], a0[p], i, j)
        {
          var p := APos(Base(offsetA, strideA, c), lda, i, j);
          if c < b {
            assert BatchUpdated(upper, alpha, x[..], shiftX, incx, strideX, ab, a0, offsetA, lda, strideA, n, c);
            OtherBatchUntouched(offsetA, strideA, lda, n, c, i, j, b);
            assert a[p] == ab[p];
          } else {
            CurrentBatchFresh(offsetA, strideA, lda, n, i, j, b);
            assert ab[p] == a0[p];
          }
        }
      }
    }
    forall k | 0 <= k < a.Length && !InBatches(offsetA, strideA, lda, n, b + 1, k)
      ensures a[k] == a0[k]
    {
      InBatchesStep(offsetA, strideA, lda, n, b, k);
    }
  }

  /** An entry of an earlier batch is not in batch b's matrix. */
  lemma OtherBatchUntouched(offset: int, stride: int, lda: int, n: int, c: int, i: int, j: int, b: int)
    requires 0 <= n <= lda && 0 <= c < b && stride >= n * lda && 0 <= i < n && 0 <= j < n
    ensures !InMatrix(Base(offset, stride, b), lda, n, APos(Base(offset, stride, c), lda, i, j))
  {
    if InMatrix(Base(offset, stride, b), lda, n, APos(Base(offset, stride, c), lda, i, j)) {
      var i2, j2 :| 0 <= i2 < n && 0 <= j2 < n && APos(Base(offset, stride, c), lda, i, j) == APos(Base(offset, stride, b), lda, i2, j2);
      MatrixBatchesDisjoint(offset, stride, lda, n, c, i, j, b, i2, j2);
    }
  }

  /** An entry of batch b is in none of the earlier batches' matrices. */
  lemma CurrentBatchFresh(offset: int, stride: int, lda: int, n: int, i: int, j: int, b: int)
    requires 0 <= n <= lda && 0 <= b && (b > 0 ==> stride >= n * lda) && 0 <= i < n && 0 <= j < n
    ensures !InBatches(offset, stride, lda, n, b, APos(Base(offset, stride, b), lda, i, j))
  {
    if InBatches(offset, stride, lda, n, b, APos(Base(offset, stride, b), lda, i, j)) {
      var c, i2, j2 :| 0 <= c < b && 0 <= i2 < n && 0 <= j2 < n
        && APos(Base(offset, stride, b), lda, i, j) == APos(Base(offset, stride, c), lda, i2, j2);
      MatrixBatchesDisjoint(offset, stride, lda, n, c, i2, j2, b, i, j);
    }
  }

  lemma InBatchesStep(offset: int, stride: int, lda: int, n: int, b: int, k: int)
    requires b >= 0
    ensures InBatches(offset, stride, lda, n, b + 1, k) <==>
              InBatches(offset, stride, lda, n, b, k) || InMatrix(Base(offset, stride, b), lda, n, k)
  {
    if InBatches(offset, stride, lda, n, b + 1, k) && !InMatrix(Base(offset, stride, b), lda, n, k) {
      var c, i, j :| 0 <= c < b + 1 && 0 <= i < n && 0 <= j < n && k == APos(Base(offset, stride, c), lda, i, j);
      assert c < b;
    }
    if InMatrix(Base(offset, stride, b), lda, n, k) {
      var i, j :| 0 <= i < n && 0 <= j < n && k == APos(Base(offset, stride, b), lda, i, j);
      assert 0 <= b < b + 1;
    }
  }

  /** rocblas_her_check_numerics: only x is checked; A and its layout are passed but never
      looked at. */
  function HerCheckNumerics(n: int, a: bool, lda: int, strideA: int, x: bool, incx: int, strideX: int,
                            batchCount: int, mode: int, isInput: bool, probe: CheckNumerics.Probe): Status
  {
    CheckNumerics.CheckVector(n, x, incx, batchCount, mode, isInput, probe).status
  }

  lemma HerCheckNumericsOnlyX(n: int, a: bool, lda: int, strideA: int, x: bool, incx: int, strideX: int,
                              batchCount: int, mode: int, isInput: bool, probe: CheckNumerics.Probe)
    ensures forall a2: bool, lda2: int, strideA2: int ::
      HerCheckNumerics(n, a2, lda2, strideA2, x, incx, strideX, batchCount, mode, isInput, probe)
        == HerCheckNumerics(n, a, lda, strideA, x, incx, strideX, batchCount, mode, isInput, probe)
    ensures !x ==> HerCheckNumerics(n, a, lda, strideA, x, incx, strideX, batchCount, mode, isInput, probe) == Success
    ensures n > 0 && incx > 0 && batchCount > 0 && x && probe.toDevice == Success && probe.toHost == Success ==>
      (HerCheckNumerics(n, a, lda, strideA, x, incx, strideX, batchCount, mode, isInput, probe) == CheckNumericsFail <==>
         CheckNumerics.IsAbnormal(probe.flags) && CheckNumerics.ModeHas(mode, CheckNumerics.Fail))
  {
    if n > 0 && incx > 0 && batchCount > 0 && x {
      CheckNumerics.CheckVectorStatus(n, x, incx, batchCount, mode, isInput, probe);
    }
  }
}
