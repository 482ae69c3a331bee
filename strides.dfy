/** Index arithmetic shared by the kernels and the host initialiser: strided access with the
    pointer shift used for negative increments, and the ceil-division grid sizes. */
module Strides {

  function Abs(x: int): nat
  {
    if x < 0 then -x else x
  }

  /** The element a thread `i` touches, `base + i*inc`, measured from the buffer start. */
  function At(base: int, inc: int, i: int): int
  {
    base + i * inc
  }

  /** `inc < 0 ? offset - inc*(n-1) : offset`: for a negative increment the start moves to the
      far end so that `i*inc` walks back towards `offset`. */
  function Shift(offset: int, inc: int, n: int): int
  {
    if inc < 0 then offset - inc * (n - 1) else offset
  }

  /** After the shift, element i of n is at `offset + i*inc` (inc > 0) or at
      `offset + (n-1-i)*|inc|` (inc < 0): every access stays in
      [offset, offset + (n-1)*|inc|], and in particular never falls below `offset`. */
  lemma ShiftedAccess(offset: int, inc: int, n: int, i: int)
    requires inc != 0 && 0 <= i < n
    ensures inc > 0 ==> At(Shift(offset, inc, n), inc, i) == offset + i * inc
    ensures inc < 0 ==> At(Shift(offset, inc, n), inc, i) == offset + (n - 1 - i) * Abs(inc)
    ensures offset <= At(Shift(offset, inc, n), inc, i) <= offset + (n - 1) * Abs(inc)
  {
    var k := if inc > 0 then i else n - 1 - i;
    assert 0 <= k <= n - 1;
    if inc < 0 {
      calc {
        At(Shift(offset, inc, n), inc, i);
        offset - inc * (n - 1) + i * inc;
        { assert -inc * (n - 1) + i * inc == (n - 1 - i) * (-inc); }
        offset + k * Abs(inc);
      }
    }
    assert At(Shift(offset, inc, n), inc, i) == offset + k * Abs(inc);
    MulMonotone(k, n - 1, Abs(inc));
  }

  lemma MulMonotone(a: int, b: int, c: nat)
    requires 0 <= a <= b
    ensures 0 <= a * c <= b * c
  {
    assert (b - a) * c >= 0;
  }

  /** Distinct threads touch distinct elements when the increment is not zero. */
  lemma AtInjective(base: int, inc: int, i: int, j: int)
    requires inc != 0
    ensures At(base, inc, i) == At(base, inc, j) ==> i == j
  {
    if i != j {
      assert At(base, inc, i) - At(base, inc, j) == (i - j) * inc;
      assert (i - j) * inc != 0;
    }
  }

  /** The start of batch b in a strided buffer, `base + b*stride`. */
  function Base(base: int, stride: int, b: int): int
  {
    base + b * stride
  }

  /** Element k is among the n elements `base + i*inc` a kernel touches. */
  predicate Touched(base: int, inc: int, n: int, k: int)
  {
    exists i :: 0 <= i < n && k == At(base, inc, i)
  }

  /** Element k is touched by one of the first `b` batches of a strided launch. */
  predicate TouchedBatches(base: int, stride: int, inc: int, n: int, b: int, k: int)
  {
    exists c, i :: 0 <= c < b && 0 <= i < n && k == At(Base(base, stride, c), inc, i)
  }

  /** Touching one more element adds exactly that element; with a non-zero increment it
      was not touched before. */
  lemma TouchedStep(base: int, inc: int, n: int, k: int)
    requires inc != 0 && n >= 0
    ensures Touched(base, inc, n + 1, k) <==> Touched(base, inc, n, k) || k == At(base, inc, n)
    ensures !Touched(base, inc, n, At(base, inc, n))
  {
    if Touched(base, inc, n, At(base, inc, n)) {
      var i :| 0 <= i < n && At(base, inc, n) == At(base, inc, i);
      AtInjective(base, inc, n, i);
    }
    if Touched(base, inc, n + 1, k) && k != At(base, inc, n) {
      var i :| 0 <= i < n + 1 && k == At(base, inc, i);
      assert i < n;
    }
  }

  /** Batches of a launch whose stride is at least n*|inc| touch disjoint elements. */
  lemma BatchesDisjoint(offset: int, inc: int, n: int, stride: int, b1: int, i: int, b2: int, j: int)
    requires inc != 0 && 0 <= i < n && 0 <= j < n && 0 <= b1 < b2 && stride >= n * Abs(inc)
    ensures At(Base(Shift(offset, inc, n), stride, b1), inc, i) < At(Base(Shift(offset, inc, n), stride, b2), inc, j)
  {
    var a := Abs(inc);
    var lo1, lo2 := offset + b1 * stride, offset + b2 * stride;
    ShiftedAccess(lo1, inc, n, i);
    ShiftedAccess(lo2, inc, n, j);
    assert Shift(lo1, inc, n) == Base(Shift(offset, inc, n), stride, b1);
    assert Shift(lo2, inc, n) == Base(Shift(offset, inc, n), stride, b2);
    assert n * a - (n - 1) * a == a;
    MulMonotone(0, n, a);
    assert stride >= 0;
    assert b2 * stride - b1 * stride == (b2 - b1) * stride;
    MulMonotone(1, b2 - b1, stride);
    assert lo1 + (n - 1) * a < lo1 + stride <= lo2;
  }

  /** Element k of batch b is untouched by the batches before it, and elements of those
      batches are untouched by batch b. */
  lemma BatchFrame(offset: int, inc: int, n: int, stride: int, b: int)
    requires inc != 0 && b >= 0 && n >= 0 && (b > 0 ==> stride >= n * Abs(inc))
    ensures forall j :: 0 <= j < n ==>
      !TouchedBatches(Shift(offset, inc, n), stride, inc, n, b, At(Base(Shift(offset, inc, n), stride, b), inc, j))
    ensures forall c, i :: 0 <= c < b && 0 <= i < n ==>
      !Touched(Base(Shift(offset, inc, n), stride, b), inc, n, At(Base(Shift(offset, inc, n), stride, c), inc, i))
  {
    var s := Shift(offset, inc, n);
    forall j | 0 <= j < n
      ensures !TouchedBatches(s, stride, inc, n, b, At(Base(s, stride, b), inc, j))
    {
      if TouchedBatches(s, stride, inc, n, b, At(Base(s, stride, b), inc, j)) {
        var c, i :| 0 <= c < b && 0 <= i < n && At(Base(s, stride, b), inc, j) == At(Base(s, stride, c), inc, i);
        BatchesDisjoint(offset, inc, n, stride, c, i, b, j);
      }
    }
    forall c, i | 0 <= c < b && 0 <= i < n
      ensures !Touched(Base(s, stride, b), inc, n, At(Base(s, stride, c), inc, i))
    {
    }
  }

  /** Adding batch b to the touched set adds exactly the elements batch b touches. */
  lemma TouchedBatchesStep(base: int, stride: int, inc: int, n: int, b: int, k: int)
    requires b >= 0
    ensures TouchedBatches(base, stride, inc, n, b + 1, k) <==>
              TouchedBatches(base, stride, inc, n, b, k) || Touched(Base(base, stride, b), inc, n, k)
  {
    if TouchedBatches(base, stride, inc, n, b + 1, k) && !Touched(Base(base, stride, b), inc, n, k) {
      var c, i :| 0 <= c < b + 1 && 0 <= i < n && k == At(Base(base, stride, c), inc, i);
      assert c < b;
    }
    if Touched(Base(base, stride, b), inc, n, k) {
      var i :| 0 <= i < n && k == At(Base(base, stride, b), inc, i);
      assert 0 <= b < b + 1;
    }
  }

  /** The launch of a kernel over a two-dimensional grid: blocksX by blocksY blocks of
      `threads` threads. */
  datatype Launch = NoLaunch | Launch(blocksX: int, blocksY: int, threads: int)

  /** Number of blocks of `nb` threads launched for n elements: `(n-1)/nb + 1`. */
  function Blocks(n: int, nb: int): int
    requires nb > 0
  {
    (n - 1) / nb + 1
  }

  /** For n >= 1 the grid is the ceiling of n/nb: its threads cover all n elements and none
      of its blocks is idle. */
  lemma BlocksCover(n: int, nb: int)
    requires n >= 1 && nb >= 1
    ensures Blocks(n, nb) >= 1
    ensures n <= Blocks(n, nb) * nb
    ensures (Blocks(n, nb) - 1) * nb < n
  {
    var q, r := (n - 1) / nb, (n - 1) % nb;
    assert n - 1 == q * nb + r && 0 <= r < nb;
    assert q >= 0;
    assert Blocks(n, nb) * nb == q * nb + nb;
  }
}
