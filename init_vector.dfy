/** The client's host vector initialiser rocblas_init_template: for every batch it moves the
    start of a negative-increment vector to its far end and writes n generated values at
    stride inc; rocblas_init and rocblas_init_nan hand it their generator. */
module InitVector {
  import opened Strides

  /** The client's random engine. Its state is the number of values drawn since the seed
      was last reset; a generator maps that number to the value the next call returns. */
  class Rng {
    var drawn: nat

    constructor()
      ensures drawn == 0
    {
      drawn := 0;
    }

    /** rocblas_seedrand: the next value drawn is the first of the sequence again. */
    method SeedRand()
      modifies this
      ensures drawn == 0
    {
      drawn := 0;
    }

    /** One call of rand_gen(). */
    method Draw(gen: nat -> int) returns (v: int)
      modifies this
      ensures v == gen(old(drawn)) && drawn == old(drawn) + 1
    {
      v := gen(drawn);
      drawn := drawn + 1;
    }
  }

  /** A host (strided) batch vector: batch_count batches of n elements at increment inc, the
      batch `b` starting `b*stride` elements into the buffer. */
  class HostBatchVector {
    const n: int
    const inc: int
    const stride: int
    const batchCount: int
    const data: array<int>

    constructor(n: int, inc: int, stride: int, batchCount: int, data: array<int>)
      ensures this.n == n && this.inc == inc && this.stride == stride
      ensures this.batchCount == batchCount && this.data == data
    {
      this.n, this.inc, this.stride, this.batchCount, this.data := n, inc, stride, batchCount, data;
    }

    /** A non-zero increment, batches that do not overlap, and a buffer that holds the last
        element of the last batch. */
    predicate Valid()
    {
      inc != 0 && stride >= 0
      && (batchCount > 1 ==> stride >= n * Abs(inc))
      && (n > 0 && batchCount > 0 ==> (batchCount - 1) * stride + (n - 1) * Abs(inc) < data.Length)
    }

    /** Where element i of batch b is written: `that[b]`, moved by `-(n-1)*inc` when inc is
        negative, then `[i*inc]` (the shift commutes with the batch offset). */
    function Pos(b: int, i: int): int
    {
      At(Base(Shift(0, inc, n), stride, b), inc, i)
    }

    /** Element k is written by one of the batches. */
    ghost predicate Written(k: int)
    {
      TouchedBatches(Shift(0, inc, n), stride, inc, n, batchCount, k)
    }
  }

  /** In the buffer contents `d`, batch b's elements hold the generator's values
      start + b*n, ..., start + b*n + n-1, in order of the adjusted index i, for every batch
      below `upto`. */
  ghost predicate Filled(v: HostBatchVector, d: seq<int>, gen: nat -> int, start: nat, upto: int)
  {
    forall b, i :: 0 <= b < upto && b < v.batchCount && 0 <= i < v.n ==>
      0 <= v.Pos(b, i) < |d| && d[v.Pos(b, i)] == gen(start + b * v.n + i)
  }

  /** Every element that none of the batches below `upto` writes keeps its value from `d0`. */
  ghost predicate Kept(v: HostBatchVector, d: seq<int>, d0: seq<int>, upto: int)
  {
    |d| == |d0|
    && forall k :: 0 <= k < |d| && !TouchedBatches(Shift(0, v.inc, v.n), v.stride, v.inc, v.n, upto, k) ==> d[k] == d0[k]
  }

  /** Where the draws of an initialisation begin: 0 after a seed reset, otherwise wherever
      the engine stands. */
  function Start(drawn: nat, seedReset: bool): nat
  {
    if seedReset then 0 else drawn
  }

  function Count(x: int): nat
  {
    if x > 0 then x else 0
  }

  /** Batch b lies in [b*stride, b*stride + (n-1)*|inc|]; a positive increment writes element
      i at offset i*|inc| of its batch, a negative one at offset (n-1-i)*|inc|, so the first
      value drawn lands at the far end. */
  lemma PosLayout(v: HostBatchVector, b: int, i: int)
    requires v.Valid() && 0 <= b < v.batchCount && 0 <= i < v.n
    ensures v.inc > 0 ==> v.Pos(b, i) == b * v.stride + i * Abs(v.inc)
    ensures v.inc < 0 ==> v.Pos(b, i) == b * v.stride + (v.n - 1 - i) * Abs(v.inc)
    ensures b * v.stride <= v.Pos(b, i) <= b * v.stride + (v.n - 1) * Abs(v.inc)
    ensures 0 <= v.Pos(b, i) < v.data.Length
  {
    assert Base(Shift(0, v.inc, v.n), v.stride, b) == Shift(b * v.stride, v.inc, v.n);
    ShiftedAccess(b * v.stride, v.inc, v.n, i);
    MulMonotone(b, v.batchCount - 1, v.stride);
  }

  /** Every offset 0, |inc|, ..., (n-1)*|inc| of a batch is written by exactly one index. */
  lemma PosCovers(v: HostBatchVector, b: int, j: int)
    requires v.Valid() && 0 <= b < v.batchCount && 0 <= j < v.n
    ensures var i := if v.inc > 0 then j else v.n - 1 - j;
      0 <= i < v.n && v.Pos(b, i) == b * v.stride + j * Abs(v.inc)
  {
    var i := if v.inc > 0 then j else v.n - 1 - j;
    PosLayout(v, b, i);
  }

  /** Distinct (batch, index) pairs are written to distinct elements. */
  lemma PosInjective(v: HostBatchVector, b: int, i: int, c: int, j: int)
    requires v.Valid() && 0 <= b < v.batchCount && 0 <= c < v.batchCount && 0 <= i < v.n && 0 <= j < v.n
    requires v.Pos(b, i) == v.Pos(c, j)
    ensures b == c && i == j
  {
    if b < c {
      BatchesDisjoint(0, v.inc, v.n, v.stride, b, i, c, j);
    } else if c < b {
      BatchesDisjoint(0, v.inc, v.n, v.stride, c, j, b, i);
    } else {
      AtInjective(Base(Shift(0, v.inc, v.n), v.stride, b), v.inc, i, j);
    }
  }

  /** Two segments of `s` elements starting at distinct multiples of `s` do not meet. */
  lemma SegmentsApart(c: int, b: int, s: int, x: int, y: int)
    requires 0 <= c && 0 <= b && c != b && 0 <= x < s && 0 <= y < s
    ensures c * s + x != b * s + y
  {
    if c < b {
      MulMonotone(c + 1, b, s);
      assert (c + 1) * s == c * s + s;
    } else {
      MulMonotone(b + 1, c, s);
      assert (b + 1) * s == b * s + s;
    }
  }

  lemma MulMod(m: nat, a: int)
    requires a > 0
    ensures (m * a) % a == 0
  {
    var q, r := (m * a) / a, (m * a) % a;
    assert m * a == q * a + r && 0 <= r < a;
    assert (m - q) * a == r;
    if m - q >= 1 {
      MulMonotone(1, m - q, a);
    } else if m - q <= -1 {
      MulMonotone(1, q - m, a);
    }
  }

  /** Inside a batch's n*|inc| elements, an offset that is not a multiple of |inc| is written
      by no batch. */
  lemma OffGridUnwritten(v: HostBatchVector, b: int, j: int)
    requires v.Valid() && 0 <= b < v.batchCount && 0 <= j < v.n * Abs(v.inc) && j % Abs(v.inc) != 0
    ensures !v.Written(b * v.stride + j)
  {
    var k := b * v.stride + j;
    if v.Written(k) {
      var c, i :| 0 <= c < v.batchCount && 0 <= i < v.n && k == At(Base(Shift(0, v.inc, v.n), v.stride, c), v.inc, i);
      PosLayout(v, c, i);
      var m := if v.inc > 0 then i else v.n - 1 - i;
      assert 0 <= m < v.n;
      assert v.Pos(c, i) == c * v.stride + m * Abs(v.inc);
      MulMonotone(m, v.n - 1, Abs(v.inc));
      assert (v.n - 1) * Abs(v.inc) < v.n * Abs(v.inc);
      if c == b {
        assert j == m * Abs(v.inc);
        MulMod(m, Abs(v.inc));
        assert false;
      } else {
        SegmentsApart(c, b, v.stride, m * Abs(v.inc), j);
        assert false;
      }
    }
  }

  /** The inner loop for one batch: element i of n goes to `data[base + i*inc]` and gets the
      i-th value drawn; nothing else is written. */
  method FillBatch(data: array<int>, base: int, inc: int, n: int, gen: nat -> int, rng: Rng)
    requires inc != 0
    requires forall i :: 0 <= i < n ==> 0 <= At(base, inc, i) < data.Length
    modifies data, rng
    ensures rng.drawn == old(rng.drawn) + Count(n)
    ensures forall i :: 0 <= i < n ==> data[At(base, inc, i)] == gen(old(rng.drawn) + i)
    ensures forall k :: 0 <= k < data.Length && !Touched(base, inc, n, k) ==> data[k] == old(data[k])
  {
    var i := 0;
    while i < n
      invariant 0 <= i <= Count(n)
      invariant rng.drawn == old(rng.drawn) + i
      invariant forall j :: 0 <= j < i ==> data[At(base, inc, j)] == gen(old(rng.drawn) + j)
      invariant forall k :: 0 <= k < data.Length && !Touched(base, inc, i, k) ==> data[k] == old(data[k])
    {
      var value := rng.Draw(gen);
      assert 0 <= At(base, inc, i) < data.Length;
      data[base + i * inc] := value;
      forall j | 0 <= j < i
        ensures At(base, inc, j) != At(base, inc, i)
      {
        AtInjective(base, inc, j, i);
      }
      forall k | 0 <= k < data.Length && !Touched(base, inc, i + 1, k)
        ensures k != At(base, inc, i) && !Touched(base, inc, i, k)
      {
        TouchedStep(base, inc, i, k);
      }
      i := i + 1;
    }
  }

  /** Filling batch b, which writes its n values where Pos says and nothing else, extends
      what the earlier batches filled and kept by batch b. */
  lemma FillStep(v: HostBatchVector, gen: nat -> int, start: nat, b: int, drawn: int,
                 d0: seq<int>, before: seq<int>, after: seq<int>)
    requires v.Valid() && 0 <= b < v.batchCount && (v.n > 0 ==> drawn == start + b * v.n)
    requires Filled(v, before, gen, start, b) && Kept(v, before, d0, b) && |after| == |before|
    requires forall i :: 0 <= i < v.n ==> 0 <= v.Pos(b, i) < |after| && after[v.Pos(b, i)] == gen(drawn + i)
    requires forall k :: 0 <= k < |after| && !Touched(Base(Shift(0, v.inc, v.n), v.stride, b), v.inc, v.n, k) ==>
               after[k] == before[k]
    ensures Filled(v, after, gen, start, b + 1) && Kept(v, after, d0, b + 1)
  {
    var base := Base(Shift(0, v.inc, v.n), v.stride, b);
    if v.n > 0 {
      BatchFrame(0, v.inc, v.n, v.stride, b);
    }
    forall c, i | 0 <= c < b + 1 && c < v.batchCount && 0 <= i < v.n
      ensures 0 <= v.Pos(c, i) < |after| && after[v.Pos(c, i)] == gen(start + c * v.n + i)
    {
      PosLayout(v, c, i);
      if c < b {
        assert !Touched(base, v.inc, v.n, v.Pos(c, i));
      }
    }
    forall k | 0 <= k < |after| && !TouchedBatches(Shift(0, v.inc, v.n), v.stride, v.inc, v.n, b + 1, k)
      ensures after[k] == d0[k]
    {
      TouchedBatchesStep(Shift(0, v.inc, v.n), v.stride, v.inc, v.n, b, k);
      if v.n > 0 {
        assert !TouchedBatches(Shift(0, v.inc, v.n), v.stride, v.inc, v.n, b, k);
      }
    }
  }

  /** rocblas_init_template: reset the seed if asked, then fill batch after batch. Batch b's
      element i gets the (b*n + i)-th value drawn, every other element keeps its value, and
      the engine stands batch_count*n draws further on. */
  method InitTemplate(that: HostBatchVector, gen: nat -> int, rng: Rng, seedReset: bool)
    requires that.Valid()
    modifies that.data, rng
    ensures rng.drawn == Start(old(rng.drawn), seedReset) + Count(that.batchCount) * Count(that.n)
    ensures Filled(that, that.data[..], gen, Start(old(rng.drawn), seedReset), that.batchCount)
    ensures Kept(that, that.data[..], old(that.data[..]), that.batchCount)
  {
    if seedReset {
      rng.SeedRand();
    }
    ghost var start := rng.drawn;
    ghost var d0 := that.data[..];
    var batchIndex := 0;
    while batchIndex < that.batchCount
      invariant 0 <= batchIndex <= Count(that.batchCount)
      invariant rng.drawn == start + batchIndex * Count(that.n)
      invariant Filled(that, that.data[..], gen, start, batchIndex)
      invariant Kept(that, that.data[..], d0, batchIndex)
    {
      var batchedData := Base(0, that.stride, batchIndex);
      var inc := that.inc;
      var n := that.n;
      if inc < 0 {
        batchedData := batchedData - (n - 1) * inc;
      }
      assert batchedData == Base(Shift(0, inc, n), that.stride, batchIndex);
      forall i | 0 <= i < n
        ensures 0 <= At(batchedData, inc, i) < that.data.Length
      {
        PosLayout(that, batchIndex, i);
      }
      ghost var before := that.data[..];
      ghost var drawn := rng.drawn;
      FillBatch(that.data, batchedData, inc, n, gen, rng);
      FillStep(that, gen, start, batchIndex, drawn, d0, before, that.data[..]);
      assert (batchIndex + 1) * Count(n) == batchIndex * Count(n) + Count(n);
      batchIndex := batchIndex + 1;
    }
  }

  /** The generators rocblas_init and rocblas_init_nan hand to the template:
      random_generator<T> and random_nan_generator<T>. */
  datatype Generators = Generators(random: nat -> int, randomNan: nat -> int)

  /** rocblas_init on a host batch or strided batch vector: the template with the random
      generator. */
  method Init(that: HostBatchVector, g: Generators, rng: Rng, seedReset: bool)
    requires that.Valid()
    modifies that.data, rng
    ensures rng.drawn == Start(old(rng.drawn), seedReset) + Count(that.batchCount) * Count(that.n)
    ensures Filled(that, that.data[..], g.random, Start(old(rng.drawn), seedReset), that.batchCount)
    ensures Kept(that, that.data[..], old(that.data[..]), that.batchCount)
  {
    InitTemplate(that, g.random, rng, seedReset);
  }

  /** rocblas_init_nan on a host vector, batch vector or strided batch vector: the template
      with the NaN generator (a host vector is one batch). */
  method InitNan(that: HostBatchVector, g: Generators, rng: Rng, seedReset: bool)
    requires that.Valid()
    modifies that.data, rng
    ensures rng.drawn == Start(old(rng.drawn), seedReset) + Count(that.batchCount) * Count(that.n)
    ensures Filled(that, that.data[..], g.randomNan, Start(old(rng.drawn), seedReset), that.batchCount)
    ensures Kept(that, that.data[..], old(that.data[..]), that.batchCount)
  {
    InitTemplate(that, g.randomNan, rng, seedReset);
  }

  /** Read along the buffer, batch b's offsets 0, |inc|, ..., (n-1)*|inc| hold its values
      in generator order for a positive increment and in reverse order for a negative one. */
  lemma FilledOffsets(v: HostBatchVector, d: seq<int>, gen: nat -> int, start: nat, b: int, j: int)
    requires v.Valid() && Filled(v, d, gen, start, v.batchCount) && 0 <= b < v.batchCount && 0 <= j < v.n
    ensures 0 <= b * v.stride + j * Abs(v.inc) < |d|
    ensures d[b * v.stride + j * Abs(v.inc)] == gen(start + b * v.n + (if v.inc > 0 then j else v.n - 1 - j))
  {
    PosCovers(v, b, j);
  }
}
