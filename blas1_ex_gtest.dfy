/** The BLAS1 extension test suite: which type combinations each routine's tests are
    instantiated for (blas1_ex_enabled), which test a parameter row runs, the suite's
    function filter, and the tokens name_suffix appends to a test's name. */
module Blas1ExGtest {

  /** The element types the dispatcher passes as template arguments. */
  datatype Ty = Float | Double | Half | BFloat16 | FloatComplex | DoubleComplex

  /** The enum blas1_ex, in declaration order. */
  datatype Routine =
    | AxpyEx | AxpyBatchedEx | AxpyStridedBatchedEx
    | DotEx | DotcEx | DotBatchedEx | DotcBatchedEx | DotStridedBatchedEx | DotcStridedBatchedEx
    | Nrm2Ex | Nrm2BatchedEx | Nrm2StridedBatchedEx
    | RotEx | RotBatchedEx | RotStridedBatchedEx
    | ScalEx | ScalBatchedEx | ScalStridedBatchedEx

  datatype Family = Axpy | Dot | Nrm2 | Rot | Scal

  function FamilyOf(r: Routine): Family
  {
    match r
    case AxpyEx | AxpyBatchedEx | AxpyStridedBatchedEx => Axpy
    case DotEx | DotcEx | DotBatchedEx | DotcBatchedEx | DotStridedBatchedEx | DotcStridedBatchedEx => Dot
    case Nrm2Ex | Nrm2BatchedEx | Nrm2StridedBatchedEx => Nrm2
    case RotEx | RotBatchedEx | RotStridedBatchedEx => Rot
    case ScalEx | ScalBatchedEx | ScalStridedBatchedEx => Scal
  }

  /** The routine's name, as the NAME of its test suite and the function field of its rows. */
  function Name(r: Routine): string
  {
    match r
    case AxpyEx => "axpy_ex"
    case AxpyBatchedEx => "axpy_batched_ex"
    case AxpyStridedBatchedEx => "axpy_strided_batched_ex"
    case DotEx => "dot_ex"
    case DotcEx => "dotc_ex"
    case DotBatchedEx => "dot_batched_ex"
    case DotcBatchedEx => "dotc_batched_ex"
    case DotStridedBatchedEx => "dot_strided_batched_ex"
    case DotcStridedBatchedEx => "dotc_strided_batched_ex"
    case Nrm2Ex => "nrm2_ex"
    case Nrm2BatchedEx => "nrm2_batched_ex"
    case Nrm2StridedBatchedEx => "nrm2_strided_batched_ex"
    case RotEx => "rot_ex"
    case RotBatchedEx => "rot_batched_ex"
    case RotStridedBatchedEx => "rot_strided_batched_ex"
    case ScalEx => "scal_ex"
    case ScalBatchedEx => "scal_batched_ex"
    case ScalStridedBatchedEx => "scal_strided_batched_ex"
  }

  predicate Same3(a: Ty, b: Ty, c: Ty)
  {
    a == b && b == c
  }

  /** blas1_ex_enabled<BLAS1_EX, T1, T2, T3, T4>. The meaning of the four types depends on the
      family: axpy (alpha, x, y, execution), dot (x, y, result, execution), rot (x, y, cs,
      execution), scal (alpha, x, execution) and nrm2 (x, result, execution). */
  predicate Enabled(r: Routine, t1: Ty, t2: Ty, t3: Ty, t4: Ty)
  {
    match FamilyOf(r)
    case Axpy =>
      (Same3(t1, t2, t3) && t3 == t4 && t1 in {Float, Double, Half, FloatComplex, DoubleComplex})
      || (Same3(t1, t2, t3) && t1 == Half && t4 == Float)
      || (t2 == t3 && t1 == t4 && t2 == Half && t1 == Float)
    case Dot =>
      (Same3(t1, t2, t3) && t3 == t4 && t1 in {Float, Double, Half, FloatComplex, DoubleComplex})
      || (Same3(t1, t2, t3) && t1 == Half && t4 == Float)
      || (Same3(t1, t2, t3) && t1 == BFloat16 && t4 == Float)
    case Rot =>
      (Same3(t1, t2, t3) && t3 == t4 && t1 in {Float, Double, FloatComplex, DoubleComplex})
      || (Same3(t1, t2, t3) && t4 == Float && t1 in {BFloat16, Half})
      || (t1 == t2 && t1 == t4 && t1 == FloatComplex && t3 == Float)
      || (t1 == t2 && t1 == t4 && t1 == DoubleComplex && t3 == Double)
    case Scal =>
      (Same3(t1, t2, t3) && t1 in {Float, Double, Half, FloatComplex, DoubleComplex})
      || (t1 == t2 && t1 == Half && t3 == Float)
      || (t1 == t3 && t1 == Float && t2 == Half)
      || (t2 == t3 && t1 == Float && t2 == FloatComplex)
      || (t2 == t3 && t1 == Double && t2 == DoubleComplex)
    case Nrm2 =>
      (Same3(t1, t2, t3) && t1 in {Float, Double})
      || (t1 == FloatComplex && t2 == Float && t3 == Float)
      || (t1 == DoubleComplex && t2 == Double && t3 == Double)
      || (t1 == Half && t2 == Half && t3 == Float)
  }

  /** Four identical float or double types are enabled for every routine. */
  lemma EnabledFloatDouble(r: Routine, t: Ty)
    requires t == Float || t == Double
    ensures Enabled(r, t, t, t, t)
  {
  }

  /** nrm2 of a complex vector is enabled exactly with a real result and real compute type of
      the same precision; in particular all-complex nrm2 is disabled. */
  lemma Nrm2Complex(r: Routine, t1: Ty, t2: Ty, t3: Ty, t4: Ty)
    requires FamilyOf(r) == Nrm2 && (t1 == FloatComplex || t1 == DoubleComplex)
    ensures Enabled(r, t1, t2, t3, t4) <==>
              (t1 == FloatComplex && t2 == Float && t3 == Float) || (t1 == DoubleComplex && t2 == Double && t3 == Double)
    ensures !Enabled(r, t1, t1, t1, t1)
  {
  }

  /** rot with half or bfloat16 x is enabled exactly when y and cs have that type and the
      compute type is float; an all-half (or all-bfloat16) rot is disabled. */
  lemma RotLowPrecision(r: Routine, t1: Ty, t2: Ty, t3: Ty, t4: Ty)
    requires FamilyOf(r) == Rot && (t1 == Half || t1 == BFloat16)
    ensures Enabled(r, t1, t2, t3, t4) <==> t1 == t2 && t2 == t3 && t4 == Float
    ensures !Enabled(r, t1, t1, t1, t1)
  {
  }

  /** bfloat16 is enabled for dot (with float compute) and rot, and never for axpy or scal,
      in any position. */
  lemma BFloat16Support(r: Routine, t1: Ty, t2: Ty, t3: Ty, t4: Ty)
    ensures FamilyOf(r) == Axpy && BFloat16 in {t1, t2, t3, t4} ==> !Enabled(r, t1, t2, t3, t4)
    ensures FamilyOf(r) == Scal && BFloat16 in {t1, t2, t3} ==> !Enabled(r, t1, t2, t3, t4)
    ensures FamilyOf(r) == Dot && t1 == BFloat16 ==> (Enabled(r, t1, t2, t3, t4) <==> t2 == BFloat16 && t3 == BFloat16 && t4 == Float)
    ensures FamilyOf(r) == Rot ==> Enabled(r, BFloat16, BFloat16, BFloat16, Float)
  {
  }

  /** scal takes a real alpha with complex x and compute type of the same precision, and
      only of the same precision. */
  lemma ScalRealAlpha(r: Routine, t4: Ty)
    requires FamilyOf(r) == Scal
    ensures Enabled(r, Float, FloatComplex, FloatComplex, t4)
    ensures Enabled(r, Double, DoubleComplex, DoubleComplex, t4)
    ensures !Enabled(r, Float, DoubleComplex, DoubleComplex, t4)
    ensures !Enabled(r, Double, FloatComplex, FloatComplex, t4)
  {
  }

  /** scal and nrm2 take three type arguments: the fourth never matters. */
  lemma ThreeTypeFamilies(r: Routine, t1: Ty, t2: Ty, t3: Ty, t4: Ty, u4: Ty)
    requires FamilyOf(r) == Scal || FamilyOf(r) == Nrm2
    ensures Enabled(r, t1, t2, t3, t4) == Enabled(r, t1, t2, t3, u4)
  {
  }

  /** `!strcmp(arg.function, NAME) || !strcmp(arg.function, NAME "_bad_arg")`. */
  predicate FunctionFilter(r: Routine, fn: string)
  {
    fn == Name(r) || fn == Name(r) + "_bad_arg"
  }

  /** What `testing<Ta, Tb, Tc, Tex>` does for a row: a disabled type combination is the
      invalid test; an enabled one runs the test or its bad-argument variant, and any other
      function name is a test failure. */
  datatype Selection = InvalidTest | RunTest | RunBadArgTest | FailUnknown

  function Select(r: Routine, t1: Ty, t2: Ty, t3: Ty, t4: Ty, fn: string): Selection
  {
    if !Enabled(r, t1, t2, t3, t4) then InvalidTest
    else if fn == Name(r) then RunTest
    else if fn == Name(r) + "_bad_arg" then RunBadArgTest
    else FailUnknown
  }

  /** A row that passes the suite's function filter never reaches the failure branch; a row
      that does not pass it fails whenever its types are enabled. */
  lemma SelectFilter(r: Routine, t1: Ty, t2: Ty, t3: Ty, t4: Ty, fn: string)
    ensures !Enabled(r, t1, t2, t3, t4) <==> Select(r, t1, t2, t3, t4, fn) == InvalidTest
    ensures Enabled(r, t1, t2, t3, t4) ==>
      (Select(r, t1, t2, t3, t4, fn) == FailUnknown <==> !FunctionFilter(r, fn))
    ensures Select(r, t1, t2, t3, t4, fn) == RunTest <==> Enabled(r, t1, t2, t3, t4) && fn == Name(r)
    ensures Select(r, t1, t2, t3, t4, fn) == RunBadArgTest <==> Enabled(r, t1, t2, t3, t4) && fn == Name(r) + "_bad_arg"
  {
    assert |Name(r) + "_bad_arg"| != |Name(r)|;
  }

  /** `strstr(s, p) != nullptr`: `p` occurs somewhere in `s`. */
  predicate Contains(s: string, p: string)
    decreases |s|
  {
    |p| <= |s| && (s[..|p|] == p || Contains(s[1..], p))
  }

  lemma {:induction false} ContainsSuffix(s: string, p: string)
    ensures Contains(s + p, p)
    decreases |s|
  {
    if |s| > 0 {
      assert (s + p)[1..] == s[1..] + p;
      ContainsSuffix(s[1..], p);
    } else {
      assert s + p == p;
    }
  }

  /** Every character of an occurring string occurs in the string it occurs in. */
  lemma {:induction false} ContainsChars(s: string, p: string, c: char)
    requires Contains(s, p) && c in p
    ensures c in s
    decreases |s|
  {
    if s[..|p|] == p {
      assert c in s[..|p|];
    } else {
      ContainsChars(s[1..], p, c);
      assert s == [s[0]] + s[1..];
    }
  }

  /** The fields of Arguments a name can show. */
  datatype Field =
    | AType | BType | CType | ComputeType | N | Alpha | AlphaI
    | Incx | StrideX | Incy | StrideY | BatchCount

  /** A piece written to the name stream: a literal, or the value of a field (its rendering
      as text is not modelled). */
  datatype Token = Lit(text: string) | Value(field: Field)

  /** The contents of the name stream, grown at its end by every `<<`. */
  datatype Stream = Empty | Put(before: Stream, last: Token)

  /** Whether a token was written to the stream. */
  predicate Has(n: Stream, t: Token)
  {
    n.Put? && (n.last == t || Has(n.before, t))
  }

  /** The first token written. */
  function First(n: Stream): Token
    requires n.Put?
  {
    if n.before == Empty then n.last else First(n.before)
  }

  /** Every field value in the stream ranks below `k`. */
  predicate Below(n: Stream, k: int)
  {
    n == Empty || (Below(n.before, k) && (n.last.Value? ==> Rank(n.last.field) < k))
  }

  /** Every field value ranks above all the field values written before it. */
  predicate Ordered(n: Stream)
  {
    n == Empty || (Ordered(n.before) && (n.last.Value? ==> Below(n.before, Rank(n.last.field))))
  }

  /** Every field value but the first token is written right behind a '_'. */
  predicate Separated(n: Stream)
  {
    n == Empty || (Separated(n.before) && (n.last.Value? && n.before.Put? ==> n.before.last == Lit("_")))
  }

  /** The position of a field in the declaration order. */
  function Rank(f: Field): nat
  {
    match f
    case AType => 0 case BType => 1 case CType => 2 case ComputeType => 3
    case N => 4 case Alpha => 5 case AlphaI => 6 case Incx => 7
    case StrideX => 8 case Incy => 9 case StrideY => 10 case BatchCount => 11
  }

  /** The routines the suffix code counts as batched and as strided. */
  predicate IsBatched(r: Routine)
  {
    r in {AxpyBatchedEx, DotBatchedEx, RotBatchedEx, ScalBatchedEx, Nrm2BatchedEx}
  }

  predicate IsStrided(r: Routine)
  {
    r in {AxpyStridedBatchedEx, DotStridedBatchedEx, RotStridedBatchedEx, ScalStridedBatchedEx, Nrm2StridedBatchedEx}
  }

  /** Whether a field is part of the name for a routine of the given family and batching
      (the batching is a parameter so that the intended classification can be used too). */
  predicate Shows(fam: Family, batched: bool, strided: bool, f: Field)
  {
    var xy := fam == Axpy || fam == Dot || fam == Rot;
    match f
    case CType => xy
    case Alpha | AlphaI => fam == Axpy || fam == Scal
    case Incx => xy || fam == Scal || fam == Nrm2
    case StrideX => strided
    case Incy => xy
    case StrideY => strided && xy
    case BatchCount => batched || strided
    case _ => true
  }

  /** The stream with '_' and the field's value written behind it, if the field is shown. */
  function Piece(n: Stream, fam: Family, b: bool, st: bool, f: Field): Stream
  {
    if Shows(fam, b, st, f) then Put(Put(n, Lit("_")), Value(f)) else n
  }

  /** The data types, n and alpha: a_type and the shown fields up to alpha_i. */
  function Scalars(fam: Family, b: bool, st: bool): Stream
  {
    var s1 := Piece(Put(Empty, Value(AType)), fam, b, st, BType);
    var s2 := Piece(s1, fam, b, st, CType);
    var s3 := Piece(s2, fam, b, st, ComputeType);
    var s4 := Piece(s3, fam, b, st, N);
    var s5 := Piece(s4, fam, b, st, Alpha);
    Piece(s5, fam, b, st, AlphaI)
  }

  /** The vector fields written behind `n`: incx, stride_x, incy, stride_y, batch_count,
      each one present only when it is shown. */
  function VectorFields(n: Stream, fam: Family, b: bool, st: bool): Stream
  {
    var s7 := Piece(n, fam, b, st, Incx);
    var s8 := Piece(s7, fam, b, st, StrideX);
    var s9 := Piece(s8, fam, b, st, Incy);
    var s10 := Piece(s9, fam, b, st, StrideY);
    Piece(s10, fam, b, st, BatchCount)
  }

  /** a_type, then every other field in declaration order, each one present only when it is
      shown. */
  function FieldTokens(fam: Family, b: bool, st: bool): Stream
  {
    VectorFields(Scalars(fam, b, st), fam, b, st)
  }

  /** The stream with "_F" behind it for the Fortran interface. */
  function Marked(n: Stream, fortran: bool): Stream
  {
    if fortran then Put(n, Lit("_F")) else n
  }

  /** The suffix for a routine of the given family and batching: "_bad_arg" alone for a
      bad-argument test, otherwise the field tokens and "_F" for the Fortran interface. */
  function SuffixFor(fam: Family, batched: bool, strided: bool, fn: string, fortran: bool): Stream
  {
    if Contains(fn, "_bad_arg") then Put(Empty, Lit("_bad_arg"))
    else Marked(FieldTokens(fam, batched, strided), fortran)
  }

  /** The writes of a normal test, from a_type to the Fortran marker, driven by the
      routine's compile-time classification. */
  method AppendFields(fam: Family, isBatched: bool, isStrided: bool, fortran: bool) returns (name: Stream)
    ensures name == Marked(FieldTokens(fam, isBatched, isStrided), fortran)
  {
    var isAxpy, isDot, isRot, isScal, isNrm2 := fam == Axpy, fam == Dot, fam == Rot, fam == Scal, fam == Nrm2;
    name := Put(Put(Put(Empty, Value(AType)), Lit("_")), Value(BType));
    if isAxpy || isDot || isRot {
      name := Put(Put(name, Lit("_")), Value(CType));
    }
    name := Put(Put(name, Lit("_")), Value(ComputeType));
    name := Put(Put(name, Lit("_")), Value(N));
    if isAxpy || isScal {
      name := Put(Put(Put(Put(name, Lit("_")), Value(Alpha)), Lit("_")), Value(AlphaI));
    }
    if isAxpy || isDot || isScal || isNrm2 || isRot {
      name := Put(Put(name, Lit("_")), Value(Incx));
    }
    if isStrided {
      name := Put(Put(name, Lit("_")), Value(StrideX));
    }
    if isAxpy || isDot || isRot {
      name := Put(Put(name, Lit("_")), Value(Incy));
    }
    if isStrided && (isAxpy || isDot || isRot) {
      name := Put(Put(name, Lit("_")), Value(StrideY));
    }
    if isBatched || isStrided {
      name := Put(Put(name, Lit("_")), Value(BatchCount));
    }
    if fortran {
      name := Put(name, Lit("_F"));
    }
  }

  /** name_suffix: the tokens it writes behind the name the test-name constructor started. */
  method NameSuffix(r: Routine, fn: string, fortran: bool) returns (name: Stream)
    ensures name == SuffixFor(FamilyOf(r), IsBatched(r), IsStrided(r), fn, fortran)
  {
    if Contains(fn, "_bad_arg") {
      name := Put(Empty, Lit("_bad_arg"));
      return;
    }
    name := AppendFields(FamilyOf(r), IsBatched(r), IsStrided(r), fortran);
  }

  lemma {:induction false} BelowMono(n: Stream, k: int, k': int)
    requires Below(n, k) && k <= k'
    ensures Below(n, k')
  {
    if n.Put? {
      BelowMono(n.before, k, k');
    }
  }

  /** A name begun with a_type, ordered, separated, without "_F", its fields ranked below `k`. */
  predicate Shaped(n: Stream, k: int)
  {
    n.Put? && First(n) == Value(AType) && Ordered(n) && Separated(n) && Below(n, k) && !Has(n, Lit("_F"))
  }

  /** Writing a piece keeps a name shaped. */
  lemma PieceStep(n: Stream, fam: Family, b: bool, st: bool, f: Field)
    requires Shaped(n, Rank(f))
    ensures Shaped(Piece(n, fam, b, st, f), Rank(f) + 1)
  {
    BelowMono(n, Rank(f), Rank(f) + 1);
    var m := Put(n, Lit("_"));
    assert Below(m, Rank(f)) && Ordered(m) && Separated(m);
  }

  /** Writing a piece adds its field, if shown, and no other. */
  lemma PieceHas(n: Stream, fam: Family, b: bool, st: bool, f: Field, g: Field)
    ensures Has(Piece(n, fam, b, st, f), Value(g)) <==> Has(n, Value(g)) || (g == f && Shows(fam, b, st, f))
  {
  }

  /** The leading tokens are shaped, their fields ranked up to alpha_i. */
  lemma ScalarsShape(fam: Family, b: bool, st: bool)
    ensures Shaped(Scalars(fam, b, st), Rank(AlphaI) + 1)
  {
    var s0 := Put(Empty, Value(AType));
    assert Shaped(s0, Rank(BType));
    var s1 := Piece(s0, fam, b, st, BType);
    var s2 := Piece(s1, fam, b, st, CType);
    var s3 := Piece(s2, fam, b, st, ComputeType);
    var s4 := Piece(s3, fam, b, st, N);
    var s5 := Piece(s4, fam, b, st, Alpha);
    PieceStep(s0, fam, b, st, BType);
    PieceStep(s1, fam, b, st, CType);
    PieceStep(s2, fam, b, st, ComputeType);
    PieceStep(s3, fam, b, st, N);
    PieceStep(s4, fam, b, st, Alpha);
    PieceStep(s5, fam, b, st, AlphaI);
  }

  /** Writing the vector fields keeps a name shaped. */
  lemma VectorFieldsShape(n: Stream, fam: Family, b: bool, st: bool)
    requires Shaped(n, Rank(Incx))
    ensures Shaped(VectorFields(n, fam, b, st), Rank(BatchCount) + 1)
  {
    var s7 := Piece(n, fam, b, st, Incx);
    var s8 := Piece(s7, fam, b, st, StrideX);
    var s9 := Piece(s8, fam, b, st, Incy);
    var s10 := Piece(s9, fam, b, st, StrideY);
    PieceStep(n, fam, b, st, Incx);
    PieceStep(s7, fam, b, st, StrideX);
    PieceStep(s8, fam, b, st, Incy);
    PieceStep(s9, fam, b, st, StrideY);
    PieceStep(s10, fam, b, st, BatchCount);
  }

  /** The field tokens start with a_type and are ordered and separated. */
  lemma FieldTokensShape(fam: Family, b: bool, st: bool)
    ensures Shaped(FieldTokens(fam, b, st), Rank(BatchCount) + 1)
  {
    ScalarsShape(fam, b, st);
    VectorFieldsShape(Scalars(fam, b, st), fam, b, st);
  }

  /** The leading tokens hold a field up to alpha_i exactly when it is shown. */
  lemma ScalarsHas(fam: Family, b: bool, st: bool, g: Field)
    ensures Has(Scalars(fam, b, st), Value(g)) <==> Rank(g) <= Rank(AlphaI) && Shows(fam, b, st, g)
  {
    var s0 := Put(Empty, Value(AType));
    var s1 := Piece(s0, fam, b, st, BType);
    var s2 := Piece(s1, fam, b, st, CType);
    var s3 := Piece(s2, fam, b, st, ComputeType);
    var s4 := Piece(s3, fam, b, st, N);
    var s5 := Piece(s4, fam, b, st, Alpha);
    PieceHas(s0, fam, b, st, BType, g);
    PieceHas(s1, fam, b, st, CType, g);
    PieceHas(s2, fam, b, st, ComputeType, g);
    PieceHas(s3, fam, b, st, N, g);
    PieceHas(s4, fam, b, st, Alpha, g);
    PieceHas(s5, fam, b, st, AlphaI, g);
  }

  /** Writing the vector fields adds those of them that are shown. */
  lemma VectorFieldsHas(n: Stream, fam: Family, b: bool, st: bool, g: Field)
    ensures Has(VectorFields(n, fam, b, st), Value(g)) <==>
              Has(n, Value(g)) || (Rank(g) >= Rank(Incx) && Shows(fam, b, st, g))
  {
    var s7 := Piece(n, fam, b, st, Incx);
    var s8 := Piece(s7, fam, b, st, StrideX);
    var s9 := Piece(s8, fam, b, st, Incy);
    var s10 := Piece(s9, fam, b, st, StrideY);
    PieceHas(n, fam, b, st, Incx, g);
    PieceHas(s7, fam, b, st, StrideX, g);
    PieceHas(s8, fam, b, st, Incy, g);
    PieceHas(s9, fam, b, st, StrideY, g);
    PieceHas(s10, fam, b, st, BatchCount, g);
  }

  /** The field tokens hold a field exactly when it is shown. */
  lemma FieldTokensHas(fam: Family, b: bool, st: bool, g: Field)
    ensures Has(FieldTokens(fam, b, st), Value(g)) <==> Shows(fam, b, st, g)
  {
    var s6 := Scalars(fam, b, st);
    ScalarsHas(fam, b, st, g);
    VectorFieldsHas(s6, fam, b, st, g);
    if Rank(g) < Rank(Incx) {
      assert Has(FieldTokens(fam, b, st), Value(g)) <==> Has(s6, Value(g));
    } else {
      assert !Has(s6, Value(g));
    }
  }

  /** The Fortran marker adds no field. */
  lemma MarkedHas(n: Stream, fortran: bool, g: Field)
    ensures Has(Marked(n, fortran), Value(g)) <==> Has(n, Value(g))
  {
  }

  /** What a name shows: a bad-argument test "_bad_arg" and nothing else; any other test
      a_type first, exactly the fields its routine shows, every one after the first behind
      a '_', all in declaration order, and "_F" exactly for the Fortran interface. */
  lemma SuffixContents(fam: Family, batched: bool, strided: bool, fn: string, fortran: bool)
    ensures Contains(fn, "_bad_arg") ==> SuffixFor(fam, batched, strided, fn, fortran) == Put(Empty, Lit("_bad_arg"))
    ensures !Contains(fn, "_bad_arg") ==>
      var s := SuffixFor(fam, batched, strided, fn, fortran);
      s.Put? && First(s) == Value(AType) && Ordered(s) && Separated(s)
      && (forall g :: Has(s, Value(g)) <==> Shows(fam, batched, strided, g))
      && (Has(s, Lit("_F")) <==> fortran)
  {
    FieldTokensShape(fam, batched, strided);
    forall g ensures Has(FieldTokens(fam, batched, strided), Value(g)) <==> Shows(fam, batched, strided, g) {
      FieldTokensHas(fam, batched, strided, g);
    }
  }

  /** No routine name has a 'g' in it. */
  lemma NameHasNoG(r: Routine)
    ensures 'g' !in Name(r)
  {
    match FamilyOf(r)
    case Axpy => AxpyNamesHaveNoG(r);
    case Dot => DotNamesHaveNoG(r);
    case Nrm2 => Nrm2NamesHaveNoG(r);
    case Rot => RotNamesHaveNoG(r);
    case Scal => ScalNamesHaveNoG(r);
  }

  lemma AxpyNamesHaveNoG(r: Routine)
    requires FamilyOf(r) == Axpy
    ensures 'g' !in Name(r)
  {
  }

  lemma DotNamesHaveNoG(r: Routine)
    requires FamilyOf(r) == Dot
    ensures 'g' !in Name(r)
  {
  }

  lemma Nrm2NamesHaveNoG(r: Routine)
    requires FamilyOf(r) == Nrm2
    ensures 'g' !in Name(r)
  {
  }

  lemma RotNamesHaveNoG(r: Routine)
    requires FamilyOf(r) == Rot
    ensures 'g' !in Name(r)
  {
  }

  lemma ScalNamesHaveNoG(r: Routine)
    requires FamilyOf(r) == Scal
    ensures 'g' !in Name(r)
  {
  }

  /** A name without a 'g' cannot contain "_bad_arg". */
  lemma NoBadArg(s: string)
    requires 'g' !in s
    ensures !Contains(s, "_bad_arg")
  {
    if Contains(s, "_bad_arg") {
      ContainsChars(s, "_bad_arg", 'g');
    }
  }

  /** The suite's own rows: the plain routine name does not contain "_bad_arg", so its rows
      get the field tokens, and its bad-argument rows get "_bad_arg" alone. */
  lemma RowNames(r: Routine, batched: bool, strided: bool, fortran: bool)
    ensures !Contains(Name(r), "_bad_arg")
    ensures SuffixFor(FamilyOf(r), batched, strided, Name(r) + "_bad_arg", fortran) == Put(Empty, Lit("_bad_arg"))
    ensures SuffixFor(FamilyOf(r), batched, strided, Name(r), fortran)
              == Marked(FieldTokens(FamilyOf(r), batched, strided), fortran)
  {
    NameHasNoG(r);
    NoBadArg(Name(r));
    ContainsSuffix(Name(r), "_bad_arg");
  }

  /** How a routine batches, read off its name. */
  datatype Batching = Single | Batched | StridedBatched

  function BatchingOf(r: Routine): Batching
  {
    match r
    case AxpyEx | DotEx | DotcEx | Nrm2Ex | RotEx | ScalEx => Single
    case AxpyBatchedEx | DotBatchedEx | DotcBatchedEx | Nrm2BatchedEx | RotBatchedEx | ScalBatchedEx => Batched
    case _ => StridedBatched
  }

  /** The suffix code's classification agrees with the routine's batching for every routine
      but dotc_batched_ex and dotc_strided_batched_ex. */
  lemma ClassificationAgrees(r: Routine)
    requires r != DotcBatchedEx && r != DotcStridedBatchedEx
    ensures IsBatched(r) <==> BatchingOf(r) == Batched
    ensures IsStrided(r) <==> BatchingOf(r) == StridedBatched
  {
  }

  /** dotc_batched_ex and dotc_strided_batched_ex batch, but the suffix code counts them as
      neither batched nor strided. */
  lemma DotcMisclassified(r: Routine)
    requires r == DotcBatchedEx || r == DotcStridedBatchedEx
    ensures FamilyOf(r) == Dot && BatchingOf(r) != Single && !IsBatched(r) && !IsStrided(r)
  {
  }

  /** So the names of their normal rows carry no batch_count and no stride_x. */
  lemma DotcNamesOmitBatch(r: Routine, fortran: bool)
    requires r == DotcBatchedEx || r == DotcStridedBatchedEx
    ensures !Has(Marked(FieldTokens(FamilyOf(r), IsBatched(r), IsStrided(r)), fortran), Value(BatchCount))
    ensures !Has(Marked(FieldTokens(FamilyOf(r), IsBatched(r), IsStrided(r)), fortran), Value(StrideX))
  {
    DotcMisclassified(r);
    var fam, b, st := FamilyOf(r), IsBatched(r), IsStrided(r);
    var t := FieldTokens(fam, b, st);
    FieldTokensHas(fam, b, st, BatchCount);
    FieldTokensHas(fam, b, st, StrideX);
    MarkedHas(t, fortran, BatchCount);
    MarkedHas(t, fortran, StrideX);
  }

  /** The classification the names evidently intend, read off the routine's batching. */
  predicate IntendedBatched(r: Routine)
  {
    BatchingOf(r) == Batched
  }

  predicate IntendedStrided(r: Routine)
  {
    BatchingOf(r) == StridedBatched
  }

  /** With the intended classification the name of every batched or strided routine shows
      its batch_count, that of every strided routine its stride_x, and no other does. */
  lemma IntendedNamesShowBatch(r: Routine, fortran: bool)
    ensures Has(Marked(FieldTokens(FamilyOf(r), IntendedBatched(r), IntendedStrided(r)), fortran), Value(BatchCount)) <==>
              BatchingOf(r) != Single
    ensures Has(Marked(FieldTokens(FamilyOf(r), IntendedBatched(r), IntendedStrided(r)), fortran), Value(StrideX)) <==>
              BatchingOf(r) == StridedBatched
  {
    var fam, b, st := FamilyOf(r), IntendedBatched(r), IntendedStrided(r);
    MarkedHas(FieldTokens(fam, b, st), fortran, BatchCount);
    MarkedHas(FieldTokens(fam, b, st), fortran, StrideX);
    FieldTokensHas(fam, b, st, BatchCount);
    FieldTokensHas(fam, b, st, StrideX);
  }
}
