/** The host side of the check_numerics facility: how the NaN/zero/Inf flags that the device
    check reports are turned into a status and a diagnostic message under the user's
    check_numerics mode, and when the vector checker launches its kernel at all. */
module CheckNumerics {
  import opened Types
  import opened Strides

  /** rocblas_check_numerics_t as copied back from the device. */
  datatype Abnormal = Abnormal(hasNaN: bool, hasZero: bool, hasInf: bool)

  /** The bits of rocblas_check_numerics_mode: info = 0x1, warn = 0x2, fail = 0x4. */
  datatype ModeFlag = Info | Warn | Fail

  function Mask(f: ModeFlag): nat
  {
    match f
    case Info => 1
    case Warn => 2
    case Fail => 4
  }

  /** `(check_numerics & mask) != 0` on the two's-complement representation of the int. */
  predicate ModeHas(mode: int, f: ModeFlag)
  {
    (mode / Mask(f)) % 2 == 1
  }

  /** Which vector a diagnostic line speaks of. */
  datatype Label = InputLabel | OutputLabel

  /** The line written to the error stream, if any: which vector it names and the three flags it shows. */
  datatype Message = NoMessage | Message(vector: Label, flags: Abnormal)

  datatype Verdict = Verdict(status: Status, message: Message)

  /** A vector is abnormal when it holds a NaN or an infinity; a zero is only reported. */
  predicate IsAbnormal(a: Abnormal)
  {
    a.hasNaN || a.hasInf
  }

  /** rocblas_check_numerics_abnormal_struct. */
  function AbnormalStruct(mode: int, isInput: bool, a: Abnormal): Verdict
  {
    var abnormal := IsAbnormal(a);
    var message :=
      if ModeHas(mode, Info) || (ModeHas(mode, Warn) && abnormal)
      then Message(if isInput then InputLabel else OutputLabel, a)
      else NoMessage;
    if abnormal && ModeHas(mode, Fail) then Verdict(CheckNumericsFail, message)
    else Verdict(Success, message)
  }

  /** The status is check_numerics_fail exactly when the vector is abnormal and the fail bit is
      set, and success otherwise; a zero flag alone never changes it. */
  lemma AbnormalStructStatus(mode: int, isInput: bool, a: Abnormal)
    ensures var v := AbnormalStruct(mode, isInput, a);
      (v.status == CheckNumericsFail <==> (a.hasNaN || a.hasInf) && ModeHas(mode, Fail))
      && (v.status == Success <==> !(v.status == CheckNumericsFail))
    ensures AbnormalStruct(mode, isInput, a.(hasZero := !a.hasZero)).status == AbnormalStruct(mode, isInput, a).status
  {
  }

  /** The mode with bit `f` flipped: `check_numerics ^ mask`. */
  function Toggle(mode: int, f: ModeFlag): int
  {
    if ModeHas(mode, f) then mode - Mask(f) else mode + Mask(f)
  }

  /** Flipping one bit of the mode flips that bit and keeps the other two, for every int. */
  lemma ToggleBits(mode: int, f: ModeFlag, g: ModeFlag)
    ensures ModeHas(Toggle(mode, f), g) <==> (if f == g then !ModeHas(mode, g) else ModeHas(mode, g))
  {
    var t := Toggle(mode, f);
    ModeHasDigits(mode);
    ModeHasDigits(t);
    match f
    case Info =>
      assert t == if mode % 2 == 1 then mode - 1 else mode + 1;
      FlipLow(mode, t);
    case Warn =>
      assert t == if (mode / 2) % 2 == 1 then mode - 2 else mode + 2;
      FlipMiddle(mode, t);
    case Fail =>
      assert t == if (mode / 4) % 2 == 1 then mode - 4 else mode + 4;
      FlipHigh(mode, t);
  }

  /** ModeHas with each mask written out. */
  lemma ModeHasDigits(x: int)
    ensures ModeHas(x, Info) <==> x % 2 == 1
    ensures ModeHas(x, Warn) <==> (x / 2) % 2 == 1
    ensures ModeHas(x, Fail) <==> (x / 4) % 2 == 1
  {
  }

  lemma FlipLow(x: int, t: int)
    requires t == if x % 2 == 1 then x - 1 else x + 1
    ensures t % 2 != x % 2 && (t / 2) % 2 == (x / 2) % 2 && (t / 4) % 2 == (x / 4) % 2
  {
    assert t / 2 == x / 2 && t / 4 == x / 4;
  }

  lemma FlipMiddle(x: int, t: int)
    requires t == if (x / 2) % 2 == 1 then x - 2 else x + 2
    ensures t % 2 == x % 2 && (t / 2) % 2 != (x / 2) % 2 && (t / 4) % 2 == (x / 4) % 2
  {
    if (x / 2) % 2 == 1 {
      assert t / 2 == x / 2 - 1 && t / 4 == x / 4;
    } else {
      assert t / 2 == x / 2 + 1 && t / 4 == x / 4;
    }
  }

  lemma FlipHigh(x: int, t: int)
    requires t == if (x / 4) % 2 == 1 then x - 4 else x + 4
    ensures t % 2 == x % 2 && (t / 2) % 2 == (x / 2) % 2 && (t / 4) % 2 != (x / 4) % 2
  {
    if (x / 4) % 2 == 1 {
      assert t / 2 == x / 2 - 2 && t / 4 == x / 4 - 1;
    } else {
      assert t / 2 == x / 2 + 2 && t / 4 == x / 4 + 1;
    }
  }

  /** The two roles of the bits: the fail bit decides the status and never the message, the
      info and warn bits decide the message and never the status. Flipping the fail bit
      changes the status exactly when the vector is abnormal. */
  lemma AbnormalStructBitRoles(mode: int, isInput: bool, a: Abnormal)
    ensures AbnormalStruct(Toggle(mode, Fail), isInput, a).message == AbnormalStruct(mode, isInput, a).message
    ensures AbnormalStruct(Toggle(mode, Fail), isInput, a).status != AbnormalStruct(mode, isInput, a).status <==> IsAbnormal(a)
    ensures AbnormalStruct(Toggle(mode, Info), isInput, a).status == AbnormalStruct(mode, isInput, a).status
    ensures AbnormalStruct(Toggle(mode, Warn), isInput, a).status == AbnormalStruct(mode, isInput, a).status
  {
    ToggleBits(mode, Fail, Info);
    ToggleBits(mode, Fail, Warn);
    ToggleBits(mode, Fail, Fail);
    ToggleBits(mode, Info, Fail);
    ToggleBits(mode, Warn, Fail);
  }

  /** is_input picks the Input or Output label and nothing else. */
  lemma AbnormalStructInputOnlyLabels(mode: int, a: Abnormal)
    ensures AbnormalStruct(mode, true, a).status == AbnormalStruct(mode, false, a).status
    ensures var vi, vo := AbnormalStruct(mode, true, a), AbnormalStruct(mode, false, a);
      (vi.message == NoMessage <==> vo.message == NoMessage)
      && (vi.message != NoMessage ==> vi.message == Message(InputLabel, a) && vo.message == Message(OutputLabel, a))
  {
  }

  /** The modes as users set them: each single bit is seen as itself and as no other bit. */
  lemma ModeBits()
    ensures ModeHas(1, Info) && !ModeHas(1, Warn) && !ModeHas(1, Fail)
    ensures !ModeHas(2, Info) && ModeHas(2, Warn) && !ModeHas(2, Fail)
    ensures !ModeHas(4, Info) && !ModeHas(4, Warn) && ModeHas(4, Fail)
    ensures !ModeHas(0, Info) && !ModeHas(0, Warn) && !ModeHas(0, Fail)
    ensures ModeHas(7, Info) && ModeHas(7, Warn) && ModeHas(7, Fail)
  {
  }

  /** The results of the device services one vector check relies on: the copy of the flag
      record to the device, the flags the kernel sets, and the copy back. */
  datatype Probe = Probe(toDevice: Status, flags: Abnormal, toHost: Status)

  datatype VectorCheck = VectorCheck(status: Status, message: Message, launch: Launch)

  /** Threads per block of rocblas_check_numerics_vector_kernel. */
  const NB: int := 256

  /** rocblas_internal_check_numerics_vector_template. A failing copy returns its status. */
  function CheckVector(n: int, x: bool, incx: int, batchCount: int, mode: int, isInput: bool, probe: Probe): VectorCheck
  {
    if n <= 0 || incx <= 0 || batchCount <= 0 || !x then
      VectorCheck(Success, NoMessage, NoLaunch)
    else if probe.toDevice != Success then
      VectorCheck(probe.toDevice, NoMessage, NoLaunch)
    else
      var grid := Launch(Blocks(n, NB), batchCount, NB);
      if probe.toHost != Success then
        VectorCheck(probe.toHost, NoMessage, grid)
      else
        var v := AbnormalStruct(mode, isInput, probe.flags);
        VectorCheck(v.status, v.message, grid)
  }

  /** No kernel is launched and the status is success when n <= 0, incx <= 0 (so a vector with
      a negative increment is never checked), batch_count <= 0 or x is null; otherwise the
      kernel is launched whenever the flag record reached the device. */
  lemma CheckVectorQuickReturn(n: int, x: bool, incx: int, batchCount: int, mode: int, isInput: bool, probe: Probe)
    ensures var c := CheckVector(n, x, incx, batchCount, mode, isInput, probe);
      (n <= 0 || incx <= 0 || batchCount <= 0 || !x ==> c == VectorCheck(Success, NoMessage, NoLaunch))
      && (c.launch != NoLaunch <==> n > 0 && incx > 0 && batchCount > 0 && x && probe.toDevice == Success)
  {
  }

  /** When the copies succeed the status is that of the flag record; a failing copy is
      returned as it is. */
  lemma CheckVectorStatus(n: int, x: bool, incx: int, batchCount: int, mode: int, isInput: bool, probe: Probe)
    requires n > 0 && incx > 0 && batchCount > 0 && x
    ensures var c := CheckVector(n, x, incx, batchCount, mode, isInput, probe);
      (probe.toDevice != Success ==> c.status == probe.toDevice)
      && (probe.toDevice == Success && probe.toHost != Success ==> c.status == probe.toHost)
      && (probe.toDevice == Success && probe.toHost == Success ==>
            c.status == AbnormalStruct(mode, isInput, probe.flags).status
            && (c.status == CheckNumericsFail <==> IsAbnormal(probe.flags) && ModeHas(mode, Fail)))
  {
  }

  /** `(n-1)/256 + 1` blocks by batch_count cover every element of every batch, with no idle
      block. */
  lemma CheckVectorGridCovers(n: int, x: bool, incx: int, batchCount: int, mode: int, isInput: bool, probe: Probe)
    ensures var c := CheckVector(n, x, incx, batchCount, mode, isInput, probe);
      c.launch.Launch? ==>
        c.launch.threads == NB && c.launch.blocksY == batchCount
        && (c.launch.blocksX - 1) * NB < n <= c.launch.blocksX * NB
  {
    if n >= 1 {
      BlocksCover(n, NB);
    }
  }
}
