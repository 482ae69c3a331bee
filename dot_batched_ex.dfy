/** rocblas_dot_batched_ex_impl (shared by dot and dotc): the size query, the quick return
    that zero-fills batch_count results when n <= 0, the pointer checks and the workspace. */
module DotBatchedEx {
  import opened Types
  import opened Guards

  /** The arguments the status depends on; the datatypes only reach the template. */
  datatype DotArgs = DotArgs(n: int, x: bool, incx: int, y: bool, incy: int, batchCount: int)

  /** The results of the foreign calls: set_optimal_device_memory_size (answering a size
      query), hipMemsetAsync of the device results, device_malloc of the workspace, and
      rocblas_dot_ex_template: its status and what it leaves in each result slot (any
      value, as the template may write and still fail). */
  datatype Services = Services(sizeQuery: Status, memset: Status, workspace: bool, template: Status, results: int -> int)

  /** A size query is told that nothing is needed when there is nothing to compute. */
  function QueryStatus(g: DotArgs, sv: Services): Status
  {
    if g.n <= 0 || g.batchCount <= 0 then SizeUnchanged else sv.sizeQuery
  }

  /** The `n <= 0` branch: a null result is refused, a failing device memset is returned, and
      otherwise the zeroed results are a success. */
  function ZeroFillStatus(h: Handle, hasResult: bool, sv: Services): Status
  {
    if !hasResult then InvalidPointer
    else if h.Handle? && h.pointerMode == DeviceMode && sv.memset != Success then sv.memset
    else Success
  }

  function Checks(h: Handle, g: DotArgs, hasResult: bool, sv: Services): seq<Check>
  {
    [ Check(h.NullHandle?, InvalidHandle),
      Check(IsSizeQuery(h), QueryStatus(g, sv)),
      Check(g.batchCount <= 0, Success),
      Check(g.n <= 0, ZeroFillStatus(h, hasResult, sv)),
      Check(!g.x || !g.y || !hasResult, InvalidPointer),
      Check(!sv.workspace, MemoryError) ]
  }

  /** The status of the call; `hasResult` says whether the result pointer is non-null. */
  function DotStatus(h: Handle, g: DotArgs, hasResult: bool, sv: Services): Outcome
  {
    Run(Checks(h, g, hasResult, sv), Outcome(sv.template, [Kernel]))
  }

  /** When the call sets its results to zero: on the n <= 0 branch with a result buffer,
      on the host, or on the device when the memset was queued. */
  predicate ZeroFills(h: Handle, g: DotArgs, hasResult: bool, sv: Services)
  {
    h.Handle? && !h.sizeQuery && g.batchCount > 0 && g.n <= 0 && hasResult
    && (h.pointerMode == HostMode || sv.memset == Success)
  }

  /** When the call hands the buffer to rocblas_dot_ex_template. */
  predicate Launches(h: Handle, g: DotArgs, hasResult: bool, sv: Services)
  {
    Kernel in DotStatus(h, g, hasResult, sv).steps
  }

  function Zero(k: int): int
  {
    0
  }

  /** The first `count` slots set to `value`, the rest as they were. */
  predicate FilledPrefix(after: seq<int>, before: seq<int>, count: int, value: int -> int)
  {
    |after| == |before|
    && (forall k :: 0 <= k < |after| && k < count ==> after[k] == value(k))
    && (forall k :: 0 <= k < |after| && count <= k ==> after[k] == before[k])
  }

  /** The call itself, on a `result` buffer of batch_count slots (null for a null pointer).
      The quick return zeroes the slots, the template leaves its results in them, and every
      other path leaves the buffer as it was. */
  method DotBatchedExImpl(h: Handle, g: DotArgs, sv: Services, result: array?<int>) returns (status: Status)
    requires result != null ==> g.batchCount <= result.Length
    modifies result
    ensures status == DotStatus(h, g, result != null, sv).status
    ensures result != null && ZeroFills(h, g, true, sv) ==> FilledPrefix(result[..], old(result[..]), g.batchCount, Zero)
    ensures result != null && Launches(h, g, true, sv) ==> FilledPrefix(result[..], old(result[..]), g.batchCount, sv.results)
    ensures result != null && !ZeroFills(h, g, true, sv) && !Launches(h, g, true, sv) ==> result[..] == old(result[..])
  {
    var checks := Checks(h, g, result != null, sv);
    var rest := Outcome(sv.template, [Kernel]);
    if h.NullHandle? {
      RunFirstFiring(checks, rest, 0);
      return InvalidHandle;
    }
    if h.sizeQuery {
      RunFirstFiring(checks, rest, 1);
      if g.n <= 0 || g.batchCount <= 0 {
        return SizeUnchanged;
      }
      return sv.sizeQuery;
    }
    if g.batchCount <= 0 {
      RunFirstFiring(checks, rest, 2);
      return Success;
    }
    if g.n <= 0 {
      RunFirstFiring(checks, rest, 3);
      if result == null {
        return InvalidPointer;
      }
      if h.pointerMode == DeviceMode {
        if sv.memset != Success {
          return sv.memset;
        }
      }
      forall k | 0 <= k < g.batchCount {
        result[k] := 0;
      }
      return Success;
    }
    if !g.x || !g.y || result == null {
      RunFirstFiring(checks, rest, 4);
      return InvalidPointer;
    }
    if !sv.workspace {
      RunFirstFiring(checks, rest, 5);
      return MemoryError;
    }
    RunNoneFires(checks, rest);
    forall k | 0 <= k < g.batchCount {
      result[k] := sv.results(k);
    }
    return sv.template;
  }

  lemma DotNullHandle(g: DotArgs, hasResult: bool, sv: Services)
    ensures DotStatus(NullHandle, g, hasResult, sv) == Outcome(InvalidHandle, [])
  {
    RunFirstFiring(Checks(NullHandle, g, hasResult, sv), Outcome(sv.template, [Kernel]), 0);
  }

  /** A size query is answered before anything else is examined: size_unchanged when
      n <= 0 or batch_count <= 0, otherwise the status of recording the optimal size. */
  lemma DotSizeQuery(h: Handle, g: DotArgs, hasResult: bool, sv: Services)
    requires IsSizeQuery(h)
    ensures DotStatus(h, g, hasResult, sv).status ==
              (if g.n <= 0 || g.batchCount <= 0 then SizeUnchanged else sv.sizeQuery)
    ensures !ZeroFills(h, g, hasResult, sv)
  {
    RunFirstFiring(Checks(h, g, hasResult, sv), Outcome(sv.template, [Kernel]), 1);
  }

  /** batch_count <= 0 succeeds without touching the results, even through a null pointer. */
  lemma DotEmptyBatch(h: Handle, g: DotArgs, hasResult: bool, sv: Services)
    requires h.Handle? && !h.sizeQuery && g.batchCount <= 0
    ensures DotStatus(h, g, hasResult, sv) == Outcome(Success, [])
    ensures !ZeroFills(h, g, hasResult, sv)
  {
    RunFirstFiring(Checks(h, g, hasResult, sv), Outcome(sv.template, [Kernel]), 2);
  }

  /** With n <= 0 and batches to do: a null result is invalid_pointer (x and y are never
      looked at); otherwise the results are zeroed and the call succeeds, unless the
      device memset fails. The template is never called. */
  lemma DotQuickReturn(h: Handle, g: DotArgs, hasResult: bool, sv: Services)
    requires h.Handle? && !h.sizeQuery && g.batchCount > 0 && g.n <= 0
    ensures var o := DotStatus(h, g, hasResult, sv);
      o.steps == []
      && (!hasResult ==> o.status == InvalidPointer)
      && (o.status == Success <==> ZeroFills(h, g, hasResult, sv))
      && (hasResult && !ZeroFills(h, g, hasResult, sv) ==> o.status == sv.memset)
  {
    RunFirstFiring(Checks(h, g, hasResult, sv), Outcome(sv.template, [Kernel]), 3);
  }

  /** With n > 0: a null x, y or result is invalid_pointer, a failed workspace allocation is
      memory_error (not perf_degraded), and otherwise the template's status is returned. */
  lemma DotMainPath(h: Handle, g: DotArgs, hasResult: bool, sv: Services)
    requires h.Handle? && !h.sizeQuery && g.batchCount > 0 && g.n > 0
    ensures var o := DotStatus(h, g, hasResult, sv);
      (!g.x || !g.y || !hasResult ==> o == Outcome(InvalidPointer, []))
      && (g.x && g.y && hasResult && !sv.workspace ==> o == Outcome(MemoryError, []))
      && (g.x && g.y && hasResult && sv.workspace ==> o == Outcome(sv.template, [Kernel]))
      && !ZeroFills(h, g, hasResult, sv)
  {
    var checks := Checks(h, g, hasResult, sv);
    var rest := Outcome(sv.template, [Kernel]);
    if !g.x || !g.y || !hasResult {
      RunFirstFiring(checks, rest, 4);
    } else if !sv.workspace {
      RunFirstFiring(checks, rest, 5);
    } else {
      RunNoneFires(checks, rest);
    }
  }

  /** Who writes the buffer: the quick return, always with success, or the template, which
      is reached exactly when the handle is valid, it is not a size query, there are batches
      and elements, no pointer is null and the workspace was allocated. Never both, so a
      call that fails before the template leaves the buffer as it was. */
  lemma DotBufferWriters(h: Handle, g: DotArgs, hasResult: bool, sv: Services)
    ensures ZeroFills(h, g, hasResult, sv) ==> DotStatus(h, g, hasResult, sv) == Outcome(Success, [])
    ensures Launches(h, g, hasResult, sv) <==>
              h.Handle? && !h.sizeQuery && g.batchCount > 0 && g.n > 0 && g.x && g.y && hasResult && sv.workspace
    ensures !(ZeroFills(h, g, hasResult, sv) && Launches(h, g, hasResult, sv))
  {
    if h.NullHandle? {
      DotNullHandle(g, hasResult, sv);
    } else if h.sizeQuery {
      DotSizeQuery(h, g, hasResult, sv);
      RunFirstFiring(Checks(h, g, hasResult, sv), Outcome(sv.template, [Kernel]), 1);
    } else if g.batchCount <= 0 {
      DotEmptyBatch(h, g, hasResult, sv);
    } else if g.n <= 0 {
      DotQuickReturn(h, g, hasResult, sv);
    } else {
      DotMainPath(h, g, hasResult, sv);
    }
  }
}
