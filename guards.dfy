/** The shape every entry point of this model shares: an ordered chain of early returns
    (`if(cond) return status;`) followed by a pipeline of calls into services whose results
    are inputs of the model (the check_numerics helpers, the kernel templates). */
module Guards {
  import opened Types

  /** One early return: `if(fires) return status;`. */
  datatype Check = Check(fires: bool, status: Status)

  /** A foreign call made after the guards, recorded so that the order of the calls and
      the arguments that matter (the batch count given to a numerics check) are visible. */
  datatype Step =
    | InputCheck(batchCount: int)
    | Kernel
    | OutputCheck(batchCount: int)

  /** What a call of an entry point did: the status it returned and the calls it made. */
  datatype Outcome = Outcome(status: Status, steps: seq<Step>)

  /** Runs the guard chain: the first check that fires decides the status and nothing after
      it is examined; when none fires the call goes on to `rest`. */
  function Run(checks: seq<Check>, rest: Outcome): Outcome
  {
    if checks == [] then rest
    else if checks[0].fires then Outcome(checks[0].status, [])
    else Run(checks[1..], rest)
  }

  predicate FirstFiring(checks: seq<Check>, i: int)
  {
    0 <= i < |checks| && checks[i].fires && forall j :: 0 <= j < i ==> !checks[j].fires
  }

  predicate NoneFires(checks: seq<Check>)
  {
    forall j :: 0 <= j < |checks| ==> !checks[j].fires
  }

  /** The first check that fires returns its own status, without any foreign call. */
  lemma {:induction false} RunFirstFiring(checks: seq<Check>, rest: Outcome, i: int)
    requires FirstFiring(checks, i)
    ensures Run(checks, rest) == Outcome(checks[i].status, [])
  {
    if i > 0 {
      assert FirstFiring(checks[1..], i - 1);
      RunFirstFiring(checks[1..], rest, i - 1);
    }
  }

  /** When no check fires, the call behaves exactly as the rest of the entry point. */
  lemma {:induction false} RunNoneFires(checks: seq<Check>, rest: Outcome)
    requires NoneFires(checks)
    ensures Run(checks, rest) == rest
  {
    if checks != [] {
      RunNoneFires(checks[1..], rest);
    }
  }

  /** Every run ends in one of the two ways above. */
  lemma {:induction false} RunCases(checks: seq<Check>, rest: Outcome)
    ensures (NoneFires(checks) && Run(checks, rest) == rest)
         || (exists i :: FirstFiring(checks, i) && Run(checks, rest) == Outcome(checks[i].status, []))
  {
    if checks == [] {
    } else if checks[0].fires {
      assert FirstFiring(checks, 0);
    } else {
      RunCases(checks[1..], rest);
      if !NoneFires(checks[1..]) {
        var i :| FirstFiring(checks[1..], i) && Run(checks[1..], rest) == Outcome(checks[1..][i].status, []);
        assert FirstFiring(checks, i + 1);
      }
    }
  }

  /** The calls the numerics pipeline makes when nothing fails. */
  function Schedule(numerics: bool, batchCount: int): seq<Step>
  {
    if numerics then [InputCheck(batchCount), Kernel, OutputCheck(batchCount)] else [Kernel]
  }

  /** The status the service behind a step reports. */
  function ResultOf(step: Step, input: Status, kernel: Status, output: Status): Status
  {
    match step
    case InputCheck(_) => input
    case Kernel => kernel
    case OutputCheck(_) => output
  }

  /** The pipeline after the guards: the input numerics check (only when check_numerics is
      on), the kernel template, then the output numerics check; a failing status returns at
      once, and otherwise the kernel's status is returned. */
  function Pipeline(numerics: bool, batchCount: int, input: Status, kernel: Status, output: Status): Outcome
  {
    if numerics && input != Success then
      Outcome(input, [InputCheck(batchCount)])
    else if kernel != Success then
      Outcome(kernel, (if numerics then [InputCheck(batchCount)] else []) + [Kernel])
    else if numerics && output != Success then
      Outcome(output, [InputCheck(batchCount), Kernel, OutputCheck(batchCount)])
    else
      Outcome(kernel, Schedule(numerics, batchCount))
  }

  /** The pipeline makes the scheduled calls in order and stops at the first one that does not
      succeed, whose status it returns: the calls made are a non-empty prefix of the schedule,
      every call but the last succeeded, and a call is skipped only after a failure. */
  lemma PipelineStopsAtFirstFailure(numerics: bool, batchCount: int, input: Status, kernel: Status, output: Status)
    ensures var o := Pipeline(numerics, batchCount, input, kernel, output);
      var s := Schedule(numerics, batchCount);
      0 < |o.steps| <= |s| && o.steps == s[..|o.steps|]
      && (forall i :: 0 <= i < |o.steps| - 1 ==> ResultOf(o.steps[i], input, kernel, output) == Success)
      && o.status == ResultOf(o.steps[|o.steps| - 1], input, kernel, output)
      && (|o.steps| < |s| ==> o.status != Success)
  {
  }

  /** The kernel runs exactly when the input check is off or passes, and the call succeeds
      exactly when every call it makes succeeds. */
  lemma PipelineKernelAndSuccess(numerics: bool, batchCount: int, input: Status, kernel: Status, output: Status)
    ensures var o := Pipeline(numerics, batchCount, input, kernel, output);
      (Kernel in o.steps <==> !numerics || input == Success)
      && (o.status == Success <==> (!numerics || input == Success) && kernel == Success && (!numerics || output == Success))
      && (!numerics ==> o.steps == [Kernel] && o.status == kernel)
  {
  }
}
