/** The work of one step: executor calls, polling and waiting. The work is a future that the
    runner may drop wherever it awaits. A script gives the answers the awaits receive; when
    the script is used up, the pending await is never answered and the work is dropped. */
module StepWork {
  import opened Conditions
  import opened Errors
  import opened Expressions
  import opened FlowModel
  import Pointers
  import opened ReferenceSafety
  import opened Validation
  import opened Values

  datatype Attempt = Attempt(number: nat, input: Json, output: Option<Json>, error: Option<string>) {
    predicate Open() { output.None? && error.None? }
  }

  /** What one await receives: the result of a database write, the result of an executor
      call and whether it and the history fit their limits, which arm a pause took, and
      whether the cancel signal had been given by then. The moment of a write is the number
      of events its table had seen before. */
  datatype Answer = Answer(persisted: Result<(), AppError>, returned: Result<Json, AppError>,
                           outputFits: bool, historyFits: bool, timerFirst: bool, cancelled: bool, moment: nat)

  datatype Work<+T> = Dropped | Done(value: T)

  /** Where the work stands: handing an attempt over, inside the executor, writing down what
      the executor returned, or pausing. */
  datatype Phase = Idle | Opening | InFlight | Recording | Pausing

  type StepResult = Result<(Json, Option<string>), AppError>

  const CANCELLED: AppError := AppError.Validation("FLOW_CANCELLED")
  const TIMED_OUT: AppError := AppError.Validation("FLOW_TIMEOUT")
  const UNCERTAIN: AppError := AppError.Validation("FLOW_OUTCOME_UNCERTAIN")
  const OUTPUT_TOO_LARGE: AppError := AppError.Validation("FLOW_OUTPUT_TOO_LARGE")
  const HISTORY_LIMIT: AppError := AppError.Validation("FLOW_HISTORY_LIMIT")
  const MAX_ATTEMPTS: AppError := AppError.Validation("FLOW_MAX_ATTEMPTS")
  const FAILURE_CONDITION: AppError := AppError.Validation("FLOW_FAILURE_CONDITION")

  /** The attempt after its call returned. */
  function Recorded(number: nat, input: Json, answer: Answer): Attempt
  {
    match answer.returned
    case Ok(value) => Attempt(number, input, if answer.outputFits then Some(value) else None, None)
    case Err(error) =>
      Attempt(number, input,
              if error.FlowActionFailed? && answer.outputFits then Some(error.details) else None,
              Some(ErrorCode(error)))
  }

  // ---------- what the runner makes of an interrupted step ----------

  datatype Interrupt = DeadlinePassed | StopRequested(cause: AppError)

  function CleanInterrupt(interrupt: Interrupt): AppError
  {
    match interrupt
    case DeadlinePassed => TIMED_OUT
    case StopRequested(cause) => cause
  }

  /** The step finished inside the grace window. */
  function AdoptCompleted(interrupt: Interrupt, result: StepResult): StepResult
  {
    if result.Err? && ErrorCode(result.error) == "FLOW_CANCELLED" then Err(CleanInterrupt(interrupt)) else result
  }

  function CompletedActionOutput(step: Step, attempts: seq<Attempt>): Option<Json>
  {
    if !step.node.Action? || attempts == [] then None
    else
      var attempt := attempts[|attempts| - 1];
      if attempt.error.None? then attempt.output else None
  }

  function ExternalAttemptOpen(step: Step, attempts: seq<Attempt>): bool
  {
    && (step.node.Action? || step.node.Poll? || step.node.WaitUntil?)
    && attempts != []
    && attempts[|attempts| - 1].Open()
  }

  /** The step was dropped; only its recorded attempts are left to judge by. */
  function AdoptAbandoned(interrupt: Interrupt, step: Step, attempts: seq<Attempt>): StepResult
  {
    var completed := CompletedActionOutput(step, attempts);
    if completed.Some? then Ok((completed.value, None))
    else if attempts != [] && attempts[|attempts| - 1].error.Some? then
      var code := attempts[|attempts| - 1].error.value;
      if code == "FLOW_CANCELLED" then Err(CleanInterrupt(interrupt)) else Err(RecordedAttemptError(code))
    else if ExternalAttemptOpen(step, attempts) then Err(UNCERTAIN)
    else Err(CleanInterrupt(interrupt))
  }

  /** What an honest report is, given what really happened: with a call handed over and
      unanswered nobody knows; an answered call of an action counts as answered; between
      probes only the interrupt happened, unless the last probe failed. */
  ghost function HonestOutcome(interrupt: Interrupt, step: Step, phase: Phase, calls: seq<Answer>): StepResult
  {
    if phase.Opening? || phase.InFlight? then Err(UNCERTAIN)
    else if calls == [] then Err(CleanInterrupt(interrupt))
    else
      match calls[|calls| - 1].returned
      case Ok(value) => (if step.node.Action? then Ok((value, None)) else Err(CleanInterrupt(interrupt)))
      case Err(error) =>
        if ErrorCode(error) == "FLOW_CANCELLED" then Err(CleanInterrupt(interrupt))
        else Err(RecordedAttemptError(ErrorCode(error)))
  }

  // ---------- the decision after a probe ----------

  datatype Verdict = Again | Finish(result: StepResult)

  /** How values print inside texts, and the milliseconds elapsed in a step after each of its
      probes. */
  datatype Env = Env(render: Json -> string, clock: (string, nat) -> nat)

  /** Decides a probe of a Poll or a WaitUntil from its own answer alone. */
  function Decide(step: Step, context: Json, env: Env, number: nat, returned: Result<Json, AppError>): Verdict
    requires step.node.Poll? || step.node.WaitUntil?
  {
    match returned
    case Ok(output) =>
      var probed := WithProbe(context, output);
      if step.node.Poll? then
        (match Holds(step.node.until, probed, env.render)
         case Err(error) => Finish(Err(error))
         case Ok(done) => if done then Finish(Ok((output, None))) else Again)
      else
        (var failure := if step.node.failureWhen.Some? then Holds(step.node.failureWhen.value, probed, env.render) else Ok(false);
        if failure.Err? then Finish(Err(failure.error))
        else if failure.value then Finish(Err(FAILURE_CONDITION))
        else
          match Holds(step.node.successWhen, probed, env.render)
          case Err(error) => Finish(Err(error))
          case Ok(done) =>
            if done then Finish(Ok((WaitResult(output, number, env.clock(step.id, number)), None))) else Again)
    case Err(error) =>
      if step.node.WaitUntil? && step.node.policy.RetryTransientErrors? && Transient(error) && !Definite(error)
      then Again
      else Finish(Err(error))
  }

  /** No transient error is definite: the guard for definite outcomes changes no decision. */
  lemma {:induction false} TransientIsNotDefinite(error: AppError)
    requires Transient(error)
    ensures !Definite(error)
  {
    if error.FlowActionFailed? {
      TransientIsNotDefinite(error.source);
    } else if error.HttpStatus? {
      assert ErrorCode(error)[5] == 'H';
      assert "FLOW_CANCELLED"[5] == 'C' && "FLOW_OUTCOME_UNCERTAIN"[5] == 'O';
    } else {
      assert ErrorCode(error)[0] != 'F';
    }
  }

  /** Outcomes of a probe that no policy retries. */
  predicate Definite(error: AppError)
  {
    ErrorCode(error) == "FLOW_CANCELLED" || ErrorCode(error) == "FLOW_OUTCOME_UNCERTAIN"
  }

  function WaitResult(output: Json, attempts: nat, elapsedMs: nat): Json
  {
    Obj([Field("attempts", Number(attempts as real)), Field("elapsedMs", Number(elapsedMs as real)), Field("result", output)])
  }

  /** The most probes a step may make. */
  function Limit(step: Step): Option<nat>
  {
    match step.node
    case Poll(_, _, _, attempts) => Some(attempts)
    case WaitUntil(_, _, _, _, attempts, _) => attempts
    case _ => None
  }

  /** The most attempts a step may record: one, unless it probes. */
  function AttemptLimit(step: Step): Option<nat>
  {
    if step.node.Poll? || step.node.WaitUntil? then Limit(step) else Some(1)
  }

  /** No call beyond the limit was ever prepared, not even one that was not answered. */
  predicate WithinLimit(step: Step, attempts: seq<Attempt>)
  {
    AttemptLimit(step).Some? ==> |attempts| <= AttemptLimit(step).value
  }

  /** The errors database writes of a script report. */
  ghost function Faults(script: seq<Answer>): set<AppError>
  {
    set a | a in script && a.persisted.Err? :: a.persisted.error
  }

  /** The answers of a script that are writes which succeeded. */
  ghost function Granted(script: seq<Answer>): set<Answer>
  {
    set a | a in script && a.persisted.Ok?
  }

  /** Writing down the last answer failed or was cut short. */
  ghost predicate Disturbed<T>(r: Work<Result<T, AppError>>, answer: Answer, faults: set<AppError>)
  {
    || r.Dropped?
    || (r.value.Err? && r.value.error in faults)
    || (r == Done(Err(OUTPUT_TOO_LARGE)) && !answer.outputFits)
    || (r == Done(Err(HISTORY_LIMIT)) && !answer.historyFits)
  }

  /** A poll or wait is a fold to the first decisive probe: every probe before the last said
      to go on, the last one's decision is the result, and nothing else succeeds. */
  ghost predicate FoldsToFirstDecision(step: Step, resolved: Result<Json, AppError>, context: Json, env: Env,
                                       calls: seq<Answer>, cancelled: bool, faults: set<AppError>, r: Work<StepResult>)
    requires step.node.Poll? || step.node.WaitUntil?
  {
    var n := |calls|;
    && (Limit(step).Some? ==> n <= Limit(step).value)
    && GoOn(step, context, env, calls, n - 1)
    && (if n > 0 && Decide(step, context, env, n, calls[n - 1].returned).Finish?
        then r == Done(Decide(step, context, env, n, calls[n - 1].returned).result) || Disturbed(r, calls[n - 1], faults)
        else r.Dropped? || (r.value.Err? && Undecided(step, resolved, calls, cancelled, faults, r.value.error)))
  }

  ghost predicate GoOn(step: Step, context: Json, env: Env, calls: seq<Answer>, n: int)
    requires step.node.Poll? || step.node.WaitUntil?
    requires n <= |calls|
  {
    forall k :: 0 <= k < n ==> Decide(step, context, env, k + 1, calls[k].returned) == Again
  }

  /** Why a poll or wait may end without a decision: a write failed, the signal came, the last
      answer was too large, the limit is reached, or the arguments do not resolve. */
  ghost predicate Undecided(step: Step, resolved: Result<Json, AppError>, calls: seq<Answer>, cancelled: bool,
                            faults: set<AppError>, error: AppError)
  {
    || error in faults
    || (error == CANCELLED && cancelled)
    || (error == OUTPUT_TOO_LARGE && calls != [] && !calls[|calls| - 1].outputFits)
    || (error == HISTORY_LIMIT && calls != [] && !calls[|calls| - 1].historyFits)
    || (error == MAX_ATTEMPTS && Limit(step) == Some(|calls|))
    || (resolved.Err? && error == resolved.error)
  }

  /** The first `closed` attempts are the closed records of the first calls, numbered from 1. */
  ghost predicate Records(attempts: seq<Attempt>, closed: nat, calls: seq<Answer>, input: Json)
  {
    && closed <= |attempts| && closed <= |calls|
    && forall k :: 0 <= k < closed ==> attempts[k] == Recorded(k + 1, input, calls[k]) && !attempts[k].Open()
  }

  /** The attempts when the work of an external step ends: records of the answered calls in
      order, then at most one open attempt; and where a dropped work stood. */
  ghost predicate Settled(resolved: Result<Json, AppError>, attempts: seq<Attempt>, calls: seq<Answer>,
                          phase: Phase, dropped: bool)
  {
    var n := |attempts|;
    && |calls| <= n <= |calls| + 1
    && (resolved.Err? ==> n == 0)
    && (n > 0 ==> Records(attempts, n - 1, calls, resolved.value) && attempts[n - 1].number == n)
    && (n > |calls| ==> attempts[n - 1].Open())
    && (dropped ==>
          if phase.Opening? || phase.InFlight? then n == |calls| + 1
          else n == |calls| && (n > 0 ==> Records(attempts, n, calls, resolved.value)))
  }

  /** One attempt: what it may leave behind and report. */
  ghost predicate TryStep(resolved: Result<Json, AppError>, before: seq<Attempt>, attempts: seq<Attempt>,
                          earlier: seq<Answer>, calls: seq<Answer>, phase: Phase, cancelled: bool,
                          faults: set<AppError>, r: Work<Result<Result<Json, AppError>, AppError>>)
  {
    var n := |before|;
    if resolved.Err? then r == Done(Err(resolved.error)) && attempts == before && calls == earlier
    else
      && |attempts| == n + 1 && attempts[..n] == before
      && attempts[n].number == n + 1 && attempts[n].input == resolved.value
      && if calls == earlier then
           && attempts[n].Open()
           && (|| (r.Dropped? && (phase.Opening? || phase.InFlight?))
               || (r.Done? && r.value.Err? && r.value.error in faults)
               || (r == Done(Err(CANCELLED)) && cancelled))
         else
           && |calls| == |earlier| + 1 && calls[..|earlier|] == earlier
           && var answer := calls[|earlier|];
              || (attempts[n] == Recorded(n + 1, resolved.value, answer) && r == Done(Ok(answer.returned))
                  && (answer.returned.Ok? ==> answer.outputFits))
              || (Disturbed(r, answer, faults)
                  && (r.Dropped? ==> phase.Recording? && attempts[n] == Recorded(n + 1, resolved.value, answer)
                                     && (answer.returned.Ok? ==> answer.outputFits)))
  }

  /** Between two probes: every call so far is recorded and said to go on. */
  ghost predicate Polled(step: Step, resolved: Result<Json, AppError>, context: Json, env: Env,
                         attempts: seq<Attempt>, calls: seq<Answer>)
    requires step.node.Poll? || step.node.WaitUntil?
  {
    var n := |calls|;
    && |attempts| == n
    && (Limit(step).Some? ==> n <= Limit(step).value)
    && (n > 0 ==> resolved.Ok? && Records(attempts, n, calls, resolved.value))
    && GoOn(step, context, env, calls, n)
  }

  /** The work ended as a fold to the first decision, with its attempts in order. */
  ghost predicate Ended(step: Step, resolved: Result<Json, AppError>, context: Json, env: Env, attempts: seq<Attempt>,
                        calls: seq<Answer>, phase: Phase, cancelled: bool, faults: set<AppError>, r: Work<StepResult>)
    requires step.node.Poll? || step.node.WaitUntil?
  {
    && Settled(resolved, attempts, calls, phase, r.Dropped?)
    && WithinLimit(step, attempts)
    && FoldsToFirstDecision(step, resolved, context, env, calls, cancelled, faults, r)
  }

  lemma EndsUndecided(step: Step, resolved: Result<Json, AppError>, context: Json, env: Env, attempts: seq<Attempt>,
                      calls: seq<Answer>, phase: Phase, cancelled: bool, faults: set<AppError>, r: Work<StepResult>)
    requires step.node.Poll? || step.node.WaitUntil?
    requires Polled(step, resolved, context, env, attempts, calls)
    requires r.Dropped? ==> !phase.Opening? && !phase.InFlight?
    requires r.Done? ==> r.value.Err? && Undecided(step, resolved, calls, cancelled, faults, r.value.error)
    ensures Ended(step, resolved, context, env, attempts, calls, phase, cancelled, faults, r)
  {
  }

  /** A probe that was cut short or failed locally ends the work. */
  lemma EndsInProbe(step: Step, resolved: Result<Json, AppError>, context: Json, env: Env, before: seq<Attempt>,
                    attempts: seq<Attempt>, earlier: seq<Answer>, calls: seq<Answer>, phase: Phase, cancelled: bool,
                    faults: set<AppError>, tried: Work<Result<Result<Json, AppError>, AppError>>, r: Work<StepResult>)
    requires step.node.Poll? || step.node.WaitUntil?
    requires Polled(step, resolved, context, env, before, earlier)
    requires Limit(step).Some? ==> |earlier| < Limit(step).value
    requires TryStep(resolved, before, attempts, earlier, calls, phase, cancelled, faults, tried)
    requires tried.Dropped? || tried.value.Err?
    requires r == if tried.Dropped? then Dropped else Done(Err(tried.value.error))
    ensures Ended(step, resolved, context, env, attempts, calls, phase, cancelled, faults, r)
  {
    if calls == earlier {
      EndsUnanswered(step, resolved, context, env, before, attempts, calls, phase, cancelled, faults, tried, r);
    } else {
      EndsUnrecorded(step, resolved, context, env, before, attempts, earlier, calls, phase, cancelled, faults, tried, r);
    }
  }

  lemma EndsUnanswered(step: Step, resolved: Result<Json, AppError>, context: Json, env: Env, before: seq<Attempt>,
                       attempts: seq<Attempt>, calls: seq<Answer>, phase: Phase, cancelled: bool, faults: set<AppError>,
                       tried: Work<Result<Result<Json, AppError>, AppError>>, r: Work<StepResult>)
    requires step.node.Poll? || step.node.WaitUntil?
    requires Polled(step, resolved, context, env, before, calls)
    requires Limit(step).Some? ==> |calls| < Limit(step).value
    requires TryStep(resolved, before, attempts, calls, calls, phase, cancelled, faults, tried)
    requires tried.Dropped? || tried.value.Err?
    requires r == if tried.Dropped? then Dropped else Done(Err(tried.value.error))
    ensures Ended(step, resolved, context, env, attempts, calls, phase, cancelled, faults, r)
  {
    var n := |before|;
    if resolved.Ok? {
      assert forall k :: 0 <= k < n ==> attempts[k] == attempts[..n][k];
    }
    if n > 0 {
      assert Decide(step, context, env, n, calls[n - 1].returned) == Again;
    }
  }

  lemma EndsUnrecorded(step: Step, resolved: Result<Json, AppError>, context: Json, env: Env, before: seq<Attempt>,
                       attempts: seq<Attempt>, earlier: seq<Answer>, calls: seq<Answer>, phase: Phase, cancelled: bool,
                       faults: set<AppError>, tried: Work<Result<Result<Json, AppError>, AppError>>, r: Work<StepResult>)
    requires step.node.Poll? || step.node.WaitUntil?
    requires Polled(step, resolved, context, env, before, earlier) && calls != earlier
    requires Limit(step).Some? ==> |earlier| < Limit(step).value
    requires TryStep(resolved, before, attempts, earlier, calls, phase, cancelled, faults, tried)
    requires tried.Dropped? || tried.value.Err?
    requires r == if tried.Dropped? then Dropped else Done(Err(tried.value.error))
    ensures Ended(step, resolved, context, env, attempts, calls, phase, cancelled, faults, r)
  {
    var n := |before|;
    assert forall k :: 0 <= k < n ==> attempts[k] == attempts[..n][k];
    assert forall k :: 0 <= k < n ==> calls[k] == calls[..n][k];
  }

  /** A completed probe decides the work, or leaves it between two probes again. */
  lemma ProbeCompletes(step: Step, resolved: Result<Json, AppError>, context: Json, env: Env, before: seq<Attempt>,
                       attempts: seq<Attempt>, earlier: seq<Answer>, calls: seq<Answer>, phase: Phase, cancelled: bool,
                       faults: set<AppError>, tried: Work<Result<Result<Json, AppError>, AppError>>, verdict: Verdict)
    requires step.node.Poll? || step.node.WaitUntil?
    requires Polled(step, resolved, context, env, before, earlier)
    requires Limit(step).Some? ==> |earlier| < Limit(step).value
    requires TryStep(resolved, before, attempts, earlier, calls, phase, cancelled, faults, tried)
    requires tried.Done? && tried.value.Ok?
    requires verdict == Decide(step, context, env, |earlier| + 1, tried.value.value)
    ensures verdict.Finish? ==> Ended(step, resolved, context, env, attempts, calls, phase, cancelled, faults, Done(verdict.result))
    ensures verdict.Again? ==> Polled(step, resolved, context, env, attempts, calls) && |calls| == |earlier| + 1
  {
    var n := |before|;
    assert calls[n].returned == tried.value.value;
    assert forall k :: 0 <= k < n ==> attempts[k] == attempts[..n][k];
    assert forall k :: 0 <= k < n ==> calls[k] == calls[..n][k];
  }

  lemma TryStepWidens(resolved: Result<Json, AppError>, before: seq<Attempt>, attempts: seq<Attempt>,
                      earlier: seq<Answer>, calls: seq<Answer>, phase: Phase, cancelled: bool,
                      known: set<AppError>, faults: set<AppError>, r: Work<Result<Result<Json, AppError>, AppError>>)
    requires TryStep(resolved, before, attempts, earlier, calls, phase, cancelled, known, r) && known <= faults
    ensures TryStep(resolved, before, attempts, earlier, calls, phase, cancelled, faults, r)
  {
  }

  /** Judging a dropped external step by its records alone gives the honest outcome. */
  lemma AbandonIsHonest(interrupt: Interrupt, step: Step, resolved: Result<Json, AppError>, attempts: seq<Attempt>,
                        calls: seq<Answer>, phase: Phase)
    requires step.node.Action? || step.node.Poll? || step.node.WaitUntil?
    requires Settled(resolved, attempts, calls, phase, true)
    ensures AdoptAbandoned(interrupt, step, attempts) == HonestOutcome(interrupt, step, phase, calls)
  {
  }

  /** The errors the engine itself gives a validated step. */
  const ENGINE_ERRORS: set<AppError> := {
    OUTPUT_TOO_LARGE, HISTORY_LIMIT, MAX_ATTEMPTS, FAILURE_CONDITION,
    MISSING_REFERENCE, EXPECTED_ARRAY, EXPECTED_NUMBER
  }

  /** The error comes from the engine, from the signal, from a database write, or from an
      executor call. */
  ghost predicate Explained(error: AppError, cancelled: bool, faults: set<AppError>, calls: seq<Answer>)
  {
    || error in ENGINE_ERRORS
    || (error == CANCELLED && cancelled)
    || error in faults
    || exists k :: 0 <= k < |calls| && calls[k].returned == Err(error)
  }

  /** What the runner relies on to start a step: its references were accepted against ids
      whose outputs the context holds. */
  ghost predicate Prepared(step: Step, context: Json, safe: set<string>)
  {
    && context.Obj?
    && CheckReferences(step, safe).Ok?
    && Offers(context, safe, false)
    && (Limit(step).Some? ==> Limit(step).value > 0)
  }

  /** A decision about an accepted probe has an explained error. */
  lemma DecisionIsExplained(step: Step, context: Json, env: Env, safe: set<string>, number: nat, returned: Result<Json, AppError>)
    requires step.node.Poll? || step.node.WaitUntil?
    requires Prepared(step, context, safe)
    ensures var verdict := Decide(step, context, env, number, returned);
            verdict.Finish? && verdict.result.Err? ==>
              verdict.result.error in ENGINE_ERRORS || returned == Err(verdict.result.error)
  {
    if returned.Ok? {
      var probed := WithProbe(context, returned.value);
      ProbeOffers(context, returned.value, safe);
      if step.node.Poll? {
        CheckedPredicateIsSafe(step.node.until, probed, safe, true, env.render);
      } else {
        CheckedPredicateIsSafe(step.node.successWhen, probed, safe, true, env.render);
        if step.node.failureWhen.Some? {
          CheckedPredicateIsSafe(step.node.failureWhen.value, probed, safe, true, env.render);
        }
      }
    }
  }

  lemma EndIsExplained(step: Step, arguments: Json, context: Json, env: Env, safe: set<string>, attempts: seq<Attempt>,
                       calls: seq<Answer>, phase: Phase, cancelled: bool, faults: set<AppError>, r: Work<StepResult>)
    requires step.node.Poll? || step.node.WaitUntil?
    requires arguments == if step.node.Poll? then step.node.probe.arguments else step.node.watch.arguments
    requires Prepared(step, context, safe)
    requires Ended(step, Resolve(arguments, context, env.render), context, env, attempts, calls, phase, cancelled, faults, r)
    ensures r.Done? && r.value.Err? ==> Explained(r.value.error, cancelled, faults, calls)
    ensures r.Done? && r.value.Ok? ==> r.value.value.1.None?
  {
    CheckedExpressionIsSafe(arguments, context, safe, false, env.render);
    var n := |calls|;
    if n > 0 {
      DecisionIsExplained(step, context, env, safe, n, calls[n - 1].returned);
    }
  }

  function Waited(durationMs: nat): Json { Obj([Field("waitedMs", Number(durationMs as real))]) }

  function Matched(held: bool): Json { Obj([Field("matched", Bool(held))]) }

  /** What the outputs of conditions and waits show to the steps that select from them. */
  lemma OutputsShow(held: bool, durationMs: nat, output: Json, probes: nat, elapsedMs: nat)
    ensures Pointers.Walk(Matched(held), ["matched"]) == Some(Bool(held))
    ensures Pointers.Walk(Waited(durationMs), ["waitedMs"]) == Some(Number(durationMs as real))
    ensures var waited := WaitResult(output, probes, elapsedMs);
            && Pointers.Walk(waited, ["result"]) == Some(output)
            && Pointers.Walk(waited, ["attempts"]) == Some(Number(probes as real))
            && Pointers.Walk(waited, ["elapsedMs"]) == Some(Number(elapsedMs as real))
  {
    var fields := WaitResult(output, probes, elapsedMs).fields;
    assert fields[1..][1..] == [Field("result", output)];
    assert "attempts"[0] == 'a' && "elapsedMs"[0] == 'e' && "result"[0] == 'r';
    assert Get(fields, "attempts") == Some(Number(probes as real));
    assert Get(fields, "elapsedMs") == Get(fields[1..], "elapsedMs") == Some(Number(elapsedMs as real));
    assert Get(fields, "result") == Get(fields[1..], "result") == Get(fields[1..][1..], "result") == Some(output);
    forall key: string, value: Json
      ensures Pointers.Walk(value, [key]) == Pointers.Child(value, key)
    {
      assert [key][1..] == [];
    }
  }

  /** What an attempt keeps of an answer: an output or an error, never both from a success, and the
      details of a failed action beside its code. */
  lemma RecordKeepsAnswer(number: nat, input: Json, answer: Answer)
    ensures var attempt := Recorded(number, input, answer);
            && attempt.number == number && attempt.input == input
            && (answer.returned.Ok? ==>
                  attempt.error.None? && attempt.output == if answer.outputFits then Some(answer.returned.value) else None)
            && (answer.returned.Err? ==>
                  && attempt.error == Some(ErrorCode(answer.returned.error)) && !attempt.Open()
                  && (attempt.output.Some? <==> answer.returned.error.FlowActionFailed? && answer.outputFits)
                  && (attempt.output.Some? ==> attempt.output.value == answer.returned.error.details))
  {
  }

  /** The output and the branch follow from the answered calls of the step, read in the given
      context: an action gives its answer, a poll or wait the decision of its last probe after
      probes that said to go on, a condition what its predicate says. */
  ghost predicate Earned(step: Step, context: Json, env: Env, calls: seq<Answer>, result: (Json, Option<string>))
  {
    match step.node
    case Condition(test, ifTrue, ifFalse) =>
      var held := Holds(test, context, env.render);
      held.Ok? && result == (Matched(held.value), Some(if held.value then ifTrue else ifFalse))
    case Wait(durationMs) => result == (Waited(durationMs), None)
    case Action(_) => |calls| == 1 && calls[0].returned == Ok(result.0) && result.1.None?
    case _ =>
      && calls != [] && GoOn(step, context, env, calls, |calls| - 1)
      && Decide(step, context, env, |calls|, calls[|calls| - 1].returned) == Finish(Ok(result))
  }

  lemma EndIsEarned(step: Step, resolved: Result<Json, AppError>, context: Json, env: Env, attempts: seq<Attempt>,
                    calls: seq<Answer>, phase: Phase, cancelled: bool, faults: set<AppError>, r: Work<StepResult>)
    requires step.node.Poll? || step.node.WaitUntil?
    requires Ended(step, resolved, context, env, attempts, calls, phase, cancelled, faults, r)
    ensures r.Done? && r.value.Ok? ==> Earned(step, context, env, calls, r.value.value)
  {
  }

  /** Attempts are numbered from 1 without gaps, all but the last are closed, and there are
      no more than the step allows. */
  ghost predicate InOrder(step: Step, attempts: seq<Attempt>)
  {
    && WithinLimit(step, attempts)
    && forall k :: 0 <= k < |attempts| ==> attempts[k].number == k + 1 && (k < |attempts| - 1 ==> !attempts[k].Open())
  }

  /** Why an answered call may fail to be the result: writing it down failed or was refused. */
  ghost predicate Unrecorded(answer: Answer, faults: set<AppError>, error: AppError)
  {
    || error in faults
    || (error == OUTPUT_TOO_LARGE && !answer.outputFits)
    || (error == HISTORY_LIMIT && !answer.historyFits)
  }

  /** An action whose call was answered without error ends with that answer, whatever the
      interrupt, unless the answer could not be recorded. */
  ghost predicate AnswerKept(step: Step, calls: seq<Answer>, faults: set<AppError>, interrupt: Interrupt, outcome: StepResult)
  {
    step.node.Action? && calls != [] && calls[0].returned.Ok? ==>
      || outcome == Ok((calls[0].returned.value, None))
      || exists e :: Unrecorded(calls[0], faults, e) && (outcome == Err(e) || outcome == AdoptCompleted(interrupt, Err(e)))
  }

  // ---------- undisturbed scripts ----------

  /** A write that succeeds, an answer that fits, a pause that runs out, and no signal. */
  predicate Undisturbed(a: Answer)
  {
    a.persisted.Ok? && a.outputFits && a.historyFits && a.timerFirst && !a.cancelled
  }

  predicate Smooth(script: seq<Answer>, n: nat)
  {
    n <= |script| && forall i :: 0 <= i < n ==> Undisturbed(script[i])
  }

  lemma SmoothRest(script: seq<Answer>, i: nat, n: nat)
    requires Smooth(script, i + n)
    ensures Smooth(script, i) && Smooth(script[i..], n)
  {
  }

  function ActionResult(returned: Result<Json, AppError>): StepResult
  {
    match returned
    case Ok(value) => Ok((value, None))
    case Err(error) => Err(error)
  }

  /** How many awaits lie between the beginnings of two probes: a probe takes three, the write
      before the call, the call, and the write after it; a wait writes the next check down; and
      then there is the pause. */
  function Stride(step: Step): nat
  {
    if step.node.Poll? then 4 else 5
  }

  /** The answer to the call of probe k. */
  function CallAt(step: Step, script: seq<Answer>, k: nat): Answer
    requires Stride(step) * k + 1 < |script|
  {
    script[Stride(step) * k + 1]
  }

  lemma CallIsThere(step: Step, script: seq<Answer>, k: nat, n: nat)
    requires k < n && Smooth(script, Stride(step) * (n - 1) + 3)
    ensures Smooth(script, Stride(step) * k + 3) && Stride(step) * k + 1 < |script|
  {
    assert Stride(step) * k <= Stride(step) * (n - 1);
  }

  /** What an undisturbed script makes of a poll or wait at its m-th probe: all probes before say
      to go on, and this one decides or is the last one allowed. */
  ghost predicate SettlesAt(step: Step, resolved: Result<Json, AppError>, context: Json, env: Env, script: seq<Answer>, m: nat, result: StepResult)
    requires step.node.Poll? || step.node.WaitUntil?
  {
    && resolved.Ok? && m > 0 && Smooth(script, Stride(step) * (m - 1) + 3) && (Limit(step).Some? ==> m <= Limit(step).value)
    && (forall k {:trigger SaysAgain(step, context, env, script, k)} :: 0 <= k < m - 1 ==> SaysAgain(step, context, env, script, k))
    && (|| (Limit(step) == Some(m) && SaysAgain(step, context, env, script, m - 1) && result == Err(MAX_ATTEMPTS))
        || SaysResult(step, context, env, script, m - 1, result))
  }

  ghost predicate SaysAgain(step: Step, context: Json, env: Env, script: seq<Answer>, k: nat)
    requires step.node.Poll? || step.node.WaitUntil?
  {
    && Stride(step) * k + 1 < |script|
    && Decide(step, context, env, k + 1, CallAt(step, script, k).returned) == Again
  }

  ghost predicate SaysResult(step: Step, context: Json, env: Env, script: seq<Answer>, k: nat, result: StepResult)
    requires step.node.Poll? || step.node.WaitUntil?
  {
    && Stride(step) * k + 1 < |script|
    && Decide(step, context, env, k + 1, CallAt(step, script, k).returned) == Finish(result)
  }

  /** The calls so far got the answers of the script, each as long as the script is undisturbed. */
  ghost predicate Scheduled(step: Step, script: seq<Answer>, calls: seq<Answer>)
  {
    forall k {:trigger calls[k]} :: 0 <= k < |calls| && Smooth(script, Stride(step) * k + 3) ==>
      calls[k] == CallAt(step, script, k)
  }

  /** An undisturbed attempt makes its call and returns the answer. */
  ghost predicate Answered(before: seq<Answer>, was: bool, earlier: seq<Answer>, script: seq<Answer>, cancelled: bool,
                           calls: seq<Answer>, r: Work<Result<Result<Json, AppError>, AppError>>)
  {
    Smooth(before, 3) && !was ==>
      script == before[3..] && !cancelled && calls == earlier + [before[1]] && r == Done(Ok(before[1].returned))
  }

  /** The work has used this much of the script and is not disturbed. */
  ghost predicate OnTrack(full: seq<Answer>, used: nat, script: seq<Answer>, cancelled: bool)
  {
    Smooth(full, used) ==> !cancelled && script == full[used..]
  }

  lemma StaysOnTrack(full: seq<Answer>, used: nat, script: seq<Answer>, cancelled: bool, n: nat)
    requires OnTrack(full, used, script, cancelled) && Smooth(full, used + n)
    ensures Smooth(script, n) && !cancelled && script[n..] == full[used + n..]
    ensures forall i :: 0 <= i < n ==> script[i] == full[used + i]
  {
    SmoothRest(full, used, n);
  }

  lemma NextOnTrack(full: seq<Answer>, used: nat, script: seq<Answer>, cancelled: bool)
    requires OnTrack(full, used, script, cancelled)
    ensures Smooth(full, used + 1) ==> Smooth(script, 1) && OnTrack(full, used + 1, script[1..], cancelled)
  {
    if Smooth(full, used + 1) {
      StaysOnTrack(full, used, script, cancelled, 1);
    }
  }

  /** One turn of a polling loop: it ends the work or leaves it between two probes. */
  datatype Turn = End(result: Work<StepResult>) | Next

  function TurnOf(verdict: Verdict): Turn
  {
    match verdict
    case Again => Next
    case Finish(result) => End(Done(result))
  }

  /** An undisturbed probe makes its call and takes the turn its answer decides. */
  ghost predicate Probed(step: Step, context: Json, env: Env, before: seq<Answer>, was: bool, earlier: seq<Answer>,
                         script: seq<Answer>, cancelled: bool, calls: seq<Answer>, turn: Turn)
    requires step.node.Poll? || step.node.WaitUntil?
  {
    Smooth(before, 3) && !was ==>
      && script == before[3..] && !cancelled && calls == earlier + [before[1]]
      && turn == TurnOf(Decide(step, context, env, |earlier| + 1, before[1].returned))
  }

  /** The result comes when the undisturbed script settles, and with its calls. */
  ghost predicate Timely(step: Step, resolved: Result<Json, AppError>, context: Json, env: Env, script: seq<Answer>, calls: seq<Answer>, r: Work<StepResult>)
    requires step.node.Poll? || step.node.WaitUntil?
  {
    forall m, result {:trigger SettlesAt(step, resolved, context, env, script, m, result)} ::
      SettlesAt(step, resolved, context, env, script, m, result) ==>
        r == Done(result) && |calls| == m && Scheduled(step, script, calls)
  }

  /** Between two probes: what the loop has done so far fits the script. */
  ghost predicate InTime(step: Step, context: Json, env: Env, full: seq<Answer>, used: nat, script: seq<Answer>, cancelled: bool,
                         calls: seq<Answer>)
    requires step.node.Poll? || step.node.WaitUntil?
  {
    && OnTrack(full, used, script, cancelled) && Scheduled(step, full, calls)
    && GoOn(step, context, env, calls, |calls|)
    && (Limit(step).Some? ==> |calls| <= Limit(step).value)
  }

  /** Probes that said to go on do not settle anything, except that the last may exhaust the limit. */
  lemma SettlesNotBefore(step: Step, resolved: Result<Json, AppError>, context: Json, env: Env, full: seq<Answer>, used: nat, script: seq<Answer>, cancelled: bool,
                         calls: seq<Answer>, m: nat, result: StepResult)
    requires step.node.Poll? || step.node.WaitUntil?
    requires InTime(step, context, env, full, used, script, cancelled, calls)
    requires SettlesAt(step, resolved, context, env, full, m, result)
    ensures m > |calls| || (m == |calls| && Limit(step) == Some(m) && result == Err(MAX_ATTEMPTS))
  {
    if m <= |calls| {
      assert calls[m - 1] == CallAt(step, full, m - 1);
      assert Decide(step, context, env, m, calls[m - 1].returned) == Again;
    }
  }

  /** A probe leaves the loop in time. */
  lemma ProbeIsScheduled(step: Step, context: Json, env: Env, full: seq<Answer>, before: seq<Answer>, was: bool,
                         earlier: seq<Answer>, script: seq<Answer>, cancelled: bool, calls: seq<Answer>, turn: Turn)
    requires step.node.Poll? || step.node.WaitUntil?
    requires InTime(step, context, env, full, Stride(step) * |earlier|, before, was, earlier)
    requires Probed(step, context, env, before, was, earlier, script, cancelled, calls, turn)
    requires calls == earlier || (|calls| == |earlier| + 1 && calls[..|earlier|] == earlier)
    ensures OnTrack(full, Stride(step) * |earlier| + 3, script, cancelled) && Scheduled(step, full, calls)
  {
    var n, used := |earlier|, Stride(step) * |earlier|;
    if Smooth(full, used + 3) {
      StaysOnTrack(full, used, before, was, 3);
    }
    forall k | 0 <= k < |calls| && Smooth(full, Stride(step) * k + 3)
      ensures calls[k] == CallAt(step, full, k)
    {
      if k < n {
        assert calls[k] == earlier[k];
      }
    }
  }

  /** A probe that ends the loop ends it in time. */
  lemma ProbeEndsTimely(step: Step, resolved: Result<Json, AppError>, context: Json, env: Env, full: seq<Answer>, before: seq<Answer>, was: bool,
                        earlier: seq<Answer>, script: seq<Answer>, cancelled: bool, calls: seq<Answer>, turn: Turn)
    requires step.node.Poll? || step.node.WaitUntil?
    requires InTime(step, context, env, full, Stride(step) * |earlier|, before, was, earlier)
    requires Limit(step).Some? ==> |earlier| < Limit(step).value
    requires resolved.Ok? ==> Probed(step, context, env, before, was, earlier, script, cancelled, calls, turn)
    requires turn.End?
    requires calls == earlier || (|calls| == |earlier| + 1 && calls[..|earlier|] == earlier)
    ensures Timely(step, resolved, context, env, full, calls, turn.result)
  {
    var n := |earlier|;
    if resolved.Ok? {
      ProbeIsScheduled(step, context, env, full, before, was, earlier, script, cancelled, calls, turn);
    }
    forall m: nat, result | SettlesAt(step, resolved, context, env, full, m, result)
      ensures turn.result == Done(result) && |calls| == m
    {
      SettlesNotBefore(step, resolved, context, env, full, Stride(step) * n, before, was, earlier, m, result);
      CallIsThere(step, full, n, m);
      StaysOnTrack(full, Stride(step) * n, before, was, 3);
      assert before[1] == CallAt(step, full, n);
      assert m > n + 1 ==> SaysAgain(step, context, env, full, n);
    }
  }

  /** The loop ends because the limit is reached. */
  lemma ExhaustsTimely(step: Step, resolved: Result<Json, AppError>, context: Json, env: Env, full: seq<Answer>, used: nat, script: seq<Answer>, cancelled: bool,
                       calls: seq<Answer>)
    requires step.node.Poll? || step.node.WaitUntil?
    requires InTime(step, context, env, full, used, script, cancelled, calls) && Limit(step) == Some(|calls|)
    ensures Timely(step, resolved, context, env, full, calls, Done(Err(MAX_ATTEMPTS)))
  {
    forall m: nat, result | SettlesAt(step, resolved, context, env, full, m, result)
      ensures result == Err(MAX_ATTEMPTS) && |calls| == m
    {
      SettlesNotBefore(step, resolved, context, env, full, used, script, cancelled, calls, m, result);
    }
  }

  lemma StrideGrows(step: Step, n: nat, m: nat)
    ensures m > n ==> Stride(step) * n <= Stride(step) * (m - 1)
  {
  }

  /** The loop ends early because the script disturbs it, so the script settles nothing. */
  lemma DisturbedIsTimely(step: Step, resolved: Result<Json, AppError>, context: Json, env: Env, full: seq<Answer>, used: nat, script: seq<Answer>, cancelled: bool,
                          calls: seq<Answer>, needed: nat, r: Work<StepResult>)
    requires step.node.Poll? || step.node.WaitUntil?
    requires InTime(step, context, env, full, used, script, cancelled, calls) && calls != []
    requires !Smooth(full, needed) && needed <= Stride(step) * |calls|
    requires Limit(step) == Some(|calls|) ==> needed <= Stride(step) * (|calls| - 1) + 3
    ensures Timely(step, resolved, context, env, full, calls, r)
  {
    forall m: nat, result
      ensures !SettlesAt(step, resolved, context, env, full, m, result)
    {
      if SettlesAt(step, resolved, context, env, full, m, result) {
        SettlesNotBefore(step, resolved, context, env, full, used, script, cancelled, calls, m, result);
        StrideGrows(step, |calls|, m);
      }
    }
  }

  class StepWork {
    var attempts: seq<Attempt>
    var script: seq<Answer>
    var cancelled: bool
    ghost var phase: Phase
    ghost var calls: seq<Answer>
    /** The write that opened each call handed to the executor, answered or not. */
    ghost var gates: seq<Answer>
    ghost const granted: set<Answer>

    /** Every call handed over was opened by a write that succeeded. */
    ghost predicate Gated()
      reads this
    {
      && Granted(script) <= granted
      && |gates| == |calls| + (if phase.InFlight? then 1 else 0)
      && forall k :: 0 <= k < |gates| ==> gates[k] in granted
    }

    constructor (script: seq<Answer>)
      ensures attempts == [] && calls == [] && this.script == script && !cancelled && phase == Idle
      ensures granted == Granted(script) && Gated()
    {
      attempts, calls, this.script, cancelled, phase := [], [], script, false, Idle;
      gates, granted := [], Granted(script);
    }

    /** Waits for the next answer; the signal can only come while waiting. */
    method Await() returns (r: Work<Answer>)
      modifies this`script, this`cancelled
      ensures old(script) == [] ==> r == Dropped && script == [] && cancelled == old(cancelled)
      ensures old(script) != [] ==> r == Done(old(script)[0]) && script == old(script)[1..]
      ensures old(script) != [] ==> cancelled == (old(cancelled) || old(script)[0].cancelled)
      ensures Faults(script) <= Faults(old(script)) && Granted(script) <= Granted(old(script))
      ensures r.Done? && r.value.persisted.Ok? ==> r.value in Granted(old(script))
      ensures r.Done? && r.value.persisted.Err? ==> r.value.persisted.error in Faults(old(script))
    {
      if script == [] {
        return Dropped;
      }
      var answer := script[0];
      assert answer in script;
      cancelled := cancelled || answer.cancelled;
      script := script[1..];
      return Done(answer);
    }

    /** Sleeps until the timer fires or the signal comes. */
    method Pause() returns (r: Work<Result<(), AppError>>)
      modifies this`script, this`cancelled
      ensures |script| <= |old(script)| && (if r.Done? then |script| < |old(script)| else script == [])
      ensures Faults(script) <= Faults(old(script)) && Granted(script) <= Granted(old(script))
      ensures r.Dropped? || r == Done(Ok(())) || (r == Done(Err(CANCELLED)) && cancelled)
      ensures Smooth(old(script), 1) ==> r == Done(Ok(())) && script == old(script)[1..] && cancelled == old(cancelled)
      ensures r == Done(Ok(())) ==> old(script)[0].timerFirst && script == old(script)[1..]
    {
      var answer := Await();
      if answer.Dropped? {
        return Dropped;
      }
      if !answer.value.timerFirst {
        cancelled := true;
        return Done(Err(CANCELLED));
      }
      return Done(Ok(()));
    }

    /** One attempt at an external capability: resolve the arguments, write the open attempt
        down, call the executor, write the answer down. */
    method Try(arguments: Json, context: Json, env: Env)
      returns (r: Work<Result<Result<Json, AppError>, AppError>>)
      requires Gated() && !phase.InFlight?
      modifies this
      ensures Gated() && (r.Done? ==> !phase.InFlight?)
      ensures Faults(script) <= Faults(old(script))
      ensures |script| <= |old(script)| && (r.Done? && r.value.Ok? ==> |script| < |old(script)|) && (r.Dropped? ==> script == [])
      ensures TryStep(Resolve(arguments, context, env.render), old(attempts), attempts, old(calls), calls, phase,
                      cancelled, Faults(old(script)), r)
      ensures Resolve(arguments, context, env.render).Ok? ==>
                Answered(old(script), old(cancelled), old(calls), script, cancelled, calls, r)
    {
      var resolved := Resolve(arguments, context, env.render);
      if resolved.Err? {
        return Done(Err(resolved.error));
      }
      r := Call(resolved.value);
    }

    /** Writes the open attempt down before the call. */
    method Open(input: Json) returns (r: Work<Result<Answer, AppError>>)
      requires Gated() && !phase.InFlight?
      modifies this`attempts, this`phase, this`script, this`cancelled
      ensures attempts == old(attempts) + [Attempt(|old(attempts)| + 1, input, None, None)] && phase == Opening
      ensures |script| <= |old(script)| && Granted(script) <= granted && (r.Dropped? ==> script == [])
      ensures Faults(script) <= Faults(old(script))
      ensures r.Done? && r.value.Ok? ==> r.value.value in granted && |script| < |old(script)|
      ensures r.Done? && r.value.Err? ==> r.value.error in Faults(old(script)) || (r.value.error == CANCELLED && cancelled)
      ensures Smooth(old(script), 1) && !old(cancelled) ==> r == Done(Ok(old(script)[0])) && script == old(script)[1..] && !cancelled
    {
      attempts := attempts + [Attempt(|attempts| + 1, input, None, None)];
      phase := Opening;
      var handed := Await();
      if handed.Dropped? {
        return Dropped;
      }
      if handed.value.persisted.Err? {
        return Done(Err(handed.value.persisted.error));
      }
      if cancelled {
        return Done(Err(CANCELLED));
      }
      return Done(Ok(handed.value));
    }

    method Call(input: Json) returns (r: Work<Result<Result<Json, AppError>, AppError>>)
      requires Gated() && !phase.InFlight?
      modifies this
      ensures Gated() && (r.Done? ==> !phase.InFlight?)
      ensures Faults(script) <= Faults(old(script))
      ensures |script| <= |old(script)| && (r.Done? && r.value.Ok? ==> |script| < |old(script)|) && (r.Dropped? ==> script == [])
      ensures TryStep(Ok(input), old(attempts), attempts, old(calls), calls, phase, cancelled, Faults(old(script)), r)
      ensures Answered(old(script), old(cancelled), old(calls), script, cancelled, calls, r)
    {
      var gate := Open(input);
      if gate.Dropped? {
        return Dropped;
      }
      if gate.value.Err? {
        return Done(Err(gate.value.error));
      }
      gates, phase := gates + [gate.value.value], InFlight;
      var answered := Await();
      if answered.Dropped? {
        return Dropped;
      }
      calls := calls + [answered.value];
      phase := Recording;
      r := Record(input, answered.value);
    }

    /** Writes the answer of the open attempt down. */
    method Record(input: Json, answer: Answer) returns (r: Work<Result<Result<Json, AppError>, AppError>>)
      requires Gated() && phase.Recording? && attempts != []
      modifies this`attempts, this`script, this`cancelled
      ensures Gated() && |script| <= |old(script)| && (r.Dropped? ==> script == [])
      ensures Faults(script) <= Faults(old(script))
      ensures var n := |old(attempts)| - 1;
              && |attempts| == n + 1 && attempts[..n] == old(attempts)[..n]
              && (attempts[n] == old(attempts)[n] || (attempts[n].number == n + 1 && attempts[n].input == input))
              && (|| (attempts[n] == Recorded(n + 1, input, answer) && r == Done(Ok(answer.returned))
                      && (answer.returned.Ok? ==> answer.outputFits))
                  || (Disturbed(r, answer, Faults(old(script)))
                      && (r.Dropped? ==> attempts[n] == Recorded(n + 1, input, answer) && (answer.returned.Ok? ==> answer.outputFits))))
      ensures Smooth(old(script), 1) && answer.outputFits && answer.historyFits ==>
                r == Done(Ok(answer.returned)) && script == old(script)[1..] && cancelled == old(cancelled)
    {
      var n := |attempts| - 1;
      if answer.returned.Ok? && !answer.outputFits {
        return Done(Err(OUTPUT_TOO_LARGE));
      }
      attempts := attempts[n := Recorded(n + 1, input, answer)];
      if !answer.historyFits {
        attempts := attempts[n := attempts[n].(output := None)];
        return Done(Err(HISTORY_LIMIT));
      }
      var closed := Await();
      if closed.Dropped? {
        return Dropped;
      }
      if closed.value.persisted.Err? {
        return Done(Err(closed.value.persisted.error));
      }
      return Done(Ok(answer.returned));
    }

    /** An action is a single attempt. */
    method RunAction(step: Step, context: Json, env: Env) returns (r: Work<StepResult>)
      requires step.node.Action? && attempts == [] && calls == [] && phase == Idle && Gated() && !cancelled
      modifies this
      ensures Gated() && (r.Dropped? ==> script == [])
      ensures Resolve(step.node.action.arguments, context, env.render).Ok? && Smooth(old(script), 3) ==>
                calls == [old(script)[1]] && r == Done(ActionResult(old(script)[1].returned))
      ensures Settled(Resolve(step.node.action.arguments, context, env.render), attempts, calls, phase, r.Dropped?)
      ensures |calls| <= 1 && |attempts| <= 1
      ensures r.Done? && r.value.Ok? ==>
                && calls != [] && calls[0].returned.Ok? && r.value.value == (calls[0].returned.value, None)
                && CompletedActionOutput(step, attempts) == Some(r.value.value.0)
      ensures calls != [] ==>
                || (calls[0].returned.Ok? && r == Done(Ok((calls[0].returned.value, None))))
                || (calls[0].returned.Err? && r == Done(Err(calls[0].returned.error)))
                || Disturbed(r, calls[0], Faults(old(script)))
      ensures calls == [] ==>
                || r.Dropped?
                || (r.value.Err? && Undecided(step, Resolve(step.node.action.arguments, context, env.render), calls, cancelled, Faults(old(script)), r.value.error))
    {
      var outcome := Try(step.node.action.arguments, context, env);
      if outcome.Dropped? {
        return Dropped;
      }
      if outcome.value.Err? {
        return Done(Err(outcome.value.error));
      }
      var returned := outcome.value.value;
      if returned.Err? {
        return Done(Err(returned.error));
      }
      return Done(Ok((returned.value, None)));
    }

    /** One probe of a Poll or a WaitUntil: stop if the signal came, try, decide. */
    method Ask(step: Step, arguments: Json, context: Json, env: Env, ghost resolved: Result<Json, AppError>, ghost faults: set<AppError>)
      returns (turn: Turn, failed: bool)
      requires step.node.Poll? || step.node.WaitUntil?
      requires resolved == Resolve(arguments, context, env.render)
      requires Faults(script) <= faults
      requires Polled(step, resolved, context, env, attempts, calls)
      requires Limit(step).Some? ==> |calls| < Limit(step).value
      requires !phase.Opening? && !phase.InFlight? && Gated()
      modifies this
      ensures Gated() && (turn.Next? ==> !phase.InFlight?)
      ensures Faults(script) <= faults
      ensures turn.End? ==> Ended(step, resolved, context, env, attempts, calls, phase, cancelled, faults, turn.result)
      ensures turn.Next? ==> Polled(step, resolved, context, env, attempts, calls) && |calls| == |old(calls)| + 1
      ensures turn.Next? ==> resolved.Ok? && |script| < |old(script)| && (failed <==> calls[|calls| - 1].returned.Err?)
      ensures turn == End(Dropped) ==> script == []
      ensures calls == old(calls) || (|calls| == |old(calls)| + 1 && calls[..|old(calls)|] == old(calls))
      ensures resolved.Ok? ==> Probed(step, context, env, old(script), old(cancelled), old(calls), script, cancelled, calls, turn)
    {
      if cancelled {
        EndsUndecided(step, resolved, context, env, attempts, calls, phase, cancelled, faults, Done(Err(CANCELLED)));
        return End(Done(Err(CANCELLED))), false;
      }
      ghost var before, earlier, known := attempts, calls, Faults(script);
      var tried := Try(arguments, context, env);
      TryStepWidens(resolved, before, attempts, earlier, calls, phase, cancelled, known, faults, tried);
      if tried.Dropped? {
        EndsInProbe(step, resolved, context, env, before, attempts, earlier, calls, phase, cancelled, faults, tried, Dropped);
        return End(Dropped), false;
      }
      if tried.value.Err? {
        EndsInProbe(step, resolved, context, env, before, attempts, earlier, calls, phase, cancelled, faults, tried, Done(Err(tried.value.error)));
        return End(Done(Err(tried.value.error))), false;
      }
      var verdict := Decide(step, context, env, |attempts|, tried.value.value);
      ProbeCompletes(step, resolved, context, env, before, attempts, earlier, calls, phase, cancelled, faults, tried, verdict);
      if verdict.Finish? {
        return End(Done(verdict.result)), false;
      }
      return Next, tried.value.value.Err?;
    }

    /** A probe within a loop that is in time. */
    method Probe(step: Step, arguments: Json, context: Json, env: Env, ghost resolved: Result<Json, AppError>, ghost faults: set<AppError>,
                 ghost full: seq<Answer>)
      returns (turn: Turn, failed: bool)
      requires step.node.Poll? || step.node.WaitUntil?
      requires resolved == Resolve(arguments, context, env.render)
      requires Faults(script) <= faults
      requires Polled(step, resolved, context, env, attempts, calls)
      requires Limit(step).Some? ==> |calls| < Limit(step).value
      requires !phase.Opening? && !phase.InFlight? && Gated()
      requires InTime(step, context, env, full, Stride(step) * |calls|, script, cancelled, calls)
      modifies this
      ensures Gated() && (turn.Next? ==> !phase.InFlight?)
      ensures Faults(script) <= faults
      ensures turn.End? ==> Ended(step, resolved, context, env, attempts, calls, phase, cancelled, faults, turn.result)
      ensures turn.Next? ==> Polled(step, resolved, context, env, attempts, calls) && |calls| == |old(calls)| + 1
      ensures turn.Next? ==> |script| < |old(script)| && (failed <==> calls[|calls| - 1].returned.Err?)
      ensures turn == End(Dropped) ==> script == []
      ensures turn.End? ==> Timely(step, resolved, context, env, full, calls, turn.result)
      ensures turn.Next? ==> InTime(step, context, env, full, Stride(step) * (|calls| - 1) + 3, script, cancelled, calls)
    {
      ghost var before, was, earlier := script, cancelled, calls;
      turn, failed := Ask(step, arguments, context, env, resolved, faults);
      if turn.End? {
        ProbeEndsTimely(step, resolved, context, env, full, before, was, earlier, script, cancelled, calls, turn);
      } else {
        ProbeIsScheduled(step, context, env, full, before, was, earlier, script, cancelled, calls, turn);
      }
    }

    /** Writes the time of the next probe down. */
    method Note(step: Step, context: Json, env: Env, ghost resolved: Result<Json, AppError>, ghost faults: set<AppError>,
                ghost full: seq<Answer>, ghost used: nat)
      returns (turn: Turn)
      requires step.node.Poll? || step.node.WaitUntil?
      requires Faults(script) <= faults
      requires Polled(step, resolved, context, env, attempts, calls)
      requires Gated() && !phase.InFlight?
      requires InTime(step, context, env, full, used, script, cancelled, calls) && calls != []
      requires Stride(step) * (|calls| - 1) + 3 <= used < Stride(step) * |calls| && Limit(step) != Some(|calls|)
      modifies this`script, this`cancelled, this`phase
      ensures Gated()
      ensures Faults(script) <= faults && |script| <= |old(script)| && phase == Pausing
      ensures turn == End(Dropped) ==> script == []
      ensures turn.End? ==> Timely(step, resolved, context, env, full, calls, turn.result)
      ensures turn.Next? ==> InTime(step, context, env, full, used + 1, script, cancelled, calls)
      ensures turn.End? ==> Ended(step, resolved, context, env, attempts, calls, phase, cancelled, faults, turn.result)
    {
      phase := Pausing;
      NextOnTrack(full, used, script, cancelled);
      ghost var was, had := script, cancelled;
      var noted := Await();
      if noted.Dropped? {
        DisturbedIsTimely(step, resolved, context, env, full, used, was, had, calls, used + 1, Dropped);
        EndsUndecided(step, resolved, context, env, attempts, calls, phase, cancelled, faults, Dropped);
        return End(Dropped);
      }
      if noted.value.persisted.Err? {
        DisturbedIsTimely(step, resolved, context, env, full, used, was, had, calls, used + 1, Done(Err(noted.value.persisted.error)));
        EndsUndecided(step, resolved, context, env, attempts, calls, phase, cancelled, faults, Done(Err(noted.value.persisted.error)));
        return End(Done(Err(noted.value.persisted.error)));
      }
      return Next;
    }

    /** Sleeps between two probes. */
    method Rest(step: Step, context: Json, env: Env, ghost resolved: Result<Json, AppError>, ghost faults: set<AppError>,
                ghost full: seq<Answer>, ghost used: nat)
      returns (turn: Turn)
      requires step.node.Poll? || step.node.WaitUntil?
      requires Faults(script) <= faults
      requires Polled(step, resolved, context, env, attempts, calls)
      requires Gated() && !phase.InFlight?
      requires InTime(step, context, env, full, used, script, cancelled, calls) && calls != []
      requires Stride(step) * (|calls| - 1) + 3 <= used < Stride(step) * |calls| && Limit(step) != Some(|calls|)
      modifies this`script, this`cancelled, this`phase
      ensures Gated()
      ensures Faults(script) <= faults && |script| <= |old(script)| && phase == Pausing
      ensures turn == End(Dropped) ==> script == []
      ensures turn.End? ==> Timely(step, resolved, context, env, full, calls, turn.result)
      ensures turn.Next? ==> InTime(step, context, env, full, used + 1, script, cancelled, calls)
      ensures turn.End? ==> Ended(step, resolved, context, env, attempts, calls, phase, cancelled, faults, turn.result)
    {
      phase := Pausing;
      NextOnTrack(full, used, script, cancelled);
      ghost var was, had := script, cancelled;
      var slept := Pause();
      if slept.Dropped? {
        DisturbedIsTimely(step, resolved, context, env, full, used, was, had, calls, used + 1, Dropped);
        EndsUndecided(step, resolved, context, env, attempts, calls, phase, cancelled, faults, Dropped);
        return End(Dropped);
      }
      if slept.value.Err? {
        DisturbedIsTimely(step, resolved, context, env, full, used, was, had, calls, used + 1, Done(Err(CANCELLED)));
        EndsUndecided(step, resolved, context, env, attempts, calls, phase, cancelled, faults, Done(Err(CANCELLED)));
        return End(Done(Err(slept.value.error)));
      }
      return Next;
    }

    /** Probes until the predicate holds, at most a fixed number of times. */
    method RunPoll(step: Step, context: Json, env: Env) returns (r: Work<StepResult>)
      requires step.node.Poll? && step.node.pollAttempts > 0 && attempts == [] && calls == [] && phase == Idle && Gated()
      requires !cancelled
      modifies this
      ensures Gated() && (r.Dropped? ==> script == [])
      ensures Timely(step, Resolve(step.node.probe.arguments, context, env.render), context, env, old(script), calls, r)
      ensures Ended(step, Resolve(step.node.probe.arguments, context, env.render), context, env, attempts, calls, phase,
                    cancelled, Faults(old(script)), r)
    {
      ghost var resolved, faults := Resolve(step.node.probe.arguments, context, env.render), Faults(script);
      ghost var full := script;
      var number := 1;
      while true
        invariant 1 <= number <= step.node.pollAttempts
        invariant |calls| == number - 1
        invariant Polled(step, resolved, context, env, attempts, calls)
        invariant Faults(script) <= faults
        invariant InTime(step, context, env, full, 4 * |calls|, script, cancelled, calls)
        invariant !phase.Opening? && !phase.InFlight? && Gated()
        decreases step.node.pollAttempts - number
      {
        var turn, _ := Probe(step, step.node.probe.arguments, context, env, resolved, faults, full);
        if turn.End? {
          return turn.result;
        }
        ghost var used := 4 * (|calls| - 1) + 3;
        if number == step.node.pollAttempts {
          phase := Idle;
          ExhaustsTimely(step, resolved, context, env, full, used, script, cancelled, calls);
          EndsUndecided(step, resolved, context, env, attempts, calls, phase, cancelled, faults, Done(Err(MAX_ATTEMPTS)));
          return Done(Err(MAX_ATTEMPTS));
        }
        turn := Rest(step, context, env, resolved, faults, full, used);
        if turn.End? {
          return turn.result;
        }
        number := number + 1;
      }
    }

    /** What a wait does between two probes: stop after a failed probe if the signal came, stop at
        the limit, write the next check down, and sleep. */
    method Between(step: Step, context: Json, env: Env, ghost resolved: Result<Json, AppError>, ghost faults: set<AppError>,
                   ghost full: seq<Answer>, failed: bool)
      returns (turn: Turn)
      requires step.node.WaitUntil?
      requires Faults(script) <= faults
      requires Polled(step, resolved, context, env, attempts, calls) && calls != []
      requires Gated() && !phase.InFlight?
      requires InTime(step, context, env, full, 5 * (|calls| - 1) + 3, script, cancelled, calls)
      modifies this`script, this`cancelled, this`phase
      ensures Gated() && phase == Pausing
      ensures Faults(script) <= faults && |script| <= |old(script)|
      ensures turn.End? ==> Ended(step, resolved, context, env, attempts, calls, phase, cancelled, faults, turn.result)
      ensures turn.End? ==> Timely(step, resolved, context, env, full, calls, turn.result)
      ensures turn == End(Dropped) ==> script == []
      ensures turn.Next? ==> InTime(step, context, env, full, 5 * |calls|, script, cancelled, calls) && Limit(step) != Some(|calls|)
    {
      ghost var used := 5 * (|calls| - 1) + 3;
      phase := Pausing;
      if failed && cancelled {
        DisturbedIsTimely(step, resolved, context, env, full, used, script, cancelled, calls, used, Done(Err(CANCELLED)));
        EndsUndecided(step, resolved, context, env, attempts, calls, phase, cancelled, faults, Done(Err(CANCELLED)));
        return End(Done(Err(CANCELLED)));
      }
      if Limit(step).Some? && |attempts| >= Limit(step).value {
        ExhaustsTimely(step, resolved, context, env, full, used, script, cancelled, calls);
        EndsUndecided(step, resolved, context, env, attempts, calls, phase, cancelled, faults, Done(Err(MAX_ATTEMPTS)));
        return End(Done(Err(MAX_ATTEMPTS)));
      }
      turn := Note(step, context, env, resolved, faults, full, used);
      if turn.Next? {
        turn := Rest(step, context, env, resolved, faults, full, used + 1);
      }
    }

    /** Probes until a predicate decides or a probe fails for good. */
    method RunWaitUntil(step: Step, context: Json, env: Env) returns (r: Work<StepResult>)
      requires step.node.WaitUntil? && (Limit(step).Some? ==> Limit(step).value > 0)
      requires attempts == [] && calls == [] && phase == Idle && Gated() && !cancelled
      modifies this
      ensures Gated() && (r.Dropped? ==> script == [])
      ensures Timely(step, Resolve(step.node.watch.arguments, context, env.render), context, env, old(script), calls, r)
      ensures Ended(step, Resolve(step.node.watch.arguments, context, env.render), context, env, attempts, calls, phase,
                    cancelled, Faults(old(script)), r)
    {
      ghost var resolved, faults := Resolve(step.node.watch.arguments, context, env.render), Faults(script);
      ghost var full := script;
      while true
        invariant Limit(step).Some? ==> |calls| < Limit(step).value
        invariant Polled(step, resolved, context, env, attempts, calls)
        invariant Faults(script) <= faults
        invariant InTime(step, context, env, full, 5 * |calls|, script, cancelled, calls)
        invariant !phase.Opening? && !phase.InFlight? && Gated()
        decreases |script|
      {
        var turn, failed := Probe(step, step.node.watch.arguments, context, env, resolved, faults, full);
        if turn.End? {
          return turn.result;
        }
        turn := Between(step, context, env, resolved, faults, full, failed);
        if turn.End? {
          return turn.result;
        }
      }
    }

    /** Sleeps for the given time. */
    method RunWait(step: Step) returns (r: Work<StepResult>)
      requires step.node.Wait? && attempts == [] && calls == [] && phase == Idle && Gated()
      modifies this
      ensures Gated() && (r.Dropped? ==> script == [])
      ensures Smooth(old(script), 2) ==> r.Done? && r.value.Ok?
      ensures r.Done? && r.value.Ok? ==> Slept(old(script)) && script == old(script)[2..]
      ensures calls == [] && phase == Pausing
      ensures |attempts| == 1 && attempts[0].number == 1 && attempts[0].error.None?
      ensures r.Done? && r.value.Ok? ==>
                attempts[0].output == Some(r.value.value.0) && r.value.value == (Waited(step.node.durationMs), None)
      ensures r.Done? && r.value.Err? ==> (r.value.error == CANCELLED && cancelled) || r.value.error in Faults(old(script))
    {
      var duration := Number(step.node.durationMs as real);
      attempts := attempts + [Attempt(1, Obj([Field("durationMs", duration)]), None, None)];
      phase := Pausing;
      var noted := Await();
      if noted.Dropped? {
        return Dropped;
      }
      if noted.value.persisted.Err? {
        return Done(Err(noted.value.persisted.error));
      }
      var slept := Pause();
      if slept.Dropped? {
        return Dropped;
      }
      if slept.value.Err? {
        return Done(Err(slept.value.error));
      }
      var output := Waited(step.node.durationMs);
      attempts := attempts[0 := attempts[0].(output := Some(output))];
      return Done(Ok((output, None)));
    }

    /** Evaluates a condition and picks the branch; nothing is awaited. */
    method RunCondition(step: Step, context: Json, env: Env) returns (r: StepResult)
      requires step.node.Condition? && attempts == [] && calls == [] && Gated()
      modifies this
      ensures Gated()
      ensures calls == [] && |attempts| <= 1
      ensures attempts != [] ==> attempts[0].number == 1 && !attempts[0].Open()
      ensures var held := Holds(step.node.test, context, env.render);
              var input := Resolve(PredicateValue(step.node.test), context, env.render);
              if held.Err? then r == Err(held.error)
              else if input.Err? then r == Err(input.error)
              else r == Ok((Matched(held.value), Some(if held.value then step.node.ifTrue else step.node.ifFalse)))
                   && attempts == [Attempt(1, input.value, Some(r.value.0), None)]
    {
      var matched := Holds(step.node.test, context, env.render);
      if matched.Err? {
        return Err(matched.error);
      }
      var output := Matched(matched.value);
      var input := Resolve(PredicateValue(step.node.test), context, env.render);
      if input.Err? {
        return Err(input.error);
      }
      attempts := attempts + [Attempt(1, input.value, Some(output), None)];
      return Ok((output, Some(if matched.value then step.node.ifTrue else step.node.ifFalse)));
    }

    /** The work of one step. */
    method Run(step: Step, context: Json, env: Env, ghost safe: set<string>) returns (r: Work<StepResult>)
      requires Prepared(step, context, safe)
      requires attempts == [] && calls == [] && phase == Idle && Gated() && !cancelled
      modifies this
      ensures Gated() && (r.Dropped? ==> script == [])
      ensures Worked(step, context, env, old(script), attempts, calls, phase, cancelled, r)
    {
      match step.node
      case Condition(test, _, _) =>
        var result := RunCondition(step, context, env);
        r := Done(result);
        ConditionWorked(step, context, env, safe, old(script), attempts, calls, phase, cancelled, r);
      case Wait(_) =>
        r := RunWait(step);
        WaitWorked(step, context, env, old(script), attempts, calls, phase, cancelled, r);
      case Action(_) =>
        r := RunAction(step, context, env);
        ActionWorked(step, context, env, safe, old(script), attempts, calls, phase, cancelled, r);
      case Poll(probe, _, _, _) =>
        r := RunPoll(step, context, env);
        ProbesWorked(step, probe.arguments, context, env, safe, old(script), attempts, calls, phase, cancelled, r);
      case WaitUntil(watch, _, _, _, _, _) =>
        r := RunWaitUntil(step, context, env);
        ProbesWorked(step, watch.arguments, context, env, safe, old(script), attempts, calls, phase, cancelled, r);
    }
  }

  // ---------- what the work of a step promises ----------

  /** The undisturbed script answers the work of the step with this result, by m calls. */
  ghost predicate Answers(step: Step, context: Json, env: Env, script: seq<Answer>, m: nat, result: StepResult)
  {
    match step.node
    case Condition(test, ifTrue, ifFalse) =>
      var held := Holds(test, context, env.render);
      && m == 0 && held.Ok? && Resolve(PredicateValue(test), context, env.render).Ok?
      && result == Ok((Matched(held.value), Some(if held.value then ifTrue else ifFalse)))
    case Wait(durationMs) => m == 0 && Smooth(script, 2) && result == Ok((Waited(durationMs), None))
    case Action(action) =>
      && m == 1 && Smooth(script, 3) && Resolve(action.arguments, context, env.render).Ok?
      && result == ActionResult(script[1].returned)
    case Poll(probe, _, _, _) =>
      SettlesAt(step, Resolve(probe.arguments, context, env.render), context, env, script, m, result)
    case WaitUntil(watch, _, _, _, _, _) =>
      SettlesAt(step, Resolve(watch.arguments, context, env.render), context, env, script, m, result)
  }

  /** The work delivers what an undisturbed script answers, with exactly its calls. */
  ghost predicate Delivers(step: Step, context: Json, env: Env, script: seq<Answer>, calls: seq<Answer>, r: Work<StepResult>)
  {
    forall m, result {:trigger Answers(step, context, env, script, m, result)} ::
      Answers(step, context, env, script, m, result) ==> r == Done(result) && |calls| == m
  }

  /** The pause was noted and its timer fired before the signal came. */
  ghost predicate Slept(script: seq<Answer>)
  {
    |script| >= 2 && script[0].persisted.Ok? && script[1].timerFirst
  }

  /** What the work of a step promises, from its script to its records and result. */
  ghost predicate Worked(step: Step, context: Json, env: Env, full: seq<Answer>, attempts: seq<Attempt>, calls: seq<Answer>,
                         phase: Phase, cancelled: bool, r: Work<StepResult>)
  {
    && (r.Done? && r.value.Ok? ==> Earned(step, context, env, calls, r.value.value))
    && (r.Done? && r.value.Ok? && step.node.Action? ==> CompletedActionOutput(step, attempts) == Some(r.value.value.0))
    && (r.Done? && r.value.Ok? && step.node.Wait? ==> Slept(full))
    && (r.Done? && r.value.Err? ==> Explained(r.value.error, cancelled, Faults(full), calls))
    && (r.Dropped? ==> forall i :: AdoptAbandoned(i, step, attempts) == HonestOutcome(i, step, phase, calls))
    && (step.node.Action? ==> |calls| <= 1)
    && (step.node.Action? && calls != [] && calls[0].returned.Ok? ==>
          || r == Done(Ok((calls[0].returned.value, None)))
          || (Disturbed(r, calls[0], Faults(full)) && (r.Dropped? ==> !phase.Opening? && !phase.InFlight?)))
    && InOrder(step, attempts)
    && Delivers(step, context, env, full, calls, r)
  }

  lemma ConditionWorked(step: Step, context: Json, env: Env, safe: set<string>, full: seq<Answer>, attempts: seq<Attempt>,
                        calls: seq<Answer>, phase: Phase, cancelled: bool, r: Work<StepResult>)
    requires step.node.Condition? && Prepared(step, context, safe)
    requires calls == [] && |attempts| <= 1 && (attempts != [] ==> attempts[0].number == 1) && r.Done?
    requires var held := Holds(step.node.test, context, env.render);
             var input := Resolve(PredicateValue(step.node.test), context, env.render);
             r.value == if held.Err? then Err(held.error)
                        else if input.Err? then Err(input.error)
                        else Ok((Matched(held.value), Some(if held.value then step.node.ifTrue else step.node.ifFalse)))
    ensures Worked(step, context, env, full, attempts, calls, phase, cancelled, r)
  {
    CheckedPredicateIsSafe(step.node.test, context, safe, false, env.render);
    CheckedExpressionIsSafe(PredicateValue(step.node.test), context, safe, false, env.render);
  }

  lemma WaitWorked(step: Step, context: Json, env: Env, full: seq<Answer>, attempts: seq<Attempt>, calls: seq<Answer>,
                   phase: Phase, cancelled: bool, r: Work<StepResult>)
    requires step.node.Wait? && calls == [] && phase == Pausing
    requires |attempts| == 1 && attempts[0].number == 1 && attempts[0].error.None?
    requires r.Done? && r.value.Ok? ==> r.value.value == (Waited(step.node.durationMs), None)
    requires r.Done? && r.value.Err? ==> (r.value.error == CANCELLED && cancelled) || r.value.error in Faults(full)
    requires Smooth(full, 2) ==> r.Done? && r.value.Ok?
    requires r.Done? && r.value.Ok? ==> Slept(full)
    ensures Worked(step, context, env, full, attempts, calls, phase, cancelled, r)
  {
  }

  lemma ActionWorked(step: Step, context: Json, env: Env, safe: set<string>, full: seq<Answer>, attempts: seq<Attempt>,
                     calls: seq<Answer>, phase: Phase, cancelled: bool, r: Work<StepResult>)
    requires step.node.Action? && Prepared(step, context, safe)
    requires var resolved := Resolve(step.node.action.arguments, context, env.render);
             && Settled(resolved, attempts, calls, phase, r.Dropped?)
             && (resolved.Ok? && Smooth(full, 3) ==> calls == [full[1]] && r == Done(ActionResult(full[1].returned)))
             && (calls == [] ==> r.Dropped? || (r.value.Err? && Undecided(step, resolved, calls, cancelled, Faults(full), r.value.error)))
    requires |calls| <= 1 && |attempts| <= 1
    requires r.Done? && r.value.Ok? ==>
               && calls != [] && calls[0].returned.Ok? && r.value.value == (calls[0].returned.value, None)
               && CompletedActionOutput(step, attempts) == Some(r.value.value.0)
    requires calls != [] ==>
               || (calls[0].returned.Ok? && r == Done(Ok((calls[0].returned.value, None))))
               || (calls[0].returned.Err? && r == Done(Err(calls[0].returned.error)))
               || Disturbed(r, calls[0], Faults(full))
    ensures Worked(step, context, env, full, attempts, calls, phase, cancelled, r)
  {
    CheckedExpressionIsSafe(step.node.action.arguments, context, safe, false, env.render);
    Abandoned(step, Resolve(step.node.action.arguments, context, env.render), attempts, calls, phase, r);
  }

  lemma ProbesWorked(step: Step, arguments: Json, context: Json, env: Env, safe: set<string>, full: seq<Answer>,
                     attempts: seq<Attempt>, calls: seq<Answer>, phase: Phase, cancelled: bool, r: Work<StepResult>)
    requires step.node.Poll? || step.node.WaitUntil?
    requires arguments == if step.node.Poll? then step.node.probe.arguments else step.node.watch.arguments
    requires Prepared(step, context, safe)
    requires var resolved := Resolve(arguments, context, env.render);
             && Ended(step, resolved, context, env, attempts, calls, phase, cancelled, Faults(full), r)
             && Timely(step, resolved, context, env, full, calls, r)
    ensures Worked(step, context, env, full, attempts, calls, phase, cancelled, r)
  {
    var resolved := Resolve(arguments, context, env.render);
    EndIsEarned(step, resolved, context, env, attempts, calls, phase, cancelled, Faults(full), r);
    EndIsExplained(step, arguments, context, env, safe, attempts, calls, phase, cancelled, Faults(full), r);
    Abandoned(step, resolved, attempts, calls, phase, r);
  }

  lemma Abandoned(step: Step, resolved: Result<Json, AppError>, attempts: seq<Attempt>, calls: seq<Answer>, phase: Phase,
                  r: Work<StepResult>)
    requires step.node.Action? || step.node.Poll? || step.node.WaitUntil?
    requires Settled(resolved, attempts, calls, phase, r.Dropped?) && WithinLimit(step, attempts)
    ensures r.Dropped? ==> forall i :: AdoptAbandoned(i, step, attempts) == HonestOutcome(i, step, phase, calls)
    ensures InOrder(step, attempts)
  {
    if r.Dropped? {
      forall i
        ensures AdoptAbandoned(i, step, attempts) == HonestOutcome(i, step, phase, calls)
      {
        AbandonIsHonest(i, step, resolved, attempts, calls, phase);
      }
    }
  }
}
