/** The run interpreter: it visits steps from the first one, following branches forward, and
    records what became of every step. */
module Runner {
  import opened Conditions
  import opened Errors
  import opened FlowModel
  import opened Expressions
  import Pointers
  import ReferenceGraph
  import opened ReferenceSafety
  import opened Replay
  import opened StepWork
  import opened Validation
  import opened Values

  datatype StepStatus = Pending | Running | Succeeded | Failed | TimedOut | Cancelled | Interrupted | Skipped

  datatype RunStatus = Running | Succeeded | Failed | TimedOut | Cancelled | Interrupted | ValidationFailed

  datatype StepRun = StepRun(stepId: string, status: StepStatus, attempts: seq<Attempt>,
                             error: Option<string>, output: Option<Json>)

  /** What one turn of the runner meets: the answers to its own database writes, the answers
      to the work of the step, and the interrupt, if one came before the work was done. A
      dropped work was always interrupted. */
  datatype Visit = Visit(heartbeat: Result<bool, AppError>, begun: Result<(), AppError>, script: seq<Answer>,
                         interrupt: Interrupt, interrupted: bool, historyFits: bool, detailsFit: bool,
                         saved: Result<(), AppError>)

  function StatusOf(code: string): (StepStatus, RunStatus)
  {
    if code == "FLOW_CANCELLED" then (StepStatus.Cancelled, RunStatus.Cancelled)
    else if code == "FLOW_TIMEOUT" then (StepStatus.TimedOut, RunStatus.TimedOut)
    else (StepStatus.Failed, RunStatus.Failed)
  }

  /** How an error ends a step and its run: a cancellation and a timeout have their own status in
      both, every other error fails both. */
  lemma StatusesOfErrors(code: string)
    ensures StatusOf("FLOW_CANCELLED") == (StepStatus.Cancelled, RunStatus.Cancelled)
    ensures StatusOf("FLOW_TIMEOUT") == (StepStatus.TimedOut, RunStatus.TimedOut)
    ensures code != "FLOW_CANCELLED" && code != "FLOW_TIMEOUT" ==> StatusOf(code) == (StepStatus.Failed, RunStatus.Failed)
  {
    assert "FLOW_CANCELLED"[5] != "FLOW_TIMEOUT"[5];
  }

  /** A step whose deadline passed with nothing done ends as timed out. */
  lemma DeadlineIsATimeout()
    ensures ErrorCode(CleanInterrupt(DeadlinePassed)) == "FLOW_TIMEOUT"
    ensures StatusOf(ErrorCode(CleanInterrupt(DeadlinePassed))) == (StepStatus.TimedOut, RunStatus.TimedOut)
  {
    assert "FLOW_CANCELLED"[5] != "FLOW_TIMEOUT"[5];
  }

  /** The step with this id is among the succeeded ones. */
  ghost predicate Produced(steps: seq<Step>, done: seq<nat>, id: string)
  {
    exists k :: 0 <= k < |done| && done[k] < |steps| && steps[done[k]].id == id
  }

  ghost predicate OutputAt(steps: seq<Step>, stepRuns: seq<StepRun>, outputs: seq<Field>, i: nat)
  {
    && i < |steps| && i < |stepRuns|
    && stepRuns[i].output.Some?
    && Get(outputs, steps[i].id) == stepRuns[i].output
  }

  /** The outputs in the context are those of the succeeded steps, each under its id. */
  ghost predicate OutputsOf(steps: seq<Step>, done: seq<nat>, stepRuns: seq<StepRun>, outputs: seq<Field>)
  {
    && (forall i {:trigger OutputAt(steps, stepRuns, outputs, i)} :: i in done ==> OutputAt(steps, stepRuns, outputs, i))
    && (forall id {:trigger Produced(steps, done, id)} :: Get(outputs, id).Some? ==> Produced(steps, done, id))
  }

  /** The mark of one step: succeeded exactly when it is on the path, with its attempts in
      order, and a succeeded action reports the output of its last attempt. */
  ghost predicate MarkedAt(steps: seq<Step>, done: seq<nat>, stepRuns: seq<StepRun>, i: nat)
    requires i < |steps| == |stepRuns|
  {
    && stepRuns[i].stepId == steps[i].id
    && (stepRuns[i].status == StepStatus.Succeeded <==> i in done)
    && InOrder(steps[i], stepRuns[i].attempts)
    && (i in done && steps[i].node.Action? ==> stepRuns[i].output == CompletedActionOutput(steps[i], stepRuns[i].attempts))
  }

  ghost predicate Marked(steps: seq<Step>, done: seq<nat>, stepRuns: seq<StepRun>)
  {
    && |stepRuns| == |steps|
    && forall i {:trigger MarkedAt(steps, done, stepRuns, i)} :: 0 <= i < |steps| ==> MarkedAt(steps, done, stepRuns, i)
  }

  /** The steps before `from` are decided, the steps from `to` on are untouched. */
  ghost predicate Swept(stepRuns: seq<StepRun>, from: nat, to: nat)
  {
    && (forall i :: 0 <= i < |stepRuns| && i < from ==>
          stepRuns[i].status == StepStatus.Succeeded || stepRuns[i].status == StepStatus.Skipped)
    && (forall i :: to <= i < |stepRuns| ==>
          stepRuns[i].status == StepStatus.Pending && stepRuns[i].attempts == [])
  }

  /** The state between two turns of the runner. */
  ghost predicate AtTurn(steps: seq<Step>, done: seq<nat>, index: nat, stepRuns: seq<StepRun>, outputs: seq<Field>)
  {
    && index <= |steps|
    && Marked(steps, done, stepRuns)
    && Swept(stepRuns, index, index)
    && OutputsOf(steps, done, stepRuns, outputs)
    && (if index < |steps| then IsPath(steps, done + [index]) else IsPath(steps, done))
  }

  /** The state while or after a step is executed that has not handed over. */
  ghost predicate AtStep(steps: seq<Step>, done: seq<nat>, index: nat, stepRuns: seq<StepRun>, outputs: seq<Field>)
  {
    && index < |steps|
    && Marked(steps, done, stepRuns)
    && Swept(stepRuns, index, index + 1)
    && OutputsOf(steps, done, stepRuns, outputs)
    && IsPath(steps, done + [index])
  }

  lemma UpstreamHasOutputs(steps: seq<Step>, done: seq<nat>, index: nat, stepRuns: seq<StepRun>, outputs: seq<Field>, id: string)
    requires IsPath(steps, done + [index])
    requires OutputsOf(steps, done, stepRuns, outputs)
    requires id in Upstream(steps, index)
    ensures Get(outputs, id).Some?
  {
    var i := UpstreamIsDone(steps, done, index, id);
    assert OutputAt(steps, stepRuns, outputs, i);
  }

  lemma UpstreamIsDone(steps: seq<Step>, done: seq<nat>, index: nat, id: string) returns (i: nat)
    requires IsPath(steps, done + [index])
    requires id in Upstream(steps, index)
    ensures i in done && i < |steps| && steps[i].id == id
  {
    var path := done + [index];
    assert path[|path| - 1] == index;
    UpstreamHasPassed(steps, path);
    PassedAreSteps(steps, path);
    var k :| 0 <= k < |path| - 1 && steps[path[k]].id == id;
    assert path[k] == done[k];
    i := done[k];
  }

  lemma ValidStepIsReady(steps: seq<Step>, index: nat)
    requires ValidSteps(steps) && index < |steps|
    ensures CheckReferences(steps[index], Upstream(steps, index)).Ok?
    ensures Limit(steps[index]).Some? ==> Limit(steps[index]).value > 0
  {
    assert CheckStep(steps, index).Ok?;
  }

  /** A validated step is prepared whatever path led to it: every reference it makes was
      accepted against steps that are on that path. */
  lemma TurnIsPrepared(steps: seq<Step>, done: seq<nat>, index: nat, stepRuns: seq<StepRun>, inputs: Json, outputs: seq<Field>)
    requires ValidSteps(steps) && index < |steps|
    requires AtTurn(steps, done, index, stepRuns, outputs)
    ensures Prepared(steps[index], Context(inputs, outputs), Upstream(steps, index))
  {
    ValidStepIsReady(steps, index);
    forall id | id in Upstream(steps, index)
      ensures Get(outputs, id).Some?
    {
      UpstreamHasOutputs(steps, done, index, stepRuns, outputs, id);
    }
    ContextOffers(inputs, outputs, Upstream(steps, index));
  }

  /** What evaluating a predicate resolves: its operands, and the whole of it for the record. */
  predicate IsPart(p: Predicate, value: Json)
  {
    value == p.left || value == p.right || value == PredicateValue(p)
  }

  /** The expressions a step evaluates, each in its context: the predicates of a poll or a wait
      see the output of the probe, whatever it is. */
  ghost predicate Evaluates(step: Step, start: Json, value: Json, context: Json)
  {
    match step.node
    case Action(action) => value == action.arguments && context == start
    case Condition(test, _, _) => IsPart(test, value) && context == start
    case Poll(probe, until, _, _) =>
      || (value == probe.arguments && context == start)
      || (IsPart(until, value) && exists output :: context == WithProbe(start, output))
    case WaitUntil(watch, successWhen, failureWhen, _, _, _) =>
      || (value == watch.arguments && context == start)
      || ((IsPart(successWhen, value) || (failureWhen.Some? && IsPart(failureWhen.value, value)))
          && exists output :: context == WithProbe(start, output))
    case Wait(_) => false
  }

  lemma PartIsChecked(p: Predicate, value: Json, safe: set<string>, probe: bool)
    requires Check(PredicateValue(p), safe, probe).Ok? && IsPart(p, value)
    ensures Check(value, safe, probe).Ok?
  {
    var fields := PredicateValue(p).fields;
    NoReferenceKey(p);
    assert fields[1..][1..] == [Field("right", p.right)];
    assert CheckFields(fields[1..], safe, probe).Ok?;
    assert CheckFields(fields[1..][1..], safe, probe).Ok?;
  }

  /** Every expression of a validated step was checked against what its context offers. */
  lemma EvaluatedIsChecked(step: Step, safe: set<string>, start: Json, value: Json, context: Json) returns (probe: bool)
    requires CheckReferences(step, safe).Ok? && start.Obj? && Offers(start, safe, false)
    requires Evaluates(step, start, value, context)
    ensures Check(value, safe, probe).Ok? && Offers(context, safe, probe)
  {
    probe := false;
    match step.node {
      case Condition(test, _, _) =>
        PartIsChecked(test, value, safe, false);
      case Poll(arguments, until, _, _) =>
        if !(value == arguments.arguments && context == start) {
          PartIsChecked(until, value, safe, true);
          probe := true;
        }
      case WaitUntil(watch, successWhen, failureWhen, _, _, _) =>
        if !(value == watch.arguments && context == start) {
          PartIsChecked(if IsPart(successWhen, value) then successWhen else failureWhen.value, value, safe, true);
          probe := true;
        }
      case _ =>
    }
    if probe {
      var output :| context == WithProbe(start, output);
      ProbeOffers(start, output, safe);
    }
  }

  /** In every run of a validated flow, on whatever path it is and whatever the outputs and the
      probe's output were, no expression of a step is invalid: every prefix it names is there,
      `/probe` included, and only a field below an available output, input or probe can be
      missing. */
  lemma RunsNeverMisreference(steps: seq<Step>, path: seq<nat>, inputs: Json, outputs: seq<Field>, value: Json, context: Json,
                              render: Json -> string)
    requires ValidSteps(steps) && IsPath(steps, path)
    requires forall id :: id in Passed(steps, path) ==> Get(outputs, id).Some?
    requires Evaluates(steps[path[|path| - 1]], Context(inputs, outputs), value, context)
    ensures forall p :: Mentions(value, p) ==> p != "" && Pointers.Walk(context, Root(p)).Some?
    ensures Resolve(value, context, render).Err? ==> Resolve(value, context, render).error == MISSING_REFERENCE
  {
    var index := path[|path| - 1];
    var safe := Upstream(steps, index);
    ValidStepIsReady(steps, index);
    UpstreamHasPassed(steps, path);
    ContextOffers(inputs, outputs, safe);
    var probe := EvaluatedIsChecked(steps[index], safe, Context(inputs, outputs), value, context);
    CheckedExpressionIsSafe(value, context, safe, probe, render);
  }

  /** The context stays right while the succeeded steps keep their records. */
  lemma OutputsStay(steps: seq<Step>, done: seq<nat>, stepRuns: seq<StepRun>, later: seq<StepRun>, outputs: seq<Field>)
    requires |stepRuns| == |later|
    requires OutputsOf(steps, done, stepRuns, outputs)
    requires forall i {:trigger i in done} :: i in done && i < |stepRuns| ==> later[i] == stepRuns[i]
    ensures OutputsOf(steps, done, later, outputs)
  {
    forall i | i in done
      ensures OutputAt(steps, later, outputs, i)
    {
      assert OutputAt(steps, stepRuns, outputs, i);
    }
  }

  /** The marks stay right when one step changes and fits its own mark. */
  lemma MarksStay(steps: seq<Step>, done: seq<nat>, index: nat, stepRuns: seq<StepRun>, stepRun: StepRun)
    requires Marked(steps, done, stepRuns) && index < |steps|
    requires MarkedAt(steps, done, stepRuns[index := stepRun], index)
    ensures Marked(steps, done, stepRuns[index := stepRun])
  {
    var later := stepRuns[index := stepRun];
    forall i: nat | i < |steps|
      ensures MarkedAt(steps, done, later, i)
    {
      assert MarkedAt(steps, done, stepRuns, i);
    }
  }

  lemma PendingIsNotDone(steps: seq<Step>, done: seq<nat>, index: nat, stepRuns: seq<StepRun>)
    requires Marked(steps, done, stepRuns) && index < |steps|
    ensures stepRuns[index].stepId == steps[index].id && InOrder(steps[index], stepRuns[index].attempts)
    ensures stepRuns[index].status != StepStatus.Succeeded <==> index !in done
  {
    assert MarkedAt(steps, done, stepRuns, index);
  }

  /** A turn starts: the step is marked as running. */
  lemma StepStarts(steps: seq<Step>, done: seq<nat>, index: nat, stepRuns: seq<StepRun>, outputs: seq<Field>, stepRun: StepRun)
    requires index < |steps| && AtTurn(steps, done, index, stepRuns, outputs)
    requires stepRun.stepId == steps[index].id && stepRun.status != StepStatus.Succeeded && InOrder(steps[index], stepRun.attempts)
    ensures AtStep(steps, done, index, stepRuns[index := stepRun], outputs)
  {
    PendingIsNotDone(steps, done, index, stepRuns);
    MarksStay(steps, done, index, stepRuns, stepRun);
    OutputsStay(steps, done, stepRuns, stepRuns[index := stepRun], outputs);
  }

  /** Recording anything but a success keeps the state of a step being executed. */
  lemma StepRecorded(steps: seq<Step>, done: seq<nat>, index: nat, stepRuns: seq<StepRun>, outputs: seq<Field>, stepRun: StepRun)
    requires AtStep(steps, done, index, stepRuns, outputs) && index !in done
    requires stepRun.stepId == steps[index].id && stepRun.status != StepStatus.Succeeded && InOrder(steps[index], stepRun.attempts)
    ensures AtStep(steps, done, index, stepRuns[index := stepRun], outputs)
  {
    MarksStay(steps, done, index, stepRuns, stepRun);
    OutputsStay(steps, done, stepRuns, stepRuns[index := stepRun], outputs);
  }

  /** Recording a success adds the step to the succeeded ones. */
  lemma StepSucceeds(steps: seq<Step>, done: seq<nat>, index: nat, stepRuns: seq<StepRun>, outputs: seq<Field>, stepRun: StepRun)
    requires AtStep(steps, done, index, stepRuns, outputs)
    requires stepRun.stepId == steps[index].id && stepRun.status == StepStatus.Succeeded && InOrder(steps[index], stepRun.attempts)
    requires steps[index].node.Action? ==> stepRun.output == CompletedActionOutput(steps[index], stepRun.attempts)
    ensures Marked(steps, done + [index], stepRuns[index := stepRun])
    ensures Swept(stepRuns[index := stepRun], index + 1, index + 1)
  {
    var later, longer := stepRuns[index := stepRun], done + [index];
    forall i: nat | i < |steps|
      ensures MarkedAt(steps, longer, later, i)
    {
      assert MarkedAt(steps, done, stepRuns, i);
      assert i in longer <==> i in done || i == index;
    }
  }

  /** The output of the step that succeeded joins the context. */
  lemma OutputJoins(steps: seq<Step>, done: seq<nat>, index: nat, stepRuns: seq<StepRun>, outputs: seq<Field>,
                    stepRun: StepRun, output: Json)
    requires UniqueIds(steps) && |stepRuns| == |steps| && index < |steps| && index !in done
    requires OutputsOf(steps, done, stepRuns, outputs)
    requires stepRun.output == Some(output)
    ensures OutputsOf(steps, done + [index], stepRuns[index := stepRun], Put(outputs, steps[index].id, output))
  {
    var later, longer := stepRuns[index := stepRun], done + [index];
    var put := Put(outputs, steps[index].id, output);
    forall i | i in longer
      ensures OutputAt(steps, later, put, i)
    {
      assert i in done || i == index;
      assert i in done ==> OutputAt(steps, stepRuns, outputs, i);
      GetPut(outputs, steps[index].id, output, steps[i].id);
    }
    forall id | Get(put, id).Some?
      ensures Produced(steps, longer, id)
    {
      GetPut(outputs, steps[index].id, output, id);
      assert longer[|done|] == index;
      if id != steps[index].id {
        assert Produced(steps, done, id);
        var k :| 0 <= k < |done| && done[k] < |steps| && steps[done[k]].id == id;
        assert longer[k] == done[k];
      }
    }
  }

  /** Handing over: the steps jumped over are skipped and the path grows by one edge. */
  lemma TurnEnds(steps: seq<Step>, done: seq<nat>, index: nat, next: nat, stepRuns: seq<StepRun>, later: seq<StepRun>, outputs: seq<Field>)
    requires AfterStep(steps, done, index, stepRuns, outputs) && index < next <= |steps|
    requires next < |steps| ==> Edge(steps, index, next)
    requires |later| == |stepRuns|
    requires forall i :: 0 <= i < |steps| ==>
               later[i] == if index < i < next then stepRuns[i].(status := StepStatus.Skipped) else stepRuns[i]
    ensures AtTurn(steps, done, next, later, outputs)
  {
    forall i: nat | i < |steps|
      ensures MarkedAt(steps, done, later, i)
      ensures i in done ==> later[i] == stepRuns[i]
    {
      assert MarkedAt(steps, done, stepRuns, i);
    }
    OutputsStay(steps, done, stepRuns, later, outputs);
    if next < |steps| {
      ReferenceGraph.PathExtend(steps, done, next);
    }
  }

  /** The step succeeded and the runner has not moved on yet. */
  ghost predicate AfterStep(steps: seq<Step>, done: seq<nat>, index: nat, stepRuns: seq<StepRun>, outputs: seq<Field>)
  {
    && index < |steps|
    && Marked(steps, done, stepRuns)
    && Swept(stepRuns, index + 1, index + 1)
    && OutputsOf(steps, done, stepRuns, outputs)
    && IsPath(steps, done) && done[|done| - 1] == index
  }

  /** No attempt is left open: an interrupted call has been given the error of its step. */
  ghost predicate Closed(stepRun: StepRun)
  {
    forall k :: 0 <= k < |stepRun.attempts| ==> !stepRun.attempts[k].Open()
  }

  /** How a run may end, before the steps it never reached are swept. */
  ghost predicate RunEnd(steps: seq<Step>, done: seq<nat>, at: nat, stepRuns: seq<StepRun>, outputs: seq<Field>,
                         status: RunStatus, error: Option<string>, unanswered: bool, r: Result<(), AppError>)
  {
    || (r.Ok? && at == |steps| && AtTurn(steps, done, at, stepRuns, outputs)
        && status == RunStatus.Succeeded && error.None? && !unanswered)
    || (r.Ok? && at < |steps| && AtTurn(steps, done, at, stepRuns, outputs)
        && status == RunStatus.Cancelled && error.None? && !unanswered)
    || (r.Ok? && AtStep(steps, done, at, stepRuns, outputs) && at !in done
        && error.Some? && stepRuns[at].error == error && Closed(stepRuns[at])
        && (stepRuns[at].status, status) == StatusOf(error.value)
        && (unanswered ==> error == Some("FLOW_OUTCOME_UNCERTAIN")))
    || (r.Err? && status == RunStatus.Running && error.None? && !unanswered
        && (|| (at < |steps| && AtTurn(steps, done, at, stepRuns, outputs))
            || (AtStep(steps, done, at, stepRuns, outputs) && at !in done && stepRuns[at].status == StepStatus.Running)
            || AfterStep(steps, done, at, stepRuns, outputs)))
  }

  lemma EndsBetweenSteps(steps: seq<Step>, done: seq<nat>, at: nat, stepRuns: seq<StepRun>, outputs: seq<Field>,
                         status: RunStatus, r: Result<(), AppError>)
    requires AtTurn(steps, done, at, stepRuns, outputs)
    requires if at == |steps| then r.Ok? && status == RunStatus.Succeeded
             else (r.Ok? && status == RunStatus.Cancelled) || (r.Err? && status == RunStatus.Running)
    ensures RunEnd(steps, done, at, stepRuns, outputs, status, None, false, r)
  {
  }

  lemma EndsAtStep(steps: seq<Step>, done: seq<nat>, at: nat, stepRuns: seq<StepRun>, outputs: seq<Field>,
                   status: RunStatus, error: Option<string>, unanswered: bool, r: Result<(), AppError>)
    requires AtStep(steps, done, at, stepRuns, outputs) && at !in done
    requires if r.Ok? then
               && error.Some? && stepRuns[at].error == error && (stepRuns[at].status, status) == StatusOf(error.value)
               && Closed(stepRuns[at])
               && (unanswered ==> error == Some("FLOW_OUTCOME_UNCERTAIN"))
             else status == RunStatus.Running && error.None? && !unanswered && stepRuns[at].status == StepStatus.Running
    ensures RunEnd(steps, done, at, stepRuns, outputs, status, error, unanswered, r)
  {
  }

  lemma EndsAfterStep(steps: seq<Step>, done: seq<nat>, at: nat, stepRuns: seq<StepRun>, outputs: seq<Field>, r: Result<(), AppError>)
    requires AfterStep(steps, done, at, stepRuns, outputs) && r.Err?
    ensures RunEnd(steps, done, at, stepRuns, outputs, RunStatus.Running, None, false, r)
  {
  }

  /** The state of a run when its task ends: the succeeded steps form a path of execution
      and are exactly the ones whose outputs the context holds; every other step is skipped,
      except at most the one where the run stopped, which carries the run's error. A lost
      lease may also leave that step running. */
  ghost predicate FinalState(steps: seq<Step>, done: seq<nat>, at: nat, stepRuns: seq<StepRun>, outputs: seq<Field>,
                             status: RunStatus, error: Option<string>, lost: bool)
  {
    && Marked(steps, done, stepRuns)
    && PathOrNothing(steps, done)
    && OutputsOf(steps, done, stepRuns, outputs)
    && (forall i :: 0 <= i < |stepRuns| && i != at ==>
          stepRuns[i].status == StepStatus.Succeeded || stepRuns[i].status == StepStatus.Skipped)
    && (if lost then status == RunStatus.Failed && error.Some?
        else if status == RunStatus.Succeeded then at == |steps| && error.None? && IsPath(steps, done)
        else if error.None? then
          status == RunStatus.Cancelled && at < |steps| && stepRuns[at].status == StepStatus.Skipped
        else
          && at < |steps| && at !in done && stepRuns[at].error == error && Closed(stepRuns[at])
          && (stepRuns[at].status, status) == StatusOf(error.value))
  }

  lemma SweepEnds(steps: seq<Step>, done: seq<nat>, at: nat, stepRuns: seq<StepRun>, later: seq<StepRun>, outputs: seq<Field>,
                  status: RunStatus, error: Option<string>, unanswered: bool, r: Result<(), AppError>)
    requires RunEnd(steps, done, at, stepRuns, outputs, status, error, unanswered, r)
    requires |later| == |stepRuns|
    requires forall k :: 0 <= k < |stepRuns| ==>
               later[k] == if stepRuns[k].status == StepStatus.Pending
                           then stepRuns[k].(status := StepStatus.Skipped) else stepRuns[k]
    ensures r.Ok? ==> FinalState(steps, done, at, later, outputs, status, error, false)
    ensures forall code :: r.Err? ==> FinalState(steps, done, at, later, outputs, RunStatus.Failed, Some(code), true)
  {
    forall i: nat | i < |steps|
      ensures MarkedAt(steps, done, later, i)
      ensures i in done ==> later[i] == stepRuns[i]
    {
      assert MarkedAt(steps, done, stepRuns, i);
    }
    OutputsStay(steps, done, stepRuns, later, outputs);
    PathBefore(steps, done, at);
  }

  lemma PathBefore(steps: seq<Step>, done: seq<nat>, at: nat)
    ensures done != [] && IsPath(steps, done + [at]) ==> IsPath(steps, done)
  {
    if done != [] && IsPath(steps, done + [at]) {
      ReferenceGraph.PathPrefix(steps, done + [at]);
      assert (done + [at])[..|done|] == done;
    }
  }

  // ---------- the path is determined by the record ----------

  /** A run as it is told at its end. */
  ghost predicate Tale(steps: seq<Step>, done: seq<nat>, at: nat, stepRuns: seq<StepRun>, legs: seq<Leg>, inputs: Json,
                       outputs: seq<Field>, env: Env)
  {
    && PathOrNothing(steps, done)
    && OutputsOf(steps, done, stepRuns, outputs)
    && Tells(legs, done) && Story(steps, legs, at, inputs, outputs, env)
  }

  ghost predicate PathOrNothing(steps: seq<Step>, done: seq<nat>)
  {
    done == [] || IsPath(steps, done)
  }

  /** A run is not shorter than another one with the same outputs: the next step of the other
      would have left an output. */
  lemma NotShorter(steps: seq<Step>, done: seq<nat>, at: nat, stepRuns: seq<StepRun>, legs: seq<Leg>, env: Env,
                   theirs: seq<nat>, there: nat, theirRuns: seq<StepRun>, others: seq<Leg>, other: Env,
                   inputs: Json, outputs: seq<Field>)
    requires UniqueIds(steps) && env.render == other.render
    requires Tale(steps, done, at, stepRuns, legs, inputs, outputs, env)
    requires Tale(steps, theirs, there, theirRuns, others, inputs, outputs, other)
    ensures |done| >= |theirs|
  {
    if |done| < |theirs| {
      var next := theirs[|done|];
      assert OutputAt(steps, theirRuns, outputs, next);
      assert Produced(steps, done, steps[next].id);
      var k :| 0 <= k < |done| && done[k] < |steps| && steps[done[k]].id == steps[next].id;
      assert done[k] == next;
      LegIsDetermined(steps, legs, at, env, others, there, other, inputs, outputs, k);
      ReferenceGraph.PathIsIncreasing(steps, theirs, k, |done|);
    }
  }

  /** Two runs of a validated flow that end with the same inputs and outputs took the same path
      to the same end, whatever answers they got and however long they waited. */
  lemma PathIsDetermined(steps: seq<Step>, done: seq<nat>, at: nat, stepRuns: seq<StepRun>, legs: seq<Leg>, env: Env,
                         theirs: seq<nat>, there: nat, theirRuns: seq<StepRun>, others: seq<Leg>, other: Env,
                         inputs: Json, outputs: seq<Field>)
    requires UniqueIds(steps) && env.render == other.render
    requires Tale(steps, done, at, stepRuns, legs, inputs, outputs, env)
    requires Tale(steps, theirs, there, theirRuns, others, inputs, outputs, other)
    ensures done == theirs && at == there
    ensures |legs| == |others| && forall k :: 0 <= k < |legs| ==> legs[k].branch == others[k].branch
  {
    NotShorter(steps, done, at, stepRuns, legs, env, theirs, there, theirRuns, others, other, inputs, outputs);
    NotShorter(steps, theirs, there, theirRuns, others, other, done, at, stepRuns, legs, env, inputs, outputs);
    forall k | 0 <= k < |legs|
      ensures done[k] == theirs[k] && legs[k].branch == others[k].branch && After(legs, k, at) == After(others, k, there)
    {
      LegIsDetermined(steps, legs, at, env, others, there, other, inputs, outputs, k);
    }
    if legs != [] {
      assert After(legs, |legs| - 1, at) == at && After(others, |legs| - 1, there) == there;
    }
  }

  /** What was observed of the last step executed: the interrupt and whether it came before the
      work was done, whether a call was handed over and not answered, whether the signal was
      given, the writes that failed, and the calls that were answered. */
  datatype Trace = Trace(interrupt: Interrupt, interrupted: bool, unanswered: bool, cancelled: bool, faults: set<AppError>,
                         calls: seq<Answer>)

  /** The error is rebuilt from the code of an answered call. */
  ghost predicate IsRebuilt(error: AppError, calls: seq<Answer>)
  {
    exists k :: 0 <= k < |calls| && calls[k].returned.Err? && error == RecordedAttemptError(ErrorCode(calls[k].returned.error))
  }

  /** Where the error of an executed step can come from. An interrupted step is not reported as
      cancelled unless that is what the interrupt says. */
  ghost predicate Reported(error: AppError, trace: Trace)
  {
    && (|| Explained(error, trace.cancelled, trace.faults, trace.calls)
        || (error == UNCERTAIN && trace.unanswered)
        || (error == CleanInterrupt(trace.interrupt) && trace.interrupted)
        || (trace.interrupted && IsRebuilt(error, trace.calls)))
    && (trace.interrupted && ErrorCode(error) == "FLOW_CANCELLED" ==> error == CleanInterrupt(trace.interrupt))
  }

  /** The error is reported, and if the step is an action that was answered, the answer could
      not be kept; the history limit also applies to the step's own record. */
  ghost predicate Accounted(step: Step, error: AppError, trace: Trace)
  {
    && Reported(error, trace)
    && (AnswerKept(step, trace.calls, trace.faults, trace.interrupt, Err(error)) || error == HISTORY_LIMIT)
  }

  /** A result of the work as the runner adopts it. */
  function Adopted(visit: Visit, result: StepResult): StepResult
  {
    if visit.interrupted then AdoptCompleted(visit.interrupt, result) else result
  }

  /** Adopting replaces exactly the work's own cancellation by the interrupt that caused it. */
  lemma AdoptingMeans(visit: Visit, result: StepResult)
    ensures result.Ok? ==> Adopted(visit, result) == result
    ensures !visit.interrupted ==> Adopted(visit, result) == result
    ensures result.Err? && visit.interrupted ==>
              Adopted(visit, result) == Err(if ErrorCode(result.error) == "FLOW_CANCELLED" then CleanInterrupt(visit.interrupt) else result.error)
  {
  }

  /** Where the script is undisturbed, the outcome is what it answers, unless the step's record is
      too large. */
  ghost predicate FollowsScript(step: Step, context: Json, env: Env, visit: Visit, outcome: StepResult)
  {
    forall m, result {:trigger Answers(step, context, env, visit.script, m, result)} ::
      Answers(step, context, env, visit.script, m, result) ==>
        || outcome == Adopted(visit, result)
        || (Adopted(visit, result).Ok? && !visit.historyFits && outcome == Err(HISTORY_LIMIT))
  }

  /** The undisturbed script answers the work of the step with a success. */
  ghost predicate Supplied(step: Step, context: Json, env: Env, script: seq<Answer>)
  {
    exists m, v :: Answers(step, context, env, script, m, Ok(v))
  }

  /** Nothing of the runner's own stands in the way of the turn. */
  predicate Completed(visit: Visit)
  {
    visit.heartbeat == Ok(false) && visit.begun.Ok? && visit.saved.Ok? && visit.historyFits
  }

  /** Why a turn is the last one: the heartbeat failed or said stop, a write failed, or the step
      did not succeed; and what had been done by then. */
  ghost predicate LastTurn(visit: Visit, step: Step, context: Json, env: Env, begun: bool, performed: bool, succeeded: bool,
                           r: Result<(), AppError>, status: RunStatus, error: Option<string>, cause: Option<AppError>)
  {
    if visit.heartbeat.Err? then !begun && !performed && r == Err(visit.heartbeat.error)
    else if visit.heartbeat.value then !begun && !performed && r == Ok(()) && status == RunStatus.Cancelled && error.None?
    else if visit.begun.Err? then begun && !performed && r == Err(visit.begun.error)
    else
      && begun && performed
      && if succeeded then visit.saved.Err? && r == Err(visit.saved.error)
         else
           && r == Ok(()) && cause.Some? && error == Some(ErrorCode(cause.value))
           && FollowsScript(step, context, env, visit, Err(cause.value))
  }

  /** A turn with nothing in its way whose work is answered with a success is not the last one. */
  lemma SuppliedTurnIsNotLast(visit: Visit, step: Step, context: Json, env: Env, begun: bool, performed: bool, succeeded: bool,
                              r: Result<(), AppError>, status: RunStatus, error: Option<string>, cause: Option<AppError>)
    requires Completed(visit) && Supplied(step, context, env, visit.script)
    ensures !LastTurn(visit, step, context, env, begun, performed, succeeded, r, status, error, cause)
  {
    var m, v :| Answers(step, context, env, visit.script, m, Ok(v));
  }

  /** How far a run got: a step is begun only after a heartbeat that did not say stop, and its
      work starts only after the write that marks it as running. */
  ghost predicate Permitted(visits: seq<Visit>, begun: nat, performed: nat)
  {
    && performed <= begun <= |visits| && begun <= performed + 1
    && (forall k :: 0 <= k < begun ==> visits[k].heartbeat == Ok(false))
    && (forall k :: 0 <= k < performed ==> visits[k].begun.Ok?)
  }

  /** A turn hands over only calls whose opening writes succeeded in it. */
  ghost predicate HandsOver(before: seq<Answer>, handed: seq<Answer>, visit: Visit)
  {
    && before <= handed
    && forall k :: |before| <= k < |handed| ==> handed[k] in Granted(visit.script)
  }

  /** Every call handed over was opened by a write that succeeded in some turn. */
  ghost predicate HandedInTurns(visits: seq<Visit>, handed: seq<Answer>)
  {
    forall k :: 0 <= k < |handed| ==> exists i :: 0 <= i < |visits| && handed[k] in Granted(visits[i].script)
  }

  /** The outcome of a step: a finished work is adopted, with an interrupt that came first
      taken into account; a dropped one is judged by its records. */
  function Judge(visit: Visit, step: Step, result: Work<StepResult>, attempts: seq<Attempt>): StepResult
  {
    match result
    case Dropped => AdoptAbandoned(visit.interrupt, step, attempts)
    case Done(value) => Adopted(visit, value)
  }

  ghost function TraceOf(visit: Visit, result: Work<StepResult>, phase: Phase, cancelled: bool, calls: seq<Answer>): Trace
  {
    Trace(visit.interrupt, visit.interrupted || result.Dropped?, result.Dropped? && (phase.Opening? || phase.InFlight?), cancelled,
          Faults(visit.script), calls)
  }

  /** A stored code other than FLOW_CANCELLED is never rebuilt as that code. */
  lemma RebuiltIsNotCancelled(code: string)
    requires code != "FLOW_CANCELLED"
    ensures ErrorCode(RecordedAttemptError(code)) != "FLOW_CANCELLED"
  {
    RebuiltCode(code);
  }

  lemma UncertainIsNotCancelled()
    ensures ErrorCode(UNCERTAIN) != "FLOW_CANCELLED" && ErrorCode(HISTORY_LIMIT) != "FLOW_CANCELLED"
  {
    assert "FLOW_OUTCOME_UNCERTAIN"[5] == 'O' && "FLOW_CANCELLED"[5] == 'C' && "FLOW_HISTORY_LIMIT"[5] == 'H';
  }

  lemma RebuiltIsReported(e: AppError, trace: Trace, k: nat)
    requires trace.interrupted && k < |trace.calls| && trace.calls[k].returned == Err(e) && ErrorCode(e) != "FLOW_CANCELLED"
    ensures Reported(RecordedAttemptError(ErrorCode(e)), trace)
  {
    RebuiltIsNotCancelled(ErrorCode(e));
    assert IsRebuilt(RecordedAttemptError(ErrorCode(e)), trace.calls);
  }

  /** The honest outcome of a dropped work is reported. */
  lemma HonestIsReported(interrupt: Interrupt, step: Step, phase: Phase, calls: seq<Answer>, trace: Trace)
    requires trace.interrupt == interrupt && trace.interrupted && trace.calls == calls
    requires trace.unanswered == (phase.Opening? || phase.InFlight?)
    ensures var honest := HonestOutcome(interrupt, step, phase, calls);
            && (honest.Err? ==> Reported(honest.error, trace))
            && (trace.unanswered ==> honest == Err(UNCERTAIN))
  {
    if trace.unanswered {
      UncertainIsNotCancelled();
    } else if calls != [] && calls[|calls| - 1].returned.Err? && ErrorCode(calls[|calls| - 1].returned.error) != "FLOW_CANCELLED" {
      RebuiltIsReported(calls[|calls| - 1].returned.error, trace, |calls| - 1);
    }
  }

  lemma DroppedIsReported(visit: Visit, step: Step, context: Json, env: Env, attempts: seq<Attempt>, phase: Phase, cancelled: bool,
                          calls: seq<Answer>)
    requires Worked(step, context, env, visit.script, attempts, calls, phase, cancelled, Dropped)
    ensures Judged(visit, step, context, env, attempts, TraceOf(visit, Dropped, phase, cancelled, calls),
                   AdoptAbandoned(visit.interrupt, step, attempts))
  {
    var honest := HonestOutcome(visit.interrupt, step, phase, calls);
    assert AdoptAbandoned(visit.interrupt, step, attempts) == honest;
    HonestIsReported(visit.interrupt, step, phase, calls, TraceOf(visit, Dropped, phase, cancelled, calls));
    assert honest.Ok? ==> CompletedActionOutput(step, attempts) == Some(honest.value.0);
  }

  lemma DoneIsReported(visit: Visit, step: Step, context: Json, env: Env, result: StepResult, attempts: seq<Attempt>, phase: Phase,
                       cancelled: bool, calls: seq<Answer>)
    requires Worked(step, context, env, visit.script, attempts, calls, phase, cancelled, Done(result))
    ensures Judged(visit, step, context, env, attempts, TraceOf(visit, Done(result), phase, cancelled, calls), Adopted(visit, result))
  {
  }

  /** What a judged outcome promises. */
  ghost predicate Judged(visit: Visit, step: Step, context: Json, env: Env, attempts: seq<Attempt>, trace: Trace, outcome: StepResult)
  {
    && (outcome.Ok? ==> Earned(step, context, env, trace.calls, outcome.value))
    && (outcome.Ok? && step.node.Action? ==> CompletedActionOutput(step, attempts) == Some(outcome.value.0))
    && (outcome.Err? ==> Reported(outcome.error, trace))
    && AnswerKept(step, trace.calls, trace.faults, trace.interrupt, outcome)
    && (trace.unanswered ==> outcome == Err(UNCERTAIN))
    && FollowsScript(step, context, env, visit, outcome)
    && trace.interrupt == visit.interrupt && (visit.interrupted ==> trace.interrupted)
  }

  /** Adopting a finished work or abandoning a dropped one gives an honest outcome. */
  lemma JudgementIsReported(visit: Visit, step: Step, context: Json, env: Env, result: Work<StepResult>, attempts: seq<Attempt>,
                            phase: Phase, cancelled: bool, calls: seq<Answer>)
    requires Worked(step, context, env, visit.script, attempts, calls, phase, cancelled, result)
    ensures Judged(visit, step, context, env, attempts, TraceOf(visit, result, phase, cancelled, calls),
                   Judge(visit, step, result, attempts))
  {
    match result
    case Dropped => DroppedIsReported(visit, step, context, env, attempts, phase, cancelled, calls);
    case Done(value) => DoneIsReported(visit, step, context, env, value, attempts, phase, cancelled, calls);
  }

  /** The work of one step under its timeout and heartbeat, and the outcome it is given. */
  method Observe(step: Step, context: Json, env: Env, visit: Visit, ghost safe: set<string>)
    returns (outcome: StepResult, attempts: seq<Attempt>, ghost trace: Trace, ghost gates: seq<Answer>)
    requires Prepared(step, context, safe)
    ensures InOrder(step, attempts)
    ensures Judged(visit, step, context, env, attempts, trace, outcome)
    ensures |trace.calls| <= |gates| <= |trace.calls| + 1 && forall k :: 0 <= k < |gates| ==> gates[k] in Granted(visit.script)
  {
    var work := new StepWork(visit.script);
    var result := work.Run(step, context, env, safe);
    attempts, gates := work.attempts, work.gates;
    trace := TraceOf(visit, result, work.phase, work.cancelled, work.calls);
    JudgementIsReported(visit, step, context, env, result, attempts, work.phase, work.cancelled, work.calls);
    outcome := Judge(visit, step, result, attempts);
  }

  lemma FirstTurn(steps: seq<Step>, stepRuns: seq<StepRun>)
    requires steps != [] && |stepRuns| == |steps|
    requires forall i :: 0 <= i < |steps| ==> stepRuns[i] == StepRun(steps[i].id, StepStatus.Pending, [], None, None)
    ensures AtTurn(steps, [], 0, stepRuns, [])
  {
  }

  /** A success takes a possible branch, which leads on, and the story gains a leg. */
  lemma SuccessGoesOn(steps: seq<Step>, legs: seq<Leg>, done: seq<nat>, index: nat, inputs: Json, outputs: seq<Field>, env: Env,
                      calls: seq<Answer>, result: (Json, Option<string>))
    requires ValidSteps(steps) && index < |steps| && IsPath(steps, done + [index]) && Tells(legs, done)
    requires Story(steps, legs, index, inputs, outputs, env)
    requires Earned(steps[index], Context(inputs, outputs), env, calls, result)
    ensures PossibleBranch(steps[index], result.1) && NextIndex(steps, index, result.1).Some?
    ensures Story(steps, legs + [Leg(index, calls, result.1)], NextIndex(steps, index, result.1).value, inputs,
                  Put(outputs, steps[index].id, result.0), env)
    ensures Tells(legs + [Leg(index, calls, result.1)], done + [index])
  {
    EarnedBranch(steps[index], Context(inputs, outputs), env, calls, result);
    RunnerFollowsEdges(steps, index, result.1);
    StoryGoesOn(steps, legs, done, index, NextIndex(steps, index, result.1).value, inputs, outputs, env,
                Leg(index, calls, result.1), result.0);
  }

  /** A success whose record is too large is reported as such. */
  lemma HistoryLimitIsReported(step: Step, context: Json, env: Env, visit: Visit, outcome: StepResult, trace: Trace)
    requires outcome.Ok? && !visit.historyFits && FollowsScript(step, context, env, visit, outcome)
    ensures Accounted(step, HISTORY_LIMIT, trace) && FollowsScript(step, context, env, visit, Err(HISTORY_LIMIT))
  {
    UncertainIsNotCancelled();
  }

    /** How far a run got: the turns that went on, the steps marked as running, the works started,
      and the error that ended the last step. */
  datatype Progress = Progress(turns: nat, begun: nat, performed: nat, cause: Option<AppError>)

  /** This visit was the last one. */
  ghost predicate LastOf(visit: Visit, steps: seq<Step>, at: nat, done: seq<nat>, context: Json, env: Env, p: Progress,
                         r: Result<(), AppError>, status: RunStatus, error: Option<string>)
  {
    at < |steps| && LastTurn(visit, steps[at], context, env, p.begun > p.turns, p.performed > p.turns, at in done, r, status, error, p.cause)
  }

  /** Every turn but the last went on, and the last one is explained; a run that is not stopped
      reaches the end. */
  ghost predicate AllWent(visits: seq<Visit>, steps: seq<Step>, at: nat, done: seq<nat>, context: Json, env: Env, p: Progress,
                          r: Result<(), AppError>, status: RunStatus, error: Option<string>)
  {
    && (forall k :: 0 <= k < p.turns && k < |visits| ==> Completed(visits[k]))
    && (if at < |steps| then p.turns < |visits| && LastOf(visits[p.turns], steps, at, done, context, env, p, r, status, error)
        else r == Ok(()) && status == RunStatus.Succeeded)
  }

  /** A run with nothing in its way, whose work is always answered with a success, succeeds. */
  lemma UndisturbedRunSucceeds(visits: seq<Visit>, steps: seq<Step>, at: nat, done: seq<nat>, context: Json, env: Env, p: Progress,
                               r: Result<(), AppError>, status: RunStatus, error: Option<string>)
    requires AllWent(visits, steps, at, done, context, env, p, r, status, error)
    requires forall k :: 0 <= k < |visits| ==> Completed(visits[k])
    requires at < |steps| ==> Supplied(steps[at], context, env, visits[p.turns].script)
    ensures r == Ok(()) && status == RunStatus.Succeeded && at >= |steps|
  {
    if at < |steps| {
      SuppliedTurnIsNotLast(visits[p.turns], steps[at], context, env, p.begun > p.turns, p.performed > p.turns, at in done, r,
                            status, error, p.cause);
    }
  }

  /** A run that ends as cancelled without an error was told to stop by the heartbeat of its last
      turn, before that turn began a step. */
  lemma CancelledWasAsked(visits: seq<Visit>, steps: seq<Step>, at: nat, done: seq<nat>, context: Json, env: Env, p: Progress,
                          error: Option<string>)
    requires AllWent(visits, steps, at, done, context, env, p, Ok(()), RunStatus.Cancelled, error) && error.None?
    ensures p.turns < |visits| && visits[p.turns].heartbeat == Ok(true) && p.begun <= p.turns
  {
  }

  class FlowRun {
    const steps: seq<Step>
    const inputs: Json
    var stepRuns: seq<StepRun>
    var outputs: seq<Field>
    var status: RunStatus
    var error: Option<string>
    ghost var done: seq<nat>
    ghost var at: nat
    /** What was observed of the last step executed, and the error that ended it. */
    ghost var trace: Trace
    ghost var cause: Option<AppError>
    /** How many turns went on, how many steps were marked as running, and for how many the work
        started. */
    ghost var turns: nat
    ghost var begun: nat
    ghost var performed: nat
    /** The writes that opened the calls handed to the executor, over the whole run. */
    ghost var handed: seq<Answer>
    /** The answered calls and the branch of every succeeded step. */
    ghost var legs: seq<Leg>

    ghost predicate Started()
      reads this
    {
      && status == RunStatus.Running && error.None? && outputs == [] && done == [] && legs == [] && at == 0 && !trace.unanswered
      && turns == 0 && begun == 0 && performed == 0 && handed == []
      && |stepRuns| == |steps|
      && forall i :: 0 <= i < |steps| ==> stepRuns[i] == StepRun(steps[i].id, StepStatus.Pending, [], None, None)
    }

    constructor (steps: seq<Step>, inputs: Json)
      ensures this.steps == steps && this.inputs == inputs && Started()
    {
      this.steps, this.inputs, status, error, outputs := steps, inputs, RunStatus.Running, None, [];
      turns, begun, performed, handed, done, legs, at := 0, 0, 0, [], [], [], 0;
      trace, cause := Trace(DeadlinePassed, false, false, false, {}, []), None;
      stepRuns := seq(|steps|, i requires 0 <= i < |steps| => StepRun(steps[i].id, StepStatus.Pending, [], None, None));
    }

    /** Performs one step and judges its outcome. */
    method Perform(index: nat, visit: Visit, env: Env) returns (outcome: StepResult)
      requires AtStep(steps, done, index, stepRuns, outputs) && index !in done
      requires stepRuns[index].attempts == []
      requires exists safe :: Prepared(steps[index], Context(inputs, outputs), safe)
      modifies this`stepRuns, this`trace, this`performed, this`handed
      ensures AtStep(steps, done, index, stepRuns, outputs)
      ensures stepRuns[index] == old(stepRuns[index]).(attempts := stepRuns[index].attempts)
      ensures outcome.Ok? ==> Earned(steps[index], Context(inputs, outputs), env, trace.calls, outcome.value) && visit.historyFits
      ensures outcome.Ok? && steps[index].node.Action? ==>
                CompletedActionOutput(steps[index], stepRuns[index].attempts) == Some(outcome.value.0)
      ensures trace.unanswered ==> outcome == Err(UNCERTAIN)
      ensures outcome.Err? ==> Accounted(steps[index], outcome.error, trace)
      ensures AnswerKept(steps[index], trace.calls, trace.faults, trace.interrupt, outcome)
              || (outcome == Err(HISTORY_LIMIT) && !visit.historyFits)
      ensures FollowsScript(steps[index], Context(inputs, outputs), env, visit, outcome)
      ensures trace.interrupt == visit.interrupt && performed == old(performed) + 1
      ensures |trace.calls| <= |handed| - |old(handed)| <= |trace.calls| + 1 && HandsOver(old(handed), handed, visit)
    {
      ghost var safe :| Prepared(steps[index], Context(inputs, outputs), safe);
      PendingIsNotDone(steps, done, index, stepRuns);
      performed := performed + 1;
      var attempts;
      ghost var gates;
      outcome, attempts, trace, gates := Observe(steps[index], Context(inputs, outputs), env, visit, safe);
      handed := handed + gates;
      StepRecorded(steps, done, index, stepRuns, outputs, stepRuns[index].(attempts := attempts));
      stepRuns := stepRuns[index := stepRuns[index].(attempts := attempts)];
      if outcome.Ok? && !visit.historyFits {
        HistoryLimitIsReported(steps[index], Context(inputs, outputs), env, visit, outcome, trace);
        outcome := Err(HISTORY_LIMIT);
      }
    }

    /** Marks the step and the run as ended by an error. */
    method Fail(index: nat, code: string, detailsFit: bool)
      requires AtStep(steps, done, index, stepRuns, outputs) && index !in done
      modifies this`stepRuns, this`status, this`error
      ensures AtStep(steps, done, index, stepRuns, outputs)
      ensures error == Some(code) && stepRuns[index].error == error && Closed(stepRuns[index])
      ensures (stepRuns[index].status, status) == StatusOf(code)
      ensures stepRuns == old(stepRuns)[index := stepRuns[index]]
      ensures var attempts := old(stepRuns)[index].attempts;
              stepRuns[index].output == if attempts == [] || attempts[|attempts| - 1].output.None? then old(stepRuns)[index].output
                                        else if detailsFit then attempts[|attempts| - 1].output else None
    {
      PendingIsNotDone(steps, done, index, stepRuns);
      var (stepStatus, runStatus) := StatusOf(code);
      var attempts := stepRuns[index].attempts;
      var stepRun := stepRuns[index].(status := stepStatus, error := Some(code));
      if attempts != [] {
        var last := attempts[|attempts| - 1];
        if last.output.Some? {
          stepRun := stepRun.(output := if detailsFit then last.output else None);
        }
        if last.Open() {
          stepRun := stepRun.(attempts := attempts[|attempts| - 1 := last.(error := Some(code))]);
        }
      }
      StepRecorded(steps, done, index, stepRuns, outputs, stepRun);
      stepRuns := stepRuns[index := stepRun];
      status, error := runStatus, Some(code);
    }

    /** Marks the step as succeeded and puts its output into the context. */
    method Succeed(index: nat, output: Json)
      requires UniqueIds(steps)
      requires AtStep(steps, done, index, stepRuns, outputs) && index !in done
      requires steps[index].node.Action? ==> CompletedActionOutput(steps[index], stepRuns[index].attempts) == Some(output)
      modifies this`stepRuns, this`outputs, this`done
      ensures done == old(done) + [index] && outputs == Put(old(outputs), steps[index].id, output)
      ensures AfterStep(steps, done, index, stepRuns, outputs)
    {
      PendingIsNotDone(steps, done, index, stepRuns);
      var stepRun := stepRuns[index].(status := StepStatus.Succeeded, output := Some(output));
      StepSucceeds(steps, done, index, stepRuns, outputs, stepRun);
      OutputJoins(steps, done, index, stepRuns, outputs, stepRun, output);
      stepRuns := stepRuns[index := stepRun];
      outputs := Put(outputs, steps[index].id, output);
      done := done + [index];
    }

    /** Marks the steps jumped over as skipped. */
    method SkipTo(index: nat, next: nat)
      requires AfterStep(steps, done, index, stepRuns, outputs) && index < next <= |steps|
      requires next < |steps| ==> Edge(steps, index, next)
      modifies this`stepRuns
      ensures AtTurn(steps, done, next, stepRuns, outputs)
    {
      ghost var before := stepRuns;
      for i := index + 1 to next
        invariant |stepRuns| == |steps|
        invariant forall k :: 0 <= k < |steps| ==>
                    stepRuns[k] == if index < k < i then before[k].(status := StepStatus.Skipped) else before[k]
      {
        stepRuns := stepRuns[i := stepRuns[i].(status := StepStatus.Skipped)];
      }
      TurnEnds(steps, done, index, next, before, stepRuns, outputs);
    }

    /** Marks the step as running. */
    method Begin(index: nat)
      requires ValidSteps(steps) && index < |steps| && AtTurn(steps, done, index, stepRuns, outputs)
      modifies this`stepRuns
      ensures AtStep(steps, done, index, stepRuns, outputs) && index !in done
      ensures stepRuns[index].attempts == [] && stepRuns[index].status == StepStatus.Running
      ensures exists safe :: Prepared(steps[index], Context(inputs, outputs), safe)
    {
      TurnIsPrepared(steps, done, index, stepRuns, inputs, outputs);
      PendingIsNotDone(steps, done, index, stepRuns);
      var stepRun := stepRuns[index].(status := StepStatus.Running);
      StepStarts(steps, done, index, stepRuns, outputs, stepRun);
      stepRuns := stepRuns[index := stepRun];
    }

    /** Moves on from a succeeded step. */
    method HandOver(index: nat, branch: Option<string>) returns (next: nat)
      requires ValidSteps(steps) && AfterStep(steps, done, index, stepRuns, outputs)
      requires PossibleBranch(steps[index], branch)
      modifies this`stepRuns
      ensures index < next <= |steps| && NextIndex(steps, index, branch) == Some(next)
      ensures AtTurn(steps, done, next, stepRuns, outputs)
    {
      RunnerFollowsEdges(steps, index, branch);
      next := NextIndex(steps, index, branch).value;
      SkipTo(index, next);
    }

    /** The run so far is a story of its succeeded steps in the present context. */
    ghost predicate Told(env: Env)
      reads this
    {
      Tells(legs, done) && Story(steps, legs, at, inputs, outputs, env)
    }

    /** The runner is between two turns and the run goes on. */
    ghost predicate Going(env: Env)
      reads this
    {
      && AtTurn(steps, done, at, stepRuns, outputs)
      && Told(env) && turns == performed == begun
      && status == RunStatus.Running && error.None? && !trace.unanswered
    }

    ghost predicate Ended(r: Result<(), AppError>, env: Env)
      reads this
    {
      && (r.Ok? ==> Told(env))
      && RunEnd(steps, done, at, stepRuns, outputs, status, error, trace.unanswered, r)
      && (r.Ok? && error.Some? ==>
            at < |steps| && cause.Some? && Accounted(steps[at], cause.value, trace) && error == Some(ErrorCode(cause.value)))
    }

    ghost function Reached(): Progress
      reads this
    {
      Progress(turns, begun, performed, cause)
    }

    /** The beginning of a turn: stop if asked to, otherwise mark the step as running. */
    method Enter(index: nat, visit: Visit, ghost env: Env) returns (end: Option<Result<(), AppError>>)
      requires ValidSteps(steps) && Going(env) && index == at < |steps|
      modifies this`stepRuns, this`status, this`begun
      ensures end.None? ==>
                && AtStep(steps, done, index, stepRuns, outputs) && index !in done && stepRuns[index].attempts == []
                && status == RunStatus.Running && Told(env)
                && exists safe :: Prepared(steps[index], Context(inputs, outputs), safe)
      ensures end.None? <==> visit.heartbeat == Ok(false) && visit.begun.Ok?
      ensures end.Some? ==> Ended(end.value, env)
      ensures end.Some? ==>
                LastTurn(visit, steps[at], Context(inputs, outputs), env, begun > old(begun), false, false, end.value, status, error, cause)
      ensures old(begun) <= begun <= old(begun) + 1 && (end.None? ==> begun == old(begun) + 1)
    {
      if visit.heartbeat.Err? {
        end := Some(Err(visit.heartbeat.error));
        EndsBetweenSteps(steps, done, at, stepRuns, outputs, status, end.value);
        return;
      }
      if visit.heartbeat.value {
        status := RunStatus.Cancelled;
        end := Some(Ok(()));
        EndsBetweenSteps(steps, done, at, stepRuns, outputs, status, end.value);
        return;
      }
      begun := begun + 1;
      Begin(index);
      if visit.begun.Err? {
        end := Some(Err(visit.begun.error));
        EndsAtStep(steps, done, at, stepRuns, outputs, status, error, trace.unanswered, end.value);
        return;
      }
      end := None;
    }

    /** One turn: begin the step, perform it, and move on if it succeeded. */
    method TakeTurn(index: nat, visit: Visit, env: Env) returns (end: Option<Result<(), AppError>>, next: nat)
      requires ValidSteps(steps) && Going(env) && index == at < |steps|
      modifies this
      ensures end.None? ==> Going(env) && at == next && index < next
      ensures end.Some? ==> Ended(end.value, env)
      ensures old(begun) <= performed <= begun <= old(begun) + 1
      ensures end.None? ==> Completed(visit) && turns == old(turns) + 1
      ensures end.Some? ==> at == index && turns == old(turns) && LastOf(visit, steps, at, done, Context(inputs, outputs), env, Reached(), end.value, status, error)
      ensures HandsOver(old(handed), handed, visit)
    {
      next := index;
      end := Enter(index, visit, env);
      if end.Some? {
        return;
      }
      end, next := CarryOut(index, visit, env);
    }

    /** The rest of a turn: perform the step that was begun and record the outcome. */
    method CarryOut(index: nat, visit: Visit, env: Env) returns (end: Option<Result<(), AppError>>, next: nat)
      requires ValidSteps(steps) && AtStep(steps, done, index, stepRuns, outputs) && index !in done && index == at
      requires status == RunStatus.Running && error.None? && Told(env) && turns == performed && performed + 1 == begun && !trace.unanswered
      requires visit.heartbeat == Ok(false) && visit.begun.Ok?
      requires stepRuns[index].attempts == []
      requires exists safe :: Prepared(steps[index], Context(inputs, outputs), safe)
      modifies this
      ensures end.None? ==> Going(env) && at == next && index < next
      ensures end.Some? ==> Ended(end.value, env)
      ensures begun == old(begun) && performed == old(performed) + 1
      ensures end.None? ==> Completed(visit) && turns == old(turns) + 1
      ensures end.Some? ==> at == index && turns == old(turns) && LastOf(visit, steps, at, done, Context(inputs, outputs), env, Reached(), end.value, status, error)
      ensures HandsOver(old(handed), handed, visit)
    {
      var outcome := Perform(index, visit, env);
      end, next := Conclude(index, visit, outcome, env);
    }

    /** Records the outcome of a step: a failure ends the run, a success moves on. */
    method Conclude(index: nat, visit: Visit, outcome: StepResult, ghost env: Env) returns (end: Option<Result<(), AppError>>, next: nat)
      requires ValidSteps(steps) && AtStep(steps, done, index, stepRuns, outputs) && index !in done && index == at
      requires status == RunStatus.Running && error.None? && Told(env) && performed == begun == turns + 1
      requires outcome.Ok? ==>
                 !trace.unanswered && visit.historyFits && Earned(steps[index], Context(inputs, outputs), env, trace.calls, outcome.value)
      requires outcome.Ok? && steps[index].node.Action? ==>
                 CompletedActionOutput(steps[index], stepRuns[index].attempts) == Some(outcome.value.0)
      requires trace.unanswered ==> outcome == Err(UNCERTAIN)
      requires outcome.Err? ==> Accounted(steps[index], outcome.error, trace)
      requires visit.heartbeat == Ok(false) && visit.begun.Ok?
      requires FollowsScript(steps[index], Context(inputs, outputs), env, visit, outcome)
      modifies this`stepRuns, this`outputs, this`status, this`error, this`done, this`at, this`legs, this`turns, this`cause
      ensures end.None? ==> Completed(visit) && turns == old(turns) + 1
      ensures end.Some? ==> at == index && turns == old(turns) && LastOf(visit, steps, at, done, Context(inputs, outputs), env, Reached(), end.value, status, error)
      ensures end.None? ==> Going(env) && at == next && index < next
      ensures end.Some? ==> Ended(end.value, env)
    {
      next := index;
      if outcome.Err? {
        Fail(index, ErrorCode(outcome.error), visit.detailsFit);
        cause := Some(outcome.error);
        end := Some(Ok(()));
        EndsAtStep(steps, done, at, stepRuns, outputs, status, error, trace.unanswered, end.value);
        return;
      }
      end, next := Advance(index, visit, outcome.value, env);
    }

    /** Records a success and moves on. */
    method Advance(index: nat, visit: Visit, result: (Json, Option<string>), ghost env: Env)
      returns (end: Option<Result<(), AppError>>, next: nat)
      requires ValidSteps(steps) && AtStep(steps, done, index, stepRuns, outputs) && index !in done && index == at
      requires status == RunStatus.Running && error.None? && Told(env) && performed == begun == turns + 1 && !trace.unanswered
      requires Earned(steps[index], Context(inputs, outputs), env, trace.calls, result)
      requires steps[index].node.Action? ==> CompletedActionOutput(steps[index], stepRuns[index].attempts) == Some(result.0)
      modifies this`stepRuns, this`outputs, this`done, this`at, this`legs, this`turns
      ensures end.None? ==> Going(env) && at == next && index < next && visit.saved.Ok? && turns == old(turns) + 1
      ensures end.Some? ==> Ended(end.value, env) && visit.saved.Err? && end.value == Err(visit.saved.error)
      ensures end.Some? ==> at == index && turns == old(turns) && at in done
    {
      next := index;
      SuccessGoesOn(steps, legs, done, index, inputs, outputs, env, trace.calls, result);
      Succeed(index, result.0);
      if visit.saved.Err? {
        end := Some(Err(visit.saved.error));
        EndsAfterStep(steps, done, at, stepRuns, outputs, end.value);
        return;
      }
      next := HandOver(index, result.1);
      legs, turns := legs + [Leg(index, trace.calls, result.1)], turns + 1;
      at := next;
      end := None;
    }

    /** Runs the steps of a validated flow. */
    method Execute(visits: seq<Visit>, env: Env) returns (r: Result<(), AppError>)
      requires ValidSteps(steps) && Started() && |visits| >= |steps|
      modifies this
      ensures Ended(r, env)
      ensures AllWent(visits, steps, at, done, Context(inputs, outputs), env, Reached(), r, status, error)
      ensures Permitted(visits, begun, performed) && HandedInTurns(visits, handed)
    {
      var index, turn := 0, 0;
      FirstTurn(steps, stepRuns);
      while index < |steps|
        invariant turn <= index <= |steps| && at == index
        invariant Going(env)
        invariant turns == turn && Permitted(visits, begun, performed)
        invariant forall k :: 0 <= k < turns ==> Completed(visits[k])
        invariant HandedInTurns(visits, handed)
        decreases |steps| - index
      {
        var end, next := TakeTurn(index, visits[turn], env);
        if end.Some? {
          return end.value;
        }
        index, turn := next, turn + 1;
      }
      status := RunStatus.Succeeded;
      EndsBetweenSteps(steps, done, at, stepRuns, outputs, status, Ok(()));
      return Ok(());
    }

    /** Marks the steps never reached as skipped. */
    method Sweep()
      modifies this`stepRuns
      ensures |stepRuns| == |old(stepRuns)|
      ensures forall k :: 0 <= k < |stepRuns| ==>
                stepRuns[k] == if old(stepRuns)[k].status == StepStatus.Pending
                               then old(stepRuns)[k].(status := StepStatus.Skipped) else old(stepRuns)[k]
    {
      ghost var before := stepRuns;
      for i := 0 to |stepRuns|
        invariant |stepRuns| == |before|
        invariant forall k :: 0 <= k < |before| ==>
                    stepRuns[k] == if k < i && before[k].status == StepStatus.Pending
                                   then before[k].(status := StepStatus.Skipped) else before[k]
      {
        if stepRuns[i].status == StepStatus.Pending {
          stepRuns := stepRuns[i := stepRuns[i].(status := StepStatus.Skipped)];
        }
      }
    }

    /** The whole life of a started run: execute it, then mark what was never reached. */
    method RunToEnd(visits: seq<Visit>, env: Env) returns (lost: bool, ghost ended: Result<(), AppError>)
      requires ValidSteps(steps) && Started() && |visits| >= |steps|
      modifies this
      ensures FinalState(steps, done, at, stepRuns, outputs, status, error, lost)
      ensures trace.unanswered ==> status == RunStatus.Failed && error == Some("FLOW_OUTCOME_UNCERTAIN")
      ensures !lost && error.Some? ==>
                at < |steps| && cause.Some? && Accounted(steps[at], cause.value, trace) && error == Some(ErrorCode(cause.value))
      ensures lost == ended.Err? && (lost ==> error == Some(ErrorCode(ended.error)))
      ensures AllWent(visits, steps, at, done, Context(inputs, outputs), env, Reached(), ended, if lost then RunStatus.Running else status,
                      if lost then None else error)
      ensures Permitted(visits, begun, performed) && HandedInTurns(visits, handed)
      ensures !lost ==> Tale(steps, done, at, stepRuns, legs, inputs, outputs, env)
    {
      var r := Execute(visits, env);
      lost, ended := r.Err?, r;
      ghost var was := (status, error);
      if r.Err? {
        status, error := RunStatus.Failed, Some(ErrorCode(r.error));
      }
      ghost var before := stepRuns;
      Sweep();
      SweepEnds(steps, done, at, before, stepRuns, outputs, was.0, was.1, trace.unanswered, r);
    }
  }
}
