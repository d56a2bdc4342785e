/** What a run's record says when it is read again: every succeeded step's output and branch
    follow from its answered calls in the context the run ended with. */
module Replay {
  import opened Conditions
  import Errors
  import opened Expressions
  import opened FlowModel
  import opened Pointers
  import ReferenceGraph
  import opened ReferenceSafety
  import opened StepWork
  import opened Validation
  import opened Values

  /** One step of a run that succeeded. */
  datatype Leg = Leg(index: nat, calls: seq<Answer>, branch: Option<string>)

  /** Where the run went after a leg. */
  function After(legs: seq<Leg>, k: nat, at: nat): nat
  {
    if k + 1 < |legs| then legs[k + 1].index else at
  }

  /** The leg's output and branch are earned in this context, and the run took that branch. */
  ghost predicate LegHolds(steps: seq<Step>, legs: seq<Leg>, at: nat, inputs: Json, outputs: seq<Field>, env: Env, k: nat)
    requires k < |legs|
  {
    && legs[k].index < |steps|
    && Get(outputs, steps[legs[k].index].id).Some?
    && Earned(steps[legs[k].index], Context(inputs, outputs), env, legs[k].calls,
              (Get(outputs, steps[legs[k].index].id).value, legs[k].branch))
    && NextIndex(steps, legs[k].index, legs[k].branch) == Some(After(legs, k, at))
  }

  /** The run as a story: it begins at the first step, each leg holds, and the last one leads
      to where the run is. */
  ghost predicate Story(steps: seq<Step>, legs: seq<Leg>, at: nat, inputs: Json, outputs: seq<Field>, env: Env)
  {
    && (legs != [] ==> legs[0].index == 0)
    && (legs == [] ==> at == 0)
    && forall k {:trigger LegHolds(steps, legs, at, inputs, outputs, env, k)} :: 0 <= k < |legs| ==>
         LegHolds(steps, legs, at, inputs, outputs, env, k)
  }

  ghost predicate Tells(legs: seq<Leg>, done: seq<nat>)
  {
    |legs| == |done| && forall k :: 0 <= k < |legs| ==> legs[k].index == done[k]
  }

  /** An earned branch is one the step may return. */
  lemma EarnedBranch(step: Step, context: Json, env: Env, calls: seq<Answer>, result: (Json, Option<string>))
    requires Earned(step, context, env, calls, result)
    ensures PossibleBranch(step, result.1)
  {
  }

  // ---------- what a success of a poll or wait means ----------

  /** The predicate, if there is one, holds or fails on this answer. */
  predicate Says(p: Predicate, context: Json, output: Json, env: Env, held: bool)
  {
    Holds(p, WithProbe(context, output), env.render) == Ok(held)
  }

  /** A probe of a wait that decided nothing: neither predicate holds, or the error is transient
      and the policy retries. */
  predicate Inconclusive(step: Step, context: Json, env: Env, returned: Result<Json, Errors.AppError>)
    requires step.node.WaitUntil?
  {
    match returned
    case Ok(output) =>
      && Says(step.node.successWhen, context, output, env, false)
      && (step.node.failureWhen.Some? ==> Says(step.node.failureWhen.value, context, output, env, false))
    case Err(error) => step.node.policy.RetryTransientErrors? && Errors.Transient(error)
  }

  lemma AgainMeansInconclusive(step: Step, context: Json, env: Env, number: nat, returned: Result<Json, Errors.AppError>)
    requires step.node.WaitUntil?
    ensures Decide(step, context, env, number, returned) == Again <==> Inconclusive(step, context, env, returned)
  {
    if returned.Err? && Errors.Transient(returned.error) {
      TransientIsNotDefinite(returned.error);
    }
  }

  /** A wait succeeds exactly when its last probe succeeded, failure does not hold on it and
      success does, and every earlier probe was inconclusive. */
  lemma WaitSuccessMeans(step: Step, context: Json, env: Env, calls: seq<Answer>, result: (Json, Option<string>))
    requires step.node.WaitUntil?
    ensures Earned(step, context, env, calls, result) <==>
            && calls != []
            && (forall k :: 0 <= k < |calls| - 1 ==> Inconclusive(step, context, env, calls[k].returned))
            && var last := calls[|calls| - 1].returned;
               && last.Ok?
               && Says(step.node.successWhen, context, last.value, env, true)
               && (step.node.failureWhen.Some? ==> Says(step.node.failureWhen.value, context, last.value, env, false))
               && result == (WaitResult(last.value, |calls|, env.clock(step.id, |calls|)), None)
  {
    forall k | 0 <= k < |calls|
      ensures Decide(step, context, env, k + 1, calls[k].returned) == Again <==> Inconclusive(step, context, env, calls[k].returned)
    {
      AgainMeansInconclusive(step, context, env, k + 1, calls[k].returned);
    }
  }

  /** A poll succeeds exactly when no probe failed and the last one is the first that holds. */
  lemma PollSuccessMeans(step: Step, context: Json, env: Env, calls: seq<Answer>, result: (Json, Option<string>))
    requires step.node.Poll?
    ensures Earned(step, context, env, calls, result) <==>
            && calls != []
            && (forall k :: 0 <= k < |calls| ==>
                  calls[k].returned.Ok? && Says(step.node.until, context, calls[k].returned.value, env, k == |calls| - 1))
            && result == (calls[|calls| - 1].returned.value, None)
  {
    forall k | 0 <= k < |calls|
      ensures Decide(step, context, env, k + 1, calls[k].returned) == Again <==>
              calls[k].returned.Ok? && Says(step.node.until, context, calls[k].returned.value, env, false)
    {
    }
  }

  /** How a probe of a wait fails the step: its error is not retried, the failure predicate holds
      on its output, or a predicate that is asked has an error of its own. */
  predicate WaitProbeFails(step: Step, context: Json, env: Env, returned: Result<Json, Errors.AppError>, error: Errors.AppError)
    requires step.node.WaitUntil?
  {
    match returned
    case Err(e) => e == error && !(step.node.policy.RetryTransientErrors? && Errors.Transient(e))
    case Ok(output) =>
      || (step.node.failureWhen.Some? &&
            (|| (Says(step.node.failureWhen.value, context, output, env, true) && error == FAILURE_CONDITION)
             || Holds(step.node.failureWhen.value, WithProbe(context, output), env.render) == Err(error)))
      || ((step.node.failureWhen.Some? ==> Says(step.node.failureWhen.value, context, output, env, false))
          && Holds(step.node.successWhen, WithProbe(context, output), env.render) == Err(error))
  }

  /** A probe of a wait fails the step exactly in these ways. */
  lemma WaitFailureMeans(step: Step, context: Json, env: Env, number: nat, returned: Result<Json, Errors.AppError>, error: Errors.AppError)
    requires step.node.WaitUntil?
    ensures Decide(step, context, env, number, returned) == Finish(Err(error)) <==> WaitProbeFails(step, context, env, returned, error)
  {
    if returned.Err? && Errors.Transient(returned.error) {
      TransientIsNotDefinite(returned.error);
    }
  }

  /** A probe of a poll fails the step exactly with its own error or with that of the predicate. */
  lemma PollFailureMeans(step: Step, context: Json, env: Env, number: nat, returned: Result<Json, Errors.AppError>, error: Errors.AppError)
    requires step.node.Poll?
    ensures Decide(step, context, env, number, returned) == Finish(Err(error)) <==>
            || returned == Err(error)
            || (returned.Ok? && Holds(step.node.until, WithProbe(context, returned.value), env.render) == Err(error))
  {
  }

  // ---------- where a condition leads ----------

  /** In the story of a run a condition led to the step its predicate chose in the context the run
      ended with, or to the end if it chose that. */
  lemma ConditionTakesItsBranch(steps: seq<Step>, legs: seq<Leg>, at: nat, inputs: Json, outputs: seq<Field>, env: Env, k: nat)
    requires ValidSteps(steps) && k < |legs| && LegHolds(steps, legs, at, inputs, outputs, env, k)
    requires steps[legs[k].index].node.Condition?
    ensures var node := steps[legs[k].index].node;
            var held := Holds(node.test, Context(inputs, outputs), env.render);
            var next := After(legs, k, at);
            && held.Ok?
            && var target := if held.value then node.ifTrue else node.ifFalse;
               if target == "$end" then next == |steps|
               else legs[k].index < next < |steps| && steps[next].id == target
  {
    EarnedBranch(steps[legs[k].index], Context(inputs, outputs), env, legs[k].calls,
                 (Get(outputs, steps[legs[k].index].id).value, legs[k].branch));
    NextIsTheTarget(steps, legs[k].index, legs[k].branch);
  }

  // ---------- a step reads no more than its upstream ----------

  lemma CheckedPredicateIsConfined(p: Predicate, one: Json, two: Json, safe: set<string>, probe: bool, render: Json -> string)
    requires Check(PredicateValue(p), safe, probe).Ok?
    requires Agree(one, two, safe, probe)
    ensures Holds(p, one, render) == Holds(p, two, render)
  {
    var fields := PredicateValue(p).fields;
    NoReferenceKey(p);
    assert fields[1..][1..] == [Field("right", p.right)];
    assert Check(p.left, safe, probe).Ok?;
    assert CheckFields(fields[1..], safe, probe).Ok?;
    assert CheckFields(fields[1..][1..], safe, probe).Ok?;
    assert Check(p.right, safe, probe).Ok?;
    CheckedExpressionIsConfined(p.left, one, two, safe, probe, render);
    CheckedExpressionIsConfined(p.right, one, two, safe, probe, render);
  }

  lemma ProbesAgree(one: Json, two: Json, output: Json, safe: set<string>)
    requires one.Obj? && two.Obj? && Agree(one, two, safe, false)
    ensures Agree(WithProbe(one, output), WithProbe(two, output), safe, true)
  {
    ProbeKeeps(one, output, safe);
    ProbeKeeps(two, output, safe);
  }

  lemma ProbeKeeps(context: Json, output: Json, safe: set<string>)
    requires context.Obj?
    ensures var probed := WithProbe(context, output);
            && Walk(probed, ["inputs"]) == Walk(context, ["inputs"])
            && Walk(probed, ["probe"]) == Some(output)
            && forall id :: Walk(probed, ["steps", id]) == Walk(context, ["steps", id])
  {
    var probed := WithProbe(context, output);
    GetPut(context.fields, "probe", output, "inputs");
    GetPut(context.fields, "probe", output, "steps");
    GetPut(context.fields, "probe", output, "probe");
    assert Child(probed, "inputs") == Child(context, "inputs");
    assert Walk(output, ["probe"][1..]) == Some(output);
    assert Child(probed, "steps") == Child(context, "steps");
  }

  lemma ProbedPredicateIsConfined(p: Predicate, one: Json, two: Json, output: Json, safe: set<string>, render: Json -> string)
    requires Check(PredicateValue(p), safe, true).Ok?
    requires one.Obj? && two.Obj? && Agree(one, two, safe, false)
    ensures Holds(p, WithProbe(one, output), render) == Holds(p, WithProbe(two, output), render)
  {
    ProbesAgree(one, two, output, safe);
    CheckedPredicateIsConfined(p, WithProbe(one, output), WithProbe(two, output), safe, true, render);
  }

  lemma PollIsConfined(step: Step, one: Json, two: Json, env: Env, safe: set<string>, number: nat, output: Json)
    requires step.node.Poll? && CheckReferences(step, safe).Ok?
    requires one.Obj? && two.Obj? && Agree(one, two, safe, false)
    ensures Decide(step, one, env, number, Ok(output)) == Decide(step, two, env, number, Ok(output))
  {
    ProbedPredicateIsConfined(step.node.until, one, two, output, safe, env.render);
  }

  lemma WaitIsConfined(step: Step, one: Json, two: Json, env: Env, safe: set<string>, number: nat, output: Json)
    requires step.node.WaitUntil? && CheckReferences(step, safe).Ok?
    requires one.Obj? && two.Obj? && Agree(one, two, safe, false)
    ensures Decide(step, one, env, number, Ok(output)) == Decide(step, two, env, number, Ok(output))
  {
    ProbedPredicateIsConfined(step.node.successWhen, one, two, output, safe, env.render);
    if step.node.failureWhen.Some? {
      ProbedPredicateIsConfined(step.node.failureWhen.value, one, two, output, safe, env.render);
    }
  }

  lemma DecideIsConfined(step: Step, one: Json, two: Json, env: Env, safe: set<string>, number: nat, returned: Result<Json, Errors.AppError>)
    requires step.node.Poll? || step.node.WaitUntil?
    requires CheckReferences(step, safe).Ok?
    requires one.Obj? && two.Obj? && Agree(one, two, safe, false)
    ensures Decide(step, one, env, number, returned) == Decide(step, two, env, number, returned)
  {
    if returned.Ok? {
      if step.node.Poll? {
        PollIsConfined(step, one, two, env, safe, number, returned.value);
      } else {
        WaitIsConfined(step, one, two, env, safe, number, returned.value);
      }
    }
  }

  /** What a step earns depends only on the inputs and the outputs of its upstream. */
  lemma EarnedIsConfined(step: Step, one: Json, two: Json, env: Env, safe: set<string>, calls: seq<Answer>,
                         result: (Json, Option<string>))
    requires CheckReferences(step, safe).Ok?
    requires one.Obj? && two.Obj? && Agree(one, two, safe, false)
    requires Earned(step, one, env, calls, result)
    ensures Earned(step, two, env, calls, result)
  {
    if step.node.Condition? {
      CheckedPredicateIsConfined(step.node.test, one, two, safe, false, env.render);
    } else if step.node.Poll? || step.node.WaitUntil? {
      forall k | 0 <= k < |calls|
        ensures Decide(step, one, env, k + 1, calls[k].returned) == Decide(step, two, env, k + 1, calls[k].returned)
      {
        DecideIsConfined(step, one, two, env, safe, k + 1, calls[k].returned);
      }
    }
  }

  // ---------- the story goes on ----------

  lemma UpstreamIsEarlier(steps: seq<Step>, path: seq<nat>, id: string) returns (j: nat)
    requires IsPath(steps, path) && id in Upstream(steps, path[|path| - 1])
    ensures j < |path| - 1 && steps[path[j]].id == id
  {
    UpstreamHasPassed(steps, path);
    PassedAreSteps(steps, path);
    j :| 0 <= j < |path| - 1 && steps[path[j]].id == id;
  }

  /** A later step of a path is not upstream of an earlier one, nor of itself. */
  lemma LaterIsNotUpstream(steps: seq<Step>, path: seq<nat>, k: nat, id: string)
    requires UniqueIds(steps) && IsPath(steps, path) && k < |path|
    requires id == steps[path[|path| - 1]].id
    ensures id !in Upstream(steps, path[k])
  {
    var front := path[..k + 1];
    if id in Upstream(steps, path[k]) {
      assert IsPath(steps, front);
      var j := UpstreamIsEarlier(steps, front, id);
      ReferenceGraph.PathIsIncreasing(steps, path, j, |path| - 1);
    }
  }

  lemma ContextsAgree(steps: seq<Step>, index: nat, inputs: Json, outputs: seq<Field>, id: string, output: Json)
    requires id !in Upstream(steps, index)
    ensures Agree(Context(inputs, outputs), Context(inputs, Put(outputs, id, output)), Upstream(steps, index), false)
  {
    var one, two := Context(inputs, outputs), Context(inputs, Put(outputs, id, output));
    assert Child(one, "inputs") == Some(inputs) && Child(two, "inputs") == Some(inputs);
    forall other | other in Upstream(steps, index)
      ensures Walk(one, ["steps", other]) == Walk(two, ["steps", other])
    {
      OutputIsSelected(inputs, outputs, other);
      OutputIsSelected(inputs, Put(outputs, id, output), other);
      GetPut(outputs, id, output, other);
    }
  }

  lemma EarnedStays(steps: seq<Step>, index: nat, inputs: Json, outputs: seq<Field>, id: string, output: Json, env: Env,
                    calls: seq<Answer>, result: (Json, Option<string>))
    requires index < |steps| && CheckReferences(steps[index], Upstream(steps, index)).Ok? && id !in Upstream(steps, index)
    requires Earned(steps[index], Context(inputs, outputs), env, calls, result)
    ensures Earned(steps[index], Context(inputs, Put(outputs, id, output)), env, calls, result)
  {
    ContextsAgree(steps, index, inputs, outputs, id, output);
    EarnedIsConfined(steps[index], Context(inputs, outputs), Context(inputs, Put(outputs, id, output)), env,
                     Upstream(steps, index), calls, result);
  }

  /** One more leg: the earlier ones still hold in the larger context. */
  lemma StoryGoesOn(steps: seq<Step>, legs: seq<Leg>, done: seq<nat>, index: nat, next: nat, inputs: Json, outputs: seq<Field>,
                    env: Env, leg: Leg, output: Json)
    requires ValidSteps(steps) && index < |steps| && IsPath(steps, done + [index]) && Tells(legs, done)
    requires Story(steps, legs, index, inputs, outputs, env)
    requires leg.index == index
    requires Earned(steps[index], Context(inputs, outputs), env, leg.calls, (output, leg.branch))
    requires NextIndex(steps, index, leg.branch) == Some(next)
    ensures Story(steps, legs + [leg], next, inputs, Put(outputs, steps[index].id, output), env)
    ensures Tells(legs + [leg], done + [index])
  {
    EarlierLegsStay(steps, legs, done, index, next, inputs, outputs, env, leg, output);
    LegIsEarlier(steps, legs, done, index, |legs|);
    NewLegHolds(steps, legs, index, next, inputs, outputs, env, leg, output);
    assert legs == [] ==> (done + [index])[0] == index;
    StoryLengthens(steps, legs, next, inputs, Put(outputs, steps[index].id, output), env, leg);
  }

  lemma StoryLengthens(steps: seq<Step>, legs: seq<Leg>, next: nat, inputs: Json, outputs: seq<Field>, env: Env, leg: Leg)
    requires (if legs == [] then leg else legs[0]).index == 0
    requires forall k {:trigger LegHolds(steps, legs + [leg], next, inputs, outputs, env, k)} :: 0 <= k <= |legs| ==>
               LegHolds(steps, legs + [leg], next, inputs, outputs, env, k)
    ensures Story(steps, legs + [leg], next, inputs, outputs, env)
  {
  }

  lemma EarlierLegsStay(steps: seq<Step>, legs: seq<Leg>, done: seq<nat>, index: nat, next: nat, inputs: Json, outputs: seq<Field>,
                        env: Env, leg: Leg, output: Json)
    requires ValidSteps(steps) && index < |steps| && IsPath(steps, done + [index]) && Tells(legs, done)
    requires Story(steps, legs, index, inputs, outputs, env)
    requires leg.index == index
    ensures forall k {:trigger LegHolds(steps, legs + [leg], next, inputs, Put(outputs, steps[index].id, output), env, k)} ::
              0 <= k < |legs| ==> LegHolds(steps, legs + [leg], next, inputs, Put(outputs, steps[index].id, output), env, k)
  {
    forall k | 0 <= k < |legs|
      ensures LegHolds(steps, legs + [leg], next, inputs, Put(outputs, steps[index].id, output), env, k)
    {
      assert LegHolds(steps, legs, index, inputs, outputs, env, k);
      LegIsEarlier(steps, legs, done, index, k);
      EarlierLegStays(steps, legs, index, next, inputs, outputs, env, leg, output, k);
    }
  }

  /** The new step is not upstream of a leg, nor of itself. */
  lemma LegIsEarlier(steps: seq<Step>, legs: seq<Leg>, done: seq<nat>, index: nat, k: nat)
    requires UniqueIds(steps) && index < |steps| && IsPath(steps, done + [index]) && Tells(legs, done)
    requires k <= |legs|
    ensures var i := if k < |legs| then legs[k].index else index;
            i < |steps| && steps[index].id !in Upstream(steps, i) && (k < |legs| ==> i != index)
  {
    var path := done + [index];
    assert path[|done|] == index && (k < |legs| ==> path[k] == legs[k].index);
    LaterIsNotUpstream(steps, path, k, steps[index].id);
    if k < |legs| {
      ReferenceGraph.PathIsIncreasing(steps, path, k, |done|);
    }
  }

  lemma EarlierLegStays(steps: seq<Step>, legs: seq<Leg>, index: nat, next: nat, inputs: Json, outputs: seq<Field>, env: Env,
                        leg: Leg, output: Json, k: nat)
    requires ValidSteps(steps) && index < |steps| && leg.index == index
    requires k < |legs| && LegHolds(steps, legs, index, inputs, outputs, env, k)
    requires legs[k].index != index && steps[index].id !in Upstream(steps, legs[k].index)
    ensures LegHolds(steps, legs + [leg], next, inputs, Put(outputs, steps[index].id, output), env, k)
  {
    var i := legs[k].index;
    GetPut(outputs, steps[index].id, output, steps[i].id);
    EarnedStays(steps, i, inputs, outputs, steps[index].id, output, env, legs[k].calls,
                (Get(outputs, steps[i].id).value, legs[k].branch));
  }

  lemma NewLegHolds(steps: seq<Step>, legs: seq<Leg>, index: nat, next: nat, inputs: Json, outputs: seq<Field>, env: Env, leg: Leg,
                    output: Json)
    requires ValidSteps(steps) && index < |steps| && leg.index == index
    requires Earned(steps[index], Context(inputs, outputs), env, leg.calls, (output, leg.branch))
    requires NextIndex(steps, index, leg.branch) == Some(next)
    requires steps[index].id !in Upstream(steps, index)
    ensures LegHolds(steps, legs + [leg], next, inputs, Put(outputs, steps[index].id, output), env, |legs|)
  {
    GetPut(outputs, steps[index].id, output, steps[index].id);
    EarnedStays(steps, index, inputs, outputs, steps[index].id, output, env, leg.calls, (output, leg.branch));
  }

  // ---------- the path is determined ----------

  /** Two runs of the same flow that end with the same inputs and outputs agree leg by leg,
      whatever answers they got and however long they waited. */
  lemma {:induction false} LegIsDetermined(steps: seq<Step>, legs: seq<Leg>, at: nat, env: Env, others: seq<Leg>, there: nat, other: Env,
                                           inputs: Json, outputs: seq<Field>, k: nat)
    requires Story(steps, legs, at, inputs, outputs, env) && Story(steps, others, there, inputs, outputs, other)
    requires env.render == other.render
    requires k < |legs| && k < |others|
    ensures legs[k].index == others[k].index && legs[k].branch == others[k].branch
    ensures After(legs, k, at) == After(others, k, there)
  {
    if k > 0 {
      LegIsDetermined(steps, legs, at, env, others, there, other, inputs, outputs, k - 1);
    }
    assert LegHolds(steps, legs, at, inputs, outputs, env, k);
    assert LegHolds(steps, others, there, inputs, outputs, other, k);
    EarnedBranch(steps[legs[k].index], Context(inputs, outputs), env, legs[k].calls,
                 (Get(outputs, steps[legs[k].index].id).value, legs[k].branch));
    EarnedBranch(steps[others[k].index], Context(inputs, outputs), other, others[k].calls,
                 (Get(outputs, steps[others[k].index].id).value, others[k].branch));
  }
}
