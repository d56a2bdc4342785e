/** Validation of a definition's steps, and what it guarantees about edges and references. */
module Validation {
  import opened Errors
  import opened Expressions
  import opened FlowModel
  import opened ReferenceGraph
  import opened Values

  const INVALID_STEP: AppError := Validation("FLOW_INVALID_STEP")
  const INVALID_DEFINITION: AppError := Validation("FLOW_INVALID_DEFINITION")

  predicate IdChar(c: char)
  {
    'a' <= c <= 'z' || 'A' <= c <= 'Z' || '0' <= c <= '9' || c == '_' || c == '-'
  }

  predicate StepShape(step: Step)
  {
    && 0 < |step.id| <= 80
    && (forall c :: c in step.id ==> IdChar(c))
    && 1 <= step.timeoutMs <= 3_600_000
  }

  predicate UniqueIds(steps: seq<Step>)
  {
    forall i, j :: 0 <= i < j < |steps| ==> steps[i].id != steps[j].id
  }

  predicate Forward(steps: seq<Step>, index: nat, target: string)
  {
    target == END || exists j :: index < j < |steps| && steps[j].id == target
  }

  /** The first complaint about the targets and bounds of one step. */
  function CheckStep(steps: seq<Step>, index: nat): Result<(), AppError>
    requires index < |steps|
  {
    var step := steps[index];
    var backward := Err(Invalid("FLOW_BRANCH_MUST_POINT_FORWARD"));
    if step.next.Some? && !Forward(steps, index, step.next.value) then backward
    else
      match step.node
      case Condition(_, ifTrue, ifFalse) =>
        if Forward(steps, index, ifTrue) && Forward(steps, index, ifFalse) then Ok(()) else backward
      case Poll(_, _, interval, attempts) =>
        if 10 <= interval <= 60_000 && 1 <= attempts <= 1000 then Ok(())
        else Err(Invalid("FLOW_INVALID_POLL_BOUNDS"))
      case WaitUntil(watch, _, _, interval, attempts, _) =>
        if !(10 <= interval <= 60_000) || (attempts.Some? && !(1 <= attempts.value <= 1000)) then
          Err(Invalid("FLOW_INVALID_WAIT_UNTIL_BOUNDS"))
        else if watch.capability == Ssh then Err(Invalid("FLOW_SSH_PROBE_UNSUPPORTED"))
        else Ok(())
      case Wait(duration) =>
        if duration >= step.timeoutMs then Err(Invalid("FLOW_WAIT_EXCEEDS_TIMEOUT")) else Ok(())
      case Action(_) => Ok(())
  }

  /** The step at a later index has the id. */
  predicate LeadsForward(steps: seq<Step>, index: nat, target: string)
  {
    target == "$end" || exists j :: index < j < |steps| && steps[j].id == target
  }

  /** A step passes exactly when all its targets lie ahead and its bounds hold: polls and waits
      every 10 ms to 60 s and at most 1000 times, no probe over ssh in a wait, and no pause as
      long as the timeout. */
  lemma StepPassesExactly(steps: seq<Step>, index: nat)
    requires index < |steps|
    ensures var step := steps[index];
            CheckStep(steps, index).Ok? <==>
              && (step.next.Some? ==> LeadsForward(steps, index, step.next.value))
              && (step.node.Condition? ==>
                    LeadsForward(steps, index, step.node.ifTrue) && LeadsForward(steps, index, step.node.ifFalse))
              && (step.node.Poll? ==> 10 <= step.node.pollIntervalMs <= 60_000 && 1 <= step.node.pollAttempts <= 1000)
              && (step.node.WaitUntil? ==>
                    && 10 <= step.node.intervalMs <= 60_000
                    && (step.node.maxAttempts.Some? ==> 1 <= step.node.maxAttempts.value <= 1000)
                    && step.node.watch.capability != Ssh)
              && (step.node.Wait? ==> step.node.durationMs < step.timeoutMs)
  {
    assert forall target :: Forward(steps, index, target) <==> LeadsForward(steps, index, target);
  }

  /** Ids are 1 to 80 letters, digits, underscores or hyphens, and a timeout is at most an hour. */
  lemma ShapePassesExactly(step: Step)
    ensures StepShape(step) <==>
            && 1 <= |step.id| <= 80
            && (forall i :: 0 <= i < |step.id| ==>
                  || 'a' <= step.id[i] <= 'z' || 'A' <= step.id[i] <= 'Z' || '0' <= step.id[i] <= '9'
                  || step.id[i] == '_' || step.id[i] == '-')
            && 1 <= step.timeoutMs <= 60 * 60 * 1000
  {
    assert forall i :: 0 <= i < |step.id| ==> step.id[i] in step.id;
  }

  function OperatorName(op: Operator): string
  {
    match op
    case Eq => "eq" case Ne => "ne" case Gt => "gt" case Ge => "ge"
    case Lt => "lt" case Le => "le" case In => "in"
  }

  /** A predicate as a document. */
  function PredicateValue(p: Predicate): Json
  {
    Obj([Field("left", p.left), Field("op", Str(OperatorName(p.op))), Field("right", p.right)])
  }

  /** The references of one step against the ids that certainly finished before it. */
  function CheckReferences(step: Step, safe: set<string>): Result<(), AppError>
  {
    match step.node
    case Action(action) => Check(action.arguments, safe, false)
    case Condition(test, _, _) => Check(PredicateValue(test), safe, false)
    case Poll(probe, until, _, _) =>
      var arguments := Check(probe.arguments, safe, false);
      if arguments.Err? then arguments else Check(PredicateValue(until), safe, true)
    case WaitUntil(watch, successWhen, failureWhen, _, _, _) =>
      var arguments := Check(watch.arguments, safe, false);
      if arguments.Err? then arguments
      else
        var success := Check(PredicateValue(successWhen), safe, true);
        if success.Err? then success
        else if failureWhen.Some? then Check(PredicateValue(failureWhen.value), safe, true)
        else Ok(())
    case Wait(_) => Ok(())
  }

  /** The references of a step pass exactly when every expression it evaluates passes, the
      predicates of a poll or wait with the probe in sight and the others without. */
  lemma ReferencesPassExactly(step: Step, safe: set<string>)
    ensures CheckReferences(step, safe).Ok? <==>
            && (step.node.Action? ==> Check(step.node.action.arguments, safe, false).Ok?)
            && (step.node.Condition? ==> Check(PredicateValue(step.node.test), safe, false).Ok?)
            && (step.node.Poll? ==>
                  Check(step.node.probe.arguments, safe, false).Ok? && Check(PredicateValue(step.node.until), safe, true).Ok?)
            && (step.node.WaitUntil? ==>
                  && Check(step.node.watch.arguments, safe, false).Ok?
                  && Check(PredicateValue(step.node.successWhen), safe, true).Ok?
                  && (step.node.failureWhen.Some? ==> Check(PredicateValue(step.node.failureWhen.value), safe, true).Ok?))
  {
  }

  /** The ids on every execution path to a step; empty when there is no path. */
  ghost function Upstream(steps: seq<Step>, index: nat): set<string>
  {
    if Reachable(steps, index) then set i | 0 <= i < |steps| && OnEveryPath(steps, steps[i].id, index) :: steps[i].id
    else {}
  }

  ghost predicate ValidSteps(steps: seq<Step>)
  {
    && 0 < |steps| <= 100
    && (forall i {:trigger StepShape(steps[i])} :: 0 <= i < |steps| ==> StepShape(steps[i]))
    && UniqueIds(steps)
    && (forall i {:trigger CheckStep(steps, i)} :: 0 <= i < |steps| ==> CheckStep(steps, i).Ok?)
    && (forall i {:trigger CheckReferences(steps[i], Upstream(steps, i))} :: 0 <= i < |steps| ==>
          CheckReferences(steps[i], Upstream(steps, i)).Ok?)
  }

  lemma {:induction false} PassedAreSteps(steps: seq<Step>, path: seq<nat>)
    requires forall k :: 0 <= k < |path| ==> path[k] < |steps|
    ensures forall id :: id in Passed(steps, path) ==> exists k :: 0 <= k < |path| - 1 && steps[path[k]].id == id
  {
    if |path| >= 2 {
      var front := path[..|path| - 1];
      PassedAreSteps(steps, front);
      forall id | id in Passed(steps, path)
        ensures exists k :: 0 <= k < |path| - 1 && steps[path[k]].id == id
      {
        if id in Passed(steps, front) {
          var k :| 0 <= k < |front| - 1 && steps[front[k]].id == id;
          assert path[k] == front[k];
        } else {
          assert steps[path[|path| - 2]].id == id;
        }
      }
    }
  }

  /** The analysis computes the upstream sets. */
  lemma ExactIsUpstream(steps: seq<Step>, index: nat, safe: set<string>)
    requires Exact(steps, index, safe)
    ensures safe == Upstream(steps, index)
  {
    if Reachable(steps, index) {
      var path :| IsPath(steps, path) && path[|path| - 1] == index;
      PassedAreSteps(steps, path);
      forall id | id in safe
        ensures id in Upstream(steps, index)
      {
        var k :| 0 <= k < |path| - 1 && steps[path[k]].id == id;
        assert OnEveryPath(steps, steps[path[k]].id, index);
      }
    }
  }

  /** The verdicts on the references of each step. */
  ghost predicate Verdicts(steps: seq<Step>, verdicts: seq<Result<(), AppError>>)
  {
    && |verdicts| == |steps|
    && forall i {:trigger CheckReferences(steps[i], Upstream(steps, i))} :: 0 <= i < |steps| ==>
         verdicts[i] == CheckReferences(steps[i], Upstream(steps, i))
  }

  /** The first failing verdict, if there is one. */
  ghost predicate FirstError(verdicts: seq<Result<(), AppError>>, r: Result<(), AppError>)
  {
    if r.Ok? then forall i :: 0 <= i < |verdicts| ==> verdicts[i].Ok?
    else exists i :: 0 <= i < |verdicts| && verdicts[i] == r && forall j :: 0 <= j < i ==> verdicts[j].Ok?
  }

  /** The ids that certainly finished before each step, as the analysis finds them. */
  method UpstreamOfEach(steps: seq<Step>) returns (upstream: seq<set<string>>)
    ensures |upstream| == |steps|
    ensures forall i {:trigger upstream[i]} :: 0 <= i < |steps| ==> upstream[i] == Upstream(steps, i)
  {
    upstream := GuaranteedUpstream(steps);
    forall i | 0 <= i < |steps|
      ensures upstream[i] == Upstream(steps, i)
    {
      ExactIsUpstream(steps, i, upstream[i]);
    }
  }

  /** Checks the references of every step in order. */
  method ValidateReferences(steps: seq<Step>, ghost verdicts: seq<Result<(), AppError>>) returns (r: Result<(), AppError>)
    requires Verdicts(steps, verdicts)
    ensures FirstError(verdicts, r)
  {
    var upstream := UpstreamOfEach(steps);
    for i := 0 to |steps|
      invariant forall j :: 0 <= j < i ==> verdicts[j].Ok?
    {
      r := CheckReferences(steps[i], upstream[i]);
      assert r == verdicts[i];
      if r.Err? {
        return;
      }
    }
    return Ok(());
  }

  ghost predicate WellShaped(steps: seq<Step>)
  {
    (forall i {:trigger StepShape(steps[i])} :: 0 <= i < |steps| ==> StepShape(steps[i])) && UniqueIds(steps)
  }

  ghost predicate FirstStepError(steps: seq<Step>, i: nat, r: Result<(), AppError>)
  {
    i < |steps| && r.Err? && CheckStep(steps, i) == r && forall j :: 0 <= j < i ==> CheckStep(steps, j).Ok?
  }

  ghost predicate FirstReferenceError(steps: seq<Step>, i: nat, r: Result<(), AppError>)
  {
    && i < |steps| && r.Err? && CheckReferences(steps[i], Upstream(steps, i)) == r
    && forall j {:trigger Upstream(steps, j)} :: 0 <= j < i ==> CheckReferences(steps[j], Upstream(steps, j)).Ok?
  }

  /** The error of the first stage that fails, and in it of the first step that fails. */
  ghost predicate FirstStageError(steps: seq<Step>, r: Result<(), AppError>)
  {
    if !(0 < |steps| <= 100) then r == Err(INVALID_DEFINITION)
    else if !WellShaped(steps) then r == Err(INVALID_STEP)
    else if exists i :: 0 <= i < |steps| && CheckStep(steps, i).Err? then exists i :: FirstStepError(steps, i, r)
    else exists i :: FirstReferenceError(steps, i, r)
  }

  method ValidateShapes(steps: seq<Step>) returns (r: Result<(), AppError>)
    ensures r == if WellShaped(steps) then Ok(()) else Err(INVALID_STEP)
  {
    var ids: set<string> := {};
    for i := 0 to |steps|
      invariant forall j :: 0 <= j < i ==> StepShape(steps[j]) && steps[j].id in ids
      invariant forall id :: id in ids ==> exists j :: 0 <= j < i && steps[j].id == id
      invariant forall j, k :: 0 <= j < k < i ==> steps[j].id != steps[k].id
    {
      if !StepShape(steps[i]) || steps[i].id in ids {
        return Err(INVALID_STEP);
      }
      ids := ids + {steps[i].id};
    }
    return Ok(());
  }

  method ValidateTargets(steps: seq<Step>) returns (r: Result<(), AppError>)
    ensures r.Ok? ==> forall i {:trigger CheckStep(steps, i)} :: 0 <= i < |steps| ==> CheckStep(steps, i).Ok?
    ensures r.Err? ==> exists i :: FirstStepError(steps, i, r)
  {
    for i := 0 to |steps|
      invariant forall j :: 0 <= j < i ==> CheckStep(steps, j).Ok?
    {
      r := CheckStep(steps, i);
      if r.Err? {
        assert FirstStepError(steps, i, r);
        return;
      }
    }
    return Ok(());
  }

  /** Validates the steps: shapes and unique ids, then targets and bounds, then references. */
  method ValidateSteps(steps: seq<Step>) returns (r: Result<(), AppError>)
    ensures r.Ok? <==> ValidSteps(steps)
    ensures r.Err? ==> FirstStageError(steps, r)
  {
    if |steps| == 0 || |steps| > 100 {
      return Err(INVALID_DEFINITION);
    }
    r := ValidateShapes(steps);
    if r.Err? {
      return;
    }
    r := ValidateTargets(steps);
    if r.Err? {
      return;
    }
    ghost var verdicts := seq(|steps|, i requires 0 <= i < |steps| => CheckReferences(steps[i], Upstream(steps, i)));
    r := ValidateReferences(steps, verdicts);
    VerdictsDecide(steps, verdicts, r);
  }

  lemma VerdictsDecide(steps: seq<Step>, verdicts: seq<Result<(), AppError>>, r: Result<(), AppError>)
    requires Verdicts(steps, verdicts) && FirstError(verdicts, r)
    ensures r.Ok? <==> forall i {:trigger CheckReferences(steps[i], Upstream(steps, i))} :: 0 <= i < |steps| ==>
                         CheckReferences(steps[i], Upstream(steps, i)).Ok?
    ensures r.Err? ==> exists i :: FirstReferenceError(steps, i, r)
  {
    assert forall i :: 0 <= i < |steps| ==> verdicts[i] == CheckReferences(steps[i], Upstream(steps, i));
    if r.Err? {
      var i :| 0 <= i < |verdicts| && verdicts[i] == r && forall j :: 0 <= j < i ==> verdicts[j].Ok?;
      assert FirstReferenceError(steps, i, r);
    }
  }

  // ---------- where the runner goes next ----------

  /** The runner's next index after a success; `branch` is the target a condition chose. */
  function NextIndex(steps: seq<Step>, index: nat, branch: Option<string>): Option<nat>
    requires index < |steps|
  {
    var target := if branch.Some? then branch else steps[index].next;
    if target.None? then Some(index + 1)
    else if target.value == END then Some(|steps|)
    else Position(steps, target.value)
  }

  /** The branch a step may return: one of its two targets for a condition, none otherwise. */
  predicate PossibleBranch(step: Step, branch: Option<string>)
  {
    if step.node.Condition? then branch == Some(step.node.ifTrue) || branch == Some(step.node.ifFalse)
    else branch.None?
  }

  lemma EndIsNoStep(steps: seq<Step>, i: nat)
    requires i < |steps| && StepShape(steps[i])
    ensures steps[i].id != END
  {
    assert END[0] in END && !IdChar(END[0]);
  }

  lemma UniquePosition(steps: seq<Step>, index: nat)
    requires UniqueIds(steps) && index < |steps|
    ensures Position(steps, steps[index].id) == Some(index)
  {
    PositionIsFirst(steps, steps[index].id, index);
  }

  /** In a validated flow the runner always finds its next index, always moves forward, and
      moves along an edge of the analysis or to the end. */
  lemma RunnerFollowsEdges(steps: seq<Step>, index: nat, branch: Option<string>)
    requires ValidSteps(steps) && index < |steps|
    requires PossibleBranch(steps[index], branch)
    ensures var next := NextIndex(steps, index, branch);
            && next.Some? && index < next.value <= |steps|
            && (next.value < |steps| ==> Edge(steps, index, next.value))
  {
    var step := steps[index];
    assert CheckStep(steps, index).Ok?;
    var target := if branch.Some? then branch else step.next;
    var targets := Targets(steps, index);
    if target.None? {
      if index + 1 < |steps| {
        UniquePosition(steps, index + 1);
        assert Ahead(steps, index, targets[0]) == Some(index + 1);
      }
    } else if target.value != END {
      assert Forward(steps, index, target.value);
      var j :| index < j < |steps| && steps[j].id == target.value;
      UniquePosition(steps, j);
      var k := if step.node.Condition? && target.value != step.node.ifTrue then 1 else 0;
      assert Ahead(steps, index, targets[k]) == Some(j);
    }
  }

  /** A success leads to the step its target names: the target a condition chose, otherwise the
      step's own `next`, otherwise the next step in order; `$end` leads behind the last step. */
  lemma NextIsTheTarget(steps: seq<Step>, index: nat, branch: Option<string>)
    requires ValidSteps(steps) && index < |steps| && PossibleBranch(steps[index], branch)
    ensures var target := if branch.Some? then branch else steps[index].next;
            var next := NextIndex(steps, index, branch);
            && (target.None? ==> next == Some(index + 1))
            && (target == Some("$end") ==> next == Some(|steps|))
            && (target.Some? && target.value != "$end" ==>
                  next.Some? && index < next.value < |steps| && steps[next.value].id == target.value)
  {
    RunnerFollowsEdges(steps, index, branch);
    var target := if branch.Some? then branch else steps[index].next;
    if target.Some? && target.value != END {
      PositionNames(steps, target.value);
    }
  }

  lemma {:induction false} PositionNames(steps: seq<Step>, id: string)
    ensures Position(steps, id).Some? ==> steps[Position(steps, id).value].id == id
  {
    if steps != [] && steps[0].id != id {
      PositionNames(steps[1..], id);
    }
  }

  /** Conversely, every edge is what the runner does for some branch the step may return. */
  lemma EdgesAreFollowed(steps: seq<Step>, index: nat, to: nat)
    requires ValidSteps(steps) && Edge(steps, index, to)
    ensures exists branch :: PossibleBranch(steps[index], branch) && NextIndex(steps, index, branch) == Some(to)
  {
    var step := steps[index];
    var targets := Targets(steps, index);
    var k :| 0 <= k < |targets| && Ahead(steps, index, targets[k]) == Some(to);
    PositionIsFirst(steps, targets[k], to);
    EndIsNoStep(steps, to);
    if step.node.Condition? {
      assert PossibleBranch(step, Some(targets[k]));
      assert NextIndex(steps, index, Some(targets[k])) == Some(to);
    } else {
      assert PossibleBranch(step, None);
      if step.next.None? {
        UniquePosition(steps, index + 1);
      }
      assert NextIndex(steps, index, None) == Some(to);
    }
  }

  /** What certainly finished before a step has finished on the path actually taken. */
  lemma UpstreamHasPassed(steps: seq<Step>, path: seq<nat>)
    requires IsPath(steps, path)
    ensures Upstream(steps, path[|path| - 1]) <= Passed(steps, path)
  {
  }

  /** Conversely, the checker rejects no step that is always available: an id it does not
      count as safe at a reachable step is avoided by some path to that step. */
  lemma UnsafeIdIsAvoidable(steps: seq<Step>, index: nat, id: string) returns (path: seq<nat>)
    requires Reachable(steps, index) && id !in Upstream(steps, index)
    ensures IsPath(steps, path) && path[|path| - 1] == index && id !in Passed(steps, path)
  {
    OnEveryPathIsUpstream(steps, index, id);
    path := AvoidingPath(steps, id, index);
  }

  lemma OnEveryPathIsUpstream(steps: seq<Step>, index: nat, id: string)
    requires Reachable(steps, index)
    ensures OnEveryPath(steps, id, index) <==> id in Upstream(steps, index)
  {
    if OnEveryPath(steps, id, index) {
      var path :| IsPath(steps, path) && path[|path| - 1] == index;
      PassedAreSteps(steps, path);
      var k :| 0 <= k < |path| - 1 && steps[path[k]].id == id;
      assert OnEveryPath(steps, steps[path[k]].id, index);
    }
  }
}
