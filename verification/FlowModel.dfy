/** Flow definitions and the edges between their steps. */
module FlowModel {
  import opened Values

  datatype Operator = Eq | Ne | Gt | Ge | Lt | Le | In

  datatype Predicate = Predicate(left: Json, op: Operator, right: Json)

  datatype Capability = Api | Ssh | Database

  datatype FlowAction = FlowAction(capability: Capability, resourceId: string, arguments: Json)

  datatype ProbeErrorPolicy = FailImmediately | RetryTransientErrors

  datatype Node =
    | Action(action: FlowAction)
    | Condition(test: Predicate, ifTrue: string, ifFalse: string)
    | Poll(probe: FlowAction, until: Predicate, pollIntervalMs: nat, pollAttempts: nat)
    | WaitUntil(watch: FlowAction, successWhen: Predicate, failureWhen: Option<Predicate>,
                intervalMs: nat, maxAttempts: Option<nat>, policy: ProbeErrorPolicy)
    | Wait(durationMs: nat)

  datatype Step = Step(id: string, timeoutMs: nat, next: Option<string>, node: Node)

  const END: string := "$end"

  /** The first position of an id. */
  function Position(steps: seq<Step>, id: string): (r: Option<nat>)
    ensures r.Some? ==> r.value < |steps|
  {
    if steps == [] then None
    else if steps[0].id == id then Some(0)
    else
      match Position(steps[1..], id)
      case None => None
      case Some(i) => Some(i + 1)
  }

  lemma {:induction false} PositionIsFirst(steps: seq<Step>, id: string, index: nat)
    requires index < |steps|
    ensures Position(steps, id) == Some(index) <==>
            steps[index].id == id && forall i :: 0 <= i < index ==> steps[i].id != id
    ensures Position(steps, id).None? ==> steps[index].id != id
  {
    if index > 0 && steps[0].id != id {
      PositionIsFirst(steps[1..], id, index - 1);
      assert forall i :: 1 <= i <= index ==> steps[i] == steps[1..][i - 1];
    }
  }

  /** The ids a step may hand over to: both branches of a condition, otherwise its `next`
      or the following step. */
  function Targets(steps: seq<Step>, index: nat): seq<string>
    requires index < |steps|
  {
    var step := steps[index];
    if step.node.Condition? then [step.node.ifTrue, step.node.ifFalse]
    else if step.next.Some? then [step.next.value]
    else if index + 1 < |steps| then [steps[index + 1].id]
    else []
  }

  /** The step a target id leads to, when it lies ahead. */
  function Ahead(steps: seq<Step>, index: nat, target: string): (r: Option<nat>)
    ensures r.Some? ==> index < r.value < |steps|
  {
    var next := Position(steps, target);
    if next.Some? && next.value > index then next else None
  }

  predicate Edge(steps: seq<Step>, from: nat, to: nat)
  {
    from < |steps| &&
    exists k :: 0 <= k < |Targets(steps, from)| && Ahead(steps, from, Targets(steps, from)[k]) == Some(to)
  }

  /** A path of execution: it starts at the first step and follows edges. */
  ghost predicate IsPath(steps: seq<Step>, path: seq<nat>)
  {
    && path != []
    && path[0] == 0
    && (forall k :: 0 <= k < |path| ==> path[k] < |steps|)
    && (forall k :: 0 <= k < |path| - 1 ==> Edge(steps, path[k], path[k + 1]))
  }

  ghost predicate Reachable(steps: seq<Step>, index: nat)
  {
    exists path :: IsPath(steps, path) && path[|path| - 1] == index
  }

  /** The ids of the steps of a path before its last one. */
  ghost function Passed(steps: seq<Step>, path: seq<nat>): set<string>
    requires forall k :: 0 <= k < |path| ==> path[k] < |steps|
  {
    if |path| < 2 then {}
    else Passed(steps, path[..|path| - 1]) + {steps[path[|path| - 2]].id}
  }

  /** Every execution path to the step passes the id first. */
  ghost predicate OnEveryPath(steps: seq<Step>, id: string, index: nat)
  {
    forall path :: IsPath(steps, path) && path[|path| - 1] == index ==> id in Passed(steps, path)
  }
}
