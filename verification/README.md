# Verified model of the flow engine, the account session, the credential ledger and the bounded stores

This project models the parts of the desktop application in which several rules meet, and proves
what they promise together. `dafny verify dfyconfig.toml` checks all of it.

**Flow engine.** A flow is a list of steps: actions, conditions, waits, polls and waits until a
predicate holds. `FlowModel` and `Validation` describe what a valid flow is, `ReferenceGraph` the
analysis of what has certainly finished before each step, `Pointers`, `Expressions`,
`Evaluation`, `Conditions` and `ReferenceSafety` the JSON-pointer references (RFC 6901), their checker and their
evaluator, and `Inputs` the declared inputs. `StepWork` is the work of one step. Everything it
awaits is a script of arbitrary answers; a script that ends early is a work that was dropped.
`Runner` is the interpreter and the sweep at its end. `Replay` states what a finished run means:
each output and each branch follows again from the answered calls, read in the final context, so
the path is determined by the record. `RunRows` is the lease of the run row among several
processes, `RunLease` a run whose turns are answered by that row, `RunPages` the paged history, `Definitions` the revisions of stored flows.

**Account session.** `Account` is a transition system. Each action is one section between two
awaits of a sign-in exchange, a sign-out, the removal of a rejected session or a recovery, and any
number of tasks interleave. The class in it carries the updates of the shared fields.

**Credentials.** `CredentialLedger` holds the loops of reconciliation and collection over a ledger
that commits atomically and a secret store that does not roll back. `CredentialRuns` interleaves
them with staging, business transactions, revealing and crashes between any two effects.

**Codecs and bounded stores.** `Base64`, `KnownHosts`, `TerminalTail` and `LikeSearch`.
`Values`, `Text` and `Errors` hold what the others share.

## Where the code and its comments differ

- The comment at crates/flow-engine/src/runner.rs:389-390 says that a stored code is rebuilt without
  becoming VALIDATION_ERROR. That holds only for the codes that `Errors.Rebuildable` lists;
  `Errors.TransportFailureIsRelabelled` shows one it fails for.
- A cancelled sign-in does not take the transition lock (crates/unfour-account/src/lib.rs:485-490)
  and the recovery in `active_stored_session` (lines 221-225) runs without it. So a cancellation stops
  the save of an exchange exactly when the exchange had not passed its check yet, and the recovery
  takes away exactly a session that was saved after it looked. Two more lemmas show such runs.
- A save that changes nothing but the secret of a connection does not raise its revision
  (crates/ssh-engine/src/ssh/connection_crud.rs:315-335), nor does a restore
  (crates/ssh-engine/src/ssh/local_bundle.rs:70-71). A reveal is right all the same, because these
  writers hold the stage lock that the reveal holds. What the reveal relies on is
  `CredentialRuns.Disciplined`: a row keeps its content, or its revision grows, or the writer holds
  the stage lock; and a workspace does not come back with a used row at its old revision. Removing a
  workspace is never restricted, and because a removal tombstones the live connections with a larger
  revision (crates/ssh-engine/src/ssh/connection_domain.rs:431-453), a later return is disciplined
  too (`RemovalIsDisciplined`, `ReturnIsDisciplined`). `RevivalFoolsReveal` shows a run in which a
  return without that breaks the reveal. No other result about credentials needs the discipline.

## Model

| member | source | states |
|---|---|---|
| ReferenceGraph.GuaranteedUpstream | crates/flow-engine/src/reference_graph.rs:11-49 | for every list of steps, the computed set of each reachable step is exactly the ids that lie on every execution path to it; unreachable steps get the empty set |
| ReferenceGraph.SafeIsSound | crates/flow-engine/src/reference_graph.rs:18-26 | an id kept by the intersection of all incoming flows precedes the step on every path |
| ReferenceGraph.SafeIsComplete | crates/flow-engine/src/reference_graph.rs:18-26 | an id dropped by one incoming flow is avoided by some path |
| ReferenceGraph.IntersectionIsExact | crates/flow-engine/src/reference_graph.rs:18-22 | if earlier results are exact, intersecting the flows that arrive is exact for the next step |
| ReferenceGraph.FlowsReach | crates/flow-engine/src/reference_graph.rs:23-25 | a step receives no flow exactly when no path reaches it |
| ReferenceGraph.Push | crates/flow-engine/src/reference_graph.rs:26-46 | one step appends its own set plus its id to each later step its targets resolve to, in order, and nothing elsewhere ahead |
| ReferenceGraph.AvoidingPath | crates/flow-engine/src/reference_graph.rs:11-49 | when an id is not on every path, a concrete path that avoids it |
| FlowModel.PositionIsFirst | crates/flow-engine/src/reference_graph.rs:39-42 | looking a target up gives the first step with that id, and nothing only if no step has it |
| Pointers.ScanEscapes | crates/flow-engine/src/reference_graph.rs:52-60 | the character loop accepts exactly the texts in which every tilde starts an escape |
| Pointers.DecodeIsUnescape | crates/flow-engine/src/reference_graph.rs:62 | two global replacements decode a well-escaped token as one left-to-right decoder would |
| Pointers.EscapeRoundTrip | crates/flow-engine/src/reference_graph.rs:61-63 | every name can be escaped into one token that decodes back to it (section 4 of RFC 6901) |
| Pointers.SelectTokens | crates/flow-engine/src/expression.rs:42-50 | selecting by a pointer is walking its decoded tokens (section 5 of RFC 6901) |
| Expressions.ScanText | crates/flow-engine/src/reference_graph.rs:97-107 | the scanning loop over a text gives the first error of its references from left to right |
| Expressions.SubstituteText | crates/flow-engine/src/expression.rs:22-37 | the substitution loop gives the recursive meaning of a text |
| Expressions.CheckTextMeans | crates/flow-engine/src/reference_graph.rs:97-107 | a text passes exactly when every reference is terminated and each of its pointers passes |
| Expressions.CheckMeans | crates/flow-engine/src/reference_graph.rs:75-111 | an expression passes exactly when it is well formed and every pointer mentioned anywhere in it passes |
| ReferenceSafety.ResolveTextMeans | crates/flow-engine/src/expression.rs:22-37 | a terminated text resolves exactly when all its pointers select something, and fails only as missing |
| ReferenceSafety.ResolveMeans | crates/flow-engine/src/expression.rs:4-40 | a well-formed expression resolves exactly when all its pointers select something, and fails only as missing |
| ReferenceSafety.DependsOnMentions | crates/flow-engine/src/expression.rs:4-50 | contexts that agree on the mentioned pointers give the same result |
| ReferenceSafety.PassedPointer | crates/flow-engine/src/reference_graph.rs:51-73 | an accepted pointer begins with the inputs, an allowed step id, or the probe where one is allowed |
| ReferenceSafety.CheckedExpressionIsSafe | crates/flow-engine/src/reference_graph.rs:75-111 | an accepted expression never resolves to FLOW_INVALID_REFERENCE, and every vouched prefix is present: only deeper fields can be missing |
| ReferenceSafety.CheckedExpressionIsConfined | crates/flow-engine/src/reference_graph.rs:51-111 | an accepted expression sees nothing but the inputs, the allowed steps and the probe |
| ReferenceSafety.EveryStepIsReferencable | crates/flow-engine/src/reference_graph.rs:61-71 | an escaped reference to any step id is accepted exactly when the id is allowed, and selects its output |
| Evaluation.ReferenceSelects | crates/flow-engine/src/expression.rs:4-16 | a reference object resolves to exactly the value its pointer selects; without a leading slash it is invalid and without a selected value it is missing |
| Evaluation.MixedReferenceIsInvalid | crates/flow-engine/src/expression.rs:6-15 | a reference beside other keys, or one that is no text, is invalid |
| Evaluation.FieldIsSelected | crates/flow-engine/src/expression.rs:42-50 | a pointer of one escaped name selects the field of that name, for every name |
| Evaluation.ItemIsSelected | crates/flow-engine/src/expression.rs:42-50 | a pointer of one decimal index selects that item, and nothing beyond the end |
| Evaluation.TextIsFilledIn | crates/flow-engine/src/expression.rs:22-37 | a text before the first reference stays, the reference becomes the selected text or the rendering of the selected value, and the rest is filled in the same way; the first failing reference decides the error |
| Evaluation.UnclosedIsInvalid | crates/flow-engine/src/expression.rs:27-31 | a reference that is not closed is invalid |
| Evaluation.ObjectKeepsItsKeys | crates/flow-engine/src/expression.rs:17-20 | an object keeps its keys in order, each with its resolved value, and fails with the error of its first failing value |
| Evaluation.ArrayKeepsItsOrder | crates/flow-engine/src/expression.rs:21 | an array keeps its length and order, and fails with the error of its first failing item |
| Evaluation.NothingMentionedStays | crates/flow-engine/src/expression.rs:4-40 | an expression that mentions no reference resolves to itself in every context |
| Evaluation.PointerPassesExactly | crates/flow-engine/src/reference_graph.rs:51-73 | which pointers pass the checker, and with which error the others fail |
| Conditions.CheckedPredicateIsSafe | crates/flow-engine/src/expression.rs:57-83 | an accepted predicate fails only for a missing field or an operand of the wrong type |
| Conditions.OperandErrorsComeFirst | crates/flow-engine/src/expression.rs:57-59 | a predicate fails with the error of its left operand, then with that of its right one, before the operator is asked |
| Conditions.EqualityMeans | crates/flow-engine/src/expression.rs:60-62 | eq holds exactly when both operands resolve to the same value, ne exactly when they differ, and neither fails on resolved operands |
| Conditions.OrdersMean | crates/flow-engine/src/expression.rs:67-81 | gt, ge, lt and le are the orders of the numbers, and fail with FLOW_EXPECTED_NUMBER exactly when an operand is no number |
| Conditions.MembershipMeans | crates/flow-engine/src/expression.rs:63-66 | in holds exactly when some index of the array has the value, and fails with FLOW_EXPECTED_ARRAY exactly when there is no array |
| Conditions.OperatorsAgree | crates/flow-engine/src/expression.rs:57-83 | eq and ne are opposites, ge is lt denied, and gt and lt mirror each other |
| Conditions.ContextOffers | crates/flow-engine/src/runner.rs:41 | the context offers the inputs and the output of every id that has one |
| Conditions.ProbeOffers | crates/flow-engine/src/wait_until.rs:72-73 | adding the probe keeps the inputs and outputs |
| Validation.ValidateReferences | crates/flow-engine/src/reference_graph.rs:113-147 | checks every step against its exact upstream and reports the first error |
| Validation.ValidateSteps | crates/flow-engine/src/validation.rs:30-95 | accepts exactly the lists of 1 to 100 well-shaped unique steps with forward targets, bounds and safe references; otherwise reports the first error of the first stage that fails |
| Validation.StepPassesExactly | crates/flow-engine/src/validation.rs:43-94 | a step passes exactly when its targets lie ahead, a poll or wait keeps its bounds, a wait does not probe over ssh, and a pause is shorter than the timeout |
| Validation.ShapePassesExactly | crates/flow-engine/src/validation.rs:30-42 | ids are 1 to 80 letters, digits, underscores or hyphens, and a timeout is at most an hour |
| Validation.ReferencesPassExactly | crates/flow-engine/src/reference_graph.rs:113-147 | the references of a step pass exactly when every expression it evaluates passes, the predicates of polls and waits with the probe in sight and all others without |
| Validation.RunnerFollowsEdges | crates/flow-engine/src/runner.rs:134-144 | in a validated flow the next index always exists, lies ahead, and follows an edge of the analysis or ends the run; the slice of skipped steps is in range |
| Validation.NextIsTheTarget | crates/flow-engine/src/runner.rs:134-144 | a success leads to the step its target names: the target a condition chose, else the own next, else the next in order, and $end leads behind the last step |
| Validation.EdgesAreFollowed | crates/flow-engine/src/reference_graph.rs:27-46 | every edge of the analysis is taken for some branch the step may return |
| Validation.UpstreamHasPassed | crates/flow-engine/src/reference_graph.rs:11-49 | what the analysis promises has run on any path actually taken |
| Validation.UnsafeIdIsAvoidable | crates/flow-engine/src/reference_graph.rs:51-73 | a rejected id of a reachable step is avoided by a path the runner could take |
| Validation.OnEveryPathIsUpstream | crates/flow-engine/src/reference_graph.rs:11-49 | at a reachable step an id is upstream exactly when it lies on every path |
| Inputs.ValidateInputs | crates/flow-engine/src/validation.rs:16-28 | the loop reports the first fault of the declared inputs |
| Inputs.CheckInputsMeans | crates/flow-engine/src/validation.rs:16-28 | accepted exactly when names are unique and well formed and defaults are public and of their declared type |
| Inputs.KindsTake | crates/flow-engine/src/validation.rs:98-105 | which values each declared kind takes |
| Inputs.ResolveInputs | crates/flow-engine/src/validation.rs:107-129 | the loop over the declarations, with its three errors |
| Inputs.ResolveEachMeans | crates/flow-engine/src/validation.rs:107-129 | inputs resolve exactly when each declared one is acceptable; then each has its given value or its default and no other field changed |
| Inputs.DeclaredInputIsPresent | crates/flow-engine/src/validation.rs:114-126 | after resolving, a required or defaulted input is present with its type |
| Errors.RebuiltCode | crates/flow-engine/src/runner.rs:391-400 | a stored code survives being rebuilt exactly when it starts with FLOW_, is one of the five rebuilt codes, is a validation reason that is its own code, or is VALIDATION_ERROR |
| Errors.TransportFailureIsRelabelled | crates/flow-engine/src/runner.rs:389-400 | a stored HTTP_ERROR comes back as VALIDATION_ERROR, against the comment on the function |
| Errors.WrappingIsTransparent | crates/flow-engine/src/runner.rs:13-20 | code and transience of a failed action are those of its source, through any number of layers |
| Errors.TransientErrors | crates/flow-engine/src/wait_until.rs:12-34 | exactly which errors a probe may be repeated after |
| Errors.StoredCodes | crates/flow-engine/src/runner.rs:13-20 | flow codes are stored as themselves, a failed status under its number, and the rebuilt kinds under the codes they are rebuilt from |
| StepWork.StepWork.RunAction | crates/flow-engine/src/runner.rs:235-239 | an action is one attempt: its answer is the result unless writing it down failed, it gives up only for a stated reason (a cancellation that came, a failed write, a size limit), and an undisturbed script gives exactly one call and its answer |
| StepWork.StepWork.Try | crates/flow-engine/src/runner.rs:276-342 | one attempt: the record appended before the call, what is recorded after the answer, and every early error |
| StepWork.StepWork.Call | crates/flow-engine/src/runner.rs:287-341 | every call handed to the executor was opened by a write that succeeded, and the records of one attempt for every early end |
| StepWork.StepWork.RunPoll | crates/flow-engine/src/runner.rs:240-269 | a poll is a fold to the first decisive probe, all attempts are recorded in order, there are never more attempts than its limit, answered or not, and where an undisturbed script settles it, it ends with that result after exactly those calls |
| StepWork.StepWork.RunWaitUntil | crates/flow-engine/src/wait_until.rs:58-116 | a wait is a fold to the first decisive probe: failure before success, retries only for transient errors under the retry policy, never more attempts than its limit, answered or not, and where an undisturbed script settles it, it ends with that result after exactly those calls |
| StepWork.StepWork.RunWait | crates/flow-engine/src/runner.rs:216-234 | one attempt, closed by the waited time only after the write that notes the pause and a pause whose timer fired first, and always when both are undisturbed; otherwise left open for the interrupt |
| StepWork.StepWork.RunCondition | crates/flow-engine/src/runner.rs:197-215 | the branch and the output are those of the predicate, evaluated first and recorded second |
| StepWork.StepWork.Run | crates/flow-engine/src/runner.rs:187-275 | the result of a step is earned by its answered calls, its errors are explained, its attempts are in order and within its limit, an answered action keeps its answer unless recording it failed, a dropped step is judged honestly and is dropped only when nothing answers any more, and where an undisturbed script answers the step it delivers that answer with exactly those calls |
| StepWork.AbandonIsHonest | crates/flow-engine/src/runner.rs:356-380 | judging a dropped step by its records alone gives what really happened: a call in flight is uncertain, an answered action keeps its answer, anything else is the interrupt or the recorded error |
| StepWork.TransientIsNotDefinite | crates/flow-engine/src/wait_until.rs:86-97 | no transient error is a cancellation or an uncertain outcome, so the order of the two tests does not matter |
| StepWork.ProbeCompletes | crates/flow-engine/src/wait_until.rs:59-105 | one more probe keeps the fold: either it decides or every probe so far said to go on |
| StepWork.EndIsExplained | crates/flow-engine/src/wait_until.rs:59-116 | an error of a poll or wait comes from a call, a failed write, or a fixed list of engine errors, never an invalid reference |
| StepWork.EndIsEarned | crates/flow-engine/src/wait_until.rs:69-85 | a poll or wait succeeds only with the decision of its last probe |
| StepWork.ActionWorked | crates/flow-engine/src/runner.rs:235-239 | what one attempt left behind is all that the work of an action promises, completeness included |
| StepWork.ProbesWorked | crates/flow-engine/src/runner.rs:240-275 | what the fold of a poll or wait left behind is all that its work promises, completeness included |
| StepWork.OutputsShow | crates/flow-engine/src/wait_until.rs:76-85 | what the outputs of conditions, pauses and waits show to the steps that select from them |
| StepWork.RecordKeepsAnswer | crates/flow-engine/src/runner.rs:310-336 | an attempt keeps the answer as output or error code, and the details of a failed action beside its code |
| Replay.WaitSuccessMeans | crates/flow-engine/src/wait_until.rs:69-105 | a wait succeeds exactly when its last probe succeeded, success holds on it and failure does not, and before it every probe satisfied neither or failed transiently under the retry policy |
| Replay.PollSuccessMeans | crates/flow-engine/src/runner.rs:246-268 | a poll succeeds exactly when no probe failed and its last output is the first on which the predicate holds |
| Replay.WaitFailureMeans | crates/flow-engine/src/wait_until.rs:69-105 | a probe of a wait fails the step exactly when its error is not retried, the failure predicate holds, or a predicate that is asked fails itself |
| Replay.PollFailureMeans | crates/flow-engine/src/runner.rs:246-268 | a probe of a poll fails the step exactly with its own error or that of the predicate |
| Replay.ConditionTakesItsBranch | crates/flow-engine/src/runner.rs:134-144 | a condition led to the step that its predicate, read again in the final context, chooses |
| Replay.EarnedIsConfined | crates/flow-engine/src/runner.rs:187-275 | what a step may return depends only on the inputs and the outputs of its upstream |
| Replay.StoryGoesOn | crates/flow-engine/src/runner.rs:129-148 | adding the output of a new step leaves every earlier decision as it was |
| Replay.LegIsDetermined | crates/flow-engine/src/runner.rs:134-148 | two runs with the same final inputs and outputs agree leg by leg, whatever answers they got and however long they waited |
| Runner.PathIsDetermined | crates/flow-engine/src/runner.rs:43-149 | two runs that end with the same inputs and outputs took the same path and the same branches to the same end, whatever answers they got and however long they waited |
| Runner.RunsNeverMisreference | crates/flow-engine/src/reference_graph.rs:113-147 | on every path of a validated flow no expression of the current step, the predicates of polls and waits over any probe output included, gives FLOW_INVALID_REFERENCE, and every prefix it names is present |
| Runner.EvaluatedIsChecked | crates/flow-engine/src/reference_graph.rs:113-147 | every expression a step evaluates was checked against what its context offers |
| Runner.TurnIsPrepared | crates/flow-engine/src/runner.rs:43-80 | in every reachable runner state the outputs of the upstream of the current step are in the context |
| Runner.JudgementIsReported | crates/flow-engine/src/runner.rs:85-116 | adopting or abandoning an interrupted step reports only what its calls, writes and interrupt explain; an unanswered call is always uncertain and nothing else is unless a call answered so, an answered action keeps its answer, and an undisturbed script decides the outcome |
| Runner.AdoptingMeans | crates/flow-engine/src/runner.rs:345-354 | an interrupt replaces exactly the cancellation of a work that finished, and nothing else |
| Runner.DeadlineIsATimeout | crates/flow-engine/src/runner.rs:382-387 | a deadline that passed with nothing done ends step and run as timed out |
| Runner.StatusesOfErrors | crates/flow-engine/src/runner.rs:150-158 | a cancellation and a timeout end step and run with their own status, every other code fails both |
| Runner.SuppliedTurnIsNotLast | crates/flow-engine/src/runner.rs:43-149 | a turn with nothing in its way whose work is answered with a success is not the last one |
| Runner.UndisturbedRunSucceeds | crates/flow-engine/src/runner.rs:36-185 | if in every turn the heartbeat says go on, every write succeeds and the work is answered undisturbed with a success, the run ends succeeded |
| Runner.CancelledWasAsked | crates/flow-engine/src/runner.rs:43-47 | a run that ended as cancelled without an error was told to stop by the heartbeat of its last turn |
| Runner.FlowRun.Enter | crates/flow-engine/src/runner.rs:44-51 | a turn begins its step exactly when the heartbeat did not say stop and the write that marks the step succeeded, and otherwise ends the run for the stop, the failed heartbeat or the failed write |
| Runner.FlowRun.Perform | crates/flow-engine/src/runner.rs:52-128 | one step: its attempts are recorded, its success is earned in the present context, an unanswered call gives FLOW_OUTCOME_UNCERTAIN, an answered action ends with its answer whatever the interrupt, unless a write failed or a size limit refused it, and an undisturbed script decides the outcome |
| Runner.FlowRun.Fail | crates/flow-engine/src/runner.rs:150-178 | the step and the run end with the code and its status, no attempt stays open, and no other step changes |
| Runner.FlowRun.Succeed | crates/flow-engine/src/runner.rs:130-132 | the step succeeds and its output joins the context under its id |
| Runner.FlowRun.SkipTo | crates/flow-engine/src/runner.rs:145-148 | exactly the steps jumped over are skipped |
| Runner.FlowRun.Conclude | crates/flow-engine/src/runner.rs:117-181 | a failure ends the run; a success moves to the next index of the branch taken and keeps the story |
| Runner.FlowRun.Execute | crates/flow-engine/src/runner.rs:36-185 | the interpreter terminates with one turn a step at most, begins a step only after a heartbeat that did not say stop, starts its work only after the write that marks it, and ends before the last step only for what its last turn met: a stop, a failed heartbeat or write, or a step that did not succeed |
| Runner.FlowRun.Sweep | crates/flow-engine/src/lib.rs:207-211 | exactly the pending steps become skipped |
| Runner.SweepEnds | crates/flow-engine/src/lib.rs:202-211 | however the interpreter ended, the sweep leaves a final state |
| Runner.FlowRun.RunToEnd | crates/flow-engine/src/lib.rs:202-215 | at the end the succeeded steps are the path taken and exactly the keys of the context, every other step is skipped except at most one that carries the error of the run, every step is within its limit of attempts, the error is accounted for, unless the lease was lost each output and branch is earned again in the final context, and what ended the run is what its last turn met |
| RunLease.NoStepAfterStop | crates/flow-engine/src/runner.rs:43-51 | once a cancel request or a recovery is in the table, no turn whose heartbeat comes later begins a step |
| RunLease.NoWorkAfterEnd | crates/flow-engine/src/runner.rs:49-52 | once the row has left running, no work of a step starts whose write comes later |
| RunLease.NoCallAfterEnd | crates/flow-engine/src/runner.rs:287-308 | once the row has left running, no call of any attempt is handed to the executor whose opening write comes later |
| RunLease.EndedRowOutlivesTheRun | crates/flow-engine/src/lib.rs:212-215 | a row that another process ended keeps its document through the rest of the history and the final write of the runner |
| RunLease.RunLeased | crates/flow-engine/src/runner.rs:36-185 | these bounds on steps, work and calls for a whole run whose turns were answered by the table |
| RunRows.RunTable.InsertRun | crates/flow-engine/src/storage.rs:124-130 | a run is inserted exactly when its flow is live and the id is new |
| RunRows.RunTable.RequestCancel | crates/flow-engine/src/storage.rs:108-112 | only a running row of the workspace is marked |
| RunRows.RunTable.Beat | crates/flow-engine/src/storage.rs:113-116 | renews a running row and says stop unless a live row has no cancel request |
| RunRows.RunTable.RecoverStale | crates/flow-engine/src/storage.rs:117-123 | exactly the running rows idle for more than thirty seconds become interrupted |
| RunRows.RunTable.PersistRun | crates/flow-engine/src/storage.rs:131-137 | writes only a running row and reports a lost lease otherwise |
| RunRows.LeavesRunningOnce | crates/flow-engine/src/storage.rs:108-137 | over every history a row that has left running never changes again |
| RunRows.EndedIsFrozen | crates/flow-engine/src/storage.rs:108-137 | no event of any process changes an ended row |
| RunRows.StopIsFinal | crates/flow-engine/src/storage.rs:113-116 | once a runner must stop it must stop at every later heartbeat, and a cancel request never clears |
| RunRows.CancelIsHeard | crates/flow-engine/src/storage.rs:108-116 | after a cancel the runner is told to stop, whatever happens in between |
| RunRows.StopHasCause | crates/flow-engine/src/storage.rs:108-137 | a runner is told to stop exactly when its row has ended or a cancel request for it came while it was running |
| RunRows.TableFollowsFate | crates/flow-engine/src/storage.rs:108-137 | the row of a history is what the last renewal, the first final write or the first late recovery says |
| RunRows.TimelyRunnerKeepsLease | crates/flow-engine/src/storage.rs:117-123 | a runner that renews in time is never recovered by anyone |
| RunRows.DecodeRun | crates/flow-engine/src/storage.rs:139-153 | reading an interrupted run leaves no step running or pending and changes nothing else |
| RunRows.SettlingSteps | crates/flow-engine/src/storage.rs:139-153 | an unfinished step is settled once, as interrupted or as skipped, and a finished one stays |
| RunRows.EventsOnRows | crates/flow-engine/src/storage.rs:108-137 | what each statement writes into the row it matches, and when a recovery matches |
| RunPages.ListRunsPage | crates/flow-engine/src/storage.rs:53-95 | a page holds the first runs below the cursor in descending order, with a next cursor exactly when more exist; each error case |
| RunPages.ListingIsDescending | crates/flow-engine/src/storage.rs:65-93 | following the cursors, each looked up again in the later table, lists strictly descending, newest first, whatever events and inserts come in between |
| RunPages.DescendingIsNewestFirst | crates/flow-engine/src/storage.rs:73-82 | descending means newest first: the start never grows along the list, and among equal starts the ids fall |
| RunPages.ListingIsComplete | crates/flow-engine/src/storage.rs:65-93 | a run that existed throughout appears on some page |
| RunPages.HistoryIsListedOnce | crates/flow-engine/src/storage.rs:53-95 | every run that existed from the first page on is listed exactly once, newest first |
| RunPages.CursorIsResolved | crates/flow-engine/src/storage.rs:67-72 | the cursor of a page names the last run of that page in every later table, so the next request is not refused |
| RunPages.TablesGrow | crates/flow-engine/src/storage.rs:108-137 | over any history of events and inserts the runs of a flow only grow |
| RunPages.EventsKeepKeys | crates/flow-engine/src/storage.rs:108-137 | no heartbeat, cancel, recovery or write moves a run in the order |
| Definitions.DefinitionTable.SaveOn | crates/flow-engine/src/definitions.rs:62-98 | insert with revision one, or compare and set on the expected revision |
| Definitions.DefinitionTable.DeleteOn | crates/flow-engine/src/definitions.rs:114-143 | a tombstone with the next revision, only at the expected revision |
| Definitions.DefinitionTable.DeleteWorkspaceOn | crates/flow-engine/src/definitions.rs:147-166 | tombstones every live definition of the workspace with its next revision |
| Definitions.DefinitionTable.ImportDefinitionOn | crates/flow-engine/src/definitions.rs:183-202 | inserts with revision one |
| Definitions.DefinitionTable.ApplyUpsertOn | crates/flow-engine/src/external.rs:83-106 | an external document is applied with the next revision unless it is already equivalent |
| Definitions.DefinitionTable.ApplyDeleteOn | crates/flow-engine/src/external.rs:107-120 | an external delete buries a live row once |
| Definitions.WriteKeepsConsistency | crates/flow-engine/src/definitions.rs:62-202 | the revision in the document always equals the column |
| Definitions.HistoryKeepsConsistency | crates/flow-engine/src/definitions.rs:62-202 | the same over every history of all six writes |
| Definitions.OneStep | crates/flow-engine/src/external.rs:74-130 | an accepted write moves the revision of exactly the definitions it reports, by one; a rejected one changes nothing |
| Definitions.SavingStoresContent | crates/flow-engine/src/definitions.rs:62-98 | a save is accepted exactly when the workspace is live, the content passes and the flow is new or at the expected revision; then the content of the caller is stored at the next revision |
| Definitions.ImportingStoresContent | crates/flow-engine/src/definitions.rs:183-202 | an accepted import stores the content of the caller at revision one |
| Definitions.ApplyingStoresContent | crates/flow-engine/src/external.rs:83-106 | an accepted external document is there afterwards with its content, and nothing is emitted exactly when it was there before |
| Definitions.RemovingBuries | crates/flow-engine/src/definitions.rs:114-143 | a delete is accepted exactly at the expected revision of a live flow, buries it and touches no other |
| Definitions.RemovingWorkspaceBuriesAll | crates/flow-engine/src/definitions.rs:147-166 | removing a workspace buries every live flow of it and nothing else |
| Definitions.ApplyingDeleteBuries | crates/flow-engine/src/external.rs:107-120 | an external delete leaves the flow gone and emits exactly when it was there |
| Definitions.SnapshotShowsContent | crates/flow-engine/src/external.rs:7-43 | a snapshot of a stored flow shows its content and revision |
| Definitions.RevisionsAreConsecutive | crates/flow-engine/src/definitions.rs:62-202 | the emitted revisions of a definition are consecutive over any history |
| Definitions.SecondWriterFails | crates/flow-engine/src/definitions.rs:83-88 | of two writers that expect the same revision at most one succeeds, whatever happens in between |
| Definitions.ReapplyingChangesNothing | crates/flow-engine/src/external.rs:92-113 | applying an external change again leaves the table untouched |
| Definitions.SnapshotsAreSound | crates/flow-engine/src/external.rs:7-43 | a snapshot fails exactly when the row is missing, and its revision counts the emitted changes |
| Account.AccountService.CancelSignIn | crates/unfour-account/src/lib.rs:485-490 | new epoch, no pending authorization |
| Account.AccountService.PublishPending | crates/unfour-account/src/lib.rs:476-482 | new epoch and the new pending authorization, together |
| Account.AccountService.ClaimPending | crates/unfour-account/src/lib.rs:495-510 | a callback takes the pending authorization with the matching state and sets the marker |
| Account.AccountService.DropGuard | crates/unfour-account/src/lib.rs:586-592 | clears the marker only if it is still the own one |
| Account.AccountService.IsExchanging | crates/unfour-account/src/lib.rs:546-549 | the marker is set and carries the current epoch |
| Account.AccountService.DeleteIfCurrent | crates/unfour-account/src/lib.rs:258-274 | removes exactly the expected session and advances the generation, or does nothing |
| Account.ActKeepsInv | crates/unfour-account/src/lib.rs:467-592 | every atomic section of every task keeps the invariant of the protocol |
| Account.RunKeepsInv | crates/unfour-account/src/lib.rs:467-592 | so does every interleaving of any number of tasks |
| Account.SavingIsNotOvertaken | crates/unfour-account/src/lib.rs:527-542 | an exchange that stores its session was overtaken by no sign-out and no started sign-in since it read its generation and epoch |
| Account.OvertakenNeverSaves | crates/unfour-account/src/lib.rs:492-578 | an exchange older than a sign-out or a newer sign-in never stores a session, in any continuation |
| Account.SignedOutStaysOut | crates/unfour-account/src/lib.rs:561-578 | a session found after a sign-out was stored by an exchange that read the generation after it |
| Account.SignOutRemoves | crates/unfour-account/src/lib.rs:561-578 | a sign-out that reaches its deletion leaves no session, and a deletion that fails leaves the keychain as it was |
| Account.AfterSignOutOnlyNewSessions | crates/unfour-account/src/lib.rs:561-578 | in every continuation of a sign-out a session is stored only if an exchange saved it that read the generation after that sign-out |
| Account.CancelledIsNeverClaimed | crates/unfour-account/src/lib.rs:485-490 | after a cancellation no callback ever claims an authorization published before it |
| Account.PublishingIsNumbered | crates/unfour-account/src/lib.rs:467-484 | a sign-in start publishes the next authorization under a new epoch |
| Account.UndisturbedSignInStores | crates/unfour-account/src/lib.rs:467-544 | a sign-in that nothing disturbs stores its session, uses up its authorization, clears the marker and advances the generation |
| Account.UndisturbedSignOutClears | crates/unfour-account/src/lib.rs:561-578 | a sign-out that nothing disturbs leaves no session and no pending authorization under a new epoch and generation |
| Account.MarkerMeansCurrentExchange | crates/unfour-account/src/lib.rs:546-549 | signing in is shown exactly when a running exchange owns the current epoch |
| Account.AuthorizationsAreExchangedOnce | crates/unfour-account/src/lib.rs:495-510 | no authorization is exchanged twice |
| Account.LeavingKeepsOtherMarkers | crates/unfour-account/src/lib.rs:581-592 | an exchange that ends clears no marker of another |
| Account.LeavingClearsOwnMarker | crates/unfour-account/src/lib.rs:586-592 | an exchange that leaves clears its own marker |
| Account.DeletionsAreAccounted | crates/unfour-account/src/lib.rs:258-274 | a stored session disappears only through a sign-out, a rejected request that used that very session, or the recovery without the lock |
| Account.CancelStopsExactlyTheUnchecked | crates/unfour-account/src/lib.rs:485-490 | after a cancellation an exchange stores its session in some continuation exactly when it had already passed its check under the lock |
| Account.StoppedNeverSaves | crates/unfour-account/src/lib.rs:527-534 | an exchange whose epoch is over before its check stores nothing in any continuation |
| Account.BareRecoveryRemovesExactlyStored | crates/unfour-account/src/lib.rs:221-225 | the recovery without the lock removes a session exactly when one is stored, and then an exchange saved after it looked |
| Account.BareRecoveryRemovesExactlyNewSessions | crates/unfour-account/src/lib.rs:221-225 | from the look at a corrupt item on, the session that its deletion takes is one that an exchange saved since and nothing removed or replaced |
| Account.DropSectionsAreOneRemoval | crates/unfour-account/src/lib.rs:258-274 | the sections of a removal, run without interruption, do what the method does |
| Account.UndisturbedRecoveryClears | crates/unfour-account/src/lib.rs:318-345 | a recovery under the lock that nothing disturbs removes the corrupt item and advances the generation |
| Account.BareRecoveryCanRemoveNewSession | crates/unfour-account/src/lib.rs:221-225 | the recovery that does not take the lock can remove a session stored after it looked |
| Account.CancelCanComeTooLate | crates/unfour-account/src/lib.rs:485-490 | a cancellation between the check and the save does not stop the save |
| CredentialLedger.CredentialBus.ReconcileOn | crates/unfour-command-bus/src/bundle_credentials.rs:130-153 | over all workspaces: live references become attached, attached ones that are not live become garbage, all else stays |
| CredentialLedger.CredentialBus.CollectWorkspace | crates/unfour-command-bus/src/bundle_credentials.rs:180-201 | one workspace of the collector, with its error cases |
| CredentialLedger.CredentialBus.Collect | crates/unfour-command-bus/src/bundle_credentials.rs:166-205 | succeeds exactly when every condemned secret can be removed; then exactly those are gone and forgotten; otherwise the ledger is as before and only condemned secrets may be gone |
| CredentialLedger.CredentialBus.Track | crates/workspace-engine/src/workspace/variable_secrets.rs:59-69 | inserts a row, or changes only the state of an existing one |
| CredentialLedger.LiveReferences | crates/unfour-command-bus/src/bundle_credentials.rs:104-126 | exactly the references of live connections of a live workspace |
| CredentialLedger.ReconciledIsExact | crates/unfour-command-bus/src/bundle_credentials.rs:130-153 | after reconciling exactly the live references are attached |
| CredentialLedger.ReconcilingOnlyRecords | crates/unfour-command-bus/src/bundle_credentials.rs:128-205 | the collector reaches the same ledger and removes the same secrets with or without a reconciliation before it |
| CredentialLedger.CollectorSparesHeld | crates/unfour-command-bus/src/bundle_credentials.rs:181-201 | a condemned reference that can be removed is held by no live connection |
| CredentialLedger.RecoveryIsExact | crates/unfour-command-bus/src/bundle_credentials.rs:159-205 | a successful recovery leaves exactly the tracked references that are live, all attached |
| CredentialLedger.CollectingTwiceIsOnce | crates/unfour-command-bus/src/bundle_credentials.rs:166-205 | collecting again finds nothing to do |
| CredentialRuns.ActKeepsInv | crates/unfour-command-bus/src/bundle_credentials.rs:55-205 | every step and every crash, with any change of connections and workspaces, keeps the invariant of ledger, store, locks and program points |
| CredentialRuns.RunKeepsInv | crates/unfour-command-bus/src/bundle_credentials.rs:55-205 | so does every interleaving |
| CredentialRuns.StagedSecretsStayJournaled | crates/unfour-command-bus/src/bundle_credentials.rs:84-101 | at every moment a secret that came in through staging has its committed ledger row |
| CredentialRuns.JournalingCommitsFirst | crates/unfour-command-bus/src/bundle_credentials.rs:84-91 | the journal row is committed before the secret can be written, for a new reference that no connection names |
| CredentialRuns.WritingStoresSecret | crates/unfour-command-bus/src/bundle_credentials.rs:92-101 | a staging write that succeeds stores the secret under the new reference and touches no other; one that fails stores nothing |
| CredentialRuns.DiscardingCondemns | crates/unfour-command-bus/src/bundle_credentials.rs:207-222 | a failed edit hands its staged references to the collector unless a connection uses them |
| CredentialRuns.AdoptingAttaches | crates/workspace-engine/src/workspace/variable_secrets.rs:20-24 | adopting a reference leaves it tracked as attached and changes nothing else |
| CredentialRuns.SweepingRemovesOrphans | crates/ssh-engine/src/ssh/connection_domain.rs:478-497 | a cleanup after a change of connections removes a secret exactly when it is neither tracked nor used, except that a row left behind in a removed workspace still spares it |
| CredentialRuns.CommittingPublishes | crates/unfour-command-bus/src/bundle_credentials.rs:128-153 | a committed transaction publishes its connections and, when rows changed, leaves exactly the live references attached |
| CredentialRuns.SingleEffects | crates/unfour-command-bus/src/credential_commands.rs:70-140 | rotating replaces one secret, deleting removes it, creating adds it, and nothing else changes |
| CredentialRuns.HeldSecretsAreKept | crates/unfour-command-bus/src/bundle_credentials.rs:166-205 | no step but an explicit deletion takes a secret that a live connection uses |
| CredentialRuns.RecoveryLeavesExactlyLive | crates/unfour-command-bus/src/bundle_credentials.rs:159-205 | when a recovery commits, the ledger holds exactly the tracked references that are live, all attached, and every staged secret has its row |
| CredentialRuns.RunKeepsReveals | crates/unfour-command-bus/src/credential_commands.rs:37-67 | over every run whose transactions are disciplined, while a row shows the revision a reveal saw, the store holds the secret it read |
| CredentialRuns.RemovalIsDisciplined | crates/ssh-engine/src/ssh/connection_domain.rs:431-453 | removing a workspace, earlier tombstones included, is disciplined without any lock and leaves no used row behind |
| CredentialRuns.ReturnIsDisciplined | crates/workspace-engine/src/workspace/external_apply/workspace.rs:182-190 | after that, any return of workspaces that touches no connection is disciplined |
| CredentialRuns.RevivalFoolsReveal | crates/unfour-command-bus/src/credential_commands.rs:49-65 | a run in which the return of a workspace with a used row at its old revision lets a reveal hand out a secret that is gone |
| CredentialRuns.RevealIsLinearizable | crates/unfour-command-bus/src/credential_commands.rs:37-67 | in every run whose transactions are disciplined, when a reveal returns, at its second check the connection is live with the same reference and revision and the store holds the returned secret |
| CredentialRuns.UndisturbedRevealAnswers | crates/unfour-command-bus/src/credential_commands.rs:37-67 | a reveal that nothing disturbs returns the stored secret of a live connection with its revision |
| Base64.Base64Decode | crates/ssh-engine/src/host_key.rs:356-377 | the loop computes the decoder; its accumulator stays below two to the twelfth |
| Base64.Base64EncodeNoPad | crates/ssh-engine/src/host_key.rs:379-398 | the loop over chunks of three computes the encoder |
| Base64.FeedKeepsTotal | crates/ssh-engine/src/host_key.rs:363-374 | between letters 0, 2, 4 or 6 bits are held, and no bit of the number read is lost |
| Base64.ScanMeans | crates/ssh-engine/src/host_key.rs:356-377 | decoding succeeds exactly on letters of the alphabet, and output and held bits write the same number as the letters |
| Base64.EncodeMeans | crates/ssh-engine/src/host_key.rs:379-398 | the groups of six bits write the number of the bytes, filled up with zero bits |
| Base64.DecodedLength | crates/ssh-engine/src/host_key.rs:356-377 | n letters give floor(6n/8) bytes |
| Base64.LettersAreTheAlphabet | crates/ssh-engine/src/host_key.rs:359 | the letters are the 64 of the standard alphabet, in its order |
| Base64.DecodeUndoesEncode | crates/ssh-engine/src/host_key.rs:356-398 | decoding an encoding gives the bytes back, for every byte sequence |
| Base64.EncodeUndoesDecode | crates/ssh-engine/src/host_key.rs:356-398 | encoding what was decoded gives an unpadded text back exactly when its length fits whole bytes and the bits left over are zero |
| KnownHosts.HostKeyStore.ImportKnownHosts | crates/ssh-engine/src/host_key.rs:179-236 | the loop over the lines, its three counters and the rows it adds |
| KnownHosts.HostKeyStore.ExportKnownHosts | crates/ssh-engine/src/host_key.rs:242-273 | the printed lines and the number of keyed rows |
| KnownHosts.LineIsReadBack | crates/ssh-engine/src/host_key.rs:297-354 | printing a keyed row and parsing the line gives the row back exactly when host, key type, key data and fingerprint meet stated conditions |
| KnownHosts.OrdinaryHostsArePlain | crates/ssh-engine/src/host_key.rs:314-336 | a host without white space, comma, bracket or number sign always meets them |
| KnownHosts.ExtraWordsAreIgnored | crates/ssh-engine/src/host_key.rs:297-312 | words after the third change nothing |
| KnownHosts.ShortLinesAreUnusable | crates/ssh-engine/src/host_key.rs:297-312 | a line of fewer than three words is no entry |
| KnownHosts.KindsReadExactly | crates/ssh-engine/src/host_key.rs:307-313 | which kinds of key are read |
| KnownHosts.HostListsAreRefused | crates/ssh-engine/src/host_key.rs:314-336 | several hosts in one field and an unclosed bracket are refused |
| KnownHosts.BracketsDefaultTo22 | crates/ssh-engine/src/host_key.rs:314-336 | a bracketed host without a port means port 22 |
| KnownHosts.PortsAreSixteenBits | crates/ssh-engine/src/host_key.rs:314-336 | ports are unsigned decimal numbers of 16 bits, with at most a leading plus |
| KnownHosts.ExportIsImportedBack | crates/ssh-engine/src/host_key.rs:179-273 | exporting and importing into an empty store restores every keyed row and nothing else |
| KnownHosts.ReimportAddsNothing | crates/ssh-engine/src/host_key.rs:196-202 | importing the same text again adds nothing |
| KnownHosts.ImportingKeeps | crates/ssh-engine/src/host_key.rs:196-202 | importing never changes a known key |
| KnownHosts.FirstLineWins | crates/ssh-engine/src/host_key.rs:184-228 | an unknown endpoint gets a row exactly when a line names a key for it and its write does not fail, with the key and fingerprint of the first such line |
| KnownHosts.ImportedCountsNewRows | crates/ssh-engine/src/host_key.rs:184-236 | the counter of imported lines is the number of new rows, and errors come from failed writes only |
| KnownHosts.EveryLineIsCounted | crates/ssh-engine/src/host_key.rs:184-228 | imported, skipped and errors add up to the lines that are neither blank nor comments |
| TerminalTail.RetainTail | crates/local-storage/src/terminal_history.rs:271-280 | the loop computes the tail from the next character boundary |
| TerminalTail.TerminalHistory.AppendOutput | crates/local-storage/src/terminal_history.rs:63-117 | appends and truncates the content of an existing session; empty output changes nothing |
| TerminalTail.TailIsLongest | crates/local-storage/src/terminal_history.rs:271-280 | truncation keeps the longest end of the text that fits: never a broken character, never one less than fits |
| TerminalTail.KeptIsEnd | crates/local-storage/src/terminal_history.rs:271-280 | what is kept is an end of the text, one character more would not fit, and at most three bytes of the limit stay unused |
| TerminalTail.StreamingIsTruncatingOnce | crates/local-storage/src/terminal_history.rs:63-117 | truncating after every append gives what truncating all output once would give |
| LikeSearch.ReplacesEscapeEach | crates/local-storage/src/ssh_command_history.rs:237-242 | the three replacements in their order escape every special character exactly once |
| LikeSearch.EscapedMatchesPrefix | crates/local-storage/src/ssh_command_history.rs:178-202 | an escaped text before a final percent sign matches exactly the commands that start with it |
| LikeSearch.SearchIsContains | crates/local-storage/src/ssh_command_history.rs:173-202 | the wrapped pattern matches a command exactly when it contains the search text literally, up to ASCII case |

## Left out

- Sizes after serialization (1 MiB definition, 256 KiB inputs and output, 4 MiB history, 2 MiB resources): each check is an arbitrary boolean in the script of a step or a turn.
- The workspace id, name and size tests at the head of `validate`; names of inputs are judged by a parameter, and so is which names look secret.
- Timestamps, durations and the time of the next check in step records; the milliseconds of a wait result are an arbitrary function of the step and the number of its probe. Times of leases and histories are integers.
- Redaction and scrubbing of persisted runs and terminal output, and the resource snapshots an executor prepares.
- Numbers of JSON are exact: rounding to floating point and the difference between integers and floats are not modelled. How a value prints inside a text is a parameter.
- The executor, SQLite, the keychain and the network are scripts, parameters or arbitrary steps; a statement or transaction is one atomic step.
- Counters of the account are unbounded numbers; wrap-around at 64 bits is not modelled. The entitlement cache and the profile are left out.
- External changes whose JSON does not parse or whose deletion time is not RFC 3339, and the wrong entity type or origin: those tests come before the modelled part.
- The checks before a run starts (confirmation of effects, expected revision, unknown secret names, preparation of resources): a run that fails them is stored as ended and never executed.
- Purging the runs of a removed workspace.
- The connection type and its subtype row are folded into whether a connection is live; a store without a file has no stage lock and is not modelled.
- A fresh credential reference is known only to the task that makes it until that task publishes it.
- The digest of a public key is an uninterpreted function, and the order in which host keys are listed is a parameter.
- Trimming the search text of the command history, its other filters and its limits.
- StepWork.StepWork.RunWait: does not say how long the pause lasts, because time is not modelled.
