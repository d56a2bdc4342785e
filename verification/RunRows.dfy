/** The persisted row of a run: a lease that the runner renews, that anyone may ask to
    cancel, and that any process recovers once it has not been renewed for 30 seconds. */
module RunRows {
  import opened Errors
  import opened Runner
  import opened Values

  /** The document stored with a row. */
  datatype Document = Document(status: RunStatus, error: Option<string>, finishedAt: Option<int>, steps: seq<StepRun>)

  /** Times are in seconds. */
  datatype Row = Row(workspace: string, flow: string, status: RunStatus, cancelRequested: bool,
                     startedAt: int, updatedAt: int, finishedAt: Option<int>, document: Document)

  const LEASE_SECONDS: int := 30

  const LEASE_LOST: AppError := AppError.Validation("FLOW_RUN_LEASE_LOST")

  /** The statements that touch existing rows, from any process. */
  datatype Event =
    | Cancel(workspace: string, id: string)
    | Heartbeat(workspace: string, id: string, now: int)
    | Recover(workspace: string, now: int)
    | Save(workspace: string, id: string, document: Document, now: int)

  predicate Live(row: Row)
  {
    row.status == RunStatus.Running
  }

  /** What recovery writes over a row. */
  function Recovered(row: Row, now: int): Row
  {
    row.(status := RunStatus.Interrupted, finishedAt := Some(now),
         document := row.document.(status := RunStatus.Interrupted, error := Some("FLOW_INTERRUPTED"), finishedAt := Some(now)))
  }

  function Saved(row: Row, document: Document, now: int): Row
  {
    row.(status := document.status, document := document, finishedAt := document.finishedAt, updatedAt := now)
  }

  /** Whether the event's statement matches the row. */
  predicate Matches(id: string, row: Row, e: Event)
  {
    && Live(row) && row.workspace == e.workspace
    && (e.Recover? || id == e.id)
    && (e.Recover? ==> row.updatedAt < e.now - LEASE_SECONDS)
  }

  function After(id: string, row: Row, e: Event): Row
  {
    if !Matches(id, row, e) then row
    else
      match e
      case Cancel(_, _) => row.(cancelRequested := true)
      case Heartbeat(_, _, now) => row.(updatedAt := now)
      case Recover(_, now) => Recovered(row, now)
      case Save(_, _, document, now) => Saved(row, document, now)
  }

  /** The table of runs. */
  class RunTable {
    var rows: map<string, Row>

    constructor ()
      ensures rows == map[]
    {
      rows := map[];
    }

    /** Inserts a run unless its flow or workspace is gone; ids are primary keys. */
    method InsertRun(id: string, workspace: string, flow: string, document: Document, startedAt: int, flowIsLive: bool)
      returns (r: Result<(), AppError>)
      modifies this
      ensures r.Ok? <==> flowIsLive && id !in old(rows)
      ensures r.Ok? ==> rows == old(rows)[id := Row(workspace, flow, document.status, false, startedAt, startedAt, document.finishedAt, document)]
      ensures r.Err? ==> rows == old(rows)
      ensures !flowIsLive ==> r == Err(NotFound)
    {
      if !flowIsLive {
        return Err(NotFound);
      }
      if id in rows {
        return Err(AppError.Database(OtherDatabase));
      }
      rows := rows[id := Row(workspace, flow, document.status, false, startedAt, startedAt, document.finishedAt, document)];
      return Ok(());
    }

    method RequestCancel(workspace: string, id: string)
      modifies this
      ensures rows == Applied(old(rows), Cancel(workspace, id))
    {
      if id in rows && rows[id].workspace == workspace && rows[id].status == RunStatus.Running {
        rows := rows[id := rows[id].(cancelRequested := true)];
      }
      assert rows == Applied(old(rows), Cancel(workspace, id));
    }

    /** Renews the lease; answers whether the runner must stop. */
    method Beat(workspace: string, id: string, now: int) returns (stop: bool)
      modifies this
      ensures rows == Applied(old(rows), Heartbeat(workspace, id, now))
      ensures stop == MustStop(old(rows), workspace, id)
    {
      stop := true;
      if id in rows && rows[id].workspace == workspace && rows[id].status == RunStatus.Running {
        stop := rows[id].cancelRequested;
        rows := rows[id := rows[id].(updatedAt := now)];
      }
      assert rows == Applied(old(rows), Heartbeat(workspace, id, now));
    }

    /** Marks every run of the workspace whose lease ran out. */
    method RecoverStale(workspace: string, now: int)
      modifies this
      ensures rows == Applied(old(rows), Recover(workspace, now))
    {
      var pending := rows.Keys;
      var before := rows;
      while pending != {}
        invariant rows.Keys == before.Keys && pending <= before.Keys
        invariant forall id :: id in before ==>
                    rows[id] == if id in pending then before[id] else After(id, before[id], Recover(workspace, now))
        decreases |pending|
      {
        var id :| id in pending;
        var row := rows[id];
        if row.workspace == workspace && row.status == RunStatus.Running && row.updatedAt < now - LEASE_SECONDS {
          rows := rows[id := Recovered(row, now)];
        }
        pending := pending - {id};
      }
      assert rows == Applied(before, Recover(workspace, now));
    }

    /** Writes the runner's state; fails when the row is no longer running. */
    method PersistRun(workspace: string, id: string, document: Document, now: int) returns (r: Result<(), AppError>)
      modifies this
      ensures rows == Applied(old(rows), Save(workspace, id, document, now))
      ensures r == if HoldsLease(old(rows), workspace, id) then Ok(()) else Err(LEASE_LOST)
    {
      r := Err(LEASE_LOST);
      if id in rows && rows[id].workspace == workspace && rows[id].status == RunStatus.Running {
        rows := rows[id := Saved(rows[id], document, now)];
        r := Ok(());
      }
      assert rows == Applied(old(rows), Save(workspace, id, document, now));
    }
  }

  predicate HoldsLease(rows: map<string, Row>, workspace: string, id: string)
  {
    id in rows && rows[id].workspace == workspace && Live(rows[id])
  }

  predicate MustStop(rows: map<string, Row>, workspace: string, id: string)
  {
    !HoldsLease(rows, workspace, id) || rows[id].cancelRequested
  }

  function Applied(rows: map<string, Row>, e: Event): map<string, Row>
  {
    map id | id in rows :: After(id, rows[id], e)
  }

  function Replayed(rows: map<string, Row>, events: seq<Event>): map<string, Row>
    decreases |events|
  {
    if events == [] then rows else Replayed(Applied(rows, events[0]), events[1..])
  }

  // ---------- over every interleaving ----------

  /** A row that left `running` never changes again. */
  lemma {:induction false} EndedIsFrozen(rows: map<string, Row>, events: seq<Event>, id: string)
    requires id in rows && !Live(rows[id])
    ensures id in Replayed(rows, events) && Replayed(rows, events)[id] == rows[id]
    decreases |events|
  {
    if events != [] {
      EndedIsFrozen(Applied(rows, events[0]), events[1..], id);
    }
  }

  /** A row leaves `running` at most once: of all prefixes of a history, those where it is
      still running come first. */
  lemma {:induction false} LeavesRunningOnce(rows: map<string, Row>, events: seq<Event>, id: string, i: nat, j: nat)
    requires id in rows && i <= j <= |events|
    ensures id in Replayed(rows, events[..i]) && id in Replayed(rows, events[..j])
    ensures !Live(Replayed(rows, events[..i])[id]) ==> Replayed(rows, events[..j])[id] == Replayed(rows, events[..i])[id]
  {
    ReplaySplits(rows, events[..j], i);
    assert events[..j][..i] == events[..i];
    KeysStay(rows, events[..i]);
    KeysStay(rows, events[..j]);
    if !Live(Replayed(rows, events[..i])[id]) {
      EndedIsFrozen(Replayed(rows, events[..i]), events[..j][i..], id);
    }
  }

  lemma {:induction false} ReplaySplits(rows: map<string, Row>, events: seq<Event>, i: nat)
    requires i <= |events|
    ensures Replayed(rows, events) == Replayed(Replayed(rows, events[..i]), events[i..])
    decreases |events|
  {
    if i > 0 {
      ReplaySplits(Applied(rows, events[0]), events[1..], i - 1);
      assert events[..i][1..] == events[1..][..i - 1];
    } else {
      assert events[i..] == events;
    }
  }

  lemma {:induction false} KeysStay(rows: map<string, Row>, events: seq<Event>)
    ensures Replayed(rows, events).Keys == rows.Keys
    decreases |events|
  {
    if events != [] {
      KeysStay(Applied(rows, events[0]), events[1..]);
    }
  }

  /** A cancel request is never withdrawn: every later heartbeat tells the runner to stop. */
  lemma {:induction false} StopIsFinal(rows: map<string, Row>, events: seq<Event>, workspace: string, id: string)
    requires id in rows && rows[id].workspace == workspace
    requires MustStop(rows, workspace, id)
    ensures MustStop(Replayed(rows, events), workspace, id)
    ensures rows[id].cancelRequested ==> id in Replayed(rows, events) && Replayed(rows, events)[id].cancelRequested
    decreases |events|
  {
    if events != [] {
      StopIsFinal(Applied(rows, events[0]), events[1..], workspace, id);
    }
  }

  /** Asking to cancel a run takes effect whatever happens afterwards. */
  lemma CancelIsHeard(rows: map<string, Row>, events: seq<Event>, workspace: string, id: string)
    requires id in rows && rows[id].workspace == workspace
    ensures MustStop(Replayed(Applied(rows, Cancel(workspace, id)), events), workspace, id)
  {
    StopIsFinal(Applied(rows, Cancel(workspace, id)), events, workspace, id);
  }

  /** How the life of one row goes on. */
  datatype Fate = Alive(renewedAt: int) | Finished(status: RunStatus) | Expired

  /** The fate of a running row, read off the events alone: it expires at the first recovery
      that comes more than 30 seconds after the last renewal, unless the runner finished. */
  function FateOf(renewedAt: int, events: seq<Event>, workspace: string, id: string): Fate
    decreases |events|
  {
    if events == [] then Alive(renewedAt)
    else
      var e := events[0];
      if e.workspace != workspace then FateOf(renewedAt, events[1..], workspace, id)
      else
        match e
        case Recover(_, now) =>
          if now - renewedAt > LEASE_SECONDS then Expired else FateOf(renewedAt, events[1..], workspace, id)
        case Heartbeat(_, target, now) => FateOf(if target == id then now else renewedAt, events[1..], workspace, id)
        case Save(_, target, document, now) =>
          if target != id then FateOf(renewedAt, events[1..], workspace, id)
          else if document.status != RunStatus.Running then Finished(document.status)
          else FateOf(now, events[1..], workspace, id)
        case Cancel(_, _) => FateOf(renewedAt, events[1..], workspace, id)
  }

  /** The table gives every running row exactly its fate. */
  lemma {:induction false} TableFollowsFate(rows: map<string, Row>, events: seq<Event>, id: string)
    requires id in rows && Live(rows[id])
    ensures id in Replayed(rows, events)
    ensures var row := Replayed(rows, events)[id];
            match FateOf(rows[id].updatedAt, events, rows[id].workspace, id)
            case Alive(renewedAt) => Live(row) && row.updatedAt == renewedAt
            case Finished(status) => row.status == status && !Live(row) && row.document.status == status
            case Expired => row.status == RunStatus.Interrupted && row.document.error == Some("FLOW_INTERRUPTED")
    decreases |events|
  {
    if events != [] {
      var next := Applied(rows, events[0]);
      if Live(next[id]) {
        TableFollowsFate(next, events[1..], id);
      } else {
        EndedIsFrozen(next, events[1..], id);
      }
    }
  }

  /** A runner is told to stop exactly for a cause: its row ended, or a cancel request for it came
      while it was running. Nothing else stops a run. */
  lemma {:induction false} StopHasCause(rows: map<string, Row>, events: seq<Event>, id: string)
    requires id in rows && Live(rows[id])
    ensures MustStop(Replayed(rows, events), rows[id].workspace, id) <==>
            || !FateOf(rows[id].updatedAt, events, rows[id].workspace, id).Alive?
            || rows[id].cancelRequested || Cancel(rows[id].workspace, id) in events
    decreases |events|
  {
    if events != [] {
      var next := Applied(rows, events[0]);
      assert events == [events[0]] + events[1..];
      if Live(next[id]) {
        StopHasCause(next, events[1..], id);
      } else {
        EndedIsFrozen(next, events[1..], id);
      }
    }
  }

  /** The runner renews its lease in time: between two of its renewals, and after the last
      one, no recovery runs more than 30 seconds later. */
  predicate RenewsInTime(renewedAt: int, events: seq<Event>, workspace: string, id: string)
    decreases |events|
  {
    events == [] ||
    var e := events[0];
    var renewed := if (e.Heartbeat? || e.Save?) && e.workspace == workspace && e.id == id then e.now else renewedAt;
    && (e.Recover? && e.workspace == workspace ==> e.now <= renewedAt + LEASE_SECONDS)
    && RenewsInTime(renewed, events[1..], workspace, id)
  }

  /** A runner that renews in time is never interrupted by anyone's recovery. */
  lemma {:induction false} TimelyRunnerKeepsLease(rows: map<string, Row>, events: seq<Event>, id: string)
    requires id in rows && Live(rows[id])
    requires RenewsInTime(rows[id].updatedAt, events, rows[id].workspace, id)
    requires forall e :: e in events && e.Save? ==> e.document.status != RunStatus.Interrupted
    ensures id in Replayed(rows, events) && Replayed(rows, events)[id].status != RunStatus.Interrupted
    decreases |events|
  {
    if events != [] {
      var next := Applied(rows, events[0]);
      assert events[0] in events;
      if Live(next[id]) {
        TimelyRunnerKeepsLease(next, events[1..], id);
      } else {
        EndedIsFrozen(next, events[1..], id);
      }
    }
  }

  // ---------- reading a row back ----------

  function Settle(step: StepRun): StepRun
  {
    if step.status == StepStatus.Running then
      step.(status := StepStatus.Interrupted, error := Some("FLOW_INTERRUPTED"))
    else if step.status == StepStatus.Pending then step.(status := StepStatus.Skipped)
    else step
  }

  /** An unfinished step is settled once, as interrupted if it was running and as skipped if it was
      not reached; a finished one stays, and nothing else of a step changes. */
  lemma SettlingSteps(step: StepRun)
    ensures step.status == StepStatus.Running ==>
              Settle(step).status == StepStatus.Interrupted && Settle(step).error == Some("FLOW_INTERRUPTED")
    ensures step.status == StepStatus.Pending ==> Settle(step).status == StepStatus.Skipped && Settle(step).error == step.error
    ensures step.status != StepStatus.Running && step.status != StepStatus.Pending ==> Settle(step) == step
    ensures Settle(step).stepId == step.stepId && Settle(step).attempts == step.attempts && Settle(step).output == step.output
    ensures Settle(Settle(step)) == Settle(step)
  {
  }

  /** What each event does to a row it matches: a cancel request only marks it, a heartbeat only
      renews it, a write stores the runner's document, and a recovery ends it as interrupted
      while keeping the steps. */
  lemma EventsOnRows(rows: map<string, Row>, id: string, workspace: string, document: Document, now: int)
    requires HoldsLease(rows, workspace, id)
    ensures Applied(rows, Cancel(workspace, id))[id] == rows[id].(cancelRequested := true)
    ensures Applied(rows, Heartbeat(workspace, id, now))[id] == rows[id].(updatedAt := now)
    ensures var row, saved := rows[id], Applied(rows, Save(workspace, id, document, now))[id];
            && saved.document == document && saved.status == document.status && saved.finishedAt == document.finishedAt
            && saved.updatedAt == now && saved.cancelRequested == row.cancelRequested && saved.startedAt == row.startedAt
    ensures var row, recovered := rows[id], Applied(rows, Recover(workspace, now))[id];
            if now - row.updatedAt > 30
            then && recovered.status == RunStatus.Interrupted && recovered.finishedAt == Some(now)
                 && recovered.document.status == RunStatus.Interrupted && recovered.document.error == Some("FLOW_INTERRUPTED")
                 && recovered.document.steps == row.document.steps && recovered.updatedAt == row.updatedAt
            else recovered == row
  {
  }

  /** Reads a stored run: the unfinished steps of an interrupted run are settled in place. */
  method DecodeRun(stored: Document) returns (document: Document)
    ensures document == stored.(steps := document.steps) && |document.steps| == |stored.steps|
    ensures forall i :: 0 <= i < |stored.steps| ==>
              document.steps[i] == if stored.status == RunStatus.Interrupted then Settle(stored.steps[i]) else stored.steps[i]
    ensures stored.status == RunStatus.Interrupted ==> forall i :: 0 <= i < |document.steps| ==>
              document.steps[i].status != StepStatus.Running && document.steps[i].status != StepStatus.Pending
  {
    document := stored;
    if stored.status != RunStatus.Interrupted {
      return;
    }
    var steps := stored.steps;
    for i := 0 to |steps|
      invariant |steps| == |stored.steps|
      invariant forall k :: 0 <= k < |steps| ==> steps[k] == if k < i then Settle(stored.steps[k]) else stored.steps[k]
    {
      if steps[i].status == StepStatus.Running {
        steps := steps[i := steps[i].(status := StepStatus.Interrupted, error := Some("FLOW_INTERRUPTED"))];
      } else if steps[i].status == StepStatus.Pending {
        steps := steps[i := steps[i].(status := StepStatus.Skipped)];
      }
    }
    document := stored.(steps := steps);
  }
}
