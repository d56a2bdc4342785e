/** A run under its lease: the answers its runner gets come from the run table, on which other
    processes act at any moment. */
module RunLease {
  import opened Runner
  import opened RunRows
  import opened StepWork
  import opened Validation

  /** Where the heartbeat of a turn and the write that marks its step as running stand in the
      history of the table. */
  datatype Turn = Turn(beat: nat, write: nat)

  /** The table after the first n events, whoever caused them. */
  function TableAt(rows: map<string, Row>, history: seq<Event>, n: nat): map<string, Row>
    requires n <= |history|
  {
    Replayed(rows, history[..n])
  }

  /** What the table answers to one turn: to its heartbeat, to the write that marks the step, and
      to every write the work of the step makes. An answer of the script that is no write
      does not count as one that succeeded. */
  ghost predicate AnsweredAt(visit: Visit, turn: Turn, rows: map<string, Row>, history: seq<Event>, workspace: string, id: string)
  {
    && turn.beat <= turn.write <= |history|
    && (visit.heartbeat.Ok? ==> visit.heartbeat.value == MustStop(TableAt(rows, history, turn.beat), workspace, id))
    && (visit.begun.Ok? ==> HoldsLease(TableAt(rows, history, turn.write), workspace, id))
    && (forall a :: a in Granted(visit.script) ==>
          a.moment <= |history| && HoldsLease(TableAt(rows, history, a.moment), workspace, id))
  }

  /** The turns of the runner are answered by the table. Between them, and inside them, any
      events may happen. */
  ghost predicate Answered(visits: seq<Visit>, turns: seq<Turn>, rows: map<string, Row>, history: seq<Event>,
                           workspace: string, id: string)
  {
    && |turns| == |visits|
    && forall k {:trigger turns[k]} :: 0 <= k < |turns| ==> AnsweredAt(visits[k], turns[k], rows, history, workspace, id)
  }

  /** What the table said once to stop, it says at every later moment. */
  lemma StopStays(rows: map<string, Row>, history: seq<Event>, workspace: string, id: string, j: nat, n: nat)
    requires id in rows && rows[id].workspace == workspace && j <= n <= |history|
    requires MustStop(TableAt(rows, history, j), workspace, id)
    ensures MustStop(TableAt(rows, history, n), workspace, id)
  {
    Between(rows, history, j, n);
    KeysStay(rows, history[..j]);
    WorkspaceStays(rows, history[..j], id);
    StopIsFinal(TableAt(rows, history, j), history[j..n], workspace, id);
  }

  lemma Between(rows: map<string, Row>, history: seq<Event>, j: nat, n: nat)
    requires j <= n <= |history|
    ensures TableAt(rows, history, n) == Replayed(TableAt(rows, history, j), history[j..n])
  {
    ReplaySplits(rows, history[..n], j);
    assert history[..n][..j] == history[..j];
  }

  lemma {:induction false} WorkspaceStays(rows: map<string, Row>, events: seq<Event>, id: string)
    requires id in rows
    ensures id in Replayed(rows, events) && Replayed(rows, events)[id].workspace == rows[id].workspace
    decreases |events|
  {
    if events != [] {
      WorkspaceStays(Applied(rows, events[0]), events[1..], id);
    }
  }

  /** A lease that was lost stays lost. */
  lemma LossStays(rows: map<string, Row>, history: seq<Event>, workspace: string, id: string, j: nat, n: nat)
    requires id in rows && rows[id].workspace == workspace && j <= n <= |history|
    requires !HoldsLease(TableAt(rows, history, j), workspace, id)
    ensures !HoldsLease(TableAt(rows, history, n), workspace, id)
  {
    Between(rows, history, j, n);
    WorkspaceStays(rows, history[..j], id);
    EndedIsFrozen(TableAt(rows, history, j), history[j..n], id);
  }

  /** Once a cancel request or a recovery is in the table, no turn whose heartbeat comes later
      begins a step. */
  lemma NoStepAfterStop(visits: seq<Visit>, turns: seq<Turn>, rows: map<string, Row>, history: seq<Event>, workspace: string,
                        id: string, begun: nat, performed: nat, j: nat, k: nat)
    requires id in rows && rows[id].workspace == workspace
    requires Answered(visits, turns, rows, history, workspace, id) && Permitted(visits, begun, performed)
    requires j <= |history| && MustStop(TableAt(rows, history, j), workspace, id)
    requires k < |turns| && j <= turns[k].beat
    ensures begun <= k
  {
    assert AnsweredAt(visits[k], turns[k], rows, history, workspace, id);
    StopStays(rows, history, workspace, id, j, turns[k].beat);
  }

  /** Once the row has left `running`, no work of a step starts whose write comes later, even if
      its heartbeat came before. */
  lemma NoWorkAfterEnd(visits: seq<Visit>, turns: seq<Turn>, rows: map<string, Row>, history: seq<Event>, workspace: string,
                       id: string, begun: nat, performed: nat, j: nat, k: nat)
    requires id in rows && rows[id].workspace == workspace
    requires Answered(visits, turns, rows, history, workspace, id) && Permitted(visits, begun, performed)
    requires j <= |history| && !HoldsLease(TableAt(rows, history, j), workspace, id)
    requires k < |turns| && j <= turns[k].write
    ensures performed <= k
  {
    assert AnsweredAt(visits[k], turns[k], rows, history, workspace, id);
    LossStays(rows, history, workspace, id, j, turns[k].write);
  }

  /** Once the row has left `running`, no call is handed to the executor whose opening write
      comes later, in any attempt of any step. */
  lemma NoCallAfterEnd(visits: seq<Visit>, turns: seq<Turn>, rows: map<string, Row>, history: seq<Event>, workspace: string,
                       id: string, handed: seq<Answer>, j: nat, k: nat)
    requires id in rows && rows[id].workspace == workspace
    requires Answered(visits, turns, rows, history, workspace, id) && HandedInTurns(visits, handed)
    requires j <= |history| && !HoldsLease(TableAt(rows, history, j), workspace, id)
    requires k < |handed|
    ensures handed[k].moment < j
  {
    var i :| 0 <= i < |visits| && handed[k] in Granted(visits[i].script);
    assert AnsweredAt(visits[i], turns[i], rows, history, workspace, id);
    if j <= handed[k].moment {
      LossStays(rows, history, workspace, id, j, handed[k].moment);
    }
  }

  /** A whole run whose turns the table answered: it begins no step after a stop, and starts no
      work and hands over no call after its row has ended. */
  method RunLeased(run: FlowRun, visits: seq<Visit>, env: Env, ghost turns: seq<Turn>, ghost rows: map<string, Row>,
                   ghost history: seq<Event>, ghost workspace: string, ghost id: string)
    returns (lost: bool)
    requires ValidSteps(run.steps) && run.Started() && |visits| >= |run.steps|
    requires id in rows && rows[id].workspace == workspace
    requires Answered(visits, turns, rows, history, workspace, id)
    modifies run
    ensures FinalState(run.steps, run.done, run.at, run.stepRuns, run.outputs, run.status, run.error, lost)
    ensures forall j, k :: 0 <= k < |turns| && 0 <= j <= turns[k].beat && MustStop(TableAt(rows, history, j), workspace, id) ==>
              run.begun <= k
    ensures forall j, k :: 0 <= k < |turns| && 0 <= j <= turns[k].write && !HoldsLease(TableAt(rows, history, j), workspace, id) ==>
              run.performed <= k
    ensures forall j, k :: 0 <= k < |run.handed| && 0 <= j <= |history| && !HoldsLease(TableAt(rows, history, j), workspace, id) ==>
              run.handed[k].moment < j
  {
    ghost var ended;
    lost, ended := run.RunToEnd(visits, env);
    forall j, k | 0 <= k < |turns| && 0 <= j <= turns[k].beat && MustStop(TableAt(rows, history, j), workspace, id)
      ensures run.begun <= k
    {
      NoStepAfterStop(visits, turns, rows, history, workspace, id, run.begun, run.performed, j, k);
    }
    forall j, k | 0 <= k < |turns| && 0 <= j <= turns[k].write && !HoldsLease(TableAt(rows, history, j), workspace, id)
      ensures run.performed <= k
    {
      NoWorkAfterEnd(visits, turns, rows, history, workspace, id, run.begun, run.performed, j, k);
    }
    forall j, k | 0 <= k < |run.handed| && 0 <= j <= |history| && !HoldsLease(TableAt(rows, history, j), workspace, id)
      ensures run.handed[k].moment < j
    {
      NoCallAfterEnd(visits, turns, rows, history, workspace, id, run.handed, j, k);
    }
  }

  /** A row that another process ended keeps its document through the rest of the history and
      through the runner's own last write. */
  lemma EndedRowOutlivesTheRun(rows: map<string, Row>, history: seq<Event>, workspace: string, id: string, j: nat,
                               document: Document, now: int)
    requires id in rows && rows[id].workspace == workspace
    requires j <= |history| && !HoldsLease(TableAt(rows, history, j), workspace, id)
    ensures var last := Applied(Replayed(rows, history), Save(workspace, id, document, now));
            && id in last && id in TableAt(rows, history, j)
            && last[id] == TableAt(rows, history, j)[id]
  {
    Between(rows, history, j, |history|);
    assert history[..|history|] == history;
    WorkspaceStays(rows, history[..j], id);
    EndedIsFrozen(TableAt(rows, history, j), history[j..|history|], id);
  }
}
