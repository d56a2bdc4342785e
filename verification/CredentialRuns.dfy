/** Every interleaving of staging, business transactions, collection, revealing and crashes.
    A step is one database statement or transaction, or one call to the keychain. */
module CredentialRuns {
  import opened Values
  import opened CredentialLedger

  /** A reveal asks for the secret of one connection under one reference. */
  datatype Query = Query(workspace: nat, connection: nat, reference: Reference)

  datatype Task =
    | Finished
    // staging a new secret, from the stage lock to the end of the edit
    | StageWaits(workspace: nat)
    | StageHolds(workspace: nat)
    | Journaled(made: Reference)
    | Staging(made: Reference)
    // collecting, inside one write transaction
    | CollectWaits
    | RecoverWaits
    | RecoverHolds
    | Collecting(recovery: bool, remaining: set<Reference>)
    // revealing
    | RevealWaits(query: Query)
    | RevealHolds(query: Query)
    | RevealSeen(query: Query, revision: int)
    | RevealRead(query: Query, revision: int, secret: string)
    | Revealed(query: Query, revision: int, secret: string)

  datatype World = World(db: Database, store: Store, stage: Option<nat>, writer: Option<nat>, tasks: map<nat, Task>)

  predicate HoldsStage(task: Task)
  {
    || task.StageHolds? || task.Journaled? || task.Staging? || task.RecoverHolds?
    || (task.Collecting? && task.recovery) || task.RevealHolds? || task.RevealSeen? || task.RevealRead?
  }

  predicate HoldsWriter(task: Task) { task.Collecting? }

  /** The revision of a live connection that uses the reference, as a reveal queries it. */
  function View(db: Database, q: Query): Option<int>
  {
    if HeldBy(db, q.workspace, q.connection, q.reference) then Some(db.connections[q.connection].revision) else None
  }

  datatype Action =
    | Start(id: nat, task: Task)
    | TakeStage(id: nat)
    | Adopt(id: nat, workspace: nat, reference: Reference)
    | Journal(id: nat, record: nat)
    | Write(id: nat, value: string, written: bool)
    | Discard(id: nat, references: set<Reference>)
    | FinishStage(id: nat)
    | Commit(id: nat, workspaces: set<nat>, connections: map<nat, Connection>, attach: Option<nat>, mutated: bool)
    | BeginCollect(id: nat)
    | DeleteOne(id: nat, reference: Reference, deleted: bool)
    | CommitCollect(id: nat)
    | CheckFirst(id: nat)
    | ReadSecret(id: nat)
    | CheckAgain(id: nat)
    | Crash(id: nat)
    // single effects that need no program point of their own
    | Create(reference: Reference, value: string)
    | Rotate(reference: Reference, value: string)
    | Delete(reference: Reference)
    | Sweep(reference: Reference)

  /** A task has made the reference and is about to write its secret. */
  ghost predicate InMaking(w: World, r: Reference)
  {
    exists t :: IsMaking(w, t, r)
  }

  predicate IsMaking(w: World, t: nat, r: Reference)
  {
    t in w.tasks && w.tasks[t] == Journaled(r)
  }

  function Move(w: World, id: nat, task: Task): World { w.(tasks := w.tasks[id := task]) }

  /** A task ends and lets go of every lock it holds. An open transaction rolls back. */
  function End(w: World, id: nat, task: Task): World
  {
    Move(w, id, task).(stage := if w.stage == Some(id) then None else w.stage,
                       writer := if w.writer == Some(id) then None else w.writer)
  }

  function Enter(w: World, a: Action): World
  {
    if a.Start? && a.id !in w.tasks
       && (a.task.StageWaits? || a.task.CollectWaits? || a.task.RecoverWaits? || a.task.RevealWaits?)
    then Move(w, a.id, a.task)
    else w
  }

  function Locking(w: World, id: nat, task: Task): World
  {
    if w.stage.Some? then w
    else
      match task
      case StageWaits(workspace) => Move(w, id, StageHolds(workspace)).(stage := Some(id))
      case RecoverWaits => Move(w, id, RecoverHolds).(stage := Some(id))
      case RevealWaits(query) => Move(w, id, RevealHolds(query)).(stage := Some(id))
      case _ => w
  }

  /** Staging: a journal row under a fresh reference, then the secret. A failed write is
      cleaned up like any other failed edit. */
  function StagingStep(w: World, a: Action, task: Task): World
  {
    match a
    case Journal(id, record) =>
      if !(task.StageHolds? || task.Staging?) || w.writer.Some? then w
      else
        var workspace := if task.StageHolds? then task.workspace else task.made.workspace;
        var made := Reference(workspace, record);
        if !Unreferenced(w.db.connections, made) then w
        else if made in w.db.ledger then End(w, id, Finished)
        else Move(w, id, Journaled(made)).(db := w.db.(ledger := w.db.ledger[made := Entry(workspace, State.Staged)]))
    case Write(id, value, written) =>
      if !task.Journaled? then w
      else
        Move(w, id, Staging(task.made)).(
          store := if written then w.store[task.made := Secret(value, true)] else w.store)
    case Discard(id, references) =>
      if !task.Staging? || w.writer.Some? then w
      else w.(db := w.db.(ledger := Discarded(w.db.ledger, references)))
    case FinishStage(id) => if task.StageHolds? || task.Staging? then End(w, id, Finished) else w
    case _ => w
  }

  /** A failed edit turns its references into garbage, but only while they are staged. */
  function Discarded(ledger: Ledger, references: set<Reference>): Ledger
  {
    map r | r in ledger ::
      if r in references && ledger[r].state.Staged? then ledger[r].(state := Garbage) else ledger[r]
  }

  function Attaching(ledger: Ledger, workspace: nat): Ledger
  {
    map r | r in ledger :: if ledger[r].workspace == workspace then ledger[r].(state := Attached) else ledger[r]
  }

  /** The task edits a connection under the stage lock. */
  predicate IsEditor(w: World, id: nat)
  {
    w.stage == Some(id) && id in w.tasks && (w.tasks[id].StageHolds? || w.tasks[id].Staging?)
  }

  /** What a business transaction cannot do: use a reference that is still being made, which
      is known to no other task, or attach a workspace outside the stage lock. Otherwise it
      may change, remove and restore connections and workspaces as it likes. */
  ghost predicate Allowed(w: World, a: Action)
    requires a.Commit?
  {
    && (forall r {:trigger InMaking(w, r)} :: InMaking(w, r) ==> Unreferenced(a.connections, r))
    && (a.attach.Some? ==> IsEditor(w, a.id))
  }

  predicate Unreferenced(connections: map<nat, Connection>, r: Reference)
  {
    forall c :: c in connections ==> connections[c].reference != Some(r)
  }

  /** A committed business transaction. The ledger is reconciled only when rows changed. */
  function Committed(db: Database, a: Action): Database
    requires a.Commit?
  {
    var ledger := if a.attach.Some? then Attaching(db.ledger, a.attach.value) else db.ledger;
    var next := Database(a.workspaces, a.connections, ledger);
    if a.mutated then next.(ledger := Reconciled(next)) else next
  }

  /** Adopting tracks an existing reference as attached. */
  function Adopted(db: Database, workspace: nat, r: Reference): Database
  {
    db.(ledger := db.ledger[r := if r in db.ledger then db.ledger[r].(state := Attached) else Entry(workspace, Attached)])
  }

  function CollectingAct(w: World, a: Action, task: Task): World
  {
    match a
    case BeginCollect(id) =>
      if w.writer.Some? || !(task.CollectWaits? || task.RecoverHolds?) then w
      else Move(w, id, Collecting(task.RecoverHolds?, Condemned(w.db, task.RecoverHolds?))).(writer := Some(id))
    case DeleteOne(id, r, deleted) =>
      if !task.Collecting? || r !in task.remaining || r !in w.db.ledger then w
      else if r.workspace != w.db.ledger[r].workspace || !deleted then End(w, id, Finished)
      else Move(w, id, Collecting(task.recovery, task.remaining - {r})).(store := w.store - {r})
    case CommitCollect(id) =>
      if task.Collecting? && task.remaining == {}
      then End(w, id, Finished).(db := w.db.(ledger := Collected(w.db, task.recovery)))
      else w
    case _ => w
  }

  function Revealing(w: World, a: Action, task: Task): World
  {
    match a
    case CheckFirst(id) =>
      if !task.RevealHolds? then w
      else if View(w.db, task.query).None? then End(w, id, Finished)
      else Move(w, id, RevealSeen(task.query, View(w.db, task.query).value))
    case ReadSecret(id) =>
      if !task.RevealSeen? then w
      else if task.query.reference.workspace != task.query.workspace || task.query.reference !in w.store then End(w, id, Finished)
      else Move(w, id, RevealRead(task.query, task.revision, w.store[task.query.reference].value))
    case CheckAgain(id) =>
      if !task.RevealRead? || w.writer.Some? then w
      else if View(w.db, task.query) != Some(task.revision) then End(w, id, Finished)
      else End(w, id, Revealed(task.query, task.revision, task.secret))
    case _ => w
  }

  /** A connection row that is not deleted names the reference, whether or not its workspace is live. */
  predicate IsNamed(db: Database, r: Reference)
  {
    exists c :: c in db.connections && db.connections[c].live && db.connections[c].workspace == r.workspace
                && db.connections[c].reference == Some(r)
  }

  /** Keychain calls that take every lock they need for one effect only. */
  function Single(w: World, a: Action): World
  {
    match a
    case Create(r, value) =>
      if r !in w.store && r !in w.db.ledger then w.(store := w.store[r := Secret(value, false)]) else w
    case Rotate(r, value) =>
      if w.stage.None? && w.writer.None?
      then w.(store := w.store[r := Secret(value, r in w.store && w.store[r].staged)])
      else w
    case Delete(r) =>
      if w.stage.None? && w.writer.None? then w.(store := w.store - {r}) else w
    case Sweep(r) =>
      if w.writer.None? && r !in w.db.ledger && !IsNamed(w.db, r) then w.(store := w.store - {r}) else w
    case _ => w
  }

  /** Updates of the database that commit by themselves. They wait for the collector. */
  ghost function Storing(w: World, a: Action): World
  {
    match a
    case Adopt(_, workspace, r) =>
      if w.writer.None? && !InMaking(w, r) then w.(db := Adopted(w.db, workspace, r)) else w
    case Commit(_, _, _, _, _) =>
      if w.writer.None? && Allowed(w, a) then w.(db := Committed(w.db, a)) else w
    case _ => w
  }

  /** One step. A step that is not enabled changes nothing. */
  ghost function Act(w: World, a: Action): World
  {
    if a.Create? || a.Rotate? || a.Delete? || a.Sweep? then Single(w, a)
    else if a.Start? then Enter(w, a)
    else if a.Adopt? || a.Commit? then Storing(w, a)
    else if a.id !in w.tasks then w
    else if a.TakeStage? then Locking(w, a.id, w.tasks[a.id])
    else if a.Crash? then End(w, a.id, Finished)
    else if a.Journal? || a.Write? || a.Discard? || a.FinishStage? then StagingStep(w, a, w.tasks[a.id])
    else if a.BeginCollect? || a.DeleteOne? || a.CommitCollect? then CollectingAct(w, a, w.tasks[a.id])
    else Revealing(w, a, w.tasks[a.id])
  }

  ghost function Run(w: World, actions: seq<Action>): World
    decreases |actions|
  {
    if actions == [] then w else Run(Act(w, actions[0]), actions[1..])
  }

  // ---------- the invariant ----------

  /** A collector only has condemned references left, and the others are out of the store. */
  ghost predicate CollectorFits(w: World, recovery: bool, remaining: set<Reference>)
  {
    var condemned := Condemned(w.db, recovery);
    remaining <= condemned && (condemned - remaining) !! w.store.Keys
  }

  ghost predicate JournaledFits(w: World, made: Reference)
  {
    && made in w.db.ledger && w.db.ledger[made].state == State.Staged
    && Unreferenced(w.db.connections, made)
  }

  ghost predicate TaskFits(w: World, task: Task)
  {
    match task
    case Journaled(made) => JournaledFits(w, made)
    case Collecting(recovery, remaining) => CollectorFits(w, recovery, remaining)
    case _ => true
  }

  ghost predicate LocksFit(w: World, t: nat)
    requires t in w.tasks
  {
    (HoldsStage(w.tasks[t]) <==> w.stage == Some(t)) && (HoldsWriter(w.tasks[t]) <==> w.writer == Some(t))
  }

  ghost predicate FitsAt(w: World, t: nat)
    requires t in w.tasks
  {
    LocksFit(w, t) && TaskFits(w, w.tasks[t])
  }

  /** A secret that came in through staging has a committed ledger row as long as it is stored. */
  ghost predicate StagedAreJournaled(w: World)
  {
    forall r {:trigger r in w.store} :: r in w.store && w.store[r].staged ==> r in w.db.ledger
  }

  /** Only tasks hold locks. */
  ghost predicate Owned(w: World)
  {
    (w.stage.Some? ==> w.stage.value in w.tasks) && (w.writer.Some? ==> w.writer.value in w.tasks)
  }

  ghost predicate Inv(w: World)
  {
    && Owned(w) && StagedAreJournaled(w)
    && (forall t {:trigger FitsAt(w, t)} :: t in w.tasks ==> FitsAt(w, t))
  }

  /** What one step needs to know about the acting task and one other. */
  ghost predicate Known(w: World, id: nat, t: nat)
  {
    Owned(w) && StagedAreJournaled(w) && (id in w.tasks ==> FitsAt(w, id)) && (t in w.tasks ==> FitsAt(w, t))
  }

  /** Reading a live reference off a holder. */
  lemma HeldIsLive(db: Database, q: Query)
    requires View(db, q).Some?
    ensures q.reference in LiveReferences(db, q.workspace)
  {
  }

  lemma UnreferencedIsNotLive(db: Database, r: Reference, workspace: nat)
    requires Unreferenced(db.connections, r)
    ensures r !in LiveReferences(db, workspace)
  {
  }

  lemma SingleFits(w: World, a: Action, t: nat)
    requires Known(w, t, t) && t in w.tasks
    ensures FitsAt(Single(w, a), t)
  {
  }

  lemma LockingFits(w: World, id: nat, t: nat)
    requires id in w.tasks && Known(w, id, t) && t in w.tasks
    ensures FitsAt(Locking(w, id, w.tasks[id]), t)
  {
  }

  lemma EndFits(w: World, id: nat, t: nat)
    requires id in w.tasks && Known(w, id, t) && t in w.tasks
    ensures FitsAt(End(w, id, Finished), t)
  {
  }

  lemma StagingFits(w: World, a: Action, t: nat)
    requires (a.Journal? || a.Write? || a.Discard? || a.FinishStage?) && a.id in w.tasks && t in w.tasks && Known(w, a.id, t)
    ensures FitsAt(StagingStep(w, a, w.tasks[a.id]), t)
    ensures StagedAreJournaled(StagingStep(w, a, w.tasks[a.id]))
  {
  }

  lemma CollectingFits(w: World, a: Action, t: nat)
    requires (a.BeginCollect? || a.DeleteOne? || a.CommitCollect?) && a.id in w.tasks && t in w.tasks && Known(w, a.id, t)
    ensures FitsAt(CollectingAct(w, a, w.tasks[a.id]), t)
    ensures StagedAreJournaled(CollectingAct(w, a, w.tasks[a.id]))
  {
  }

  lemma RevealingFits(w: World, a: Action, t: nat)
    requires (a.CheckFirst? || a.ReadSecret? || a.CheckAgain?) && a.id in w.tasks && t in w.tasks && Known(w, a.id, t)
    ensures FitsAt(Revealing(w, a, w.tasks[a.id]), t)
  {
  }

  /** A reconciled or attached ledger keeps its rows, and a reference in the making stays staged. */
  lemma CommittedKeepsStaged(w: World, a: Action, made: Reference)
    requires a.Commit? && Unreferenced(a.connections, made) && a.attach.None?
    requires made in w.db.ledger && w.db.ledger[made].state == State.Staged
    ensures Committed(w.db, a).ledger.Keys == w.db.ledger.Keys
    ensures Committed(w.db, a).ledger[made] == w.db.ledger[made]
  {
    var next := Database(a.workspaces, a.connections, w.db.ledger);
    UnreferencedIsNotLive(next, made, w.db.ledger[made].workspace);
  }

  lemma CommitFits(w: World, a: Action, t: nat)
    requires a.Commit? && t in w.tasks && Known(w, a.id, t) && w.writer.None? && Allowed(w, a)
    ensures FitsAt(w.(db := Committed(w.db, a)), t)
  {
    var task := w.tasks[t];
    if task.Journaled? {
      assert IsMaking(w, t, task.made);
      assert InMaking(w, task.made);
      CommittedKeepsStaged(w, a, task.made);
    }
  }

  lemma StoringFits(w: World, a: Action, t: nat)
    requires (a.Adopt? || a.Commit?) && t in w.tasks && Known(w, a.id, t)
    ensures FitsAt(Storing(w, a), t)
  {
    if a.Commit? && w.writer.None? && Allowed(w, a) {
      CommitFits(w, a, t);
    } else if a.Adopt? && w.tasks[t].Journaled? {
      assert IsMaking(w, t, w.tasks[t].made);
    }
  }

  lemma ActFits(w: World, a: Action, t: nat)
    requires Inv(w) && t in w.tasks
    ensures t in Act(w, a).tasks && FitsAt(Act(w, a), t)
  {
    assert FitsAt(w, t);
    if a.Create? || a.Rotate? || a.Delete? || a.Sweep? {
      SingleFits(w, a, t);
    } else if a.Start? {
    } else if a.Adopt? || a.Commit? {
      assert a.id in w.tasks ==> FitsAt(w, a.id);
      StoringFits(w, a, t);
    } else if a.id in w.tasks {
      assert FitsAt(w, a.id);
      TaskStepFits(w, a, t);
    }
  }

  lemma TaskStepFits(w: World, a: Action, t: nat)
    requires !(a.Create? || a.Rotate? || a.Delete? || a.Sweep? || a.Start? || a.Adopt? || a.Commit?)
    requires a.id in w.tasks && t in w.tasks && Known(w, a.id, t)
    ensures t in Act(w, a).tasks && FitsAt(Act(w, a), t)
  {
    if a.TakeStage? {
      LockingFits(w, a.id, t);
    } else if a.Crash? {
      EndFits(w, a.id, t);
    } else if a.Journal? || a.Write? || a.Discard? || a.FinishStage? {
      StagingFits(w, a, t);
    } else if a.BeginCollect? || a.DeleteOne? || a.CommitCollect? {
      CollectingFits(w, a, t);
    } else {
      RevealingFits(w, a, t);
    }
  }

  /** No step stores a staged secret without its row, or drops the row before the secret. */
  lemma ActKeepsJournal(w: World, a: Action)
    requires Inv(w)
    ensures StagedAreJournaled(Act(w, a))
  {
    if !(a.Create? || a.Rotate? || a.Delete? || a.Sweep? || a.Start? || a.Adopt? || a.Commit?) && a.id in w.tasks {
      assert FitsAt(w, a.id);
      if a.Journal? || a.Write? || a.Discard? || a.FinishStage? {
        StagingFits(w, a, a.id);
      } else if a.BeginCollect? || a.DeleteOne? || a.CommitCollect? {
        CollectingFits(w, a, a.id);
      }
    }
  }

  lemma ActKeepsOwners(w: World, a: Action)
    requires Inv(w)
    ensures Owned(Act(w, a)) && w.tasks.Keys <= Act(w, a).tasks.Keys
    ensures forall t :: t in Act(w, a).tasks && t !in w.tasks ==> FitsAt(Act(w, a), t)
  {
  }

  lemma ActKeepsInv(w: World, a: Action)
    requires Inv(w)
    ensures Inv(Act(w, a))
  {
    ActKeepsJournal(w, a);
    ActKeepsOwners(w, a);
    forall t | t in Act(w, a).tasks
      ensures FitsAt(Act(w, a), t)
    {
      if t in w.tasks {
        ActFits(w, a, t);
      }
    }
  }

  lemma {:induction false} RunKeepsInv(w: World, actions: seq<Action>)
    requires Inv(w)
    ensures Inv(Run(w, actions))
    decreases |actions|
  {
    if actions != [] {
      ActKeepsInv(w, actions[0]);
      RunKeepsInv(Act(w, actions[0]), actions[1..]);
    }
  }

  /** A fresh start over any database: whatever crashed before left only staged rows behind. */
  lemma RestartIsFine(db: Database, store: Store)
    requires forall r :: r in store && store[r].staged ==> r in db.ledger
    ensures Inv(World(db, store, None, None, map[]))
  {
  }

  // ---------- what single steps do ----------

  /** A staging write that succeeds stores the secret under the new reference and touches no
      other; one that fails stores nothing. */
  lemma WritingStoresSecret(w: World, id: nat, value: string, written: bool)
    requires id in w.tasks && w.tasks[id].Journaled?
    ensures var later := Act(w, Write(id, value, written));
            var made := w.tasks[id].made;
            && later.tasks[id] == Staging(made) && later.db == w.db
            && later.store == if written then w.store[made := Secret(value, true)] else w.store
  {
  }

  /** A journal row is committed before the secret can be written, and only for a new reference
      that no connection names. */
  lemma JournalingCommitsFirst(w: World, id: nat, record: nat)
    requires id in w.tasks && w.tasks[id].StageHolds? && w.writer.None?
    ensures var later := Act(w, Journal(id, record));
            var made := Reference(w.tasks[id].workspace, record);
            && later.store == w.store
            && (later.tasks[id].Journaled? <==> made !in w.db.ledger && Unreferenced(w.db.connections, made))
            && (later.tasks[id].Journaled? ==>
                  later.tasks[id] == Journaled(made)
                  && later.db.ledger == w.db.ledger[made := Entry(w.tasks[id].workspace, State.Staged)])
  {
  }

  /** A committed transaction publishes its connections, and when rows changed the ledger is
      reconciled with them: exactly the live references are attached. */
  lemma CommittingPublishes(w: World, a: Action)
    requires a.Commit? && w.writer.None? && Allowed(w, a)
    ensures var later := Act(w, a);
            && later.db.connections == a.connections && later.db.workspaces == a.workspaces && later.store == w.store
            && later.db.ledger.Keys == w.db.ledger.Keys
            && (a.mutated ==> forall r :: r in later.db.ledger ==> (later.db.ledger[r].state.Attached? <==> IsLive(later.db, r)))
            && (!a.mutated && a.attach.None? ==> later.db.ledger == w.db.ledger)
            && (!a.mutated && a.attach.Some? ==> forall r :: r in w.db.ledger ==>
                  if w.db.ledger[r].workspace == a.attach.value
                  then later.db.ledger[r] == Entry(a.attach.value, Attached)
                  else later.db.ledger[r] == w.db.ledger[r])
  {
    var ledger := if a.attach.Some? then Attaching(w.db.ledger, a.attach.value) else w.db.ledger;
    var next := Database(a.workspaces, a.connections, ledger);
    if a.mutated {
      forall r | r in next.ledger
        ensures IsLive(Committed(w.db, a), r) == IsLive(next, r)
      {
        LiveIgnoresLedger(Committed(w.db, a), next, next.ledger[r].workspace);
      }
    }
  }

  /** Rotating replaces a secret, deleting removes it, and creating adds one; nothing else changes. */
  lemma SingleEffects(w: World, r: Reference, value: string)
    requires w.stage.None? && w.writer.None?
    ensures Act(w, Rotate(r, value)).db == Act(w, Delete(r)).db == Act(w, Create(r, value)).db == w.db
    ensures r in Act(w, Rotate(r, value)).store && Act(w, Rotate(r, value)).store[r].value == value
    ensures Act(w, Rotate(r, value)).store - {r} == w.store - {r}
    ensures Act(w, Delete(r)).store == w.store - {r}
    ensures r !in w.store && r !in w.db.ledger ==> Act(w, Create(r, value)).store == w.store[r := Secret(value, false)]
  {
  }

  /** Adopting a reference leaves it tracked as attached and changes nothing else. */
  lemma AdoptingAttaches(w: World, id: nat, workspace: nat, r: Reference)
    requires w.writer.None? && !InMaking(w, r)
    ensures var later := Act(w, Adopt(id, workspace, r));
            && r in later.db.ledger && later.db.ledger[r].state.Attached?
            && later.db.ledger[r].workspace == (if r in w.db.ledger then w.db.ledger[r].workspace else workspace)
            && later.db.ledger - {r} == w.db.ledger - {r}
            && later.db.connections == w.db.connections && later.store == w.store && later.tasks == w.tasks
  {
  }

  /** Sweeping removes only a secret that is neither tracked nor used, and it removes every such
      secret unless a connection row of a removed workspace still names it. */
  lemma SweepingRemovesOrphans(w: World, r: Reference)
    requires w.writer.None?
    ensures var later := Act(w, Sweep(r));
            && later == w.(store := later.store)
            && (later.store == w.store - {r} || later.store == w.store)
            && (r in w.store && r !in later.store ==> r !in w.db.ledger && r !in LiveReferences(w.db, r.workspace))
            && (r in w.store && r in later.store ==>
                  || r in w.db.ledger || r in LiveReferences(w.db, r.workspace)
                  || (IsNamed(w.db, r) && r.workspace !in w.db.workspaces))
  {
    if !IsNamed(w.db, r) {
      assert forall c :: !HeldBy(w.db, r.workspace, c, r);
    } else {
      var c :| c in w.db.connections && w.db.connections[c].live && w.db.connections[c].workspace == r.workspace
               && w.db.connections[c].reference == Some(r);
      assert r.workspace in w.db.workspaces ==> HeldBy(w.db, r.workspace, c, r);
    }
  }

  /** A failed edit hands its staged references to the collector unless a connection uses them. */
  lemma DiscardingCondemns(w: World, id: nat, references: set<Reference>, r: Reference)
    requires id in w.tasks && w.tasks[id].Staging? && w.writer.None?
    requires r in references && r in w.db.ledger && w.db.ledger[r].state.Staged? && !IsLive(w.db, r)
    ensures var later := Act(w, Discard(id, references)).db;
            && later.ledger.Keys == w.db.ledger.Keys && r in Condemned(later, false)
            && forall other :: other in w.db.ledger && (other !in references || !w.db.ledger[other].state.Staged?) ==>
                 later.ledger[other] == w.db.ledger[other]
  {
    var later := Act(w, Discard(id, references)).db;
    LiveIgnoresLedger(w.db, later, w.db.ledger[r].workspace);
  }

  /** A reveal that nothing disturbs returns the stored secret of a live connection. */
  lemma UndisturbedRevealAnswers(w: World, q: Query)
    requires w.tasks == map[] && w.stage.None? && w.writer.None?
    requires HeldBy(w.db, q.workspace, q.connection, q.reference) && q.reference.workspace == q.workspace && q.reference in w.store
    ensures var w1 := Act(Act(w, Start(0, RevealWaits(q))), TakeStage(0));
            var w2 := Act(Act(Act(w1, CheckFirst(0)), ReadSecret(0)), CheckAgain(0));
            0 in w2.tasks && w2.tasks[0] == Revealed(q, w.db.connections[q.connection].revision, w.store[q.reference].value)
  {
    RevealStarts(w, q);
    var held := w.(stage := Some(0), tasks := map[0 := RevealHolds(q)]);
    RevealReads(held, q);
    var read := held.(tasks := map[0 := RevealRead(q, w.db.connections[q.connection].revision, w.store[q.reference].value)]);
    RevealConfirms(read, w.db.connections[q.connection].revision);
  }

  // ---------- what every interleaving guarantees ----------

  /** At every moment of every run, crashes included, a staged secret has its committed row. */
  lemma StagedSecretsStayJournaled(w: World, actions: seq<Action>, r: Reference)
    requires Inv(w)
    requires r in Run(w, actions).store && Run(w, actions).store[r].staged
    ensures r in Run(w, actions).db.ledger
  {
    RunKeepsInv(w, actions);
  }

  /** Only an explicit deletion takes a secret that a live connection uses. */
  lemma HeldSecretsAreKept(w: World, a: Action, c: nat, r: Reference)
    requires Inv(w) && !a.Delete?
    requires HeldBy(w.db, r.workspace, c, r) && r in w.store
    ensures r in Act(w, a).store
  {
    HeldIsLive(w.db, Query(r.workspace, c, r));
    if a.DeleteOne? && a.id in w.tasks {
      assert FitsAt(w, a.id);
    }
  }

  /** A recovery that commits leaves exactly the live references, all attached, and no staged
      secret without a holder. */
  lemma RecoveryLeavesExactlyLive(w: World, a: Action)
    requires Inv(w) && a.CommitCollect? && a.id in w.tasks && w.tasks[a.id] == Collecting(true, {})
    ensures var after := Act(w, a);
            && (forall r :: r in after.db.ledger <==> r in w.db.ledger && IsLive(w.db, r))
            && (forall r :: r in after.db.ledger ==> IsLive(after.db, r) && after.db.ledger[r].state.Attached?)
            && (forall r :: r in after.store && after.store[r].staged ==> r in after.db.ledger)
            && after.store == w.store
  {
    var after := Act(w, a);
    RecoveryIsExact(w.db);
    ActKeepsJournal(w, a);
    forall r | r in after.db.ledger
      ensures IsLive(after.db, r)
    {
      LiveIgnoresLedger(after.db, w.db, w.db.ledger[r].workspace);
    }
  }

  // ---------- revealing ----------

  /** The row names a secret that a reveal could ask for. */
  predicate IsUsed(row: Connection) { row.live && row.reference.Some? }

  /** The revision of a row covers what a reveal sees of it: a row keeps its content, or its
      revision grows, or the writer holds the stage lock (an edit of nothing but the secret
      keeps the revision, and so does a restore). A workspace may go at any time; when it comes
      back, no used row of it has the old revision. */
  predicate IsCovered(w: World, a: Action, c: nat)
    requires a.Commit? && c in w.db.connections
  {
    var row := w.db.connections[c];
    && c in a.connections && a.connections[c].revision >= row.revision
    && (|| IsEditor(w, a.id)
        || a.connections[c].revision > row.revision
        || (a.connections[c] == row && (IsUsed(row) && row.workspace in a.workspaces ==> row.workspace in w.db.workspaces)))
  }

  ghost predicate Disciplined(w: World, a: Action)
  {
    a.Commit? ==> forall c {:trigger IsCovered(w, a, c)} :: c in w.db.connections ==> IsCovered(w, a, c)
  }

  ghost predicate AllDisciplined(w: World, actions: seq<Action>)
    decreases |actions|
  {
    actions == [] || (Disciplined(w, actions[0]) && AllDisciplined(Act(w, actions[0]), actions[1..]))
  }

  /** The row that was seen has the seen revision or a later one. */
  ghost predicate NotOlder(w: World, q: Query, revision: int)
  {
    q.connection in w.db.connections && w.db.connections[q.connection].revision >= revision
  }

  /** While the row still shows the seen revision, the store holds the secret that was read. */
  ghost predicate SecretFits(w: World, q: Query, revision: int, secret: string)
  {
    && NotOlder(w, q, revision)
    && q.reference.workspace == q.workspace
    && (View(w.db, q) == Some(revision) ==> q.reference in w.store && w.store[q.reference].value == secret)
  }

  ghost predicate RevealFits(w: World, t: nat)
    requires t in w.tasks
  {
    match w.tasks[t]
    case RevealSeen(query, revision) => NotOlder(w, query, revision)
    case RevealRead(query, revision, secret) => SecretFits(w, query, revision, secret)
    case _ => true
  }

  ghost predicate RevealsFit(w: World)
  {
    forall t {:trigger RevealFits(w, t)} :: t in w.tasks ==> RevealFits(w, t)
  }

  lemma SingleKeepsReveal(w: World, a: Action, t: nat)
    requires t in w.tasks && FitsAt(w, t) && RevealFits(w, t)
    ensures RevealFits(Single(w, a), t)
  {
    var task := w.tasks[t];
    if a.Sweep? && task.RevealRead? && View(w.db, task.query).Some? {
      HeldIsLive(w.db, task.query);
    }
  }

  lemma StagingKeepsReveal(w: World, a: Action, t: nat)
    requires a.Journal? || a.Write? || a.Discard? || a.FinishStage?
    requires a.id in w.tasks && t in w.tasks && FitsAt(w, a.id) && FitsAt(w, t) && RevealFits(w, t)
    ensures RevealFits(StagingStep(w, a, w.tasks[a.id]), t)
  {
  }

  lemma CollectingKeepsReveal(w: World, a: Action, t: nat)
    requires a.BeginCollect? || a.DeleteOne? || a.CommitCollect?
    requires a.id in w.tasks && t in w.tasks && FitsAt(w, a.id) && FitsAt(w, t) && RevealFits(w, t)
    ensures RevealFits(CollectingAct(w, a, w.tasks[a.id]), t)
  {
  }

  lemma RevealingKeepsReveal(w: World, a: Action, t: nat)
    requires a.CheckFirst? || a.ReadSecret? || a.CheckAgain?
    requires a.id in w.tasks && t in w.tasks && FitsAt(w, a.id) && FitsAt(w, t) && RevealFits(w, t)
    ensures RevealFits(Revealing(w, a, w.tasks[a.id]), t)
  {
  }

  lemma StoringKeepsReveal(w: World, a: Action, t: nat)
    requires (a.Adopt? || a.Commit?) && Disciplined(w, a)
    requires t in w.tasks && FitsAt(w, t) && RevealFits(w, t)
    ensures RevealFits(Storing(w, a), t)
  {
    var task := w.tasks[t];
    if a.Commit? && (task.RevealSeen? || task.RevealRead?) {
      assert IsCovered(w, a, task.query.connection);
    }
  }

  /** A disciplined step keeps what every reveal knows. */
  lemma ActKeepsReveal(w: World, a: Action, t: nat)
    requires Inv(w) && Disciplined(w, a) && t in w.tasks && RevealFits(w, t)
    ensures t in Act(w, a).tasks && RevealFits(Act(w, a), t)
  {
    assert FitsAt(w, t);
    if a.Create? || a.Rotate? || a.Delete? || a.Sweep? {
      SingleKeepsReveal(w, a, t);
    } else if a.Adopt? || a.Commit? {
      StoringKeepsReveal(w, a, t);
    } else if !a.Start? && a.id in w.tasks {
      assert FitsAt(w, a.id);
      if a.Journal? || a.Write? || a.Discard? || a.FinishStage? {
        StagingKeepsReveal(w, a, t);
      } else if a.BeginCollect? || a.DeleteOne? || a.CommitCollect? {
        CollectingKeepsReveal(w, a, t);
      } else if a.CheckFirst? || a.ReadSecret? || a.CheckAgain? {
        RevealingKeepsReveal(w, a, t);
      }
    }
  }

  /** A task that just started reveals nothing yet. */
  lemma NewTasksRevealNothing(w: World, a: Action, t: nat)
    requires t in Act(w, a).tasks && t !in w.tasks
    ensures RevealFits(Act(w, a), t)
  {
  }

  lemma {:induction false} RunKeepsReveals(w: World, actions: seq<Action>)
    requires Inv(w) && RevealsFit(w) && AllDisciplined(w, actions)
    ensures Inv(Run(w, actions)) && RevealsFit(Run(w, actions))
    decreases |actions|
  {
    if actions != [] {
      var next := Act(w, actions[0]);
      ActKeepsInv(w, actions[0]);
      forall t | t in next.tasks
        ensures RevealFits(next, t)
      {
        if t in w.tasks {
          assert RevealFits(w, t);
          ActKeepsReveal(w, actions[0], t);
        } else {
          NewTasksRevealNothing(w, actions[0], t);
        }
      }
      RunKeepsReveals(next, actions[1..]);
    }
  }

  /** In every run whose transactions keep the revisions honest: when a reveal returns, its
      second check is the moment the answer is true. The connection is live with the reference
      and the revision seen first, and the store holds the secret. */
  lemma RevealIsLinearizable(start: World, actions: seq<Action>, id: nat)
    requires Inv(start) && RevealsFit(start) && AllDisciplined(start, actions)
    requires var w := Run(start, actions);
             id in w.tasks && w.tasks[id].RevealRead? && Act(w, CheckAgain(id)).tasks[id].Revealed?
    ensures var w := Run(start, actions);
            var (q, revision, secret) := (w.tasks[id].query, w.tasks[id].revision, w.tasks[id].secret);
            && Act(w, CheckAgain(id)).tasks[id] == Revealed(q, revision, secret)
            && HeldBy(w.db, q.workspace, q.connection, q.reference)
            && w.db.connections[q.connection].revision == revision
            && q.reference in w.store && w.store[q.reference].value == secret
            && Act(w, CheckAgain(id)).db == w.db && Act(w, CheckAgain(id)).store == w.store
  {
    RunKeepsReveals(start, actions);
    assert RevealFits(Run(start, actions), id);
  }

  // ---------- workspaces that go and come back ----------

  /** No used row belongs to a workspace that is gone. */
  predicate Housed(workspaces: set<nat>, connections: map<nat, Connection>)
  {
    forall c :: c in connections && IsUsed(connections[c]) ==> connections[c].workspace in workspaces
  }

  /** Removing a workspace tombstones its live connections; earlier tombstones stay as they are. */
  function Buried(connections: map<nat, Connection>, workspace: nat): map<nat, Connection>
  {
    map c | c in connections ::
      if connections[c].workspace == workspace && connections[c].live
      then connections[c].(live := false, revision := connections[c].revision + 1)
      else connections[c]
  }

  /** The removal is disciplined without the stage lock, and leaves no used row behind. */
  lemma RemovalIsDisciplined(w: World, id: nat, workspace: nat)
    requires Housed(w.db.workspaces, w.db.connections)
    ensures var (workspaces, connections) := (w.db.workspaces - {workspace}, Buried(w.db.connections, workspace));
            && Disciplined(w, Commit(id, workspaces, connections, None, true))
            && Housed(workspaces, connections)
  {
  }

  /** And then any workspaces may come back, or go without touching their connections. */
  lemma ReturnIsDisciplined(w: World, id: nat, workspaces: set<nat>, mutated: bool)
    requires Housed(w.db.workspaces, w.db.connections)
    ensures Disciplined(w, Commit(id, workspaces, w.db.connections, None, mutated))
  {
  }

  /** Some disciplined run leads from one world to the other. */
  ghost predicate Leads(start: World, w: World)
  {
    exists actions :: AllDisciplined(start, actions) && Run(start, actions) == w
  }

  lemma {:induction false} RunLonger(start: World, actions: seq<Action>, a: Action)
    requires AllDisciplined(start, actions) && Disciplined(Run(start, actions), a)
    ensures AllDisciplined(start, actions + [a]) && Run(start, actions + [a]) == Act(Run(start, actions), a)
    decreases |actions|
  {
    if actions == [] {
      assert actions + [a] == [a] && [a][1..] == [];
      assert Run(Act(start, a), []) == Act(start, a);
    } else {
      assert (actions + [a])[1..] == actions[1..] + [a];
      RunLonger(Act(start, actions[0]), actions[1..], a);
    }
  }

  lemma LeadsOn(start: World, w: World, a: Action)
    requires Leads(start, w) && Disciplined(w, a)
    ensures Leads(start, Act(w, a))
  {
    var actions :| AllDisciplined(start, actions) && Run(start, actions) == w;
    RunLonger(start, actions, a);
  }

  /** One connection with a stored secret. */
  function OneSecret(secret: string): World
  {
    var r := Reference(0, 0);
    World(Database({0}, map[0 := Connection(0, Some(r), 1, true)], map[r := Entry(0, Attached)]),
          map[r := Secret(secret, true)], None, None, map[])
  }

  lemma RevealStarts(w: World, q: Query)
    requires w.tasks == map[] && w.stage.None?
    ensures Act(w, Start(0, RevealWaits(q))) == w.(tasks := map[0 := RevealWaits(q)])
    ensures Act(w.(tasks := map[0 := RevealWaits(q)]), TakeStage(0)) == w.(stage := Some(0), tasks := map[0 := RevealHolds(q)])
  {
  }

  lemma RevealReads(w: World, q: Query)
    requires w.tasks == map[0 := RevealHolds(q)] && HeldBy(w.db, q.workspace, q.connection, q.reference)
    requires q.reference.workspace == q.workspace && q.reference in w.store
    ensures var revision := w.db.connections[q.connection].revision;
            && Act(w, CheckFirst(0)) == w.(tasks := map[0 := RevealSeen(q, revision)])
            && Act(w.(tasks := map[0 := RevealSeen(q, revision)]), ReadSecret(0)) ==
               w.(tasks := map[0 := RevealRead(q, revision, w.store[q.reference].value)])
  {
  }

  /** The secret is read, and then the workspace goes. */
  lemma SecretIsRead(secret: string) returns (w: World)
    ensures Leads(OneSecret(secret), w)
    ensures var start := OneSecret(secret);
            w == World(Database({}, start.db.connections, map[Reference(0, 0) := Entry(0, Garbage)]), start.store, Some(0), None,
                       map[0 := RevealRead(Query(0, 0, Reference(0, 0)), 1, secret)])
  {
    var start, q := OneSecret(secret), Query(0, 0, Reference(0, 0));
    w := SecretIsHeld(secret);
    var gone := Commit(9, {}, start.db.connections, None, true);
    WorkspaceGoes(w, gone);
    LeadsOn(start, w, gone);
    w := Act(w, gone);
  }

  lemma SecretIsHeld(secret: string) returns (w: World)
    ensures Leads(OneSecret(secret), w)
    ensures w == OneSecret(secret).(stage := Some(0), tasks := map[0 := RevealRead(Query(0, 0, Reference(0, 0)), 1, secret)])
  {
    var start, q := OneSecret(secret), Query(0, 0, Reference(0, 0));
    assert AllDisciplined(start, []) && Run(start, []) == start;
    RevealStarts(start, q);
    w := start;
    w := Onward(start, w, Start(0, RevealWaits(q)));
    w := Onward(start, w, TakeStage(0));
    assert HeldBy(w.db, 0, 0, q.reference);
    RevealReads(w, q);
    w := Onward(start, w, CheckFirst(0));
    w := Onward(start, w, ReadSecret(0));
  }

  /** A step that is no transaction. */
  lemma Onward(start: World, w: World, a: Action) returns (next: World)
    requires Leads(start, w) && !a.Commit?
    ensures next == Act(w, a) && Leads(start, next)
  {
    next := Act(w, a);
    LeadsOn(start, w, a);
  }

  lemma WorkspaceGoes(w: World, a: Action)
    requires w.writer.None? && a == Commit(9, {}, w.db.connections, None, true)
    requires w.db.ledger == map[Reference(0, 0) := Entry(0, Attached)] && forall t :: t in w.tasks ==> !w.tasks[t].Journaled?
    ensures Disciplined(w, a)
    ensures Act(w, a) == w.(db := Database({}, w.db.connections, map[Reference(0, 0) := Entry(0, Garbage)]))
  {
    var next := Database({}, w.db.connections, w.db.ledger);
    assert forall r :: !InMaking(w, r);
    assert LiveReferences(next, 0) == {};
    assert Reconciled(next) == map[Reference(0, 0) := Entry(0, Garbage)];
  }

  lemma CollectorBegins(w: World)
    requires 1 !in w.tasks && w.writer.None?
    ensures var waiting := w.(tasks := w.tasks[1 := CollectWaits]);
            && Act(w, Start(1, CollectWaits)) == waiting
            && Act(waiting, BeginCollect(1)) == w.(writer := Some(1), tasks := w.tasks[1 := Collecting(false, Condemned(w.db, false))])
  {
    assert w.tasks[1 := CollectWaits][1 := Collecting(false, Condemned(w.db, false))] == w.tasks[1 := Collecting(false, Condemned(w.db, false))];
  }

  lemma CollectorDeletes(w: World, r: Reference)
    requires 1 in w.tasks && w.tasks[1] == Collecting(false, {r}) && r in w.db.ledger && w.db.ledger[r].workspace == r.workspace
    ensures Act(w, DeleteOne(1, r, true)) == w.(store := w.store - {r}, tasks := w.tasks[1 := Collecting(false, {})])
  {
    assert {r} - {r} == {};
  }

  lemma CollectorCommits(w: World)
    requires 1 in w.tasks && w.tasks[1] == Collecting(false, {}) && w.stage != Some(1) && w.writer == Some(1)
    ensures Act(w, CommitCollect(1)) ==
            w.(writer := None, tasks := w.tasks[1 := Finished], db := w.db.(ledger := Collected(w.db, false)))
  {
  }

  lemma GarbageIsCondemned(db: Database)
    requires db.workspaces == {} && db.ledger == map[Reference(0, 0) := Entry(0, Garbage)]
    ensures Condemned(db, false) == {Reference(0, 0)} && Collected(db, false) == map[]
  {
    assert LiveReferences(db, 0) == {};
  }

  /** Collecting the garbage of a workspace that is gone. */
  lemma GarbageIsCollected(start: World, w0: World) returns (w: World)
    requires Leads(start, w0) && w0.writer.None? && w0.stage == Some(0) && 1 !in w0.tasks && w0.db.workspaces == {}
    requires w0.db.ledger == map[Reference(0, 0) := Entry(0, Garbage)] && w0.store.Keys == {Reference(0, 0)}
    ensures Leads(start, w)
    ensures w == w0.(db := w0.db.(ledger := map[]), store := map[], tasks := w0.tasks[1 := Finished])
  {
    var r := Reference(0, 0);
    GarbageIsCondemned(w0.db);
    CollectorBegins(w0);
    w := Onward(start, w0, Start(1, CollectWaits));
    w := Onward(start, w, BeginCollect(1));
    CollectorDeletes(w, r);
    w := Onward(start, w, DeleteOne(1, r, true));
    assert w.store == map[];
    CollectorCommits(w);
    w := Onward(start, w, CommitCollect(1));
    assert w.tasks == w0.tasks[1 := Finished];
  }

  /** The condition is needed: a removal that leaves a used row alone, a collection, and a return
      of the workspace with the old revision let a reveal hand out a secret that is gone from
      the store. Only the return breaks the discipline. */
  lemma RevivalFoolsReveal(secret: string) returns (w: World, back: Action)
    ensures Leads(OneSecret(secret), w) && back.Commit? && !Disciplined(w, back)
    ensures 0 in w.tasks && w.tasks[0].RevealRead? && w.tasks[0].secret == secret
    ensures Act(Act(w, back), CheckAgain(0)).tasks[0].Revealed? && Act(w, back).store == map[]
  {
    w := SecretIsRead(secret);
    w := GarbageIsCollected(OneSecret(secret), w);
    back := Commit(9, {0}, w.db.connections, None, false);
    assert !IsCovered(w, back, 0);
    WorkspaceReturns(w, back);
    RevealConfirms(w.(db := w.db.(workspaces := {0})), 1);
  }

  lemma WorkspaceReturns(w: World, a: Action)
    requires w.writer.None? && a == Commit(9, {0}, w.db.connections, None, false)
    requires forall t :: t in w.tasks ==> !w.tasks[t].Journaled?
    ensures Act(w, a) == w.(db := w.db.(workspaces := {0}))
  {
    assert forall r :: !InMaking(w, r);
  }

  /** The second check passes on the row alone. */
  lemma RevealConfirms(w: World, revision: int)
    requires 0 in w.tasks && w.tasks[0].RevealRead? && w.tasks[0].revision == revision && w.writer.None?
    requires View(w.db, w.tasks[0].query) == Some(revision)
    ensures Act(w, CheckAgain(0)).tasks[0] == Revealed(w.tasks[0].query, revision, w.tasks[0].secret)
  {
  }
}
