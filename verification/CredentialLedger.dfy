/** The journal of connection credentials. The secrets live in a keychain that does not roll
    back with the database, so a ledger row is written before its secret and removed after it. */
module CredentialLedger {
  import opened Values
  import opened Errors

  /** A credential reference names its workspace; the record is a fresh identifier. */
  datatype Reference = Reference(workspace: nat, record: nat)

  datatype State = Staged | Attached | Garbage

  datatype Entry = Entry(workspace: nat, state: State)

  type Ledger = map<Reference, Entry>

  datatype Connection = Connection(workspace: nat, reference: Option<Reference>, revision: int, live: bool)

  /** The rows that matter here: live workspaces, connections, and the ledger. */
  datatype Database = Database(workspaces: set<nat>, connections: map<nat, Connection>, ledger: Ledger)

  /** `staged` remembers whether the secret came in through staging. */
  datatype Secret = Secret(value: string, staged: bool)

  type Store = map<Reference, Secret>

  /** A live connection of a live workspace that uses some reference. */
  predicate IsHolder(db: Database, workspace: nat, id: nat)
  {
    && workspace in db.workspaces
    && id in db.connections && db.connections[id].live
    && db.connections[id].workspace == workspace && db.connections[id].reference.Some?
  }

  predicate HeldBy(db: Database, workspace: nat, id: nat, r: Reference)
  {
    IsHolder(db, workspace, id) && db.connections[id].reference.value == r
  }

  function LiveReferences(db: Database, workspace: nat): (live: set<Reference>)
    ensures forall r :: r in live <==> exists id :: HeldBy(db, workspace, id, r)
  {
    var live := set id | id in db.connections && IsHolder(db, workspace, id) :: db.connections[id].reference.value;
    assert forall r, id :: HeldBy(db, workspace, id, r) ==> r in live;
    assert forall r :: r in live ==> exists id :: HeldBy(db, workspace, id, r) by {
      forall r | r in live
        ensures exists id :: HeldBy(db, workspace, id, r)
      {
        var id :| id in db.connections && IsHolder(db, workspace, id) && db.connections[id].reference.value == r;
        assert HeldBy(db, workspace, id, r);
      }
    }
    live
  }

  /** The reference of a ledger row is live in the row's workspace. */
  predicate IsLive(db: Database, r: Reference)
    requires r in db.ledger
  {
    r in LiveReferences(db, db.ledger[r].workspace)
  }

  /** Reconciling: a live reference is attached, an attached one that is no longer live is garbage. */
  function ReconciledEntry(entry: Entry, live: bool): Entry
  {
    if live then entry.(state := Attached)
    else if entry.state.Attached? then entry.(state := Garbage)
    else entry
  }

  function Reconciled(db: Database): (ledger: Ledger)
  {
    map r | r in db.ledger :: ReconciledEntry(db.ledger[r], IsLive(db, r))
  }

  /** What the collector removes: references nobody holds, staged ones only during recovery. */
  predicate IsCondemned(db: Database, recovery: bool, r: Reference)
  {
    r in db.ledger && !IsLive(db, r) && (recovery || !db.ledger[r].state.Staged?)
  }

  predicate IsCondemnedIn(db: Database, recovery: bool, workspaces: set<nat>, r: Reference)
  {
    IsCondemned(db, recovery, r) && db.ledger[r].workspace in workspaces
  }

  function CondemnedIn(db: Database, recovery: bool, workspaces: set<nat>): set<Reference>
  {
    set r | r in db.ledger && IsCondemnedIn(db, recovery, workspaces, r)
  }

  function Condemned(db: Database, recovery: bool): set<Reference>
  {
    set r | r in db.ledger && IsCondemned(db, recovery, r)
  }

  /** Collecting attaches what is live and forgets what is condemned. */
  function CollectedEntry(entry: Entry, live: bool): Entry
  {
    if live then entry.(state := Attached) else entry
  }

  function CollectedIn(db: Database, recovery: bool, workspaces: set<nat>): Ledger
  {
    map r | r in db.ledger && !IsCondemnedIn(db, recovery, workspaces, r) ::
      if db.ledger[r].workspace in workspaces then CollectedEntry(db.ledger[r], IsLive(db, r)) else db.ledger[r]
  }

  function Collected(db: Database, recovery: bool): Ledger
  {
    map r | r in db.ledger && !IsCondemned(db, recovery, r) :: CollectedEntry(db.ledger[r], IsLive(db, r))
  }

  /** Nothing but some of the removable secrets is gone. */
  predicate Partly(before: Store, after: Store, removable: set<Reference>)
  {
    after == before - (before.Keys - after.Keys) && before.Keys - after.Keys <= removable
  }

  /** The store refuses a reference of another workspace; the keychain may fail on others. */
  predicate Refused(db: Database, broken: set<Reference>, r: Reference)
    requires r in db.ledger
  {
    r.workspace != db.ledger[r].workspace || r in broken
  }

  predicate AllRemovable(db: Database, condemned: set<Reference>, broken: set<Reference>)
    requires condemned <= db.ledger.Keys
  {
    forall r {:trigger Refused(db, broken, r)} :: r in condemned ==> !Refused(db, broken, r)
  }

  // ---------- the updates in place ----------

  /** The committed database, the transaction being written, and the secret store. */
  class CredentialBus {
    var committed: Database
    var working: Database
    var store: Store

    constructor (db: Database, store: Store)
      ensures committed == working == db && this.store == store
    {
      committed, working, this.store := db, db, store;
    }

    method Track(r: Reference, workspace: nat, state: State)
      modifies this`working
      ensures working == old(working).(ledger := old(working).ledger[
                           r := Entry(if r in old(working).ledger then old(working).ledger[r].workspace else workspace, state)])
    {
      var entry := if r in working.ledger then working.ledger[r].(state := state) else Entry(workspace, state);
      working := working.(ledger := working.ledger[r := entry]);
    }

    method ReconcileWorkspace(workspace: nat)
      modifies this`working
      ensures working == old(working).(ledger := working.ledger)
      ensures working.ledger.Keys == old(working).ledger.Keys
      ensures forall r :: r in working.ledger ==>
                working.ledger[r] == if old(working).ledger[r].workspace == workspace
                                     then ReconciledEntry(old(working).ledger[r], IsLive(old(working), r))
                                     else old(working).ledger[r]
    {
      ghost var before := working;
      var entries := map r | r in working.ledger && working.ledger[r].workspace == workspace :: working.ledger[r].state;
      var live := LiveReferences(working, workspace);
      var left := entries.Keys;
      while left != {}
        invariant left <= entries.Keys
        invariant working == before.(ledger := working.ledger) && working.ledger.Keys == before.ledger.Keys
        invariant forall r :: r in working.ledger ==>
                    working.ledger[r] == if r in entries.Keys - left
                                         then ReconciledEntry(before.ledger[r], IsLive(before, r))
                                         else before.ledger[r]
      {
        var r :| r in left;
        if r in live && !entries[r].Attached? {
          Track(r, workspace, Attached);
        } else if r !in live && entries[r].Attached? {
          Track(r, workspace, Garbage);
        }
        left := left - {r};
      }
    }

    /** Runs inside the business transaction. */
    method ReconcileOn()
      modifies this`working
      ensures working == old(working).(ledger := Reconciled(old(working)))
    {
      ghost var before := working;
      var workspaces := set r | r in working.ledger :: working.ledger[r].workspace;
      while workspaces != {}
        invariant working == before.(ledger := working.ledger) && working.ledger.Keys == before.ledger.Keys
        invariant forall r :: r in working.ledger ==>
                    working.ledger[r] == if before.ledger[r].workspace in workspaces then before.ledger[r]
                                         else ReconciledEntry(before.ledger[r], IsLive(before, r))
      {
        var workspace :| workspace in workspaces;
        LiveIgnoresLedger(working, before, workspace);
        ReconcileWorkspace(workspace);
        workspaces := workspaces - {workspace};
      }
    }

    /** Deletes a secret and forgets its row; a secret that is already gone counts as deleted. */
    method Remove(r: Reference, workspace: nat, broken: set<Reference>) returns (result: Result<(), AppError>)
      modifies this`working, this`store
      ensures result.Ok? <==> r.workspace == workspace && r !in broken
      ensures result.Ok? ==> working == old(working).(ledger := old(working).ledger - {r}) && store == old(store) - {r}
      ensures result.Err? ==> working == old(working) && store == old(store)
    {
      if r.workspace != workspace {
        return Err(Validation("credential reference does not belong to the workspace"));
      }
      if r in broken {
        return Err(Config);
      }
      store := store - {r};
      working := working.(ledger := working.ledger - {r});
      return Ok(());
    }

    /** One workspace of the collector. The deleted secrets are gone even if it fails later. */
    method CollectWorkspace(workspace: nat, recovery: bool, broken: set<Reference>) returns (result: Result<(), AppError>)
      modifies this`working, this`store
      ensures working == old(working).(ledger := working.ledger)
      ensures result.Ok? <==> AllRemovable(old(working), CondemnedIn(old(working), recovery, {workspace}), broken)
      ensures result.Ok? ==>
                && working.ledger == CollectedIn(old(working), recovery, {workspace})
                && store == old(store) - CondemnedIn(old(working), recovery, {workspace})
      ensures result.Err? ==> Partly(old(store), store, CondemnedIn(old(working), recovery, {workspace}))
    {
      ghost var before := working;
      ghost var condemned := CondemnedIn(before, recovery, {workspace});
      var entries := map r | r in working.ledger && working.ledger[r].workspace == workspace :: working.ledger[r].state;
      var live := LiveReferences(working, workspace);
      var left := entries.Keys;
      while left != {}
        invariant left <= entries.Keys
        invariant working == before.(ledger := working.ledger)
        invariant working.ledger.Keys == before.ledger.Keys - (condemned - left)
        invariant forall r :: r in working.ledger ==>
                    working.ledger[r] == if r in entries.Keys - left then CollectedEntry(before.ledger[r], IsLive(before, r))
                                         else before.ledger[r]
        invariant store == old(store) - (condemned - left)
        invariant forall r :: r in condemned - left ==> !Refused(before, broken, r)
      {
        var r :| r in left;
        assert r in condemned <==> r !in live && (recovery || !entries[r].Staged?);
        if r in live {
          if !entries[r].Attached? {
            Track(r, workspace, Attached);
          }
        } else if recovery || entries[r].Garbage? || entries[r].Attached? {
          var removed := Remove(r, workspace, broken);
          if removed.Err? {
            assert Refused(before, broken, r);
            return removed;
          }
        }
        left := left - {r};
      }
      return Ok(());
    }

    /** The collector: one write transaction over every workspace of the ledger. A failure
        rolls the ledger back; the secrets deleted before it stay deleted. */
    method Collect(recovery: bool, broken: set<Reference>) returns (result: Result<(), AppError>)
      modifies this
      ensures result.Ok? <==> AllRemovable(old(committed), Condemned(old(committed), recovery), broken)
      ensures result.Ok? ==>
                && committed == old(committed).(ledger := Collected(old(committed), recovery))
                && store == old(store) - Condemned(old(committed), recovery)
      ensures result.Err? ==> committed == old(committed) && Partly(old(store), store, Condemned(old(committed), recovery))
    {
      working := committed;
      var workspaces := set r | r in working.ledger :: working.ledger[r].workspace;
      ghost var done: set<nat> := {};
      ghost var all := workspaces;
      CollectingNothing(committed, recovery, broken);
      while workspaces != {}
        invariant all == workspaces + done && workspaces !! done
        invariant committed == old(committed)
        invariant CollectedSoFar(committed, recovery, broken, done, old(store), working, store)
        decreases workspaces
      {
        var workspace :| workspace in workspaces;
        ghost var was, had := working, store;
        result := CollectWorkspace(workspace, recovery, broken);
        CollectingGoesOn(committed, recovery, broken, done, old(store), was, had, workspace);
        if result.Err? {
          PartlyAfter(old(store), CondemnedIn(committed, recovery, done), store, CondemnedIn(committed, recovery, {workspace}),
                      Condemned(committed, recovery));
          return;
        }
        workspaces, done := workspaces - {workspace}, done + {workspace};
      }
      CollectingAll(committed, recovery, done);
      committed := working;
      return Ok(());
    }
  }

  ghost predicate CollectedSoFar(start: Database, recovery: bool, broken: set<Reference>, done: set<nat>, before: Store, now: Database, store: Store)
  {
    && now == start.(ledger := CollectedIn(start, recovery, done))
    && store == before - CondemnedIn(start, recovery, done)
    && AllRemovable(start, CondemnedIn(start, recovery, done), broken)
  }

  lemma CollectingNothing(db: Database, recovery: bool, broken: set<Reference>)
    ensures CollectedIn(db, recovery, {}) == db.ledger && CondemnedIn(db, recovery, {}) == {}
  {
  }

  lemma CollectingGoesOn(start: Database, recovery: bool, broken: set<Reference>, done: set<nat>, before: Store, now: Database,
                         store: Store, workspace: nat)
    requires CollectedSoFar(start, recovery, broken, done, before, now, store) && workspace !in done
    ensures var more := CondemnedIn(now, recovery, {workspace});
            && more == CondemnedIn(start, recovery, {workspace})
            && more <= Condemned(start, recovery)
            && CondemnedIn(start, recovery, done) <= Condemned(start, recovery)
            && (AllRemovable(now, more, broken) ==>
                  CollectedSoFar(start, recovery, broken, done + {workspace}, before,
                                 now.(ledger := CollectedIn(now, recovery, {workspace})), store - more))
            && (!AllRemovable(now, more, broken) ==> !AllRemovable(start, Condemned(start, recovery), broken))
  {
    CollectingStep(start, now, recovery, done, workspace);
    RemovableStep(start, now, recovery, done, workspace, broken);
  }

  lemma PartlyAfter(start: Store, gone: set<Reference>, now: Store, more: set<Reference>, all: set<Reference>)
    requires Partly(start - gone, now, more) && gone <= all && more <= all
    ensures Partly(start, now, all)
  {
  }

  /** Workspaces are collected independently of each other. */
  lemma CollectingStep(start: Database, now: Database, recovery: bool, done: set<nat>, workspace: nat)
    requires now == start.(ledger := CollectedIn(start, recovery, done)) && workspace !in done
    ensures CollectedIn(now, recovery, {workspace}) == CollectedIn(start, recovery, done + {workspace})
    ensures CondemnedIn(now, recovery, {workspace}) == CondemnedIn(start, recovery, {workspace})
    ensures CondemnedIn(start, recovery, done + {workspace}) == CondemnedIn(start, recovery, done) + CondemnedIn(start, recovery, {workspace})
    ensures forall r :: r in CondemnedIn(start, recovery, {workspace}) ==> now.ledger[r] == start.ledger[r]
    ensures CondemnedIn(start, recovery, done) <= Condemned(start, recovery)
    ensures CondemnedIn(start, recovery, {workspace}) <= Condemned(start, recovery)
  {
    forall r | r in now.ledger
      ensures IsLive(now, r) == IsLive(start, r)
    {
      LiveIgnoresLedger(now, start, start.ledger[r].workspace);
    }
    forall r
      ensures IsCondemnedIn(now, recovery, {workspace}, r) == IsCondemnedIn(start, recovery, {workspace}, r)
    {
    }
  }

  lemma RemovableStep(start: Database, now: Database, recovery: bool, done: set<nat>, workspace: nat, broken: set<Reference>)
    requires now == start.(ledger := CollectedIn(start, recovery, done)) && workspace !in done
    ensures AllRemovable(start, CondemnedIn(start, recovery, done + {workspace}), broken) <==>
            && AllRemovable(start, CondemnedIn(start, recovery, done), broken)
            && AllRemovable(now, CondemnedIn(now, recovery, {workspace}), broken)
    ensures AllRemovable(start, Condemned(start, recovery), broken) ==>
              AllRemovable(start, CondemnedIn(start, recovery, done + {workspace}), broken)
  {
    CollectingStep(start, now, recovery, done, workspace);
    assert forall r :: r in CondemnedIn(start, recovery, {workspace}) ==>
      Refused(now, broken, r) == Refused(start, broken, r);
  }

  lemma CollectingAll(db: Database, recovery: bool, all: set<nat>)
    requires forall r :: r in db.ledger ==> db.ledger[r].workspace in all
    ensures CollectedIn(db, recovery, all) == Collected(db, recovery)
    ensures CondemnedIn(db, recovery, all) == Condemned(db, recovery)
  {
  }

  lemma LiveIgnoresLedger(a: Database, b: Database, workspace: nat)
    requires a.workspaces == b.workspaces && a.connections == b.connections
    ensures LiveReferences(a, workspace) == LiveReferences(b, workspace)
  {
  }

  // ---------- what reconciling and collecting mean ----------

  /** After reconciling, exactly the live references are attached, and no row is lost. */
  lemma ReconciledIsExact(db: Database)
    ensures Reconciled(db).Keys == db.ledger.Keys
    ensures forall r :: r in db.ledger ==> (Reconciled(db)[r].state.Attached? <==> IsLive(db, r))
    ensures forall r :: r in db.ledger && Reconciled(db)[r].state.Staged? ==> db.ledger[r].state.Staged?
  {
  }

  /** Reconciling in the business transaction only records the work: a collector reaches the
      same ledger and removes the same secrets with or without it. */
  lemma ReconcilingOnlyRecords(db: Database, recovery: bool)
    ensures var recorded := db.(ledger := Reconciled(db));
            && Condemned(recorded, recovery) == Condemned(db, recovery)
            && Collected(recorded, recovery) == Collected(db, recovery)
  {
    var recorded := db.(ledger := Reconciled(db));
    forall r | r in db.ledger
      ensures IsLive(recorded, r) == IsLive(db, r)
      ensures IsCondemned(recorded, recovery, r) == IsCondemned(db, recovery, r)
    {
      LiveIgnoresLedger(recorded, db, db.ledger[r].workspace);
    }
  }

  /** A secret that a live connection of its own workspace uses is never condemned and removed. */
  lemma CollectorSparesHeld(db: Database, recovery: bool, broken: set<Reference>, id: nat, r: Reference)
    requires r in Condemned(db, recovery) && !Refused(db, broken, r)
    ensures !HeldBy(db, r.workspace, id, r)
  {
  }

  /** A successful recovery leaves exactly the live references, all attached. */
  lemma RecoveryIsExact(db: Database)
    ensures forall r :: r in Collected(db, true) <==> r in db.ledger && IsLive(db, r)
    ensures forall r :: r in Collected(db, true) ==> Collected(db, true)[r] == Entry(db.ledger[r].workspace, Attached)
  {
  }

  /** Collecting again finds nothing to do. */
  lemma CollectingTwiceIsOnce(db: Database, recovery: bool)
    ensures var after := db.(ledger := Collected(db, recovery));
            Condemned(after, recovery) == {} && Collected(after, recovery) == after.ledger
  {
  }

  /** Outside recovery a staged reference that nobody holds yet keeps its row and its secret. */
  lemma StagedSurvivesCollection(db: Database, r: Reference)
    requires r in db.ledger && db.ledger[r].state.Staged? && !IsLive(db, r)
    ensures r in Collected(db, false) && Collected(db, false)[r] == db.ledger[r] && r !in Condemned(db, false)
  {
  }
}
