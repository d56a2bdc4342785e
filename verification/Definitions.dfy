/** Stored flow definitions: optimistic writers, imports, workspace removal and externally
    applied changes all move one revision counter per flow. */
module Definitions {
  import opened Errors
  import opened Values

  datatype Definition = Definition(id: string, workspaceId: string, revision: int, content: Json)

  /** A row keeps the revision twice: in its column and inside the stored document. */
  datatype Row = Row(workspace: string, revision: int, document: Definition, deleted: bool)

  datatype Operation = Upsert | Delete

  datatype Mutation = Mutation(workspace: string, id: string, revision: int, operation: Operation)

  const MAX_REVISION: int := 0x7FFF_FFFF_FFFF_FFFF

  const CONFLICT: AppError := AppError.Validation("FLOW_REVISION_CONFLICT")
  const MISMATCH: AppError := AppError.Validation("FLOW_WORKSPACE_MISMATCH")
  const INVALID_ENTITY: AppError := AppError.Validation("FLOW_INVALID_ENTITY")
  const INVALID_DEFINITION: AppError := AppError.Validation("FLOW_INVALID_DEFINITION")
  const STORE_ERROR: AppError := AppError.Database(OtherDatabase)

  /** The writes, each one transaction. `freshId` is the id generated for a new flow. */
  datatype Event =
    | Save(definition: Definition, freshId: string)
    | Remove(workspace: string, id: string, expected: int)
    | RemoveWorkspace(workspace: string)
    | Import(definition: Definition)
    | ApplyUpsert(workspace: string, id: string, definition: Definition)
    | ApplyDelete(workspace: string, id: string)

  /** A rejected write is rolled back. An accepted one emits at most one mutation a flow. */
  datatype Reply = Rejected(error: AppError) | Accepted(mutations: map<string, Mutation>)

  predicate CanGrow(revision: int)
  {
    0 < revision < MAX_REVISION
  }

  /** The row a compare-and-set statement hits. */
  predicate Hits(rows: map<string, Row>, workspace: string, id: string, expected: int)
  {
    id in rows && rows[id].workspace == workspace && rows[id].revision == expected && !rows[id].deleted
  }

  function Buried(row: Row): Row
  {
    row.(revision := row.revision + 1, document := row.document.(revision := row.revision + 1), deleted := true)
  }

  function Live(rows: map<string, Row>, workspace: string): set<string>
  {
    set id | id in rows && rows[id].workspace == workspace && !rows[id].deleted
  }

  /** The revision of a flow, 0 before it exists. */
  function Revision(rows: map<string, Row>, id: string): int
  {
    if id in rows then rows[id].revision else 0
  }

  class DefinitionTable {
    var rows: map<string, Row>
    /** The content check of validation. */
    const accepts: Json -> bool

    constructor (accepts: Json -> bool)
      ensures rows == map[] && this.accepts == accepts
    {
      this.accepts, rows := accepts, map[];
    }

    /** Creates a flow, or replaces one whose revision is the one the caller last saw. */
    method SaveOn(definition: Definition, freshId: string, live: set<string>) returns (reply: Reply)
      modifies this
      ensures (rows, reply) == Write(old(rows), live, accepts, Save(definition, freshId))
    {
      if definition.workspaceId !in live {
        return Rejected(NotFound);
      }
      if !accepts(definition.content) {
        return Rejected(INVALID_DEFINITION);
      }
      var saved := definition;
      if saved.id == "" {
        saved := saved.(id := freshId, revision := 1);
        if saved.id in rows {
          return Rejected(STORE_ERROR);
        }
        rows := rows[saved.id := Row(saved.workspaceId, 1, saved, false)];
      } else {
        var previous := saved.revision;
        if !CanGrow(previous) {
          return Rejected(CONFLICT);
        }
        saved := saved.(revision := previous + 1);
        if !Hits(rows, saved.workspaceId, saved.id, previous) {
          return Rejected(CONFLICT);
        }
        rows := rows[saved.id := rows[saved.id].(revision := saved.revision, document := saved)];
      }
      return Accepted(map[saved.id := Mutation(saved.workspaceId, saved.id, saved.revision, Upsert)]);
    }

    method DeleteOn(workspace: string, id: string, expected: int, live: set<string>) returns (reply: Reply)
      modifies this
      ensures (rows, reply) == Write(old(rows), live, accepts, Remove(workspace, id, expected))
    {
      if workspace !in live {
        return Rejected(NotFound);
      }
      if !CanGrow(expected) || !Hits(rows, workspace, id, expected) {
        return Rejected(CONFLICT);
      }
      rows := rows[id := Buried(rows[id])];
      return Accepted(map[id := Mutation(workspace, id, rows[id].revision, Delete)]);
    }

    /** Buries every flow of a workspace. */
    method DeleteWorkspaceOn(workspace: string, live: set<string>) returns (reply: Reply)
      modifies this
      ensures (rows, reply) == Write(old(rows), live, accepts, RemoveWorkspace(workspace))
    {
      var targets := Live(rows, workspace);
      if exists id :: id in targets && rows[id].revision == MAX_REVISION {
        return Rejected(STORE_ERROR);
      }
      var before := rows;
      rows := map id | id in before :: if id in targets then Buried(before[id]) else before[id];
      var mutations := map id | id in targets :: Mutation(workspace, id, rows[id].revision, Delete);
      assert mutations == map id | id in targets :: Mutation(workspace, id, before[id].revision + 1, Delete);
      return Accepted(mutations);
    }

    method ImportDefinitionOn(definition: Definition, live: set<string>) returns (reply: Reply)
      modifies this
      ensures (rows, reply) == Write(old(rows), live, accepts, Import(definition))
    {
      if definition.workspaceId !in live {
        return Rejected(NotFound);
      }
      var imported := definition.(revision := 1);
      if !accepts(imported.content) {
        return Rejected(INVALID_DEFINITION);
      }
      if imported.id in rows {
        return Rejected(STORE_ERROR);
      }
      rows := rows[imported.id := Row(imported.workspaceId, 1, imported, false)];
      return Accepted(map[imported.id := Mutation(imported.workspaceId, imported.id, 1, Upsert)]);
    }

    /** Materializes an external whole-document write. */
    method ApplyUpsertOn(workspace: string, id: string, definition: Definition, live: set<string>) returns (reply: Reply)
      modifies this
      ensures (rows, reply) == Write(old(rows), live, accepts, ApplyUpsert(workspace, id, definition))
    {
      if id == "" {
        return Rejected(INVALID_ENTITY);
      }
      if id in rows && rows[id].workspace != workspace {
        return Rejected(MISMATCH);
      }
      var previous := Revision(rows, id);
      if workspace !in live {
        return Rejected(NotFound);
      }
      if definition.id != id || definition.workspaceId != workspace {
        return Rejected(MISMATCH);
      }
      var applied := definition.(revision := previous);
      if !accepts(applied.content) {
        return Rejected(INVALID_DEFINITION);
      }
      if id in rows && !rows[id].deleted && rows[id].document == applied {
        return Accepted(map[]);
      }
      if previous < 0 || previous >= MAX_REVISION {
        return Rejected(CONFLICT);
      }
      applied := applied.(revision := previous + 1);
      rows := rows[id := Row(workspace, applied.revision, applied, false)];
      return Accepted(map[id := Mutation(workspace, id, applied.revision, Upsert)]);
    }

    /** Materializes an external deletion. */
    method ApplyDeleteOn(workspace: string, id: string, live: set<string>) returns (reply: Reply)
      modifies this
      ensures (rows, reply) == Write(old(rows), live, accepts, ApplyDelete(workspace, id))
    {
      if id == "" {
        return Rejected(INVALID_ENTITY);
      }
      if id in rows && rows[id].workspace != workspace {
        return Rejected(MISMATCH);
      }
      if id !in rows || rows[id].deleted {
        return Accepted(map[]);
      }
      var previous := rows[id].revision;
      if previous < 0 || previous >= MAX_REVISION {
        return Rejected(CONFLICT);
      }
      rows := rows[id := Buried(rows[id])];
      return Accepted(map[id := Mutation(workspace, id, rows[id].revision, Delete)]);
    }
  }

  /** The effect of one write. */
  function Write(rows: map<string, Row>, live: set<string>, accepts: Json -> bool, e: Event): (map<string, Row>, Reply)
  {
    match e
    case Save(d, freshId) =>
      if d.workspaceId !in live then (rows, Rejected(NotFound))
      else if !accepts(d.content) then (rows, Rejected(INVALID_DEFINITION))
      else if d.id == "" then Insert(rows, d.(id := freshId, revision := 1))
      else if !CanGrow(d.revision) || !Hits(rows, d.workspaceId, d.id, d.revision) then (rows, Rejected(CONFLICT))
      else Replace(rows, d.workspaceId, d.id, rows[d.id].(revision := d.revision + 1, document := d.(revision := d.revision + 1)), Upsert)
    case Remove(workspace, id, expected) =>
      if workspace !in live then (rows, Rejected(NotFound))
      else if !CanGrow(expected) || !Hits(rows, workspace, id, expected) then (rows, Rejected(CONFLICT))
      else Replace(rows, workspace, id, Buried(rows[id]), Delete)
    case RemoveWorkspace(workspace) =>
      var targets := Live(rows, workspace);
      if exists id :: id in targets && rows[id].revision == MAX_REVISION then (rows, Rejected(STORE_ERROR))
      else (map id | id in rows :: if id in targets then Buried(rows[id]) else rows[id],
            Accepted(map id | id in targets :: Mutation(workspace, id, rows[id].revision + 1, Delete)))
    case Import(d) =>
      if d.workspaceId !in live then (rows, Rejected(NotFound))
      else if !accepts(d.content) then (rows, Rejected(INVALID_DEFINITION))
      else Insert(rows, d.(revision := 1))
    case ApplyUpsert(workspace, id, d) =>
      var previous := Revision(rows, id);
      if id == "" then (rows, Rejected(INVALID_ENTITY))
      else if id in rows && rows[id].workspace != workspace then (rows, Rejected(MISMATCH))
      else if workspace !in live then (rows, Rejected(NotFound))
      else if d.id != id || d.workspaceId != workspace then (rows, Rejected(MISMATCH))
      else if !accepts(d.content) then (rows, Rejected(INVALID_DEFINITION))
      else if id in rows && !rows[id].deleted && rows[id].document == d.(revision := previous) then (rows, Accepted(map[]))
      else if previous < 0 || previous >= MAX_REVISION then (rows, Rejected(CONFLICT))
      else Replace(rows, workspace, id, Row(workspace, previous + 1, d.(revision := previous + 1), false), Upsert)
    case ApplyDelete(workspace, id) =>
      if id == "" then (rows, Rejected(INVALID_ENTITY))
      else if id in rows && rows[id].workspace != workspace then (rows, Rejected(MISMATCH))
      else if id !in rows || rows[id].deleted then (rows, Accepted(map[]))
      else if rows[id].revision < 0 || rows[id].revision >= MAX_REVISION then (rows, Rejected(CONFLICT))
      else Replace(rows, workspace, id, Buried(rows[id]), Delete)
  }

  function Insert(rows: map<string, Row>, d: Definition): (map<string, Row>, Reply)
  {
    if d.id in rows then (rows, Rejected(STORE_ERROR))
    else Replace(rows, d.workspaceId, d.id, Row(d.workspaceId, 1, d, false), Upsert)
  }

  function Replace(rows: map<string, Row>, workspace: string, id: string, row: Row, operation: Operation): (map<string, Row>, Reply)
  {
    (rows[id := row], Accepted(map[id := Mutation(workspace, id, row.revision, operation)]))
  }

  // ---------- over every history ----------

  /** A write and the workspaces that were live then. */
  datatype Entry = Entry(live: set<string>, write: Event)

  function After(rows: map<string, Row>, accepts: Json -> bool, history: seq<Entry>): map<string, Row>
    decreases |history|
  {
    if history == [] then rows
    else After(Write(rows, history[0].live, accepts, history[0].write).0, accepts, history[1..])
  }

  /** The two copies of every revision agree, and documents sit under their own key. */
  ghost predicate Consistent(rows: map<string, Row>)
  {
    forall id :: id in rows ==>
      var row := rows[id];
      1 <= row.revision <= MAX_REVISION && row.document.revision == row.revision
      && row.document.id == id && row.document.workspaceId == row.workspace
  }

  lemma WriteKeepsConsistency(rows: map<string, Row>, live: set<string>, accepts: Json -> bool, e: Event)
    requires Consistent(rows)
    ensures Consistent(Write(rows, live, accepts, e).0)
  {
  }

  lemma {:induction false} HistoryKeepsConsistency(rows: map<string, Row>, accepts: Json -> bool, history: seq<Entry>)
    requires Consistent(rows)
    ensures Consistent(After(rows, accepts, history))
    decreases |history|
  {
    if history != [] {
      WriteKeepsConsistency(rows, history[0].live, accepts, history[0].write);
      HistoryKeepsConsistency(Write(rows, history[0].live, accepts, history[0].write).0, accepts, history[1..]);
    }
  }

  // ---------- what one write stores ----------

  /** The flow is there for readers, with this content. */
  predicate Holds(rows: map<string, Row>, workspace: string, id: string, revision: int, content: Json)
  {
    && id in rows && rows[id].workspace == workspace && !rows[id].deleted && rows[id].revision == revision
    && rows[id].document == Definition(id, workspace, revision, content)
  }

  /** A save is accepted exactly when the workspace is live, the content passes, and the flow is
      new or still at the expected revision; then it stores the caller's content at the next
      revision, and otherwise the table stays. */
  lemma SavingStoresContent(rows: map<string, Row>, live: set<string>, accepts: Json -> bool, d: Definition, freshId: string)
    requires Consistent(rows)
    ensures var (later, reply) := Write(rows, live, accepts, Save(d, freshId));
            var id := if d.id == "" then freshId else d.id;
            var expected := if d.id == "" then 0 else d.revision;
            && (reply.Accepted? <==>
                  && d.workspaceId in live && accepts(d.content)
                  && (if d.id == "" then freshId !in rows
                      else 0 < d.revision < MAX_REVISION && id in rows && !rows[id].deleted
                           && rows[id].workspace == d.workspaceId && rows[id].revision == d.revision))
            && (reply.Accepted? ==> Holds(later, d.workspaceId, id, expected + 1, d.content))
            && (reply.Accepted? ==> reply.mutations == map[id := Mutation(d.workspaceId, id, expected + 1, Upsert)])
            && (reply.Rejected? ==> later == rows)
  {
  }

  /** An import stores its content at revision one, under an id that was not used. */
  lemma ImportingStoresContent(rows: map<string, Row>, live: set<string>, accepts: Json -> bool, d: Definition)
    ensures var (later, reply) := Write(rows, live, accepts, Import(d));
            && (reply.Accepted? <==> d.workspaceId in live && accepts(d.content) && d.id !in rows)
            && (reply.Accepted? ==> Holds(later, d.workspaceId, d.id, 1, d.content))
            && (reply.Rejected? ==> later == rows)
  {
  }

  /** An accepted external document is there afterwards with its content, also when the flow had
      been deleted or already was the same. */
  lemma ApplyingStoresContent(rows: map<string, Row>, live: set<string>, accepts: Json -> bool, workspace: string, id: string, d: Definition)
    requires Consistent(rows)
    ensures var (later, reply) := Write(rows, live, accepts, ApplyUpsert(workspace, id, d));
            && (reply.Accepted? ==> Holds(later, workspace, id, Revision(later, id), d.content))
            && (reply.Accepted? ==> reply.mutations.Keys <= {id})
            && (reply.Accepted? ==>
                  (id !in reply.mutations <==> Holds(rows, workspace, id, Revision(rows, id), d.content)))
            && (reply.Rejected? ==> later == rows)
  {
  }

  /** The flow is gone for readers, with its content kept at this revision. */
  predicate IsBuried(rows: map<string, Row>, later: map<string, Row>, id: string)
  {
    && id in rows && id in later && later[id].deleted && later[id].workspace == rows[id].workspace
    && later[id].revision == rows[id].revision + 1 && later[id].document.content == rows[id].document.content
  }

  /** Deleting buries exactly the flow at the expected revision. */
  lemma RemovingBuries(rows: map<string, Row>, live: set<string>, accepts: Json -> bool, workspace: string, id: string, expected: int)
    ensures var (later, reply) := Write(rows, live, accepts, Remove(workspace, id, expected));
            && (reply.Accepted? <==>
                  && workspace in live && 0 < expected < MAX_REVISION
                  && id in rows && rows[id].workspace == workspace && rows[id].revision == expected && !rows[id].deleted)
            && (reply.Accepted? ==> IsBuried(rows, later, id) && forall other :: other in rows && other != id ==> later[other] == rows[other])
            && (reply.Accepted? ==> reply.mutations == map[id := Mutation(workspace, id, expected + 1, Delete)])
  {
  }

  /** Removing a workspace buries every live flow of it, and nothing else. */
  lemma RemovingWorkspaceBuriesAll(rows: map<string, Row>, live: set<string>, accepts: Json -> bool, workspace: string)
    ensures var (later, reply) := Write(rows, live, accepts, RemoveWorkspace(workspace));
            reply.Accepted? ==>
              && later.Keys == rows.Keys
              && forall id :: id in rows ==>
                   if rows[id].workspace == workspace && !rows[id].deleted
                   then IsBuried(rows, later, id) && id in reply.mutations && reply.mutations[id].operation == Delete
                   else later[id] == rows[id] && id !in reply.mutations
  {
  }

  /** An external delete leaves the flow gone, and buries it only if it was there. */
  lemma ApplyingDeleteBuries(rows: map<string, Row>, live: set<string>, accepts: Json -> bool, workspace: string, id: string)
    ensures var (later, reply) := Write(rows, live, accepts, ApplyDelete(workspace, id));
            && (reply.Accepted? ==> id !in later || later[id].deleted)
            && (reply.Accepted? && id in rows && !rows[id].deleted ==> IsBuried(rows, later, id))
            && (reply.Accepted? && (id !in rows || rows[id].deleted) ==> later == rows)
  {
  }

  /** A reader of a flow that holds a content gets that content. */
  lemma SnapshotShowsContent(rows: map<string, Row>, workspace: string, id: string, revision: int, content: Json, accepts: Json -> bool)
    requires Holds(rows, workspace, id, revision, content) && accepts(content)
    ensures ReadSnapshot(rows, workspace, id, accepts) == Ok(Current(revision, Definition(id, workspace, revision, content)))
  {
  }

  // ---------- what every history keeps ----------

  /** One write moves the revision of a flow exactly when it emits a mutation for it, by one,
      to the emitted revision; a rejected write changes nothing. */
  lemma OneStep(rows: map<string, Row>, live: set<string>, accepts: Json -> bool, e: Event, id: string)
    requires Consistent(rows)
    ensures var (later, reply) := Write(rows, live, accepts, e);
            && (reply.Rejected? ==> later == rows)
            && (reply.Accepted? && id in reply.mutations ==>
                  && reply.mutations[id].id == id
                  && reply.mutations[id].revision == Revision(later, id) == Revision(rows, id) + 1)
            && (reply.Accepted? && id !in reply.mutations ==>
                  Revision(later, id) == Revision(rows, id) && (id in later <==> id in rows)
                  && (id in rows ==> later[id] == rows[id]))
  {
  }

  /** The revisions a history emits for one flow. */
  function Emitted(rows: map<string, Row>, accepts: Json -> bool, history: seq<Entry>, id: string): seq<int>
    decreases |history|
  {
    if history == [] then []
    else
      var (later, reply) := Write(rows, history[0].live, accepts, history[0].write);
      (if reply.Accepted? && id in reply.mutations then [reply.mutations[id].revision] else [])
      + Emitted(later, accepts, history[1..], id)
  }

  /** The emitted revisions of a flow count up by one from its revision, with no gap and no
      repetition, and end at its stored revision. */
  lemma {:induction false} RevisionsAreConsecutive(rows: map<string, Row>, accepts: Json -> bool, history: seq<Entry>, id: string)
    requires Consistent(rows)
    ensures var emitted := Emitted(rows, accepts, history, id);
            && (forall k :: 0 <= k < |emitted| ==> emitted[k] == Revision(rows, id) + 1 + k)
            && Revision(After(rows, accepts, history), id) == Revision(rows, id) + |emitted|
    decreases |history|
  {
    if history != [] {
      var (later, reply) := Write(rows, history[0].live, accepts, history[0].write);
      OneStep(rows, history[0].live, accepts, history[0].write, id);
      WriteKeepsConsistency(rows, history[0].live, accepts, history[0].write);
      RevisionsAreConsecutive(later, accepts, history[1..], id);
    }
  }

  /** The flow and revision a compare-and-set write expects. */
  predicate Expects(e: Event, id: string, revision: int)
  {
    match e
    case Save(d, _) => d.id == id != "" && d.revision == revision
    case Remove(_, target, expected) => target == id && expected == revision
    case _ => false
  }

  /** Of two writers that saw the same revision, only the first one succeeds, whatever
      happens in between. */
  lemma SecondWriterFails(rows: map<string, Row>, accepts: Json -> bool, first: Entry, between: seq<Entry>, second: Entry,
                          id: string, revision: int)
    requires Consistent(rows)
    requires Expects(first.write, id, revision) && Expects(second.write, id, revision)
    requires Write(rows, first.live, accepts, first.write).1.Accepted?
    ensures var later := After(Write(rows, first.live, accepts, first.write).0, accepts, between);
            Write(later, second.live, accepts, second.write).1.Rejected?
  {
    var next := Write(rows, first.live, accepts, first.write).0;
    assert next[id].revision == revision + 1;
    WriteKeepsConsistency(rows, first.live, accepts, first.write);
    RevisionsAreConsecutive(next, accepts, between, id);
    var later := After(next, accepts, between);
    assert Revision(later, id) > revision;
  }

  predicate External(e: Event)
  {
    e.ApplyUpsert? || e.ApplyDelete?
  }

  /** Applying an external change again, after any writes that leave the flow alone, is
      accepted and leaves the table untouched. */
  lemma ReapplyingChangesNothing(rows: map<string, Row>, accepts: Json -> bool, first: Entry, between: seq<Entry>, again: set<string>)
    requires Consistent(rows)
    requires External(first.write)
    requires Write(rows, first.live, accepts, first.write).1.Accepted?
    requires Emitted(Write(rows, first.live, accepts, first.write).0, accepts, between, first.write.id) == []
    requires first.write.ApplyUpsert? ==> first.write.workspace in again
    ensures var later := After(Write(rows, first.live, accepts, first.write).0, accepts, between);
            Write(later, again, accepts, first.write) == (later, Accepted(map[]))
  {
    var next := Write(rows, first.live, accepts, first.write).0;
    WriteKeepsConsistency(rows, first.live, accepts, first.write);
    SilentHistoryKeepsRow(next, accepts, between, first.write.id);
  }

  lemma {:induction false} SilentHistoryKeepsRow(rows: map<string, Row>, accepts: Json -> bool, history: seq<Entry>, id: string)
    requires Consistent(rows)
    requires Emitted(rows, accepts, history, id) == []
    ensures id in rows <==> id in After(rows, accepts, history)
    ensures id in rows ==> After(rows, accepts, history)[id] == rows[id]
    decreases |history|
  {
    if history != [] {
      var (later, reply) := Write(rows, history[0].live, accepts, history[0].write);
      OneStep(rows, history[0].live, accepts, history[0].write, id);
      WriteKeepsConsistency(rows, history[0].live, accepts, history[0].write);
      SilentHistoryKeepsRow(later, accepts, history[1..], id);
    }
  }

  datatype Snapshot = Tombstone(revision: int) | Current(revision: int, document: Definition)

  /** Reads one flow for synchronization; refuses a row whose document disagrees with it. */
  function ReadSnapshot(rows: map<string, Row>, workspace: string, id: string, accepts: Json -> bool): Result<Snapshot, AppError>
  {
    if id !in rows || rows[id].workspace != workspace then Err(NotFound)
    else
      var row := rows[id];
      if row.deleted then Ok(Tombstone(row.revision))
      else if row.document.id != id || row.document.workspaceId != workspace || row.document.revision != row.revision
              || !accepts(row.document.content) then Err(INVALID_DEFINITION)
      else Ok(Current(row.revision, row.document))
  }

  /** Every stored document passed the content check when it was written. */
  ghost predicate AllAccepted(rows: map<string, Row>, accepts: Json -> bool)
  {
    forall id :: id in rows ==> accepts(rows[id].document.content)
  }

  lemma {:induction false} HistoryKeepsAccepted(rows: map<string, Row>, accepts: Json -> bool, history: seq<Entry>)
    requires AllAccepted(rows, accepts)
    ensures AllAccepted(After(rows, accepts, history), accepts)
    decreases |history|
  {
    if history != [] {
      HistoryKeepsAccepted(Write(rows, history[0].live, accepts, history[0].write).0, accepts, history[1..]);
    }
  }

  /** After any history, reading a flow fails only when there is none, and gives the last
      emitted revision. */
  lemma SnapshotsAreSound(accepts: Json -> bool, history: seq<Entry>, workspace: string, id: string)
    ensures var rows := After(map[], accepts, history);
            var snapshot := ReadSnapshot(rows, workspace, id, accepts);
            && (snapshot.Err? <==> id !in rows || rows[id].workspace != workspace)
            && (snapshot.Ok? ==> snapshot.value.revision == |Emitted(map[], accepts, history, id)|)
  {
    HistoryKeepsConsistency(map[], accepts, history);
    HistoryKeepsAccepted(map[], accepts, history);
    RevisionsAreConsecutive(map[], accepts, history, id);
  }
}
