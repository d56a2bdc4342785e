/** Paging through the run history, newest first, while runs are being added. */
module RunPages {
  import opened Errors
  import opened RunRows
  import opened Values

  /** The sort key of a run. */
  datatype Key = Key(startedAt: int, id: string)

  /** Listed after: an older start, or the same start and a smaller id. */
  predicate Below(a: Key, b: Key)
  {
    a.startedAt < b.startedAt || (a.startedAt == b.startedAt && Less(a.id, b.id))
  }

  lemma {:induction false} LessIsTotal(a: string, b: string)
    ensures a == b || Less(a, b) || Less(b, a)
    ensures !(Less(a, b) && Less(b, a)) && !Less(a, a)
    decreases |a| + |b|
  {
    if a != "" && b != "" {
      LessIsTotal(a[1..], b[1..]);
      assert a == [a[0]] + a[1..] && b == [b[0]] + b[1..];
    }
    if a != "" {
      LessIsIrreflexive(a);
    }
  }

  lemma {:induction false} LessIsIrreflexive(a: string)
    ensures !Less(a, a)
  {
    if a != "" {
      LessIsIrreflexive(a[1..]);
    }
  }

  lemma {:induction false} LessIsTransitive(a: string, b: string, c: string)
    requires Less(a, b) && Less(b, c)
    ensures Less(a, c)
    decreases |a|
  {
    if a != "" && a[0] == b[0] == c[0] {
      LessIsTransitive(a[1..], b[1..], c[1..]);
    }
  }

  lemma BelowIsTotal(a: Key, b: Key)
    ensures a == b || Below(a, b) || Below(b, a)
    ensures !(Below(a, b) && Below(b, a)) && !Below(a, a)
  {
    LessIsTotal(a.id, b.id);
    LessIsIrreflexive(a.id);
  }

  lemma BelowIsTransitive(a: Key, b: Key, c: Key)
    requires Below(a, b) && Below(b, c)
    ensures Below(a, c)
  {
    if a.startedAt == b.startedAt == c.startedAt {
      LessIsTransitive(a.id, b.id, c.id);
    }
  }

  /** The keys of the runs of one flow. */
  function KeysOf(rows: map<string, Row>, workspace: string, flow: string): (r: set<Key>)
    ensures forall k :: k in r <==>
              k.id in rows && rows[k.id].workspace == workspace && rows[k.id].flow == flow && rows[k.id].startedAt == k.startedAt
  {
    set id | id in rows && rows[id].workspace == workspace && rows[id].flow == flow :: Key(rows[id].startedAt, id)
  }

  /** The keys after the cursor; all of them without one. */
  function After(keys: set<Key>, cursor: Option<Key>): set<Key>
  {
    if cursor.None? then keys else set k | k in keys && Below(k, cursor.value)
  }

  ghost predicate Descending(list: seq<Key>)
  {
    forall i, j :: 0 <= i < j < |list| ==> Below(list[j], list[i])
  }

  /** The result of `ORDER BY started_at DESC, id DESC LIMIT n` over a set of rows. */
  ghost predicate IsTop(keys: set<Key>, n: nat, list: seq<Key>)
  {
    && Descending(list)
    && (forall k :: k in list ==> k in keys)
    && |list| <= n
    && (|list| < n ==> forall k :: k in keys ==> k in list)
    && (forall k, last :: k in keys && k !in list && last in list ==> Below(k, last))
  }

  /** The first key in descending order. */
  method Top(keys: set<Key>) returns (top: Key)
    requires keys != {}
    ensures top in keys && forall k :: k in keys ==> k == top || Below(k, top)
  {
    top :| top in keys;
    var rest := keys - {top};
    while rest != {}
      invariant rest <= keys && top in keys
      invariant forall k :: k in keys && k !in rest ==> k == top || Below(k, top)
      decreases |rest|
    {
      var k :| k in rest;
      rest := rest - {k};
      BelowIsTotal(k, top);
      if Below(top, k) {
        forall other | other in keys && other !in rest
          ensures other == k || Below(other, k)
        {
          if other != k && other != top {
            BelowIsTransitive(other, top, k);
          }
        }
        top := k;
      }
    }
  }

  /** Answers the query. */
  method Select(keys: set<Key>, n: nat) returns (list: seq<Key>)
    ensures IsTop(keys, n, list)
  {
    list := [];
    var rest := keys;
    while |list| < n && rest != {}
      invariant |list| <= n && Descending(list)
      invariant forall k :: k in keys <==> k in rest || k in list
      invariant forall k, last :: k in rest && last in list ==> Below(k, last)
      decreases n - |list|
    {
      var top := Top(rest);
      forall k, last | k in rest - {top} && last in list + [top]
        ensures Below(k, last)
      {
        assert last in list || last == top;
      }
      forall i, j | 0 <= i < j < |list + [top]|
        ensures Below((list + [top])[j], (list + [top])[i])
      {
        if j == |list| {
          assert list[i] in list;
        }
      }
      list, rest := list + [top], rest - {top};
    }
  }

  datatype Page = Page(keys: seq<Key>, next: Option<string>)

  const INVALID_PAGE_LIMIT: AppError := AppError.Validation("FLOW_INVALID_PAGE_LIMIT")

  /** What a page must be: the first `limit` runs after the cursor, and a cursor to go on
      from exactly when there are more. */
  ghost predicate IsPage(keys: set<Key>, limit: nat, cursor: Option<Key>, page: Page)
  {
    && IsTop(After(keys, cursor), limit, page.keys)
    && (if page.next.Some? then |page.keys| == limit > 0 && page.next.value == page.keys[limit - 1].id
        else forall k :: k in After(keys, cursor) ==> k in page.keys)
  }

  /** The key of the run a cursor names. */
  function CursorKey(rows: map<string, Row>, workspace: string, flow: string, cursor: Option<string>): Option<Key>
  {
    if cursor.Some? && cursor.value in rows
       && rows[cursor.value].workspace == workspace && rows[cursor.value].flow == flow
    then Some(Key(rows[cursor.value].startedAt, cursor.value))
    else None
  }

  /** One page of the history. One row more than asked for tells whether there are more. */
  method ListRunsPage(table: RunTable, workspace: string, flow: string, limit: nat, cursor: Option<string>, now: int)
    returns (r: Result<Page, AppError>)
    modifies table
    ensures !(1 <= limit <= 100) ==> r == Err(INVALID_PAGE_LIMIT) && table.rows == old(table.rows)
    ensures 1 <= limit <= 100 ==> table.rows == Applied(old(table.rows), Recover(workspace, now))
    ensures 1 <= limit <= 100 && cursor.Some? && CursorKey(table.rows, workspace, flow, cursor).None? ==> r == Err(NotFound)
    ensures r.Ok? ==> (cursor.Some? ==> CursorKey(table.rows, workspace, flow, cursor).Some?)
    ensures r.Ok? ==> IsPage(KeysOf(table.rows, workspace, flow), limit, CursorKey(table.rows, workspace, flow, cursor), r.value)
    ensures 1 <= limit <= 100 && (cursor.Some? ==> CursorKey(table.rows, workspace, flow, cursor).Some?) ==> r.Ok?
  {
    if !(1 <= limit <= 100) {
      return Err(INVALID_PAGE_LIMIT);
    }
    table.RecoverStale(workspace, now);
    var start := CursorKey(table.rows, workspace, flow, cursor);
    if cursor.Some? && start.None? {
      return Err(NotFound);
    }
    var candidates := After(KeysOf(table.rows, workspace, flow), start);
    var rows := Select(candidates, limit + 1);
    var hasMore := |rows| > limit;
    var kept := if hasMore then rows[..limit] else rows;
    TopIsCut(candidates, limit, rows, kept);
    r := Ok(Page(kept, if hasMore then Some(kept[limit - 1].id) else None));
  }

  lemma TopIsCut(keys: set<Key>, limit: nat, rows: seq<Key>, kept: seq<Key>)
    requires IsTop(keys, limit + 1, rows)
    requires kept == if |rows| > limit then rows[..limit] else rows
    ensures IsTop(keys, limit, kept)
  {
  }

  // ---------- following the cursors ----------

  /** What happens to the table between two requests: an event on existing rows, or a new run. */
  datatype Change = Happened(event: Event) | Inserted(id: string, row: Row)

  function Changed(rows: map<string, Row>, change: Change): map<string, Row>
  {
    match change
    case Happened(event) => Applied(rows, event)
    case Inserted(id, row) => if id in rows then rows else rows[id := row]
  }

  function ChangedBy(rows: map<string, Row>, changes: seq<Change>): map<string, Row>
    decreases |changes|
  {
    if changes == [] then rows else ChangedBy(Changed(rows, changes[0]), changes[1..])
  }

  /** Each table comes from the one before by any changes. */
  ghost predicate Evolves(tables: seq<map<string, Row>>)
  {
    forall i {:trigger BecomesNext(tables, i)} :: 0 <= i < |tables| - 1 ==> BecomesNext(tables, i)
  }

  ghost predicate BecomesNext(tables: seq<map<string, Row>>, i: nat)
    requires i + 1 < |tables|
  {
    exists changes :: tables[i + 1] == ChangedBy(tables[i], changes)
  }

  /** Recovery, heartbeats, saves and cancel requests keep the keys of all runs. */
  lemma EventsKeepKeys(rows: map<string, Row>, e: Event, workspace: string, flow: string)
    ensures KeysOf(Applied(rows, e), workspace, flow) == KeysOf(rows, workspace, flow)
  {
    var later := KeysOf(Applied(rows, e), workspace, flow);
    assert forall k :: k in later <==> k in KeysOf(rows, workspace, flow);
  }

  lemma {:induction false} ChangesKeepKeys(rows: map<string, Row>, changes: seq<Change>, workspace: string, flow: string)
    ensures KeysOf(rows, workspace, flow) <= KeysOf(ChangedBy(rows, changes), workspace, flow)
    decreases |changes|
  {
    if changes != [] {
      var next := Changed(rows, changes[0]);
      if changes[0].Happened? {
        EventsKeepKeys(rows, changes[0].event, workspace, flow);
      }
      assert forall k :: k in KeysOf(rows, workspace, flow) ==> k in KeysOf(next, workspace, flow);
      ChangesKeepKeys(next, changes[1..], workspace, flow);
    }
  }

  /** Runs are only added: earlier ones keep their flow and start. */
  lemma {:induction false} TablesGrow(tables: seq<map<string, Row>>, workspace: string, flow: string, i: nat)
    requires Evolves(tables) && i < |tables|
    ensures KeysOf(tables[0], workspace, flow) <= KeysOf(tables[i], workspace, flow)
  {
    if i > 0 {
      TablesGrow(tables, workspace, flow, i - 1);
      assert BecomesNext(tables, i - 1);
      var changes :| tables[i] == ChangedBy(tables[i - 1], changes);
      ChangesKeepKeys(tables[i - 1], changes, workspace, flow);
    }
  }

  /** The cursor of a page still names the last run of that page in every later table, so the
      next request is not refused. */
  lemma CursorIsResolved(rows: map<string, Row>, later: map<string, Row>, workspace: string, flow: string, limit: nat,
                         cursor: Option<Key>, page: Page)
    requires IsPage(KeysOf(rows, workspace, flow), limit, cursor, page) && page.next.Some?
    requires KeysOf(rows, workspace, flow) <= KeysOf(later, workspace, flow)
    ensures CursorKey(later, workspace, flow, page.next) == Some(page.keys[limit - 1])
  {
    var last := page.keys[limit - 1];
    assert last in page.keys;
    assert last in KeysOf(later, workspace, flow);
  }

  /** A history of requests: each page was answered by its table, and the next request carries
      the page's cursor, which is looked up again in the next table. */
  ghost predicate Follows(tables: seq<map<string, Row>>, workspace: string, flow: string, limit: nat,
                          cursor: Option<string>, pages: seq<Page>)
    requires |pages| <= |tables|
    decreases |pages|
  {
    if pages == [] then true
    else
      && IsPage(KeysOf(tables[0], workspace, flow), limit, CursorKey(tables[0], workspace, flow, cursor), pages[0])
      && (if pages[0].next.None? then |pages| == 1 else Follows(tables[1..], workspace, flow, limit, pages[0].next, pages[1..]))
  }

  function Listing(pages: seq<Page>): seq<Key>
  {
    if pages == [] then [] else pages[0].keys + Listing(pages[1..])
  }

  /** From one request to the next: the later tables go on evolving, and the cursor resolves. */
  lemma NextRequest(tables: seq<map<string, Row>>, workspace: string, flow: string, limit: nat, cursor: Option<Key>, page: Page)
    requires Evolves(tables) && |tables| > 1
    requires IsPage(KeysOf(tables[0], workspace, flow), limit, cursor, page) && page.next.Some?
    ensures Evolves(tables[1..])
    ensures KeysOf(tables[0], workspace, flow) <= KeysOf(tables[1], workspace, flow)
    ensures CursorKey(tables[1], workspace, flow, page.next) == Some(page.keys[limit - 1])
  {
    TablesGrow(tables, workspace, flow, 1);
    CursorIsResolved(tables[0], tables[1], workspace, flow, limit, cursor, page);
    LaterTablesEvolve(tables);
  }

  lemma LaterTablesEvolve(tables: seq<map<string, Row>>)
    requires Evolves(tables) && tables != []
    ensures Evolves(tables[1..])
  {
    forall i: nat | i < |tables[1..]| - 1
      ensures BecomesNext(tables[1..], i)
    {
      assert BecomesNext(tables, i + 1);
    }
  }

  /** Newest first: the start never grows along the listing, and among equal starts the ids fall. */
  predicate NewestFirst(list: seq<Key>)
  {
    forall i, j :: 0 <= i < j < |list| ==>
      && list[j].startedAt <= list[i].startedAt
      && (list[j].startedAt == list[i].startedAt ==> Less(list[j].id, list[i].id) && !Less(list[i].id, list[j].id))
  }

  lemma DescendingIsNewestFirst(list: seq<Key>)
    requires Descending(list)
    ensures NewestFirst(list)
  {
    forall i, j | 0 <= i < j < |list| && list[j].startedAt == list[i].startedAt
      ensures Less(list[j].id, list[i].id) && !Less(list[i].id, list[j].id)
    {
      assert Below(list[j], list[i]);
      LessIsTotal(list[j].id, list[i].id);
    }
    forall i, j | 0 <= i < j < |list|
      ensures list[j].startedAt <= list[i].startedAt
    {
      assert Below(list[j], list[i]);
    }
  }

  /** The listing is strictly descending, so nothing is listed twice, whatever is added
      between the requests. */
  lemma {:induction false} ListingIsDescending(tables: seq<map<string, Row>>, workspace: string, flow: string, limit: nat,
                                               cursor: Option<string>, pages: seq<Page>)
    requires |pages| <= |tables| && Evolves(tables) && Follows(tables, workspace, flow, limit, cursor, pages)
    ensures Descending(Listing(pages)) && NewestFirst(Listing(pages))
    ensures pages != [] && CursorKey(tables[0], workspace, flow, cursor).Some? ==>
              forall k :: k in Listing(pages) ==> Below(k, CursorKey(tables[0], workspace, flow, cursor).value)
    decreases |pages|
  {
    if pages != [] {
      var start := CursorKey(tables[0], workspace, flow, cursor);
      var first := pages[0].keys;
      if pages[0].next.Some? {
        if |pages| > 1 {
          NextRequest(tables, workspace, flow, limit, start, pages[0]);
          ListingIsDescending(tables[1..], workspace, flow, limit, pages[0].next, pages[1..]);
        }
        PagesJoin(first, limit, Listing(pages[1..]), start);
      } else {
        assert Listing(pages[1..]) == [];
        assert Listing(pages) == first;
      }
    }
    DescendingIsNewestFirst(Listing(pages));
  }

  lemma PagesJoin(first: seq<Key>, limit: nat, rest: seq<Key>, start: Option<Key>)
    requires Descending(first) && Descending(rest) && |first| == limit > 0
    requires forall k :: k in rest ==> Below(k, first[limit - 1])
    requires start.Some? ==> forall k :: k in first ==> Below(k, start.value)
    ensures Descending(first + rest)
    ensures start.Some? ==> forall k :: k in first + rest ==> Below(k, start.value)
  {
    var last := first[limit - 1];
    assert last in first;
    forall i, j | 0 <= i < j < |first + rest|
      ensures Below((first + rest)[j], (first + rest)[i])
    {
      if i < |first| <= j {
        assert (first + rest)[j] in rest;
        if i < limit - 1 {
          BelowIsTransitive((first + rest)[j], last, first[i]);
        }
      }
    }
    if start.Some? {
      forall k | k in first + rest
        ensures Below(k, start.value)
      {
        if k in rest {
          BelowIsTransitive(k, last, start.value);
        }
      }
    }
  }

  /** When the last page has no cursor, every run that existed at the first request and comes
      after the first cursor is listed. */
  lemma {:induction false} ListingIsComplete(tables: seq<map<string, Row>>, workspace: string, flow: string, limit: nat,
                                             cursor: Option<string>, pages: seq<Page>, run: Key)
    requires pages != [] && |pages| <= |tables| && Evolves(tables) && Follows(tables, workspace, flow, limit, cursor, pages)
    requires pages[|pages| - 1].next.None?
    requires run in After(KeysOf(tables[0], workspace, flow), CursorKey(tables[0], workspace, flow, cursor))
    ensures run in Listing(pages)
    decreases |pages|
  {
    if run !in pages[0].keys {
      var last := pages[0].keys[limit - 1];
      assert last in pages[0].keys;
      NextRequest(tables, workspace, flow, limit, CursorKey(tables[0], workspace, flow, cursor), pages[0]);
      assert pages[1..][|pages[1..]| - 1] == pages[|pages| - 1];
      ListingIsComplete(tables[1..], workspace, flow, limit, pages[0].next, pages[1..], run);
    }
  }

  ghost predicate ListedOnce(list: seq<Key>, run: Key)
  {
    exists i :: 0 <= i < |list| && list[i] == run && forall j :: 0 <= j < |list| && list[j] == run ==> j == i
  }

  lemma DescendingListsOnce(list: seq<Key>, run: Key)
    requires Descending(list) && run in list
    ensures ListedOnce(list, run)
  {
    BelowIsTotal(run, run);
    var i :| 0 <= i < |list| && list[i] == run;
    assert forall j :: 0 <= j < |list| && list[j] == run ==> j == i;
  }

  /** Reading the history to the end lists every run that existed at the first request
      exactly once, newest first, whatever happens to the table in between. */
  lemma HistoryIsListedOnce(tables: seq<map<string, Row>>, workspace: string, flow: string, limit: nat, pages: seq<Page>)
    requires pages != [] && |pages| <= |tables| && Evolves(tables) && Follows(tables, workspace, flow, limit, None, pages)
    requires pages[|pages| - 1].next.None?
    ensures Descending(Listing(pages)) && NewestFirst(Listing(pages))
    ensures forall run :: run in KeysOf(tables[0], workspace, flow) ==>
              ListedOnce(Listing(pages), run)
  {
    ListingIsDescending(tables, workspace, flow, limit, None, pages);
    forall run | run in KeysOf(tables[0], workspace, flow)
      ensures ListedOnce(Listing(pages), run)
    {
      ListingIsComplete(tables, workspace, flow, limit, None, pages, run);
      DescendingListsOnce(Listing(pages), run);
    }
  }
}
