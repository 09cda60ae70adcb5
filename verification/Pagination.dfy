/** Keyset pagination of deployments: ORDER BY created_at DESC, id DESC, one page at a time. */
module Pagination {
  import opened Tables

  datatype Row = Row(
    applicationId: string, serviceId: string, environmentId: string, status: string, trigger: string, branch: string,
    createdAt: Time)

  type Table = map<Id, Row>

  /** An empty string, or no date, leaves that column unfiltered. */
  datatype Filter = Filter(
    applicationId: string, serviceId: string, environmentId: string, status: string, trigger: string, branch: string,
    dateFrom: Option<Time>, dateTo: Option<Time>)

  predicate Admits(wanted: string, value: string) { wanted == "" || wanted == value }

  predicate Matches(f: Filter, r: Row) {
    && r.serviceId != ""
    && Admits(f.applicationId, r.applicationId) && Admits(f.serviceId, r.serviceId)
       && Admits(f.environmentId, r.environmentId)
    && Admits(f.status, r.status) && Admits(f.trigger, r.trigger) && Admits(f.branch, r.branch)
    && (f.dateFrom.Some? ==> r.createdAt >= f.dateFrom.value) && (f.dateTo.Some? ==> r.createdAt <= f.dateTo.value)
  }

  const DEFAULT_LIMIT := 100
  const MAX_LIMIT := 500

  function EffectiveLimit(limit: int): nat {
    if limit <= 0 || limit > MAX_LIMIT then DEFAULT_LIMIT else limit
  }

  // ----- order ------------------------------------------------------------

  /** `a` is listed before `b`. */
  predicate Before(t: Table, a: Id, b: Id)
    requires a in t && b in t
  {
    t[a].createdAt > t[b].createdAt || (t[a].createdAt == t[b].createdAt && a > b)
  }

  predicate Leads(t: Table, ids: set<Id>, first: Id)
    requires ids <= t.Keys
  {
    first in ids && forall id | id in ids :: id == first || Before(t, first, id)
  }

  lemma {:induction false} LeaderExists(t: Table, ids: set<Id>)
    requires ids <= t.Keys && ids != {}
    ensures exists first :: Leads(t, ids, first)
  {
    var id :| id in ids;
    var rest := ids - {id};
    assert forall other | other in ids :: other == id || other in rest;
    if rest == {} {
      assert Leads(t, ids, id);
    } else {
      LeaderExists(t, rest);
      var first :| Leads(t, rest, first);
      assert forall other | other in rest :: other == first || Before(t, first, other);
      assert Leads(t, ids, if Before(t, id, first) then id else first);
    }
  }

  ghost function Leader(t: Table, ids: set<Id>): (first: Id)
    requires ids <= t.Keys && ids != {}
    ensures Leads(t, ids, first)
  {
    LeaderExists(t, ids);
    var first :| Leads(t, ids, first);
    first
  }

  /** The ids in listing order. */
  ghost function Listed(t: Table, ids: set<Id>): (s: seq<Id>)
    requires ids <= t.Keys
    ensures |s| == |ids| && (forall k | 0 <= k < |s| :: s[k] in ids)
  {
    if ids == {} then []
    else
      var first := Leader(t, ids);
      [first] + Listed(t, ids - {first})
  }

  /** By time, newest first, and by descending id among rows of the same time; so no row twice. */
  ghost predicate NewestFirst(t: Table, s: seq<Id>) {
    && (forall k | 0 <= k < |s| :: s[k] in t)
    && forall j, k | 0 <= j < k < |s| ::
      t[s[j]].createdAt > t[s[k]].createdAt || (t[s[j]].createdAt == t[s[k]].createdAt && s[j] > s[k])
  }

  lemma FirstIsNewest(t: Table, ids: set<Id>, first: Id, rest: seq<Id>)
    requires ids <= t.Keys && Leads(t, ids, first) && NewestFirst(t, rest)
    requires forall k | 0 <= k < |rest| :: rest[k] in ids - {first}
    ensures NewestFirst(t, [first] + rest)
  {
    forall k | 0 <= k < |rest| ensures Before(t, first, rest[k]) {
      assert rest[k] in ids;
    }
  }

  lemma {:induction false} ListedIsSorted(t: Table, ids: set<Id>)
    requires ids <= t.Keys
    ensures NewestFirst(t, Listed(t, ids)) && forall id | id in ids :: id in Listed(t, ids)
  {
    hide NewestFirst, Before;
    if ids == {} {
      assert NewestFirst(t, []) by { NoneIsSorted(t); }
    } else {
      var first := Leader(t, ids);
      ListedIsSorted(t, ids - {first});
      var rest := Listed(t, ids - {first});
      FirstIsNewest(t, ids, first, rest);
      forall id | id in ids ensures id in [first] + rest { if id != first { assert id in rest; } }
    }
  }

  lemma NoneIsSorted(t: Table)
    ensures NewestFirst(t, [])
  {}

  // ----- pages ------------------------------------------------------------

  /** Rows the query selects: those after the cursor's row, and none if that row is gone. */
  function Candidates(t: Table, f: Filter, cursor: Option<Id>): (ids: set<Id>)
    ensures ids <= t.Keys
  {
    set id | id in t && Matches(f, t[id]) && (cursor.None? || (cursor.value in t && Before(t, cursor.value, id)))
  }

  /** Which rows those are, column by column. */
  lemma CandidateColumns(t: Table, f: Filter, cursor: Option<Id>, id: Id)
    requires id in t
    ensures id in Candidates(t, f, cursor) <==>
      && t[id].serviceId != ""
      && (f.applicationId != "" ==> t[id].applicationId == f.applicationId)
      && (f.serviceId != "" ==> t[id].serviceId == f.serviceId)
      && (f.environmentId != "" ==> t[id].environmentId == f.environmentId)
      && (f.status != "" ==> t[id].status == f.status)
      && (f.trigger != "" ==> t[id].trigger == f.trigger)
      && (f.branch != "" ==> t[id].branch == f.branch)
      && (f.dateFrom.Some? ==> f.dateFrom.value <= t[id].createdAt)
      && (f.dateTo.Some? ==> t[id].createdAt <= f.dateTo.value)
      && (cursor.Some? ==>
            && cursor.value in t
            && (|| t[id].createdAt < t[cursor.value].createdAt
                || (t[id].createdAt == t[cursor.value].createdAt && id < cursor.value)))
  {}

  datatype Page = Page(ids: seq<Id>, next: Option<Id>)

  ghost function PageOf(t: Table, f: Filter, cursor: Option<Id>, limit: int): Page {
    var all, n := Listed(t, Candidates(t, f, cursor)), EffectiveLimit(limit);
    if |all| > n then Page(all[..n], Some(all[n - 1])) else Page(all, None)
  }

  /** The first row in listing order. */
  method SelectFirst(t: Table, left: set<Id>) returns (best: Id)
    requires left <= t.Keys && left != {}
    ensures Leads(t, left, best)
  {
    best :| best in left;
    var others := left - {best};
    while others != {}
      invariant others <= left && best in left
      invariant forall id | id in left && id !in others :: id == best || Before(t, best, id)
    {
      var id :| id in others;
      others := others - {id};
      if Before(t, id, best) { best := id; }
    }
  }

  lemma LeaderIsListedFirst(t: Table, ids: set<Id>, best: Id)
    requires ids <= t.Keys && Leads(t, ids, best)
    ensures Listed(t, ids) == [best] + Listed(t, ids - {best})
  {
    assert best == Leader(t, ids);
  }

  /** SELECT ... ORDER BY ... LIMIT n. */
  method SelectRows(t: Table, f: Filter, cursor: Option<Id>, n: nat) returns (rows: seq<Id>)
    ensures var all := Listed(t, Candidates(t, f, cursor)); rows == if |all| > n then all[..n] else all
  {
    hide Listed, Leads, Matches;
    var left := set id | id in t && Matches(f, t[id])
        && (cursor.None? || (cursor.value in t && Before(t, cursor.value, id)));
    assert left == Candidates(t, f, cursor);
    ghost var all := Listed(t, left);
    rows := [];
    while |rows| < n && left != {}
      invariant left <= t.Keys && |rows| <= n
      invariant rows + Listed(t, left) == all
      decreases |left|
    {
      var best := SelectFirst(t, left);
      LeaderIsListedFirst(t, left, best);
      BestIsLeft(t, left, best);
      rows, left := rows + [best], left - {best};
    }
  }

  lemma BestIsLeft(t: Table, left: set<Id>, best: Id)
    requires left <= t.Keys && Leads(t, left, best)
    ensures best in left
  {}

  method ListServiceDeploymentsFiltered(t: Table, f: Filter, cursor: Option<Id>, limit: int)
    returns (ids: seq<Id>, next: Option<Id>)
    ensures Page(ids, next) == PageOf(t, f, cursor, limit)
  {
    hide Listed, Candidates, Matches;
    var n := if limit <= 0 || limit > 500 then 100 else limit;
    ids := SelectRows(t, f, cursor, n + 1);
    next := None;
    if |ids| > n {
      next := Some(ids[n - 1]);
      ids := ids[..n];
    }
  }

  /** A page is as full as the limit allows, and whatever it leaves for later is older, or as old with a smaller id. */
  lemma PageIsNewest(t: Table, f: Filter, cursor: Option<Id>, limit: int, shown: Id, later: Id)
    requires shown in PageOf(t, f, cursor, limit).ids
    requires later in Candidates(t, f, cursor) && later !in PageOf(t, f, cursor, limit).ids
    ensures |PageOf(t, f, cursor, limit).ids| == if 1 <= limit <= 500 then limit else 100
    ensures shown in t && later in t
    ensures t[shown].createdAt > t[later].createdAt || (t[shown].createdAt == t[later].createdAt && shown > later)
  {
    hide Candidates, Listed, Leads, Before;
    var all, page := Listed(t, Candidates(t, f, cursor)), PageOf(t, f, cursor, limit);
    ListedIsSorted(t, Candidates(t, f, cursor));
    var j :| 0 <= j < |page.ids| && page.ids[j] == shown;
    var k :| 0 <= k < |all| && all[k] == later;
    assert page.ids <= all;
    assert all[j] == shown;
    assert forall m | 0 <= m < |page.ids| :: page.ids[m] == all[m];
    assert k >= |page.ids|;
  }

  // ----- following the cursor ---------------------------------------------

  /** What lies after the k-th listed row is what a query with that row as its cursor selects. */
  lemma {:induction false} TailIsAfter(t: Table, ids: set<Id>, k: nat, after: set<Id>)
    requires ids <= t.Keys && k < |Listed(t, ids)|
    requires forall id :: id in after <==> id in ids && Before(t, Listed(t, ids)[k], id)
    ensures after <= t.Keys && Listed(t, ids)[k + 1..] == Listed(t, after)
  {
    var first := Leader(t, ids);
    var rest := Listed(t, ids - {first});
    if k == 0 {
      assert after == ids - {first};
    } else {
      assert Listed(t, ids)[k] == rest[k - 1];
      TailIsAfter(t, ids - {first}, k - 1, after);
      assert Listed(t, ids)[k + 1..] == rest[k..];
    }
  }

  lemma LimitIsPositive(limit: int)
    ensures EffectiveLimit(limit) > 0
  {}

  /** A page and the candidates of its next cursor make up the candidates of the page. */
  lemma PageSplits(t: Table, f: Filter, cursor: Option<Id>, limit: int)
    ensures var page, all := PageOf(t, f, cursor, limit), Listed(t, Candidates(t, f, cursor));
      if page.next.None? then page.ids == all
      else page.ids != [] && page.next.value in t && page.ids + Listed(t, Candidates(t, f, page.next)) == all
  {
    hide Listed, Matches, EffectiveLimit;
    LimitIsPositive(limit);
    var page, ids := PageOf(t, f, cursor, limit), Candidates(t, f, cursor);
    if page.next.Some? {
      var n := EffectiveLimit(limit);
      assert page.next.value == Listed(t, ids)[n - 1] && page.next.value in ids;
      TailIsAfter(t, ids, n - 1, Candidates(t, f, page.next));
    }
  }

  /** Nothing at or after the cursor's position differs. Rows before it may come, go and change freely. */
  ghost predicate Undisturbed(t: Table, t': Table, cursor: Id) {
    && cursor in t && cursor in t' && t'[cursor].createdAt == t[cursor].createdAt
    && (forall id | id in t && Before(t, cursor, id) :: id in t' && t'[id] == t[id])
    && (forall id | id in t' && Before(t', cursor, id) :: id in t && t'[id] == t[id])
  }

  lemma {:induction false} ListedAlike(t: Table, t': Table, ids: set<Id>)
    requires ids <= t.Keys && ids <= t'.Keys && forall id | id in ids :: t[id].createdAt == t'[id].createdAt
    ensures Listed(t, ids) == Listed(t', ids)
  {
    if ids != {} {
      var first := Leader(t, ids);
      assert Leads(t', ids, first) && first == Leader(t', ids);
      ListedAlike(t, t', ids - {first});
    }
  }

  lemma UndisturbedRest(t: Table, t': Table, f: Filter, cursor: Id)
    requires Undisturbed(t, t', cursor)
    ensures Listed(t, Candidates(t, f, Some(cursor))) == Listed(t', Candidates(t', f, Some(cursor)))
  {
    assert Candidates(t, f, Some(cursor)) == Candidates(t', f, Some(cursor));
    ListedAlike(t, t', Candidates(t, f, Some(cursor)));
  }

  /** A client reads page after page, each from the table as it then is, until there is no next cursor. */
  ghost predicate Followed(pages: seq<seq<Id>>, tables: seq<Table>, f: Filter, cursor: Option<Id>, limit: int) {
    && 0 < |pages| == |tables|
    && var page := PageOf(tables[0], f, cursor, limit);
    && pages[0] == page.ids
    && if |pages| == 1 then page.next.None?
       else page.next.Some? && Undisturbed(tables[0], tables[1], page.next.value)
            && Followed(pages[1..], tables[1..], f, page.next, limit)
  }

  function Concat(pages: seq<seq<Id>>): seq<Id> {
    if pages == [] then [] else pages[0] + Concat(pages[1..])
  }

  /** The pages are the full filtered list, in order, each row once, and there are not too many of them. */
  lemma {:induction false} PagesAreTheListing(pages: seq<seq<Id>>, tables: seq<Table>, f: Filter, cursor: Option<Id>,
      limit: int)
    requires Followed(pages, tables, f, cursor, limit)
    ensures Concat(pages) == Listed(tables[0], Candidates(tables[0], f, cursor))
    ensures |pages| - 1 <= |Candidates(tables[0], f, cursor)|
    ensures NewestFirst(tables[0], Concat(pages))
  {
    hide NewestFirst;
    ListedIsSorted(tables[0], Candidates(tables[0], f, cursor));
    PageSplits(tables[0], f, cursor, limit);
    var page := PageOf(tables[0], f, cursor, limit);
    if |pages| == 1 {
      assert Concat(pages[1..]) == [];
    } else {
      PagesAreTheListing(pages[1..], tables[1..], f, page.next, limit);
      UndisturbedRest(tables[0], tables[1], f, page.next.value);
    }
  }

  /** A client that starts without a cursor on a table that holds still always gets to the end. */
  lemma {:induction false} FollowingEnds(t: Table, f: Filter, cursor: Option<Id>, limit: int)
    returns (pages: seq<seq<Id>>, tables: seq<Table>)
    ensures Followed(pages, tables, f, cursor, limit) && tables[0] == t
    decreases |Candidates(t, f, cursor)|
  {
    PageSplits(t, f, cursor, limit);
    var page := PageOf(t, f, cursor, limit);
    if page.next.None? {
      pages, tables := [page.ids], [t];
    } else {
      var pages', tables' := FollowingEnds(t, f, page.next, limit);
      pages, tables := [page.ids] + pages', [t] + tables';
    }
  }

  // ----- a cursor whose row is deleted ------------------------------------

  lemma LostCursorEndsListing(t: Table, f: Filter, cursor: Id, limit: int)
    requires cursor !in t
    ensures PageOf(t, f, Some(cursor), limit) == Page([], None)
  {
    assert Candidates(t, f, Some(cursor)) == {};
  }

  /** Rows are deleted, none of them after the cursor: what is left to list stays the same exactly if the
      cursor's own row is not among them, or nothing was left to list. */
  lemma DeletionKeepsRestIff(t: Table, f: Filter, cursor: Id, gone: set<Id>)
    requires cursor in t && forall id | id in t && Before(t, cursor, id) :: id !in gone
    ensures Listed(t - gone, Candidates(t - gone, f, Some(cursor))) == Listed(t, Candidates(t, f, Some(cursor)))
       <==> (cursor !in gone || Candidates(t, f, Some(cursor)) == {})
  {
    var t' := t - gone;
    if cursor in gone {
      assert Candidates(t', f, Some(cursor)) == {};
      assert |Listed(t', Candidates(t', f, Some(cursor)))| == 0;
    } else {
      UndisturbedRest(t, t', f, cursor);
    }
  }

  /** A cursor is only ever handed out while rows are left. If its row is deleted before the next page is
      read, that page is the last one and empty, and every remaining row is missed. */
  lemma DeletedCursorLosesRows(t: Table, f: Filter, cursor: Option<Id>, limit: int)
    requires PageOf(t, f, cursor, limit).next.Some?
    ensures var next := PageOf(t, f, cursor, limit).next.value;
      && Candidates(t, f, Some(next)) != {}
      && PageOf(t - {next}, f, Some(next), limit) == Page([], None)
  {
    PageSplits(t, f, cursor, limit);
    var next := PageOf(t, f, cursor, limit).next.value;
    assert |PageOf(t, f, cursor, limit).ids| < |Listed(t, Candidates(t, f, cursor))|;
    LostCursorEndsListing(t - {next}, f, next, limit);
  }

  /** Two rows, one to a page, and the first page's row deleted before the second page is read. */
  lemma RowLostAtCursor(row: Row) returns (t: Table, f: Filter)
    requires row.serviceId != ""
    ensures t == map[0 := row, 1 := row]
    ensures PageOf(t, f, None, 1).next.Some? && |Candidates(t, f, None)| == 2
    ensures PageOf(t - {PageOf(t, f, None, 1).next.value}, f, PageOf(t, f, None, 1).next, 1) == Page([], None)
  {
    t, f := map[0 := row, 1 := row], Filter("", "", "", "", "", "", None, None);
    assert Candidates(t, f, None) == {0, 1};
    DeletedCursorLosesRows(t, f, None, 1);
  }
}
