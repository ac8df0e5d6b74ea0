// Board-AI history (src/ai/ai.service.ts, listBoardHistory): one page of a history merged
// from two tables, answered by fetching only the first page * limit rows of each.
module BoardHistory {
  import opened Seqs
  import opened Sorting

  datatype UsageLog = UsageLog(
    id: string, tenantId: string, createdAt: int, requestType: string,
    projectId: Option<string>, boardId: Option<string>)

  datatype AiAction = AiAction(
    id: string, tenantId: string, createdAt: int, kind: string,
    entityId: Option<string>, boardId: Option<string>)

  // The two tables, in any order; rows of equal createdAt keep their table order in a query.
  datatype Tables = Tables(usage: seq<UsageLog>, actions: seq<AiAction>)

  datatype Query = Query(
    tenantId: string, projectId: Option<string>, boardId: Option<string>, kind: Option<string>,
    usageSearch: UsageLog -> bool, actionSearch: AiAction -> bool)

  datatype Entry = FromUsage(log: UsageLog) | FromApply(action: AiAction)

  datatype Page = Page(data: seq<Entry>, page: nat, limit: nat, total: nat, totalPages: nat)

  const GENERATION_TYPES := ["board_summary", "board_risk_scan", "board_action_plan"]
  const APPLY_TYPE := "board_actions_apply"

  function EntryTime(): Entry -> int {
    (e: Entry) => if e.FromUsage? then e.log.createdAt else e.action.createdAt
  }

  function UsageTime(): UsageLog -> int {
    (l: UsageLog) => l.createdAt
  }

  function ActionTime(): AiAction -> int {
    (a: AiAction) => a.createdAt
  }

  function UsageEntry(): UsageLog -> Entry {
    l => FromUsage(l)
  }

  function ActionEntry(): AiAction -> Entry {
    a => FromApply(a)
  }

  predicate IncludesGenerations(q: Query) {
    !Given(q.kind) || q.kind.value in GENERATION_TYPES
  }

  predicate IncludesApplyAttempts(q: Query) {
    !Given(q.kind) || q.kind.value == APPLY_TYPE
  }

  function GenerationTypes(q: Query): seq<string> {
    if Given(q.kind) && q.kind.value != APPLY_TYPE then [q.kind.value] else GENERATION_TYPES
  }

  function UsageWhere(q: Query): UsageLog -> bool {
    (l: UsageLog) =>
      && l.tenantId == q.tenantId
      && l.requestType in GenerationTypes(q)
      && (Given(q.projectId) ==> l.projectId == q.projectId)
      && (Given(q.boardId) ==> l.boardId == q.boardId)
      && q.usageSearch(l)
  }

  function ActionWhere(q: Query): AiAction -> bool {
    (a: AiAction) =>
      && a.tenantId == q.tenantId
      && a.kind == "BOARD_APPLY_ACTIONS"
      && (Given(q.projectId) ==> a.entityId == q.projectId)
      && (Given(q.boardId) ==> a.boardId == q.boardId)
      && q.actionSearch(a)
  }

  // findMany with this filter, ordered by createdAt descending.
  function MatchingUsage(t: Tables, q: Query): seq<UsageLog> {
    if IncludesGenerations(q) then SortNewest(Filter(t.usage, UsageWhere(q)), UsageTime()) else []
  }

  function MatchingActions(t: Tables, q: Query): seq<AiAction> {
    if IncludesApplyAttempts(q) then SortNewest(Filter(t.actions, ActionWhere(q)), ActionTime()) else []
  }

  // pages * limit, page by page; RowsThroughIsProduct says so.
  function RowsThrough(pages: nat, limit: nat): nat {
    if pages == 0 then 0 else RowsThrough(pages - 1, limit) + limit
  }

  // Math.ceil(a / b), block by block; CeilDivIsCeiling says so.
  function CeilDiv(a: nat, b: nat): nat
    requires b >= 1
  {
    if a == 0 then 0 else if a <= b then 1 else 1 + CeilDiv(a - b, b)
  }

  // Fetch the first `take` rows of each source, merge them by sorting, cut [from, to) out.
  function FetchWindow(t: Tables, q: Query, take: nat, from: nat, to: nat): seq<Entry>
    requires from <= to
  {
    var usageLogs := Take(MatchingUsage(t, q), take);
    var applyActions := Take(MatchingActions(t, q), take);
    var merged := SortNewest(Map(usageLogs, UsageEntry()) + Map(applyActions, ActionEntry()), EntryTime());
    Slice(merged, from, to)
  }

  // The service method: it fetches page * limit rows of each source. The request DTO bounds
  // page and limit from below by 1.
  function ListBoardHistory(t: Tables, q: Query, page: nat, limit: nat): Page
    requires page >= 1 && limit >= 1
  {
    var historyTake := RowsThrough(page, limit);
    var start := RowsThrough(page - 1, limit);
    var total := |MatchingUsage(t, q)| + |MatchingActions(t, q)|;
    Page(FetchWindow(t, q, historyTake, start, start + limit), page, limit, total, CeilDiv(total, limit))
  }

  // The two sources of the history, as entries.
  function Generations(t: Tables, q: Query): seq<Entry> {
    Map(MatchingUsage(t, q), UsageEntry())
  }

  function ApplyAttempts(t: Tables, q: Query): seq<Entry> {
    Map(MatchingActions(t, q), ActionEntry())
  }

  // The reference: the whole matching history, sorted at once.
  function FullHistory(t: Tables, q: Query): seq<Entry> {
    SortNewest(Generations(t, q) + ApplyAttempts(t, q), EntryTime())
  }

  lemma SourcesAreNewestFirst(t: Tables, q: Query)
    ensures Newest(Generations(t, q), EntryTime()) && Newest(ApplyAttempts(t, q), EntryTime())
  {
    SortNewestIsStable(Filter(t.usage, UsageWhere(q)), UsageTime());
    SortNewestIsStable(Filter(t.actions, ActionWhere(q)), ActionTime());
    var a, b := Generations(t, q), ApplyAttempts(t, q);
    assert forall i :: 0 <= i < |a| ==> EntryTime()(a[i]) == UsageTime()(MatchingUsage(t, q)[i]);
    assert forall i :: 0 <= i < |b| ==> EntryTime()(b[i]) == ActionTime()(MatchingActions(t, q)[i]);
  }

  lemma MapTake<T, U>(s: seq<T>, f: T -> U, n: nat)
    ensures Map(Take(s, n), f) == Take(Map(s, f), n)
  {
  }

  lemma WindowIsExact(t: Tables, q: Query, from: nat, n: nat)
    requires from <= n
    ensures FetchWindow(t, q, n, from, n) == Slice(FullHistory(t, q), from, n)
    ensures |MatchingUsage(t, q)| + |MatchingActions(t, q)| == |FullHistory(t, q)|
  {
    var a, b := Generations(t, q), ApplyAttempts(t, q);
    SourcesAreNewestFirst(t, q);
    MapTake(MatchingUsage(t, q), UsageEntry(), n);
    MapTake(MatchingActions(t, q), ActionEntry(), n);
    PrefixSortIsExact(a, b, EntryTime(), from, n);
    SortOfNewestLists(a, b, EntryTime());
  }

  lemma {:induction false} RowsThroughIsProduct(pages: nat, limit: nat)
    ensures RowsThrough(pages, limit) == pages * limit
  {
    if pages > 0 {
      RowsThroughIsProduct(pages - 1, limit);
      assert (pages - 1) * limit + limit == pages * limit;
    }
  }

  // The fast form is exact: the page cut from the two fetched prefixes is the page cut from
  // the whole history, for every page and limit.
  lemma PageIsExact(t: Tables, q: Query, page: nat, limit: nat)
    requires page >= 1 && limit >= 1
    ensures ListBoardHistory(t, q, page, limit).data
         == Slice(FullHistory(t, q), RowsThrough(page - 1, limit), RowsThrough(page, limit))
    ensures ListBoardHistory(t, q, page, limit).total == |FullHistory(t, q)|
    ensures ListBoardHistory(t, q, page, limit).totalPages == CeilDiv(|FullHistory(t, q)|, limit)
  {
    WindowIsExact(t, q, RowsThrough(page - 1, limit), RowsThrough(page, limit));
  }

  // The entries of pages 1..n of the history, one page after the other.
  function PagesUpTo(t: Tables, q: Query, n: nat, limit: nat): seq<Entry>
    requires limit >= 1
  {
    if n == 0 then [] else PagesUpTo(t, q, n - 1, limit) + ListBoardHistory(t, q, n, limit).data
  }

  lemma {:induction false} PagesArePrefix(t: Tables, q: Query, n: nat, limit: nat)
    requires limit >= 1
    ensures PagesUpTo(t, q, n, limit) == Take(FullHistory(t, q), RowsThrough(n, limit))
  {
    var full := FullHistory(t, q);
    if n == 0 {
      assert Take(full, 0) == [];
    } else {
      PagesArePrefix(t, q, n - 1, limit);
      PageIsExact(t, q, n, limit);
      AppendWindow(full, RowsThrough(n - 1, limit), RowsThrough(n, limit));
    }
  }

  lemma AppendWindow<T>(s: seq<T>, from: nat, to: nat)
    requires from <= to
    ensures Take(s, from) + Slice(s, from, to) == Take(s, to)
  {
  }

  // Walking every page visits the whole history in order, with nothing lost or repeated.
  lemma PagesCoverHistory(t: Tables, q: Query, page: nat, limit: nat, pages: nat)
    requires page >= 1 && limit >= 1 && pages == ListBoardHistory(t, q, page, limit).totalPages
    ensures PagesUpTo(t, q, pages, limit) == FullHistory(t, q)
  {
    PageIsExact(t, q, page, limit);
    EnoughPagesCover(t, q, pages, limit);
  }

  lemma EnoughPagesCover(t: Tables, q: Query, pages: nat, limit: nat)
    requires limit >= 1 && pages >= CeilDiv(|FullHistory(t, q)|, limit)
    ensures PagesUpTo(t, q, pages, limit) == FullHistory(t, q)
  {
    PagesPastEnd(|FullHistory(t, q)|, pages, limit);
    PagesArePrefix(t, q, pages, limit);
    TakeAll(FullHistory(t, q), RowsThrough(pages, limit));
  }

  // The history is newest first and holds exactly the matching rows of both tables.
  lemma HistoryHoldsMatchingRows(t: Tables, q: Query)
    ensures Newest(FullHistory(t, q), EntryTime())
    ensures multiset(FullHistory(t, q)) == multiset(Generations(t, q)) + multiset(ApplyAttempts(t, q))
    ensures IncludesGenerations(q) ==> multiset(MatchingUsage(t, q)) == multiset(Filter(t.usage, UsageWhere(q)))
    ensures IncludesApplyAttempts(q) ==> multiset(MatchingActions(t, q)) == multiset(Filter(t.actions, ActionWhere(q)))
  {
    var both := Generations(t, q) + ApplyAttempts(t, q);
    SortNewestIsStable(both, EntryTime());
    StableSortKeepsElements(both, SortNewest(both, EntryTime()), EntryTime());
    SortKeepsElements(Filter(t.usage, UsageWhere(q)), UsageTime());
    SortKeepsElements(Filter(t.actions, ActionWhere(q)), ActionTime());
  }

  lemma SortKeepsElements<T>(s: seq<T>, time: T -> int)
    ensures multiset(SortNewest(s, time)) == multiset(s)
  {
    SortNewestIsStable(s, time);
    StableSortKeepsElements(s, SortNewest(s, time), time);
  }

  lemma PastLastPageIsEmpty(t: Tables, q: Query, page: nat, limit: nat)
    requires page >= 1 && limit >= 1 && page > ListBoardHistory(t, q, page, limit).totalPages
    ensures ListBoardHistory(t, q, page, limit).data == []
  {
    PageIsExact(t, q, page, limit);
    PagesPastEnd(|FullHistory(t, q)|, page - 1, limit);
    SlicePastEnd(FullHistory(t, q), RowsThrough(page - 1, limit), RowsThrough(page, limit));
  }

  lemma PagesPastEnd(total: nat, page: nat, limit: nat)
    requires limit >= 1 && page >= CeilDiv(total, limit)
    ensures total <= RowsThrough(page, limit) <= RowsThrough(page + 1, limit)
  {
    CeilDivIsCeiling(total, limit);
    RowsThroughMonotone(CeilDiv(total, limit), page, limit);
  }

  lemma TakeAll<T>(s: seq<T>, n: nat)
    requires n >= |s|
    ensures Take(s, n) == s
  {
  }

  lemma SlicePastEnd<T>(s: seq<T>, from: nat, to: nat)
    requires |s| <= from <= to
    ensures Slice(s, from, to) == []
  {
  }

  // CeilDiv is the least number of blocks of b that hold a things.
  lemma {:induction false} CeilDivIsCeiling(a: nat, b: nat)
    requires b >= 1
    ensures RowsThrough(CeilDiv(a, b), b) >= a
    ensures a > 0 ==> CeilDiv(a, b) >= 1 && RowsThrough(CeilDiv(a, b) - 1, b) < a
    ensures a == 0 ==> CeilDiv(a, b) == 0
  {
    if a > b {
      CeilDivIsCeiling(a - b, b);
    }
  }

  lemma {:induction false} RowsThroughMonotone(a: nat, b: nat, limit: nat)
    requires a <= b
    ensures RowsThrough(a, limit) <= RowsThrough(b, limit)
  {
    if a < b {
      RowsThroughMonotone(a, b - 1, limit);
    }
  }

  // ---------- Which rows ----------

  // A generation the query asks for: of the tenant, of a type the history shows and the type that
  // is asked for, of the project and the board that are asked for, and found by the search.
  predicate AsksForUsage(q: Query, l: UsageLog) {
    && l.tenantId == q.tenantId && q.usageSearch(l)
    && (l.requestType == "board_summary" || l.requestType == "board_risk_scan" || l.requestType == "board_action_plan")
    && (Given(q.kind) ==> l.requestType == q.kind.value)
    && (Given(q.projectId) ==> l.projectId == q.projectId) && (Given(q.boardId) ==> l.boardId == q.boardId)
  }

  // An apply attempt the query asks for.
  predicate AsksForAction(q: Query, a: AiAction) {
    && a.tenantId == q.tenantId && q.actionSearch(a) && a.kind == "BOARD_APPLY_ACTIONS"
    && (Given(q.kind) ==> q.kind.value == "board_actions_apply")
    && (Given(q.projectId) ==> a.entityId == q.projectId) && (Given(q.boardId) ==> a.boardId == q.boardId)
  }

  lemma {:induction false} UsageEntries(rows: seq<UsageLog>, l: UsageLog, a: AiAction)
    ensures multiset(Map(rows, UsageEntry()))[FromUsage(l)] == multiset(rows)[l]
    ensures multiset(Map(rows, UsageEntry()))[FromApply(a)] == 0
  {
    if rows != [] {
      UsageEntries(rows[1..], l, a);
      assert rows == [rows[0]] + rows[1..];
      assert Map(rows, UsageEntry()) == [FromUsage(rows[0])] + Map(rows[1..], UsageEntry());
    }
  }

  lemma {:induction false} ActionEntries(rows: seq<AiAction>, l: UsageLog, a: AiAction)
    ensures multiset(Map(rows, ActionEntry()))[FromApply(a)] == multiset(rows)[a]
    ensures multiset(Map(rows, ActionEntry()))[FromUsage(l)] == 0
  {
    if rows != [] {
      ActionEntries(rows[1..], l, a);
      assert rows == [rows[0]] + rows[1..];
      assert Map(rows, ActionEntry()) == [FromApply(rows[0])] + Map(rows[1..], ActionEntry());
    }
  }

  lemma UsageWhereIff(q: Query, l: UsageLog)
    ensures IncludesGenerations(q) && UsageWhere(q)(l) <==> AsksForUsage(q, l)
  {
    assert forall t :: t in GENERATION_TYPES <==>
        t == GENERATION_TYPES[0] || t == GENERATION_TYPES[1] || t == GENERATION_TYPES[2];
  }

  // Each row of either table stands in the history as often as it is stored when the query asks
  // for it, and else not at all.
  lemma RowStandsIffAskedFor(t: Tables, q: Query, l: UsageLog, a: AiAction)
    ensures multiset(FullHistory(t, q))[FromUsage(l)] == if AsksForUsage(q, l) then multiset(t.usage)[l] else 0
    ensures multiset(FullHistory(t, q))[FromApply(a)] == if AsksForAction(q, a) then multiset(t.actions)[a] else 0
  {
    HistoryHoldsMatchingRows(t, q);
    UsageEntries(MatchingUsage(t, q), l, a);
    ActionEntries(MatchingActions(t, q), l, a);
    FilterMultiplicity(t.usage, UsageWhere(q), l);
    FilterMultiplicity(t.actions, ActionWhere(q), a);
    UsageWhereIff(q, l);
  }

  // And the rows stand newest first.
  lemma HistoryIsNewestFirst(t: Tables, q: Query, i: nat, j: nat)
    requires i < j < |FullHistory(t, q)|
    ensures var e, f := FullHistory(t, q)[i], FullHistory(t, q)[j];
            (if e.FromUsage? then e.log.createdAt else e.action.createdAt)
            >= (if f.FromUsage? then f.log.createdAt else f.action.createdAt)
  {
    HistoryHoldsMatchingRows(t, q);
    assert EntryTime()(FullHistory(t, q)[i]) >= EntryTime()(FullHistory(t, q)[j]);
  }
}
