/** Listing tasks page by page: clamped requests, separate queries, one deterministic order. */
module Pagination {
  import opened Wrappers
  import opened TaskModel

  /** A row of the tasks table beside its id, the primary key. */
  datatype Row = Row(task: Task, createdAt: int, updatedAt: int)

  type Table = map<TaskId, Row>

  datatype SortField = ByCreatedAt | ByUpdatedAt | ByTitle | ByStatus | UnknownField

  datatype SortOrder = Asc | Desc | UnknownOrder

  datatype PageRequest = PageRequest(limit: int, offset: int)

  datatype TaskFilter = TaskFilter(status: Option<Status>, sort: SortField, order: SortOrder, page: PageRequest)

  datatype Page = Page(items: seq<(TaskId, Task)>, total: nat, limit: int, offset: int)

  /** The database's collation: where it sorts a text. Different texts may sort alike. */
  type Collation = string -> int

  // ------------------------------------------------------------ clamping

  function ClampPage(page: PageRequest, defaultSize: int, maxSize: int): PageRequest {
    var limit := if page.limit <= 0 then defaultSize else page.limit;
    PageRequest(if limit > maxSize then maxSize else limit, if page.offset < 0 then 0 else page.offset)
  }

  /** With a valid configuration every clamped request is one the database accepts: the default limit where
      none is asked for, the largest where too much is, and no offset below zero; otherwise it is the request. */
  lemma ClampedPage(page: PageRequest, defaultSize: int, maxSize: int)
    requires 1 <= defaultSize <= maxSize
    ensures var r := ClampPage(page, defaultSize, maxSize);
            && 1 <= r.limit <= maxSize && 0 <= r.offset && ClampPage(r, defaultSize, maxSize) == r
            && (page.limit <= 0 ==> r.limit == defaultSize)
            && (page.limit > maxSize ==> r.limit == maxSize)
            && (1 <= page.limit <= maxSize ==> r.limit == page.limit)
            && (page.offset < 0 ==> r.offset == 0)
            && (page.offset >= 0 ==> r.offset == page.offset)
  {
  }

  // ------------------------------------------------------------ the order

  function StatusText(status: Status): string {
    match status
    case Created => "created"
    case InProgress => "in_progress"
    case Completed => "completed"
    case Other(text) => text
  }

  /** An ORDER BY clause. */
  datatype Ordering = Ordering(sort: SortField, order: SortOrder, collation: Collation)

  function OrderClause(filter: TaskFilter, collation: Collation): Ordering {
    Ordering(filter.sort, filter.order, collation)
  }

  /** The first column of the clause. */
  function SortKey(row: Row, o: Ordering): int {
    match o.sort
    case ByUpdatedAt => row.updatedAt
    case ByTitle => o.collation(row.task.title)
    case ByStatus => o.collation(StatusText(row.task.status))
    case _ => row.createdAt
  }

  /** Ascending only when asked for; the id breaks ties in the same direction. */
  predicate Precedes(table: Table, o: Ordering, i: TaskId, j: TaskId)
    requires i in table && j in table
  {
    var a, b := SortKey(table[i], o), SortKey(table[j], o);
    if o.order == Asc then a < b || (a == b && i < j) else a > b || (a == b && i > j)
  }

  /** The WHERE clause. */
  function Matching(table: Table, creator: UserId, status: Option<Status>): (ids: set<TaskId>)
    ensures ids <= table.Keys
  {
    set i | i in table && table[i].task.creator == creator && (status.Some? ==> table[i].task.status == status.value)
  }

  /** `ids` in the order of the clause: what the database may cut a page from. */
  ghost predicate Arranged(table: Table, o: Ordering, ids: set<TaskId>, s: seq<TaskId>)
    requires ids <= table.Keys
  {
    && (forall i :: i in ids <==> i in s)
    && (forall k :: 0 <= k < |s| ==> s[k] in ids)
    && (forall k, m :: 0 <= k < m < |s| ==> s[k] != s[m] && !Precedes(table, o, s[m], s[k]))
  }

  lemma {:induction false} ArrangedOnce(table: Table, o: Ordering, ids: set<TaskId>, s: seq<TaskId>, t: seq<TaskId>)
    requires ids <= table.Keys
    requires Arranged(table, o, ids, s) && Arranged(table, o, ids, t)
    ensures s == t
    decreases |s|
  {
    if s != [] {
      assert s[0] in ids;
      assert t != [];
      var a :| 0 <= a < |t| && t[a] == s[0];
      assert t[0] in ids;
      var b :| 0 <= b < |s| && s[b] == t[0];
      assert s[0] == t[0];
      Rest(table, o, ids, s);
      Rest(table, o, ids, t);
      ArrangedOnce(table, o, ids - {s[0]}, s[1..], t[1..]);
    }
  }

  lemma Rest(table: Table, o: Ordering, ids: set<TaskId>, s: seq<TaskId>)
    requires ids <= table.Keys && s != [] && Arranged(table, o, ids, s)
    ensures Arranged(table, o, ids - {s[0]}, s[1..])
  {
    forall i ensures i in ids - {s[0]} <==> i in s[1..] {
      if i in ids - {s[0]} {
        var k :| 0 <= k < |s| && s[k] == i;
        assert s[1..][k - 1] == i;
      }
      if i in s[1..] {
        var k :| 0 <= k < |s| - 1 && s[1..][k] == i;
        assert s[k + 1] == i;
      }
    }
  }

  /** `a` before `b` by a number, in the direction asked for, and by id where the numbers are equal. */
  predicate Before(order: SortOrder, a: int, i: TaskId, b: int, j: TaskId) {
    match order
    case Asc => a < b || (a == b && i < j)
    case Desc => a > b || (a == b && i > j)
    case UnknownOrder => a > b || (a == b && i > j)
  }

  /** The text the status column holds. */
  predicate Spells(status: Status, text: string) {
    || (status == Created && text == "created") || (status == InProgress && text == "in_progress")
    || (status == Completed && text == "completed") || status == Other(text)
  }

  /** The order a listing promises, column by column: by creation unless another column is asked for. */
  ghost predicate InOrder(o: Ordering, a: Row, i: TaskId, b: Row, j: TaskId) {
    && (o.sort == ByUpdatedAt ==> Before(o.order, a.updatedAt, i, b.updatedAt, j))
    && (o.sort == ByTitle ==> Before(o.order, o.collation(a.task.title), i, o.collation(b.task.title), j))
    && (o.sort == ByStatus ==>
          forall x, y :: Spells(a.task.status, x) && Spells(b.task.status, y) ==>
            Before(o.order, o.collation(x), i, o.collation(y), j))
    && (o.sort == ByCreatedAt || o.sort == UnknownField ==> Before(o.order, a.createdAt, i, b.createdAt, j))
  }

  /** An arrangement lists its rows in that order. */
  lemma ListOrder(table: Table, o: Ordering, ids: set<TaskId>, s: seq<TaskId>, k: nat, m: nat)
    requires ids <= table.Keys && Arranged(table, o, ids, s) && k < m < |s|
    ensures s[k] in table && s[m] in table && InOrder(o, table[s[k]], s[k], table[s[m]], s[m])
  {
    assert s[k] in ids && s[m] in ids;
    assert !Precedes(table, o, s[m], s[k]);
  }

  lemma {:induction false} Least(table: Table, o: Ordering, ids: set<TaskId>) returns (i: TaskId)
    requires ids <= table.Keys && ids != {}
    ensures i in ids && forall j :: j in ids ==> !Precedes(table, o, j, i)
    decreases |ids|
  {
    i :| i in ids;
    if ids != {i} {
      assert ids - {i} != {};
      var j := Least(table, o, ids - {i});
      forall k | k in ids ensures !Precedes(table, o, k, if Precedes(table, o, j, i) then j else i) {
        assert k == i || !Precedes(table, o, k, j);
      }
      if Precedes(table, o, j, i) { i := j; }
    }
  }

  lemma {:induction false} ArrangedSize(table: Table, o: Ordering, ids: set<TaskId>, s: seq<TaskId>)
    requires ids <= table.Keys && Arranged(table, o, ids, s)
    ensures |s| == |ids|
    decreases |s|
  {
    if s != [] {
      Rest(table, o, ids, s);
      assert s[0] in ids && ids == (ids - {s[0]}) + {s[0]};
      ArrangedSize(table, o, ids - {s[0]}, s[1..]);
    } else {
      assert forall i :: i in ids ==> i in s;
      assert ids == {};
    }
  }

  // ------------------------------------------------------------ the queries

  function Min(a: int, b: int): int {
    if a < b then a else b
  }

  /** LIMIT and OFFSET. */
  function Window<T>(s: seq<T>, limit: nat, offset: nat): seq<T> {
    s[Min(offset, |s|)..Min(offset + limit, |s|)]
  }

  function Rows(table: Table, s: seq<TaskId>): (rows: seq<(TaskId, Task)>)
    requires forall k :: 0 <= k < |s| ==> s[k] in table
    ensures |rows| == |s|
  {
    seq(|s|, k requires 0 <= k < |s| => (s[k], table[s[k]].task))
  }

  /** The database sorts: each query may do so in its own way. */
  method Select(table: Table, o: Ordering, ids: set<TaskId>) returns (s: seq<TaskId>)
    requires ids <= table.Keys
    ensures Arranged(table, o, ids, s)
  {
    s := [];
    var left := ids;
    while left != {}
      invariant left <= ids && Arranged(table, o, ids - left, s)
      invariant forall k, j :: 0 <= k < |s| && j in left ==> !Precedes(table, o, j, s[k])
      decreases |left|
    {
      ghost var least := Least(table, o, left);
      var i :| i in left && forall j :: j in left ==> !Precedes(table, o, j, i);
      ArrangedThen(table, o, ids, left, s, i);
      s := s + [i];
      left := left - {i};
    }
    assert ids - left == ids;
  }

  lemma ArrangedThen(table: Table, o: Ordering, ids: set<TaskId>, left: set<TaskId>, s: seq<TaskId>, i: TaskId)
    requires left <= ids <= table.Keys && Arranged(table, o, ids - left, s) && i in left
    requires forall k :: 0 <= k < |s| ==> !Precedes(table, o, i, s[k])
    ensures Arranged(table, o, ids - (left - {i}), s + [i])
  {
    var done, t := ids - (left - {i}), s + [i];
    forall j ensures j in done <==> j in t {
      assert j in done <==> j in ids - left || j == i;
    }
  }

  /** The rows a listing is about: the creator's, with the status asked for, if any. */
  ghost function Listed(table: Table, creator: UserId, status: Option<Status>): set<TaskId> {
    set i | i in table && table[i].task.creator == creator && (status == None || status == Some(table[i].task.status))
  }

  lemma MatchingIsListed(table: Table, creator: UserId, status: Option<Status>)
    ensures Matching(table, creator, status) == Listed(table, creator, status)
  {
  }

  /** One page as the two queries of ListByCreator may answer it on this table. */
  ghost predicate IsPage(table: Table, creator: UserId, filter: TaskFilter, collation: Collation, page: Page) {
    && filter.page.limit >= 0 && filter.page.offset >= 0
    && page.limit == filter.page.limit && page.offset == filter.page.offset
    && page.total == |Listed(table, creator, filter.status)|
    && exists s :: Arranged(table, OrderClause(filter, collation), Matching(table, creator, filter.status), s)
                   && page.items == Rows(table, Window(s, page.limit, page.offset))
  }

  /** ListByCreator; the database refuses a negative limit or offset. */
  method ListByCreator(table: Table, creator: UserId, filter: TaskFilter, collation: Collation)
    returns (r: Option<Page>)
    ensures r.Some? <==> filter.page.limit >= 0 && filter.page.offset >= 0
    ensures r.Some? ==> IsPage(table, creator, filter, collation, r.value)
    ensures r.Some? ==>
              r.value.total == |set i | i in table && table[i].task.creator == creator
                                        && (filter.status.Some? ==> table[i].task.status == filter.status.value)|
  {
    MatchingIsListed(table, creator, filter.status);
    assert Matching(table, creator, filter.status)
           == set i | i in table && table[i].task.creator == creator
                      && (filter.status.Some? ==> table[i].task.status == filter.status.value);
    var total := |Matching(table, creator, filter.status)|;
    if filter.page.limit < 0 || filter.page.offset < 0 { return None; }
    var s := Select(table, OrderClause(filter, collation), Matching(table, creator, filter.status));
    var models := Window(s, filter.page.limit, filter.page.offset);
    var result := [];
    for n := 0 to |models|
      invariant result == Rows(table, models)[..n]
    {
      RowsNext(table, models, n);
      result := result + [(models[n], table[models[n]].task)];
    }
    r := Some(Page(result, total, filter.page.limit, filter.page.offset));
  }

  lemma RowsNext(table: Table, s: seq<TaskId>, n: nat)
    requires (forall k :: 0 <= k < |s| ==> s[k] in table) && n < |s|
    ensures Rows(table, s)[..n + 1] == Rows(table, s)[..n] + [(s[n], table[s[n]].task)]
  {
  }

  datatype ListResult = PageOf(page: Page) | Refused(owner: OwnerResult) | UnknownStatus

  /** TaskUseCase.List: with a valid configuration it always lists the actor's own tasks. */
  method List(table: Table, actor: Claims, filter: TaskFilter, collation: Collation, defaultSize: int, maxSize: int)
    returns (r: ListResult)
    requires 1 <= defaultSize <= maxSize
    ensures r.Refused? <==> actor.userId <= 0
    ensures r.Refused? ==> r.owner == if actor.userId == 0 && actor.isAdmin then Forbidden else Unauthorized
    ensures r.UnknownStatus? <==> actor.userId > 0 && filter.status.Some? && filter.status.value.Other?
    ensures r.PageOf? ==>
              IsPage(table, actor.userId, filter.(page := PageRequest(r.page.limit, r.page.offset)), collation, r.page)
    ensures r.PageOf? ==> |r.page.items| <= r.page.limit && 1 <= r.page.limit <= maxSize
    ensures r.PageOf? && 1 <= filter.page.limit <= maxSize ==> r.page.limit == filter.page.limit
    ensures r.PageOf? && filter.page.limit <= 0 ==> r.page.limit == defaultSize
    ensures r.PageOf? && filter.page.limit > maxSize ==> r.page.limit == maxSize
    ensures r.PageOf? ==> r.page.offset == if filter.page.offset < 0 then 0 else filter.page.offset
  {
    if !TaskOwner(actor).Owner? { return Refused(TaskOwner(actor)); }
    if filter.status.Some? && !IsValidStatus(filter.status.value) { return UnknownStatus; }
    ClampedPage(filter.page, defaultSize, maxSize);
    var clamped := filter.(page := ClampPage(filter.page, defaultSize, maxSize));
    var page := ListByCreator(table, TaskOwner(actor).id, clamped, collation);
    assert clamped == filter.(page := PageRequest(page.value.limit, page.value.offset));
    r := PageOf(page.value);
  }

  // ------------------------------------------------------------ tiling

  function Items(pages: seq<Page>): seq<(TaskId, Task)> {
    if pages == [] then [] else Items(pages[..|pages| - 1]) + pages[|pages| - 1].items
  }

  /** Pages of one listing at the offsets 0, limit, 2 * limit and so on. */
  ghost predicate Consecutive(table: Table, creator: UserId, filter: TaskFilter, collation: Collation, limit: nat,
                              pages: seq<Page>) {
    forall k :: 0 <= k < |pages| ==>
      IsPage(table, creator, filter.(page := PageRequest(limit, k * limit)), collation, pages[k])
  }

  lemma PageIsSlice(table: Table, creator: UserId, filter: TaskFilter, collation: Collation, page: Page, s: seq<TaskId>)
    requires IsPage(table, creator, filter, collation, page)
    requires Arranged(table, OrderClause(filter, collation), Matching(table, creator, filter.status), s)
    ensures page.items == Window(Rows(table, s), page.limit, page.offset) && page.total == |s|
  {
    var o, ids := OrderClause(filter, collation), Matching(table, creator, filter.status);
    var t :| Arranged(table, o, ids, t) && page.items == Rows(table, Window(t, page.limit, page.offset));
    ArrangedOnce(table, o, ids, s, t);
    ArrangedSize(table, o, ids, s);
    WindowOfRows(table, s, page.limit, page.offset);
    MatchingIsListed(table, creator, filter.status);
  }

  lemma WindowOfRows(table: Table, s: seq<TaskId>, limit: nat, offset: nat)
    requires forall k :: 0 <= k < |s| ==> s[k] in table
    ensures Rows(table, Window(s, limit, offset)) == Window(Rows(table, s), limit, offset)
  {
  }

  /** However each query sorts, consecutive pages tile the one list: their items follow each other without
      gap or overlap up to where the pages reach, and every page reports the length of the list. */
  lemma {:induction false} PagesTile(table: Table, creator: UserId, filter: TaskFilter, collation: Collation,
                                     limit: nat, pages: seq<Page>, s: seq<TaskId>)
    requires Consecutive(table, creator, filter, collation, limit, pages)
    requires Arranged(table, OrderClause(filter, collation), Matching(table, creator, filter.status), s)
    ensures Items(pages) == Rows(table, s)[..Min(|pages| * limit, |s|)]
    ensures forall k :: 0 <= k < |pages| ==> pages[k].total == |s|
  {
    if pages != [] {
      var n := |pages| - 1;
      PagesTile(table, creator, filter, collation, limit, pages[..n], s);
      LastPage(table, creator, filter, collation, limit, pages, s);
      TileNext(pages, n * limit, limit, Rows(table, s));
      NextOffset(n, limit);
    }
  }

  lemma NextOffset(n: nat, limit: nat)
    ensures (n + 1) * limit == n * limit + limit
  {
  }

  lemma TileNext(pages: seq<Page>, from: nat, limit: nat, rows: seq<(TaskId, Task)>)
    requires pages != []
    requires Items(pages[..|pages| - 1]) == rows[..Min(from, |rows|)]
    requires pages[|pages| - 1].items == Window(rows, limit, from)
    ensures Items(pages) == rows[..Min(from + limit, |rows|)]
  {
    SliceThen(rows, from, limit);
  }

  lemma LastPage(table: Table, creator: UserId, filter: TaskFilter, collation: Collation, limit: nat,
                 pages: seq<Page>, s: seq<TaskId>)
    requires Consecutive(table, creator, filter, collation, limit, pages) && pages != []
    requires Arranged(table, OrderClause(filter, collation), Matching(table, creator, filter.status), s)
    ensures var last := pages[|pages| - 1];
            last.items == Window(Rows(table, s), limit, (|pages| - 1) * limit) && last.total == |s|
  {
    var n := |pages| - 1;
    PageIsSlice(table, creator, filter.(page := PageRequest(limit, n * limit)), collation, pages[n], s);
  }

  lemma SliceThen<T>(s: seq<T>, from: nat, limit: nat)
    ensures s[..Min(from, |s|)] + Window(s, limit, from) == s[..Min(from + limit, |s|)]
  {
  }

  /** Enough pages show every task of the creator with the status asked for exactly once, nothing else, and in
      the order the listing promises. */
  lemma PagesShowEverything(table: Table, creator: UserId, filter: TaskFilter, collation: Collation, limit: nat,
                            pages: seq<Page>)
    requires Consecutive(table, creator, filter, collation, limit, pages)
    requires |pages| * limit >= |Listed(table, creator, filter.status)|
    ensures |Items(pages)| == |Listed(table, creator, filter.status)|
    ensures forall i :: i in table && table[i].task.creator == creator
                        && (filter.status.Some? ==> table[i].task.status == filter.status.value) ==>
              (i, table[i].task) in Items(pages)
    ensures forall item :: item in Items(pages) ==>
              item.0 in table && item.1 == table[item.0].task && item.1.creator == creator
              && (filter.status.Some? ==> item.1.status == filter.status.value)
    ensures forall a, b :: 0 <= a < b < |Items(pages)| ==>
              var i, j := Items(pages)[a].0, Items(pages)[b].0;
              i in table && j in table && i != j && InOrder(OrderClause(filter, collation), table[i], i, table[j], j)
  {
    MatchingIsListed(table, creator, filter.status);
    var o, ids := OrderClause(filter, collation), Matching(table, creator, filter.status);
    var s := Sorted(table, o, ids);
    PagesTile(table, creator, filter, collation, limit, pages, s);
    ArrangedSize(table, o, ids, s);
    assert Items(pages) == Rows(table, s);
    forall i | i in ids ensures (i, table[i].task) in Items(pages) {
      var k :| 0 <= k < |s| && s[k] == i;
      assert Rows(table, s)[k] == (i, table[i].task);
    }
    forall a, b | 0 <= a < b < |s| ensures InOrder(o, table[s[a]], s[a], table[s[b]], s[b]) {
      ListOrder(table, o, ids, s, a, b);
    }
  }

  lemma {:induction false} Sorted(table: Table, o: Ordering, ids: set<TaskId>) returns (s: seq<TaskId>)
    requires ids <= table.Keys
    ensures Arranged(table, o, ids, s)
    decreases |ids|
  {
    if ids == {} {
      s := [];
    } else {
      var i := Least(table, o, ids);
      var rest := Sorted(table, o, ids - {i});
      s := [i] + rest;
    }
  }
}
