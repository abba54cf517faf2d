/**
 Paged listings: how the server cuts an ordered row list into pages, and the
 client loop that fetches every page of it.
 */
module Paging {
  import opened Lists

  /** What an endpoint answers: a bare array, or one page whose item list is null when no row was read. */
  datatype Payload<T> =
    Listing(rows: seq<T>)
  | Page(items: Option<seq<T>>, total: nat, page: nat, pageSize: nat, totalPages: nat)

  datatype PageView<T> = PageView(items: seq<T>, total: nat, page: nat, pageSize: nat, totalPages: nat)

  const MAX_PAGE_SIZE: nat := 10000

  function Min(a: nat, b: nat): nat {
    if a < b then a else b
  }

  function Max(a: nat, b: nat): nat {
    if a < b then b else a
  }

  // ---- the server ----------------------------------------------------------

  /** A missing or zero size becomes the endpoint's default; a large one is capped. */
  function ServerSize(pageSize: nat, fallback: nat): (size: nat)
    requires fallback > 0
    ensures 0 < size <= 10000
    ensures 0 < pageSize <= 10000 ==> size == pageSize
    ensures pageSize == 0 && fallback <= 10000 ==> size == fallback
    ensures pageSize > 10000 ==> size == 10000
  {
    Min(if pageSize == 0 then fallback else pageSize, MAX_PAGE_SIZE)
  }

  /** `LIMIT size OFFSET offset`. */
  function Limit<T>(rows: seq<T>, size: nat, offset: nat): seq<T> {
    rows[Min(offset, |rows|)..Min(offset + size, |rows|)]
  }

  function Offset(page: nat, size: nat): nat
    requires page > 0
  {
    (page - 1) * size
  }

  function Ceiling(total: nat, size: nat): nat
    requires size > 0
  {
    (total + size - 1) / size
  }

  /** A page read from a table. */
  function QueryPage<T>(rows: seq<T>, page: nat, size: nat): Payload<T>
    requires page > 0 && size > 0
  {
    var totalPages := Ceiling(|rows|, size);
    var page' := if page > totalPages && totalPages > 0 then totalPages else page;
    var items := Limit(rows, size, Offset(page', size));
    Page(if items == [] then None else Some(items), |rows|, page', size, totalPages)
  }

  /** A page cut from a list in memory, as `/api/user-total` does it. */
  method SlicePage<T>(rows: seq<T>, page: nat, size: nat) returns (p: Payload<T>)
    requires page > 0 && size > 0
    ensures p == MemoryPage(rows, page, size)
  {
    var total := |rows|;
    var totalPages := (total + size - 1) / size;
    if totalPages == 0 {
      totalPages := 1;
    }
    var at := page;
    if at > totalPages {
      at := totalPages;
    }
    CeilingIs(total, size);
    Times(at - 1, totalPages - 1, size);
    var start := (at - 1) * size;
    var end := start + size;
    if end > total {
      end := total;
    }
    p := Page(Some(rows[start..end]), total, at, size, totalPages);
  }

  function MemoryPage<T>(rows: seq<T>, page: nat, size: nat): Payload<T>
    requires page > 0 && size > 0
  {
    var totalPages := Max(1, Ceiling(|rows|, size));
    Page(Some(Limit(rows, size, Offset(Min(page, totalPages), size))), |rows|, Min(page, totalPages), size, totalPages)
  }

  // ---- the client ----------------------------------------------------------

  function EmptyPaged<T>(pageSize: nat): PageView<T> {
    PageView([], 0, 1, pageSize, 1)
  }

  function NormalizePagedPayload<T>(payload: Payload<T>, fallbackPage: nat, fallbackPageSize: nat): PageView<T> {
    var safePage, safePageSize := Max(1, fallbackPage), Max(1, fallbackPageSize);
    match payload
    case Listing(rows) =>
      var totalPages := Max(1, Ceiling(|rows|, safePageSize));
      var page := Min(safePage, totalPages);
      PageView(Limit(rows, safePageSize, Offset(page, safePageSize)), |rows|, page, safePageSize, totalPages)
    case Page(Some(items), total, page, pageSize, totalPages) =>
      PageView(items, total, Max(1, if page == 0 then safePage else page),
               Max(1, if pageSize == 0 then safePageSize else pageSize), Max(1, totalPages))
    case Page(None, _, _, _, _) => EmptyPaged(safePageSize)
  }

  /** The three kinds of endpoint the client pages through. */
  datatype Endpoint = FromTable(fallback: nat) | FromMemory(fallback: nat) | WholeList

  predicate Usable(e: Endpoint) {
    e.WholeList? || e.fallback > 0
  }

  function Serve<T>(e: Endpoint, rows: seq<T>, page: nat, pageSize: nat): Payload<T>
    requires Usable(e) && page > 0
  {
    match e
    case FromTable(fallback) => QueryPage(rows, page, ServerSize(pageSize, fallback))
    case FromMemory(fallback) => MemoryPage(rows, page, ServerSize(pageSize, fallback))
    case WholeList => Listing(rows)
  }

  /** The page size that really applies. */
  function SizeFor(e: Endpoint, pageSize: nat): (size: nat)
    requires Usable(e)
    ensures size > 0
  {
    if e.WholeList? then Max(1, pageSize) else ServerSize(pageSize, e.fallback)
  }

  lemma {:induction false} Times(a: nat, b: nat, size: nat)
    requires a <= b
    ensures a * size <= b * size
  {
    if a < b {
      Times(a, b - 1, size);
      assert b * size == (b - 1) * size + size;
    }
  }

  /** Ceiling division: the last page starts before the end and reaches it. */
  lemma CeilingIs(total: nat, size: nat)
    requires size > 0
    ensures var n := Ceiling(total, size);
      && (n == 0 <==> total == 0) && total <= n * size && (n > 0 ==> (n - 1) * size < total)
  {
    var n := Ceiling(total, size);
    var r := (total + size - 1) % size;
    assert n * size + r == total + size - 1;
    if n > 0 {
      assert (n - 1) * size == n * size - size;
    }
  }

  /** The items are the rows of page `at`: `size` of them from row (at - 1) * size on, fewer at the end. */
  predicate RowsOfPage<T(==)>(items: seq<T>, rows: seq<T>, at: nat, size: nat)
    requires at > 0
  {
    var start := (at - 1) * size;
    && start + |items| <= |rows| && |items| <= size
    && (|items| < size ==> start + |items| == |rows|)
    && forall i | 0 <= i < |items| :: items[i] == rows[start + i]
  }

  /** The least number of pages that hold all rows. */
  predicate PageCount(n: nat, total: nat, size: nat) {
    total <= n * size && (n > 0 ==> (n - 1) * size < total)
  }

  /**
   A page read from a table tells the number of rows and of pages, and shows the
   asked page, or the last one when it lies past the end; an empty table has no
   page, and answers with the page asked for and no items.
   */
  lemma QueryPageShows<T>(rows: seq<T>, page: nat, size: nat)
    requires page > 0 && size > 0
    ensures var p := QueryPage(rows, page, size);
      && p.Page? && p.total == |rows| && p.pageSize == size && PageCount(p.totalPages, |rows|, size)
      && p.page == (if rows == [] || page <= p.totalPages then page else p.totalPages)
      && (p.items.None? <==> rows == [])
      && (p.items.Some? ==> RowsOfPage(p.items.value, rows, p.page, size))
  {
    CeilingIs(|rows|, size);
    if rows != [] {
      Times(QueryPage(rows, page, size).page - 1, Ceiling(|rows|, size) - 1, size);
    }
  }

  /** A page cut from memory is the same, but there is always a page, if only an empty one. */
  lemma MemoryPageShows<T>(rows: seq<T>, page: nat, size: nat)
    requires page > 0 && size > 0
    ensures var p := MemoryPage(rows, page, size);
      && p.Page? && p.total == |rows| && p.pageSize == size && p.items.Some?
      && (if rows == [] then p.totalPages == 1 else PageCount(p.totalPages, |rows|, size))
      && p.page == (if page <= p.totalPages then page else p.totalPages)
      && RowsOfPage(p.items.value, rows, p.page, size)
  {
    CeilingIs(|rows|, size);
    Times(MemoryPage(rows, page, size).page - 1, MemoryPage(rows, page, size).totalPages - 1, size);
  }

  /** Whatever the endpoint, the client sees page p as rows (p-1)*size up to p*size, and the right number of pages. */
  lemma PageSeen<T>(e: Endpoint, rows: seq<T>, page: nat, pageSize: nat)
    requires Usable(e) && 0 < page <= Max(1, Ceiling(|rows|, SizeFor(e, pageSize)))
    ensures var size := SizeFor(e, pageSize);
      var view := NormalizePagedPayload(Serve(e, rows, page, pageSize), page, pageSize);
      && view.total == |rows| && view.page == page
      && view.totalPages == Max(1, Ceiling(|rows|, size))
      && view.items == Limit(rows, size, Offset(page, size))
  {
    var size := SizeFor(e, pageSize);
    CeilingIs(|rows|, size);
    if |rows| > 0 {
      Times(page - 1, Ceiling(|rows|, size) - 1, size);
      assert Offset(page, size) < |rows|;
    }
  }

  /** The export loop over an unchanging list ends and returns every row exactly once, in order. */
  method FetchAllPagedRows<T>(e: Endpoint, rows: seq<T>, pageSize: nat) returns (items: seq<T>)
    requires Usable(e)
    ensures items == rows
  {
    hide Serve, NormalizePagedPayload, Ceiling, Offset, Limit;
    ghost var size := SizeFor(e, pageSize);
    ghost var last := Max(1, Ceiling(|rows|, size));
    Reached(|rows|, size, last);
    var page, totalPages: nat := 1, 1;
    items := [];
    while page <= totalPages
      invariant 1 <= page <= totalPages + 1
      invariant totalPages == if page == 1 then 1 else last
      invariant items == rows[..Min(Offset(page, size), |rows|)]
      decreases last + 1 - page
    {
      PageSeen(e, rows, page, pageSize);
      var payload := NormalizePagedPayload(Serve(e, rows, page, pageSize), page, pageSize);
      NextPage(rows, page, size);
      items := items + payload.items;
      totalPages := Max(1, payload.totalPages);
      page := page + 1;
    }
    assert rows[..|rows|] == rows;
  }

  lemma NextPage<T>(rows: seq<T>, page: nat, size: nat)
    requires page > 0
    ensures rows[..Min(Offset(page, size), |rows|)] + Limit(rows, size, Offset(page, size))
         == rows[..Min(Offset(page + 1, size), |rows|)]
  {
    assert Offset(page, size) + size == Offset(page + 1, size);
  }

  lemma Reached(total: nat, size: nat, last: nat)
    requires size > 0 && last == Max(1, Ceiling(total, size))
    ensures Offset(1, size) == 0 && Min(Offset(last + 1, size), total) == total
  {
    CeilingIs(total, size);
  }

  /** A page number past the end shows the last page again. */
  lemma PastTheEnd<T>(rows: seq<T>, page: nat, size: nat)
    requires size > 0 && rows != [] && page > Ceiling(|rows|, size)
    ensures QueryPage(rows, page, size) == QueryPage(rows, Ceiling(|rows|, size), size)
    ensures QueryPage(rows, page, size).items.Some?
  {
    CeilingIs(|rows|, size);
  }
}
