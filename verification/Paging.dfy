/**
 Paging of lists: the server's skip and take (admin.service.ts, audit.service.ts)
 and the console's page strip and active menu item (TablePagination.tsx,
 Sidebar.tsx).
 */
module Paging {

  // ---- Server paging ----

  /** `findMany({ skip, take })` on the ordered rows. */
  function SkipTake<T>(rows: seq<T>, skip: nat, take: nat): seq<T> {
    if skip >= |rows| then [] else if skip + take >= |rows| then rows[skip..] else rows[skip..skip + take]
  }

  function Page<T>(rows: seq<T>, page: nat, limit: nat): seq<T>
    requires page >= 1
  {
    SkipTake(rows, (page - 1) * limit, limit)
  }

  /** `Math.ceil(total / limit)` */
  function TotalPages(total: nat, limit: nat): nat
    requires limit > 0
  {
    (total + limit - 1) / limit
  }

  /** Pages 1 to n, one after the other. */
  function Pages<T>(rows: seq<T>, limit: nat, n: nat): seq<T> {
    if n == 0 then [] else Pages(rows, limit, n - 1) + Page(rows, n, limit)
  }

  /** The first `n` rows, or all of them. */
  function UpTo<T>(rows: seq<T>, n: nat): seq<T> {
    if n <= |rows| then rows[..n] else rows
  }

  lemma SkipTakeJoins<T>(rows: seq<T>, skip: nat, take: nat)
    ensures UpTo(rows, skip) + SkipTake(rows, skip, take) == UpTo(rows, skip + take)
  {
  }

  lemma OnePageMore(n: nat, limit: nat)
    requires n > 0
    ensures (n - 1) * limit + limit == n * limit
  {
  }

  lemma {:induction false} FirstPages<T>(rows: seq<T>, limit: nat, n: nat)
    ensures Pages(rows, limit, n) == UpTo(rows, n * limit)
  {
    if n > 0 {
      FirstPages(rows, limit, n - 1);
      OnePageMore(n, limit);
      SkipTakeJoins(rows, (n - 1) * limit, limit);
    }
  }

  lemma LastPageBounds(total: nat, limit: nat)
    requires limit > 0
    ensures var n := TotalPages(total, limit);
            total <= n * limit && (n > 0 ==> (n - 1) * limit < total)
  {
    var n := TotalPages(total, limit);
    var rest := (total + limit - 1) % limit;
    assert total + limit - 1 == n * limit + rest;
    assert n > 0 ==> (n - 1) * limit == n * limit - limit;
  }

  lemma MulMonotone(a: nat, b: nat, c: nat)
    requires a <= b
    ensures a * c <= b * c
  {
    assert (b - a) * c >= 0;
  }

  lemma InnerPageFull<T>(rows: seq<T>, limit: nat, page: nat, n: nat)
    requires 1 <= page < n && (n - 1) * limit < |rows|
    ensures |Page(rows, page, limit)| == limit
  {
    MulMonotone(page, n - 1, limit);
    assert page * limit == (page - 1) * limit + limit;
  }

  /** The pages up to the reported total are the whole list, each row once and in order. */
  lemma PagesPartition<T>(rows: seq<T>, limit: nat)
    requires limit > 0
    ensures Pages(rows, limit, TotalPages(|rows|, limit)) == rows
  {
    var n := TotalPages(|rows|, limit);
    LastPageBounds(|rows|, limit);
    FirstPages(rows, limit, n);
    if n * limit == |rows| {
      assert rows[..n * limit] == rows;
    }
  }

  /** Every page but the last is full, and the last is not empty. */
  lemma OnlyLastPageShort<T>(rows: seq<T>, limit: nat, page: nat)
    requires limit > 0 && 1 <= page <= TotalPages(|rows|, limit)
    ensures if page < TotalPages(|rows|, limit) then |Page(rows, page, limit)| == limit
            else Page(rows, page, limit) != []
  {
    LastPageBounds(|rows|, limit);
    if page < TotalPages(|rows|, limit) {
      InnerPageFull(rows, limit, page, TotalPages(|rows|, limit));
    }
  }

  // ---- The page strip ----

  datatype Entry = Number(n: int) | EllipsisStart | EllipsisEnd

  /**
   Every page is shown or lies under an ellipsis: neighbouring numbers are consecutive,
   and an ellipsis stands in a real gap.
   */
  predicate Faithful(strip: seq<Entry>) {
    && (forall i :: 0 <= i < |strip| - 1 && strip[i].Number? && strip[i + 1].Number? ==>
          strip[i + 1].n == strip[i].n + 1)
    && (forall i :: 0 <= i < |strip| && !strip[i].Number? ==>
          0 < i < |strip| - 1 && strip[i - 1].Number? && strip[i + 1].Number? && strip[i - 1].n + 1 < strip[i + 1].n)
  }

  function Numbers(from: int, to: int): seq<Entry> {
    if to < from then [] else seq(to - from + 1, k => Number(from + k))
  }

  function First(currentPage: int): int {
    if currentPage - 1 > 2 then currentPage - 1 else 2
  }

  function Last(totalPages: int, currentPage: int): int {
    if currentPage + 1 < totalPages - 1 then currentPage + 1 else totalPages - 1
  }

  function Head(currentPage: int): seq<Entry> {
    [Number(1)] + if currentPage > 3 then [EllipsisStart] else []
  }

  function Tail(totalPages: int, currentPage: int): seq<Entry> {
    (if currentPage < totalPages - 2 then [EllipsisEnd] else []) + [Number(totalPages)]
  }

  function Strip(totalPages: int, currentPage: int): seq<Entry> {
    if totalPages <= 7 then Numbers(1, totalPages)
    else Head(currentPage) + Numbers(First(currentPage), Last(totalPages, currentPage)) + Tail(totalPages, currentPage)
  }

  /** The strip of more than seven pages, case by case. */
  function LongStrip(t: int, c: int): seq<Entry> {
    if c == 1 then [Number(1), Number(2), EllipsisEnd, Number(t)]
    else if c == 2 then [Number(1), Number(2), Number(3), EllipsisEnd, Number(t)]
    else if c == 3 then [Number(1), Number(2), Number(3), Number(4), EllipsisEnd, Number(t)]
    else if c < t - 2 then [Number(1), EllipsisStart, Number(c - 1), Number(c), Number(c + 1), EllipsisEnd, Number(t)]
    else if c == t - 2 then [Number(1), EllipsisStart, Number(c - 1), Number(c), Number(c + 1), Number(t)]
    else if c == t - 1 then [Number(1), EllipsisStart, Number(c - 1), Number(c), Number(t)]
    else [Number(1), EllipsisStart, Number(c - 1), Number(t)]
  }

  lemma StripIsLong(t: int, c: int)
    requires 1 <= c <= t && t > 7
    ensures Strip(t, c) == LongStrip(t, c)
  {
    var middle := Numbers(First(c), Last(t, c));
    assert c == 1 ==> middle == [Number(2)];
    assert c == 2 ==> middle == [Number(2), Number(3)];
    assert 3 <= c <= t - 2 ==> middle == [Number(c - 1), Number(c), Number(c + 1)];
    assert c == t - 1 ==> middle == [Number(c - 1), Number(c)];
    assert c == t ==> middle == [Number(c - 1)];
  }

  predicate Complete(strip: seq<Entry>, totalPages: int, currentPage: int) {
    && 0 < |strip| <= 7
    && strip[0] == Number(1) && strip[|strip| - 1] == Number(totalPages) && Number(currentPage) in strip
    && (currentPage > 1 ==> Number(currentPage - 1) in strip)
    && (currentPage < totalPages ==> Number(currentPage + 1) in strip)
  }

  lemma LongStripIsFaithful(t: int, c: int)
    requires 1 <= c <= t && t > 7
    ensures Faithful(LongStrip(t, c))
  {
  }

  lemma LongStripIsComplete(t: int, c: int)
    requires 1 <= c <= t && t > 7
    ensures Complete(LongStrip(t, c), t, c)
  {
    var strip := LongStrip(t, c);
    var at := if c <= 3 then c - 1 else 3;
    assert strip[at] == Number(c);
    assert c > 1 ==> strip[at - 1] == Number(c - 1);
    assert c < t ==> strip[at + 1] == Number(c + 1);
  }

  /**
   The strip runs from page 1 to the last, shows the current page, has at most seven
   entries and hides pages only under an ellipsis.
   */
  lemma StripIsFaithful(totalPages: int, currentPage: int)
    requires 1 <= currentPage <= totalPages
    ensures Faithful(Strip(totalPages, currentPage))
    ensures Complete(Strip(totalPages, currentPage), totalPages, currentPage)
  {
    if totalPages <= 7 {
      var strip := Strip(totalPages, currentPage);
      assert strip[currentPage - 1] == Number(currentPage);
      assert currentPage > 1 ==> strip[currentPage - 2] == Number(currentPage - 1);
      assert currentPage < totalPages ==> strip[currentPage] == Number(currentPage + 1);
    } else {
      StripIsLong(totalPages, currentPage);
      LongStripIsFaithful(totalPages, currentPage);
      LongStripIsComplete(totalPages, currentPage);
    }
  }

  /** The pushes and `includes` checks of the component build exactly that strip. */
  method PageStrip(totalPages: int, currentPage: int) returns (pages: seq<Entry>)
    requires 1 <= currentPage <= totalPages
    ensures pages == Strip(totalPages, currentPage)
  {
    pages := [];
    if totalPages <= 7 {
      for i := 1 to totalPages + 1
        invariant pages == Numbers(1, i - 1)
      {
        pages := pages + [Number(i)];
      }
      return;
    }
    pages := [Number(1)];
    if currentPage > 3 {
      pages := pages + [EllipsisStart];
    }
    var start, end := First(currentPage), Last(totalPages, currentPage);
    assert pages == Head(currentPage);
    for i := start to end + 1
      invariant pages == Head(currentPage) + Numbers(start, i - 1)
    {
      assert Number(i) !in Head(currentPage) && Number(i) !in Numbers(start, i - 1);
      if Number(i) !in pages {
        pages := pages + [Number(i)];
      }
    }
    assert Number(totalPages) !in Head(currentPage) && Number(totalPages) !in Numbers(start, end);
    if currentPage < totalPages - 2 {
      pages := pages + [EllipsisEnd];
    }
    if Number(totalPages) !in pages {
      pages := pages + [Number(totalPages)];
    }
  }

  // ---- The active menu item ----

  predicate Under(path: string, href: string) {
    href + "/" <= path
  }

  predicate Active(hrefs: seq<string>, path: string, href: string) {
    || path == href
    || (&& href != "/" && Under(path, href)
        && !exists k :: 0 <= k < |hrefs| && hrefs[k] != href && Under(hrefs[k], href) && hrefs[k] <= path)
  }

  lemma LongerIsUnder(path: string, a: string, b: string)
    requires Under(path, a) && b <= path && |a| < |b|
    ensures Under(b, a)
  {
    assert b[..|a| + 1] == path[..|a| + 1];
  }

  /** For every menu and every path at most one item is active. */
  lemma AtMostOneActive(hrefs: seq<string>, path: string, a: string, b: string)
    requires a in hrefs && b in hrefs && Active(hrefs, path, a) && Active(hrefs, path, b)
    ensures a == b
  {
    assert a <= path && b <= path;
    if |a| < |b| {
      if Under(path, a) {
        LongerIsUnder(path, a, b);
      }
    } else if |b| < |a| {
      if Under(path, b) {
        LongerIsUnder(path, b, a);
      }
    } else {
      assert a == path[..|a|] && b == path[..|b|];
    }
  }

  /**
   Below the root, an item is active exactly when the path is its own, or lies under it
   and no longer item is a prefix of the path.
   */
  lemma ActiveExactly(hrefs: seq<string>, path: string, href: string)
    requires href in hrefs && href != "/"
    ensures Active(hrefs, path, href) <==>
            || path == href
            || (href + "/" <= path && forall other :: other in hrefs && other <= path ==> |other| <= |href|)
  {
    if Under(path, href) {
      forall other | other in hrefs && other <= path && |href| < |other| ensures Under(other, href) {
        LongerIsUnder(path, href, other);
      }
    }
  }

  /** The root item is active on the root path only. */
  lemma RootActive(hrefs: seq<string>, path: string)
    ensures Active(hrefs, path, "/") <==> path == "/"
  {
  }

  /** A longer item that stops inside a path segment hides the shorter one without being active itself. */
  lemma NoneActive()
    ensures var hrefs := ["/a", "/a/b"];
            !Active(hrefs, "/a/bc", "/a") && !Active(hrefs, "/a/bc", "/a/b")
  {
    var hrefs := ["/a", "/a/b"];
    assert "/a/b" <= "/a/bc" && "/a" + "/" <= "/a/b" && hrefs[1] == "/a/b" && hrefs[1] != "/a";
    assert ("/a/b" + "/")[4] == '/' && "/a/bc"[4] == 'c';
  }
}
