/** The cursor walk over fund-journal pages. */
module FundJournal {
  import opened Prelude

  const DEFAULT_PAGE_SIZE := 50
  const MAX_PAGE_SIZE := 99
  const MAX_PAGES := 1000

  function ClampPageSize(n: int): (size: nat)
    ensures 1 <= size <= MAX_PAGE_SIZE
    ensures 1 <= n <= MAX_PAGE_SIZE ==> size == n
    ensures n <= 0 ==> size == 50
    ensures n > MAX_PAGE_SIZE ==> size == 99
  {
    if n <= 0 then DEFAULT_PAGE_SIZE else if n > MAX_PAGE_SIZE then MAX_PAGE_SIZE else n
  }

  datatype Page<Row> = Page(rows: seq<Row>, next: string)

  datatype Reply<Row> = Fetched(page: Page<Row>) | Failed(error: string)

  /** The Gateway and the context as the walk meets them: reply number k to a cursor, and the
      context before it. */
  datatype Gateway<!Row> = Gateway(fetch: (nat, nat, string) -> Reply<Row>, context: nat -> Option<string>)

  function Rows<Row>(pages: seq<Page<Row>>): seq<Row> {
    if pages == [] then [] else Rows(pages[..|pages| - 1]) + pages[|pages| - 1].rows
  }

  /** The cursor the walk holds after `pages`. */
  function CursorAfter<Row>(cursor: string, pages: seq<Page<Row>>): string {
    if pages == [] then cursor else pages[|pages| - 1].next
  }

  predicate LastPage<Row>(cursor: string, p: Page<Row>) {
    p.rows == [] || p.next == "" || p.next == cursor
  }

  /** Page k is the reply to fetch k, asked with the cursor of the page before, and unless it is
      the final one it does not end the walk. */
  ghost predicate PageOk<Row>(g: Gateway<Row>, size: nat, cursor: string, pages: seq<Page<Row>>, k: nat)
    requires k < |pages|
  {
    && g.context(k).None?
    && g.fetch(k, size, CursorAfter(cursor, pages[..k])) == Fetched(pages[k])
    && (k < |pages| - 1 ==> !LastPage(CursorAfter(cursor, pages[..k]), pages[k]))
  }

  ghost predicate Walked<Row>(g: Gateway<Row>, size: nat, cursor: string, pages: seq<Page<Row>>) {
    forall k {:trigger PageOk(g, size, cursor, pages, k)} :: 0 <= k < |pages| ==> PageOk(g, size, cursor, pages, k)
  }

  /** How a walk over `pages` ends: with the error met after the last of them, at the page that
      says so, or at the page limit. */
  ghost predicate Ends<Row(!new)>(
    g: Gateway<Row>, size: nat, cursor: string, pages: seq<Page<Row>>, err: Option<string>)
  {
    var n := |pages|;
    if n > 0 && LastPage(CursorAfter(cursor, pages[..n - 1]), pages[n - 1]) then err.None?
    else if n == MAX_PAGES then err.None?
    else
      && err.Some?
      && (if g.context(n).Some? then err == g.context(n)
          else g.fetch(n, size, CursorAfter(cursor, pages)) == Failed(err.value))
  }

  /** A page without rows, without a cursor, or with the cursor it was asked for ends the walk, and
      short of the page limit nothing else does but an error. */
  ghost predicate Stops<Row(!new)>(cursor: string, pages: seq<Page<Row>>, err: Option<string>) {
    && (forall k :: 0 <= k < |pages| ==>
          (|| pages[k].rows == [] || pages[k].next == ""
           || pages[k].next == if k == 0 then cursor else pages[k - 1].next) ==> k == |pages| - 1 && err.None?)
    && (err.None? && |pages| < MAX_PAGES ==>
          && pages != []
          && var k := |pages| - 1;
             || pages[k].rows == [] || pages[k].next == ""
             || pages[k].next == if k == 0 then cursor else pages[k - 1].next)
  }

  lemma WalkStops<Row(!new)>(
    g: Gateway<Row>, size: nat, cursor: string, pages: seq<Page<Row>>, err: Option<string>)
    requires Walked(g, size, cursor, pages) && |pages| <= MAX_PAGES && Ends(g, size, cursor, pages, err)
    ensures Stops(cursor, pages, err)
  {
    forall k | 0 <= k < |pages|
      ensures CursorAfter(cursor, pages[..k]) == if k == 0 then cursor else pages[k - 1].next
      ensures LastPage(CursorAfter(cursor, pages[..k]), pages[k]) ==> k == |pages| - 1
    {
      assert PageOk(g, size, cursor, pages, k);
    }
  }

  lemma WalkedExtends<Row>(g: Gateway<Row>, size: nat, cursor: string, pages: seq<Page<Row>>, page: Page<Row>)
    requires Walked(g, size, cursor, pages) && g.context(|pages|).None?
    requires g.fetch(|pages|, size, CursorAfter(cursor, pages)) == Fetched(page)
    requires pages != [] ==> !LastPage(CursorAfter(cursor, pages[..|pages| - 1]), pages[|pages| - 1])
    ensures Walked(g, size, cursor, pages + [page])
    ensures (pages + [page])[..|pages|] == pages && Rows(pages + [page]) == Rows(pages) + page.rows
  {
    var more := pages + [page];
    assert more[..|pages|] == pages;
    forall k | 0 <= k < |more| ensures PageOk(g, size, cursor, more, k) {
      assert k < |pages| ==> PageOk(g, size, cursor, pages, k) && more[..k] == pages[..k];
    }
  }

  /** The walk returns, in order and once each, exactly the rows of the pages it fetched, also when
      it ends in an error; it makes at most MAX_PAGES fetches. */
  method Walk<Row(!new)>(g: Gateway<Row>, pageSize: int, cursor: string)
    returns (all: seq<Row>, err: Option<string>)
    ensures exists pages ::
              && Walked(g, ClampPageSize(pageSize), cursor, pages) && |pages| <= MAX_PAGES
              && Ends(g, ClampPageSize(pageSize), cursor, pages, err) && all == Rows(pages)
              && Stops(cursor, pages, err)
  {
    var size := ClampPageSize(pageSize);
    var at := cursor;
    ghost var pages: seq<Page<Row>> := [];
    all := [];
    for page := 0 to MAX_PAGES
      invariant |pages| == page && all == Rows(pages) && at == CursorAfter(cursor, pages)
      invariant Walked(g, size, cursor, pages)
      invariant page > 0 ==> !LastPage(CursorAfter(cursor, pages[..page - 1]), pages[page - 1])
    {
      if g.context(page).Some? {
        WalkStops(g, size, cursor, pages, g.context(page));
        return all, g.context(page);
      }
      var reply := g.fetch(page, size, at);
      if reply.Failed? {
        WalkStops(g, size, cursor, pages, Some(reply.error));
        return all, Some(reply.error);
      }
      ghost var before := pages;
      pages := pages + [reply.page];
      WalkedExtends(g, size, cursor, before, reply.page);
      all := all + reply.page.rows;
      if |reply.page.rows| == 0 || reply.page.next == "" || reply.page.next == at {
        WalkStops(g, size, cursor, pages, None);
        return all, None;
      }
      at := reply.page.next;
    }
    err := None;
    WalkStops(g, size, cursor, pages, err);
  }

  // ---- against a Gateway that keeps its word ----

  /** The Gateway serves `journal` in slices: `marks(i)` is the cursor of the row at i - 1, marks
      are told apart from each other, and the last page is short or empty. */
  ghost predicate Serves<Row(!new)>(
    g: Gateway<Row>, size: nat, start: string, journal: seq<Row>, marks: nat -> string)
  {
    && marks(0) == start
    && (forall i, j :: 0 <= i < j <= |journal| ==> marks(i) != marks(j))
    && (forall i :: 0 < i <= |journal| ==> marks(i) != "")
    && (forall k: nat, i: nat {:trigger g.fetch(k, size, marks(i))} :: i <= |journal| ==>
          g.fetch(k, size, marks(i)) == Fetched(Slice(journal, size, i, marks)))
    && (forall k: nat {:trigger g.context(k)} :: g.context(k).None?)
  }

  function Min(a: nat, b: nat): nat {
    if a < b then a else b
  }

  /** Up to `size` rows from `i` on, with the cursor of the last one; no cursor when there are none. */
  function Slice<Row>(journal: seq<Row>, size: nat, i: nat, marks: nat -> string): Page<Row>
    requires i <= |journal|
  {
    var end := Min(i + size, |journal|);
    Page(journal[i..end], if end == i then "" else marks(end))
  }

  /** One honest page: it continues the journal where the walk stands, and it ends the walk exactly
      when nothing was left. */
  lemma OnePage<Row(!new)>(
    g: Gateway<Row>, size: nat, start: string, journal: seq<Row>, marks: nat -> string, k: nat, i: nat)
    requires size > 0 && Serves(g, size, start, journal, marks) && i <= |journal|
    ensures var p, end := Slice(journal, size, i, marks), Min(i + size, |journal|);
            && g.fetch(k, size, marks(i)) == Fetched(p)
            && (LastPage(marks(i), p) <==> i == |journal|)
            && journal[..i] + p.rows == journal[..end]
            && (i < |journal| ==> p.next == marks(end))
  {
    var end := Min(i + size, |journal|);
    assert journal[..i] + journal[i..end] == journal[..end];
    assert i < |journal| ==> marks(i) != marks(end);
  }

  /** After n pages the walk stands at row n * size, or at the end. */
  lemma {:induction false} WalkStandsAt<Row(!new)>(
    g: Gateway<Row>, size: nat, start: string, journal: seq<Row>, marks: nat -> string, pages: seq<Page<Row>>)
    requires size > 0 && Serves(g, size, start, journal, marks) && Walked(g, size, start, pages)
    ensures Rows(pages) == journal[..Min(|pages| * size, |journal|)]
    ensures pages != [] ==>
              && (LastPage(CursorAfter(start, pages[..|pages| - 1]), pages[|pages| - 1]) <==>
                  |journal| <= (|pages| - 1) * size)
              && (|journal| > (|pages| - 1) * size ==>
                  CursorAfter(start, pages) == marks(Min(|pages| * size, |journal|)))
  {
    if pages != [] {
      var n := |pages| - 1;
      var init := pages[..n];
      WalkedPrefix(g, size, start, pages);
      WalkStandsAt(g, size, start, journal, marks, init);
      var i := Min(n * size, |journal|);
      assert (n + 1) * size == n * size + size;
      assert CursorAfter(start, init) == marks(i) by {
        if n > 0 {
          assert n * size == (n - 1) * size + size;
          assert PageOk(g, size, start, pages, n - 1) && init[..n - 1] == pages[..n - 1];
        }
      }
      assert PageOk(g, size, start, pages, n);
      OnePage(g, size, start, journal, marks, n, i);
      hide Serves, Walked, LastPage, Slice;
    }
  }

  lemma WalkedPrefix<Row>(g: Gateway<Row>, size: nat, start: string, pages: seq<Page<Row>>)
    requires pages != [] && Walked(g, size, start, pages)
    ensures Walked(g, size, start, pages[..|pages| - 1])
  {
    var init := pages[..|pages| - 1];
    forall k | 0 <= k < |init| ensures PageOk(g, size, start, init, k) {
      assert PageOk(g, size, start, pages, k) && init[..k] == pages[..k];
    }
  }

  /** Against such a Gateway every walk ends without error and returns the journal from the start
      cursor on, whole and in order, up to MAX_PAGES pages of rows. */
  lemma HonestWalkIsComplete<Row(!new)>(
    g: Gateway<Row>, pageSize: int, start: string, journal: seq<Row>, marks: nat -> string,
    pages: seq<Page<Row>>, err: Option<string>)
    requires Serves(g, ClampPageSize(pageSize), start, journal, marks)
    requires |pages| <= MAX_PAGES && Walked(g, ClampPageSize(pageSize), start, pages)
    requires Ends(g, ClampPageSize(pageSize), start, pages, err)
    ensures err.None?
    ensures Rows(pages) == journal[..Min(MAX_PAGES * ClampPageSize(pageSize), |journal|)]
  {
    var size, n := ClampPageSize(pageSize), |pages|;
    NoErrorIsMet(g, size, start, journal, marks, pages, err);
    WalkStandsAt(g, size, start, journal, marks, pages);
    hide Serves, Walked, Ends, LastPage, Slice, ClampPageSize;
    if n < MAX_PAGES {
      RowsFit(n, size);
    }
  }

  lemma RowsFit(n: nat, size: nat)
    requires n <= MAX_PAGES
    ensures n * size <= MAX_PAGES * size && (n > 0 ==> (n - 1) * size <= n * size)
  {
    assert (MAX_PAGES - n) * size >= 0;
    assert n > 0 ==> n * size == (n - 1) * size + size;
  }

  lemma NoErrorIsMet<Row(!new)>(
    g: Gateway<Row>, size: nat, start: string, journal: seq<Row>, marks: nat -> string,
    pages: seq<Page<Row>>, err: Option<string>)
    requires size > 0 && Serves(g, size, start, journal, marks) && Walked(g, size, start, pages)
    requires |pages| <= MAX_PAGES && Ends(g, size, start, pages, err)
    ensures err.None?
    ensures |pages| == MAX_PAGES || (|pages| > 0 && |journal| <= (|pages| - 1) * size)
  {
    var n := |pages|;
    var i := Min(n * size, |journal|);
    WalkStandsAt(g, size, start, journal, marks, pages);
    OnePage(g, size, start, journal, marks, n, i);
    assert g.context(n).None?;
    hide Serves, Walked, Slice;
    var last := n > 0 && LastPage(CursorAfter(start, pages[..n - 1]), pages[n - 1]);
    assert !last ==> g.fetch(n, size, CursorAfter(start, pages)).Fetched?;
  }
}
