/**
 * The collection scraper of common/functions.js: `evalGetAllUserInPage`
 * (row mapping), `evalClearAllUserInPage` (row removal) and `getAllUser`
 * (the page loop).
 *
 * The live document is a sequence of elements: the user-table rows
 * (`tr.table-body`, each with the text of its cells) and everything else.
 * The portal's listing is a fixed sequence of pages; the control that opens
 * page k exists iff 1 <= k <= the number of pages, and activating it renders
 * that page's rows in place of the table's current rows.
 */
module Scraper {
  import opened Wrappers
  import opened Errors

  /** One scraped account, in the listing output's column order. */
  datatype ListedUser = ListedUser(
    displayName: string,
    fullName: string,
    email: string,
    created: string,
    updated: string,
    loggedIn: string)

  /** The `textContent` of each `td` of one table row. */
  type Cells = seq<string>

  // ---------------------------------------------------------------------
  // Row mapping (evalGetAllUserInPage)
  // ---------------------------------------------------------------------

  const DateLength: nat := 10

  /**
   * A date-time cell longer than ten characters gets one space inserted
   * after its tenth character; a shorter cell is kept as it is. Nothing
   * else changes: the first ten characters stay, the rest follows the
   * space, and no character is lost or added besides the space.
   */
  function InsertSeparator(t: string): string {
    if |t| > DateLength then t[..DateLength] + " " + t[DateLength..] else t
  }

  /** The reformatting adds the one space and loses no character. */
  lemma {:induction false} SeparatorKeepsCharacters(t: string)
    ensures multiset(InsertSeparator(t)) ==
            multiset(t) + (if |t| > DateLength then multiset{' '} else multiset{})
  {
    if |t| > DateLength {
      assert InsertSeparator(t) == t[..DateLength] + " " + t[DateLength..];
      assert t == t[..DateLength] + t[DateLength..];
    }
  }

  /** Deleting the character at index ten of a reformatted cell, when there is one to delete. */
  function RemoveSeparator(r: string): string {
    if |r| > DateLength + 1 then r[..DateLength] + r[DateLength + 1..] else r
  }

  /** The reformatting is cosmetic: deleting the inserted space restores the cell. */
  lemma {:induction false} SeparatorRoundTrip(t: string)
    ensures RemoveSeparator(InsertSeparator(t)) == t
  {
    if |t| > DateLength {
      var r := InsertSeparator(t);
      assert r[..DateLength] + r[DateLength + 1..] == t[..DateLength] + t[DateLength..];
      assert t[..DateLength] + t[DateLength..] == t;
    }
  }

  /** Reading `columns[4]` (or a later cell) of a row that lacks it. */
  const MissingCellError: Error :=
    Foreign("TypeError", "Cannot read properties of undefined (reading 'textContent')")

  /**
   * One row: cells 1, 2 and 3 verbatim, cells 4, 5 and 6 reformatted, cell 0
   * ignored; a row with fewer than seven cells throws.
   */
  function MapRow(cells: Cells): (r: Result<ListedUser, Error>)
    ensures r.Ok? <==> |cells| >= 7
    ensures r.Err? ==> r.error == MissingCellError
  {
    if |cells| < 7 then Err(MissingCellError)
    else
      Ok(ListedUser(cells[1], cells[2], cells[3],
                    InsertSeparator(cells[4]), InsertSeparator(cells[5]), InsertSeparator(cells[6])))
  }

  /**
   * A mapped row carries cells 1, 2 and 3 unchanged, cells 4, 5 and 6
   * reformatted, each recovered by deleting the inserted separator; cell 0
   * plays no part.
   */
  lemma {:induction false} MapRowKeepsCells(cells: Cells, other: string)
    requires |cells| >= 7
    ensures var u := MapRow(cells).value;
            u.displayName == cells[1] && u.fullName == cells[2] && u.email == cells[3]
            && u.created == InsertSeparator(cells[4])
            && u.updated == InsertSeparator(cells[5])
            && u.loggedIn == InsertSeparator(cells[6])
            && RemoveSeparator(u.created) == cells[4]
            && RemoveSeparator(u.updated) == cells[5]
            && RemoveSeparator(u.loggedIn) == cells[6]
    ensures MapRow(cells[0 := other]) == MapRow(cells)
  {
    SeparatorRoundTrip(cells[4]);
    SeparatorRoundTrip(cells[5]);
    SeparatorRoundTrip(cells[6]);
  }

  /** Every row has the seven cells the mapping reads. */
  predicate CompleteRows(rows: seq<Cells>) {
    forall i :: 0 <= i < |rows| ==> |rows[i]| >= 7
  }

  /** `users` holds one mapped user per row, in row order. */
  predicate MappedInOrder(rows: seq<Cells>, users: seq<ListedUser>) {
    |users| == |rows| && forall i :: 0 <= i < |rows| ==> MapRow(rows[i]) == Ok(users[i])
  }

  /** Every row in order; the first row lacking a cell stops the mapping. */
  function MapRows(rows: seq<Cells>): Result<seq<ListedUser>, Error> {
    if rows == [] then Ok([])
    else
      match MapRows(rows[..|rows| - 1])
      case Err(e) => Err(e)
      case Ok(us) =>
        match MapRow(rows[|rows| - 1])
        case Err(e) => Err(e)
        case Ok(u) => Ok(us + [u])
  }

  /**
   * The mapping succeeds exactly when every row has all seven cells; it
   * then maps each row to the user at the same position, and otherwise
   * fails with the missing-cell error.
   */
  lemma {:induction false} MapRowsMeaning(rows: seq<Cells>)
    ensures MapRows(rows).Ok? <==> CompleteRows(rows)
    ensures MapRows(rows).Err? ==> MapRows(rows).error == MissingCellError
    ensures MapRows(rows).Ok? ==> MappedInOrder(rows, MapRows(rows).value)
  {
    if rows != [] {
      var init, last := rows[..|rows| - 1], rows[|rows| - 1];
      assert rows == init + [last];
      MapRowsMeaning(init);
      match MapRows(init)
      case Err(e) =>
        assert !CompleteRows(rows) by {
          var i :| 0 <= i < |init| && |init[i]| < 7;
          assert rows[i] == init[i];
        }
      case Ok(us) =>
        match MapRow(last)
        case Err(e) =>
        case Ok(u) =>
          var vs := us + [u];
          assert MappedInOrder(rows, vs) by {
            forall i | 0 <= i < |rows| ensures MapRow(rows[i]) == Ok(vs[i]) {
              if i < |init| {
                assert rows[i] == init[i] && vs[i] == us[i];
              }
            }
          }
          assert CompleteRows(rows) by {
            forall i | 0 <= i < |rows| ensures |rows[i]| >= 7 {
              if i < |init| {
                assert rows[i] == init[i];
              }
            }
          }
    }
  }

  // ---------------------------------------------------------------------
  // The live document
  // ---------------------------------------------------------------------

  datatype Element = UserRow(cells: Cells) | OtherElement(name: string)

  /** The cells of the `tr.table-body` rows, in document order. */
  function UserRows(es: seq<Element>): seq<Cells> {
    if es == [] then []
    else (if es[0].UserRow? then [es[0].cells] else []) + UserRows(es[1..])
  }

  /** The document without its user rows: every other element, in order. */
  function WithoutUserRows(es: seq<Element>): seq<Element> {
    if es == [] then []
    else (if es[0].UserRow? then [] else [es[0]]) + WithoutUserRows(es[1..])
  }

  /** No element of `es` is a user row. */
  predicate RowFree(es: seq<Element>) {
    forall k :: 0 <= k < |es| ==> !es[k].UserRow?
  }

  /**
   * Removing the user rows leaves no user row, removes exactly as many
   * elements as there are user rows, keeps every other element and brings
   * in nothing new.
   */
  lemma {:induction false} RemovalKeepsOthers(es: seq<Element>)
    ensures RowFree(WithoutUserRows(es))
    ensures |WithoutUserRows(es)| + |UserRows(es)| == |es|
    ensures forall e :: e in es && !e.UserRow? ==> e in WithoutUserRows(es)
    ensures forall e :: e in WithoutUserRows(es) ==> e in es
  {
    if es != [] {
      RemovalKeepsOthers(es[1..]);
      assert es == [es[0]] + es[1..];
    }
  }

  lemma {:induction false} SplitUserRows(a: seq<Element>, b: seq<Element>)
    ensures UserRows(a + b) == UserRows(a) + UserRows(b)
  {
    if a == [] {
      assert a + b == b;
    } else {
      assert (a + b)[1..] == a[1..] + b;
      SplitUserRows(a[1..], b);
    }
  }

  lemma {:induction false} SplitOthers(a: seq<Element>, b: seq<Element>)
    ensures WithoutUserRows(a + b) == WithoutUserRows(a) + WithoutUserRows(b)
  {
    if a == [] {
      assert a + b == b;
    } else {
      assert (a + b)[1..] == a[1..] + b;
      SplitOthers(a[1..], b);
    }
  }

  /** Deleting one user row leaves the other elements as they were. */
  lemma {:induction false} DropUserRow(es: seq<Element>, i: nat)
    requires i < |es| && es[i].UserRow?
    ensures WithoutUserRows(es[..i] + es[i + 1..]) == WithoutUserRows(es)
  {
    var before, after := es[..i], es[i + 1..];
    assert es == before + ([es[i]] + after);
    assert ([es[i]] + after)[1..] == after;
    SplitOthers(before, [es[i]] + after);
    SplitOthers(before, after);
  }

  lemma {:induction false} NoUserRows(es: seq<Element>)
    requires RowFree(es)
    ensures UserRows(es) == [] && WithoutUserRows(es) == es
  {
    if es != [] {
      NoUserRows(es[1..]);
    }
  }

  /** The rows a page renders. */
  function Render(rows: seq<Cells>): (es: seq<Element>)
    ensures |es| == |rows| && forall k :: 0 <= k < |es| ==> es[k] == UserRow(rows[k])
  {
    seq(|rows|, k requires 0 <= k < |rows| => UserRow(rows[k]))
  }

  lemma {:induction false} RenderedRows(rows: seq<Cells>)
    ensures UserRows(Render(rows)) == rows
    ensures WithoutUserRows(Render(rows)) == []
  {
    if rows != [] {
      assert Render(rows)[1..] == Render(rows[1..]);
      RenderedRows(rows[1..]);
    }
  }

  /** Rendering a page into a document cleared of user rows shows exactly that page's rows. */
  lemma {:induction false} ShowPage(cleared: seq<Element>, rows: seq<Cells>)
    requires RowFree(cleared)
    ensures UserRows(cleared + Render(rows)) == rows
    ensures WithoutUserRows(cleared + Render(rows)) == cleared
  {
    SplitUserRows(cleared, Render(rows));
    SplitOthers(cleared, Render(rows));
    RenderedRows(rows);
    NoUserRows(cleared);
  }

  // ---------------------------------------------------------------------
  // What getAllUser computes
  // ---------------------------------------------------------------------

  /** The rows shown on page k (1-based); none for a page that does not exist. */
  function PageRows(pages: seq<seq<Cells>>, k: int): seq<Cells> {
    if 1 <= k <= |pages| then pages[k - 1] else []
  }

  /** The total number of rows over all pages. */
  function TotalRows(pages: seq<seq<Cells>>): nat {
    if pages == [] then 0 else TotalRows(pages[..|pages| - 1]) + |pages[|pages| - 1]|
  }

  /** All rows of all pages, in page order. */
  function Flatten(pages: seq<seq<Cells>>): (rows: seq<Cells>)
    ensures |rows| == TotalRows(pages)
  {
    if pages == [] then [] else Flatten(pages[..|pages| - 1]) + pages[|pages| - 1]
  }

  /** The timeout of `waitForSelector('.table-body')` on a page showing no row. */
  const EmptyTableError: Error := Timeout(".table-body")

  /** One page read: it must show at least one row, and every row must map. */
  function ReadPage(rows: seq<Cells>): Result<seq<ListedUser>, Error> {
    if rows == [] then Err(EmptyTableError) else MapRows(rows)
  }

  /** The pages are well formed: none is empty and every row has the seven cells read. */
  predicate Readable(pages: seq<seq<Cells>>) {
    forall i :: 0 <= i < |pages| ==> pages[i] != [] && CompleteRows(pages[i])
  }

  lemma {:induction false} MappedConcat(a: seq<Cells>, x: seq<ListedUser>, b: seq<Cells>, y: seq<ListedUser>)
    requires MappedInOrder(a, x) && MappedInOrder(b, y)
    ensures MappedInOrder(a + b, x + y)
  {
    forall i | 0 <= i < |a + b| ensures MapRow((a + b)[i]) == Ok((x + y)[i]) {
      if i < |a| {
        assert (a + b)[i] == a[i] && (x + y)[i] == x[i];
      } else {
        assert (a + b)[i] == b[i - |a|] && (x + y)[i] == y[i - |a|];
      }
    }
  }

  /**
   * Reading the first n pages in order, appending each page's users; the
   * first page that cannot be read ends the scrape with its error.
   */
  function ScrapePages(pages: seq<seq<Cells>>, n: nat): Result<seq<ListedUser>, Error>
    requires n <= |pages|
  {
    if n == 0 then Ok([])
    else
      match ScrapePages(pages, n - 1)
      case Err(e) => Err(e)
      case Ok(us) =>
        match ReadPage(pages[n - 1])
        case Err(e) => Err(e)
        case Ok(page) => Ok(us + page)
  }

  /**
   * Reading the first n pages succeeds iff each of them is readable; the
   * users are then exactly the mapped rows of those pages, in order.
   */
  lemma {:induction false} ScrapePagesMeaning(pages: seq<seq<Cells>>, n: nat)
    requires n <= |pages|
    ensures ScrapePages(pages, n).Ok? <==> Readable(pages[..n])
    ensures ScrapePages(pages, n).Ok? ==> MappedInOrder(Flatten(pages[..n]), ScrapePages(pages, n).value)
  {
    if n > 0 {
      ScrapePagesMeaning(pages, n - 1);
      var done, page := pages[..n - 1], pages[n - 1];
      assert pages[..n] == done + [page];
      assert pages[..n][..n - 1] == done;
      match ScrapePages(pages, n - 1)
      case Err(e) =>
        assert !Readable(pages[..n]) by {
          var i :| 0 <= i < |done| && !(done[i] != [] && CompleteRows(done[i]));
          assert pages[..n][i] == done[i];
        }
      case Ok(us) =>
        MapRowsMeaning(page);
        match ReadPage(page)
        case Err(e) =>
          assert pages[..n][n - 1] == page;
        case Ok(users) =>
          assert Flatten(pages[..n]) == Flatten(done) + page;
          MappedConcat(Flatten(done), us, page, users);
          assert Readable(pages[..n]) by {
            forall i | 0 <= i < n ensures pages[..n][i] != [] && CompleteRows(pages[..n][i]) {
              if i < n - 1 {
                assert pages[..n][i] == done[i];
              }
            }
          }
    }
  }

  /**
   * The scrape succeeds iff there is at least one page and every page is
   * readable; it then returns one user per row of every page, in page
   * order, so that its length is the sum of the page sizes.
   */
  lemma {:induction false} ScrapeResult(pages: seq<seq<Cells>>)
    ensures Scrape(pages).Ok? <==> pages != [] && Readable(pages)
    ensures Scrape(pages).Ok? ==>
              |Scrape(pages).value| == TotalRows(pages)
              && MappedInOrder(Flatten(pages), Scrape(pages).value)
  {
    if pages != [] {
      ScrapePagesMeaning(pages, |pages|);
      assert pages[..|pages|] == pages;
    }
  }

  /** Once a page cannot be read, reading further pages keeps that error. */
  lemma {:induction false} ErrorPersists(pages: seq<seq<Cells>>, n: nat, m: nat)
    requires n <= m <= |pages|
    requires ScrapePages(pages, n).Err?
    ensures ScrapePages(pages, m) == ScrapePages(pages, n)
  {
    if m > n {
      ErrorPersists(pages, n, m - 1);
    }
  }

  /**
   * Reading page k after the first k - 1 pages were read: an error is the
   * whole scrape's result, and a success extends the users read so far.
   */
  lemma {:induction false} ReadPageStep(pages: seq<seq<Cells>>, k: nat, users: seq<ListedUser>,
                                        r: Result<seq<ListedUser>, Error>)
    requires 1 <= k && (k <= |pages| || (k == 1 && pages == []))
    requires ScrapePages(pages, k - 1) == Ok(users)
    requires r == ReadPage(PageRows(pages, k))
    ensures r.Err? ==> Scrape(pages) == Err(r.error)
    ensures r.Ok? ==> k <= |pages| && ScrapePages(pages, k) == Ok(users + r.value)
  {
    if pages != [] && r.Err? {
      assert ScrapePages(pages, k) == Err(r.error);
      ErrorPersists(pages, k, |pages|);
    }
  }

  /** `getAllUser`'s result for a listing of the given pages. */
  function Scrape(pages: seq<seq<Cells>>): Result<seq<ListedUser>, Error> {
    if pages == [] then Err(EmptyTableError) else ScrapePages(pages, |pages|)
  }

  // ---------------------------------------------------------------------
  // The page object
  // ---------------------------------------------------------------------

  class UserListPage {
    /** The portal's listing, page by page. */
    const pages: seq<seq<Cells>>
    /** The live document. */
    var elements: seq<Element>

    /** The user-management screen as `openUserManagementPage` leaves it: page 1 rendered. */
    constructor (pages: seq<seq<Cells>>, chrome: seq<Element>)
      requires UserRows(chrome) == []
      ensures this.pages == pages
      ensures elements == chrome + Render(PageRows(pages, 1))
    {
      this.pages := pages;
      elements := chrome + Render(PageRows(pages, 1));
    }

    /** The XPath lookup `//div[text()="k"]` finds a page-number control. */
    predicate HasPageControl(k: int) {
      1 <= k <= |pages|
    }

    /** Activating the control of page k renders its rows in place of the table's rows. */
    method ClickPage(k: int)
      requires HasPageControl(k)
      modifies this
      ensures elements == WithoutUserRows(old(elements)) + Render(pages[k - 1])
    {
      elements := WithoutUserRows(elements) + Render(pages[k - 1]);
    }

    /** `evalGetAllUserInPage`: every user row of the document, mapped in order. */
    method ReadUserRows() returns (r: Result<seq<ListedUser>, Error>)
      ensures r == MapRows(UserRows(elements))
    {
      var rows := UserRows(elements);
      var users := [];
      var i := 0;
      while i < |rows|
        invariant 0 <= i <= |rows|
        invariant MapRows(rows[..i]) == Ok(users)
      {
        assert rows[..i + 1][..i] == rows[..i];
        var user := MapRow(rows[i]);
        if user.Err? {
          MapRowsMeaning(rows);
          return Err(user.error);
        }
        users := users + [user.value];
        i := i + 1;
      }
      assert rows[..i] == rows;
      return Ok(users);
    }

    /** `evalClearAllUserInPage`: removes every user row, one at a time, and nothing else. */
    method ClearUserRows()
      modifies this
      ensures elements == WithoutUserRows(old(elements))
      ensures RowFree(elements)
    {
      var i := 0;
      while i < |elements|
        invariant 0 <= i <= |elements|
        invariant forall k :: 0 <= k < i ==> !elements[k].UserRow?
        invariant WithoutUserRows(elements) == WithoutUserRows(old(elements))
        decreases |elements| - i
      {
        if elements[i].UserRow? {
          DropUserRow(elements, i);
          elements := elements[..i] + elements[i + 1..];
        } else {
          i := i + 1;
        }
      }
      assert RowFree(elements);
      NoUserRows(elements);
    }

    /**
     * Lines 140-143 of `getAllUser`: wait until the table shows a row, read
     * every row, then remove them all. The wait times out on a table with
     * no row.
     */
    method ReadAndClearPage() returns (r: Result<seq<ListedUser>, Error>)
      modifies this
      ensures r == ReadPage(UserRows(old(elements)))
      ensures r.Ok? ==> elements == WithoutUserRows(old(elements)) && RowFree(elements)
      ensures r.Err? ==> elements == old(elements)
    {
      if UserRows(elements) == [] {
        return Err(EmptyTableError);
      }
      r := ReadUserRows();
      if r.Ok? {
        ClearUserRows();
      }
    }

    /**
     * Lines 146-151 of `getAllUser`: look for the control of page k and
     * activate it when it exists.
     */
    method OpenPage(k: int) returns (found: bool)
      requires RowFree(elements)
      modifies this
      ensures found == HasPageControl(k)
      ensures found ==> UserRows(elements) == pages[k - 1]
                         && WithoutUserRows(elements) == old(elements)
      ensures !found ==> elements == old(elements)
    {
      found := HasPageControl(k);
      if found {
        ghost var cleared := elements;
        ClickPage(k);
        NoUserRows(cleared);
        ShowPage(cleared, pages[k - 1]);
      }
    }

    /**
     * One pass of the loop of `getAllUser` (lines 140-151): read and clear
     * page k, then open page k + 1 if its control exists. An error ends the
     * whole scrape; a success moves the loop to page k + 1, or to its end
     * when page k was the last.
     */
    method VisitPage(k: nat, ghost users: seq<ListedUser>, ghost others: seq<Element>)
      returns (r: Result<seq<ListedUser>, Error>, found: bool)
      requires k > 0 && Progress(pages, elements, k, users, others)
      modifies this
      ensures r.Err? ==> Scrape(pages) == Err(r.error)
      ensures r.Ok? ==> found == (k < |pages|)
      ensures r.Ok? ==> Progress(pages, elements, if found then k + 1 else 0, users + r.value, others)
    {
      found := false;
      r := ReadAndClearPage();
      ReadPageStep(pages, k, users, r);
      if r.Ok? {
        assert elements == others;
        found := OpenPage(k + 1);
        if found {
          assert PageRows(pages, k + 1) == pages[k];
        } else {
          assert k == |pages|;
        }
      }
    }

    /**
     * `getAllUser`: starting on page 1, read the page's rows, clear them,
     * and move to the next page while its control exists. The page counter
     * runs 1, 2, 3, ..., each page is read once, and the loop ends exactly
     * when no control for the next page exists.
     */
    method GetAllUser() returns (r: Result<seq<ListedUser>, Error>, ghost visited: seq<nat>)
      requires UserRows(elements) == PageRows(pages, 1)
      modifies this
      ensures r == Scrape(pages)
      ensures forall i :: 0 <= i < |visited| ==> visited[i] == i + 1
      ensures r.Ok? ==> |visited| == |pages|
      ensures r.Ok? ==> elements == WithoutUserRows(old(elements))
    {
      ghost var others := WithoutUserRows(elements);
      var users := [];
      var currentPage := 1;
      visited := [];
      while currentPage > 0
        invariant Progress(pages, elements, currentPage, users, others)
        invariant |visited| == if currentPage == 0 then |pages| else currentPage - 1
        invariant forall i :: 0 <= i < |visited| ==> visited[i] == i + 1
        decreases if currentPage == 0 then 0 else |pages| + 2 - currentPage
      {
        var usersInPage, found := VisitPage(currentPage, users, others);
        visited := visited + [currentPage];
        if usersInPage.Err? {
          return Err(usersInPage.error), visited;
        }
        users := users + usersInPage.value;
        currentPage := if found then currentPage + 1 else 0;
      }
      return Ok(users), visited;
    }
  }

  /**
   * The state of `getAllUser` before reading page k, or after the loop
   * when k is 0: the document shows page k's rows over the unchanged rest,
   * and the users are those of the pages read so far.
   */
  ghost predicate Progress(pages: seq<seq<Cells>>, es: seq<Element>, k: nat,
                           users: seq<ListedUser>, others: seq<Element>)
  {
    if k == 0 then pages != [] && ScrapePages(pages, |pages|) == Ok(users) && es == others
    else && (k <= |pages| || (k == 1 && pages == []))
         && UserRows(es) == PageRows(pages, k)
         && WithoutUserRows(es) == others
         && ScrapePages(pages, k - 1) == Ok(users)
  }
}
