/**
 * The generic table: rows are filtered by a text, sorted by a clicked column,
 * and cut into pages of `rowsPerPage` rows.
 */
module Table {
  import opened Wrappers
  import Seqs
  import StableSort

  /**
   * One field of a row: the key that `<` and `>` compare, and the text that
   * `String(value)` renders.
   */
  datatype Cell = Cell(key: real, text: string)

  /** A row maps each field name to its value (`Object.values(row)` are the cells). */
  type Row = map<string, Cell>

  datatype Direction = Asc | Desc

  // ---------------------------------------------------------------- filtering

  /** Lower-casing of one character (ASCII letters only). */
  function LowerChar(c: char): char {
    if 'A' <= c <= 'Z' then (c as int - 'A' as int + 'a' as int) as char else c
  }

  function Lower(s: string): (r: string)
    ensures |r| == |s|
    ensures forall i :: 0 <= i < |s| ==> r[i] == LowerChar(s[i])
  {
    if s == [] then [] else [LowerChar(s[0])] + Lower(s[1..])
  }

  /** `s.includes(t)`: `t` occurs in `s` at some position. */
  predicate Contains(s: string, t: string) {
    exists i :: 0 <= i <= |s| && t <= s[i..]
  }

  /** Some field of the row, lower-cased, contains the lower-cased filter text. */
  predicate Matches(row: Row, filterText: string) {
    exists c :: c in row && Contains(Lower(row[c].text), Lower(filterText))
  }

  /** The `filtered` memo: the rows that match, in data order. */
  function Filtered(data: seq<Row>, filterText: string): seq<Row> {
    Seqs.Filter(data, row => Matches(row, filterText))
  }

  /** A row is kept exactly when it matches, as often as it occurs, and the kept rows keep their order. */
  lemma FilteredSpec(data: seq<Row>, filterText: string)
    ensures forall i :: 0 <= i < |Filtered(data, filterText)| ==>
              Filtered(data, filterText)[i] in data && Matches(Filtered(data, filterText)[i], filterText)
    ensures forall i :: 0 <= i < |data| && Matches(data[i], filterText) ==> data[i] in Filtered(data, filterText)
    ensures Seqs.IsSubsequence(Filtered(data, filterText), data)
    ensures forall row :: multiset(Filtered(data, filterText))[row]
                          == if Matches(row, filterText) then multiset(data)[row] else 0
  {
    Seqs.FilterIsSubsequence(data, row => Matches(row, filterText));
    Seqs.FilterMultiset(data, row => Matches(row, filterText));
  }

  /** The empty filter text matches exactly the rows that have at least one field. */
  lemma EmptyFilterMatches(row: Row)
    ensures Matches(row, "") <==> |row| > 0
  {
    if |row| > 0 {
      var c :| c in row;
      assert "" <= Lower(row[c].text)[0..];
    }
  }

  /** With an empty filter text and no field-less rows, every row is kept. */
  lemma EmptyFilterKeepsAll(data: seq<Row>)
    requires forall i :: 0 <= i < |data| ==> |data[i]| > 0
    ensures Filtered(data, "") == data
  {
    forall i | 0 <= i < |data| ensures Matches(data[i], "") {
      EmptyFilterMatches(data[i]);
    }
    Seqs.FilterKeepsAll(data, row => Matches(row, ""));
  }

  // ------------------------------------------------------------------ sorting

  datatype SortState = SortState(col: Option<string>, dir: Direction)

  /**
   * `handleSort(col)`: clicking the sorted column flips the direction; clicking
   * another column sorts by it ascending.
   */
  function ToggleSort(st: SortState, col: string): (r: SortState)
    ensures r.col == Some(col)
    ensures st.col == Some(col) ==> r.dir != st.dir
    ensures st.col != Some(col) ==> r.dir == Asc
  {
    if st.col == Some(col) then SortState(st.col, if st.dir == Asc then Desc else Asc)
    else SortState(Some(col), Asc)
  }

  /** Two clicks on the sorted column restore the sort. */
  lemma ToggleTwiceRestores(st: SortState, col: string)
    requires st.col == Some(col)
    ensures ToggleSort(ToggleSort(st, col), col) == st
  {
  }

  /** Every row has a field named `col`. */
  ghost predicate HasColumn(rows: seq<Row>, col: string) {
    forall i :: 0 <= i < |rows| ==> col in rows[i]
  }

  /** The sort key of a row for the comparator on `col`: descending negates the key. */
  function ColumnKey(col: string, dir: Direction): Row -> real {
    (row: Row) => if col in row then (if dir == Asc then row[col].key else -row[col].key) else 0.0
  }

  /** `sortCol` is truthy: a column is chosen and its name is not the empty string. */
  predicate SortsBy(st: SortState) {
    st.col.Some? && st.col.value != ""
  }

  /** The `sorted` memo: unchanged without a (truthy) sort column, else a stable sort on it. */
  function SortedView(rows: seq<Row>, st: SortState): (r: seq<Row>)
    ensures |r| == |rows|
  {
    if !SortsBy(st) then rows
    else
      StableSort.SortFacts(rows, ColumnKey(st.col.value, st.dir));
      StableSort.Sort(rows, ColumnKey(st.col.value, st.dir))
  }

  /** The test "the `col` field has key `k`". */
  ghost function KeyIs(col: string, k: real): Row -> bool {
    (row: Row) => col in row && row[col].key == k
  }

  /** The rows whose `col` field has key `k`, in their order. */
  ghost function RowsWithKey(rows: seq<Row>, col: string, k: real): seq<Row> {
    Seqs.Filter(rows, KeyIs(col, k))
  }

  /**
   * A sort on a column keeps every row: the result is a permutation, and when
   * every row carries the column, so does every row of the result.
   */
  lemma SortedViewPermutes(rows: seq<Row>, col: string, dir: Direction)
    ensures multiset(SortedView(rows, SortState(Some(col), dir))) == multiset(rows)
    ensures HasColumn(rows, col) ==> HasColumn(SortedView(rows, SortState(Some(col), dir)), col)
  {
    var r: seq<Row> := SortedView(rows, SortState(Some(col), dir));
    if col != "" {
      StableSort.SortFacts(rows, ColumnKey(col, dir));
    }
    if HasColumn(rows, col) {
      forall i | 0 <= i < |r| ensures col in r[i] {
        assert r[i] in multiset(rows);
      }
    }
  }

  /** Ascending sorts put keys in non-decreasing order, descending sorts in non-increasing order. */
  lemma SortedViewOrdered(rows: seq<Row>, col: string, dir: Direction)
    requires col != "" && HasColumn(rows, col)
    ensures HasColumn(SortedView(rows, SortState(Some(col), dir)), col)
    ensures dir == Asc ==> forall i, j :: 0 <= i < j < |rows| ==>
              SortedView(rows, SortState(Some(col), dir))[i][col].key
              <= SortedView(rows, SortState(Some(col), dir))[j][col].key
    ensures dir == Desc ==> forall i, j :: 0 <= i < j < |rows| ==>
              SortedView(rows, SortState(Some(col), dir))[i][col].key
              >= SortedView(rows, SortState(Some(col), dir))[j][col].key
  {
    var key := ColumnKey(col, dir);
    var r: seq<Row> := SortedView(rows, SortState(Some(col), dir));
    StableSort.SortFacts(rows, key);
    SortedViewPermutes(rows, col, dir);
    forall i, j | 0 <= i < j < |r|
      ensures dir == Asc ==> r[i][col].key <= r[j][col].key
      ensures dir == Desc ==> r[i][col].key >= r[j][col].key
    {
      assert key(r[i]) <= key(r[j]);
    }
  }

  /** Rows with equal keys on the sort column keep their filtered order (the sort is stable). */
  lemma SortedViewStable(rows: seq<Row>, col: string, dir: Direction, k: real)
    requires col != "" && HasColumn(rows, col)
    ensures RowsWithKey(SortedView(rows, SortState(Some(col), dir)), col, k) == RowsWithKey(rows, col, k)
  {
    var key := ColumnKey(col, dir);
    var r: seq<Row> := SortedView(rows, SortState(Some(col), dir));
    var k' := if dir == Asc then k else -k;
    StableSort.SortFacts(rows, key);
    SortedViewPermutes(rows, col, dir);
    assert r == StableSort.Sort(rows, key);
    forall i | 0 <= i < |r| ensures KeyIs(col, k)(r[i]) == StableSort.KeyEquals(key, k')(r[i]) {
    }
    Seqs.FilterAgrees(r, KeyIs(col, k), StableSort.KeyEquals(key, k'));
    Seqs.FilterAgrees(rows, KeyIs(col, k), StableSort.KeyEquals(key, k'));
    assert RowsWithKey(r, col, k) == StableSort.WithKey(r, key, k');
    assert StableSort.WithKey(r, key, k') == StableSort.WithKey(rows, key, k');
  }

  /** Without a sort column, or with the empty column name (which is falsy), the filtered rows are shown as they are. */
  lemma UnsortedViewIsFiltered(rows: seq<Row>, st: SortState)
    ensures st.col.None? || st.col == Some("") ==> SortedView(rows, st) == rows
  {
  }

  // ----------------------------------------------------------------- paging

  /** `Math.max(1, Math.ceil(n / perPage))`: the fewest pages that hold `n` rows, and at least one. */
  function TotalPages(n: nat, perPage: nat): (t: nat)
    requires perPage > 0
    ensures t >= 1
    ensures n <= t * perPage
    ensures t == 1 || (t - 1) * perPage < n
  {
    if n == 0 then 1
    else
      var q, m := (n + perPage - 1) / perPage, (n + perPage - 1) % perPage;
      assert n + perPage - 1 == q * perPage + m && 0 <= m < perPage;
      assert (q - 1) * perPage == q * perPage - perPage;
      q
  }

  /** `Math.min(page, totalPages)`: the requested page, pulled back to the last one. */
  function SafePage(page: int, total: nat): (r: int)
    ensures r <= page && r <= total
    ensures r == page || r == total
    ensures page >= 1 && total >= 1 ==> 1 <= r <= total
  {
    if page < total then page else total
  }

  /**
   * `(safePage - 1) * rowsPerPage`: the index of the first row on page `page`;
   * the first page starts at 0, and a page of `perPage` rows ends where page
   * `page + 1` starts, at `page * perPage`.
   */
  function PageStart(page: int, perPage: nat): (r: int)
    ensures page >= 1 ==> r >= 0
    ensures page == 1 ==> r == 0
    ensures r + perPage == page * perPage
  {
    (page - 1) * perPage
  }

  lemma MulMonotone(a: int, b: int, c: nat)
    requires a <= b
    ensures a * c <= b * c
  {
  }

  /**
   * `visibleRows`: the slice of at most `perPage` rows that starts where page
   * `SafePage(page, ...)` starts; a non-empty list never shows an empty page.
   */
  function VisibleRows<T>(s: seq<T>, page: int, perPage: nat): (r: seq<T>)
    requires perPage > 0 && page >= 1
    ensures |r| <= perPage
    ensures |s| > 0 ==> |r| > 0
    ensures var start := PageStart(SafePage(page, TotalPages(|s|, perPage)), perPage);
            0 <= start <= |s| && start + |r| <= |s| && r == s[start..start + |r|]
  {
    var total := TotalPages(|s|, perPage);
    var safe := SafePage(page, total);
    var start := PageStart(safe, perPage);
    MulMonotone(0, safe - 1, perPage);
    MulMonotone(safe - 1, total - 1, perPage);
    var end := if start + perPage < |s| then start + perPage else |s|;
    s[start..end]
  }

  /** Pages 1 to `TotalPages`, in order. */
  function Pages<T>(s: seq<T>, perPage: nat): (ps: seq<seq<T>>)
    requires perPage > 0
    ensures |ps| == TotalPages(|s|, perPage)
  {
    seq(TotalPages(|s|, perPage), i requires 0 <= i => VisibleRows(s, i + 1, perPage))
  }

  function Flatten<T>(ss: seq<seq<T>>): seq<T> {
    if ss == [] then [] else Flatten(ss[..|ss| - 1]) + ss[|ss| - 1]
  }

  /** Page `k` of the pages 1..TotalPages is the slice from `(k - 1) * perPage` to `k * perPage`, cut at the end. */
  lemma PageSlice<T>(s: seq<T>, perPage: nat, k: int)
    requires perPage > 0 && 1 <= k <= TotalPages(|s|, perPage)
    ensures (k - 1) * perPage <= |s|
    ensures k * perPage <= |s| ==> VisibleRows(s, k, perPage) == s[(k - 1) * perPage..k * perPage]
    ensures k * perPage > |s| ==> VisibleRows(s, k, perPage) == s[(k - 1) * perPage..]
  {
    var total := TotalPages(|s|, perPage);
    MulMonotone(k - 1, total - 1, perPage);
    assert k * perPage == (k - 1) * perPage + perPage;
    assert SafePage(k, total) == k;
  }

  lemma FlattenSnoc<T>(ss: seq<seq<T>>, k: nat)
    requires 0 < k <= |ss|
    ensures Flatten(ss[..k]) == Flatten(ss[..k - 1]) + ss[k - 1]
  {
    assert ss[..k][..k - 1] == ss[..k - 1];
  }

  lemma SliceJoin<T>(s: seq<T>, lo: nat, hi: nat)
    requires lo <= hi <= |s|
    ensures s[..lo] + s[lo..hi] == s[..hi]
    ensures s[..lo] + s[lo..] == s
  {
  }

  lemma {:induction false} PagesPrefix<T>(s: seq<T>, perPage: nat, k: nat)
    requires perPage > 0 && k <= TotalPages(|s|, perPage)
    ensures k * perPage <= |s| ==> Flatten(Pages(s, perPage)[..k]) == s[..k * perPage]
    ensures k * perPage > |s| ==> Flatten(Pages(s, perPage)[..k]) == s
  {
    var ps := Pages(s, perPage);
    if k > 0 {
      PagesPrefix(s, perPage, k - 1);
      PageSlice(s, perPage, k);
      var lo, hi := (k - 1) * perPage, k * perPage;
      assert hi == lo + perPage && lo <= |s|;
      FlattenSnoc(ps, k);
      assert ps[k - 1] == VisibleRows(s, k, perPage);
      assert Flatten(ps[..k - 1]) == s[..lo];
      if hi <= |s| {
        SliceJoin(s, lo, hi);
      } else {
        SliceJoin(s, lo, lo);
      }
    }
  }

  /** The pages, read in order, give back the whole list: they partition it. */
  lemma PagesPartition<T>(s: seq<T>, perPage: nat)
    requires perPage > 0
    ensures Flatten(Pages(s, perPage)) == s
  {
    var total := TotalPages(|s|, perPage);
    PagesPrefix(s, perPage, total);
    assert Pages(s, perPage)[..total] == Pages(s, perPage);
  }

  /** `onPrev`: one page back, never below the first. */
  function PrevPage(page: int): (r: int)
    ensures r >= 1
    ensures page >= 1 ==> r <= page
  {
    if page - 1 > 1 then page - 1 else 1
  }

  /** `onNext`: one page on, never beyond the last. */
  function NextPage(page: int, total: nat): (r: int)
    requires total >= 1
    ensures r <= total
    ensures page >= 1 ==> r >= 1
    ensures page < total ==> r > page
  {
    if page + 1 < total then page + 1 else total
  }

  /** Inside the page range, Next undoes Prev and Prev undoes Next. */
  lemma PrevNextInverse(page: int, total: nat)
    requires 1 <= page <= total
    ensures page > 1 ==> NextPage(PrevPage(page), total) == page
    ensures page < total ==> PrevPage(NextPage(page, total)) == page
  {
  }

  // ------------------------------------------------------------------ state

  /**
   * The table component: the data and page size it is given, and its four
   * pieces of state. Valid() says the page is within the pages of the
   * filtered rows, so `safePage` is always `page` itself.
   */
  class TableView {
    const columns: seq<string>
    const data: seq<Row>
    const rowsPerPage: nat
    var page: int
    var sort: SortState
    var filterText: string

    ghost predicate Valid()
      reads this
    {
      rowsPerPage > 0 && 1 <= page <= TotalPages(|Filtered(data, filterText)|, rowsPerPage)
    }

    constructor (columns: seq<string>, data: seq<Row>, rowsPerPage: nat)
      requires rowsPerPage > 0
      ensures Valid()
      ensures this.columns == columns && this.data == data && this.rowsPerPage == rowsPerPage
      ensures page == 1 && sort == SortState(None, Asc) && filterText == ""
    {
      this.columns := columns;
      this.data := data;
      this.rowsPerPage := rowsPerPage;
      page := 1;
      sort := SortState(None, Asc);
      filterText := "";
    }

    function SortedRows(): seq<Row>
      reads this
    {
      SortedView(Filtered(data, filterText), sort)
    }

    function PageCount(): nat
      reads this
      requires rowsPerPage > 0
    {
      TotalPages(|SortedRows()|, rowsPerPage)
    }

    /** The rows on screen. */
    function Visible(): (r: seq<Row>)
      reads this
      requires Valid()
      ensures |r| <= rowsPerPage
      ensures SortedRows() != [] ==> r != []
    {
      VisibleRows(SortedRows(), page, rowsPerPage)
    }

    /** A click on a column header. */
    method HandleSort(col: string)
      requires Valid()
      modifies this
      ensures Valid()
      ensures sort == ToggleSort(old(sort), col)
      ensures page == old(page) && filterText == old(filterText)
    {
      sort := ToggleSort(sort, col);
    }

    /** Typing in the filter box: the page goes back to the first. */
    method SetFilterText(text: string)
      requires Valid()
      modifies this
      ensures Valid()
      ensures page == 1 && filterText == text && sort == old(sort)
    {
      page := 1;
      filterText := text;
    }

    method Prev()
      requires Valid()
      modifies this
      ensures Valid()
      ensures page == PrevPage(old(page))
      ensures sort == old(sort) && filterText == old(filterText)
    {
      page := PrevPage(page);
    }

    method Next()
      requires Valid()
      modifies this
      ensures Valid()
      ensures page == NextPage(old(page), old(PageCount()))
      ensures sort == old(sort) && filterText == old(filterText)
    {
      page := NextPage(page, PageCount());
    }
  }
}
