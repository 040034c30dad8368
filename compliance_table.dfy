/**
 * The compliance data table: the filter over the record list, the optional
 * sort on a column, pagination and the row selection. Every step is a value
 * computed from the current state, so the model is a set of functions.
 */
module ComplianceTable {
  import opened Common

  /** One row of the table (the amount and date-stamp columns it only displays are omitted). */
  datatype ComplianceRecord = ComplianceRecord(
    id: string,
    title: string,
    recordType: string,
    status: string,
    priority: string,
    dueDate: string,
    submittedBy: string,
    tags: seq<string>,
    approvalStatus: string)

  datatype Filters = Filters(
    search: string,
    recordType: string,
    status: string,
    priority: string,
    approvalStatus: string,
    dateRange: string)

  /** The filters the table opens with, and the ones "Clear all" restores. */
  function InitialFilters(): Filters {
    Filters("", "all", "all", "all", "all", "")
  }

  // ---------------------------------------------------------------------
  // Filtering
  // ---------------------------------------------------------------------

  predicate MatchesSearch(r: ComplianceRecord, q: string) {
    ContainsIgnoreCase(r.title, q)
    || ContainsIgnoreCase(r.submittedBy, q)
    || exists i :: 0 <= i < |r.tags| && ContainsIgnoreCase(r.tags[i], q)
  }

  /** A select filter lets everything through on "all", otherwise only its own value. */
  predicate Selects(choice: string, value: string) {
    choice == "all" || value == choice
  }

  /** The row test; the date range filter is not consulted. */
  predicate Matches(r: ComplianceRecord, f: Filters) {
    MatchesSearch(r, f.search)
    && Selects(f.recordType, r.recordType)
    && Selects(f.status, r.status)
    && Selects(f.priority, r.priority)
    && Selects(f.approvalStatus, r.approvalStatus)
  }

  function MatchesFilters(f: Filters): ComplianceRecord -> bool {
    r => Matches(r, f)
  }

  /** With no search text and every select on "all", no record is filtered out. */
  lemma InitialFiltersKeepAll(records: seq<ComplianceRecord>, f: Filters)
    requires f.search == "" && f.recordType == "all" && f.status == "all"
    requires f.priority == "all" && f.approvalStatus == "all"
    ensures Filter(records, MatchesFilters(f)) == records
  {
    forall r | r in records ensures MatchesFilters(f)(r) {
      ContainsIgnoreCaseEmpty(r.title);
    }
    FilterAll(records, MatchesFilters(f));
  }

  // ---------------------------------------------------------------------
  // Sorting
  // ---------------------------------------------------------------------

  /** The two columns with a sort button. */
  datatype SortKey = Title | DueDate
  datatype Direction = Asc | Desc
  datatype SortConfig = SortConfig(key: Option<SortKey>, direction: Direction)

  function InitialSort(): SortConfig {
    SortConfig(None, Asc)
  }

  function KeyOf(r: ComplianceRecord, k: SortKey): string {
    match k
    case Title => r.title
    case DueDate => r.dueDate
  }

  /** The comparator returns -1 for (a, b): a goes strictly before b. */
  predicate Before(a: ComplianceRecord, b: ComplianceRecord, k: SortKey, d: Direction) {
    match d
    case Asc => Lt(KeyOf(a, k), KeyOf(b, k))
    case Desc => Lt(KeyOf(b, k), KeyOf(a, k))
  }

  lemma BeforeIrreflexive(a: ComplianceRecord, k: SortKey, d: Direction)
    ensures !Before(a, a, k, d)
  {
    LtIrreflexive(KeyOf(a, k));
  }

  lemma BeforeAsymmetric(a: ComplianceRecord, b: ComplianceRecord, k: SortKey, d: Direction)
    requires Before(a, b, k, d)
    ensures !Before(b, a, k, d)
  {
    match d
    case Asc => LtAsymmetric(KeyOf(a, k), KeyOf(b, k));
    case Desc => LtAsymmetric(KeyOf(b, k), KeyOf(a, k));
  }

  lemma BeforeTransitive(a: ComplianceRecord, b: ComplianceRecord, c: ComplianceRecord, k: SortKey, d: Direction)
    requires Before(a, b, k, d) && Before(b, c, k, d)
    ensures Before(a, c, k, d)
  {
    match d
    case Asc => LtTransitive(KeyOf(a, k), KeyOf(b, k), KeyOf(c, k));
    case Desc => LtTransitive(KeyOf(c, k), KeyOf(b, k), KeyOf(a, k));
  }

  /** Records with different keys are ordered one way or the other. */
  lemma BeforeTotal(a: ComplianceRecord, b: ComplianceRecord, k: SortKey, d: Direction)
    requires KeyOf(a, k) != KeyOf(b, k)
    ensures Before(a, b, k, d) || Before(b, a, k, d)
  {
    LtTotal(KeyOf(a, k), KeyOf(b, k));
  }

  /** No later element goes strictly before an earlier one. */
  predicate Ordered(s: seq<ComplianceRecord>, k: SortKey, d: Direction) {
    forall i, j :: 0 <= i < j < |s| ==> !Before(s[j], s[i], k, d)
  }

  /** x goes in front of the first element it sorts strictly before. */
  function Insert(x: ComplianceRecord, s: seq<ComplianceRecord>, k: SortKey, d: Direction): (r: seq<ComplianceRecord>)
    ensures multiset(r) == multiset(s) + multiset{x}
  {
    if s == [] then [x]
    else if Before(x, s[0], k, d) then [x] + s
    else
      assert s == [s[0]] + s[1..];
      [s[0]] + Insert(x, s[1..], k, d)
  }

  /**
   * Array.prototype.sort with the comparator of the table. The sort is
   * stable, so an insertion sort defines its result.
   */
  function SortBy(s: seq<ComplianceRecord>, k: SortKey, d: Direction): (r: seq<ComplianceRecord>)
    ensures multiset(r) == multiset(s)
  {
    if s == [] then []
    else
      assert s == s[..|s| - 1] + [s[|s| - 1]];
      Insert(s[|s| - 1], SortBy(s[..|s| - 1], k, d), k, d)
  }

  /** e does not go before x when x goes before something e does not go before. */
  lemma NotBeforeVia(e: ComplianceRecord, x: ComplianceRecord, c: ComplianceRecord, k: SortKey, d: Direction)
    requires Before(x, c, k, d) && !Before(e, c, k, d)
    ensures !Before(e, x, k, d)
  {
    if Before(e, x, k, d) {
      BeforeTransitive(e, x, c, k, d);
    }
  }

  lemma {:induction false} InsertOrdered(x: ComplianceRecord, s: seq<ComplianceRecord>, k: SortKey, d: Direction)
    requires Ordered(s, k, d)
    ensures Ordered(Insert(x, s, k, d), k, d)
    decreases |s|
  {
    if s == [] {
    } else if Before(x, s[0], k, d) {
      var r := [x] + s;
      forall i, j | 0 <= i < j < |r| ensures !Before(r[j], r[i], k, d) {
        if i == 0 {
          if j == 1 {
            BeforeAsymmetric(x, s[0], k, d);
          } else {
            NotBeforeVia(s[j - 1], x, s[0], k, d);
          }
        }
      }
    } else {
      var t := Insert(x, s[1..], k, d);
      InsertOrdered(x, s[1..], k, d);
      var r := [s[0]] + t;
      forall i, j | 0 <= i < j < |r| ensures !Before(r[j], r[i], k, d) {
        if i == 0 {
          var e := t[j - 1];
          assert e in multiset(t);
          if e != x {
            assert e in multiset(s[1..]);
            var m :| 0 <= m < |s[1..]| && s[1..][m] == e;
            assert s[m + 1] == e;
          }
        }
      }
    }
  }

  /** With a sort key the rows come out ordered on that column. */
  lemma {:induction false} SortOrdered(s: seq<ComplianceRecord>, k: SortKey, d: Direction)
    ensures Ordered(SortBy(s, k, d), k, d)
    decreases |s|
  {
    if s != [] {
      SortOrdered(s[..|s| - 1], k, d);
      InsertOrdered(s[|s| - 1], SortBy(s[..|s| - 1], k, d), k, d);
    }
  }

  function HasKey(k: SortKey, v: string): ComplianceRecord -> bool {
    r => KeyOf(r, k) == v
  }

  lemma {:induction false} InsertStable(x: ComplianceRecord, s: seq<ComplianceRecord>, k: SortKey, d: Direction, v: string)
    requires Ordered(s, k, d)
    ensures Filter(Insert(x, s, k, d), HasKey(k, v))
         == Filter(s, HasKey(k, v)) + (if KeyOf(x, k) == v then [x] else [])
    decreases |s|
  {
    var p := HasKey(k, v);
    if s == [] {
    } else if Before(x, s[0], k, d) {
      assert Insert(x, s, k, d) == [x] + s;
      assert ([x] + s)[1..] == s;
      if KeyOf(x, k) == v {
        BeforeIrreflexive(s[0], k, d);
        forall y | y in s ensures !p(y) {
          var j :| 0 <= j < |s| && s[j] == y;
          assert KeyOf(s[j], k) != KeyOf(x, k);
        }
        FilterNone(s, p);
      }
    } else {
      var t := Insert(x, s[1..], k, d);
      InsertStable(x, s[1..], k, d, v);
      assert ([s[0]] + t)[1..] == t;
    }
  }

  /** Rows with equal keys keep their relative order: the sort is stable. */
  lemma {:induction false} SortStable(s: seq<ComplianceRecord>, k: SortKey, d: Direction, v: string)
    ensures Filter(SortBy(s, k, d), HasKey(k, v)) == Filter(s, HasKey(k, v))
    decreases |s|
  {
    if s != [] {
      var init := s[..|s| - 1];
      var x := s[|s| - 1];
      assert s == init + [x];
      var p := HasKey(k, v);
      var sorted := SortBy(init, k, d);
      assert SortBy(s, k, d) == Insert(x, sorted, k, d);
      SortStable(init, k, d, v);
      SortOrdered(init, k, d);
      InsertStable(x, sorted, k, d, v);
      assert Filter(SortBy(s, k, d), p) == Filter(init, p) + (if KeyOf(x, k) == v then [x] else []);
      assert Filter([x], p) == (if KeyOf(x, k) == v then [x] else []);
      FilterAppend(init, [x], p);
    }
  }

  /** The rows the table shows before pagination. */
  function FilteredAndSorted(records: seq<ComplianceRecord>, f: Filters, c: SortConfig): seq<ComplianceRecord> {
    var filtered := Filter(records, MatchesFilters(f));
    match c.key
    case None => filtered
    case Some(k) => SortBy(filtered, k, c.direction)
  }

  /** A record is shown exactly when it is in the list and passes every filter. */
  lemma FilteredMembers(records: seq<ComplianceRecord>, f: Filters, c: SortConfig, r: ComplianceRecord)
    ensures r in FilteredAndSorted(records, f, c) <==> r in records && Matches(r, f)
  {
    var filtered := Filter(records, MatchesFilters(f));
    assert r in filtered <==> r in records && MatchesFilters(f)(r);
    if c.key.Some? {
      var out := SortBy(filtered, c.key.value, c.direction);
      assert FilteredAndSorted(records, f, c) == out;
      assert r in out <==> r in multiset(out);
      assert r in filtered <==> r in multiset(filtered);
    }
  }

  /** Without a sort key the rows keep the order of the record list. */
  lemma UnsortedKeepsOrder(records: seq<ComplianceRecord>, f: Filters, c: SortConfig)
    requires c.key == None
    ensures IsSubsequence(FilteredAndSorted(records, f, c), records)
  {
    FilterIsSubsequence(records, MatchesFilters(f));
  }

  /**
   * With a sort key the rows are a permutation of the filtered rows,
   * ordered on the key in the chosen direction, and rows with equal keys
   * keep their order.
   */
  lemma SortedView(records: seq<ComplianceRecord>, f: Filters, c: SortConfig, v: string)
    requires c.key.Some?
    ensures var out := FilteredAndSorted(records, f, c);
      && multiset(out) == multiset(Filter(records, MatchesFilters(f)))
      && Ordered(out, c.key.value, c.direction)
      && Filter(out, HasKey(c.key.value, v)) == Filter(Filter(records, MatchesFilters(f)), HasKey(c.key.value, v))
  {
    var filtered := Filter(records, MatchesFilters(f));
    SortOrdered(filtered, c.key.value, c.direction);
    SortStable(filtered, c.key.value, c.direction, v);
  }

  /** A column header click: the same column while ascending turns descending, anything else sorts ascending. */
  function HandleSort(prev: SortConfig, k: SortKey): (r: SortConfig)
    ensures r.key == Some(k)
    ensures r.direction == Desc <==> prev.key == Some(k) && prev.direction == Asc
  {
    SortConfig(Some(k), if prev.key == Some(k) && prev.direction == Asc then Desc else Asc)
  }

  /** On the sorted column, two clicks return to the same order. */
  lemma HandleSortTwice(prev: SortConfig, k: SortKey)
    requires prev.key == Some(k)
    ensures HandleSort(HandleSort(prev, k), k) == prev
  {
  }

  // ---------------------------------------------------------------------
  // Pagination
  // ---------------------------------------------------------------------

  /** The rows-per-page choices. */
  const PageSizes: set<nat> := {5, 10, 20, 50}

  lemma CeilDivFacts(n: nat, k: nat)
    requires k > 0
    ensures (n + k - 1) / k * k >= n
    ensures (n + k - 1) / k == 0 || ((n + k - 1) / k - 1) * k < n
  {
    var q := (n + k - 1) / k;
    assert n + k - 1 == q * k + (n + k - 1) % k;
    assert (q - 1) * k == q * k - k;
  }

  /** Math.ceil(n / k): the fewest pages of k rows that hold n rows. */
  function TotalPages(n: nat, k: nat): (t: nat)
    requires k > 0
    ensures t * k >= n
    ensures t == 0 || (t - 1) * k < n
  {
    CeilDivFacts(n, k);
    (n + k - 1) / k
  }

  /** An index argument of Array.prototype.slice, resolved against length n. */
  function SliceIndex(x: int, n: nat): (r: nat)
    ensures r <= n
  {
    if x < 0 then (if n + x < 0 then 0 else n + x)
    else if x > n then n
    else x
  }

  /** Array.prototype.slice(b, e), negative indices counting from the end. */
  function Slice<T>(s: seq<T>, b: int, e: int): (r: seq<T>)
    ensures |r| <= |s|
  {
    var i := SliceIndex(b, |s|);
    var j := SliceIndex(e, |s|);
    if j <= i then [] else s[i..j]
  }

  /** The rows of page p. */
  function Page<T>(s: seq<T>, p: int, k: nat): seq<T> {
    Slice(s, (p - 1) * k, p * k)
  }

  /** A page never holds more than k rows, whatever the page number. */
  lemma PageAtMost<T>(s: seq<T>, p: int, k: nat)
    ensures |Page(s, p, k)| <= k
  {
    assert (p - 1) * k == p * k - k;
  }

  /** Page p (from 1) is the window [(p-1)k, pk) of the rows, clipped to the end. */
  lemma PageWindow<T>(s: seq<T>, p: int, k: nat)
    requires p >= 1
    ensures var lo := if (p - 1) * k < |s| then (p - 1) * k else |s|;
      var hi := if p * k < |s| then p * k else |s|;
      lo <= hi && Page(s, p, k) == s[lo..hi]
  {
    assert (p - 1) * k == p * k - k;
    assert (p - 1) * k >= 0;
  }

  /** Pages 1 to totalPages have rows and later pages are empty. */
  lemma PageNonEmptyIff<T>(s: seq<T>, p: int, k: nat)
    requires k > 0 && p >= 1
    ensures Page(s, p, k) != [] <==> p <= TotalPages(|s|, k)
  {
    var t := TotalPages(|s|, k);
    PageWindow(s, p, k);
    assert (p - 1) * k == p * k - k;
    if p <= t {
      MulMonotone(p - 1, t - 1, k);
    } else {
      MulMonotone(t, p - 1, k);
    }
  }

  lemma MulMonotone(a: int, b: int, k: nat)
    requires a <= b
    ensures a * k <= b * k
  {
    assert b * k - a * k == (b - a) * k;
  }

  /** Row i is row i % k of page i / k + 1, a page within range. */
  lemma RowOnPage<T>(s: seq<T>, i: nat, k: nat)
    requires k > 0 && i < |s|
    ensures var p := i / k + 1;
      && 1 <= p <= TotalPages(|s|, k)
      && i % k < |Page(s, p, k)|
      && Page(s, p, k)[i % k] == s[i]
  {
    var p := i / k + 1;
    assert i == (i / k) * k + i % k;
    assert (p - 1) * k == (i / k) * k;
    assert p * k == (i / k) * k + k;
    PageWindow(s, p, k);
    PageNonEmptyIff(s, p, k);
  }

  // ---------------------------------------------------------------------
  // Page navigation
  // ---------------------------------------------------------------------

  /** "Previous": one page back, never below 1. */
  function PrevPage(p: int): (r: int)
    ensures r >= 1
    ensures p > 1 ==> r < p
  {
    if p - 1 > 1 then p - 1 else 1
  }

  /** "Next" as written: one page on, never beyond totalPages. */
  function NextPage(p: int, t: nat): (r: int)
    ensures r <= t
    ensures r <= p + 1
  {
    if t < p + 1 then t else p + 1
  }

  /** "First" and "Previous" are disabled on page 1. */
  predicate AtFirst(p: int) {
    p == 1
  }

  /** "Next" and "Last" are disabled on page totalPages. */
  predicate AtLast(p: int, t: nat) {
    p == t
  }

  /** On a page in range, an enabled Previous or Next moves exactly one page. */
  lemma NavigationSteps(p: int, t: nat)
    requires 1 <= p <= t
    ensures !AtFirst(p) ==> PrevPage(p) == p - 1
    ensures !AtLast(p, t) ==> NextPage(p, t) == p + 1
    ensures 1 <= PrevPage(p) <= t && 1 <= NextPage(p, t) <= t
  {
  }

  /**
   * With no matching rows totalPages is 0, yet Next and Last stay enabled
   * on page 1 and lead to page 0, which shows no rows even once rows match
   * again.
   */
  lemma ZeroPagesReachPageZero<T>(s: seq<T>, k: nat)
    requires 0 < k
    ensures TotalPages(0, k) == 0
    ensures !AtLast(1, TotalPages(0, k)) && NextPage(1, TotalPages(0, k)) == 0
    ensures Page(s, 0, k) == []
  {
  }

  /** "Next" with the page kept at 1 or more. */
  function NextPageClamped(p: int, t: nat): (r: int)
    ensures r >= 1
    ensures r <= (if t > 1 then t else 1)
  {
    var n := NextPage(p, t);
    if n < 1 then 1 else n
  }

  /** "Last" with the page kept at 1 or more. */
  function LastPageClamped(t: nat): (r: int)
    ensures r >= 1
  {
    if t < 1 then 1 else t
  }

  /**
   * The clamped buttons keep the current page at 1 or more, agree with the
   * buttons as written whenever totalPages is at least 1, and from a page
   * in range an enabled Next still moves one page on.
   */
  lemma ClampedNavigation(p: int, t: nat)
    requires p >= 1
    ensures NextPageClamped(p, t) >= 1 && LastPageClamped(t) >= 1
    ensures t >= 1 ==> NextPageClamped(p, t) == NextPage(p, t) && LastPageClamped(t) == t
    ensures p < t ==> NextPageClamped(p, t) == p + 1
  {
  }

  // ---------------------------------------------------------------------
  // Selection
  // ---------------------------------------------------------------------

  /** A row checkbox: a selected id is removed, another one appended. */
  function ToggleSelection(sel: seq<string>, id: string): (r: seq<string>)
    ensures id in r <==> id !in sel
    ensures forall x :: x != id ==> (x in r <==> x in sel)
  {
    if id in sel then Filter(sel, IsNot(id)) else sel + [id]
  }

  /** Ticking and unticking a row that was not selected restores the selection exactly. */
  lemma ToggleTwiceAbsent(sel: seq<string>, id: string)
    requires id !in sel
    ensures ToggleSelection(ToggleSelection(sel, id), id) == sel
  {
    FilterAppend(sel, [id], IsNot(id));
    FilterAll(sel, IsNot(id));
    assert Filter([id], IsNot(id)) == [];
  }

  /** Unticking and reticking a selected row moves it to the end and keeps the members. */
  lemma ToggleTwicePresent(sel: seq<string>, id: string)
    requires id in sel
    ensures ToggleSelection(ToggleSelection(sel, id), id) == Filter(sel, IsNot(id)) + [id]
    ensures forall x :: x in ToggleSelection(ToggleSelection(sel, id), id) <==> x in sel
  {
  }

  /** A selection without repeats stays without repeats. */
  lemma ToggleKeepsDistinct(sel: seq<string>, id: string)
    requires Distinct(sel)
    ensures Distinct(ToggleSelection(sel, id))
  {
    if id in sel {
      FilterKeepsDistinct(sel, IsNot(id));
    }
  }

  function PageIds(page: seq<ComplianceRecord>): (r: seq<string>)
    ensures |r| == |page|
    ensures forall i :: 0 <= i < |page| ==> r[i] == page[i].id
  {
    Map(page, (rec: ComplianceRecord) => rec.id)
  }

  /** The header checkbox as written: lengths equal and the page non-empty. */
  predicate HeaderChecked(sel: seq<string>, page: seq<ComplianceRecord>) {
    |sel| == |page| && |page| > 0
  }

  /** The select-all handler as written: equal lengths clear, otherwise the page's ids. */
  function SelectAll(sel: seq<string>, page: seq<ComplianceRecord>): (r: seq<string>)
    ensures |sel| == |page| ==> r == []
    ensures |sel| != |page| ==> r == PageIds(page)
  {
    if |sel| == |page| then [] else PageIds(page)
  }

  /** Every row of the page is selected. */
  predicate AllSelected(sel: seq<string>, page: seq<ComplianceRecord>) {
    forall i :: 0 <= i < |page| ==> page[i].id in sel
  }

  /**
   * One selected row of another page and a page of one unselected row:
   * the header shows checked, and select-all clears the selection instead
   * of selecting the row.
   */
  lemma SelectAllComparesLengths(a: ComplianceRecord, b: ComplianceRecord)
    requires a.id != b.id
    ensures HeaderChecked([a.id], [b])
    ensures !AllSelected([a.id], [b])
    ensures SelectAll([a.id], [b]) == [] && !AllSelected(SelectAll([a.id], [b]), [b])
  {
    assert [b][0] == b && b.id !in [a.id];
  }

  /** The header checkbox deciding on the ids of the page. */
  predicate HeaderCheckedFixed(sel: seq<string>, page: seq<ComplianceRecord>) {
    |page| > 0 && AllSelected(sel, page)
  }

  /** Select-all deciding on the ids: a fully selected page is cleared, any other is selected. */
  function SelectAllFixed(sel: seq<string>, page: seq<ComplianceRecord>): (r: seq<string>)
    ensures HeaderCheckedFixed(sel, page) ==> r == []
    ensures !HeaderCheckedFixed(sel, page) ==> r == PageIds(page)
  {
    if HeaderCheckedFixed(sel, page) then [] else PageIds(page)
  }

  /** select-all flips the header checkbox of a non-empty page and the rows with it. */
  lemma SelectAllFixedFlips(sel: seq<string>, page: seq<ComplianceRecord>)
    requires page != []
    ensures HeaderCheckedFixed(SelectAllFixed(sel, page), page) <==> !HeaderCheckedFixed(sel, page)
    ensures !HeaderCheckedFixed(sel, page) ==> AllSelected(SelectAllFixed(sel, page), page)
    ensures HeaderCheckedFixed(sel, page) ==> forall i :: 0 <= i < |page| ==> page[i].id !in SelectAllFixed(sel, page)
  {
    if HeaderCheckedFixed(sel, page) {
      assert page[0].id !in SelectAllFixed(sel, page);
    } else {
      var r := PageIds(page);
      forall i | 0 <= i < |page| ensures page[i].id in r {
        assert r[i] == page[i].id;
      }
    }
  }
}
