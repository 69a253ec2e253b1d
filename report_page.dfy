/** The employee report page: the search filter, the sort by name, score or
    number of assessments, the pagination with its window of page buttons, the
    summary counts, and the handlers that change the page's state. */
module ReportPage {
  import opened Wrappers
  import opened Text
  import opened Seqs
  import opened Paging
  import opened JsNumber
  import opened ReportApi

  /** A calendar date as `Date` exposes it: `getMonth()` counts from 0. */
  datatype CalendarDate = CalendarDate(year: int, month: int, day: int)

  /** `formatDate`: `YYYY-MM-DD` with the month and the day padded to two digits. */
  function FormatDate(d: CalendarDate): (r: string)
    ensures 0 <= d.month < 12 && 1 <= d.day <= 31 ==>
      |r| == |IntToString(d.year)| + 6 && r[|r| - 3] == '-' && r[|r| - 6] == '-'
  {
    IntToString(d.year) + "-" + Pad2(d.month + 1) + "-" + Pad2(d.day)
  }

  /** A formatted date of a year from 0 on splits at `-` into the year, the
      month counted from 1 and the day, which read back as those numbers. */
  lemma FormatDateRoundTrip(d: CalendarDate)
    requires d.year >= 0 && 0 <= d.month < 12 && 1 <= d.day <= 31
    ensures var parts := Split(FormatDate(d), '-');
      |parts| == 3 && |parts[1]| == 2 && |parts[2]| == 2 &&
      ParseInt(parts[0]) == Num(d.year) && ParseInt(parts[1]) == Num(d.month + 1) && ParseInt(parts[2]) == Num(d.day)
  {
    var y, m, dd := IntToString(d.year), Pad2(d.month + 1), Pad2(d.day);
    var parts := [y, m, dd];
    DigitsExcludeDash(y);
    DigitsExcludeDash(m);
    DigitsExcludeDash(dd);
    assert Join(parts, '-') == FormatDate(d) by {
      assert parts[1..] == [m, dd] && [m, dd][1..] == [dd];
      assert Join([m, dd], '-') == m + "-" + dd;
    }
    SplitJoin(parts, '-');
    ParseIntRoundTrip(d.year);
    ParseDigits(m);
    ParseDigits(dd);
  }

  lemma DigitsExcludeDash(s: string)
    requires IsDigits(s)
    ensures '-' !in s
  {
  }

  /** The search test of one report: the lowercased name or e-mail contains the
      lowercased search, or the id's decimal text contains the search as typed. */
  predicate Matches(search: string, r: EmployeeReport) {
    Contains(Lower(r.employee.name), Lower(search))
    || Contains(Lower(r.employee.email), Lower(search))
    || Contains(IntToString(r.employee.id), search)
  }

  function SearchFilter(reports: seq<EmployeeReport>, search: string): (r: seq<EmployeeReport>)
    ensures |r| <= |reports|
  {
    Filter(reports, (x: EmployeeReport) => Matches(search, x))
  }

  /** The filter keeps, with their multiplicity and in their order, exactly the
      reports that match; an empty search keeps every report. */
  lemma SearchFilterExact(reports: seq<EmployeeReport>, search: string)
    ensures forall x :: x in SearchFilter(reports, search) <==> x in reports && Matches(search, x)
    ensures forall x :: multiset(SearchFilter(reports, search))[x] == if Matches(search, x) then multiset(reports)[x] else 0
    ensures search == "" ==> SearchFilter(reports, search) == reports
  {
    FilterExact(reports, (x: EmployeeReport) => Matches(search, x));
    if search == "" {
      forall i | 0 <= i < |reports| ensures Matches(search, reports[i]) {
        ContainsEmpty(Lower(reports[i].employee.name));
      }
      FilterAll(reports, (x: EmployeeReport) => Matches(search, x));
    }
  }

  datatype SortField = ByName | ByScore | ByAssessments

  /** `localeCompare`, with the order of Unicode code points standing in for
      the locale's collation. */
  function NameOrder(a: string, b: string): real {
    if Less(a, b) then -1.0 else if Less(b, a) then 1.0 else 0.0
  }

  const NO_SCORE: real := -1.0

  /** The sort's comparison function for `sortBy` and `sortOrder`: reports
      without a score come last whatever the order; every other comparison is
      negated for the descending order. */
  function Compare(field: SortField, order: SortOrder, a: EmployeeReport, b: EmployeeReport): real {
    if field == ByScore && a.averageScore == NO_SCORE && b.averageScore != NO_SCORE then 1.0
    else if field == ByScore && a.averageScore != NO_SCORE && b.averageScore == NO_SCORE then -1.0
    else
      var comparison :=
        match field
        case ByName => NameOrder(a.employee.name, b.employee.name)
        case ByScore => a.averageScore - b.averageScore
        case ByAssessments => (a.totalAssessments - b.totalAssessments) as real;
      if order == Asc then comparison else -comparison
  }

  /** The comparison is antisymmetric: swapping the two reports negates it. */
  lemma CompareAntisymmetric(field: SortField, order: SortOrder, a: EmployeeReport, b: EmployeeReport)
    ensures Compare(field, order, a, b) == -Compare(field, order, b, a)
  {
    LessTrichotomy(a.employee.name, b.employee.name);
  }

  /** "Not after" is transitive, so the comparison is a consistent order. */
  lemma CompareTransitive(field: SortField, order: SortOrder, a: EmployeeReport, b: EmployeeReport, c: EmployeeReport)
    requires Compare(field, order, a, b) <= 0.0 && Compare(field, order, b, c) <= 0.0
    ensures Compare(field, order, a, c) <= 0.0
  {
    if field == ByName {
      var x, y, z := a.employee.name, b.employee.name, c.employee.name;
      LessTrichotomy(x, y);
      LessTrichotomy(y, z);
      LessTrichotomy(x, z);
      if order == Asc {
        if Less(z, x) {
          if Less(y, z) { LessTransitive(y, z, x); } else if Less(x, y) { LessTransitive(z, x, y); }
        }
      } else {
        if Less(x, z) {
          if Less(x, y) { LessTransitive(z, x, y); } else if Less(y, z) { LessTransitive(y, z, x); }
          if Less(y, x) { LessTransitive(y, x, z); }
        }
      }
    }
  }

  /** Scores of -1 go last in both directions; between two reports that both
      have a score, or both lack one, or when sorting by another field, the
      descending comparison is the negated ascending one. */
  lemma ScoreOrderSymmetry(field: SortField, a: EmployeeReport, b: EmployeeReport)
    ensures field == ByScore && a.averageScore == NO_SCORE && b.averageScore != NO_SCORE ==>
      Compare(field, Asc, a, b) > 0.0 && Compare(field, Desc, a, b) > 0.0
    ensures !(field == ByScore && (a.averageScore == NO_SCORE) != (b.averageScore == NO_SCORE)) ==>
      Compare(field, Desc, a, b) == -Compare(field, Asc, a, b)
  {
  }

  predicate SortedBy(field: SortField, order: SortOrder, s: seq<EmployeeReport>) {
    forall i, j :: 0 <= i < j < |s| ==> Compare(field, order, s[i], s[j]) <= 0.0
  }

  /** Inserts `x` before the first element it does not come after. */
  function Insert(field: SortField, order: SortOrder, x: EmployeeReport, s: seq<EmployeeReport>): seq<EmployeeReport> {
    if s == [] then [x]
    else if Compare(field, order, x, s[0]) <= 0.0 then [x] + s
    else [s[0]] + Insert(field, order, x, s[1..])
  }

  lemma {:induction false} InsertSorted(field: SortField, order: SortOrder, x: EmployeeReport, s: seq<EmployeeReport>)
    requires SortedBy(field, order, s)
    ensures SortedBy(field, order, Insert(field, order, x, s))
    ensures multiset(Insert(field, order, x, s)) == multiset(s) + multiset{x}
  {
    InsertPermutes(field, order, x, s);
    if s == [] {
    } else if Compare(field, order, x, s[0]) <= 0.0 {
      forall j | 0 <= j < |s| ensures Compare(field, order, x, s[j]) <= 0.0 {
        if j > 0 { CompareTransitive(field, order, x, s[0], s[j]); }
      }
    } else {
      InsertSorted(field, order, x, s[1..]);
      CompareAntisymmetric(field, order, x, s[0]);
      InsertAfter(field, order, s[0], x, s[1..]);
    }
  }

  /** Inserting adds `x` once and keeps everything else. */
  lemma {:induction false} InsertPermutes(field: SortField, order: SortOrder, x: EmployeeReport, s: seq<EmployeeReport>)
    ensures multiset(Insert(field, order, x, s)) == multiset(s) + multiset{x}
  {
    if s != [] && Compare(field, order, x, s[0]) > 0.0 {
      InsertPermutes(field, order, x, s[1..]);
      assert s == [s[0]] + s[1..];
    }
  }

  /** What comes before `x` and before every element of `s` comes before every
      element of the insertion. */
  lemma {:induction false} InsertAfter(field: SortField, order: SortOrder, lo: EmployeeReport, x: EmployeeReport, s: seq<EmployeeReport>)
    requires Compare(field, order, lo, x) <= 0.0
    requires forall j :: 0 <= j < |s| ==> Compare(field, order, lo, s[j]) <= 0.0
    ensures forall k :: 0 <= k < |Insert(field, order, x, s)| ==> Compare(field, order, lo, Insert(field, order, x, s)[k]) <= 0.0
  {
    if s != [] && Compare(field, order, x, s[0]) > 0.0 {
      InsertAfter(field, order, lo, x, s[1..]);
    }
  }

  /** `[...filtered].sort(compare)`: a sorted copy, each report as often as in
      the input. Equal reports keep their input order, as the stable sort does. */
  function SortReports(field: SortField, order: SortOrder, s: seq<EmployeeReport>): (r: seq<EmployeeReport>)
    ensures SortedBy(field, order, r)
    ensures multiset(r) == multiset(s)
  {
    if s == [] then []
    else
      var t := SortReports(field, order, s[1..]);
      InsertSorted(field, order, s[0], t);
      assert s == [s[0]] + s[1..];
      Insert(field, order, s[0], t)
  }

  /** `filteredAndSorted`: no reports yet gives an empty list. */
  function FilteredAndSorted(reports: Option<seq<EmployeeReport>>, search: string, field: SortField, order: SortOrder): seq<EmployeeReport> {
    match reports
    case None => []
    case Some(rs) => SortReports(field, order, SearchFilter(rs, search))
  }

  /** The list shown is a sorted permutation of the matching reports, and when
      sorting by score the reports without a score come after all others. */
  lemma FilteredAndSortedSpec(reports: seq<EmployeeReport>, search: string, field: SortField, order: SortOrder)
    ensures var r := FilteredAndSorted(Some(reports), search, field, order);
      && multiset(r) == multiset(SearchFilter(reports, search))
      && (forall x :: x in r <==> x in reports && Matches(search, x))
      && SortedBy(field, order, r)
      && (field == ByScore ==> forall i, j :: 0 <= i < j < |r| && r[i].averageScore == NO_SCORE ==> r[j].averageScore == NO_SCORE)
  {
    var r := FilteredAndSorted(Some(reports), search, field, order);
    SearchFilterExact(reports, search);
    forall x ensures x in r <==> x in reports && Matches(search, x) {
      assert x in r <==> x in multiset(r);
      assert x in SearchFilter(reports, search) <==> x in multiset(SearchFilter(reports, search));
    }
  }

  /** The page numbers shown: 1, the last page, and the pages next to the
      current one. */
  function PageWindow(page: int, totalPages: int): (w: seq<int>)
    ensures StrictlyIncreasing(w)
  {
    FilterIncreasing(Range(1, totalPages + 1), (p: int) => ShownPage(p, page, totalPages));
    Filter(Range(1, totalPages + 1), (p: int) => ShownPage(p, page, totalPages))
  }

  predicate ShownPage(p: int, page: int, totalPages: int) {
    p == 1 || p == totalPages || (p >= page - 1 && p <= page + 1)
  }

  /** A page number is shown exactly when it is a page and is the first, the
      last, or at most one away from the current page. */
  lemma PageWindowExact(page: int, totalPages: int, p: int)
    ensures p in PageWindow(page, totalPages) <==>
      1 <= p <= totalPages && (p == 1 || p == totalPages || page - 1 <= p <= page + 1)
  {
    FilterExact(Range(1, totalPages + 1), (q: int) => ShownPage(q, page, totalPages));
    InRange(1, totalPages + 1, p);
  }

  /** The ellipsis before the `idx`-th button. */
  predicate Ellipsis(w: seq<int>, idx: int)
    requires 0 <= idx < |w|
  {
    idx > 0 && w[idx - 1] != w[idx] - 1
  }

  /** An ellipsis stands before a button exactly when the page just before that
      button is a page that is not shown. */
  lemma EllipsisMarksGap(page: int, totalPages: int, idx: int)
    requires 0 <= idx < |PageWindow(page, totalPages)|
    ensures var w := PageWindow(page, totalPages);
      Ellipsis(w, idx) <==> idx > 0 && 1 <= w[idx] - 1 && w[idx] - 1 !in w
  {
    var w := PageWindow(page, totalPages);
    if idx > 0 {
      PageWindowExact(page, totalPages, w[idx - 1]);
    }
  }

  /** The summary above the table. */
  datatype Stats = Stats(total: nat, withAssessments: nat, averageScore: real)

  function SumScores(rs: seq<EmployeeReport>): real {
    if rs == [] then 0.0 else rs[0].averageScore + SumScores(rs[1..])
  }

  /** `reports.filter((r) => r.totalAssessments > 0)` */
  function Assessed(rs: seq<EmployeeReport>): (r: seq<EmployeeReport>)
    ensures forall x :: x in r <==> x in rs && x.totalAssessments > 0
    ensures forall x :: multiset(r)[x] == if x.totalAssessments > 0 then multiset(rs)[x] else 0
  {
    FilterExact(rs, (x: EmployeeReport) => x.totalAssessments > 0);
    Filter(rs, (x: EmployeeReport) => x.totalAssessments > 0)
  }

  /** `stats`: the number of reports, the number with an assessment, and the
      mean score of those, 0 when there is none. */
  function ComputeStats(reports: Option<seq<EmployeeReport>>): (s: Stats)
    ensures reports.None? ==> s == Stats(0, 0, 0.0)
    ensures reports.Some? ==> s.total == |reports.value| && s.withAssessments <= s.total
    ensures reports.Some? ==> s.withAssessments == |Assessed(reports.value)|
    ensures reports.Some? && s.withAssessments > 0 ==>
      s.averageScore == SumScores(Assessed(reports.value)) / (s.withAssessments as real)
    ensures s.withAssessments == 0 ==> s.averageScore == 0.0
  {
    match reports
    case None => Stats(0, 0, 0.0)
    case Some(rs) =>
      var w := Assessed(rs);
      Stats(|rs|, |w|, if |w| > 0 then SumScores(w) / (|w| as real) else 0.0)
  }

  lemma {:induction false} SumScoresBounds(rs: seq<EmployeeReport>, lo: real, hi: real)
    requires forall i :: 0 <= i < |rs| ==> lo <= rs[i].averageScore <= hi
    ensures (|rs| as real) * lo <= SumScores(rs) <= (|rs| as real) * hi
  {
    if rs != [] {
      SumScoresBounds(rs[1..], lo, hi);
    }
  }

  /** When every assessed report's score lies between `lo` and `hi`, so does the
      mean. */
  lemma AverageWithinBounds(rs: seq<EmployeeReport>, lo: real, hi: real)
    requires lo <= hi
    requires forall x :: x in rs && x.totalAssessments > 0 ==> lo <= x.averageScore <= hi
    ensures var s := ComputeStats(Some(rs)); s.withAssessments > 0 ==> lo <= s.averageScore <= hi
  {
    var w := Assessed(rs);
    if |w| > 0 {
      AssessedWithinBounds(rs, lo, hi);
      MeanWithinBounds(w, lo, hi);
    }
  }

  lemma MeanWithinBounds(w: seq<EmployeeReport>, lo: real, hi: real)
    requires |w| > 0
    requires forall i :: 0 <= i < |w| ==> lo <= w[i].averageScore <= hi
    ensures lo <= SumScores(w) / (|w| as real) <= hi
  {
    SumScoresBounds(w, lo, hi);
    DivideBounds(SumScores(w), |w| as real, lo, hi);
  }

  lemma AssessedWithinBounds(rs: seq<EmployeeReport>, lo: real, hi: real)
    requires forall x :: x in rs && x.totalAssessments > 0 ==> lo <= x.averageScore <= hi
    ensures forall i :: 0 <= i < |Assessed(rs)| ==> lo <= Assessed(rs)[i].averageScore <= hi
  {
    var w := Assessed(rs);
    forall i | 0 <= i < |w| ensures lo <= w[i].averageScore <= hi {
      assert w[i] in w;
    }
  }

  lemma DivideBounds(sum: real, n: real, lo: real, hi: real)
    requires n > 0.0 && n * lo <= sum <= n * hi
    ensures lo <= sum / n <= hi
  {
    assert sum / n * n == sum;
  }

  const PER_PAGE_OPTIONS: set<int> := {5, 10, 20, 50}

  /** The page's state and its event handlers. */
  class ReportView {
    var search: string
    var sortBy: SortField
    var sortOrder: SortOrder
    var perPage: int
    var page: int
    var startDate: string
    var endDate: string

    predicate Valid()
      reads this
    {
      perPage in PER_PAGE_OPTIONS && page >= 1
    }

    /** The initial state, with the default dates computed from the clock. */
    constructor (defaultStart: string, defaultEnd: string)
      ensures Valid()
      ensures search == "" && sortBy == ByScore && sortOrder == Desc && perPage == 10 && page == 1
      ensures startDate == defaultStart && endDate == defaultEnd
    {
      search := "";
      sortBy := ByScore;
      sortOrder := Desc;
      perPage := 10;
      page := 1;
      startDate := defaultStart;
      endDate := defaultEnd;
    }

    /** `handleSort(field)`: the same field flips the order, another field is
      taken in descending order; both go back to page 1. */
    method HandleSort(field: SortField)
      requires Valid()
      modifies this
      ensures Valid()
      ensures sortBy == field && page == 1
      ensures sortOrder == if old(sortBy) == field then (if old(sortOrder) == Asc then Desc else Asc) else Desc
      ensures search == old(search) && perPage == old(perPage) && startDate == old(startDate) && endDate == old(endDate)
    {
      if sortBy == field {
        sortOrder := if sortOrder == Asc then Desc else Asc;
      } else {
        sortBy := field;
        sortOrder := Desc;
      }
      page := 1;
    }

    method SetSearch(text: string)
      requires Valid()
      modifies this
      ensures Valid()
      ensures search == text && page == 1
      ensures sortBy == old(sortBy) && sortOrder == old(sortOrder) && perPage == old(perPage)
      ensures startDate == old(startDate) && endDate == old(endDate)
    {
      search := text;
      page := 1;
    }

    method SetStartDate(date: string)
      requires Valid()
      modifies this
      ensures Valid()
      ensures startDate == date && page == 1
      ensures search == old(search) && sortBy == old(sortBy) && sortOrder == old(sortOrder)
      ensures perPage == old(perPage) && endDate == old(endDate)
    {
      startDate := date;
      page := 1;
    }

    method SetEndDate(date: string)
      requires Valid()
      modifies this
      ensures Valid()
      ensures endDate == date && page == 1
      ensures search == old(search) && sortBy == old(sortBy) && sortOrder == old(sortOrder)
      ensures perPage == old(perPage) && startDate == old(startDate)
    {
      endDate := date;
      page := 1;
    }

    /** The "clear filter" button: both dates emptied, so the query carries
        neither. */
    method ClearDates()
      requires Valid()
      modifies this
      ensures Valid()
      ensures startDate == "" && endDate == "" && page == 1
      ensures search == old(search) && sortBy == old(sortBy) && sortOrder == old(sortOrder) && perPage == old(perPage)
    {
      startDate := "";
      endDate := "";
      page := 1;
    }

    method SetPerPage(n: int)
      requires Valid() && n in PER_PAGE_OPTIONS
      modifies this
      ensures Valid()
      ensures perPage == n && page == 1
      ensures search == old(search) && sortBy == old(sortBy) && sortOrder == old(sortOrder)
      ensures startDate == old(startDate) && endDate == old(endDate)
    {
      perPage := n;
      page := 1;
    }

    /** The "previous" button. */
    method Prev()
      requires Valid()
      modifies this
      ensures Valid()
      ensures page == PrevPage(old(page))
      ensures search == old(search) && sortBy == old(sortBy) && sortOrder == old(sortOrder) && perPage == old(perPage)
      ensures startDate == old(startDate) && endDate == old(endDate)
    {
      page := PrevPage(page);
    }

    /** The "next" button, shown only when there is more than one page. */
    method Next(totalPages: int)
      requires Valid() && totalPages > 1
      modifies this
      ensures Valid()
      ensures page == NextPage(old(page), totalPages)
      ensures search == old(search) && sortBy == old(sortBy) && sortOrder == old(sortOrder) && perPage == old(perPage)
      ensures startDate == old(startDate) && endDate == old(endDate)
    {
      page := NextPage(page, totalPages);
    }

    /** A page-number button. */
    method GoTo(p: int, totalPages: int)
      requires Valid() && p in PageWindow(page, totalPages)
      modifies this
      ensures Valid()
      ensures page == p && 1 <= p <= totalPages
      ensures search == old(search) && sortBy == old(sortBy) && sortOrder == old(sortOrder) && perPage == old(perPage)
      ensures startDate == old(startDate) && endDate == old(endDate)
    {
      PageWindowExact(page, totalPages, p);
      page := p;
    }

    /** The query the page sends: each date as `date || undefined`, and the
        current order. */
    method Query() returns (params: map<string, string>)
      ensures params == ReportParams(if startDate == "" then None else Some(startDate),
                                     if endDate == "" then None else Some(endDate), Some(sortOrder))
      ensures "startDate" in params <==> startDate != ""
      ensures "endDate" in params <==> endDate != ""
    {
      var s: Option<string> := if startDate == "" then None else Some(startDate);
      var e: Option<string> := if endDate == "" then None else Some(endDate);
      params := ReportParams(s, e, Some(sortOrder));
    }
  }
}
