/** The assessment table: search and status filter, pagination, the status
    choices and the status label. */
module AssessmentTable {
  import opened Text
  import opened Seqs
  import opened Paging
  import opened AssessmentTypes

  const ALL := "All"
  const PER_PAGE_OPTIONS: set<int> := {5, 10, 20}

  /** The search test: the lowercased employee or supervisor name contains the
      lowercased search, or the id's decimal text contains it. */
  predicate MatchesSearch(search: string, a: Assessment) {
    Contains(Lower(a.employee.name), Lower(search))
    || Contains(Lower(a.supervisor.name), Lower(search))
    || Contains(IntToString(a.assessmentId), Lower(search))
  }

  predicate HasStatus(statusFilter: string, a: Assessment) {
    statusFilter == ALL || a.status == statusFilter
  }

  /** `filtered`: the search filter, then the status filter. */
  function Filtered(list: seq<Assessment>, search: string, statusFilter: string): seq<Assessment> {
    Filter(Filter(list, (a: Assessment) => MatchesSearch(search, a)), (a: Assessment) => HasStatus(statusFilter, a))
  }

  /** The two filters keep, in order and with their multiplicity, exactly the
      assessments that pass both; an empty search with the filter "All" keeps
      the whole list. */
  lemma FilteredExact(list: seq<Assessment>, search: string, statusFilter: string)
    ensures Filtered(list, search, statusFilter) ==
      Filter(list, (a: Assessment) => MatchesSearch(search, a) && HasStatus(statusFilter, a))
    ensures forall a :: a in Filtered(list, search, statusFilter) <==>
      a in list && MatchesSearch(search, a) && (statusFilter == ALL || a.status == statusFilter)
    ensures forall a ::
              multiset(Filtered(list, search, statusFilter))[a]
              == if MatchesSearch(search, a) && HasStatus(statusFilter, a) then multiset(list)[a] else 0
    ensures search == "" && statusFilter == ALL ==> Filtered(list, search, statusFilter) == list
  {
    var both := (a: Assessment) => MatchesSearch(search, a) && HasStatus(statusFilter, a);
    FilterFilter(list, (a: Assessment) => MatchesSearch(search, a), (a: Assessment) => HasStatus(statusFilter, a), both);
    FilterExact(list, both);
    if search == "" && statusFilter == ALL {
      UnfilteredKeepsAll(list);
    }
  }

  lemma UnfilteredKeepsAll(list: seq<Assessment>)
    ensures Filtered(list, "", ALL) == list
  {
    var m := (a: Assessment) => MatchesSearch("", a);
    forall i | 0 <= i < |list| ensures m(list[i]) {
      ContainsEmpty(Lower(list[i].employee.name));
    }
    FilterAll(list, m);
    FilterAll(list, (a: Assessment) => HasStatus(ALL, a));
  }

  function StatusesOf(list: seq<Assessment>): (r: seq<string>)
    ensures |r| == |list| && forall i :: 0 <= i < |list| ==> r[i] == list[i].status
  {
    seq(|list|, i requires 0 <= i < |list| => list[i].status)
  }

  /** `statuses`: each status of the list once, in the order of first
      occurrence. */
  function Statuses(list: seq<Assessment>): (r: seq<string>)
    ensures forall st :: st in r <==> exists i :: 0 <= i < |list| && list[i].status == st
    ensures NoDuplicates(r)
    ensures forall i, j :: 0 <= i < j < |r| ==>
      r[i] in StatusesOf(list) && r[j] in StatusesOf(list) &&
      FirstIndex(StatusesOf(list), r[i]) < FirstIndex(StatusesOf(list), r[j])
  {
    var sts := StatusesOf(list);
    DistinctFirstOccurrenceOrder(sts);
    assert forall st :: st in sts <==> exists i :: 0 <= i < |list| && list[i].status == st by {
      forall st ensures st in sts <==> exists i :: 0 <= i < |list| && list[i].status == st {
        if st in sts {
          var i :| 0 <= i < |sts| && sts[i] == st;
          assert list[i].status == st;
        }
      }
    }
    Distinct(sts)
  }

  /** The status cell's text. */
  function StatusLabel(status: string): string {
    if status == "Completed" then "Hoàn thành"
    else if status == "InProgress" then "Đang tiến hành"
    else status
  }

  /** Only the two known statuses are translated; every other status is shown
      as it is. */
  lemma StatusLabelTranslatesKnownOnly(status: string)
    ensures StatusLabel(status) != status <==> status == "Completed" || status == "InProgress"
    ensures status == "Completed" ==> StatusLabel(status) == "Hoàn thành"
    ensures status == "InProgress" ==> StatusLabel(status) == "Đang tiến hành"
  {
  }

  /** The table's state. */
  class AssessmentList {
    var search: string
    var statusFilter: string
    var perPage: int
    var page: int

    predicate Valid()
      reads this
    {
      perPage in PER_PAGE_OPTIONS && page >= 1
    }

    constructor ()
      ensures Valid()
      ensures search == "" && statusFilter == ALL && perPage == 5 && page == 1
    {
      search := "";
      statusFilter := ALL;
      perPage := 5;
      page := 1;
    }

    method SetSearch(text: string)
      requires Valid()
      modifies this
      ensures Valid()
      ensures search == text && page == 1
      ensures statusFilter == old(statusFilter) && perPage == old(perPage)
    {
      search := text;
      page := 1;
    }

    method SetStatusFilter(status: string)
      requires Valid()
      modifies this
      ensures Valid()
      ensures statusFilter == status && page == 1
      ensures search == old(search) && perPage == old(perPage)
    {
      statusFilter := status;
      page := 1;
    }

    method SetPerPage(n: int)
      requires Valid() && n in PER_PAGE_OPTIONS
      modifies this
      ensures Valid()
      ensures perPage == n && page == 1
      ensures search == old(search) && statusFilter == old(statusFilter)
    {
      perPage := n;
      page := 1;
    }

    method Prev()
      requires Valid()
      modifies this
      ensures Valid()
      ensures page == PrevPage(old(page))
      ensures search == old(search) && statusFilter == old(statusFilter) && perPage == old(perPage)
    {
      page := PrevPage(page);
    }

    /** The "next" button, shown only when there is more than one page. */
    method Next(totalPages: int)
      requires Valid() && totalPages > 1
      modifies this
      ensures Valid()
      ensures page == NextPage(old(page), totalPages)
      ensures search == old(search) && statusFilter == old(statusFilter) && perPage == old(perPage)
    {
      page := NextPage(page, totalPages);
    }

    /** `totalPages` and `currentData`. */
    method CurrentData(list: seq<Assessment>) returns (totalPages: nat, rows: seq<Assessment>)
      requires Valid()
      ensures var f := Filtered(list, search, statusFilter);
        && |f| <= totalPages * perPage && (totalPages > 0 ==> (totalPages - 1) * perPage < |f|)
        && rows == f[Min((page - 1) * perPage, |f|)..Min(page * perPage, |f|)]
    {
      var f := Filtered(list, search, statusFilter);
      totalPages := TotalPages(|f|, perPage);
      PageOfRows(f, page, perPage);
      rows := PageOf(f, page, perPage);
    }
  }
}
