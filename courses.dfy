/** The employee list with its "new assessment" modal: the search and status
    filter, the current page, and the list of score entries the modal edits. */
module Courses {
  import opened Text
  import opened Seqs
  import opened Paging
  import opened JsNumber

  /** An employee row; `joinedAt` is kept as its date text. */
  datatype Employee = Employee(id: string, name: string, position: string, status: string, joinedAt: string)

  /** One score entry of the modal; the two numeric fields hold `Number(input)`. */
  datatype ScoreEntry = ScoreEntry(criteriaId: Number, score: Number, comment: string)

  /** The value an input hands to `handleScoreChange`, tagged by the field it is for. */
  datatype FieldValue = CriteriaIdValue(n: Number) | ScoreValue(n: Number) | CommentValue(text: string)

  const ALL := "All"
  const PER_PAGE_OPTIONS: set<int> := {5, 10, 20}
  const DEFAULT_ENTRY := ScoreEntry(Num(0), Num(0), "")

  /** The search test: the lowercased name or id contains the lowercased search. */
  predicate MatchesSearch(search: string, e: Employee) {
    Contains(Lower(e.name), Lower(search)) || Contains(Lower(e.id), Lower(search))
  }

  predicate HasStatus(statusFilter: string, e: Employee) {
    statusFilter == ALL || e.status == statusFilter
  }

  /** `filtered`: the search filter, then the status filter. */
  function Filtered(list: seq<Employee>, search: string, statusFilter: string): seq<Employee> {
    Filter(Filter(list, (e: Employee) => MatchesSearch(search, e)), (e: Employee) => HasStatus(statusFilter, e))
  }

  /** The two filters keep, in order and with their multiplicity, exactly the
      employees that pass both. */
  lemma FilteredExact(list: seq<Employee>, search: string, statusFilter: string)
    ensures Filtered(list, search, statusFilter) ==
      Filter(list, (e: Employee) => MatchesSearch(search, e) && HasStatus(statusFilter, e))
    ensures forall e :: e in Filtered(list, search, statusFilter) <==>
      e in list && MatchesSearch(search, e) && (statusFilter == ALL || e.status == statusFilter)
    ensures forall e ::
              multiset(Filtered(list, search, statusFilter))[e]
              == if MatchesSearch(search, e) && HasStatus(statusFilter, e) then multiset(list)[e] else 0
  {
    var both := (e: Employee) => MatchesSearch(search, e) && HasStatus(statusFilter, e);
    FilterFilter(list, (e: Employee) => MatchesSearch(search, e), (e: Employee) => HasStatus(statusFilter, e), both);
    FilterExact(list, both);
  }

  /** `handleAddScore`'s list: one default entry appended. */
  function WithEntryAdded(scores: seq<ScoreEntry>): (r: seq<ScoreEntry>)
    ensures |r| == |scores| + 1 && r[..|scores|] == scores && r[|scores|] == DEFAULT_ENTRY
  {
    scores + [DEFAULT_ENTRY]
  }

  /** `handleScoreChange`'s entry: the one field the value is for replaced. */
  function WithField(entry: ScoreEntry, v: FieldValue): (r: ScoreEntry)
    ensures v.CriteriaIdValue? ==> r.criteriaId == v.n && r.score == entry.score && r.comment == entry.comment
    ensures v.ScoreValue? ==> r.score == v.n && r.criteriaId == entry.criteriaId && r.comment == entry.comment
    ensures v.CommentValue? ==> r.comment == v.text && r.criteriaId == entry.criteriaId && r.score == entry.score
  {
    match v
    case CriteriaIdValue(n) => entry.(criteriaId := n)
    case ScoreValue(n) => entry.(score := n)
    case CommentValue(text) => entry.(comment := text)
  }

  /** `handleScoreChange`'s list: entry `index` changed in one field. */
  function WithFieldAt(scores: seq<ScoreEntry>, index: nat, v: FieldValue): (r: seq<ScoreEntry>)
    requires index < |scores|
    ensures |r| == |scores|
    ensures r[index] == WithField(scores[index], v)
    ensures forall k :: 0 <= k < |scores| && k != index ==> r[k] == scores[k]
  {
    scores[index := WithField(scores[index], v)]
  }

  /** Removing the entry just added gives the list back; a field written and
      then written again keeps only the last value. */
  lemma EditsUndo(scores: seq<ScoreEntry>, index: nat, v: FieldValue, w: FieldValue)
    requires index < |scores|
    ensures RemoveAt(WithEntryAdded(scores), |scores|) == scores
    ensures v.CriteriaIdValue? == w.CriteriaIdValue? && v.ScoreValue? == w.ScoreValue? ==>
      WithFieldAt(WithFieldAt(scores, index, v), index, w) == WithFieldAt(scores, index, w)
  {
    var added := WithEntryAdded(scores);
    assert RemoveAt(added, |scores|) == scores;
  }

  /** A score entry passes when it has a positive criterion id and score and a
      non-blank comment. */
  predicate EntryValid(e: ScoreEntry) {
    e.criteriaId.Num? && e.criteriaId.value > 0 && e.score.Num? && e.score.value > 0 && Trim(e.comment) != ""
  }

  /** The submit test: an employee id, at least one entry, and every entry
      valid. */
  predicate Submittable(employeeId: string, scores: seq<ScoreEntry>) {
    employeeId != "" && |scores| > 0 && forall i :: 0 <= i < |scores| ==> EntryValid(scores[i])
  }

  /** The form the modal opens with is never submittable: its only entry
      has criterion id 0; nor is a form with a blank comment anywhere. */
  lemma FreshFormIsRejected(employeeId: string, scores: seq<ScoreEntry>, i: nat)
    ensures !Submittable(employeeId, [DEFAULT_ENTRY])
    ensures i < |scores| && IsBlank(scores[i].comment) ==> !Submittable(employeeId, scores)
  {
    assert !EntryValid([DEFAULT_ENTRY][0]);
    if i < |scores| && IsBlank(scores[i].comment) {
      TrimEmptyIffBlank(scores[i].comment);
    }
  }

  /** The page's state. */
  class EmployeeList {
    var search: string
    var statusFilter: string
    var perPage: int
    var page: int
    var isModalOpen: bool
    var employeeId: string
    var scores: seq<ScoreEntry>

    /** Every action keeps at least one score entry. */
    predicate Valid()
      reads this
    {
      perPage in PER_PAGE_OPTIONS && page >= 1 && |scores| >= 1
    }

    constructor ()
      ensures Valid()
      ensures search == "" && statusFilter == ALL && perPage == 5 && page == 1
      ensures !isModalOpen && employeeId == "" && scores == [DEFAULT_ENTRY]
    {
      search := "";
      statusFilter := ALL;
      perPage := 5;
      page := 1;
      isModalOpen := false;
      employeeId := "";
      scores := [DEFAULT_ENTRY];
    }

    /** `handleOpenAssessmentModal(id)` */
    method OpenAssessmentModal(id: string)
      requires Valid()
      modifies this
      ensures Valid()
      ensures isModalOpen && employeeId == id && scores == [DEFAULT_ENTRY]
      ensures search == old(search) && statusFilter == old(statusFilter) && perPage == old(perPage) && page == old(page)
    {
      employeeId := id;
      scores := [DEFAULT_ENTRY];
      isModalOpen := true;
    }

    /** `handleCloseModal` */
    method CloseModal()
      requires Valid()
      modifies this
      ensures Valid()
      ensures !isModalOpen && employeeId == "" && scores == [DEFAULT_ENTRY]
      ensures search == old(search) && statusFilter == old(statusFilter) && perPage == old(perPage) && page == old(page)
    {
      isModalOpen := false;
      employeeId := "";
      scores := [DEFAULT_ENTRY];
    }

    /** `handleAddScore` */
    method AddScore()
      requires Valid()
      modifies this
      ensures Valid()
      ensures scores == WithEntryAdded(old(scores)) && employeeId == old(employeeId)
      ensures isModalOpen == old(isModalOpen)
      ensures search == old(search) && statusFilter == old(statusFilter) && perPage == old(perPage) && page == old(page)
    {
      scores := scores + [DEFAULT_ENTRY];
    }

    /** `handleRemoveScore(index)`, offered only while there is more than one
        entry. */
    method RemoveScore(index: int)
      requires Valid() && |scores| > 1
      modifies this
      ensures Valid()
      ensures scores == RemoveAt(old(scores), index) && employeeId == old(employeeId)
      ensures isModalOpen == old(isModalOpen)
      ensures search == old(search) && statusFilter == old(statusFilter) && perPage == old(perPage) && page == old(page)
    {
      scores := RemoveAt(scores, index);
    }

    /** `handleScoreChange(index, field, value)` for an entry the form shows. */
    method ScoreChange(index: nat, v: FieldValue)
      requires Valid() && index < |scores|
      modifies this
      ensures Valid()
      ensures scores == WithFieldAt(old(scores), index, v) && employeeId == old(employeeId)
      ensures isModalOpen == old(isModalOpen)
      ensures search == old(search) && statusFilter == old(statusFilter) && perPage == old(perPage) && page == old(page)
    {
      var next := scores;
      next := next[index := WithField(next[index], v)];
      scores := next;
    }

    /** `handleSubmit`: a complete form closes the modal and resets it; any
        other form changes nothing. */
    method Submit()
      requires Valid()
      modifies this
      ensures Valid()
      ensures Submittable(old(employeeId), old(scores)) ==>
        !isModalOpen && employeeId == "" && scores == [DEFAULT_ENTRY]
      ensures !Submittable(old(employeeId), old(scores)) ==>
        isModalOpen == old(isModalOpen) && employeeId == old(employeeId) && scores == old(scores)
      ensures search == old(search) && statusFilter == old(statusFilter) && perPage == old(perPage) && page == old(page)
    {
      if employeeId != "" && |scores| > 0 && forall i :: 0 <= i < |scores| ==> EntryValid(scores[i]) {
        CloseModal();
      }
    }

    method SetSearch(text: string)
      requires Valid()
      modifies this
      ensures Valid()
      ensures search == text && page == 1
      ensures statusFilter == old(statusFilter) && perPage == old(perPage)
      ensures isModalOpen == old(isModalOpen) && employeeId == old(employeeId) && scores == old(scores)
    {
      search := text;
      page := 1;
    }

    method SetStatusFilter(status: string)
      requires Valid()
      modifies this
      ensures Valid()
      ensures statusFilter == status && page == 1
      ensures search == old(search) && perPage == old(perPage)
      ensures isModalOpen == old(isModalOpen) && employeeId == old(employeeId) && scores == old(scores)
    {
      statusFilter := status;
      page := 1;
    }

    method SetPerPage(n: int)
      requires Valid() && n in PER_PAGE_OPTIONS
      modifies this
      ensures Valid()
      ensures perPage == n && page == 1
      ensures search == old(search) && statusFilter == old(statusFilter)
      ensures isModalOpen == old(isModalOpen) && employeeId == old(employeeId) && scores == old(scores)
    {
      perPage := n;
      page := 1;
    }

    /** `currentData` */
    method CurrentData(list: seq<Employee>) returns (rows: seq<Employee>)
      requires Valid()
      ensures var f := Filtered(list, search, statusFilter);
        rows == f[Min((page - 1) * perPage, |f|)..Min(page * perPage, |f|)]
    {
      var f := Filtered(list, search, statusFilter);
      PageOfRows(f, page, perPage);
      rows := PageOf(f, page, perPage);
    }
  }
}
