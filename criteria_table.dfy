/** The criteria table: search and category filter, pagination, the category
    choices, and the modal form that adds a criterion. */
module CriteriaTable {
  import opened Wrappers
  import opened Text
  import opened Seqs
  import opened Paging
  import opened JsNumber

  datatype Criteria = Criteria(criteriaId: int, name: string, description: string, weight: int, category: string)

  /** The form of the "add criterion" modal; the weight field holds
      `Number(input)`. */
  datatype CriteriaForm = CriteriaForm(name: string, description: string, weight: Number, category: string)

  const EMPTY_FORM := CriteriaForm("", "", Num(1), "HARDSKILL")
  const ALL := "All"
  const PER_PAGE_OPTIONS: set<int> := {5, 10, 20}

  /** The search test: the lowercased name, id text or description contains
      the lowercased search. */
  predicate MatchesSearch(search: string, c: Criteria) {
    Contains(Lower(c.name), Lower(search))
    || Contains(Lower(IntToString(c.criteriaId)), Lower(search))
    || Contains(Lower(c.description), Lower(search))
  }

  predicate InCategory(categoryFilter: string, c: Criteria) {
    categoryFilter == ALL || c.category == categoryFilter
  }

  /** `filtered`: the search filter, then the category filter. */
  function Filtered(list: seq<Criteria>, search: string, categoryFilter: string): seq<Criteria> {
    Filter(Filter(list, (c: Criteria) => MatchesSearch(search, c)), (c: Criteria) => InCategory(categoryFilter, c))
  }

  /** The two filters in a row keep, in order and with their multiplicity,
      exactly the criteria that pass both; with the filter "All" only the
      search counts. */
  lemma FilteredExact(list: seq<Criteria>, search: string, categoryFilter: string)
    ensures Filtered(list, search, categoryFilter) ==
      Filter(list, (c: Criteria) => MatchesSearch(search, c) && InCategory(categoryFilter, c))
    ensures forall c :: c in Filtered(list, search, categoryFilter) <==>
      c in list && MatchesSearch(search, c) && (categoryFilter == ALL || c.category == categoryFilter)
    ensures forall c ::
              multiset(Filtered(list, search, categoryFilter))[c]
              == if MatchesSearch(search, c) && InCategory(categoryFilter, c) then multiset(list)[c] else 0
  {
    var both := (c: Criteria) => MatchesSearch(search, c) && InCategory(categoryFilter, c);
    FilterFilter(list, (c: Criteria) => MatchesSearch(search, c), (c: Criteria) => InCategory(categoryFilter, c), both);
    FilterExact(list, both);
  }

  function CategoriesOf(list: seq<Criteria>): (r: seq<string>)
    ensures |r| == |list| && forall i :: 0 <= i < |list| ==> r[i] == list[i].category
  {
    seq(|list|, i requires 0 <= i < |list| => list[i].category)
  }

  /** `categories`: each category of the list once, in the order of first
      occurrence. */
  function Categories(list: seq<Criteria>): (r: seq<string>)
    ensures forall cat :: cat in r <==> exists i :: 0 <= i < |list| && list[i].category == cat
    ensures NoDuplicates(r)
    ensures forall i, j :: 0 <= i < j < |r| ==>
      r[i] in CategoriesOf(list) && r[j] in CategoriesOf(list) &&
      FirstIndex(CategoriesOf(list), r[i]) < FirstIndex(CategoriesOf(list), r[j])
  {
    var cats := CategoriesOf(list);
    DistinctFirstOccurrenceOrder(cats);
    assert forall cat :: cat in cats <==> exists i :: 0 <= i < |list| && list[i].category == cat by {
      forall cat ensures cat in cats <==> exists i :: 0 <= i < |list| && list[i].category == cat {
        if cat in cats {
          var i :| 0 <= i < |cats| && cats[i] == cat;
          assert list[i].category == cat;
        }
      }
    }
    Distinct(cats)
  }

  /** The submit test: both the name and the description have a non-blank
      trimmed form. */
  predicate Submittable(f: CriteriaForm) {
    Trim(f.name) != "" && Trim(f.description) != ""
  }

  lemma SubmittableIffNotBlank(f: CriteriaForm)
    ensures Submittable(f) <==> !IsBlank(f.name) && !IsBlank(f.description)
  {
    TrimEmptyIffBlank(f.name);
    TrimEmptyIffBlank(f.description);
  }

  /** The table's state. `added` records, in order, the forms handed to
      `onAddCriteria`. */
  class CriteriaList {
    var search: string
    var categoryFilter: string
    var perPage: int
    var page: int
    var isModalOpen: bool
    var form: CriteriaForm
    var added: seq<CriteriaForm>

    predicate Valid()
      reads this
    {
      perPage in PER_PAGE_OPTIONS && page >= 1
    }

    constructor ()
      ensures Valid()
      ensures search == "" && categoryFilter == ALL && perPage == 5 && page == 1
      ensures !isModalOpen && form == EMPTY_FORM && added == []
    {
      search := "";
      categoryFilter := ALL;
      perPage := 5;
      page := 1;
      isModalOpen := false;
      form := EMPTY_FORM;
      added := [];
    }

    method OpenModal()
      modifies this
      ensures isModalOpen
      ensures search == old(search) && categoryFilter == old(categoryFilter) && perPage == old(perPage)
      ensures page == old(page) && form == old(form) && added == old(added)
    {
      isModalOpen := true;
    }

    /** `handleCloseModal`: closes the modal and resets the form. */
    method CloseModal()
      modifies this
      ensures !isModalOpen && form == EMPTY_FORM
      ensures search == old(search) && categoryFilter == old(categoryFilter) && perPage == old(perPage)
      ensures page == old(page) && added == old(added)
    {
      isModalOpen := false;
      form := EMPTY_FORM;
    }

    /** `handleSubmit`: a form with a blank name or description changes
        nothing; otherwise the form, as typed and untrimmed, is handed over,
        the table goes back to page 1, and the modal closes with the form reset. */
    method Submit()
      requires Valid()
      modifies this
      ensures Valid()
      ensures !Submittable(old(form)) ==>
        search == old(search) && categoryFilter == old(categoryFilter) && perPage == old(perPage) &&
        page == old(page) && isModalOpen == old(isModalOpen) && form == old(form) && added == old(added)
      ensures Submittable(old(form)) ==>
        added == old(added) + [old(form)] && page == 1 && !isModalOpen && form == EMPTY_FORM &&
        search == old(search) && categoryFilter == old(categoryFilter) && perPage == old(perPage)
    {
      if Trim(form.name) != "" && Trim(form.description) != "" {
        added := added + [form];
        page := 1;
        CloseModal();
      }
    }

    method SetSearch(text: string)
      requires Valid()
      modifies this
      ensures Valid()
      ensures search == text && page == 1
      ensures categoryFilter == old(categoryFilter) && perPage == old(perPage)
      ensures isModalOpen == old(isModalOpen) && form == old(form) && added == old(added)
    {
      search := text;
      page := 1;
    }

    method SetCategoryFilter(category: string)
      requires Valid()
      modifies this
      ensures Valid()
      ensures categoryFilter == category && page == 1
      ensures search == old(search) && perPage == old(perPage)
      ensures isModalOpen == old(isModalOpen) && form == old(form) && added == old(added)
    {
      categoryFilter := category;
      page := 1;
    }

    method SetPerPage(n: int)
      requires Valid() && n in PER_PAGE_OPTIONS
      modifies this
      ensures Valid()
      ensures perPage == n && page == 1
      ensures search == old(search) && categoryFilter == old(categoryFilter)
      ensures isModalOpen == old(isModalOpen) && form == old(form) && added == old(added)
    {
      perPage := n;
      page := 1;
    }

    method Prev()
      requires Valid()
      modifies this
      ensures Valid()
      ensures page == PrevPage(old(page))
      ensures search == old(search) && categoryFilter == old(categoryFilter) && perPage == old(perPage)
      ensures isModalOpen == old(isModalOpen) && form == old(form) && added == old(added)
    {
      page := PrevPage(page);
    }

    /** The "next" button, shown only when there is more than one page. */
    method Next(totalPages: int)
      requires Valid() && totalPages > 1
      modifies this
      ensures Valid()
      ensures page == NextPage(old(page), totalPages)
      ensures search == old(search) && categoryFilter == old(categoryFilter) && perPage == old(perPage)
      ensures isModalOpen == old(isModalOpen) && form == old(form) && added == old(added)
    {
      page := NextPage(page, totalPages);
    }

    /** The form's inputs: each replaces one field; the weight is `Number(input)`. */
    method SetName(text: string)
      modifies this
      ensures form == old(form).(name := text)
      ensures search == old(search) && categoryFilter == old(categoryFilter) && perPage == old(perPage)
      ensures page == old(page) && isModalOpen == old(isModalOpen) && added == old(added)
    {
      form := form.(name := text);
    }

    method SetDescription(text: string)
      modifies this
      ensures form == old(form).(description := text)
      ensures search == old(search) && categoryFilter == old(categoryFilter) && perPage == old(perPage)
      ensures page == old(page) && isModalOpen == old(isModalOpen) && added == old(added)
    {
      form := form.(description := text);
    }

    method SetWeight(text: string)
      modifies this
      ensures form == old(form).(weight := ToNumber(Some(text)))
      ensures search == old(search) && categoryFilter == old(categoryFilter) && perPage == old(perPage)
      ensures page == old(page) && isModalOpen == old(isModalOpen) && added == old(added)
    {
      form := form.(weight := ToNumber(Some(text)));
    }

    method SetCategory(category: string)
      modifies this
      ensures form == old(form).(category := category)
      ensures search == old(search) && categoryFilter == old(categoryFilter) && perPage == old(perPage)
      ensures page == old(page) && isModalOpen == old(isModalOpen) && added == old(added)
    {
      form := form.(category := category);
    }

    /** The rows of the current page. */
    method CurrentData(list: seq<Criteria>) returns (rows: seq<Criteria>)
      requires Valid()
      ensures var f := Filtered(list, search, categoryFilter);
        rows == f[Min((page - 1) * perPage, |f|)..Min(page * perPage, |f|)]
    {
      var f := Filtered(list, search, categoryFilter);
      PageOfRows(f, page, perPage);
      rows := PageOf(f, page, perPage);
    }
  }
}
