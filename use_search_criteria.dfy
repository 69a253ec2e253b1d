/** The criteria search hook: the search parameters it keeps and the request
    its effect builds from the URL parameters. */
module UseSearchCriteria {
  import opened Wrappers
  import opened Text
  import opened JsNumber
  import opened CriteriaGetList
  import UseRouterParam

  const LIMIT := 5

  /** The effect's `request`: the page, a limit of 5, and the trimmed search
      text when it is not blank. */
  function EffectRequest(searchText: string, page: int): (r: SearchCriteriaParams)
    ensures r.page == Some(Num(page)) && r.limit == Some(Num(LIMIT))
    ensures r.searchText.Some? <==> Trim(searchText) != ""
    ensures r.searchText.Some? ==> r.searchText.value == Trim(searchText)
  {
    var request := SearchCriteriaParams(Some(Num(page)), Some(Num(LIMIT)), None);
    if searchText != "" && Trim(searchText) != "" then request.(searchText := Some(Trim(searchText)))
    else request
  }

  /** From the URL parameters to the query: the page (never 0) and the limit 5
      are always sent, and the search text is sent, trimmed, exactly when it
      is not blank, so a blank search never reaches the query. */
  lemma RequestReachesQuery(rawSearch: Option<string>, rawPage: Option<string>)
    ensures var q := QueryParams(EffectRequest(UseRouterParam.SearchTextParam(rawSearch), UseRouterParam.PageParam(rawPage)));
      && q["page"] == NumberParam(Num(UseRouterParam.PageParam(rawPage)))
      && q["limit"] == NumberParam(Num(LIMIT))
      && ("searchText" in q <==> rawSearch.Some? && !IsBlank(rawSearch.value))
      && q.Keys <= {"page", "limit", "searchText"}
  {
    var text := UseRouterParam.SearchTextParam(rawSearch);
    TrimEmptyIffBlank(text);
  }

  /** The hook's state. */
  class SearchCriteria {
    var searchParams: SearchCriteriaParams

    /** The initial parameters hold only the page. */
    constructor (page: int)
      ensures searchParams == SearchCriteriaParams(Some(Num(page)), None, None)
    {
      searchParams := SearchCriteriaParams(Some(Num(page)), None, None);
    }

    /** The effect run when the URL's search text or page changes. */
    method OnParamsChanged(searchText: string, page: int)
      modifies this
      ensures searchParams == EffectRequest(searchText, page)
    {
      var request := SearchCriteriaParams(Some(Num(page)), Some(Num(LIMIT)), None);
      if searchText != "" && Trim(searchText) != "" {
        request := request.(searchText := Some(Trim(searchText)));
      }
      searchParams := request;
    }
  }
}
