/** The criteria list request: the query parameters built from the search
    parameters, and the list taken from the response. The GET is a parameter. */
module CriteriaGetList {
  import opened Wrappers
  import opened Text
  import opened JsNumber
  import CriteriaTable

  const URL_BASE := "/criteria"

  /** The search parameters; every field may be missing. */
  datatype SearchCriteriaParams = SearchCriteriaParams(page: Option<Number>, limit: Option<Number>, searchText: Option<string>)

  /** A query parameter's value: a number or a text. */
  datatype Param = NumberParam(n: Number) | TextParam(text: string)

  /** A list response body: the criteria under `data`. */
  datatype ListEnvelope = ListEnvelope(data: seq<CriteriaTable.Criteria>)

  predicate TruthyField(n: Option<Number>) {
    n.Some? && Truthy(n.value)
  }

  /** `queryParams`: `page` and `limit` when truthy, and the trimmed
      `searchText` when it is not blank. */
  function QueryParams(params: SearchCriteriaParams): (q: map<string, Param>)
    ensures "page" in q <==> TruthyField(params.page)
    ensures "page" in q ==> q["page"] == NumberParam(params.page.value)
    ensures "limit" in q <==> TruthyField(params.limit)
    ensures "limit" in q ==> q["limit"] == NumberParam(params.limit.value)
    ensures "searchText" in q <==> params.searchText.Some? && Trim(params.searchText.value) != ""
    ensures "searchText" in q ==> q["searchText"] == TextParam(Trim(params.searchText.value))
    ensures q.Keys <= {"page", "limit", "searchText"}
  {
    assert |"page"| == 4 && |"limit"| == 5 && |"searchText"| == 10;
    var withPage: map<string, Param> := if TruthyField(params.page) then map["page" := NumberParam(params.page.value)] else map[];
    var withLimit := if TruthyField(params.limit) then withPage["limit" := NumberParam(params.limit.value)] else withPage;
    if params.searchText.Some? && params.searchText.value != "" && Trim(params.searchText.value) != "" then
      withLimit["searchText" := TextParam(Trim(params.searchText.value))]
    else withLimit
  }

  /** A page or limit of 0 or NaN is never sent. */
  lemma ZeroOrNaNIsNotSent(params: SearchCriteriaParams)
    ensures params.page == Some(Num(0)) || params.page == Some(NaN) ==> "page" !in QueryParams(params)
    ensures params.limit == Some(Num(0)) || params.limit == Some(NaN) ==> "limit" !in QueryParams(params)
  {
  }

  /** A sent search text is never blank, and trimming it again changes
      nothing. */
  lemma SentSearchIsTrimmed(params: SearchCriteriaParams)
    requires "searchText" in QueryParams(params)
    ensures !IsBlank(Trim(params.searchText.value))
    ensures Trim(Trim(params.searchText.value)) == Trim(params.searchText.value)
  {
    var t := Trim(params.searchText.value);
    TrimOfTrimmed(t);
    TrimEmptyIffBlank(t);
  }

  /** `getCriteriaList`: the body's `data` of a GET to `/criteria` with those
      parameters. */
  function GetCriteriaList(params: SearchCriteriaParams, get: (string, map<string, Param>) -> ListEnvelope): (r: seq<CriteriaTable.Criteria>)
    ensures r == get(URL_BASE, QueryParams(params)).data
  {
    get(URL_BASE, QueryParams(params)).data
  }
}
