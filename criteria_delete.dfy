/** The criterion delete request: the id guard and the URL. The DELETE itself
    is a parameter. */
module CriteriaDelete {
  import opened Wrappers
  import opened Text
  import opened JsNumber

  const URL_BASE := "/criteria"
  const INVALID_ID := "Invalid criteriaId"

  /** The body of a delete response. */
  datatype DeleteCriteriaResponse = DeleteCriteriaResponse(message: string, status: int)

  /** The URL for an id: the base, a slash, and the id's decimal text. */
  function DeleteUrl(criteriaId: int): (url: string)
    ensures url == URL_BASE + "/" + IntToString(criteriaId)
  {
    URL_BASE + "/" + IntToString(criteriaId)
  }

  /** `deleteCriteria`: 0 and NaN are rejected before any request; any other
      id is deleted at its URL and the response body is the result. */
  function DeleteCriteria(criteriaId: Number, delete: string -> DeleteCriteriaResponse): (r: Result<DeleteCriteriaResponse, string>)
    ensures criteriaId == Num(0) || criteriaId.NaN? ==> r == Err(INVALID_ID)
    ensures criteriaId.Num? && criteriaId.value != 0 ==> r == Ok(delete(DeleteUrl(criteriaId.value)))
  {
    if !Truthy(criteriaId) then Err(INVALID_ID)
    else Ok(delete(DeleteUrl(criteriaId.value)))
  }

  /** The URL names the id: the text after "/criteria/" reads back as the id,
      so two ids never share a URL. */
  lemma DeleteUrlNamesId(a: int, b: int)
    ensures |DeleteUrl(a)| > |URL_BASE| + 1
    ensures ParseInt(DeleteUrl(a)[|URL_BASE| + 1..]) == Num(a)
    ensures a != b ==> DeleteUrl(a) != DeleteUrl(b)
  {
    var prefix := URL_BASE + "/";
    assert DeleteUrl(a)[|prefix|..] == IntToString(a);
    assert DeleteUrl(b)[|prefix|..] == IntToString(b);
    ParseIntRoundTrip(a);
    ParseIntRoundTrip(b);
  }
}
