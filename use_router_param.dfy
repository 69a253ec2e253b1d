/** The criteria page's URL parameters, with their defaults. */
module UseRouterParam {
  import opened Wrappers
  import opened Text
  import opened JsNumber

  /** `searchParams.get("searchText") || ""` */
  function SearchTextParam(raw: Option<string>): (text: string)
    ensures raw.Some? ==> text == raw.value
    ensures raw.None? ==> text == ""
  {
    raw.GetOr("")
  }

  /** `Number(searchParams.get("page")) || 1`: a missing page, and a page that
      reads as 0 or NaN, give 1; any other number, negative ones included, is
      kept. */
  function PageParam(raw: Option<string>): (page: int)
    ensures page != 0
    ensures Truthy(ToNumber(raw)) ==> page == ToNumber(raw).value
    ensures !Truthy(ToNumber(raw)) ==> page == 1
  {
    match ToNumber(raw)
    case Num(n) => if n != 0 then n else 1
    case NaN => 1
  }

  /** Missing, blank and non-numeric pages fall back to page 1, and the text
      of any non-zero number is read back as that number. */
  lemma PageDefaults(n: int)
    ensures PageParam(None) == 1
    ensures PageParam(Some("")) == 1
    ensures PageParam(Some("abc")) == 1
    ensures n != 0 ==> PageParam(Some(IntToString(n))) == n
    ensures PageParam(Some("0")) == 1
  {
    NumberPage(n);
    BlankPage("");
    ZeroPage();
    NonNumericPage("abc");
  }

  lemma NumberPage(n: int)
    ensures n != 0 ==> PageParam(Some(IntToString(n))) == n
  {
    ToNumberRoundTrip(n);
  }

  lemma BlankPage(s: string)
    requires IsBlank(s)
    ensures PageParam(Some(s)) == 1
  {
  }

  lemma ZeroPage()
    ensures PageParam(Some("0")) == 1
  {
    ToNumberRoundTrip(0);
    assert IntToString(0) == "0";
  }

  /** A text that starts with a letter and has no surrounding white space does
      not read as a number, so the page falls back to 1. */
  lemma NonNumericPage(s: string)
    requires s != [] && 'a' <= s[0] <= 'z' && !IsSpace(s[|s| - 1])
    ensures PageParam(Some(s)) == 1
  {
    assert !IsSpace(s[0]);
    TrimOfTrimmed(s);
    assert SplitSign(s) == (false, s);
    assert !IsDigit(s[0]);
    ToNumberOfNonDigits(s);
  }
}
