/** One employee's assessments: the route parameter, the fetch with its
    fallback to that employee's part of the bundled data, and the heading.
    The status badge is `Assessments.BadgeLabel` and the expanded rows are
    `AssessmentTypes.ExpandedRows`. */
module AssessmentsByEmployee {
  import opened Wrappers
  import opened Text
  import opened JsNumber
  import opened AssessmentTypes

  /** `filterMockDataByEmployee`: the bundled assessments of one employee. */
  function FilterMockByEmployee(mock: AssessmentResponse, employeeId: Number): (r: AssessmentResponse)
    ensures r.message == "Success" && r.status == 200
    ensures employeeId.NaN? ==> r.data == []
    ensures employeeId.Num? ==> r == ForEmployee(mock.data, employeeId.value)
  {
    match employeeId
    case NaN => AssessmentResponse("Success", 200, [])
    case Num(id) => ForEmployee(mock.data, id)
  }

  /** `fetchEmployeeAssessments`, given how the GET ended (`Err` when it threw). */
  function FetchEmployeeAssessments(outcome: Result<Body, string>, mock: AssessmentResponse, employeeId: Number): (r: AssessmentResponse)
    ensures outcome.Ok? && AsResponse(outcome.value).Some? ==> r == AsResponse(outcome.value).value
    ensures outcome.Err? || AsResponse(outcome.value).None? ==> r == FilterMockByEmployee(mock, employeeId)
  {
    BodyOrFallback(outcome, FilterMockByEmployee(mock, employeeId))
  }

  /** A fallback holds exactly that employee's bundled assessments, in their
      order and as often as they occur, never another employee's. */
  lemma FallbackIsThatEmployees(outcome: Result<Body, string>, mock: AssessmentResponse, id: int)
    requires outcome.Err? || AsResponse(outcome.value).None?
    ensures var r := FetchEmployeeAssessments(outcome, mock, Num(id));
      && r.message == "Success" && r.status == 200
      && (forall a :: a in r.data <==> a in mock.data && a.employee.id == id)
      && (forall a :: multiset(r.data)[a] == if a.employee.id == id then multiset(mock.data)[a] else 0)
  {
    ForEmployeeExact(mock.data, id);
  }

  /** `employeeIdNum`: the route parameter read by `parseInt`, or 0 when it is
      absent or empty. */
  function EmployeeIdNum(param: Option<string>): (n: Number)
    ensures param.None? || param.value == "" ==> n == Num(0)
    ensures param.Some? && param.value != "" ==> n == ParseInt(param.value)
  {
    if param.Some? && param.value != "" then ParseInt(param.value) else Num(0)
  }

  /** The query's `enabled` flag. */
  predicate Enabled(param: Option<string>) {
    Truthy(EmployeeIdNum(param))
  }

  /** The query runs exactly when the parameter parses to a number other than
      0; the decimal text of a non-zero id enables it with that id. */
  lemma EnabledIffNonZero(param: Option<string>)
    ensures Enabled(param) <==> EmployeeIdNum(param).Num? && EmployeeIdNum(param).value != 0
    ensures param.None? ==> !Enabled(param)
  {
  }

  lemma EnabledForIdText(id: int)
    requires id != 0
    ensures Enabled(Some(IntToString(id))) && EmployeeIdNum(Some(IntToString(id))) == Num(id)
  {
    ParseIntRoundTrip(id);
  }

  /** The heading: `EmployeeName` over the loaded data. */
  function Heading(data: Option<AssessmentResponse>): (name: string)
    ensures data.Some? && |data.value.data| > 0 && data.value.data[0].employee.name != "" ==> name == data.value.data[0].employee.name
    ensures data.Some? && |data.value.data| > 0 && data.value.data[0].employee.name == "" ==> name == "Nhân viên"
    ensures data.None? || |data.value.data| == 0 ==> name == "Nhân viên"
  {
    EmployeeName(if data.Some? then Some(data.value.data) else None)
  }
}
