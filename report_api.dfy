/** The employee-average report endpoint: the records it returns and the query
    it is called with. */
module ReportApi {
  import opened Wrappers

  const REPORTS_PATH := "/assessments/employee-average"

  datatype Employee = Employee(id: int, name: string, email: string)

  /** One row of the report. An `averageScore` of -1 marks an employee without
      any assessment. */
  datatype EmployeeReport = EmployeeReport(employee: Employee, averageScore: real, totalAssessments: int)

  datatype SortOrder = Asc | Desc

  function OrderText(o: SortOrder): string {
    match o
    case Asc => "asc"
    case Desc => "desc"
  }

  /** The body the endpoint answers with. */
  datatype ReportsResponse = ReportsResponse(message: string, status: int, data: seq<EmployeeReport>)

  /** The query of `getEmployeeReports(startDate, endDate, sort)`: `sort`
      always, `"desc"` when it is not given, and each date only when it is
      given and not empty. */
  function ReportParams(startDate: Option<string>, endDate: Option<string>, sort: Option<SortOrder>): (params: map<string, string>)
    ensures "sort" in params && params["sort"] == OrderText(sort.GetOr(Desc))
    ensures "startDate" in params <==> startDate.Some? && startDate.value != ""
    ensures "startDate" in params ==> params["startDate"] == startDate.value
    ensures "endDate" in params <==> endDate.Some? && endDate.value != ""
    ensures "endDate" in params ==> params["endDate"] == endDate.value
    ensures params.Keys <= {"sort", "startDate", "endDate"}
  {
    var base := map["sort" := OrderText(sort.GetOr(Desc))];
    var withStart := if startDate.Some? && startDate.value != "" then base["startDate" := startDate.value] else base;
    if endDate.Some? && endDate.value != "" then withStart["endDate" := endDate.value] else withStart
  }

  /** `getEmployeeReports`: one GET of the report path with that query, whose
      result is the `data` field of the body. `server` stands for the network. */
  function GetEmployeeReports(startDate: Option<string>, endDate: Option<string>, sort: Option<SortOrder>,
                              server: (string, map<string, string>) -> ReportsResponse): (reports: seq<EmployeeReport>)
    ensures reports == server(REPORTS_PATH, ReportParams(startDate, endDate, sort)).data
  {
    server(REPORTS_PATH, ReportParams(startDate, endDate, sort)).data
  }

  /** The page passes `startDate || undefined`: an empty date and a missing one
      give the same query. */
  lemma EmptyDateIsOmitted(endDate: Option<string>, sort: Option<SortOrder>)
    ensures ReportParams(Some(""), endDate, sort) == ReportParams(None, endDate, sort)
  {
  }
}
