/** The assessment records the assessment pages list, the response that wraps
    them, and the shape checks the pages make on an untyped response body. */
module AssessmentTypes {
  import opened Wrappers
  import opened Seqs

  datatype Person = Person(id: int, name: string, email: string)

  datatype CriteriaInfo = CriteriaInfo(criteriaId: int, criteriaName: string, description: string, weight: real, category: string)

  datatype CriteriaScore = CriteriaScore(criteria: CriteriaInfo, score: real, comment: string)

  datatype Assessment = Assessment(
    assessmentId: int,
    supervisor: Person,
    employee: Person,
    status: string,
    totalScore: real,
    criteriaScores: seq<CriteriaScore>,
    createdAt: string)

  datatype AssessmentResponse = AssessmentResponse(message: string, status: int, data: seq<Assessment>)

  /** The `data` field of an object body: an array of assessments, or any
      other value. */
  datatype DataField = DataArray(items: seq<Assessment>) | DataOther

  /** An untyped response body, by its JavaScript type. */
  datatype Body =
    | BodyText(text: string)
    | BodyNull
    | BodyUndefined
    | BodyNumber(n: int)
    | BodyBool(b: bool)
    | BodyArray
    | BodyObject(message: string, status: int, data: Option<DataField>)

  /** The checks `typeof body === "object" && "data" in body &&
      Array.isArray(body.data)`, after text, `null` and `undefined` were set
      aside: the body is then used as it is. */
  function AsResponse(body: Body): (r: Option<AssessmentResponse>)
    ensures r.Some? <==> body.BodyObject? && body.data.Some? && body.data.value.DataArray?
    ensures r.Some? ==> r.value == AssessmentResponse(body.message, body.status, body.data.value.items)
  {
    match body
    case BodyObject(message, status, Some(DataArray(items))) => Some(AssessmentResponse(message, status, items))
    case _ => None
  }

  /** A fetch that answers with the body when it has the expected shape and
      with `fallback` otherwise: for a text, `null` or `undefined` body, for
      any other shape, and when the call throws (`Err`). It never fails. */
  function BodyOrFallback(outcome: Result<Body, string>, fallback: AssessmentResponse): (r: AssessmentResponse)
    ensures outcome.Ok? && AsResponse(outcome.value).Some? ==> r == AsResponse(outcome.value).value
    ensures outcome.Err? || AsResponse(outcome.value).None? ==> r == fallback
  {
    match outcome
    case Err(_) => fallback
    case Ok(body) =>
      if body.BodyText? || body.BodyNull? || body.BodyUndefined? then fallback
      else AsResponse(body).GetOr(fallback)
  }

  /** The assessments of one employee, as a response with message "Success"
      and status 200. */
  function ForEmployee(all: seq<Assessment>, employeeId: int): (r: AssessmentResponse)
    ensures r.message == "Success" && r.status == 200
    ensures forall i :: 0 <= i < |r.data| ==> r.data[i].employee.id == employeeId
  {
    AssessmentResponse("Success", 200, Filter(all, (a: Assessment) => a.employee.id == employeeId))
  }

  /** Every assessment of that employee is kept, as often as it occurs, and
      nothing else; the order is the order of `all`. */
  lemma ForEmployeeExact(all: seq<Assessment>, employeeId: int)
    ensures forall a :: a in ForEmployee(all, employeeId).data <==> a in all && a.employee.id == employeeId
    ensures forall a :: multiset(ForEmployee(all, employeeId).data)[a]
                        == if a.employee.id == employeeId then multiset(all)[a] else 0
  {
    FilterExact(all, (a: Assessment) => a.employee.id == employeeId);
  }

  /** The first assessment kept for an employee is the first of theirs in `all`. */
  lemma ForEmployeeFirst(all: seq<Assessment>, employeeId: int, i: nat)
    requires i < |all| && all[i].employee.id == employeeId
    requires forall j :: 0 <= j < i ==> all[j].employee.id != employeeId
    ensures |ForEmployee(all, employeeId).data| > 0 && ForEmployee(all, employeeId).data[0] == all[i]
  {
    FilterFirst(all, (a: Assessment) => a.employee.id == employeeId, i);
  }

  /** The heading's name: the first assessment's employee name, or "Nhân viên"
      when there is no assessment or the name is empty. */
  function EmployeeName(data: Option<seq<Assessment>>): (name: string)
    ensures name != ""
    ensures data.Some? && |data.value| > 0 && data.value[0].employee.name != "" ==> name == data.value[0].employee.name
    ensures data.Some? && |data.value| > 0 && data.value[0].employee.name == "" ==> name == "Nhân viên"
    ensures data.None? || |data.value| == 0 ==> name == "Nhân viên"
  {
    if data.Some? && |data.value| > 0 && data.value[0].employee.name != "" then data.value[0].employee.name
    else "Nhân viên"
  }

  /** The set of expanded rows of an assessment list. */
  class ExpandedRows {
    var expanded: set<int>

    constructor ()
      ensures expanded == {}
    {
      expanded := {};
    }

    /** `toggleRow(id)` */
    method Toggle(id: int)
      modifies this
      ensures expanded == Toggled(old(expanded), id)
    {
      var next := expanded;
      if id in next {
        next := next - {id};
      } else {
        next := next + {id};
      }
      expanded := next;
    }
  }

  function Toggled(s: set<int>, id: int): (r: set<int>)
    ensures id in r <==> id !in s
    ensures forall x :: x != id ==> (x in r <==> x in s)
  {
    if id in s then s - {id} else s + {id}
  }

  /** Toggling the same row twice restores the set. */
  lemma ToggleTwice(s: set<int>, id: int)
    ensures Toggled(Toggled(s, id), id) == s
  {
  }
}
