/** The assessments page: the fetch with its fallback to the bundled data, the
    status badge, and the empty state. The expanded rows are
    `AssessmentTypes.ExpandedRows`. */
module Assessments {
  import opened Wrappers
  import opened AssessmentTypes

  /** `fetchAssessments`, given how the GET ended (`Err` when it threw) and the
      bundled data. */
  function FetchAssessments(outcome: Result<Body, string>, mock: AssessmentResponse): (r: AssessmentResponse)
    ensures outcome.Ok? && outcome.value.BodyObject? && outcome.value.data.Some? && outcome.value.data.value.DataArray? ==>
      r == AssessmentResponse(outcome.value.message, outcome.value.status, outcome.value.data.value.items)
    ensures outcome.Err? || !outcome.value.BodyObject? || outcome.value.data.None? || outcome.value.data.value.DataOther? ==>
      r == mock
  {
    BodyOrFallback(outcome, mock)
  }

  /** The labels of the badge map's own keys. */
  const STATUS_LABELS: map<string, string> := map[
    "InProgress" := "Đang tiến hành",
    "Completed" := "Hoàn thành",
    "Pending" := "Chờ xử lý",
    "Draft" := "Bản nháp"]

  /** The property names every object literal inherits from `Object.prototype`;
      reading one through `statusMap[status]` yields a truthy value without a
      `label`. */
  const INHERITED: set<string> := {
    "constructor", "hasOwnProperty", "isPrototypeOf", "propertyIsEnumerable",
    "toLocaleString", "toString", "valueOf", "__proto__",
    "__defineGetter__", "__defineSetter__", "__lookupGetter__", "__lookupSetter__"}

  /** The badge text as written: `statusMap[status] || { label: status }`.
      `None` is an `undefined` label, which renders as nothing. */
  function BadgeLabel(status: string): (text: Option<string>)
    ensures status in STATUS_LABELS ==> text == Some(STATUS_LABELS[status])
    ensures status in INHERITED ==> text.None?
    ensures status !in STATUS_LABELS && status !in INHERITED ==> text == Some(status)
  {
    if status in STATUS_LABELS then Some(STATUS_LABELS[status])
    else if status in INHERITED then None
    else Some(status)
  }

  /** A status named like an inherited property, such as "constructor", gets
      an empty badge instead of its own name. */
  lemma InheritedStatusHasNoLabel()
    ensures BadgeLabel("constructor") == None
    ensures BadgeLabel("toString") == None
  {
  }

  /** The badge text with only the map's own keys consulted. */
  function BadgeLabelOwn(status: string): (text: string)
    ensures status in STATUS_LABELS ==> text == STATUS_LABELS[status]
    ensures status !in STATUS_LABELS ==> text == status
  {
    if status in STATUS_LABELS then STATUS_LABELS[status] else status
  }

  /** With own keys only, every status gets a non-empty label when it is
      non-empty itself, the four known statuses get their fixed labels, and
      the as-written lookup agrees everywhere outside the inherited names. */
  lemma BadgeLabelOwnAgrees(status: string)
    ensures status != "" ==> BadgeLabelOwn(status) != ""
    ensures status == "InProgress" ==> BadgeLabelOwn(status) == "Đang tiến hành"
    ensures status == "Completed" ==> BadgeLabelOwn(status) == "Hoàn thành"
    ensures status == "Pending" ==> BadgeLabelOwn(status) == "Chờ xử lý"
    ensures status == "Draft" ==> BadgeLabelOwn(status) == "Bản nháp"
    ensures status !in INHERITED ==> BadgeLabel(status) == Some(BadgeLabelOwn(status))
  {
  }

  /** The empty state: no data, or no assessment in it. */
  predicate ShowsEmpty(data: Option<AssessmentResponse>) {
    data.None? || |data.value.data| == 0
  }

  /** The page never falls back to the empty state when the bundled data is
      not empty and the fetch did not answer with a well-formed body. */
  lemma FallbackIsNeverEmpty(outcome: Result<Body, string>, mock: AssessmentResponse)
    requires |mock.data| > 0
    requires outcome.Err? || AsResponse(outcome.value).None?
    ensures !ShowsEmpty(Some(FetchAssessments(outcome, mock)))
  {
  }
}
