/** The overview page's assessment panel: the bundled assessments of employee
    46, with a heading naming that employee. The filter is
    `AssessmentTypes.ForEmployee` and the heading `AssessmentTypes.EmployeeName`. */
module Dashboard {
  import opened Wrappers
  import opened AssessmentTypes

  const PANEL_EMPLOYEE_ID := 46

  /** The panel's empty state. */
  predicate ShowsEmpty(mock: AssessmentResponse) {
    |ForEmployee(mock.data, PANEL_EMPLOYEE_ID).data| == 0
  }

  /** The panel is empty exactly when no bundled assessment is employee 46's,
      and then its heading is "Nhân viên"; otherwise the heading names the
      employee of the first of them in bundled order, or falls back to
      "Nhân viên" when that name is empty. */
  lemma PanelShowsEmployee46(mock: AssessmentResponse)
    ensures ShowsEmpty(mock) <==> forall a :: a in mock.data ==> a.employee.id != PANEL_EMPLOYEE_ID
    ensures ShowsEmpty(mock) ==> EmployeeName(Some(ForEmployee(mock.data, PANEL_EMPLOYEE_ID).data)) == "Nhân viên"
    ensures forall i :: 0 <= i < |mock.data| && mock.data[i].employee.id == PANEL_EMPLOYEE_ID &&
                        (forall j :: 0 <= j < i ==> mock.data[j].employee.id != PANEL_EMPLOYEE_ID) ==>
      EmployeeName(Some(ForEmployee(mock.data, PANEL_EMPLOYEE_ID).data)) ==
        if mock.data[i].employee.name != "" then mock.data[i].employee.name else "Nhân viên"
  {
    ForEmployeeExact(mock.data, PANEL_EMPLOYEE_ID);
    forall i | 0 <= i < |mock.data| && mock.data[i].employee.id == PANEL_EMPLOYEE_ID &&
               (forall j :: 0 <= j < i ==> mock.data[j].employee.id != PANEL_EMPLOYEE_ID)
      ensures EmployeeName(Some(ForEmployee(mock.data, PANEL_EMPLOYEE_ID).data)) ==
        if mock.data[i].employee.name != "" then mock.data[i].employee.name else "Nhân viên"
    {
      ForEmployeeFirst(mock.data, PANEL_EMPLOYEE_ID, i);
    }
  }
}
