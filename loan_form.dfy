/** The add/edit loan dialog: its data, its error map, and the handlers that
    change them. */
module LoanForm {
  import opened Wrappers
  import opened FormState
  import opened LoanRules

  /** The checks of `validateForm`, in the order they run; the date-order
      check runs last and so replaces a missing-end message. */
  method Checks(l: LoanInputs) returns (m: map<LoanKey, Note<LoanProblem>>)
    ensures m == LoanErrors(l)
  {
    m := map[];
    if l.loanType == "" {
      m := m[LoanType := Says(TypeRequired)];
    }
    if l.amount.None? || l.amount.value <= 0.0 {
      m := m[Amount := Says(InvalidAmount)];
    }
    if l.startDate.None? {
      m := m[StartDate := Says(StartRequired)];
    }
    if l.endDate.None? {
      m := m[EndDate := Says(EndRequired)];
    }
    if l.startDate.Some? && l.endDate.Some? && l.startDate.value > l.endDate.value {
      m := m[EndDate := Says(EndBeforeStart)];
    }
    LoanErrorsByKey(l, m);
  }

  class LoanDialog {
    var formData: LoanInputs
    var errors: map<LoanKey, Note<LoanProblem>>

    /** The initial state `useState(EMPTY_LOAN_DATA)`, `useState({})`. */
    constructor ()
      ensures formData == EmptyLoan && errors == map[]
    {
      formData := EmptyLoan;
      errors := map[];
    }

    /** The effect run when the dialog is shown: start from the loan being
        edited, or from the empty loan, with no errors. */
    method Open(initialData: Option<LoanInputs>)
      modifies this
      ensures formData == initialData.GetOr(EmptyLoan)
      ensures errors == map[]
    {
      if initialData.Some? {
        formData := initialData.value;
      } else {
        formData := EmptyLoan;
      }
      errors := map[];
    }

    /** `validateForm`: builds the error map check by check, stores it, and
        reports whether it is empty. */
    method ValidateForm() returns (ok: bool)
      modifies this`errors
      ensures errors == LoanErrors(formData)
      ensures ok <==> errors == map[]
    {
      var newErrors := Checks(formData);
      errors := newErrors;
      ok := newErrors == map[];
    }

    /** `handleInputChange`: sets the named field and blanks its message. */
    method InputChange(e: LoanEdit)
      modifies this
      ensures formData == e.Apply(old(formData))
      ensures errors == ClearOnEdit(old(errors), e.Key())
    {
      formData := e.Apply(formData);
      errors := ClearOnEdit(errors, e.Key());
    }

    /** `handleClose`: back to the empty loan with no errors. */
    method Close()
      modifies this
      ensures formData == EmptyLoan && errors == map[]
    {
      formData := EmptyLoan;
      errors := map[];
    }

    /** `handleSubmit`: hands the loan to the caller only when the checks pass,
        and then resets the dialog; otherwise the errors are left on show. */
    method Submit() returns (submitted: Option<LoanInputs>)
      modifies this
      ensures LoanErrors(old(formData)) == map[] ==> submitted == Some(old(formData))
      ensures LoanErrors(old(formData)) != map[] ==> submitted == None
      ensures submitted.Some? ==> formData == EmptyLoan && errors == map[]
      ensures submitted.None? ==> formData == old(formData) && errors == LoanErrors(formData)
    {
      var ok := ValidateForm();
      if ok {
        submitted := Some(formData);
        Close();
      } else {
        submitted := None;
      }
    }
  }
}
