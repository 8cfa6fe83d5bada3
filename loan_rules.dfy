/** The loan checks shared by the loan form and the fourth step of the member
    wizard: a required loan type, a positive amount and two dates with the
    start not after the end. Dates are day numbers; an empty date input or an
    empty amount input is `None`. */
module LoanRules {
  import opened Wrappers
  import opened FormState

  datatype LoanInputs = LoanInputs(
    loanType: string,
    amount: Option<real>,
    startDate: Option<int>,
    endDate: Option<int>)

  /** `EMPTY_LOAN_DATA` and the loan part of the empty member draft. */
  const EmptyLoan := LoanInputs("", None, None, None)

  /** The four loan inputs, which are also the keys the checks report under. */
  datatype LoanKey = LoanType | Amount | StartDate | EndDate {
    function Name(): string {
      match this
      case LoanType => "loanType"
      case Amount => "amount"
      case StartDate => "startDate"
      case EndDate => "endDate"
    }
  }

  /** The keys in the order the checks run. */
  const LoanKeys: seq<LoanKey> := [LoanType, Amount, StartDate, EndDate]

  /** The messages the loan checks report. */
  datatype LoanProblem = TypeRequired | InvalidAmount | StartRequired | EndRequired | EndBeforeStart {
    function Text(): string {
      match this
      case TypeRequired => "Loan type is required"
      case InvalidAmount => "Please enter a valid amount"
      case StartRequired => "Start date is required"
      case EndRequired => "End date is required"
      case EndBeforeStart => "End date must be after start date"
    }
  }

  /** `!amount || amount <= 0` fails: an input value is a string, so only the
      empty value is falsy, and "0" fails through the comparison. */
  predicate AmountValid(a: Option<real>) {
    a.Some? && a.value > 0.0
  }

  /** `new Date(start) > new Date(end)` with both dates present. */
  predicate StartsAfterEnd(l: LoanInputs) {
    l.startDate.Some? && l.endDate.Some? && l.startDate.value > l.endDate.value
  }

  /** The message one field ends up with: the later check on the end date
      overwrites the earlier one. */
  function LoanMessage(l: LoanInputs, key: LoanKey): Option<LoanProblem> {
    match key
    case LoanType => if l.loanType == "" then Some(TypeRequired) else None
    case Amount => if !AmountValid(l.amount) then Some(InvalidAmount) else None
    case StartDate => if l.startDate.None? then Some(StartRequired) else None
    case EndDate =>
      if StartsAfterEnd(l) then Some(EndBeforeStart)
      else if l.endDate.None? then Some(EndRequired)
      else None
  }

  /** The error map the loan checks build: one entry per failing field. */
  function LoanErrors(l: LoanInputs): map<LoanKey, Note<LoanProblem>> {
    map k | k in LoanKeys && LoanMessage(l, k).Some? :: Says(LoanMessage(l, k).value)
  }

  /** A map equals the loan errors once it agrees with LoanMessage on every key. */
  lemma LoanErrorsByKey(l: LoanInputs, m: map<LoanKey, Note<LoanProblem>>)
    requires forall k :: k in m <==> LoanMessage(l, k).Some?
    requires forall k :: k in m ==> m[k] == Says(LoanMessage(l, k).value)
    ensures m == LoanErrors(l)
  {
    var spec := LoanErrors(l);
    forall k | k in m ensures k in spec && spec[k] == m[k] {
      assert k in LoanKeys;
    }
    assert m.Keys == spec.Keys;
  }

  /** The loan passes the checks exactly when type, amount and both dates are
      given, the amount is positive and the start is not after the end. */
  lemma LoanErrorsEmptyIff(l: LoanInputs)
    ensures LoanErrors(l) == map[] <==>
      && l.loanType != ""
      && AmountValid(l.amount)
      && l.startDate.Some? && l.endDate.Some?
      && l.startDate.value <= l.endDate.value
  {
    var m := LoanErrors(l);
    if l.loanType == "" { assert LoanType in m; }
    else if !AmountValid(l.amount) { assert Amount in m; }
    else if l.startDate.None? { assert StartDate in m; }
    else if l.endDate.None? || StartsAfterEnd(l) { assert EndDate in m; }
    else {
      forall k | k in LoanKeys ensures LoanMessage(l, k).None? {
      }
      assert m.Keys == {};
    }
  }

  /** Every reported message is non-empty, so a key is shown iff it is present. */
  lemma LoanErrorsAreMessages(l: LoanInputs)
    ensures AllMessages(LoanErrors(l))
  {
  }

  /** A start after the end reports that, even though both dates are present. */
  lemma StartAfterEndReported(l: LoanInputs)
    requires StartsAfterEnd(l)
    ensures EndDate in LoanErrors(l) && LoanErrors(l)[EndDate] == Says(EndBeforeStart)
    ensures StartDate !in LoanErrors(l)
  {
  }

  /** A loan that starts and ends on the same day passes the date checks. */
  lemma SameDayPasses(l: LoanInputs)
    requires l.startDate.Some? && l.startDate == l.endDate
    ensures StartDate !in LoanErrors(l) && EndDate !in LoanErrors(l)
  {
  }

  /** A zero, negative or missing amount is always rejected. */
  lemma NonPositiveAmountRejected(l: LoanInputs)
    requires l.amount.None? || l.amount.value <= 0.0
    ensures Amount in LoanErrors(l) && LoanErrors(l)[Amount] == Says(InvalidAmount)
  {
  }

  /** A change event from one of the four loan inputs. */
  datatype LoanEdit =
    | SetLoanType(loanType: string)
    | SetAmount(amount: Option<real>)
    | SetStartDate(startDate: Option<int>)
    | SetEndDate(endDate: Option<int>)
  {
    /** The input that fired, whose error the handler blanks. */
    function Key(): LoanKey {
      match this
      case SetLoanType(_) => LoanType
      case SetAmount(_) => Amount
      case SetStartDate(_) => StartDate
      case SetEndDate(_) => EndDate
    }

    /** `{ ...prev, [name]: value }` */
    function Apply(l: LoanInputs): LoanInputs {
      match this
      case SetLoanType(t) => l.(loanType := t)
      case SetAmount(a) => l.(amount := a)
      case SetStartDate(d) => l.(startDate := d)
      case SetEndDate(d) => l.(endDate := d)
    }
  }

  /** An edit leaves the messages of the fields it does not feed unchanged; only
      a start-date edit reaches a second field, the end date. */
  lemma EditTouchesOwnMessages(e: LoanEdit, l: LoanInputs, k: LoanKey)
    requires k != e.Key() && !(e.SetStartDate? && k == EndDate)
    ensures LoanMessage(e.Apply(l), k) == LoanMessage(l, k)
  {
  }
}
