/** The vendor's loan-protection premium calculator: the loan period in
    years, the date checks, the guard on the quote request and the premium
    details built from the reply. Dates are day numbers. */
module LoanCalculator {
  import opened Wrappers

  /** `Math.abs` */
  function Abs(x: int): nat { if x < 0 then -x else x }

  /** `calculateLoanPeriod`: `Math.max(1, Math.ceil(|end - start| / 365 days))`
      for dates that parse to midnights. */
  function LoanPeriod(start: int, end: int): (r: int)
    ensures r >= 1
    ensures Abs(end - start) <= 365 * r
    ensures r > 1 ==> 365 * (r - 1) < Abs(end - start)
  {
    var years := (Abs(end - start) + 364) / 365;
    if years < 1 then 1 else years
  }

  /** The period does not depend on which date is given first. */
  lemma LoanPeriodSymmetric(start: int, end: int)
    ensures LoanPeriod(start, end) == LoanPeriod(end, start)
  {
    assert Abs(end - start) == Abs(start - end);
  }

  /** The period is the least whole number of at least one 365-day year
      that covers the span. */
  lemma LoanPeriodIsLeast(start: int, end: int, n: int)
    requires n >= 1 && Abs(end - start) <= 365 * n
    ensures LoanPeriod(start, end) <= n
  {
  }

  /** What `validateDates` toasts when it refuses. */
  datatype DateProblem = BothDatesRequired | StartInPast | EndNotAfterStart | PeriodTooShort {
    function Text(): string {
      match this
      case BothDatesRequired => "Please select both start and end dates"
      case StartInPast => "Loan start date cannot be in the past"
      case EndNotAfterStart => "Loan end date must be after start date"
      case PeriodTooShort => "Loan period must be at least 1 year"
    }
  }

  /** `validateDates`: `None` when it returns true, otherwise the problem it
      toasts, the first in the order the checks run. `today` is the current
      day. */
  function DateCheck(start: Option<int>, end: Option<int>, today: int): (r: Option<DateProblem>)
    ensures r != Some(PeriodTooShort)
    ensures r.None? <==> start.Some? && end.Some? && today <= start.value < end.value
  {
    if start.None? || end.None? then Some(BothDatesRequired)
    else if start.value < today then Some(StartInPast)
    else if end.value <= start.value then Some(EndNotAfterStart)
    else if LoanPeriod(start.value, end.value) < 1 then Some(PeriodTooShort)
    else None
  }

  /** The refusals in their order: a missing date first, then a past start,
      then an end that is not after the start. */
  lemma DateCheckOrder(start: Option<int>, end: Option<int>, today: int)
    ensures start.None? || end.None? ==> DateCheck(start, end, today) == Some(BothDatesRequired)
    ensures start.Some? && end.Some? && start.value < today ==> DateCheck(start, end, today) == Some(StartInPast)
    ensures start.Some? && end.Some? && today <= start.value && end.value <= start.value ==>
      DateCheck(start, end, today) == Some(EndNotAfterStart)
  {
  }

  /** `{ loanAmount, year }` as sent. */
  datatype Query = Query(loanAmount: real, year: int)

  /** The request of `calculatePremiumMutation`: refused when the member or
      the amount is missing, without looking at the dates, or when the dates
      are refused; otherwise sent for the loan period. */
  datatype Attempt = Refused(dateProblem: Option<DateProblem>) | Send(query: Query)

  function Plan(member: string, amount: Option<real>, start: Option<int>, end: Option<int>, today: int): (r: Attempt)
    ensures r.Send? <==> member != "" && amount.Some? && DateCheck(start, end, today).None?
    ensures r.Send? ==> r.query == Query(amount.value, LoanPeriod(start.value, end.value)) && r.query.year >= 1
    ensures member == "" || amount.None? ==> r == Refused(None)
    ensures member != "" && amount.Some? && r.Refused? ==> r.dateProblem == DateCheck(start, end, today)
  {
    if member == "" || amount.None? then Refused(None)
    else
      var problem := DateCheck(start, end, today);
      if problem.Some? then Refused(problem)
      else Send(Query(amount.value, LoanPeriod(start.value, end.value)))
  }

  /** `response.data` of the quote. */
  datatype Reply = Reply(requestedLoanAmount: real, actualLoanAmount: real, year: int,
                         premiumAmount: real, isExactMatch: bool)

  datatype PremiumDetails = PremiumDetails(requestedLoanAmount: real, actualLoanAmount: real,
    loanPeriod: int, basePremium: real, gst: real, totalPremium: real, isExactMatch: bool)

  /** `onSuccess`: the reply's amounts, period and match flag pass through,
      and the total is the premium with 5% GST on top. */
  function Details(d: Reply): (r: PremiumDetails)
    ensures r.requestedLoanAmount == d.requestedLoanAmount && r.actualLoanAmount == d.actualLoanAmount
    ensures r.loanPeriod == d.year && r.isExactMatch == d.isExactMatch && r.basePremium == d.premiumAmount
    ensures r.gst * 20.0 == r.basePremium
    ensures r.totalPremium == r.basePremium + r.gst
  {
    var gst := d.premiumAmount * 5.0 / 100.0;
    PremiumDetails(d.requestedLoanAmount, d.actualLoanAmount, d.year, d.premiumAmount, gst, d.premiumAmount + gst, d.isExactMatch)
  }

  /** The total is 105% of the base premium. */
  lemma TotalIsBasePlusFivePercent(d: Reply)
    ensures Details(d).totalPremium * 100.0 == Details(d).basePremium * 105.0
  {
  }

  /** The toasts a calculation can raise. */
  datatype Toast = DateToast(problem: DateProblem) | ServerToast(message: string) | FailedToCalculate {
    function Text(): string {
      match this
      case DateToast(p) => p.Text()
      case ServerToast(m) => m
      case FailedToCalculate => "Failed to calculate premium"
    }
  }

  /** `onError`: the server's message when there is a non-empty one. */
  function ErrorToast(message: Option<string>): (r: Toast)
    ensures r.ServerToast? <==> message.Some? && message.value != ""
    ensures r.ServerToast? ==> r.message == message.value
  {
    if message.Some? && message.value != "" then ServerToast(message.value) else FailedToCalculate
  }

  class Calculator {
    var selectedMember: string
    var loanAmount: Option<real>
    var loanStartDate: Option<int>
    var loanEndDate: Option<int>
    var premiumDetails: Option<PremiumDetails>

    constructor ()
      ensures selectedMember == "" && loanAmount == None && loanStartDate == None && loanEndDate == None
      ensures premiumDetails == None
    {
      selectedMember := "";
      loanAmount := None;
      loanStartDate := None;
      loanEndDate := None;
      premiumDetails := None;
    }

    /** The "Calculate Premium" button is enabled (when no request is
        pending). */
    predicate CanPress()
      reads this
    {
      selectedMember != "" && loanAmount.Some? && loanStartDate.Some? && loanEndDate.Some?
    }

    /** `calculatePremiumMutation.mutate()`, with the server's reply to the
        query as `reply` (a premium, or the error's `response.data.message`).
        A refusal toasts the date problem, if any, and then the generic
        failure; a sent query stores the details or toasts the error. */
    method Calculate(today: int, reply: Result<Reply, Option<string>>) returns (sent: Option<Query>, toasts: seq<Toast>)
      modifies this`premiumDetails
      ensures var plan := Plan(selectedMember, loanAmount, loanStartDate, loanEndDate, today);
        && (sent.Some? <==> plan.Send?)
        && (plan.Send? ==> sent.value == plan.query)
        && (plan.Refused? ==>
              && premiumDetails == old(premiumDetails)
              && toasts == (if plan.dateProblem.Some? then [DateToast(plan.dateProblem.value)] else []) + [FailedToCalculate])
        && (plan.Send? && reply.Ok? ==> premiumDetails == Some(Details(reply.value)) && toasts == [])
        && (plan.Send? && reply.Err? ==> premiumDetails == old(premiumDetails) && toasts == [ErrorToast(reply.error)])
    {
      toasts := [];
      sent := None;
      if selectedMember == "" || loanAmount.None? {
        toasts := [FailedToCalculate];
        return;
      }
      var problem := DateCheck(loanStartDate, loanEndDate, today);
      if problem.Some? {
        toasts := [DateToast(problem.value), FailedToCalculate];
        return;
      }
      var query := Query(loanAmount.value, LoanPeriod(loanStartDate.value, loanEndDate.value));
      sent := Some(query);
      match reply
      case Ok(d) => premiumDetails := Some(Details(d));
      case Err(m) => toasts := [ErrorToast(m)];
    }
  }

  /** Through the button the member, amount and dates are always present,
      so a refusal always names a date problem: a past start or an end not
      after the start. */
  lemma PressedRefusalIsADateProblem(member: string, amount: Option<real>, start: Option<int>, end: Option<int>, today: int)
    requires member != "" && amount.Some? && start.Some? && end.Some?
    ensures Plan(member, amount, start, end, today).Refused? ==>
      Plan(member, amount, start, end, today).dateProblem in {Some(StartInPast), Some(EndNotAfterStart)}
  {
  }
}
