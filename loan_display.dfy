/** The loan section a user card gains: each loan's type spelled out in
    words, shown only when the user has loans. */
module LoanDisplay {
  import opened Wrappers
  import opened JsString

  /** `formatLoanType`: the first character upper-cased and a space before
      every capital of the rest, so 'homeLoan' reads 'Home Loan'. */
  function FormatLoanType(t: string): (r: string)
    ensures t == [] <==> r == []
    ensures t != [] ==> |r| == |t| + CountUpper(t[1..]) && r[0] == UpperChar(t[0])
  {
    if t == [] then [] else [UpperChar(t[0])] + SpaceBeforeCapitals(t[1..])
  }

  /** The inserted spaces are exactly the ones before capitals after the
      first character: removing them gives back the rest of the type. */
  lemma FormatLoanTypeRoundTrip(t: string)
    requires t != []
    ensures DropSpaceBeforeCapitals(FormatLoanType(t)[1..]) == t[1..]
  {
    assert FormatLoanType(t)[1..] == SpaceBeforeCapitals(t[1..]);
    SpacingRoundTrip(t[1..]);
  }

  datatype Loan = Loan(id: string, loanType: string, amount: string, startDate: string, endDate: string)

  /** `user.loans && user.loans.length > 0` */
  predicate HasLoans(loans: Option<seq<Loan>>) {
    loans.Some? && |loans.value| > 0
  }

  /** The type line of each card, in the loans' order. */
  function LoanTypeLines(loans: seq<Loan>): (r: seq<string>)
    ensures |r| == |loans|
    ensures forall i :: 0 <= i < |loans| ==> r[i] == FormatLoanType(loans[i].loanType)
  {
    if loans == [] then [] else [FormatLoanType(loans[0].loanType)] + LoanTypeLines(loans[1..])
  }

  /** `LoanSection`: nothing without loans, else one card per loan. */
  function LoanSection(loans: Option<seq<Loan>>): (r: Option<seq<string>>)
    ensures r.Some? <==> HasLoans(loans)
    ensures r.Some? ==> |r.value| == |loans.value| > 0
    ensures r.Some? ==> forall i :: 0 <= i < |loans.value| ==> r.value[i] == FormatLoanType(loans.value[i].loanType)
  {
    if HasLoans(loans) then Some(LoanTypeLines(loans.value)) else None
  }
}
