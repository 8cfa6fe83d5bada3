/** The four-step member onboarding wizard: personal details, address,
    nominee, and the loan with its quoted premium. */
module AddMemberForm {
  import opened Wrappers
  import opened JsString
  import opened Patterns
  import opened FormState
  import opened LoanRules

  // ---------------------------------------------------------------- the draft

  datatype Address = Address(street: string, city: string, state: string, pincode: string)

  datatype Nominee = Nominee(name: string, relation: string, contactNo: string)

  /** The loan part of the draft: the four inputs, and the four fields a quote
      fills in (`None` where the source holds `''` or nothing). */
  datatype Loan = Loan(
    inputs: LoanInputs,
    basePremium: Option<real>,
    gst: Option<int>,
    totalPremium: Option<real>,
    duration: Option<int>)

  datatype Draft = Draft(
    memberName: string,
    contactNo: string,
    email: string,
    dob: Option<int>,
    gender: string,
    address: Address,
    occupation: string,
    nominee: Nominee,
    loan: Loan)

  const NoQuote := Loan(EmptyLoan, None, None, None, None)

  /** `EMPTY_FORM_DATA` */
  const EmptyDraft := Draft("", "", "", None, "", Address("", "", "", ""), "", Nominee("", "", ""), NoQuote)

  /** Day numbers (days since 1970-01-01) of the test dates. */
  const TestDob := 7305        // 1990-01-01
  const TestLoanStart := 18628 // 2021-01-01
  const TestLoanEnd := 20089   // 2025-01-01

  /** `TEST_DATA` */
  const TestDraft := Draft(
    "John Doe", "9876543210", "john.doe@example.com", Some(TestDob), "male",
    Address("123 Main Street", "Mumbai", "Maharashtra", "400001"),
    "Software Engineer",
    Nominee("Jane Doe", "spouse", "9876543211"),
    Loan(LoanInputs("personal", Some(100000.0), Some(TestLoanStart), Some(TestLoanEnd)), None, None, None, None))

  // ---------------------------------------------------------------- edits

  /** The text inputs of the first three steps; the nested ones are named
      `parent.child`. */
  datatype Field =
    | MemberName | ContactNo | Email | Gender | Occupation
    | Street | City | State | Pincode
    | NomineeName | NomineeRelation | NomineeContact
  {
    function Name(): string {
      match this
      case MemberName => "memberName"
      case ContactNo => "contactNo"
      case Email => "email"
      case Gender => "gender"
      case Occupation => "occupation"
      case Street => "address.street"
      case City => "address.city"
      case State => "address.state"
      case Pincode => "address.pincode"
      case NomineeName => "nominee.name"
      case NomineeRelation => "nominee.relation"
      case NomineeContact => "nominee.contactNo"
    }
  }

  /** The keys of the wizard's error map: each input's own name, and
      `premium` for the quote. */
  datatype Key = FieldKey(field: Field) | DobKey | LoanField(loanKey: LoanKey) | PremiumKey {
    function Name(): string {
      match this
      case FieldKey(f) => f.Name()
      case DobKey => "dob"
      case LoanField(k) => k.Name()
      case PremiumKey => "premium"
    }
  }

  type Errors = map<Key, Note<Problem>>

  function Read(d: Draft, f: Field): string {
    match f
    case MemberName => d.memberName
    case ContactNo => d.contactNo
    case Email => d.email
    case Gender => d.gender
    case Occupation => d.occupation
    case Street => d.address.street
    case City => d.address.city
    case State => d.address.state
    case Pincode => d.address.pincode
    case NomineeName => d.nominee.name
    case NomineeRelation => d.nominee.relation
    case NomineeContact => d.nominee.contactNo
  }

  /** `{ ...prev, [name]: value }`, or for `parent.child`
      `{ ...prev, [parent]: { ...prev[parent], [child]: value } }`: the one
      field takes the new value and nothing else in the draft changes. */
  function Write(d: Draft, f: Field, v: string): (r: Draft)
    ensures Read(r, f) == v
    ensures forall g :: g != f ==> Read(r, g) == Read(d, g)
    ensures r.dob == d.dob && r.loan == d.loan
  {
    match f
    case MemberName => d.(memberName := v)
    case ContactNo => d.(contactNo := v)
    case Email => d.(email := v)
    case Gender => d.(gender := v)
    case Occupation => d.(occupation := v)
    case Street => d.(address := d.address.(street := v))
    case City => d.(address := d.address.(city := v))
    case State => d.(address := d.address.(state := v))
    case Pincode => d.(address := d.address.(pincode := v))
    case NomineeName => d.(nominee := d.nominee.(name := v))
    case NomineeRelation => d.(nominee := d.nominee.(relation := v))
    case NomineeContact => d.(nominee := d.nominee.(contactNo := v))
  }

  /** A draft is determined by what its inputs read, its date of birth and its
      loan: writing back what is read changes nothing. */
  lemma WriteReadIdentity(d: Draft, f: Field)
    ensures Write(d, f, Read(d, f)) == d
  {
  }

  /** A change event reaching `handleInputChange`: a text input, or the date
      of birth (a date input, empty or a day). */
  datatype Edit = TextEdit(field: Field, value: string) | DobEdit(dob: Option<int>) {
    function Key(): Key {
      match this
      case TextEdit(f, _) => FieldKey(f)
      case DobEdit(_) => DobKey
    }

    function Apply(d: Draft): (r: Draft)
      ensures r.loan == d.loan
    {
      match this
      case TextEdit(f, v) => Write(d, f, v)
      case DobEdit(b) => d.(dob := b)
    }
  }

  // ---------------------------------------------------------------- premium

  /** `Math.ceil` on an exact rational. */
  function Ceil(x: real): (r: int)
    ensures (r - 1) as real < x <= r as real
  {
    -((-x).Floor)
  }

  /** `Math.ceil((end - start) / (1000 * 60 * 60 * 24 * 365))` for dates that
      parse to UTC midnights: the least whole number of 365-day years that
      covers the span. There is no lower bound, so a same-day or reversed loan
      gets 0 or fewer years. */
  function DurationYears(start: int, end: int): (r: int)
    ensures 365 * (r - 1) < end - start <= 365 * r
  {
    -((start - end) / 365)
  }

  /** `Math.ceil(premiumAmount * 0.18)`: 18% GST, rounded up to a whole rupee. */
  function GstOf(premium: real): (r: int)
    ensures premium * 18.0 / 100.0 <= r as real < premium * 18.0 / 100.0 + 1.0
  {
    Ceil(premium * 18.0 / 100.0)
  }

  /** The 2021-01-01 to 2025-01-01 test loan spans 1461 days, one more than
      four 365-day years, so it is quoted for five years. */
  lemma TestLoanIsFiveYears()
    ensures DurationYears(TestLoanStart, TestLoanEnd) == 5
  {
  }

  /** `{ loanAmount, year }` as sent with the quote request. */
  datatype PremiumParams = PremiumParams(loanAmount: real, year: int)

  /** The request `calculatePremium` would send for these inputs, or `None`
      when the amount or a date is empty. */
  function ParamsFor(l: LoanInputs): Option<PremiumParams> {
    if l.amount.None? || l.startDate.None? || l.endDate.None? then None
    else Some(PremiumParams(l.amount.value, DurationYears(l.startDate.value, l.endDate.value)))
  }

  /** The effect that applies a quote: base premium, GST, their sum, and the
      year count of the request. */
  function WithQuote(l: Loan, premium: real, year: int): (r: Loan)
    ensures r.inputs == l.inputs
    ensures r.gst.Some? && premium * 18.0 / 100.0 <= r.gst.value as real < premium * 18.0 / 100.0 + 1.0
    ensures r.basePremium == Some(premium) && r.duration == Some(year)
    ensures r.totalPremium == Some(premium + r.gst.value as real)
  {
    var gst := GstOf(premium);
    l.(basePremium := Some(premium), gst := Some(gst), totalPremium := Some(premium + gst as real),
       duration := Some(year))
  }

  /** The four quote fields blanked, as every change of type, amount or date does. */
  function Unquoted(l: Loan): (r: Loan)
    ensures r.inputs == l.inputs && !HasQuote(r)
  {
    l.(basePremium := None, gst := None, totalPremium := None, duration := None)
  }

  predicate HasQuote(l: Loan) {
    l.basePremium.Some? || l.gst.Some? || l.totalPremium.Some? || l.duration.Some?
  }

  /** The step-4 test `!basePremium || !gst || !totalPremium || !duration`
      fails on none of the four: each is present and non-zero. */
  predicate QuoteComplete(l: Loan) {
    && l.basePremium.Some? && l.basePremium.value != 0.0
    && l.gst.Some? && l.gst.value != 0
    && l.totalPremium.Some? && l.totalPremium.value != 0.0
    && l.duration.Some? && l.duration.value != 0
  }

  // ---------------------------------------------------------------- validation

  /** The messages the wizard reports. */
  datatype Problem =
    | NameInvalid | PhoneInvalid | EmailInvalid | DobRequired | DobInFuture | GenderRequired
    | StreetRequired | CityInvalid | StateInvalid | PincodeInvalid | OccupationRequired
    | NomineeNameInvalid | RelationRequired | LoanIssue(issue: LoanProblem)
    | PremiumRequired | FillLoanFirst
  {
    function Text(): string {
      match this
      case NameInvalid => "Name should be at least 2 characters and contain only letters"
      case PhoneInvalid => "Please enter a valid 10-digit phone number starting with 6-9"
      case EmailInvalid => "Please enter a valid email address"
      case DobRequired => "Date of birth is required"
      case DobInFuture => "Date of birth cannot be in the future"
      case GenderRequired => "Gender is required"
      case StreetRequired => "Street address is required"
      case CityInvalid => "City should contain only letters"
      case StateInvalid => "State should contain only letters"
      case PincodeInvalid => "Please enter a valid 6-digit pincode"
      case OccupationRequired => "Occupation is required"
      case NomineeNameInvalid => "Nominee name should be at least 2 characters and contain only letters"
      case RelationRequired => "Relationship is required"
      case LoanIssue(p) => p.Text()
      case PremiumRequired => "Please calculate premium before proceeding"
      case FillLoanFirst => "Please fill loan amount and dates first"
    }
  }

  /** The keys each step can report, in the order its checks run. */
  function StepKeys(step: int): seq<Key> {
    if step == 1 then [FieldKey(MemberName), FieldKey(ContactNo), FieldKey(Email), DobKey, FieldKey(Gender)]
    else if step == 2 then [FieldKey(Street), FieldKey(City), FieldKey(State), FieldKey(Pincode), FieldKey(Occupation)]
    else if step == 3 then [FieldKey(NomineeName), FieldKey(NomineeRelation), FieldKey(NomineeContact)]
    else if step == 4 then [LoanField(LoanType), LoanField(Amount), LoanField(StartDate), LoanField(EndDate), PremiumKey]
    else []
  }

  function Report(fails: bool, message: Problem): Option<Problem> {
    if fails then Some(message) else None
  }

  /** The message the check of one key leaves. `today` is the current day; a
      birth date later than today is in the future. */
  function KeyMessage(d: Draft, today: int, key: Key): Option<Problem> {
    match key
    case FieldKey(f) => FieldMessage(d, f)
    case DobKey => if d.dob.None? then Some(DobRequired) else Report(d.dob.value > today, DobInFuture)
    case LoanField(k) => if LoanMessage(d.loan.inputs, k).Some? then Some(LoanIssue(LoanMessage(d.loan.inputs, k).value)) else None
    case PremiumKey => Report(!QuoteComplete(d.loan), PremiumRequired)
  }

  /** The check of one plain field. */
  function FieldMessage(d: Draft, f: Field): Option<Problem> {
    match f
    case MemberName => Report(!IsPersonName(d.memberName), NameInvalid)
    case ContactNo => Report(!IsIndianMobile(d.contactNo), PhoneInvalid)
    case Email => Report(!IsEmail(d.email), EmailInvalid)
    case Gender => Report(d.gender == "", GenderRequired)
    case Street => Report(IsBlank(d.address.street), StreetRequired)
    case City => Report(!IsPersonName(d.address.city), CityInvalid)
    case State => Report(!IsPersonName(d.address.state), StateInvalid)
    case Pincode => Report(!IsPincode(d.address.pincode), PincodeInvalid)
    case Occupation => Report(IsBlank(d.occupation), OccupationRequired)
    case NomineeName => Report(!IsPersonName(d.nominee.name), NomineeNameInvalid)
    case NomineeRelation => Report(d.nominee.relation == "", RelationRequired)
    case NomineeContact => Report(!IsIndianMobile(d.nominee.contactNo), PhoneInvalid)
  }

  /** The error map `validateStep(step)` builds: one entry per failing check
      of that step, and none for a step number outside 1 to 4. */
  function StepErrors(d: Draft, today: int, step: int): Errors {
    map k | k in StepKeys(step) && KeyMessage(d, today, k).Some? :: Says(KeyMessage(d, today, k).value)
  }

  /** What each step demands of the draft, stated field by field. */
  predicate StepPasses(d: Draft, today: int, step: int) {
    if step == 1 then
      && IsPersonName(d.memberName) && IsIndianMobile(d.contactNo) && IsEmail(d.email)
      && d.dob.Some? && d.dob.value <= today && d.gender != ""
    else if step == 2 then
      && !IsBlank(d.address.street) && IsPersonName(d.address.city) && IsPersonName(d.address.state)
      && IsPincode(d.address.pincode) && !IsBlank(d.occupation)
    else if step == 3 then
      IsPersonName(d.nominee.name) && d.nominee.relation != "" && IsIndianMobile(d.nominee.contactNo)
    else if step == 4 then
      LoanErrors(d.loan.inputs) == map[] && QuoteComplete(d.loan)
    else true
  }

  /** Every reported message is non-empty, so Shown and presence agree. */
  lemma StepErrorsAreMessages(d: Draft, today: int, step: int)
    ensures AllMessages(StepErrors(d, today, step))
  {
  }

  /** Step 4 reports exactly the loan form's errors, plus the premium error
      when the quote is missing or has a zero field. */
  lemma StepFourIsLoanPlusPremium(d: Draft, today: int)
    ensures forall k :: LoanField(k) in StepErrors(d, today, 4) <==> k in LoanErrors(d.loan.inputs)
    ensures forall k :: k in LoanErrors(d.loan.inputs) ==>
      StepErrors(d, today, 4)[LoanField(k)] == Says(LoanIssue(LoanErrors(d.loan.inputs)[k].message))
    ensures PremiumKey in StepErrors(d, today, 4) <==> !QuoteComplete(d.loan)
    ensures forall k :: k in StepErrors(d, today, 4) ==> k.LoanField? || k == PremiumKey
  {
    forall k ensures LoanField(k) in StepErrors(d, today, 4) <==> k in LoanErrors(d.loan.inputs) {
      match k
      case LoanType => assert StepKeys(4)[0] == LoanField(k) && LoanKeys[0] == k;
      case Amount => assert StepKeys(4)[1] == LoanField(k) && LoanKeys[1] == k;
      case StartDate => assert StepKeys(4)[2] == LoanField(k) && LoanKeys[2] == k;
      case EndDate => assert StepKeys(4)[3] == LoanField(k) && LoanKeys[3] == k;
    }
  }

  /** `validateStep` returns true exactly when its step's demands are met. */
  lemma StepErrorsEmptyIff(d: Draft, today: int, step: int)
    ensures StepErrors(d, today, step) == map[] <==> StepPasses(d, today, step)
  {
    if step == 4 {
      StepFourEmptyIff(d, today);
    } else if StepPasses(d, today, step) {
      PassingStepIsEmpty(d, today, step);
    } else {
      FailingStepIsNotEmpty(d, today, step);
    }
  }

  lemma StepFourEmptyIff(d: Draft, today: int)
    ensures StepErrors(d, today, 4) == map[] <==> StepPasses(d, today, 4)
  {
    var m := StepErrors(d, today, 4);
    StepFourIsLoanPlusPremium(d, today);
    if LoanErrors(d.loan.inputs) != map[] {
      var k :| k in LoanErrors(d.loan.inputs);
      assert LoanField(k) in m;
    }
    if m != map[] {
      var k :| k in m;
    }
  }

  lemma PassingStepIsEmpty(d: Draft, today: int, step: int)
    requires step != 4 && StepPasses(d, today, step)
    ensures StepErrors(d, today, step) == map[]
  {
    forall k | k in StepKeys(step) ensures KeyMessage(d, today, k).None? {
    }
    assert StepErrors(d, today, step).Keys == {};
  }

  lemma FailingStepIsNotEmpty(d: Draft, today: int, step: int)
    requires step != 4 && !StepPasses(d, today, step)
    ensures StepErrors(d, today, step) != map[]
  {
    var keys := StepKeys(step);
    var k: Key;
    if step == 1 {
      k := if !IsPersonName(d.memberName) then keys[0] else if !IsIndianMobile(d.contactNo) then keys[1]
        else if !IsEmail(d.email) then keys[2] else if d.dob.None? || d.dob.value > today then keys[3] else keys[4];
    } else if step == 2 {
      k := if IsBlank(d.address.street) then keys[0] else if !IsPersonName(d.address.city) then keys[1]
        else if !IsPersonName(d.address.state) then keys[2] else if !IsPincode(d.address.pincode) then keys[3] else keys[4];
    } else {
      k := if !IsPersonName(d.nominee.name) then keys[0] else if d.nominee.relation == "" then keys[1] else keys[2];
    }
    assert KeyMessage(d, today, k).Some?;
    assert k in StepErrors(d, today, step);
  }

  /** A zero in any of the four quote fields blocks step 4, whatever else the
      draft holds. */
  lemma ZeroPremiumNeverPasses(d: Draft, today: int)
    requires d.loan.basePremium == Some(0.0) || d.loan.gst == Some(0)
          || d.loan.totalPremium == Some(0.0) || d.loan.duration == Some(0)
    ensures PremiumKey in StepErrors(d, today, 4)
  {
    assert PremiumKey in StepKeys(4);
  }

  /** A same-day loan passes the date checks, but its quote always has
      duration 0, so it can never pass step 4. */
  lemma SameDayLoanNeverCompletes(d: Draft, today: int, premium: real, day: int)
    requires d.loan.inputs.startDate == Some(day) && d.loan.inputs.endDate == Some(day)
    ensures LoanField(EndDate) !in StepErrors(d, today, 4)
    ensures PremiumKey in StepErrors(d.(loan := WithQuote(d.loan, premium, DurationYears(day, day))), today, 4)
  {
    assert DurationYears(day, day) == 0;
    assert PremiumKey in StepKeys(4);
  }

  // ------------------------------------------------- the cases of validateStep

  /** The map the checks of `ks` leave when they run in order, each
      recording its outcome with Put. */
  function Collected(d: Draft, today: int, ks: seq<Key>): Errors
    decreases |ks|
  {
    if ks == [] then map[]
    else Put(Collected(d, today, ks[..|ks| - 1]), ks[|ks| - 1], KeyMessage(d, today, ks[|ks| - 1]))
  }

  /** One more check run: the prefix of `ks` one key longer. */
  lemma CollectedStep(d: Draft, today: int, ks: seq<Key>, i: int)
    requires 0 < i <= |ks|
    ensures Collected(d, today, ks[..i]) == Put(Collected(d, today, ks[..i - 1]), ks[i - 1], KeyMessage(d, today, ks[i - 1]))
  {
    assert ks[..i][..i - 1] == ks[..i - 1];
  }

  /** Running the checks one after another leaves one entry per failing key,
      whatever the order. */
  lemma {:induction false} CollectedIsStepMap(d: Draft, today: int, ks: seq<Key>)
    ensures Collected(d, today, ks)
         == map k | k in ks && KeyMessage(d, today, k).Some? :: Says(KeyMessage(d, today, k).value)
  {
    if ks != [] {
      var init := ks[..|ks| - 1];
      var last := ks[|ks| - 1];
      CollectedIsStepMap(d, today, init);
      assert ks == init + [last];
      var lhs := Collected(d, today, ks);
      var rhs := map k | k in ks && KeyMessage(d, today, k).Some? :: Says(KeyMessage(d, today, k).value);
      assert lhs.Keys == rhs.Keys;
    }
  }

  /** `case 1` of `validateStep`. */
  method PersonalChecks(d: Draft, today: int) returns (m: Errors)
    ensures m == StepErrors(d, today, 1)
  {
    var ks := StepKeys(1);
    m := map[];
    m := Put(m, FieldKey(MemberName), Report(!IsPersonName(d.memberName), NameInvalid));
    CollectedStep(d, today, ks, 1);
    m := Put(m, FieldKey(ContactNo), Report(!IsIndianMobile(d.contactNo), PhoneInvalid));
    CollectedStep(d, today, ks, 2);
    m := Put(m, FieldKey(Email), Report(!IsEmail(d.email), EmailInvalid));
    CollectedStep(d, today, ks, 3);
    var dob := if d.dob.None? then Some(DobRequired) else Report(d.dob.value > today, DobInFuture);
    m := Put(m, DobKey, dob);
    CollectedStep(d, today, ks, 4);
    m := Put(m, FieldKey(Gender), Report(d.gender == "", GenderRequired));
    CollectedStep(d, today, ks, 5);
    assert ks[..5] == ks;
    CollectedIsStepMap(d, today, ks);
  }

  /** `case 2` of `validateStep`. */
  method AddressChecks(d: Draft, today: int) returns (m: Errors)
    ensures m == StepErrors(d, today, 2)
  {
    var ks := StepKeys(2);
    m := map[];
    m := Put(m, FieldKey(Street), Report(IsBlank(d.address.street), StreetRequired));
    CollectedStep(d, today, ks, 1);
    m := Put(m, FieldKey(City), Report(!IsPersonName(d.address.city), CityInvalid));
    CollectedStep(d, today, ks, 2);
    m := Put(m, FieldKey(State), Report(!IsPersonName(d.address.state), StateInvalid));
    CollectedStep(d, today, ks, 3);
    m := Put(m, FieldKey(Pincode), Report(!IsPincode(d.address.pincode), PincodeInvalid));
    CollectedStep(d, today, ks, 4);
    m := Put(m, FieldKey(Occupation), Report(IsBlank(d.occupation), OccupationRequired));
    CollectedStep(d, today, ks, 5);
    assert ks[..5] == ks;
    CollectedIsStepMap(d, today, ks);
  }

  /** `case 3` of `validateStep`. */
  method NomineeChecks(d: Draft, today: int) returns (m: Errors)
    ensures m == StepErrors(d, today, 3)
  {
    var ks := StepKeys(3);
    m := map[];
    m := Put(m, FieldKey(NomineeName), Report(!IsPersonName(d.nominee.name), NomineeNameInvalid));
    CollectedStep(d, today, ks, 1);
    m := Put(m, FieldKey(NomineeRelation), Report(d.nominee.relation == "", RelationRequired));
    CollectedStep(d, today, ks, 2);
    m := Put(m, FieldKey(NomineeContact), Report(!IsIndianMobile(d.nominee.contactNo), PhoneInvalid));
    CollectedStep(d, today, ks, 3);
    assert ks[..3] == ks;
    CollectedIsStepMap(d, today, ks);
  }

  /** `case 4` of `validateStep`. */
  method LoanChecks(d: Draft, today: int) returns (m: Errors)
    ensures m == StepErrors(d, today, 4)
  {
    var ks := StepKeys(4);
    var l := d.loan.inputs;
    m := map[];
    m := Put(m, LoanField(LoanType), Report(l.loanType == "", LoanIssue(TypeRequired)));
    CollectedStep(d, today, ks, 1);
    m := Put(m, LoanField(Amount), Report(l.amount.None? || l.amount.value <= 0.0, LoanIssue(InvalidAmount)));
    CollectedStep(d, today, ks, 2);
    m := Put(m, LoanField(StartDate), Report(l.startDate.None?, LoanIssue(StartRequired)));
    CollectedStep(d, today, ks, 3);
    var end := Report(l.endDate.None?, LoanIssue(EndRequired));
    if l.startDate.Some? && l.endDate.Some? && l.startDate.value > l.endDate.value {
      end := Some(LoanIssue(EndBeforeStart));
    }
    m := Put(m, LoanField(EndDate), end);
    CollectedStep(d, today, ks, 4);
    m := Put(m, PremiumKey, Report(!QuoteComplete(d.loan), PremiumRequired));
    CollectedStep(d, today, ks, 5);
    assert ks[..5] == ks;
    CollectedIsStepMap(d, today, ks);
  }

  // ---------------------------------------------------------------- the wizard

  /** The quote fields were filled for the request that the present amount and
      dates would send: a quote is never stale. */
  predicate QuoteMatches(l: Loan, params: Option<PremiumParams>) {
    HasQuote(l) ==> params.Some? && params == ParamsFor(l.inputs) && l.duration == Some(params.value.year)
  }

  class Wizard {
    var currentStep: int
    var formData: Draft
    var errors: Errors
    var premiumParams: Option<PremiumParams>

    ghost predicate Valid()
      reads this
    {
      1 <= currentStep <= 4
    }

    ghost predicate QuoteCurrent()
      reads this
    {
      QuoteMatches(formData.loan, premiumParams)
    }

    constructor ()
      ensures Valid() && QuoteCurrent()
      ensures currentStep == 1 && formData == EmptyDraft && errors == map[] && premiumParams == None
    {
      currentStep := 1;
      formData := EmptyDraft;
      errors := map[];
      premiumParams := None;
    }

    /** `calculateProgress`: the share of completed steps, in percent. */
    function Progress(): (r: int)
      reads this
      requires Valid()
      ensures r * 4 == (currentStep - 1) * 100
      ensures 0 <= r <= 75
    {
      (currentStep - 1) * 25
    }

    /** The effect run when the dialog is shown: the draft becomes the given
        one, else the test data when the `useTestData` prop is the text
        'true', else the empty draft; the errors go and the step is left where
        it was. */
    method Open(initialData: Option<Draft>, useTestData: string)
      modifies this`formData, this`errors
      ensures formData == (if initialData.Some? then initialData.value
                           else if useTestData == "true" then TestDraft else EmptyDraft)
      ensures errors == map[]
      ensures initialData.None? || !HasQuote(initialData.value.loan) ==> QuoteCurrent()
    {
      if initialData.Some? {
        formData := initialData.value;
      } else if useTestData == "true" {
        formData := TestDraft;
      } else {
        formData := EmptyDraft;
      }
      errors := map[];
    }

    /** `validateStep`: builds the step's error map check by check, stores
        it, and reports whether it is empty. */
    method ValidateStep(step: int, today: int) returns (ok: bool)
      modifies this`errors
      ensures errors == StepErrors(formData, today, step)
      ensures ok <==> StepPasses(formData, today, step)
      ensures ok <==> errors == map[]
    {
      var d := formData;
      var newErrors: Errors := map[];
      if step == 1 {
        newErrors := PersonalChecks(d, today);
      } else if step == 2 {
        newErrors := AddressChecks(d, today);
      } else if step == 3 {
        newErrors := NomineeChecks(d, today);
      } else if step == 4 {
        newErrors := LoanChecks(d, today);
      } else {
        assert StepErrors(d, today, step).Keys == {};
      }
      StepErrorsEmptyIff(d, today, step);
      errors := newErrors;
      ok := |newErrors| == 0;
    }

    /** `handleNext`: validate the current step, and advance when it passes
        and there is a step after it. */
    method Next(today: int)
      requires Valid()
      modifies this`currentStep, this`errors
      ensures Valid()
      ensures errors == StepErrors(formData, today, old(currentStep))
      ensures currentStep ==
        if StepPasses(formData, today, old(currentStep)) && old(currentStep) < 4
        then old(currentStep) + 1 else old(currentStep)
    {
      var ok := ValidateStep(currentStep, today);
      if ok && currentStep < 4 {
        currentStep := currentStep + 1;
      }
    }

    /** `handlePrevious`; its button is shown only after the first step. */
    method Previous()
      requires Valid() && currentStep > 1
      modifies this`currentStep
      ensures Valid() && currentStep == old(currentStep) - 1
    {
      currentStep := currentStep - 1;
    }

    /** `handleClose`: back to step 1 with the empty draft and no errors. The
        last quote request is kept. */
    method Close()
      modifies this`currentStep, this`formData, this`errors
      ensures Valid() && QuoteCurrent()
      ensures currentStep == 1 && formData == EmptyDraft && errors == map[]
    {
      currentStep := 1;
      formData := EmptyDraft;
      errors := map[];
    }

    /** `handleSubmit` (the form's submit button): on the last step a passing
        draft is handed to the caller; on an earlier one it acts as Next. */
    method Submit(today: int) returns (submitted: Option<Draft>)
      requires Valid()
      modifies this`currentStep, this`errors
      ensures Valid()
      ensures errors == StepErrors(formData, today, old(currentStep))
      ensures submitted.Some? <==> old(currentStep) == 4 && StepPasses(formData, today, 4)
      ensures submitted.Some? ==> submitted.value == formData
      ensures currentStep ==
        if StepPasses(formData, today, old(currentStep)) && old(currentStep) < 4
        then old(currentStep) + 1 else old(currentStep)
    {
      submitted := None;
      var ok := ValidateStep(currentStep, today);
      if ok {
        if currentStep == 4 {
          submitted := Some(formData);
        } else {
          Next(today);
        }
      }
    }

    /** `handleInputChange`: the named field takes the value, the loan is left
        alone, and an error shown under that name is blanked. */
    method InputChange(e: Edit)
      modifies this`formData, this`errors
      ensures formData == e.Apply(old(formData)) && formData.loan == old(formData).loan
      ensures errors == ClearOnEdit(old(errors), e.Key())
      ensures old(QuoteCurrent()) ==> QuoteCurrent()
    {
      formData := e.Apply(formData);
      errors := ClearOnEdit(errors, e.Key());
    }

    /** `handleLoanInputChange` and the free-text loan-type input: the field
        takes the value and the quote fields are blanked. A loan-type change
        returns early and leaves the errors alone; the others blank the
        field's error. */
    method LoanInputChange(e: LoanEdit)
      modifies this`formData, this`errors
      ensures formData == old(formData).(loan := Unquoted(old(formData).loan).(inputs := e.Apply(old(formData).loan.inputs)))
      ensures errors == if e.SetLoanType? then old(errors) else ClearOnEdit(old(errors), LoanField(e.Key()))
      ensures QuoteCurrent()
    {
      var l := Unquoted(formData.loan);
      formData := formData.(loan := l.(inputs := e.Apply(l.inputs)));
      if !e.SetLoanType? {
        errors := ClearOnEdit(errors, LoanField(e.Key()));
      }
    }

    /** `calculatePremium`: with the amount and both dates given, request a
        quote for the amount over `DurationYears` years; otherwise only report
        that they are missing. */
    method CalculatePremium()
      modifies this`errors, this`premiumParams
      ensures ParamsFor(formData.loan.inputs).Some? ==>
        premiumParams == ParamsFor(formData.loan.inputs) && errors == old(errors)
      ensures ParamsFor(formData.loan.inputs).None? ==>
        premiumParams == old(premiumParams) && errors == old(errors)[PremiumKey := Says(FillLoanFirst)]
      ensures old(QuoteCurrent()) ==> QuoteCurrent()
    {
      var l := formData.loan.inputs;
      if l.amount.None? || l.startDate.None? || l.endDate.None? {
        errors := errors[PremiumKey := Says(FillLoanFirst)];
        return;
      }
      var year := DurationYears(l.startDate.value, l.endDate.value);
      premiumParams := Some(PremiumParams(l.amount.value, year));
    }

    /** The effect that runs when the quote for `premiumParams` arrives: it
        fills the quote fields whatever the inputs are now, and blanks the
        premium error. */
    method ApplyQuote(premiumAmount: real)
      requires premiumParams.Some?
      modifies this`formData, this`errors
      ensures formData == old(formData).(loan := WithQuote(old(formData).loan, premiumAmount, premiumParams.value.year))
      ensures errors == old(errors)[PremiumKey := Cleared]
    {
      formData := formData.(loan := WithQuote(formData.loan, premiumAmount, premiumParams.value.year));
      errors := errors[PremiumKey := Cleared];
    }

    /** The quote effect as evidently intended: a quote is applied only while
        the request still matches the amount and dates on the form. A quote
        that is applied leaves the form current even when it was not before. */
    method ApplyQuoteIfCurrent(premiumAmount: real)
      requires premiumParams.Some?
      modifies this`formData, this`errors
      ensures premiumParams == ParamsFor(formData.loan.inputs) ==> QuoteCurrent()
      ensures old(QuoteCurrent()) ==> QuoteCurrent()
      ensures premiumParams == ParamsFor(formData.loan.inputs) ==>
        formData == old(formData).(loan := WithQuote(old(formData).loan, premiumAmount, premiumParams.value.year))
        && errors == old(errors)[PremiumKey := Cleared]
      ensures premiumParams != ParamsFor(formData.loan.inputs) ==>
        formData == old(formData) && errors == old(errors)
    {
      if premiumParams == ParamsFor(formData.loan.inputs) {
        ApplyQuote(premiumAmount);
      }
    }
  }

  /** Press "Calculate Premium" on the test loan, change the amount before the
      quote arrives, then let it arrive: the form shows a premium quoted for
      100000 against an amount of 200000, and step 4 accepts it. */
  method StaleQuoteScenario(today: int) returns (w: Wizard)
    ensures w.formData.loan.inputs.amount == Some(200000.0)
    ensures w.premiumParams == Some(PremiumParams(100000.0, 5))
    ensures w.formData.loan.basePremium == Some(1000.0)
    ensures !w.QuoteCurrent()
    ensures StepPasses(w.formData, today, 4)
  {
    w := new Wizard();
    w.Open(None, "true");
    w.CalculatePremium();
    TestLoanIsFiveYears();
    w.LoanInputChange(SetAmount(Some(200000.0)));
    w.ApplyQuote(1000.0);
    LoanErrorsEmptyIff(w.formData.loan.inputs);
  }

  /** The same sequence with the corrected effect: the quote for 100000 is
      refused once the amount reads 200000, the premium stays empty and
      step 4 does not pass. */
  method StaleQuoteRefused(today: int) returns (w: Wizard)
    ensures w.formData.loan.inputs.amount == Some(200000.0)
    ensures w.premiumParams == Some(PremiumParams(100000.0, 5))
    ensures w.formData.loan.basePremium == None
    ensures w.QuoteCurrent()
    ensures !StepPasses(w.formData, today, 4)
  {
    w := new Wizard();
    w.Open(None, "true");
    w.CalculatePremium();
    TestLoanIsFiveYears();
    w.LoanInputChange(SetAmount(Some(200000.0)));
    w.ApplyQuoteIfCurrent(1000.0);
  }
}
