/** The admin's "Add New Vendor" dialog: four fields, each checked on every
    edit and all together on submit. */
module VendorForm {
  import opened Wrappers
  import opened JsString
  import opened Patterns
  import opened FormState

  /** `formData.role`: the role is always 'vendor'. */
  datatype Role = Role(role: string, componentId: string)

  datatype Vendor = Vendor(name: string, email: string, mobile: string, role: Role)

  /** The initial and the reset form. */
  const EmptyVendor := Vendor("", "", "", Role("vendor", ""))

  /** The inputs, whose `name` attributes key the error map. */
  datatype Key = NameKey | EmailKey | MobileKey | ComponentKey {
    function Name(): string {
      match this
      case NameKey => "name"
      case EmailKey => "email"
      case MobileKey => "mobile"
      case ComponentKey => "componentId"
    }
  }

  datatype Problem =
    | NameRequired | NameTooShort | NameTooLong | NameNotLetters
    | EmailRequired | EmailInvalid | EmailTooLong | EmailTaken
    | MobileRequired | MobileNotTenDigits | MobileBadStart
    | ComponentRequired
  {
    function Text(): string {
      match this
      case NameRequired => "Name is required"
      case NameTooShort => "Name must be at least 2 characters long"
      case NameTooLong => "Name must not exceed 50 characters"
      case NameNotLetters => "Name should only contain letters and spaces"
      case EmailRequired => "Email is required"
      case EmailInvalid => "Please enter a valid email address"
      case EmailTooLong => "Email must not exceed 100 characters"
      case EmailTaken => "This email is already registered"
      case MobileRequired => "Mobile number is required"
      case MobileNotTenDigits => "Mobile number must be exactly 10 digits"
      case MobileBadStart => "Mobile number must start with 6, 7, 8, or 9"
      case ComponentRequired => "Please select a component"
    }
  }

  type Errors = map<Key, Note<Problem>>

  // ---------------------------------------------------------------- the validators

  /** `validateName`, on the trimmed name: `None` for `''`. The bounds are on
      `length`, which counts UTF-16 units. */
  function NameProblem(name: string): Option<Problem> {
    var t := Trim(name);
    if t == [] then Some(NameRequired)
    else if Utf16Length(t) < 2 then Some(NameTooShort)
    else if Utf16Length(t) > 50 then Some(NameTooLong)
    else if !LettersAndSpaces(t) then Some(NameNotLetters)
    else None
  }

  /** `validateEmail`, on the trimmed address; the length is checked last. */
  function EmailProblem(email: string): Option<Problem> {
    var t := Trim(email);
    if t == [] then Some(EmailRequired)
    else if !IsVendorEmail(t) then Some(EmailInvalid)
    else if Utf16Length(t) > 100 then Some(EmailTooLong)
    else None
  }

  /** `validateMobile`, on the number as typed. */
  function MobileProblem(mobile: string): Option<Problem> {
    if mobile == "" then Some(MobileRequired)
    else if !IsTenDigits(mobile) then Some(MobileNotTenDigits)
    else if !('6' <= mobile[0] <= '9') then Some(MobileBadStart)
    else None
  }

  function ComponentProblem(componentId: string): Option<Problem> {
    if componentId == "" then Some(ComponentRequired) else None
  }

  /** The name passes exactly when, trimmed, it is 2 to 50 letters and
      spaces. */
  lemma NameProblemIff(name: string)
    ensures NameProblem(name).None? <==> 2 <= |Trim(name)| <= 50 && LettersAndSpaces(Trim(name))
  {
    if LettersAndSpaces(Trim(name)) { LettersAndSpacesInBmp(Trim(name)); }
  }

  /** The length checks count UTF-16 units, so a name of astral characters
      (emoji, say) reaches the letters-and-spaces message with half the
      characters the bounds name. */
  lemma NameLengthInUnits(name: string)
    ensures Trim(name) != [] && Utf16Length(Trim(name)) < 2 ==> NameProblem(name) == Some(NameTooShort)
    ensures Utf16Length(Trim(name)) > 50 ==> NameProblem(name) == Some(NameTooLong)
    ensures Trim(name) != [] && 2 <= Utf16Length(Trim(name)) <= 50 && !LettersAndSpaces(Trim(name)) ==>
      NameProblem(name) == Some(NameNotLetters)
    ensures Trim(name) != [] && InBmp(Trim(name)) ==>
      (NameProblem(name) == Some(NameTooShort) <==> |Trim(name)| < 2)
  {
  }

  /** One emoji is two units long: not too short, but not letters. */
  lemma EmojiNameIsNotLetters()
    ensures NameProblem("\U{1F600}") == Some(NameNotLetters)
  {
    var e := "\U{1F600}";
    assert !IsWs(e[0]);
    assert Trim(e) == e by { TrimSpec(e); }
    assert Utf16Length(e) == 2;
  }

  /** The address passes exactly when, trimmed, it matches the vendor e-mail
      expression and has at most 100 characters; a malformed address is
      reported as malformed however long it is. */
  lemma EmailProblemIff(email: string)
    ensures EmailProblem(email).None? <==> VendorEmailRegexMatch(Trim(email)) && |Trim(email)| <= 100
    ensures Trim(email) != [] && !VendorEmailRegexMatch(Trim(email)) ==> EmailProblem(email) == Some(EmailInvalid)
  {
    VendorEmailRegexIff(Trim(email));
    if IsVendorEmail(Trim(email)) { VendorEmailInBmp(Trim(email)); }
  }

  /** The number passes exactly when it is an Indian mobile number. */
  lemma MobileProblemIff(mobile: string)
    ensures MobileProblem(mobile).None? <==> IsIndianMobile(mobile)
    ensures MobileProblem(mobile).None? <==> IsTenDigits(mobile) && '6' <= mobile[0] <= '9'
  {
    IndianMobileIsTenDigits(mobile);
  }

  /** The message an edit or a submit stores for one field: `''` when the
      check passes. */
  function NoteOf(p: Option<Problem>): (r: Note<Problem>)
    ensures r.Cleared? <==> p.None?
    ensures p.Some? ==> r == Says(p.value)
  {
    if p.Some? then Says(p.value) else Cleared
  }

  function FieldProblem(d: Vendor, k: Key): Option<Problem> {
    match k
    case NameKey => NameProblem(d.name)
    case EmailKey => EmailProblem(d.email)
    case MobileKey => MobileProblem(d.mobile)
    case ComponentKey => ComponentProblem(d.role.componentId)
  }

  /** What the vendor form demands, stated through the regular expressions. */
  ghost predicate VendorValid(d: Vendor) {
    && 2 <= |Trim(d.name)| <= 50 && LettersAndSpaces(Trim(d.name))
    && VendorEmailRegexMatch(Trim(d.email)) && |Trim(d.email)| <= 100
    && IsIndianMobile(d.mobile)
    && d.role.componentId != ""
  }

  /** The map `validateForm` stores: all four keys, each `''` or a message. */
  function FormErrors(d: Vendor): (r: Errors)
    ensures r.Keys == {NameKey, EmailKey, MobileKey, ComponentKey}
    ensures forall k :: k in r ==> r[k] == NoteOf(FieldProblem(d, k))
  {
    map[NameKey := NoteOf(NameProblem(d.name)), EmailKey := NoteOf(EmailProblem(d.email)),
        MobileKey := NoteOf(MobileProblem(d.mobile)), ComponentKey := NoteOf(ComponentProblem(d.role.componentId))]
  }

  /** `validateForm` passes exactly when no field shows a message, which is
      exactly when the data meets the vendor form's demands. */
  lemma FormErrorsIff(d: Vendor)
    ensures (forall k :: !Shown(FormErrors(d), k)) <==> VendorValid(d)
  {
    NameProblemIff(d.name);
    EmailProblemIff(d.email);
    MobileProblemIff(d.mobile);
    if forall k :: !Shown(FormErrors(d), k) {
      assert !Shown(FormErrors(d), NameKey) && !Shown(FormErrors(d), EmailKey);
      assert !Shown(FormErrors(d), MobileKey) && !Shown(FormErrors(d), ComponentKey);
    }
  }

  /** An input's change event. */
  datatype Edit = Edit(key: Key, value: string) {
    /** The component goes into `role.componentId`, keeping the role; any
        other input sets its own field. */
    function Apply(d: Vendor): (r: Vendor)
      ensures r.role.role == d.role.role
      ensures FieldProblem(r, key) == match key
        case NameKey => NameProblem(value)
        case EmailKey => EmailProblem(value)
        case MobileKey => MobileProblem(value)
        case ComponentKey => ComponentProblem(value)
      ensures forall k :: k != key ==> FieldProblem(r, k) == FieldProblem(d, k)
      ensures key == NameKey ==> r == d.(name := value)
      ensures key == EmailKey ==> r == d.(email := value)
      ensures key == MobileKey ==> r == d.(mobile := value)
      ensures key == ComponentKey ==> r == d.(role := d.role.(componentId := value))
    {
      match key
      case NameKey => d.(name := value)
      case EmailKey => d.(email := value)
      case MobileKey => d.(mobile := value)
      case ComponentKey => d.(role := d.role.(componentId := value))
    }
  }

  class Dialog {
    var formData: Vendor
    var validationErrors: Errors

    constructor ()
      ensures formData == EmptyVendor && validationErrors == map[]
    {
      formData := EmptyVendor;
      validationErrors := map[];
    }

    /** `validateForm` */
    method ValidateForm() returns (ok: bool)
      modifies this`validationErrors
      ensures validationErrors == FormErrors(formData)
      ensures ok <==> VendorValid(formData)
    {
      var errors := map[NameKey := NoteOf(NameProblem(formData.name)),
                        EmailKey := NoteOf(EmailProblem(formData.email)),
                        MobileKey := NoteOf(MobileProblem(formData.mobile)),
                        ComponentKey := NoteOf(ComponentProblem(formData.role.componentId))];
      validationErrors := errors;
      FormErrorsIff(formData);
      ok := !errors[NameKey].Says? && !errors[EmailKey].Says? && !errors[MobileKey].Says? && !errors[ComponentKey].Says?;
      if ok {
        forall k ensures !Shown(errors, k) {
          match k
          case NameKey =>
          case EmailKey =>
          case MobileKey =>
          case ComponentKey =>
        }
      } else {
        assert Shown(errors, NameKey) || Shown(errors, EmailKey) || Shown(errors, MobileKey) || Shown(errors, ComponentKey);
      }
    }

    /** `handleInputChange`: the field takes the value and only its message
        is recomputed, from the value alone. */
    method InputChange(e: Edit)
      modifies this
      ensures formData == e.Apply(old(formData))
      ensures validationErrors == old(validationErrors)[e.key := NoteOf(FieldProblem(formData, e.key))]
    {
      formData := e.Apply(formData);
      validationErrors := validationErrors[e.key := NoteOf(FieldProblem(formData, e.key))];
    }

    /** `handleSubmit`: the data is sent only when `validateForm` passes. */
    method Submit() returns (sent: Option<Vendor>)
      modifies this`validationErrors
      ensures validationErrors == FormErrors(formData)
      ensures sent.Some? <==> VendorValid(formData)
      ensures sent.Some? ==> sent.value == formData
    {
      var ok := ValidateForm();
      sent := if ok then Some(formData) else None;
    }

    /** `onSuccess`: the form and its messages are reset. */
    method Created()
      modifies this
      ensures formData == EmptyVendor && validationErrors == map[]
    {
      formData := EmptyVendor;
      validationErrors := map[];
    }

    /** `onError`: an 'Email already exists' error is shown under the e-mail
        field; any other is toasted, with the server's message when there is
        one. */
    method Failed(message: string, serverMessage: Option<string>) returns (toast: Option<string>)
      modifies this`validationErrors
      ensures message == "Email already exists" ==>
        toast == None && validationErrors == old(validationErrors)[EmailKey := Says(EmailTaken)]
      ensures message != "Email already exists" ==>
        && validationErrors == old(validationErrors)
        && toast == Some(OrElse(serverMessage, "Failed to create vendor"))
    {
      if message == "Email already exists" {
        validationErrors := validationErrors[EmailKey := Says(EmailTaken)];
        toast := None;
      } else {
        toast := Some(OrElse(serverMessage, "Failed to create vendor"));
      }
    }
  }
}
