/** The dialog that creates a user from the admin's user list: every field
    is required, and a well-formed mobile number is always checked for
    availability. */
module AddUserForm {
  import opened Wrappers
  import opened JsString
  import opened Patterns
  import opened FormState
  import opened UserFields
  import UserCache

  /** The message `validateForm` leaves under one key; `taken` is the
      availability check's answer. */
  function KeyProblem(d: UserData, taken: bool, k: Key): Option<Problem> {
    match k
    case NameKey => NameProblem(d.name)
    case EmailKey => EmailProblem(d.email)
    case PasswordKey => PasswordProblem(d.password)
    case MobileKey =>
      if MobileFormatProblem(d.mobile).Some? then MobileFormatProblem(d.mobile)
      else if taken then Some(MobileTaken)
      else None
    case RoleKey => if d.role == "" then Some(RoleRequired) else None
  }

  const AllKeys := [NameKey, EmailKey, PasswordKey, MobileKey, RoleKey]

  function FormErrors(d: UserData, taken: bool): Errors {
    map k | k in AllKeys && KeyProblem(d, taken, k).Some? :: Says(KeyProblem(d, taken, k).value)
  }

  lemma FormErrorsByKey(d: UserData, taken: bool, m: Errors)
    requires forall k :: k in m <==> KeyProblem(d, taken, k).Some?
    requires forall k :: k in m ==> m[k] == Says(KeyProblem(d, taken, k).value)
    ensures m == FormErrors(d, taken)
  {
    forall k ensures k in AllKeys {
      match k
      case NameKey => assert AllKeys[0] == k;
      case EmailKey => assert AllKeys[1] == k;
      case PasswordKey => assert AllKeys[2] == k;
      case MobileKey => assert AllKeys[3] == k;
      case RoleKey => assert AllKeys[4] == k;
    }
  }

  lemma PutEachKey(d: UserData, taken: bool)
    ensures var p := k => KeyProblem(d, taken, k);
      Put(Put(Put(Put(Put(map[], NameKey, p(NameKey)), EmailKey, p(EmailKey)), PasswordKey, p(PasswordKey)),
        MobileKey, p(MobileKey)), RoleKey, p(RoleKey)) == FormErrors(d, taken)
  {
    var p := k => KeyProblem(d, taken, k);
    var a, b, c, e, f := p(NameKey), p(EmailKey), p(PasswordKey), p(MobileKey), p(RoleKey);
    PutChain(a, b, c, e, f);
    var m := Put(Put(Put(Put(Put(map[], NameKey, a), EmailKey, b), PasswordKey, c), MobileKey, e), RoleKey, f);
    forall k ensures Pick(k, a, b, c, e, f) == p(k) {
      match k
      case NameKey =>
      case EmailKey =>
      case PasswordKey =>
      case MobileKey =>
      case RoleKey =>
    }
    FormErrorsByKey(d, taken, m);
  }

  /** What the dialog demands, through the regular expressions: a real name,
      an address, a valid password, a ten-digit number nobody has, a role. */
  ghost predicate FormPasses(d: UserData, taken: bool) {
    && IsPersonName(d.name) && !IsBlank(d.name)
    && EmailRegexMatch(d.email)
    && IsPassword(d.password)
    && IsTenDigits(d.mobile) && !taken
    && d.role != ""
  }

  lemma NoProblemIff(d: UserData, taken: bool)
    ensures (forall k :: KeyProblem(d, taken, k).None?) <==> FormPasses(d, taken)
  {
    NameProblemIff(d.name);
    EmailProblemIff(d.email);
    PasswordProblemIff(d.password);
    MobileFormatProblemIff(d.mobile);
    var p := k => KeyProblem(d, taken, k);
    if !IsPersonName(d.name) || IsBlank(d.name) {
      assert p(NameKey).Some?;
    } else if !EmailRegexMatch(d.email) {
      assert p(EmailKey).Some?;
    } else if !IsPassword(d.password) {
      assert p(PasswordKey).Some?;
    } else if d.role == "" {
      assert p(RoleKey).Some?;
    } else if !IsTenDigits(d.mobile) || taken {
      assert p(MobileKey).Some?;
    } else {
      forall k ensures p(k).None? {
        match k
        case NameKey =>
        case EmailKey =>
        case PasswordKey =>
        case MobileKey =>
        case RoleKey =>
      }
    }
  }

  lemma FormErrorsEmptyIff(d: UserData, taken: bool)
    ensures FormErrors(d, taken) == map[] <==> FormPasses(d, taken)
  {
    NoProblemIff(d, taken);
    var m := FormErrors(d, taken);
    if !FormPasses(d, taken) {
      var k :| KeyProblem(d, taken, k).Some?;
      assert k in AllKeys by {
        match k
        case NameKey => assert AllKeys[0] == k;
        case EmailKey => assert AllKeys[1] == k;
        case PasswordKey => assert AllKeys[2] == k;
        case MobileKey => assert AllKeys[3] == k;
        case RoleKey => assert AllKeys[4] == k;
      }
      assert k in m;
    }
  }

  /** The form's own `checkMobileExists` has the same body as the users
      hook's, so it is modelled by UserCache.MobileExists. It catches its
      own failure and answers
      `false`, so the `catch` around it never runs: 'Error checking mobile
      number availability' is never shown, and a failed request lets the
      number through. */
  lemma CheckFailureNeverShown(d: UserData, reply: Result<bool, string>, k: Key)
    ensures k in FormErrors(d, UserCache.MobileExists(reply)) ==>
      FormErrors(d, UserCache.MobileExists(reply))[k] != Says(MobileCheckFailed)
    ensures reply.Err? ==> (MobileKey !in FormErrors(d, UserCache.MobileExists(reply)) <==> IsTenDigits(d.mobile))
  {
    MobileFormatProblemIff(d.mobile);
    assert AllKeys[3] == MobileKey;
  }

  /** The body of `validateForm`, check after check. */
  method Checks(d: UserData, taken: bool) returns (m: Errors, asked: bool)
    ensures m == FormErrors(d, taken)
    ensures asked <==> IsTenDigits(d.mobile)
  {
    MobileFormatProblemIff(d.mobile);
    m := map[];
    m := Put(m, NameKey, NameProblem(d.name));
    m := Put(m, EmailKey, EmailProblem(d.email));
    m := Put(m, PasswordKey, PasswordProblem(d.password));
    asked := false;
    var mobile := MobileFormatProblem(d.mobile);
    if mobile.None? {
      asked := true;
      if taken { mobile := Some(MobileTaken); }
    }
    m := Put(m, MobileKey, mobile);
    m := Put(m, RoleKey, if d.role == "" then Some(RoleRequired) else None);
    PutEachKey(d, taken);
  }

  class Dialog {
    var formData: UserData
    var errors: Errors
    var isCheckingMobile: bool

    ghost predicate Valid()
      reads this
    {
      !isCheckingMobile
    }

    constructor ()
      ensures Valid() && formData == EmptyUser && errors == map[]
    {
      formData := EmptyUser;
      errors := map[];
      isCheckingMobile := false;
    }

    /** `validateForm`, with the availability request's reply as `reply`. */
    method ValidateForm(reply: Result<bool, string>) returns (ok: bool, asked: bool)
      requires Valid()
      modifies this`errors, this`isCheckingMobile
      ensures asked <==> IsTenDigits(formData.mobile)
      ensures errors == FormErrors(formData, UserCache.MobileExists(reply))
      ensures ok <==> FormPasses(formData, UserCache.MobileExists(reply))
      ensures ok <==> errors == map[]
      ensures Valid()
    {
      var taken := UserCache.MobileExists(reply);
      var newErrors;
      newErrors, asked := Checks(formData, taken);
      if asked {
        isCheckingMobile := true;
        isCheckingMobile := false;
      }
      FormErrorsEmptyIff(formData, taken);
      errors := newErrors;
      ok := newErrors == map[];
    }

    /** `handleSubmit`: a passing form is sent as it stands. */
    method Submit(reply: Result<bool, string>) returns (sent: Option<UserData>)
      requires Valid()
      modifies this`errors, this`isCheckingMobile
      ensures Valid()
      ensures errors == FormErrors(formData, UserCache.MobileExists(reply))
      ensures sent.Some? <==> FormPasses(formData, UserCache.MobileExists(reply))
      ensures sent.Some? ==> sent.value == formData
    {
      var ok, asked := ValidateForm(reply);
      sent := if ok then Some(formData) else None;
    }

    /** The mutation's `onSuccess`: the form and its messages are reset. */
    method Saved()
      modifies this`formData, this`errors
      ensures formData == EmptyUser && errors == map[]
    {
      formData := EmptyUser;
      errors := map[];
    }

    /** `handleChange` */
    method Change(e: Edit)
      modifies this`formData, this`errors
      ensures formData == e.Apply(old(formData))
      ensures errors == ClearOnEdit(old(errors), e.key)
    {
      formData := e.Apply(formData);
      errors := ClearOnEdit(errors, e.key);
    }

    /** The mutation's `onError`: the form is kept and the toast is the
        server's message or 'Failed to create user', the same text as the
        users hook's own create toast. */
    method Failed(serverMessage: Option<string>) returns (toast: string)
      ensures toast != ""
      ensures serverMessage.Some? && serverMessage.value != "" ==> toast == serverMessage.value
      ensures serverMessage.None? || serverMessage.value == "" ==> toast == "Failed to create user"
    {
      toast := UserCache.FailureToast(UserCache.CreateUser, serverMessage);
    }
  }
}
