/** The admin's create/edit user form: its checks differ by mode, and it
    asks the server whether a new mobile number is taken. */
module UserForm {
  import opened Wrappers
  import opened JsString
  import opened Patterns
  import opened FormState
  import opened UserFields
  import UserCache

  datatype Mode = Create | Update

  /** `initialData`: a user record as listed, any field possibly missing. */
  datatype Profile = Profile(id: string, name: Option<string>, email: Option<string>,
                             mobile: Option<string>, role: Option<string>)

  /** The effect on `initialData`: the profile's fields, or `''`, a blank
      password, and the role defaulting to 'user'. */
  function FromProfile(p: Profile): (r: UserData)
    ensures r.password == "" && r.role != ""
    ensures r.name == OrElse(p.name, "") && r.email == OrElse(p.email, "") && r.mobile == OrElse(p.mobile, "")
    ensures p.role.Some? && p.role.value != "" ==> r.role == p.role.value
    ensures p.role.None? || p.role.value == "" ==> r.role == "user"
  {
    UserData(OrElse(p.name, ""), OrElse(p.email, ""), "", OrElse(p.mobile, ""), OrElse(p.role, "user"))
  }

  /** The number is asked about: it is well formed, and either a user is
      being created or the edited user's number changed. */
  predicate ChecksMobile(d: UserData, mode: Mode, initial: Option<Profile>) {
    && MobileFormatProblem(d.mobile).None?
    && (mode == Create || initial.None? || initial.value.mobile != Some(d.mobile))
  }

  /** The message `validateForm` leaves under one key; `taken` is what the
      availability check answered, when it ran. */
  function KeyProblem(d: UserData, mode: Mode, initial: Option<Profile>, taken: bool, k: Key): Option<Problem> {
    match k
    case NameKey => NameProblem(d.name)
    case EmailKey => EmailProblem(d.email)
    case PasswordKey => if mode == Create then PasswordProblem(d.password) else None
    case MobileKey =>
      if MobileFormatProblem(d.mobile).Some? then MobileFormatProblem(d.mobile)
      else if ChecksMobile(d, mode, initial) && taken then Some(MobileTaken)
      else None
    case RoleKey => if d.role == "" then Some(RoleRequired) else None
  }

  const AllKeys := [NameKey, EmailKey, PasswordKey, MobileKey, RoleKey]

  function FormErrors(d: UserData, mode: Mode, initial: Option<Profile>, taken: bool): Errors {
    map k | k in AllKeys && KeyProblem(d, mode, initial, taken, k).Some? :: Says(KeyProblem(d, mode, initial, taken, k).value)
  }

  lemma FormErrorsByKey(d: UserData, mode: Mode, initial: Option<Profile>, taken: bool, m: Errors)
    requires forall k :: k in m <==> KeyProblem(d, mode, initial, taken, k).Some?
    requires forall k :: k in m ==> m[k] == Says(KeyProblem(d, mode, initial, taken, k).value)
    ensures m == FormErrors(d, mode, initial, taken)
  {
    forall k ensures k in AllKeys {
      match k
      case NameKey => assert AllKeys[0] == k;
      case EmailKey => assert AllKeys[1] == k;
      case PasswordKey => assert AllKeys[2] == k;
      case MobileKey => assert AllKeys[3] == k;
      case RoleKey => assert AllKeys[4] == k;
    }
  }

  /** The checks recorded one key after the other build FormErrors. */
  lemma PutEachKey(d: UserData, mode: Mode, initial: Option<Profile>, taken: bool)
    ensures var p := k => KeyProblem(d, mode, initial, taken, k);
      Put(Put(Put(Put(Put(map[], NameKey, p(NameKey)), EmailKey, p(EmailKey)), PasswordKey, p(PasswordKey)),
        MobileKey, p(MobileKey)), RoleKey, p(RoleKey)) == FormErrors(d, mode, initial, taken)
  {
    var p := k => KeyProblem(d, mode, initial, taken, k);
    var a, b, c, e, f := p(NameKey), p(EmailKey), p(PasswordKey), p(MobileKey), p(RoleKey);
    PutChain(a, b, c, e, f);
    var m := Put(Put(Put(Put(Put(map[], NameKey, a), EmailKey, b), PasswordKey, c), MobileKey, e), RoleKey, f);
    forall k ensures Pick(k, a, b, c, e, f) == p(k) {
      match k
      case NameKey =>
      case EmailKey =>
      case PasswordKey =>
      case MobileKey =>
      case RoleKey =>
    }
    FormErrorsByKey(d, mode, initial, taken, m);
  }

  /** What the form demands, through the regular expressions: a real name,
      an address, a valid password when creating, a ten-digit number that is
      not taken when it is asked about, and a role. */
  ghost predicate FormPasses(d: UserData, mode: Mode, initial: Option<Profile>, taken: bool) {
    && IsPersonName(d.name) && !IsBlank(d.name)
    && EmailRegexMatch(d.email)
    && (mode == Create ==> IsPassword(d.password))
    && IsTenDigits(d.mobile) && !(ChecksMobile(d, mode, initial) && taken)
    && d.role != ""
  }

  lemma FormErrorsEmptyIff(d: UserData, mode: Mode, initial: Option<Profile>, taken: bool)
    ensures FormErrors(d, mode, initial, taken) == map[] <==> FormPasses(d, mode, initial, taken)
  {
    NoProblemIff(d, mode, initial, taken);
    var m := FormErrors(d, mode, initial, taken);
    if !FormPasses(d, mode, initial, taken) {
      var k :| KeyProblem(d, mode, initial, taken, k).Some?;
      assert k in AllKeys by {
        match k
        case NameKey => assert AllKeys[0] == k;
        case EmailKey => assert AllKeys[1] == k;
        case PasswordKey => assert AllKeys[2] == k;
        case MobileKey => assert AllKeys[3] == k;
        case RoleKey => assert AllKeys[4] == k;
      }
      assert k in m;
    }
  }

  /** No key has a problem exactly when the form passes. */
  lemma NoProblemIff(d: UserData, mode: Mode, initial: Option<Profile>, taken: bool)
    ensures (forall k :: KeyProblem(d, mode, initial, taken, k).None?) <==> FormPasses(d, mode, initial, taken)
  {
    NameProblemIff(d.name);
    EmailProblemIff(d.email);
    PasswordProblemIff(d.password);
    MobileFormatProblemIff(d.mobile);
    var p := k => KeyProblem(d, mode, initial, taken, k);
    if !IsPersonName(d.name) || IsBlank(d.name) {
      assert p(NameKey).Some?;
    } else if !EmailRegexMatch(d.email) {
      assert p(EmailKey).Some?;
    } else if mode == Create && !IsPassword(d.password) {
      assert p(PasswordKey).Some?;
    } else if d.role == "" {
      assert p(RoleKey).Some?;
    } else if !IsTenDigits(d.mobile) || (ChecksMobile(d, mode, initial) && taken) {
      assert p(MobileKey).Some?;
    } else {
      forall k ensures p(k).None? {
        match k
        case NameKey =>
        case EmailKey =>
        case PasswordKey =>
        case MobileKey =>
        case RoleKey =>
      }
    }
  }

  /** In update mode the password is not looked at, even when empty. */
  lemma UpdateIgnoresPassword(d: UserData, initial: Option<Profile>, taken: bool, password: string)
    ensures FormErrors(d.(password := password), Update, initial, taken) == FormErrors(d, Update, initial, taken)
  {
    var a := FormErrors(d.(password := password), Update, initial, taken);
    var b := FormErrors(d, Update, initial, taken);
    assert forall k :: KeyProblem(d.(password := password), Update, initial, taken, k) == KeyProblem(d, Update, initial, taken, k);
    assert a.Keys == b.Keys;
  }

  /** An unchanged number is never asked about in update mode, so it can
      never be reported as taken. */
  lemma UnchangedMobileNotChecked(d: UserData, p: Profile, taken: bool)
    requires p.mobile == Some(d.mobile)
    ensures MobileKey in FormErrors(d, Update, Some(p), taken) ==>
      FormErrors(d, Update, Some(p), taken)[MobileKey] != Says(MobileTaken)
  {
  }

  /** The user data sent: update mode sends no password key when it is
      empty; create mode sends every field. */
  datatype Payload = Payload(name: string, email: string, password: Option<string>, mobile: string, role: string)

  function PayloadOf(d: UserData, mode: Mode): (r: Payload)
    ensures r.password.None? <==> mode == Update && d.password == ""
    ensures r.password.Some? ==> r.password.value == d.password
    ensures r.name == d.name && r.email == d.email && r.mobile == d.mobile && r.role == d.role
  {
    Payload(d.name, d.email, if mode == Update && d.password == "" then None else Some(d.password), d.mobile, d.role)
  }

  /** What `handleSubmit` hands to the hooks. */
  datatype Submission = CreateUser(payload: Payload) | UpdateUser(userId: string, payload: Payload)

  /** The body of `validateForm`, check after check; `taken` is the
      availability check's answer, used only when the check is made. */
  method Checks(d: UserData, mode: Mode, initial: Option<Profile>, taken: bool) returns (m: Errors, asked: bool)
    requires mode == Update ==> initial.Some?
    ensures m == FormErrors(d, mode, initial, taken)
    ensures asked <==> ChecksMobile(d, mode, initial)
  {
    m := map[];
    m := Put(m, NameKey, NameProblem(d.name));
    m := Put(m, EmailKey, EmailProblem(d.email));
    m := Put(m, PasswordKey, if mode == Create then PasswordProblem(d.password) else None);
    asked := false;
    var mobile := MobileFormatProblem(d.mobile);
    if mobile.None? && (mode == Create || initial.value.mobile != Some(d.mobile)) {
      asked := true;
      if taken { mobile := Some(MobileTaken); }
    }
    m := Put(m, MobileKey, mobile);
    m := Put(m, RoleKey, if d.role == "" then Some(RoleRequired) else None);
    PutEachKey(d, mode, initial, taken);
  }

  class Dialog {
    const mode: Mode
    const initialData: Option<Profile>
    var formData: UserData
    var errors: Errors
    var isCheckingMobile: bool

    ghost predicate Valid()
      reads this
    {
      && (mode == Update ==> initialData.Some?)
      && !isCheckingMobile
    }

    /** The form as first rendered, after the effect on `initialData`. */
    constructor (mode: Mode, initialData: Option<Profile>)
      requires mode == Update ==> initialData.Some?
      ensures Valid() && this.mode == mode && this.initialData == initialData
      ensures formData == if initialData.Some? then FromProfile(initialData.value) else EmptyUser
      ensures errors == map[] && !isCheckingMobile
    {
      this.mode := mode;
      this.initialData := initialData;
      formData := if initialData.Some? then FromProfile(initialData.value) else EmptyUser;
      errors := map[];
      isCheckingMobile := false;
    }

    /** `validateForm`, with the availability request's reply as `reply`;
        the hook's `checkMobileExists` turns a failed request into `false`.
        The flag `isCheckingMobile` is raised only for the request. */
    method ValidateForm(reply: Result<bool, string>) returns (ok: bool, asked: bool)
      requires Valid()
      modifies this`errors, this`isCheckingMobile
      ensures asked <==> ChecksMobile(formData, mode, initialData)
      ensures errors == FormErrors(formData, mode, initialData, UserCache.MobileExists(reply))
      ensures ok <==> FormPasses(formData, mode, initialData, UserCache.MobileExists(reply))
      ensures ok <==> errors == map[]
      ensures Valid()
    {
      var taken := UserCache.MobileExists(reply);
      var newErrors;
      newErrors, asked := Checks(formData, mode, initialData, taken);
      if asked {
        isCheckingMobile := true;
        isCheckingMobile := false;
      }
      FormErrorsEmptyIff(formData, mode, initialData, taken);
      errors := newErrors;
      ok := newErrors == map[];
    }

    /** `handleSubmit`: a passing form is handed to the create or the update
        hook. */
    method Submit(reply: Result<bool, string>) returns (sent: Option<Submission>)
      requires Valid()
      modifies this`errors, this`isCheckingMobile
      ensures errors == FormErrors(formData, mode, initialData, UserCache.MobileExists(reply))
      ensures sent.Some? <==> FormPasses(formData, mode, initialData, UserCache.MobileExists(reply))
      ensures sent.Some? && mode == Create ==> sent.value == CreateUser(PayloadOf(formData, mode))
      ensures sent.Some? && mode == Update ==> sent.value == UpdateUser(initialData.value.id, PayloadOf(formData, mode))
    {
      var ok, asked := ValidateForm(reply);
      sent := None;
      if ok {
        var payload := PayloadOf(formData, mode);
        sent := Some(if mode == Create then CreateUser(payload) else UpdateUser(initialData.value.id, payload));
      }
    }

    /** The mutation's `onSuccess`: the form and its messages are reset. */
    method Saved()
      modifies this`formData, this`errors
      ensures formData == EmptyUser && errors == map[]
    {
      formData := EmptyUser;
      errors := map[];
    }

    /** `handleChange`: the field takes the value and a message shown under
        it is blanked. */
    method Change(e: Edit)
      modifies this`formData, this`errors
      ensures formData == e.Apply(old(formData))
      ensures errors == ClearOnEdit(old(errors), e.key)
    {
      formData := e.Apply(formData);
      errors := ClearOnEdit(errors, e.key);
    }
  }
}
