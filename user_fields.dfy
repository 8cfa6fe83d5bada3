/** The field checks the three account forms (the user form, the add-user
    dialog and the add-agent dialog) each define alike: a blank test on the
    trimmed value, then the field's regular expression on the value as
    typed. */
module UserFields {
  import opened Wrappers
  import opened JsString
  import opened Patterns
  import opened FormState

  datatype Key = NameKey | EmailKey | PasswordKey | MobileKey | RoleKey {
    function Name(): string {
      match this
      case NameKey => "name"
      case EmailKey => "email"
      case PasswordKey => "password"
      case MobileKey => "mobile"
      case RoleKey => "role"
    }
  }

  datatype Problem =
    | NameRequired | NameInvalid | EmailRequired | EmailInvalid
    | PasswordRequired | PasswordInvalid
    | MobileRequired | MobileInvalid | MobileTaken | MobileCheckFailed
    | RoleRequired
  {
    function Text(): string {
      match this
      case NameRequired => "Name is required"
      case NameInvalid => "Name should contain only letters and spaces, at least 2 characters"
      case EmailRequired => "Email is required"
      case EmailInvalid => "Please enter a valid email address"
      case PasswordRequired => "Password is required"
      case PasswordInvalid => "Password must be at least 6 characters long and contain at least one letter and one number"
      case MobileRequired => "Mobile number is required"
      case MobileInvalid => "Please enter a valid 10-digit mobile number"
      case MobileTaken => "This mobile number is already registered"
      case MobileCheckFailed => "Error checking mobile number availability"
      case RoleRequired => "Role is required"
    }
  }

  type Errors = map<Key, Note<Problem>>

  /** The form data of the user form and of the add-user dialog. */
  datatype UserData = UserData(name: string, email: string, password: string, mobile: string, role: string)

  /** The initial and the reset form: empty fields and the role 'user'. */
  const EmptyUser := UserData("", "", "", "", "user")

  /** `formData[name]` */
  function Get(d: UserData, k: Key): string {
    match k
    case NameKey => d.name
    case EmailKey => d.email
    case PasswordKey => d.password
    case MobileKey => d.mobile
    case RoleKey => d.role
  }

  /** A change event on one of the inputs: `{ ...prev, [name]: value }`. */
  datatype Edit = Edit(key: Key, value: string) {
    function Apply(d: UserData): (r: UserData)
      ensures Get(r, key) == value
      ensures forall k :: k != key ==> Get(r, k) == Get(d, k)
    {
      match key
      case NameKey => d.(name := value)
      case EmailKey => d.(email := value)
      case PasswordKey => d.(password := value)
      case MobileKey => d.(mobile := value)
      case RoleKey => d.(role := value)
    }
  }

  /** `!name.trim()`, then `/^[a-zA-Z\s]{2,}$/`. */
  function NameProblem(name: string): Option<Problem> {
    if IsBlank(name) then Some(NameRequired)
    else if !IsPersonName(name) then Some(NameInvalid)
    else None
  }

  /** `!email.trim()`, then `/^[^\s@]+@[^\s@]+\.[^\s@]+$/`. */
  function EmailProblem(email: string): Option<Problem> {
    if IsBlank(email) then Some(EmailRequired)
    else if !IsEmail(email) then Some(EmailInvalid)
    else None
  }

  /** `!password` (no trimming), then the password expression. */
  function PasswordProblem(password: string): Option<Problem> {
    if password == "" then Some(PasswordRequired)
    else if !IsPassword(password) then Some(PasswordInvalid)
    else None
  }

  /** `!mobile.trim()`, then `/^[0-9]{10}$/`; the availability check comes
      after, in the forms that make it. */
  function MobileFormatProblem(mobile: string): Option<Problem> {
    if IsBlank(mobile) then Some(MobileRequired)
    else if !IsTenDigits(mobile) then Some(MobileInvalid)
    else None
  }

  /** A name passes when the expression accepts it and it is not all
      whitespace: two spaces satisfy the expression but not the blank test. */
  lemma NameProblemIff(name: string)
    ensures NameProblem(name).None? <==> IsPersonName(name) && !IsBlank(name)
    ensures NameProblem("  ") == Some(NameRequired) && IsPersonName("  ")
  {
    assert IsWs("  "[0]) && IsWs("  "[1]);
  }

  /** An address passes exactly when the expression accepts it: an accepted
      address is never blank. */
  lemma EmailProblemIff(email: string)
    ensures EmailProblem(email).None? <==> EmailRegexMatch(email)
  {
    EmailRegexIff(email);
    if IsEmail(email) {
      var at := IndexOf(email, "@", 0).value;
      assert !IsWs(email[0]);
    }
  }

  lemma PasswordProblemIff(password: string)
    ensures PasswordProblem(password).None? <==> IsPassword(password)
  {
  }

  lemma MobileFormatProblemIff(mobile: string)
    ensures MobileFormatProblem(mobile).None? <==> IsTenDigits(mobile)
  {
    if IsTenDigits(mobile) {
      assert !IsWs(mobile[0]);
    }
  }

  /** The per-key outcomes of one validation pass, one option per key. */
  function Pick(k: Key, name: Option<Problem>, email: Option<Problem>, password: Option<Problem>,
                mobile: Option<Problem>, role: Option<Problem>): Option<Problem> {
    match k
    case NameKey => name
    case EmailKey => email
    case PasswordKey => password
    case MobileKey => mobile
    case RoleKey => role
  }

  /** Recording the five outcomes key after key leaves a message exactly
      under the keys whose check failed. */
  lemma PutChain(name: Option<Problem>, email: Option<Problem>, password: Option<Problem>,
                 mobile: Option<Problem>, role: Option<Problem>)
    ensures var m := Put(Put(Put(Put(Put(map[], NameKey, name), EmailKey, email), PasswordKey, password),
        MobileKey, mobile), RoleKey, role);
      && (forall k :: k in m <==> Pick(k, name, email, password, mobile, role).Some?)
      && (forall k :: k in m ==> m[k] == Says(Pick(k, name, email, password, mobile, role).value))
  {
  }
}
