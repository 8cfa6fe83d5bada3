/** The dialog that creates an agent under a component: name, e-mail and
    mobile number are checked, and the role is fixed to an agent of the
    dialog's component. */
module AgentForm {
  import opened Wrappers
  import opened JsString
  import opened Patterns
  import opened FormState
  import opened UserFields

  datatype AgentRole = AgentRole(role: string, componentId: string)

  datatype Agent = Agent(name: string, email: string, mobile: string, role: AgentRole)

  /** The initial and the reset form: empty fields, an agent of the
      component. */
  function Blank(componentId: string): (r: Agent)
    ensures r.name == "" && r.email == "" && r.mobile == ""
    ensures r.role.role == "agent" && r.role.componentId == componentId
  {
    Agent("", "", "", AgentRole("agent", componentId))
  }

  /** The three inputs the dialog renders; each is named like the key of its
      message. */
  datatype Input = NameInput | EmailInput | MobileInput {
    function KeyOf(): (k: Key)
      ensures k == NameKey || k == EmailKey || k == MobileKey
    {
      match this
      case NameInput => NameKey
      case EmailInput => EmailKey
      case MobileInput => MobileKey
    }
  }

  /** A change event: `{ ...prev, [name]: value }`. */
  datatype Edit = Edit(input: Input, value: string) {
    function Apply(d: Agent): (r: Agent)
      ensures r.role == d.role
      ensures input == NameInput ==> r == d.(name := value)
      ensures input == EmailInput ==> r == d.(email := value)
      ensures input == MobileInput ==> r == d.(mobile := value)
    {
      match input
      case NameInput => d.(name := value)
      case EmailInput => d.(email := value)
      case MobileInput => d.(mobile := value)
    }
  }

  /** The message `validateForm` leaves under one key: no password, no role
      and no availability check here. */
  function KeyProblem(d: Agent, k: Key): Option<Problem> {
    match k
    case NameKey => NameProblem(d.name)
    case EmailKey => EmailProblem(d.email)
    case MobileKey => MobileFormatProblem(d.mobile)
    case _ => None
  }

  const AgentKeys := [NameKey, EmailKey, MobileKey]

  function FormErrors(d: Agent): Errors {
    map k | k in AgentKeys && KeyProblem(d, k).Some? :: Says(KeyProblem(d, k).value)
  }

  lemma FormErrorsByKey(d: Agent, m: Errors)
    requires forall k :: k in m <==> KeyProblem(d, k).Some?
    requires forall k :: k in m ==> m[k] == Says(KeyProblem(d, k).value)
    ensures m == FormErrors(d)
  {
    var spec := FormErrors(d);
    assert AgentKeys[0] == NameKey && AgentKeys[1] == EmailKey && AgentKeys[2] == MobileKey;
    assert m.Keys == spec.Keys;
  }

  /** What the dialog demands, through the regular expressions. */
  ghost predicate FormPasses(d: Agent) {
    && IsPersonName(d.name) && !IsBlank(d.name)
    && EmailRegexMatch(d.email)
    && IsTenDigits(d.mobile)
  }

  lemma FormErrorsEmptyIff(d: Agent)
    ensures FormErrors(d) == map[] <==> FormPasses(d)
  {
    NameProblemIff(d.name);
    EmailProblemIff(d.email);
    MobileFormatProblemIff(d.mobile);
    var m := FormErrors(d);
    if !IsPersonName(d.name) || IsBlank(d.name) {
      assert AgentKeys[0] in m;
    } else if !EmailRegexMatch(d.email) {
      assert AgentKeys[1] in m;
    } else if !IsTenDigits(d.mobile) {
      assert AgentKeys[2] in m;
    } else {
      assert m.Keys == {};
    }
  }

  /** The body of `validateForm`, check after check. */
  method Checks(d: Agent) returns (m: Errors)
    ensures m == FormErrors(d)
  {
    m := map[];
    m := Put(m, NameKey, NameProblem(d.name));
    m := Put(m, EmailKey, EmailProblem(d.email));
    m := Put(m, MobileKey, MobileFormatProblem(d.mobile));
    var a, b, c := KeyProblem(d, NameKey), KeyProblem(d, EmailKey), KeyProblem(d, MobileKey);
    PutChain(a, b, None, c, None);
    forall k ensures Pick(k, a, b, None, c, None) == KeyProblem(d, k) {
      match k
      case NameKey =>
      case EmailKey =>
      case PasswordKey =>
      case MobileKey =>
      case RoleKey =>
    }
    FormErrorsByKey(d, m);
  }

  class Dialog {
    const componentId: string
    var formData: Agent
    var errors: Errors

    /** The role is never edited: it stays an agent of the component. */
    ghost predicate Valid()
      reads this
    {
      formData.role == AgentRole("agent", componentId)
    }

    constructor (componentId: string)
      ensures Valid() && this.componentId == componentId
      ensures formData == Blank(componentId) && errors == map[]
    {
      this.componentId := componentId;
      formData := Blank(componentId);
      errors := map[];
    }

    /** `validateForm` */
    method ValidateForm() returns (ok: bool)
      modifies this`errors
      ensures errors == FormErrors(formData)
      ensures ok <==> FormPasses(formData)
    {
      errors := Checks(formData);
      FormErrorsEmptyIff(formData);
      ok := errors == map[];
    }

    /** `handleSubmit`: a passing form is sent as it stands. */
    method Submit() returns (sent: Option<Agent>)
      requires Valid()
      modifies this`errors
      ensures errors == FormErrors(formData)
      ensures sent.Some? <==> FormPasses(formData)
      ensures sent.Some? ==> sent.value == formData && sent.value.role == AgentRole("agent", componentId)
    {
      var ok := ValidateForm();
      sent := if ok then Some(formData) else None;
    }

    /** The mutation's `onSuccess`: the form is emptied, keeping the role. */
    method Saved()
      requires Valid()
      modifies this`formData, this`errors
      ensures Valid()
      ensures formData == Blank(componentId) && errors == map[]
    {
      formData := Blank(componentId);
      errors := map[];
    }

    /** `handleChange` */
    method Change(e: Edit)
      requires Valid()
      modifies this`formData, this`errors
      ensures Valid()
      ensures formData == e.Apply(old(formData))
      ensures errors == ClearOnEdit(old(errors), e.input.KeyOf())
    {
      formData := e.Apply(formData);
      errors := ClearOnEdit(errors, e.input.KeyOf());
    }

    /** The mutation's `onError`: the form is kept and the toast is the
        server's message or 'Failed to create agent'. */
    method Failed(serverMessage: Option<string>) returns (toast: string)
      ensures toast != ""
      ensures serverMessage.Some? && serverMessage.value != "" ==> toast == serverMessage.value
      ensures serverMessage.None? || serverMessage.value == "" ==> toast == "Failed to create agent"
    {
      toast := OrElse(serverMessage, "Failed to create agent");
    }
  }
}
