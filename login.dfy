/** The login page: two pre-checks, then a call to the auth context's
    `login` with credentials that name the selected tab's endpoint, while a
    loading flag is up. */
module Login {
  import opened Wrappers
  import opened JsString
  import opened Patterns

  datatype Tab = VendorTab | MemberTab

  datatype Credentials = Credentials(email: string, password: string, endpoint: string)

  datatype Toast = FillAllFields | InvalidEmail | LoginFailed(message: string) {
    function Text(): string {
      match this
      case FillAllFields => "Please fill in all fields"
      case InvalidEmail => "Please enter a valid email address"
      case LoginFailed(m) => m
    }
  }

  /** `activeTab === 'member' ? '/auth/member/login' : '/auth/login'` */
  function Endpoint(tab: Tab): (r: string)
    ensures r == "/auth/member/login" <==> tab == MemberTab
  {
    if tab == MemberTab then "/auth/member/login" else "/auth/login"
  }

  /** The checks of `handleSubmit` before anything is sent: an empty field,
      then a malformed address, each stop with a toast. */
  function PreCheck(email: string, password: string, tab: Tab): (r: Result<Credentials, Toast>)
    ensures email == "" || password == "" ==> r == Err(FillAllFields)
    ensures email != "" && password != "" && !IsEmail(email) ==> r == Err(InvalidEmail)
    ensures r.Ok? <==> email != "" && password != "" && IsEmail(email)
    ensures r.Ok? ==> r.value == Credentials(email, password, Endpoint(tab))
  {
    if email == "" || password == "" then Err(FillAllFields)
    else if !IsEmail(email) then Err(InvalidEmail)
    else Ok(Credentials(email, password, Endpoint(tab)))
  }

  /** Credentials sent always carry an address the e-mail expression
      accepts. */
  lemma SentEmailMatches(email: string, password: string, tab: Tab)
    requires PreCheck(email, password, tab).Ok?
    ensures EmailRegexMatch(PreCheck(email, password, tab).value.email)
  {
    EmailRegexIff(email);
  }

  /** The toast of the `catch`: the thrown error's own `message`, or
      'Login failed'. */
  function FailureToast(message: Option<string>): (r: Toast)
    ensures r.LoginFailed? && r.message != ""
    ensures message.Some? && message.value != "" ==> r.message == message.value
    ensures message.None? || message.value == "" ==> r.message == "Login failed"
  {
    LoginFailed(OrElse(message, "Login failed"))
  }

  class Page {
    var email: string
    var password: string
    var isLoading: bool
    var activeTab: Tab

    constructor ()
      ensures email == "" && password == "" && !isLoading && activeTab == VendorTab
    {
      email := "";
      password := "";
      isLoading := false;
      activeTab := VendorTab;
    }

    /** The tab's `onClick`. */
    method SelectTab(tab: Tab)
      modifies this`activeTab
      ensures activeTab == tab
    {
      activeTab := tab;
    }

    /** `handleSubmit`; `outcome` is what the awaited `login` call did:
        resolved, or rejected with an error whose `message` may be missing.
        `loadingWhileSent` is the flag while the call is awaited. The auth
        context's `login` starts its request and returns at once without
        rejecting, so in the application the flag drops before the reply
        and the `Err` outcome does not arise. */
    method Submit(outcome: Result<(), Option<string>>) returns (sent: Option<Credentials>, toasts: seq<Toast>, loadingWhileSent: bool)
      modifies this`isLoading
      ensures var check := PreCheck(email, password, activeTab);
        && (check.Err? ==> sent == None && toasts == [check.error] && isLoading == old(isLoading))
        && (check.Ok? ==> sent == Some(check.value) && loadingWhileSent && !isLoading)
        && (check.Ok? && outcome.Ok? ==> toasts == [])
        && (check.Ok? && outcome.Err? ==> toasts == [FailureToast(outcome.error)])
    {
      var check := PreCheck(email, password, activeTab);
      loadingWhileSent := isLoading;
      if check.Err? {
        return None, [check.error], loadingWhileSent;
      }
      isLoading := true;
      sent := Some(Credentials(email, password, Endpoint(activeTab)));
      loadingWhileSent := isLoading;
      toasts := [];
      if outcome.Err? {
        toasts := [FailureToast(outcome.error)];
      }
      isLoading := false;
    }

    /** `handleKeyDown`: Enter submits exactly as the button does; any other
        key does nothing. */
    method KeyDown(key: string, outcome: Result<(), Option<string>>) returns (sent: Option<Credentials>, toasts: seq<Toast>)
      modifies this`isLoading
      ensures key != "Enter" ==> sent == None && toasts == [] && isLoading == old(isLoading)
      ensures var check := PreCheck(email, password, activeTab);
        && (key == "Enter" && check.Err? ==> sent == None && toasts == [check.error] && isLoading == old(isLoading))
        && (key == "Enter" && check.Ok? ==> sent == Some(check.value) && !isLoading)
    {
      sent, toasts := None, [];
      if key == "Enter" {
        var loading;
        sent, toasts, loading := Submit(outcome);
      }
    }
  }
}
