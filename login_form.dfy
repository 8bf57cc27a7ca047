/** The login form: posts the credentials, stores the returned token and opens the dashboard. */
module LoginForm {
  import opened Js
  import opened Skills
  import opened Http
  import opened Session

  const LoginUrl := "http://localhost:3001/auth/login"
  const DashboardRoute := "/Dashboard"
  const NoTokenMessage := "Authentication failed"
  const CatchFallback := "Login failed"

  /** The fields of the reply document that `onSubmit` reads. */
  datatype LoginResult = LoginResult(accessToken: Option<string>, error: Option<string>)

  /** The request `onSubmit` sends: the form values as JSON, with a JSON content type. */
  function LoginRequest(email: string, password: string): Request {
    Request(LoginUrl, Some("POST"), HeaderMap([("Content-Type", Json)]), LoginCredentials(email, password))
  }

  /**
   * The message `onSubmit` shows for a reply, or None when it logs in: a
   * rejected fetch or an unreadable body gives the error's message; a non-ok
   * status gives the body's `error` or "Server error: <status>"; an ok reply
   * without a truthy `access_token` gives "Authentication failed".
   */
  function Failure(reply: Reply<LoginResult>): (m: Option<string>)
    ensures m.None? <==>
      && reply.Resolved? && IsOk(reply.value.status)
      && reply.value.body.Document? && Truthy(reply.value.body.value.accessToken)
    ensures reply.Resolved? && !IsOk(reply.value.status) && reply.value.body.Document? ==>
      m == Some(Or(reply.value.body.value.error, "Server error: " + IntToString(reply.value.status)))
    ensures reply.Resolved? && IsOk(reply.value.status) && reply.value.body.Document? ==>
      (m == Some(NoTokenMessage) <==> !Truthy(reply.value.body.value.accessToken))
    ensures reply.Resolved? && reply.value.body.NotJson? ==> m == Some(reply.value.body.message)
    ensures reply.Rejected? ==> m == Some(MessageOf(reply.reason, CatchFallback))
  {
    match reply
    case Rejected(e) => Some(MessageOf(e, CatchFallback))
    case Resolved(response) =>
      match response.body
      case NotJson(message) => Some(message)
      case Document(result) =>
        if !IsOk(response.status) then Some(Or(result.error, "Server error: " + IntToString(response.status)))
        else if !Truthy(result.accessToken) then Some(NoTokenMessage)
        else None
  }

  class Form {
    const browser: Browser
    /** The form's field values. */
    var email: string
    var password: string
    var error: Option<string>
    var isLoading: bool

    constructor (browser: Browser)
      ensures this.browser == browser
      ensures email == "" && password == "" && error == None && !isLoading
    {
      this.browser := browser;
      email, password := "", "";
      error, isLoading := None, false;
    }

    /**
     * `onSubmit(values)`.  `pending` is the form's (isLoading, error) while the
     * request is awaited.  On success the token is stored and the router goes to
     * the dashboard; on any failure the message is shown, the password field is
     * reset and nothing is stored or navigated.
     */
    method OnSubmit(reply: Reply<LoginResult>) returns (ghost pending: (bool, Option<string>))
      modifies this, browser
      ensures pending == (true, None)
      ensures browser.sent == old(browser.sent) + [LoginRequest(old(email), old(password))]
      ensures !isLoading && email == old(email)
      ensures error == Failure(reply)
      ensures Failure(reply).None? ==>
        && browser.storage == old(browser.storage)[TokenKey := reply.value.body.value.accessToken.value]
        && browser.routes == old(browser.routes) + [DashboardRoute]
        && password == old(password)
      ensures Failure(reply).Some? ==>
        browser.storage == old(browser.storage) && browser.routes == old(browser.routes) && password == ""
      ensures browser.href == old(browser.href)
    {
      isLoading := true;
      error := None;
      pending := (isLoading, error);
      var response := browser.Fetch(LoginRequest(email, password), reply);
      var failure: Option<string> := None;
      match response {
        case Rejected(e) =>
          failure := Some(MessageOf(e, CatchFallback));
        case Resolved(r) =>
          match r.body {
            case NotJson(message) =>
              failure := Some(message);
            case Document(result) =>
              if !IsOk(r.status) {
                failure := Some(Or(result.error, "Server error: " + IntToString(r.status)));
              } else if !Truthy(result.accessToken) {
                failure := Some(NoTokenMessage);
              } else {
                browser.SetItem(TokenKey, result.accessToken.value);
                browser.Push(DashboardRoute);
              }
          }
      }
      if failure.Some? {
        error := failure;
        password := "";
      }
      isLoading := false;
    }
  }
}
