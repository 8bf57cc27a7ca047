/** The registration hook: checks the two passwords, posts the account data and opens the login page. */
module UseRegister {
  import opened Js
  import opened Skills
  import opened Http
  import opened Session

  const RegisterUrl := "http://localhost:3001/auth/register"
  const RegisteredRoute := "/auth/login?registered=true"
  const MismatchMessage := "Passwords don't match"
  const RegisterFallback := "Registration failed"
  const CatchFallback := "An unknown error occurred"

  /** The form values `register` receives. */
  datatype RegisterForm = RegisterForm(fullName: Option<string>, email: string, password: string, confirmPassword: string)

  /** The field of the reply document that `register` reads. */
  datatype RegisterReply = RegisterReply(message: Option<string>)

  /**
   * `apiData`: the email and password as given, and a `name` exactly when the
   * full name is truthy; the confirmation is never part of it.
   */
  function Payload(values: RegisterForm): (b: Body)
    ensures b.Registration? && b.email == values.email && b.password == values.password
    ensures b.name.Some? <==> Truthy(values.fullName)
    ensures b.name.Some? ==> b.name == values.fullName
  {
    Registration(values.email, values.password, if Truthy(values.fullName) then values.fullName else None)
  }

  function RegisterRequest(values: RegisterForm): Request {
    Request(RegisterUrl, Some("POST"), HeaderMap([("Content-Type", Json)]), Payload(values))
  }

  /**
   * The message `register` shows for a reply, or None when it succeeds: a
   * rejected fetch or an unreadable body gives the error's message, and a non-ok
   * status the body's `message` or "Registration failed".
   */
  function Failure(reply: Reply<RegisterReply>): (m: Option<string>)
    ensures m.None? <==> reply.Resolved? && IsOk(reply.value.status) && reply.value.body.Document?
    ensures reply.Resolved? && !IsOk(reply.value.status) && reply.value.body.Document? ==>
      m == Some(Or(reply.value.body.value.message, RegisterFallback))
    ensures reply.Resolved? && reply.value.body.NotJson? ==> m == Some(reply.value.body.message)
    ensures reply.Rejected? ==> m == Some(MessageOf(reply.reason, CatchFallback))
  {
    match reply
    case Rejected(e) => Some(MessageOf(e, CatchFallback))
    case Resolved(response) =>
      match response.body
      case NotJson(message) => Some(message)
      case Document(result) => if IsOk(response.status) then None else Some(Or(result.message, RegisterFallback))
  }

  class RegisterHook {
    const browser: Browser
    var isLoading: bool
    var error: Option<string>

    constructor (browser: Browser)
      ensures this.browser == browser && !isLoading && error == None
    {
      this.browser := browser;
      isLoading, error := false, None;
    }

    /**
     * `register(values)`.  Mismatched passwords send nothing and show "Passwords
     * don't match"; otherwise the payload is posted, a failure is shown as its
     * message and a success opens the login page.  `pending` is (isLoading,
     * error) after the flags are first set.
     */
    method Register(values: RegisterForm, reply: Reply<RegisterReply>) returns (ghost pending: (bool, Option<string>))
      modifies this, browser
      ensures pending == (true, None) && !isLoading
      ensures values.password != values.confirmPassword ==>
        && error == Some(MismatchMessage)
        && browser.sent == old(browser.sent) && browser.routes == old(browser.routes)
      ensures values.password == values.confirmPassword ==>
        && browser.sent == old(browser.sent) + [RegisterRequest(values)]
        && error == Failure(reply)
        && browser.routes == old(browser.routes) + (if Failure(reply).None? then [RegisteredRoute] else [])
      ensures browser.storage == old(browser.storage) && browser.href == old(browser.href)
    {
      isLoading := true;
      error := None;
      pending := (isLoading, error);
      if values.password != values.confirmPassword {
        error := Some(MismatchMessage);
      } else {
        var response := browser.Fetch(RegisterRequest(values), reply);
        var failure := Failure(response);
        if failure.None? {
          browser.Push(RegisteredRoute);
        } else {
          error := failure;
        }
      }
      isLoading := false;
    }

    /** `resetError()` */
    method ResetError()
      modifies this
      ensures error == None && isLoading == old(isLoading)
    {
      error := None;
    }
  }
}
