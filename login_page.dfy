/** The login page: posts the credentials through axios and, on success, stores the token when there is one and opens the dashboard. */
module LoginPage {
  import opened Js
  import opened Skills
  import opened Http
  import opened Session

  const DashboardRoute := "/dashboard"

  /** The field of the reply document that `onSuccess` reads. */
  datatype LoginApiResponse = LoginApiResponse(accessToken: Option<string>)

  /** The request `login` sends: the payload as it is, to `<apiUrl>/auth/login`. */
  function LoginRequest(apiUrl: string, email: string, password: string): Request {
    Request(apiUrl + "/auth/login", Some("POST"), map[], LoginCredentials(email, password))
  }

  /**
   * How `axios.post` settles: with the response's data for a 2xx status, and
   * otherwise with the rejection "Request failed with status code <status>".
   */
  function AxiosData(reply: Reply<LoginApiResponse>): (r: Settled<Parsed<LoginApiResponse>>)
    ensures r.Resolved? <==> reply.Resolved? && IsOk(reply.value.status)
    ensures r.Resolved? ==> r.value == reply.value.body
    ensures reply.Rejected? ==> r == Rejected(reply.reason)
    ensures reply.Resolved? && !IsOk(reply.value.status) ==>
      r == Rejected(ErrorObject("Request failed with status code " + IntToString(reply.value.status)))
  {
    match reply
    case Rejected(e) => Rejected(e)
    case Resolved(response) =>
      if IsOk(response.status) then Resolved(response.body)
      else Rejected(ErrorObject("Request failed with status code " + IntToString(response.status)))
  }

  /** Whether `onSuccess` stores a token for the data it receives: only a truthy `access_token` is stored. */
  function TokenToStore(data: Parsed<LoginApiResponse>): (t: Option<string>)
    ensures t.Some? <==> data.Document? && Truthy(data.value.accessToken)
    ensures t.Some? ==> t == data.value.accessToken
  {
    if data.Document? && Truthy(data.value.accessToken) then data.value.accessToken else None
  }

  /** `login(payload)`: posts the payload unchanged and settles with the response's data. */
  method Login(browser: Browser, apiUrl: string, email: string, password: string, reply: Reply<LoginApiResponse>)
    returns (r: Settled<Parsed<LoginApiResponse>>)
    modifies browser
    ensures browser.sent == old(browser.sent) + [LoginRequest(apiUrl, email, password)]
    ensures r == AxiosData(reply)
    ensures browser.storage == old(browser.storage) && browser.href == old(browser.href)
    ensures browser.routes == old(browser.routes)
  {
    var response := browser.Fetch(LoginRequest(apiUrl, email, password), reply);
    r := AxiosData(response);
  }

  class Page {
    const browser: Browser
    /** `process.env.NEXT_PUBLIC_API_URL` */
    const apiUrl: string

    constructor (browser: Browser, apiUrl: string)
      ensures this.browser == browser && this.apiUrl == apiUrl
    {
      this.browser := browser;
      this.apiUrl := apiUrl;
    }

    /** The mutation's `onSuccess(res)`: stores a truthy token, then goes to the dashboard whether or not one came back. */
    method OnSuccess(data: Parsed<LoginApiResponse>)
      modifies browser
      ensures TokenToStore(data).Some? ==> browser.storage == old(browser.storage)[TokenKey := TokenToStore(data).value]
      ensures TokenToStore(data).None? ==> browser.storage == old(browser.storage)
      ensures browser.routes == old(browser.routes) + [DashboardRoute]
      ensures browser.sent == old(browser.sent) && browser.href == old(browser.href)
    {
      if data.Document? && Truthy(data.value.accessToken) {
        browser.SetItem(TokenKey, data.value.accessToken.value);
      }
      browser.Push(DashboardRoute);
    }

    /**
     * `onSubmit(formData)`: runs the mutation with the form data unchanged;
     * `onSuccess` runs only when `login` resolved, and a rejection is passed on.
     */
    method OnSubmit(email: string, password: string, reply: Reply<LoginApiResponse>) returns (r: Settled<()>)
      modifies browser
      ensures browser.sent == old(browser.sent) + [LoginRequest(apiUrl, email, password)]
      ensures AxiosData(reply).Resolved? ==>
        && r == Resolved(())
        && browser.routes == old(browser.routes) + [DashboardRoute]
        && browser.storage == (var t := TokenToStore(AxiosData(reply).value);
                               if t.Some? then old(browser.storage)[TokenKey := t.value] else old(browser.storage))
      ensures AxiosData(reply).Rejected? ==>
        && r == Rejected(AxiosData(reply).reason)
        && browser.routes == old(browser.routes) && browser.storage == old(browser.storage)
      ensures browser.href == old(browser.href)
    {
      var data := Login(browser, apiUrl, email, password, reply);
      match data {
        case Resolved(res) =>
          OnSuccess(res);
          r := Resolved(());
        case Rejected(e) =>
          r := Rejected(e);
      }
    }
  }
}
