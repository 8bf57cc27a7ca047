/**
 * The session-aware request layer: the stored token, the headers every
 * authenticated request carries, and the one-way reaction to an HTTP 401.
 * The browser (local storage, the window's location, the router and the
 * network) is one object whose fields record what the client did to it.
 */
module Session {
  import opened Js
  import opened Skills
  import opened Http

  const TokenKey := "token"
  const LoginPath := "/auth/login"
  const ExpiredMessage := "Session expired"

  /** `getToken()`: outside a browser there is no token; inside, local storage's 'token' entry. */
  function StoredToken(hasWindow: bool, storage: map<string, string>): (t: Option<string>)
    ensures !hasWindow ==> t == None
    ensures hasWindow ==> (t.Some? <==> TokenKey in storage)
    ensures t.Some? ==> t.value == storage[TokenKey]
  {
    if hasWindow && TokenKey in storage then Some(storage[TokenKey]) else None
  }

  /** The request `authFetch` hands to `fetch`: the caller's options with the headers replaced. */
  function AuthRequest(url: string, init: Init, token: Option<string>): (r: Request)
    ensures r.url == url && r.verb == init.verb && r.body == init.body
    ensures ContentType in r.headers && r.headers[ContentType] == Json
    ensures Truthy(token) ==> Authorization in r.headers && r.headers[Authorization] == "Bearer " + token.value
  {
    Request(url, init.verb, AuthHeaders(init.headers, token), init.body)
  }

  /** The response was an HTTP 401. */
  predicate Expired<B>(reply: Reply<B>) {
    reply.Resolved? && reply.value.status == 401
  }

  /**
   * How `authFetch` settles for a given reply: a 401 is never handed to the
   * caller; every other reply, whatever its status, is passed on untouched.
   */
  function AuthOutcome<B>(reply: Reply<B>): (r: Reply<B>)
    ensures r.Resolved? ==> r.value.status != 401
    ensures !Expired(reply) ==> r == reply
    ensures Expired(reply) ==> r.Rejected? && r.reason.ErrorObject? && r.reason.message == ExpiredMessage
  {
    if Expired(reply) then Rejected(ErrorObject(ExpiredMessage)) else reply
  }

  /** The request handed to `fetch` carries the caller's URL, method and body, and the `authFetch` headers. */
  lemma AuthRequestContract(url: string, init: Init, token: Option<string>)
    ensures AuthRequest(url, init, token).url == url
    ensures AuthRequest(url, init, token).verb == init.verb
    ensures AuthRequest(url, init, token).body == init.body
    ensures AuthRequest(url, init, token).headers[ContentType] == Json
    ensures Truthy(token) ==> AuthRequest(url, init, token).headers[Authorization] == "Bearer " + token.value
    ensures !Truthy(token) && ValuesFor(init.headers, Authorization) == [] ==>
      Authorization !in AuthRequest(url, init, token).headers
  {
    AuthHeadersContract(init.headers, token);
  }

  class Browser {
    /** `localStorage` */
    var storage: map<string, string>
    /** `window.location.href` */
    var href: string
    /** The targets of `router.push`, in order. */
    var routes: seq<string>
    /** Every request handed to the network, in order. */
    var sent: seq<Request>

    constructor (storage: map<string, string>, href: string)
      ensures this.storage == storage && this.href == href && routes == [] && sent == []
    {
      this.storage := storage;
      this.href := href;
      routes := [];
      sent := [];
    }

    /** `getToken()` in the browser. */
    function Token(): Option<string>
      reads this
    {
      StoredToken(true, storage)
    }

    /** `fetch` (or an axios request): the request goes out and `reply` is what comes back. */
    method Fetch<B>(request: Request, reply: Reply<B>) returns (r: Reply<B>)
      modifies this
      ensures sent == old(sent) + [request] && r == reply
      ensures storage == old(storage) && href == old(href) && routes == old(routes)
    {
      sent := sent + [request];
      r := reply;
    }

    /** `localStorage.setItem(key, value)` */
    method SetItem(key: string, value: string)
      modifies this
      ensures storage == old(storage)[key := value]
      ensures href == old(href) && routes == old(routes) && sent == old(sent)
    {
      storage := storage[key := value];
    }

    /** `router.push(route)` */
    method Push(route: string)
      modifies this
      ensures routes == old(routes) + [route]
      ensures storage == old(storage) && href == old(href) && sent == old(sent)
    {
      routes := routes + [route];
    }

    /**
     * `authFetch(url, init)`: sends the request with the session's headers; a 401
     * removes the token, sends the window to the login page and rejects with
     * "Session expired"; any other reply is returned as it is.
     */
    method AuthFetch<B>(url: string, init: Init, reply: Reply<B>) returns (r: Reply<B>)
      modifies this
      ensures sent == old(sent) + [AuthRequest(url, init, old(Token()))]
      ensures r == AuthOutcome(reply)
      ensures storage == if Expired(reply) then old(storage) - {TokenKey} else old(storage)
      ensures href == if Expired(reply) then LoginPath else old(href)
      ensures routes == old(routes)
    {
      var token := Token();
      var headers := HeaderMap(init.headers);
      headers := headers[ContentType := Json];
      if Truthy(token) {
        headers := headers[Authorization := "Bearer " + token.value];
      }
      var response := Fetch(Request(url, init.verb, headers, init.body), reply);
      if response.Resolved? && response.value.status == 401 {
        storage := storage - {TokenKey};
        href := LoginPath;
        return Rejected(ErrorObject(ExpiredMessage));
      }
      return response;
    }
  }
}
