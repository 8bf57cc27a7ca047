/**
 * Requests and responses as the Fetch API sees them.  A `Headers` object is a
 * map from lower-cased header names to values; a name given more than once is
 * combined into one value joined by ", " (the Fetch standard's `append`), and
 * `set` replaces whatever was there.
 */
module Http {
  import opened Js
  import opened Skills

  type Headers = map<string, string>

  const ContentType := "content-type"
  const Authorization := "authorization"
  const Json := "application/json"

  /** The `RequestInit` a caller passes: its `headers` are name/value pairs in the order given. */
  datatype Init = Init(verb: Option<string>, headers: seq<(string, string)>, body: Body)

  /** A request as handed to the network. `verb` None is fetch's default, GET. */
  datatype Request = Request(url: string, verb: Option<string>, headers: Headers, body: Body)

  /** The outcome of `response.json()`: a document, or the SyntaxError's message. */
  datatype Parsed<+B> = Document(value: B) | NotJson(message: string)

  datatype Response<+B> = Response(status: nat, body: Parsed<B>)

  /** What an awaited `fetch` gives: a response, or the reason it rejected (no response received). */
  type Reply<B> = Settled<Response<B>>

  /** `response.ok` */
  predicate IsOk(status: nat) {
    200 <= status <= 299
  }

  /** `headers.append(name, value)` */
  function Append(h: Headers, name: string, value: string): Headers {
    var k := Lower(name);
    if k in h then h[k := h[k] + ", " + value] else h[k := value]
  }

  /** `new Headers(init)`: every pair appended, first to last. */
  function HeaderMap(pairs: seq<(string, string)>): (h: Headers)
    ensures forall k :: k in h ==> Lower(k) == k
    ensures forall i :: 0 <= i < |pairs| ==> Lower(pairs[i].0) in h
    ensures forall k :: k in h ==> exists i :: 0 <= i < |pairs| && Lower(pairs[i].0) == k
  {
    if pairs == [] then map[]
    else
      var init, last := pairs[..|pairs| - 1], pairs[|pairs| - 1];
      LowerIdempotent(last.0);
      assert forall i :: 0 <= i < |init| ==> init[i] == pairs[i];
      Append(HeaderMap(init), last.0, last.1)
  }

  /** The values given for name `k` (compared without case), in order. */
  function ValuesFor(pairs: seq<(string, string)>, k: string): seq<string> {
    if pairs == [] then []
    else (if Lower(pairs[0].0) == k then [pairs[0].1] else []) + ValuesFor(pairs[1..], k)
  }

  function Join(vs: seq<string>): string
    requires vs != []
  {
    if |vs| == 1 then vs[0] else vs[0] + ", " + Join(vs[1..])
  }

  /**
   * The headers `authFetch` sends: the caller's, then `set('Content-Type', ...)`,
   * then `set('Authorization', ...)` when the token is truthy (`set` stores the
   * name lower-cased and replaces any value it had).
   */
  function AuthHeaders(caller: seq<(string, string)>, token: Option<string>): (h: Headers)
    ensures ContentType in h && h[ContentType] == Json
    ensures Truthy(token) ==> Authorization in h && h[Authorization] == "Bearer " + token.value
    ensures h.Keys == HeaderMap(caller).Keys + {ContentType} + (if Truthy(token) then {Authorization} else {})
  {
    var h := HeaderMap(caller)[ContentType := Json];
    if Truthy(token) then h[Authorization := "Bearer " + token.value] else h
  }

  lemma {:induction false} ValuesForSnoc(pairs: seq<(string, string)>, p: (string, string), k: string)
    ensures ValuesFor(pairs + [p], k) == ValuesFor(pairs, k) + (if Lower(p.0) == k then [p.1] else [])
  {
    if pairs != [] {
      assert (pairs + [p])[1..] == pairs[1..] + [p];
      ValuesForSnoc(pairs[1..], p, k);
    }
  }

  lemma {:induction false} JoinSnoc(vs: seq<string>, v: string)
    requires vs != []
    ensures Join(vs + [v]) == Join(vs) + ", " + v
  {
    if |vs| > 1 {
      assert (vs + [v])[1..] == vs[1..] + [v];
      JoinSnoc(vs[1..], v);
    }
  }

  /** A header name is present exactly when the caller gave it (in any case). */
  lemma {:induction false} ValuesForPresent(pairs: seq<(string, string)>, k: string)
    ensures ValuesFor(pairs, k) != [] <==> exists i :: 0 <= i < |pairs| && Lower(pairs[i].0) == k
  {
    if pairs != [] {
      ValuesForPresent(pairs[1..], k);
      if Lower(pairs[0].0) != k {
        forall i | 0 <= i < |pairs| && Lower(pairs[i].0) == k
          ensures exists j :: 0 <= j < |pairs[1..]| && Lower(pairs[1..][j].0) == k
        {
          assert i > 0 && Lower(pairs[1..][i - 1].0) == k;
        }
      }
    }
  }

  /** `new Headers(pairs)` holds name `k` exactly when some pair names it, with all its values joined in order. */
  lemma {:induction false} HeaderMapCombines(pairs: seq<(string, string)>, k: string)
    ensures k in HeaderMap(pairs) <==> ValuesFor(pairs, k) != []
    ensures k in HeaderMap(pairs) ==> HeaderMap(pairs)[k] == Join(ValuesFor(pairs, k))
  {
    if pairs != [] {
      var init, last := pairs[..|pairs| - 1], pairs[|pairs| - 1];
      assert pairs == init + [last];
      HeaderMapCombines(init, k);
      ValuesForSnoc(init, last, k);
      assert HeaderMap(pairs) == Append(HeaderMap(init), last.0, last.1);
      if Lower(last.0) != k {
        assert ValuesFor(pairs, k) == ValuesFor(init, k);
      } else if ValuesFor(init, k) == [] {
        assert ValuesFor(pairs, k) == [last.1];
      } else {
        JoinSnoc(ValuesFor(init, k), last.1);
      }
    }
  }

  /**
   * `authFetch`'s headers: Content-Type is always application/json (whatever the
   * caller gave); Authorization is "Bearer " + token when the token is truthy and
   * is otherwise only what the caller gave; every other caller header passes through.
   */
  lemma AuthHeadersContract(caller: seq<(string, string)>, token: Option<string>)
    ensures ContentType in AuthHeaders(caller, token)
    ensures AuthHeaders(caller, token)[ContentType] == Json
    ensures Truthy(token) ==>
      Authorization in AuthHeaders(caller, token) && AuthHeaders(caller, token)[Authorization] == "Bearer " + token.value
    ensures !Truthy(token) ==>
      && (Authorization in AuthHeaders(caller, token) <==> ValuesFor(caller, Authorization) != [])
      && (Authorization in AuthHeaders(caller, token) ==>
            AuthHeaders(caller, token)[Authorization] == Join(ValuesFor(caller, Authorization)))
    ensures forall k :: k != ContentType && k != Authorization ==>
      && (k in AuthHeaders(caller, token) <==> ValuesFor(caller, k) != [])
      && (k in AuthHeaders(caller, token) ==> AuthHeaders(caller, token)[k] == Join(ValuesFor(caller, k)))
  {
    HeaderMapCombines(caller, Authorization);
    forall k | k != ContentType && k != Authorization
      ensures && (k in AuthHeaders(caller, token) <==> ValuesFor(caller, k) != [])
              && (k in AuthHeaders(caller, token) ==> AuthHeaders(caller, token)[k] == Join(ValuesFor(caller, k)))
    {
      HeaderMapCombines(caller, k);
    }
  }
}
