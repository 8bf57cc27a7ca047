/** The header object builder of the utility module. */
module Utils {
  import opened Js
  import opened Session

  /** The options object `auth` returns: it has a `headers` key and nothing else. */
  datatype AuthOptions = AuthOptions(headers: map<string, string>)

  /**
   * `auth(customHeaders)`: an `Authorization` entry "Bearer " + token (just
   * "Bearer " without a token), then every custom header spread over it, so a
   * custom `Authorization` wins.  The object's keys keep their case.
   */
  function Auth(hasWindow: bool, storage: map<string, string>, custom: map<string, string>): (o: AuthOptions)
    ensures o.headers.Keys == custom.Keys + {"Authorization"}
    ensures forall k :: k in custom ==> o.headers[k] == custom[k]
    ensures "Authorization" !in custom && Truthy(StoredToken(hasWindow, storage)) ==>
      o.headers["Authorization"] == "Bearer " + storage[TokenKey]
    ensures "Authorization" !in custom && !Truthy(StoredToken(hasWindow, storage)) ==>
      o.headers["Authorization"] == "Bearer "
  {
    AuthOptions(map["Authorization" := "Bearer " + Or(StoredToken(hasWindow, storage), "")] + custom)
  }
}
