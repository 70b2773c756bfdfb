/** `authInterceptor`: every outgoing request carries the session token, if there is one. */
module AuthInterceptor {
  import opened Common
  import opened Storage

  /** An outgoing request; header names are compared exactly. */
  datatype HttpRequest = HttpRequest(verb: string, url: string, headers: map<string, string>, body: string)

  const AuthorizationHeader := "Authorization"

  /** The request handed to `next`, which the interceptor calls exactly once. With a
      non-empty token it is a copy carrying `Authorization: Bearer <token>` and otherwise
      equal to the original; without one it is the original. */
  function Intercept(req: HttpRequest, items: map<string, string>): (forwarded: HttpRequest)
    ensures forwarded.verb == req.verb && forwarded.url == req.url && forwarded.body == req.body
    ensures forall h :: h != AuthorizationHeader ==>
              (h in forwarded.headers <==> h in req.headers) &&
              (h in req.headers ==> forwarded.headers[h] == req.headers[h])
    ensures Truthy(StoredToken(items)) ==>
              AuthorizationHeader in forwarded.headers &&
              forwarded.headers[AuthorizationHeader] == "Bearer " + items[TokenKey]
    ensures !Truthy(StoredToken(items)) ==> forwarded == req
  {
    var token := StoredToken(items);
    if Truthy(token) then
      req.(headers := req.headers[AuthorizationHeader := "Bearer " + token.value])
    else
      req
  }

  /** Intercepting twice with the same store gives what intercepting once gives. */
  lemma {:induction false} InterceptIsIdempotent(req: HttpRequest, items: map<string, string>)
    ensures Intercept(Intercept(req, items), items) == Intercept(req, items)
  {
    var once := Intercept(req, items);
    if Truthy(StoredToken(items)) {
      assert once.headers[AuthorizationHeader := "Bearer " + items[TokenKey]] == once.headers;
    }
  }
}
