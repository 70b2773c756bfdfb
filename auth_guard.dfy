/** `authGuard`: routes behind it open only with a stored session token. */
module AuthGuard {
  import opened Common
  import opened Storage

  /** What a route guard returns: `true`, or a redirect to another URL. */
  datatype GuardResult = Allow | Redirect(url: string)

  /** Allows when the stored token is a non-empty string, and redirects to the login page
      when it is missing or empty. */
  function CanActivate(items: map<string, string>): (r: GuardResult)
    ensures r == Allow <==> TokenKey in items && items[TokenKey] != ""
    ensures r != Allow ==> r == Redirect("/login")
  {
    if Truthy(StoredToken(items)) then Allow else Redirect("/login")
  }

  /** The guard depends on the token alone: stores that agree on it get the same answer. */
  lemma ReadsOnlyTheToken(a: map<string, string>, b: map<string, string>)
    requires StoredToken(a) == StoredToken(b)
    ensures CanActivate(a) == CanActivate(b)
  {
  }
}
