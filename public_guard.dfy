/** `publicGuard`: the login and register pages are only for visitors without a session. */
module PublicGuard {
  import opened Common
  import opened Storage
  import AuthGuard

  /** Redirects to the dashboard when the stored token is a non-empty string, and allows
      when it is missing or empty. */
  function CanActivate(items: map<string, string>): (r: AuthGuard.GuardResult)
    ensures r == AuthGuard.Allow <==> TokenKey !in items || items[TokenKey] == ""
    ensures r != AuthGuard.Allow ==> r == AuthGuard.Redirect("/dashboard")
  {
    if Truthy(StoredToken(items)) then AuthGuard.Redirect("/dashboard") else AuthGuard.Allow
  }

  /** In every store state exactly one of the two guards lets the navigation through. */
  lemma {:induction false} ExactlyOneGuardAllows(items: map<string, string>)
    ensures (AuthGuard.CanActivate(items) == AuthGuard.Allow) != (CanActivate(items) == AuthGuard.Allow)
  {
  }

  /** The guard depends on the token alone. */
  lemma ReadsOnlyTheToken(a: map<string, string>, b: map<string, string>)
    requires StoredToken(a) == StoredToken(b)
    ensures CanActivate(a) == CanActivate(b)
  {
  }
}
