/** `AuthService`: the signed-in user and the stored session token. */
module AuthService {
  import opened Common
  import opened Storage
  import AuthGuard

  /** The credentials posted to the login and register endpoints. */
  datatype Credentials = Credentials(email: string, password: string)

  /** The user a login response names. */
  datatype User = User(email: string)

  /** A successful login response. */
  datatype AuthResponse = AuthResponse(token: string, user: User)

  class AuthServiceState {
    const storage: LocalStorage
    var currentUser: Option<User>

    constructor (store: LocalStorage)
      ensures storage == store && currentUser == None
    {
      storage := store;
      currentUser := None;
    }

    /** `login`: a response stores its token and signs its user in; a failed request
        changes nothing. */
    method Login(credentials: Credentials, response: Response<AuthResponse>)
      modifies this`currentUser, storage
      ensures response.Ok? ==> storage.items == old(storage.items)[TokenKey := response.value.token] &&
                               currentUser == Some(response.value.user)
      ensures response.Ok? ==> (AuthGuard.CanActivate(storage.items) == AuthGuard.Allow <==> response.value.token != "")
      ensures response.Failed? ==> storage.items == old(storage.items) && currentUser == old(currentUser)
    {
      match response
      case Ok(r) =>
        storage.SetItem(TokenKey, r.token);
        currentUser := Some(r.user);
      case Failed(_) =>
    }

    /** `logout`: the token is removed and nobody is signed in, so the auth guard
        redirects to the login page afterwards. */
    method Logout()
      modifies this`currentUser, storage
      ensures storage.items == old(storage.items) - {TokenKey}
      ensures currentUser == None
      ensures AuthGuard.CanActivate(storage.items) == AuthGuard.Redirect("/login")
    {
      storage.RemoveItem(TokenKey);
      currentUser := None;
    }

    /** `register`: posts the credentials and touches neither the store nor the user. */
    method Register(credentials: Credentials) returns (request: Credentials)
      ensures request == credentials
    {
      request := credentials;
    }
  }

  /** Logging out a second time leaves the state the first logout left. */
  method LogoutIsIdempotent(s: AuthServiceState) returns (itemsAfterFirst: map<string, string>, userAfterFirst: Option<User>)
    modifies s, s.storage
    ensures s.storage.items == itemsAfterFirst && s.currentUser == userAfterFirst
    ensures TokenKey !in itemsAfterFirst && userAfterFirst == None
  {
    s.Logout();
    itemsAfterFirst, userAfterFirst := s.storage.items, s.currentUser;
    s.Logout();
  }
}
