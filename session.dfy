/**
 * The authentication provider: who is signed in, whether the first
 * notification from the identity provider has arrived yet, and the ID token
 * kept in local storage. The identity provider's popup, token issuance and
 * sign-out are foreign calls; each operation receives their outcome.
 */
module Session {
  import opened Wrappers
  import opened Browser

  /** A signed-in user as the identity provider reports it. */
  datatype User = User(uid: string, displayName: string)

  /** An error raised by the identity provider. */
  datatype AuthError = AuthError(code: string)

  /** How an awaited call ends: normally, or by throwing. */
  datatype Completion = Done | Threw(error: AuthError)

  /** What the popup sign-in and the following token request produce. */
  datatype SignInResult =
    | PopupFailed(error: AuthError)               // signInWithPopup rejected
    | TokenFailed(user: User, error: AuthError)   // getIdToken rejected
    | SignedIn(user: User, idToken: string)

  /** What the provider renders in place of its children. */
  datatype Screen = Spinner | SignInPrompt | Welcome

  const OutsideProviderMessage: string := "useAuth must be used within an AuthProvider"

  /** The value the provider publishes through its context. */
  datatype AuthContextValue = AuthContextValue(user: Option<User>)

  /** What `useAuth()` returns or throws. */
  datatype UseAuthResult = Value(value: AuthContextValue) | Thrown(message: string)

  /** `useAuth()`: the context value of the enclosing provider, or the error
      it throws when there is none. */
  function UseAuth(context: Option<AuthContextValue>): (r: UseAuthResult)
    ensures r.Value? <==> context.Some?
    ensures r.Value? ==> r.value == context.value
    ensures r.Thrown? ==> r.message == OutsideProviderMessage
  {
    if context.None? then Thrown(OutsideProviderMessage) else Value(context.value)
  }

  /** The provider's render: a spinner until the first notification, then a
      sign-in prompt without a user, and the welcome panel holding the
      children with one. */
  function Gate(loading: bool, user: Option<User>): (s: Screen)
    ensures s == Welcome <==> !loading && user.Some?
    ensures s == Spinner <==> loading
  {
    if loading then Spinner else if user.None? then SignInPrompt else Welcome
  }

  class AuthProvider {
    var user: Option<User>
    var loading: bool
    const storage: LocalStorage

    /** A freshly mounted provider: no user yet, waiting for the first
        notification. */
    constructor (storage: LocalStorage)
      ensures user == None && loading
      ensures this.storage == storage
    {
      user := None;
      loading := true;
      this.storage := storage;
    }

    /** Whether the children are shown. */
    predicate ShowsChildren()
      reads this
    {
      Gate(loading, user) == Welcome
    }

    /** The `onAuthStateChanged` callback: adopts the notified user and ends
        the initial loading phase; the stored token is not touched. */
    method OnAuthStateChanged(notified: Option<User>)
      modifies this
      ensures user == notified && !loading
      ensures storage.items == old(storage.items)
    {
      user := notified;
      loading := false;
    }

    /** `login()`: on success stores the issued token under "idToken" and
        adopts the signed-in user; on failure rethrows the provider's error
        with the store and the user as they were. */
    method Login(result: SignInResult) returns (c: Completion)
      modifies this, storage
      ensures loading == old(loading)
      ensures result.SignedIn? ==>
        && c == Done
        && storage.items == old(storage.items)[IdTokenKey := result.idToken]
        && user == Some(result.user)
      ensures !result.SignedIn? ==>
        && c == Threw(result.error)
        && storage.items == old(storage.items)
        && user == old(user)
    {
      match result
      case PopupFailed(e) =>
        c := Threw(e);
      case TokenFailed(_, e) =>
        c := Threw(e);
      case SignedIn(u, token) =>
        storage.SetItem(IdTokenKey, token);
        user := Some(u);
        c := Done;
    }

    /** `logout()`: on success removes "idToken" from the store and forgets
        the user; on failure rethrows and keeps the local state. */
    method Logout(signOut: Completion) returns (c: Completion)
      modifies this, storage
      ensures loading == old(loading)
      ensures c == signOut
      ensures signOut == Done ==>
        storage.items == old(storage.items) - {IdTokenKey} && user == None
      ensures signOut != Done ==>
        storage.items == old(storage.items) && user == old(user)
    {
      match signOut
      case Threw(e) =>
        c := Threw(e);
      case Done =>
        storage.RemoveItem(IdTokenKey);
        user := None;
        c := Done;
    }
  }

  /** A provider that learns of a persisted session from the notification
      shows a signed-in user while the store holds no token: the user and the
      stored token are not kept in step. */
  method SignedInWithoutToken() returns (userShown: bool, tokenStored: bool)
    ensures userShown && !tokenStored
  {
    var storage := new LocalStorage();
    var provider := new AuthProvider(storage);
    provider.OnAuthStateChanged(Some(User("u1", "Ada")));
    userShown := provider.ShowsChildren();
    tokenStored := storage.GetItem(IdTokenKey).Some?;
  }

  /** A successful logout after a successful login leaves the store as it
      was before the login, less any token stored earlier, and no user. */
  method LoginThenLogout(provider: AuthProvider, user: User, idToken: string)
    modifies provider, provider.storage
    ensures provider.storage.items == old(provider.storage.items) - {IdTokenKey}
    ensures provider.user == None && provider.loading == old(provider.loading)
  {
    var _ := provider.Login(SignedIn(user, idToken));
    var _ := provider.Logout(Done);
  }
}
