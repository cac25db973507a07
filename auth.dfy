/** The authentication context: the signed-in user, the flag that gates the
    UI until the stored session has been read, and the three ways the user
    changes (Google sign-in, Apple sign-in, sign-out). The identity
    providers and the user-info request are parameters: each is a function
    from what the app sends to what comes back, a result or a failure. */
module Auth {
  import opened Wrappers
  import opened Records
  import opened Storage
  import opened Query

  /** The storage key of the session user. */
  const UserStorageKey := "@gofinances:user"

  const GoogleAuthEndpoint := "https://accounts.google.com/o/oauth2/v2/auth"
  const GoogleUserInfoEndpoint := "https://www.googleapis.com/oauth2/v1/userinfo"
  const AvatarEndpoint := "https://ui-avatars.com/api/"

  /** The implicit grant: the access token comes back in the redirect
      (section 4.2.1 of RFC 6749). */
  const ResponseType := "token"
  /** `encodeURI('profile email')`. */
  const Scope := "profile%20email"

  // ---------------------------------------------------------------------
  // What the providers send back

  datatype AuthParams = AuthParams(accessToken: string)

  /** What `AuthSession.startAsync` resolves to: a `type` such as "success",
      "cancel" or "error", and parameters that only a success carries. */
  datatype AuthorizationResponse = AuthorizationResponse(kind: string, params: Option<AuthParams>)

  /** The fields of Google's user-info payload that the app reads. */
  datatype UserInfo = UserInfo(id: string, email: string, givenName: string, picture: string)

  datatype AppleScope = FullNameScope | EmailScope

  datatype FullName = FullName(givenName: string)

  /** The credential `AppleAuthentication.signInAsync` resolves to. */
  datatype AppleCredential = AppleCredential(user: string, email: string, fullName: Option<FullName>)

  /** Why a sign-in rejects. Every failure is rethrown to the caller. */
  datatype AuthError =
    | ProviderError(reason: string)   // the provider SDK rejected
    | RequestError(reason: string)    // fetch or response.json() rejected
    | MissingAccessToken              // a "success" without params: reading params.access_token throws
    | MissingFullName                 // credential.fullName is null: reading givenName throws

  // ---------------------------------------------------------------------
  // The URLs the app builds

  function GoogleAuthParams(clientId: string, redirectUri: string): seq<Param>
  {
    [ Param("client_id", clientId), Param("redirect_uri", redirectUri),
      Param("response_type", ResponseType), Param("scope", Scope) ]
  }

  /** The authorization URL handed to `startAsync`: the endpoint, '?', and a
      request for an access token in the redirect, with scope `profile email`,
      for the configured client and redirect URI. Neither of those is
      encoded, so the request reads back as written only when neither holds '&'. */
  function GoogleAuthUrl(clientId: string, redirectUri: string): (url: string)
    ensures |url| > |GoogleAuthEndpoint| && url[..|GoogleAuthEndpoint| + 1] == GoogleAuthEndpoint + "?"
    ensures '&' !in clientId && '&' !in redirectUri ==>
      ParseQuery(url[|GoogleAuthEndpoint| + 1..]) ==
        [ Param("client_id", clientId), Param("redirect_uri", redirectUri),
          Param("response_type", "token"), Param("scope", "profile%20email") ]
  {
    var ps := GoogleAuthParams(clientId, redirectUri);
    if '&' !in clientId && '&' !in redirectUri then
      GoogleAuthParamsUnambiguous(clientId, redirectUri);
      ParseQueryString(ps);
      Url(GoogleAuthEndpoint, ps)
    else
      Url(GoogleAuthEndpoint, ps)
  }

  lemma GoogleAuthParamsUnambiguous(clientId: string, redirectUri: string)
    requires '&' !in clientId && '&' !in redirectUri
    ensures Unambiguous(GoogleAuthParams(clientId, redirectUri))
  {
    var ps := GoogleAuthParams(clientId, redirectUri);
    forall i | 0 <= i < |ps|
      ensures '&' !in ps[i].key && '=' !in ps[i].key && '&' !in ps[i].value
    {
      if i == 0 {
        assert ps[i] == Param("client_id", clientId);
      } else if i == 1 {
        assert ps[i] == Param("redirect_uri", redirectUri);
      } else if i == 2 {
        assert ps[i] == Param("response_type", ResponseType);
      } else {
        assert ps[i] == Param("scope", Scope);
      }
    }
  }

  /** The user-info request: the endpoint, `alt=json`, and the access token. */
  function UserInfoUrl(accessToken: string): (url: string)
    ensures |url| > |GoogleUserInfoEndpoint| && url[..|GoogleUserInfoEndpoint| + 1] == GoogleUserInfoEndpoint + "?"
    ensures '&' !in accessToken ==>
      ParseQuery(url[|GoogleUserInfoEndpoint| + 1..]) ==
        [Param("alt", "json"), Param("access_token", accessToken)]
  {
    var ps := [Param("alt", "json"), Param("access_token", accessToken)];
    if '&' !in accessToken then
      assert Unambiguous(ps) by {
        forall i | 0 <= i < |ps|
          ensures '&' !in ps[i].key && '=' !in ps[i].key && '&' !in ps[i].value
        {
        }
      }
      ParseQueryString(ps);
      Url(GoogleUserInfoEndpoint, ps)
    else
      Url(GoogleUserInfoEndpoint, ps)
  }

  /** The generated avatar for an Apple user: the given name, one letter long. */
  function AvatarUrl(name: string): (url: string)
    ensures |url| > |AvatarEndpoint| && url[..|AvatarEndpoint| + 1] == AvatarEndpoint + "?"
    ensures '&' !in name ==>
      ParseQuery(url[|AvatarEndpoint| + 1..]) == [Param("name", name), Param("length", "1")]
  {
    var ps := [Param("name", name), Param("length", "1")];
    if '&' !in name then
      assert Unambiguous(ps) by {
        forall i | 0 <= i < |ps|
          ensures '&' !in ps[i].key && '=' !in ps[i].key && '&' !in ps[i].value
        {
        }
      }
      ParseQueryString(ps);
      Url(AvatarEndpoint, ps)
    else
      Url(AvatarEndpoint, ps)
  }

  // ---------------------------------------------------------------------
  // What a sign-in decides

  /** Google's payload as a session user: `given_name` becomes the name and
      `picture` the photo. */
  function GoogleUser(info: UserInfo): (u: User)
    ensures u.id == info.id && u.email == info.email
    ensures u.name == info.givenName && u.photo == Some(info.picture)
  {
    User(info.id, info.givenName, info.email, Some(info.picture))
  }

  /** The outcome of a Google sign-in given what `startAsync` resolved to:
      a user to sign in, nothing to do (Success(None)), or an error. */
  function GoogleSignInResult(start: Result<AuthorizationResponse, AuthError>,
                              fetchUserInfo: string -> Result<UserInfo, AuthError>)
    : (r: Result<Option<User>, AuthError>)
    ensures start.Failure? ==> r == Failure(start.error)
    ensures start.Success? && start.value.kind != "success" ==> r == Success(None)
    ensures start.Success? && start.value.kind == "success" && start.value.params.None? ==>
      r == Failure(MissingAccessToken)
    ensures start.Success? && start.value.kind == "success" && start.value.params.Some? ==>
      var info := fetchUserInfo(UserInfoUrl(start.value.params.value.accessToken));
      && (info.Success? ==> r == Success(Some(GoogleUser(info.value))))
      && (info.Failure? ==> r == Failure(info.error))
    ensures r.Success? && r.value.Some? ==>
      && start.Success? && start.value.kind == "success" && start.value.params.Some?
      && var info := fetchUserInfo(UserInfoUrl(start.value.params.value.accessToken));
         info.Success? && r.value.value == GoogleUser(info.value)
  {
    match start
    case Failure(e) => Failure(e)
    case Success(response) =>
      if response.kind != "success" then Success(None)
      else if response.params.None? then Failure(MissingAccessToken)
      else
        match fetchUserInfo(UserInfoUrl(response.params.value.accessToken))
        case Failure(e) => Failure(e)
        case Success(info) => Success(Some(GoogleUser(info)))
  }

  /** The scopes the Apple sign-in requests. */
  const AppleScopes := [FullNameScope, EmailScope]

  /** The outcome of an Apple sign-in given what `signInAsync` resolved to. */
  function AppleSignInResult(signIn: Result<AppleCredential, AuthError>): (r: Result<User, AuthError>)
    ensures signIn.Failure? ==> r == Failure(signIn.error)
    ensures signIn.Success? && signIn.value.fullName.None? ==> r == Failure(MissingFullName)
    ensures r.Success? <==> signIn.Success? && signIn.value.fullName.Some?
    ensures r.Success? ==>
      var credential := signIn.value;
      var name := credential.fullName.value.givenName;
      && r.value.id == credential.user && r.value.email == credential.email
      && r.value.name == name && r.value.photo == Some(AvatarUrl(name))
  {
    match signIn
    case Failure(e) => Failure(e)
    case Success(credential) =>
      match credential.fullName
      case None => Failure(MissingFullName)
      case Some(fullName) =>
        var name := fullName.givenName;
        Success(User(credential.user, name, credential.email, Some(AvatarUrl(name))))
  }

  // ---------------------------------------------------------------------
  // The session: the in-memory user and the store, as one value

  datatype Session = Session(user: Option<User>, stored: map<string, Stored>)

  /** A successful sign-in: the user is set and written through to the store. */
  function SignedIn(s: Session, u: User): (t: Session)
    ensures t.user == Some(u)
    ensures Lookup(t.stored, UserStorageKey) == Some(UserRecord(u))
    ensures forall k :: k != UserStorageKey ==> Lookup(t.stored, k) == Lookup(s.stored, k)
  {
    Session(Some(u), s.stored[UserStorageKey := UserRecord(u)])
  }

  /** Sign-out: the user is cleared and the stored record removed; the
      transaction lists stay. */
  function SignedOut(s: Session): (t: Session)
    ensures t.user == None
    ensures Lookup(t.stored, UserStorageKey) == None
    ensures forall k :: k != UserStorageKey ==> Lookup(t.stored, k) == Lookup(s.stored, k)
  {
    Session(None, s.stored - {UserStorageKey})
  }

  /** The restore at mount: a stored user record is adopted; otherwise the
      user stays as it is. The store is only read. */
  function Restored(s: Session): (t: Session)
    ensures t.stored == s.stored
    ensures Lookup(s.stored, UserStorageKey).Some? && Lookup(s.stored, UserStorageKey).value.UserRecord? ==>
      t.user == Some(Lookup(s.stored, UserStorageKey).value.user)
    ensures Lookup(s.stored, UserStorageKey).None? ==> t.user == s.user
    ensures Lookup(s.stored, UserStorageKey).Some? && !Lookup(s.stored, UserStorageKey).value.UserRecord? ==>
      t == s
  {
    match Lookup(s.stored, UserStorageKey)
    case Some(UserRecord(u)) => Session(Some(u), s.stored)
    case _ => s
  }

  /** Applying a sign-in outcome: only a user to sign in changes anything. */
  function Apply(r: Result<Option<User>, AuthError>, s: Session): (t: Session)
    ensures r.Success? && r.value.Some? ==> t == SignedIn(s, r.value.value)
    ensures !(r.Success? && r.value.Some?) ==> t == s
  {
    if r.Success? && r.value.Some? then SignedIn(s, r.value.value) else s
  }

  function OutcomeOf<T>(r: Result<T, AuthError>): (o: Outcome<AuthError>)
    ensures o.Fail? <==> r.Failure?
    ensures o.Fail? ==> o.error == r.error
  {
    if r.Failure? then Fail(r.error) else Pass
  }

  /** After a sign-in, an app restart (memory starts empty) restores the same user. */
  lemma RestoreAfterSignIn(s: Session, u: User)
    ensures Restored(Session(None, SignedIn(s, u).stored)).user == Some(u)
  {
  }

  /** After a sign-out, an app restart finds no user. */
  lemma RestoreAfterSignOut(s: Session)
    ensures Restored(Session(None, SignedOut(s).stored)).user == None
  {
  }

  // ---------------------------------------------------------------------
  // The provider component

  class AuthProvider {
    var user: Option<User>
    var userStorageLoading: bool
    const store: AsyncStore

    function Current(): Session
      reads this, store
    {
      Session(user, store.entries)
    }

    /** Mounting: no user yet, and loading until the stored session is read. */
    constructor (store: AsyncStore)
      ensures user == None && userStorageLoading
      ensures this.store == store
    {
      user := None;
      userStorageLoading := true;
      this.store := store;
    }

    /** `loadStoredUserData`: adopt the stored user if there is one; loading ends either way. */
    method LoadStoredUserData()
      modifies this
      ensures Current() == Restored(old(Current()))
      ensures !userStorageLoading
    {
      var storedUser := store.GetItem(UserStorageKey);
      if storedUser.Some? && storedUser.value.UserRecord? {
        user := Some(storedUser.value.user);
      }
      userStorageLoading := false;
    }

    method SignInWithGoogle(clientId: string, redirectUri: string,
                            startAsync: string -> Result<AuthorizationResponse, AuthError>,
                            fetchUserInfo: string -> Result<UserInfo, AuthError>)
      returns (outcome: Outcome<AuthError>)
      modifies this, store
      ensures Current() == Apply(GoogleSignInResult(startAsync(GoogleAuthUrl(clientId, redirectUri)), fetchUserInfo),
                                 old(Current()))
      ensures outcome == OutcomeOf(GoogleSignInResult(startAsync(GoogleAuthUrl(clientId, redirectUri)), fetchUserInfo))
      ensures userStorageLoading == old(userStorageLoading)
    {
      var authUrl := GoogleAuthUrl(clientId, redirectUri);
      var start := startAsync(authUrl);
      if start.Failure? {
        return Fail(start.error);
      }
      var response := start.value;
      if response.kind == "success" {
        if response.params.None? {
          return Fail(MissingAccessToken);
        }
        var userInfo := fetchUserInfo(UserInfoUrl(response.params.value.accessToken));
        if userInfo.Failure? {
          return Fail(userInfo.error);
        }
        var loggedUser := GoogleUser(userInfo.value);
        user := Some(loggedUser);
        store.SetItem(UserStorageKey, UserRecord(loggedUser));
      }
      outcome := Pass;
    }

    method SignInWithApple(signInAsync: seq<AppleScope> -> Result<AppleCredential, AuthError>)
      returns (outcome: Outcome<AuthError>)
      modifies this, store
      ensures var r := AppleSignInResult(signInAsync(AppleScopes));
        Current() == (if r.Success? then SignedIn(old(Current()), r.value) else old(Current()))
      ensures outcome == OutcomeOf(AppleSignInResult(signInAsync(AppleScopes)))
      ensures userStorageLoading == old(userStorageLoading)
    {
      var signIn := signInAsync(AppleScopes);
      if signIn.Failure? {
        return Fail(signIn.error);
      }
      var credential := signIn.value;
      if credential.fullName.None? {
        return Fail(MissingFullName);
      }
      var name := credential.fullName.value.givenName;
      var photo := AvatarUrl(name);
      var loggedUser := User(credential.user, name, credential.email, Some(photo));
      user := Some(loggedUser);
      store.SetItem(UserStorageKey, UserRecord(loggedUser));
      outcome := Pass;
    }

    method SignOut()
      modifies this, store
      ensures Current() == SignedOut(old(Current()))
      ensures userStorageLoading == old(userStorageLoading)
    {
      user := None;
      store.RemoveItem(UserStorageKey);
    }
  }
}
