/** The client session: three local-storage keys (access token, refresh token,
    serialised user) mirrored by a current-user value, restored on mount,
    written by `login` and cleared by `logout`. */
module AuthContext {
  import opened Common

  /** The signed-in user as the server describes it. */
  datatype User = User(id: string, email: string, name: Option<string>)

  /** `localStorage`: string keys to string values. */
  type Storage = map<string, string>

  const AccessTokenKey := "access_token"
  const RefreshTokenKey := "refresh_token"
  const UserKey := "user"

  /** The only keys the session writes or removes. */
  const SessionKeys: set<string> := {AccessTokenKey, RefreshTokenKey, UserKey}

  /** `localStorage.getItem(key)` tested for truthiness: present and not empty. */
  predicate HasItem(st: Storage, key: string)
  {
    key in st && st[key] != ""
  }

  /** A usable access token is stored. */
  predicate HasAccessToken(st: Storage)
  {
    HasItem(st, AccessTokenKey)
  }

  /** The provider's state: storage, the current user and the `loading` flag. */
  datatype Session = Session(storage: Storage, user: Option<User>, loading: bool)

  /** What `login` receives from the login call. */
  datatype LoginData = LoginData(user: User, accessToken: string, refreshToken: string)

  /** The mount effect. `parse` is `JSON.parse` of a stored user: `None` when it throws. */
  function Restore(s: Session, parse: string -> Option<User>): (r: Session)
    ensures !r.loading
    ensures HasItem(s.storage, UserKey) && parse(s.storage[UserKey]).Some? ==>
      r.user == parse(s.storage[UserKey]) && r.storage == s.storage
    ensures HasItem(s.storage, UserKey) && parse(s.storage[UserKey]).None? ==>
      r.user == s.user && UserKey !in r.storage && r.storage == s.storage - {UserKey}
    ensures !HasItem(s.storage, UserKey) ==> r.user == s.user && r.storage == s.storage
  {
    if HasItem(s.storage, UserKey) then
      match parse(s.storage[UserKey])
      case Some(u) => Session(s.storage, Some(u), false)
      case None => Session(s.storage - {UserKey}, s.user, false)
    else s.(loading := false)
  }

  /** `login`; `stringify` is `JSON.stringify`. */
  function Login(s: Session, data: LoginData, stringify: User -> string): (r: Session)
    ensures r.user == Some(data.user) && r.loading == s.loading
    ensures r.storage.Keys == s.storage.Keys + SessionKeys
    ensures r.storage[AccessTokenKey] == data.accessToken
    ensures r.storage[RefreshTokenKey] == data.refreshToken
    ensures r.storage[UserKey] == stringify(data.user)
  {
    Session(
      s.storage[AccessTokenKey := data.accessToken][RefreshTokenKey := data.refreshToken][UserKey := stringify(data.user)],
      Some(data.user),
      s.loading)
  }

  /** The request `logout` sends to the server: the stored tokens, the refresh
      token possibly missing. */
  datatype SignoutRequest = SignoutRequest(accessToken: string, refreshToken: Option<string>)

  /** The signout request `logout` sends, if any: only when an access token is stored. */
  function SignoutCall(st: Storage): (r: Option<SignoutRequest>)
    ensures r.Some? <==> HasAccessToken(st)
    ensures r.Some? ==> r.value.accessToken == st[AccessTokenKey]
  {
    if HasAccessToken(st) then
      Some(SignoutRequest(st[AccessTokenKey], if RefreshTokenKey in st then Some(st[RefreshTokenKey]) else None))
    else None
  }

  /** `logout`'s final state, which does not depend on how the signout call ends. */
  function Logout(s: Session): (r: Session)
    ensures r.user.None? && r.loading == s.loading
    ensures r.storage.Keys == s.storage.Keys - SessionKeys
    ensures !HasAccessToken(r.storage)
  {
    Session(s.storage - SessionKeys, None, s.loading)
  }

  /** Neither `login` nor `logout` nor the mount effect touches a key outside the three. */
  lemma OtherKeysUntouched(s: Session, data: LoginData, stringify: User -> string,
                           parse: string -> Option<User>, k: string)
    requires k !in SessionKeys
    ensures k in Login(s, data, stringify).storage <==> k in s.storage
    ensures k in s.storage ==> Login(s, data, stringify).storage[k] == s.storage[k]
    ensures k in Logout(s).storage <==> k in s.storage
    ensures k in s.storage ==> Logout(s).storage[k] == s.storage[k]
    ensures k in Restore(s, parse).storage <==> k in s.storage
    ensures k in s.storage ==> Restore(s, parse).storage[k] == s.storage[k]
  {
  }

  /** A page reload after `login` restores the same user, provided parsing
      undoes serialising and the serialised user is not the empty string. */
  lemma LoginThenRestore(s: Session, data: LoginData, stringify: User -> string,
                         parse: string -> Option<User>)
    requires parse(stringify(data.user)) == Some(data.user) && stringify(data.user) != ""
    ensures Restore(Login(s, data, stringify), parse).user == Some(data.user)
    ensures Restore(Login(s, data, stringify), parse).storage == Login(s, data, stringify).storage
  {
  }

  /** After `logout` a reload finds nobody signed in and no token to send. */
  lemma LogoutThenRestore(s: Session, parse: string -> Option<User>)
    ensures Restore(Logout(s), parse).user.None?
    ensures SignoutCall(Restore(Logout(s), parse).storage).None?
  {
  }

  /** `useAuth`: the context, or the error it throws outside a provider. */
  function UseAuth<T>(context: Option<T>): (r: Remote<T>)
    ensures context.Some? <==> r.Ok?
    ensures context.Some? ==> r.value == context.value
    ensures context.None? ==> r.message == "useAuth must be used within an AuthProvider"
  {
    match context
    case Some(c) => Ok(c)
    case None => Failed("useAuth must be used within an AuthProvider")
  }

  /** The provider component: `localStorage`, `user` and `loading`. */
  class AuthProvider {
    var storage: Storage
    var user: Option<User>
    var loading: bool

    function State(): Session
      reads this
    {
      Session(storage, user, loading)
    }

    /** The provider's first render, over whatever the browser has stored. */
    constructor (stored: Storage)
      ensures State() == Session(stored, None, true)
    {
      storage := stored;
      user := None;
      loading := true;
    }

    /** The mount effect. */
    method Mount(parse: string -> Option<User>)
      modifies this
      ensures State() == Restore(old(State()), parse)
    {
      if UserKey in storage && storage[UserKey] != "" {
        var parsed := parse(storage[UserKey]);
        if parsed.Some? {
          user := parsed;
        } else {
          storage := storage - {UserKey};
        }
      }
      loading := false;
    }

    /** `login`: writes the three keys, sets the user and goes to `/home`. */
    method DoLogin(data: LoginData, stringify: User -> string) returns (navigateTo: string)
      modifies this
      ensures State() == Login(old(State()), data, stringify)
      ensures navigateTo == "/home"
    {
      storage := storage[AccessTokenKey := data.accessToken];
      storage := storage[RefreshTokenKey := data.refreshToken];
      storage := storage[UserKey := stringify(data.user)];
      user := Some(data.user);
      navigateTo := "/home";
    }

    /** `logout`: calls signout when a token is stored, then clears the three keys,
        the user, and goes to `/login`, whether or not the call succeeded
        (`reply` is its outcome). */
    method DoLogout(reply: Remote<()>) returns (call: Option<SignoutRequest>, navigateTo: string)
      modifies this
      ensures call == SignoutCall(old(storage))
      ensures State() == Logout(old(State()))
      ensures navigateTo == "/login"
    {
      call := None;
      if AccessTokenKey in storage && storage[AccessTokenKey] != "" {
        var refresh := if RefreshTokenKey in storage then Some(storage[RefreshTokenKey]) else None;
        call := Some(SignoutRequest(storage[AccessTokenKey], refresh));
      }
      storage := storage - {AccessTokenKey};
      storage := storage - {RefreshTokenKey};
      storage := storage - {UserKey};
      user := None;
      navigateTo := "/login";
    }
  }
}
