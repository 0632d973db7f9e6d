/** The route guard: children render only when an access token is stored, and
    otherwise the browser is sent to the landing page. */
module AuthGuard {
  import opened Common
  import opened AuthContext

  /** What the guard renders. */
  datatype Rendered<T> = Nothing | Children(content: T)

  /** The render: outside a browser (`hasWindow` false) the token counts as absent. */
  function GuardRender<T>(hasWindow: bool, st: Storage, children: T): (r: Rendered<T>)
    ensures r == Children(children) <==> hasWindow && HasAccessToken(st)
    ensures r.Nothing? <==> !(hasWindow && HasAccessToken(st))
  {
    if hasWindow && HasAccessToken(st) then Children(children) else Nothing
  }

  /** The effect after render (it only runs in a browser): the redirect, if any. */
  function GuardRedirect(st: Storage): (r: Option<string>)
    ensures r.Some? <==> !HasAccessToken(st)
    ensures r.Some? ==> r.value == "/"
  {
    if HasAccessToken(st) then None else Some("/")
  }

  /** Only `access_token` is consulted: two storages that agree on it get the same
      render and the same redirect, whatever else they hold. */
  lemma OnlyAccessTokenMatters<T>(hasWindow: bool, st1: Storage, st2: Storage, children: T)
    requires (AccessTokenKey in st1 <==> AccessTokenKey in st2)
    requires AccessTokenKey in st1 ==> st1[AccessTokenKey] == st2[AccessTokenKey]
    ensures GuardRender(hasWindow, st1, children) == GuardRender(hasWindow, st2, children)
    ensures GuardRedirect(st1) == GuardRedirect(st2)
  {
  }

  /** After `logout` a guarded page renders nothing and redirects, even if the
      remote signout failed. */
  lemma LogoutLocksGuard<T>(s: Session, hasWindow: bool, children: T)
    ensures GuardRender(hasWindow, Logout(s).storage, children).Nothing?
    ensures GuardRedirect(Logout(s).storage) == Some("/")
  {
  }

  /** After `login` with a non-empty token, a guarded page in the browser renders
      its children. */
  lemma LoginUnlocksGuard<T>(s: Session, data: LoginData, stringify: User -> string, children: T)
    requires data.accessToken != ""
    ensures GuardRender(true, Login(s, data, stringify).storage, children) == Children(children)
    ensures GuardRedirect(Login(s, data, stringify).storage).None?
  {
  }
}
