/** The session store: one access token held by the provider component, and
    the context value that hands its getters and setters to every component
    below it. */
module AccessTokenContext {
  import opened Js

  /** The provider's state. `token` is the string held in its state hook;
      the empty string means that nobody is signed in. */
  class AccessTokenProvider {
    var token: string

    /** A provider is mounted unauthenticated. */
    constructor ()
      ensures token == "" && !HasToken()
    {
      token := "";
    }

    /** `getToken()`: the stored token, as the string it is. */
    function GetToken(): (v: JsValue)
      reads this
      ensures v.JsString? && v.s == token
      ensures Truthy(v) <==> HasToken()
    {
      JsString(token)
    }

    /** `hasToken()`, computed as `!!token`: true exactly when a non-empty
        token is stored. */
    predicate HasToken()
      reads this
      ensures HasToken() <==> token != ""
    {
      Truthy(JsString(token))
    }

    /** `login(t)`: stores `t` as it is, without looking at it. */
    method Login(t: string)
      modifies this
      ensures token == t
      ensures HasToken() <==> t != ""
    {
      token := t;
    }

    /** `logout()`: resets the token to the empty string. */
    method Logout()
      modifies this
      ensures token == "" && !HasToken()
    {
      token := "";
    }
  }

  /** What `useContext(AccessTokenContext)` yields: the default value when
      no provider encloses the component, else the provider's functions. */
  datatype TokenContext = DefaultContext | Provided(provider: AccessTokenProvider) {

    ghost function Footprint(): set<object> {
      if Provided? then {provider} else {}
    }

    /** `getToken()`. The default context answers `null`, which is falsy. */
    function GetToken(): (v: JsValue)
      reads Footprint()
      ensures DefaultContext? ==> v == JsNull
      ensures Provided? ==> v == JsString(provider.token)
      ensures Truthy(v) <==> Provided? && provider.token != ""
    {
      if Provided? then provider.GetToken() else JsNull
    }

    /** `hasToken()`. The default context answers `null`; a provider answers
        a boolean. Either way it is truthy exactly when `getToken()` is. */
    function HasToken(): (v: JsValue)
      reads Footprint()
      ensures DefaultContext? ==> v == JsNull
      ensures Truthy(v) <==> Truthy(GetToken())
    {
      if Provided? then JsBool(provider.HasToken()) else JsNull
    }

    /** `login(t)`. The default context's `login` does nothing. */
    method Login(t: string)
      modifies Footprint()
      ensures Provided? ==> provider.token == t
      ensures Truthy(GetToken()) <==> Provided? && t != ""
    {
      if Provided? {
        provider.Login(t);
      }
    }

    /** `logout()`. The default context's `logout` does nothing. */
    method Logout()
      modifies Footprint()
      ensures Provided? ==> provider.token == ""
      ensures !Truthy(GetToken()) && !Truthy(HasToken())
    {
      if Provided? {
        provider.Logout();
      }
    }
  }

  /** `login("")` is not rejected, and leaves a provider in the same state as
      `logout()`. */
  method LoginEmptyIsLogout(a: AccessTokenProvider, b: AccessTokenProvider)
    requires a != b
    modifies a, b
    ensures a.token == b.token == ""
    ensures a.GetToken() == b.GetToken() && a.HasToken() == b.HasToken()
  {
    a.Login("");
    b.Logout();
  }

  /** A second `logout()` changes nothing. */
  method LogoutIdempotent(p: AccessTokenProvider)
    modifies p
    ensures p.token == "" && !p.HasToken()
  {
    p.Logout();
    ghost var once := p.token;
    p.Logout();
    assert p.token == once;
  }

  /** After `login(t)`, `getToken()` returns exactly `t`, and keeps doing so
      however often it is read. */
  method LoginThenGetToken(p: AccessTokenProvider, t: string) returns (first: JsValue, second: JsValue)
    modifies p
    ensures first == second == JsString(t)
  {
    p.Login(t);
    first := p.GetToken();
    second := p.GetToken();
  }
}
