// The Google sign-in integration: whether auth is enabled, the gate that
// protected routes pass through, the session user's token fields, and the
// once-per-host registration of sign-in strategies.
module Auth {
  import opened Wrappers

  /** JavaScript's WhiteSpace and LineTerminator characters, the ones `trim` removes. */
  predicate IsJsWhitespace(c: char)
  {
    var n := c as int;
    (0x09 <= n <= 0x0D) || n == 0x20 || n == 0xA0 || n == 0x1680 || (0x2000 <= n <= 0x200A)
    || n == 0x2028 || n == 0x2029 || n == 0x202F || n == 0x205F || n == 0x3000 || n == 0xFEFF
  }

  function TrimStart(s: string): (r: string)
    ensures |r| <= |s| && r == s[|s| - |r|..]
    ensures r == [] || !IsJsWhitespace(r[0])
    ensures forall i :: 0 <= i < |s| - |r| ==> IsJsWhitespace(s[i])
  {
    if s != [] && IsJsWhitespace(s[0]) then TrimStart(s[1..]) else s
  }

  function TrimEnd(s: string): (r: string)
    ensures |r| <= |s| && r == s[..|r|]
    ensures r == [] || !IsJsWhitespace(r[|r| - 1])
    ensures forall i :: |r| <= i < |s| ==> IsJsWhitespace(s[i])
  {
    if s != [] && IsJsWhitespace(s[|s| - 1]) then TrimEnd(s[..|s| - 1]) else s
  }

  /** `String.prototype.trim`: the input with its leading and trailing
      whitespace cut, the middle kept in place. */
  function Trim(s: string): (r: string)
    ensures |r| <= |s|
    ensures r == [] || (!IsJsWhitespace(r[0]) && !IsJsWhitespace(r[|r| - 1]))
    ensures var a := |s| - |TrimStart(s)|;
      && a + |r| <= |s| && r == s[a..a + |r|]
      && (forall i :: 0 <= i < a ==> IsJsWhitespace(s[i]))
      && (forall i :: a + |r| <= i < |s| ==> IsJsWhitespace(s[i]))
  {
    TrimKeepsMiddle(s);
    TrimEnd(TrimStart(s))
  }

  lemma TrimKeepsMiddle(s: string)
    ensures var a := |s| - |TrimStart(s)|; var r := TrimEnd(TrimStart(s));
      && a + |r| <= |s| && r == s[a..a + |r|]
      && (forall i :: a + |r| <= i < |s| ==> IsJsWhitespace(s[i]))
  {
    var t := TrimStart(s);
    var a := |s| - |t|;
    var r := TrimEnd(t);
    assert t == s[a..];
    assert r == t[..|r|];
    forall i | a + |r| <= i < |s|
      ensures IsJsWhitespace(s[i])
    {
      assert s[i] == t[i - a];
    }
  }

  /** A string trims to nothing exactly when every character of it is whitespace. */
  lemma TrimEmptyIff(s: string)
    ensures Trim(s) == [] <==> forall i :: 0 <= i < |s| ==> IsJsWhitespace(s[i])
  {
  }

  /** `isAuthEnabled`, given the value of AUTH_CLIENT_ID (None when unset). */
  function IsAuthEnabled(clientId: Option<string>): (b: bool)
    ensures b <==> clientId.Some? && exists i :: 0 <= i < |clientId.value| && !IsJsWhitespace(clientId.value[i])
  {
    if clientId.None? || clientId.value == "" then false
    else
      TrimEmptyIff(clientId.value);
      Trim(clientId.value) != ""
  }

  datatype AuthStatus = AuthStatus(authEnabled: bool, provider: Option<string>)

  /** `getAuthStatus`. */
  function GetAuthStatus(clientId: Option<string>): (s: AuthStatus)
    ensures s.authEnabled == IsAuthEnabled(clientId)
    ensures s.provider == Some("google") <==> s.authEnabled
    ensures s.provider.None? <==> !s.authEnabled
  {
    var enabled := IsAuthEnabled(clientId);
    AuthStatus(enabled, if enabled then Some("google") else None)
  }

  /** The ID-token claims the session keeps; `exp` is in seconds. */
  datatype Claims = Claims(sub: Option<string>, exp: Option<int>)

  /** A token endpoint response: its claims (None when it carries no ID token) and tokens. */
  datatype Tokens = Tokens(claims: Option<Claims>, accessToken: Option<string>, refreshToken: Option<string>)

  /** The expiry a session records for a set of claims. */
  function ExpiryOf(claims: Option<Claims>): Option<int>
  {
    if claims.Some? then claims.value.exp else None
  }

  /** The user object kept in the session. */
  class SessionUser {
    var claims: Option<Claims>
    var accessToken: Option<string>
    var refreshToken: Option<string>
    var expiresAt: Option<int>

    /** The empty object the sign-in callback starts from. */
    constructor()
      ensures claims.None? && accessToken.None? && refreshToken.None? && expiresAt.None?
    {
      claims := None;
      accessToken := None;
      refreshToken := None;
      expiresAt := None;
    }
  }

  /** `updateUserSession`: every field is overwritten from the response, so a
      refresh response without a refresh token leaves the session without one. */
  method UpdateUserSession(user: SessionUser, tokens: Tokens)
    modifies user
    ensures user.claims == tokens.claims
    ensures user.accessToken == tokens.accessToken
    ensures user.refreshToken == tokens.refreshToken
    ensures user.expiresAt == ExpiryOf(tokens.claims)
  {
    user.claims := tokens.claims;
    user.accessToken := tokens.accessToken;
    user.refreshToken := tokens.refreshToken;
    user.expiresAt := ExpiryOf(user.claims);
  }

  /** JavaScript truthiness of the stored expiry and refresh token. */
  predicate HasExpiry(expiresAt: Option<int>) { expiresAt.Some? && expiresAt.value != 0 }
  predicate HasRefreshToken(token: Option<string>) { token.Some? && token.value != "" }

  /** What fetching the memoised OIDC client yields. */
  datatype OidcClient = ClientReady | NoClient | ClientThrows
  /** What the refresh-token grant yields. */
  datatype RefreshOutcome = Refreshed(tokens: Tokens) | RefreshThrows

  datatype Decision = Pass | Unauthorized | RefreshThenPass(tokens: Tokens)

  /** The decision ladder of `isAuthenticated`; `nowMs` is `Date.now()`. */
  function AuthGate(enabled: bool, sessionAuthenticated: bool, expiresAt: Option<int>, refreshToken: Option<string>,
                    nowMs: int, oidc: OidcClient, refresh: RefreshOutcome): (d: Decision)
    ensures d == Pass <==>
      !enabled || (sessionAuthenticated && HasExpiry(expiresAt) &&
                   (nowMs / 1000 <= expiresAt.value || (HasRefreshToken(refreshToken) && oidc == NoClient)))
    ensures d.RefreshThenPass? <==>
      enabled && sessionAuthenticated && HasExpiry(expiresAt) && nowMs / 1000 > expiresAt.value &&
      HasRefreshToken(refreshToken) && oidc == ClientReady && refresh.Refreshed?
    ensures d.RefreshThenPass? ==> d.tokens == refresh.tokens
    ensures enabled && !(sessionAuthenticated && HasExpiry(expiresAt)) ==> d == Unauthorized
  {
    if !enabled then Pass
    else if !sessionAuthenticated || !HasExpiry(expiresAt) then Unauthorized
    else if nowMs / 1000 <= expiresAt.value then Pass
    else if !HasRefreshToken(refreshToken) then Unauthorized
    else match oidc
      case ClientThrows => Unauthorized
      case NoClient => Pass
      case ClientReady =>
        match refresh
        case RefreshThrows => Unauthorized
        case Refreshed(tokens) => RefreshThenPass(tokens)
  }

  /** The expiry boundary is inclusive at whole seconds: a request anywhere in
      the second `exp` passes, and one from the next second on needs a refresh. */
  lemma {:induction false} ExpiryBoundary(exp: int, refreshToken: Option<string>, nowMs: int, oidc: OidcClient, refresh: RefreshOutcome)
    requires exp != 0
    ensures nowMs < (exp + 1) * 1000 ==> AuthGate(true, true, Some(exp), refreshToken, nowMs, oidc, refresh) == Pass
    ensures nowMs >= (exp + 1) * 1000 && !HasRefreshToken(refreshToken) ==>
      AuthGate(true, true, Some(exp), refreshToken, nowMs, oidc, refresh) == Unauthorized
  {
  }

  datatype Outcome = CallNext | Respond(status: int, message: string)

  /** `isAuthenticated` on a request whose session user is `user` (null when there is none). */
  method IsAuthenticated(enabled: bool, sessionAuthenticated: bool, user: SessionUser?, nowMs: int,
                         oidc: OidcClient, refresh: RefreshOutcome)
    returns (out: Outcome)
    modifies user
    ensures var d := AuthGate(enabled, sessionAuthenticated,
                              if user == null then None else old(user.expiresAt),
                              if user == null then None else old(user.refreshToken), nowMs, oidc, refresh);
      && (out == CallNext <==> d != Unauthorized)
      && (out != CallNext ==> out == Respond(401, "Unauthorized"))
      && (d.RefreshThenPass? ==>
            (user != null && user.claims == d.tokens.claims &&
             user.accessToken == d.tokens.accessToken && user.refreshToken == d.tokens.refreshToken &&
             user.expiresAt == ExpiryOf(d.tokens.claims)))
      && (!d.RefreshThenPass? && user != null ==>
            (user.claims == old(user.claims) &&
             user.accessToken == old(user.accessToken) && user.refreshToken == old(user.refreshToken) &&
             user.expiresAt == old(user.expiresAt)))
  {
    var expiresAt := if user == null then None else user.expiresAt;
    var refreshToken := if user == null then None else user.refreshToken;
    var d := AuthGate(enabled, sessionAuthenticated, expiresAt, refreshToken, nowMs, oidc, refresh);
    match d
    case Pass =>
      out := CallNext;
    case Unauthorized =>
      out := Respond(401, "Unauthorized");
    case RefreshThenPass(tokens) =>
      UpdateUserSession(user, tokens);
      out := CallNext;
  }

  const Scope := "openid email profile offline_access"

  datatype Strategy = Strategy(name: string, callbackUrl: string, scope: string)

  function StrategyName(domain: string): string { "auth:" + domain }

  /** The strategies registered with passport during one `setupAuth`. */
  class StrategyRegistry {
    /** `registeredStrategies`. */
    var registered: set<string>
    /** The strategies handed to `passport.use`, in order. */
    var used: seq<Strategy>

    ghost predicate Valid()
      reads this
    {
      && registered == (set i | 0 <= i < |used| :: used[i].name)
      && forall i, j :: 0 <= i < j < |used| ==> used[i].name != used[j].name
    }

    constructor()
      ensures Valid() && registered == {} && used == []
    {
      registered := {};
      used := [];
    }

    /** `ensureStrategy`: registers the host's strategy the first time it is asked for. */
    method EnsureStrategy(domain: string)
      requires Valid()
      modifies this
      ensures Valid()
      ensures StrategyName(domain) in registered
      ensures StrategyName(domain) in old(registered) ==> registered == old(registered) && used == old(used)
      ensures StrategyName(domain) !in old(registered) ==>
        && registered == old(registered) + {StrategyName(domain)}
        && used == old(used) + [Strategy(StrategyName(domain), "https://" + domain + "/api/callback", Scope)]
    {
      var name := StrategyName(domain);
      if name !in registered {
        var strategy := Strategy(name, "https://" + domain + "/api/callback", Scope);
        ghost var before := used;
        used := used + [strategy];
        registered := registered + {name};
        assert used[|used| - 1].name == name;
        assert forall i :: 0 <= i < |before| ==> used[i] == before[i];
        assert registered == (set i | 0 <= i < |used| :: used[i].name) by {
          forall x | x in registered
            ensures exists i :: 0 <= i < |used| && used[i].name == x
          {
            if x != name {
              var i :| 0 <= i < |before| && before[i].name == x;
              assert used[i].name == x;
            }
          }
        }
      }
    }
  }
}
