/**
 * The OpenID Connect authenticator: construction from a provider
 * configuration, the accessors of the authenticator interface, the chain of
 * checks that turns an OAuth2 token into the claims of a verified ID token,
 * and the delegation of claim mapping to the shared OAuth logic.
 *
 * Network calls and library code are parameters: `discover` is OIDC
 * discovery at the configured base URL, `verify` the ID-token verifier
 * (signature, issuer, audience, expiry), `decodeClaims` the JSON decoding of
 * the token payload, `getFieldMapping` and `parseOauthUserInfo` the shared
 * OAuth field mapping.
 */
module AuthOidc {
  import opened Wrappers

  /** A decoded JSON claim value. */
  datatype ClaimValue = Str(s: string) | Num(n: int) | Bool(b: bool) | StrList(items: seq<string>) | Null

  type Claims = map<string, ClaimValue>

  /** An error reported by a collaborator, carried in the wrapping error. */
  type Error = string

  datatype AuthError =
    | ProviderCreationFailed(cause: Error)   // "failed to create new oidc provider: ..."
    | MissingIdToken                         // "token does not contain id_token"
    | TokenValidationFailed(cause: Error)    // "failed to validate id_token: ..."
    | NonceMismatch                          // "nonce mismatch"
    | ClaimsParseFailed(cause: Error)        // "failed to parse extra claims: ..."

  datatype AuthenticatorType = AuthenticatorTypeOAuth | AuthenticatorTypeOidc

  /** The claim names the configuration maps onto user fields. */
  datatype OauthFields = OauthFields(
    UserIdentifier: string, Email: string, Firstname: string, Lastname: string, UserGroups: string)

  datatype OauthAdminMapping = OauthAdminMapping(AdminGroupRegex: string)

  /** The configuration of one OpenID Connect provider. */
  datatype OpenIDConnectProvider = OpenIDConnectProvider(
    ProviderName: string,
    BaseUrl: string,
    ClientID: string,
    ClientSecret: string,
    ExtraScopes: seq<string>,
    FieldMap: OauthFields,
    AdminMapping: OauthAdminMapping,
    RegistrationEnabled: bool,
    LogUserInfo: bool)

  datatype Endpoint = Endpoint(AuthURL: string, TokenURL: string)

  /** What discovery learned about the provider. */
  datatype Provider = Provider(Issuer: string, Endpoint: Endpoint)

  /** An ID-token verifier bound to a provider and to one audience. */
  datatype IDTokenVerifier = IDTokenVerifier(Provider: Provider, ClientID: string)

  datatype OAuth2Config = OAuth2Config(
    ClientID: string, ClientSecret: string, Endpoint: Endpoint, RedirectURL: string, Scopes: seq<string>)

  datatype OidcAuthenticator = OidcAuthenticator(
    name: string,
    provider: Provider,
    verifier: IDTokenVerifier,
    cfg: OAuth2Config,
    userInfoMapping: OauthFields,
    userAdminMapping: OauthAdminMapping,
    registrationEnabled: bool,
    userInfoLogging: bool)

  /** An OAuth2 token; `extra` holds the additional fields of the token response. */
  datatype Token = Token(AccessToken: string, RefreshToken: string, extra: map<string, ClaimValue>)

  /** A verified ID token; the claims are read from it by `decodeClaims`. */
  datatype IDToken = IDToken(Nonce: string, payload: string)

  datatype AuthenticatorUserInfo = AuthenticatorUserInfo(
    Identifier: string, Email: string, Firstname: string, Lastname: string, IsAdmin: bool)

  /** One trace-level log line: the claims received from the named provider. */
  datatype TraceEntry = UserInfoTrace(providerName: string, claims: Claims)

  /** The result of `GetUserInfo` together with what it wrote to the trace log. */
  datatype UserInfoOutcome = UserInfoOutcome(result: Result<Claims, AuthError>, trace: seq<TraceEntry>)

  const ScopeOpenID: string := "openid"

  const EmptyProvider := Provider("", Endpoint("", ""))

  /** The zero value `&OidcAuthenticator{}` that construction fills in. */
  const EmptyAuthenticator := OidcAuthenticator(
    "", EmptyProvider, IDTokenVerifier(EmptyProvider, ""), OAuth2Config("", "", Endpoint("", ""), "", []),
    OauthFields("", "", "", "", ""), OauthAdminMapping(""), false, false)

  function GetName(o: OidcAuthenticator): string {
    o.name
  }

  function RegistrationEnabled(o: OidcAuthenticator): bool {
    o.registrationEnabled
  }

  function GetType(o: OidcAuthenticator): AuthenticatorType {
    AuthenticatorTypeOidc
  }

  /**
   * `newOidcAuthenticator`: fills in the authenticator field by field;
   * a discovery failure aborts construction.
   */
  method NewOidcAuthenticator(
    callbackUrl: string,
    cfg: OpenIDConnectProvider,
    discover: string -> Result<Provider, Error>,
    getFieldMapping: OauthFields -> OauthFields)
    returns (p: Option<OidcAuthenticator>, err: Option<AuthError>)
    ensures p.None? <==> discover(cfg.BaseUrl).Failure?
    ensures p.None? ==> err == Some(ProviderCreationFailed(discover(cfg.BaseUrl).error))
    ensures p.Some? ==>
      var a := p.value;
      && err == None
      && GetName(a) == cfg.ProviderName
      && RegistrationEnabled(a) == cfg.RegistrationEnabled
      && GetType(a) == AuthenticatorTypeOidc
      && a.provider == discover(cfg.BaseUrl).value
      && a.verifier == IDTokenVerifier(a.provider, cfg.ClientID)
      && a.cfg.Scopes == [ScopeOpenID] + cfg.ExtraScopes
      && a.cfg.ClientID == cfg.ClientID && a.cfg.ClientSecret == cfg.ClientSecret
      && a.cfg.Endpoint == a.provider.Endpoint && a.cfg.RedirectURL == callbackUrl
      && a.userInfoMapping == getFieldMapping(cfg.FieldMap)
      && a.userAdminMapping == cfg.AdminMapping
      && a.userInfoLogging == cfg.LogUserInfo
  {
    var provider := EmptyAuthenticator;
    provider := provider.(name := cfg.ProviderName);
    var discovered := discover(cfg.BaseUrl);
    if discovered.Failure? {
      return None, Some(ProviderCreationFailed(discovered.error));
    }
    provider := provider.(provider := discovered.value);
    provider := provider.(verifier := IDTokenVerifier(provider.provider, cfg.ClientID));

    var scopes := [ScopeOpenID];
    scopes := scopes + cfg.ExtraScopes;
    provider := provider.(cfg := OAuth2Config(
      cfg.ClientID, cfg.ClientSecret, provider.provider.Endpoint, callbackUrl, scopes));
    provider := provider.(userInfoMapping := getFieldMapping(cfg.FieldMap));
    provider := provider.(userAdminMapping := cfg.AdminMapping);
    provider := provider.(registrationEnabled := cfg.RegistrationEnabled);
    provider := provider.(userInfoLogging := cfg.LogUserInfo);
    return Some(provider), None;
  }

  /** `token.Extra("id_token").(string)`: present only when the extra field is a string. */
  function RawIDToken(token: Token): (r: Option<string>)
    ensures r.Some? <==> "id_token" in token.extra && token.extra["id_token"].Str?
    ensures r.Some? ==> r.value == token.extra["id_token"].s
  {
    if "id_token" in token.extra && token.extra["id_token"].Str? then Some(token.extra["id_token"].s) else None
  }

  /**
   * `GetUserInfo`: the claims of the token's ID token, accepted only when the
   * token carries an `id_token` string, the verifier accepts it, its nonce
   * equals `nonce` exactly and its claims decode. The claims are traced
   * only when user-info logging is switched on.
   */
  function GetUserInfo(
    o: OidcAuthenticator,
    token: Token,
    nonce: string,
    verify: (IDTokenVerifier, string) -> Result<IDToken, Error>,
    decodeClaims: IDToken -> Result<Claims, Error>): (r: UserInfoOutcome)
    ensures r.result.Success? ==>
      && RawIDToken(token).Some?
      && verify(o.verifier, RawIDToken(token).value).Success?
      && verify(o.verifier, RawIDToken(token).value).value.Nonce == nonce
      && decodeClaims(verify(o.verifier, RawIDToken(token).value).value) == Success(r.result.value)
    ensures r.trace != [] ==> o.userInfoLogging && r.result.Success?
  {
    match RawIDToken(token)
    case None => UserInfoOutcome(Failure(MissingIdToken), [])
    case Some(rawIDToken) =>
      match verify(o.verifier, rawIDToken)
      case Failure(e) => UserInfoOutcome(Failure(TokenValidationFailed(e)), [])
      case Success(idToken) =>
        if idToken.Nonce != nonce then UserInfoOutcome(Failure(NonceMismatch), [])
        else
          match decodeClaims(idToken)
          case Failure(e) => UserInfoOutcome(Failure(ClaimsParseFailed(e)), [])
          case Success(tokenFields) =>
            var trace := if o.userInfoLogging then [UserInfoTrace(o.name, tokenFields)] else [];
            UserInfoOutcome(Success(tokenFields), trace)
  }

  /** Every guard passing is enough: the decoded claims are returned as they are. */
  lemma AllGuardsPassAccepts(
    o: OidcAuthenticator, token: Token, nonce: string,
    verify: (IDTokenVerifier, string) -> Result<IDToken, Error>,
    decodeClaims: IDToken -> Result<Claims, Error>)
    requires RawIDToken(token).Some?
    requires verify(o.verifier, RawIDToken(token).value).Success?
    requires verify(o.verifier, RawIDToken(token).value).value.Nonce == nonce
    requires decodeClaims(verify(o.verifier, RawIDToken(token).value).value).Success?
    ensures GetUserInfo(o, token, nonce, verify, decodeClaims).result
      == Success(decodeClaims(verify(o.verifier, RawIDToken(token).value).value).value)
  {
  }

  /** Without an `id_token` string the login fails before the verifier is consulted. */
  lemma MissingIdTokenRejected(
    o: OidcAuthenticator, token: Token, nonce: string, nonce': string,
    verify: (IDTokenVerifier, string) -> Result<IDToken, Error>,
    verify': (IDTokenVerifier, string) -> Result<IDToken, Error>,
    decodeClaims: IDToken -> Result<Claims, Error>,
    decodeClaims': IDToken -> Result<Claims, Error>)
    requires "id_token" !in token.extra || !token.extra["id_token"].Str?
    ensures GetUserInfo(o, token, nonce, verify, decodeClaims).result == Failure(MissingIdToken)
    ensures GetUserInfo(o, token, nonce, verify, decodeClaims)
      == GetUserInfo(o, token, nonce', verify', decodeClaims')
  {
  }

  /** A token the verifier rejects fails the login whatever the nonce and the claims. */
  lemma VerificationFailureRejected(
    o: OidcAuthenticator, token: Token, nonce: string, nonce': string,
    verify: (IDTokenVerifier, string) -> Result<IDToken, Error>,
    decodeClaims: IDToken -> Result<Claims, Error>,
    decodeClaims': IDToken -> Result<Claims, Error>)
    requires RawIDToken(token).Some?
    requires verify(o.verifier, RawIDToken(token).value).Failure?
    ensures GetUserInfo(o, token, nonce, verify, decodeClaims).result
      == Failure(TokenValidationFailed(verify(o.verifier, RawIDToken(token).value).error))
    ensures GetUserInfo(o, token, nonce, verify, decodeClaims)
      == GetUserInfo(o, token, nonce', verify, decodeClaims')
  {
  }

  /** A verified token with a different nonce is rejected before its claims are read. */
  lemma NonceMismatchRejected(
    o: OidcAuthenticator, token: Token, nonce: string,
    verify: (IDTokenVerifier, string) -> Result<IDToken, Error>,
    decodeClaims: IDToken -> Result<Claims, Error>,
    decodeClaims': IDToken -> Result<Claims, Error>)
    requires RawIDToken(token).Some?
    requires verify(o.verifier, RawIDToken(token).value).Success?
    requires verify(o.verifier, RawIDToken(token).value).value.Nonce != nonce
    ensures GetUserInfo(o, token, nonce, verify, decodeClaims).result == Failure(NonceMismatch)
    ensures GetUserInfo(o, token, nonce, verify, decodeClaims)
      == GetUserInfo(o, token, nonce, verify, decodeClaims')
  {
  }

  /**
   * The logging flag changes neither the claims nor the error; with logging
   * off nothing is traced, with logging on an accepted login traces exactly
   * its claims.
   */
  lemma LoggingDoesNotChangeOutcome(
    o: OidcAuthenticator, token: Token, nonce: string,
    verify: (IDTokenVerifier, string) -> Result<IDToken, Error>,
    decodeClaims: IDToken -> Result<Claims, Error>)
    ensures GetUserInfo(o.(userInfoLogging := true), token, nonce, verify, decodeClaims).result
      == GetUserInfo(o.(userInfoLogging := false), token, nonce, verify, decodeClaims).result
    ensures GetUserInfo(o.(userInfoLogging := false), token, nonce, verify, decodeClaims).trace == []
    ensures var r := GetUserInfo(o.(userInfoLogging := true), token, nonce, verify, decodeClaims);
      r.result.Success? ==> r.trace == [UserInfoTrace(o.name, r.result.value)]
  {
  }

  /** `ParseUserInfo`: the shared mapping, applied with the mappings stored at construction. */
  function ParseUserInfo(
    o: OidcAuthenticator,
    raw: Claims,
    parseOauthUserInfo: (OauthFields, OauthAdminMapping, Claims) -> Result<AuthenticatorUserInfo, Error>)
    : Result<AuthenticatorUserInfo, Error>
  {
    parseOauthUserInfo(o.userInfoMapping, o.userAdminMapping, raw)
  }

  /** The claims of the unit-test fixture for the shared OAuth mapping. */
  const FixtureClaims: Claims := map[
    "at_hash" := Str("REDACTED"),
    "aud" := Str("REDACTED"),
    "c_hash" := Str("REDACTED"),
    "email" := Str("test@mydomain.net"),
    "email_verified" := Bool(true),
    "exp" := Num(1737404259),
    "groups" := StrList(["abuse@mydomain.net", "postmaster@mydomain.net", "wgportal-admins@mydomain.net"]),
    "iat" := Num(1737317859),
    "iss" := Str("https://dex.mydomain.net"),
    "name" := Str("Test User"),
    "nonce" := Str("REDACTED"),
    "sub" := Str("REDACTED")]

  const FixtureFields := OauthFields("email", "email", "name", "family_name", "groups")

  const FixtureAdminMapping := OauthAdminMapping("^wgportal-admins@mydomain.net$")

  /** The outcome the unit test demands of the shared mapping on the fixture. */
  predicate FixtureOutcome(info: Result<AuthenticatorUserInfo, Error>) {
    && info.Success?
    && info.value.IsAdmin
    && info.value.Firstname == "Test User"
    && info.value.Lastname == ""
    && info.value.Email == "test@mydomain.net"
  }

  /**
   * An authenticator configured with the fixture's field and admin mapping
   * yields the fixture's user info, given that the shared mapping does so
   * for the same mappings.
   */
  method ParseFixtureThroughAuthenticator(
    callbackUrl: string,
    cfg: OpenIDConnectProvider,
    discover: string -> Result<Provider, Error>,
    getFieldMapping: OauthFields -> OauthFields,
    parseOauthUserInfo: (OauthFields, OauthAdminMapping, Claims) -> Result<AuthenticatorUserInfo, Error>)
    returns (info: Option<Result<AuthenticatorUserInfo, Error>>)
    requires cfg.FieldMap == FixtureFields && cfg.AdminMapping == FixtureAdminMapping
    requires FixtureOutcome(parseOauthUserInfo(getFieldMapping(FixtureFields), FixtureAdminMapping, FixtureClaims))
    ensures info.None? <==> discover(cfg.BaseUrl).Failure?
    ensures info.Some? ==> FixtureOutcome(info.value)
  {
    var authenticator, _ := NewOidcAuthenticator(callbackUrl, cfg, discover, getFieldMapping);
    if authenticator.None? {
      return None;
    }
    info := Some(ParseUserInfo(authenticator.value, FixtureClaims, parseOauthUserInfo));
  }
}
