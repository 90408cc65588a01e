/** Token issuance and verification of utils/tokens.js. The JSON Web Token
    library itself is opaque: signing and verifying are function parameters,
    and the environment is an explicit record in which an unset or empty
    variable is an error, never a default. */
module Tokens {
  import opened Values

  /** What the signing functions receive: nothing, a string id, an object (a
      user document or a decoded payload) with the fields they read, or some
      other primitive (a number or a boolean). */
  datatype UserInput =
    | Missing
    | Text(s: string)
    | Record(sub: IdVal, underscoreId: IdVal, id: IdVal, email: Option<string>, username: Option<string>)
    | Primitive

  /** The configuration read from the process environment. */
  datatype Env = Env(accessSecret: Option<string>, refreshSecret: Option<string>,
                     accessExpiresIn: Option<string>, refreshExpiresIn: Option<string>)

  /** A token payload: the claims put in when signing, and what verifying
      gives back (a payload need not carry any of them). */
  datatype Claims = Claims(sub: Option<string>, email: Option<string>, username: Option<string>)

  /** The errors the signing and verifying functions throw. */
  datatype TokenError =
    | EnvNotSet(name: string)   // `${name} environment variable is not set`
    | NoSubject(kind: string)   // `Cannot sign ${kind} token: missing user id (sub).`
    | Rejected                  // whatever the JWT library throws on a bad token

  /** `jwt.sign(payload, secret, { expiresIn })`. */
  type Signer = (Claims, string, string) -> string

  /** `jwt.verify(token, secret)`: the decoded payload, or `None` where it throws. */
  type Verifier = (string, string) -> Option<Claims>

  const AccessSecretVar := "JWT_ACCESS_SECRET"
  const RefreshSecretVar := "JWT_REFRESH_SECRET"
  const AccessExpiryDefault := "15m"
  const RefreshExpiryDefault := "30d"

  /** `x.toString()` of a truthy id value. */
  function TextOf(v: IdVal): string
    requires IsTruthy(v)
  {
    ToStringOf(v).value
  }

  /** `_getUserId`: a non-blank string is its own id (untrimmed); an object
      gives the first truthy of `sub`, `_id`, `id` as a string; anything else
      has no id. */
  function GetUserId(input: UserInput): (r: Option<string>)
    ensures input.Text? ==> (r.Some? <==> !IsBlank(input.s)) && (r.Some? ==> r.value == input.s)
    ensures input.Missing? || input.Primitive? ==> r.None?
    ensures input.Record? ==>
      (r.Some? <==> IsTruthy(input.sub) || IsTruthy(input.underscoreId) || IsTruthy(input.id))
    ensures r.Some? && input.Record? ==>
      || (IsTruthy(input.sub) && r.value == TextOf(input.sub))
      || (!IsTruthy(input.sub) && IsTruthy(input.underscoreId) && r.value == TextOf(input.underscoreId))
      || (!IsTruthy(input.sub) && !IsTruthy(input.underscoreId) && r.value == TextOf(input.id))
  {
    match input
    case Missing => None
    case Text(s) => if s != "" && !IsBlank(s) then Some(s) else None
    case Record(sub, underscoreId, id, _, _) =>
      if IsTruthy(sub) then Some(TextOf(sub))
      else if IsTruthy(underscoreId) then Some(TextOf(underscoreId))
      else if IsTruthy(id) then Some(TextOf(id))
      else None
    case Primitive => None
  }

  /** `_requireEnv`: the variable's value, or an error when unset or empty. */
  function RequireEnv(name: string, value: Option<string>): (r: Result<string, TokenError>)
    ensures r.Ok? <==> Present(value)
    ensures r.Ok? ==> r.value == value.value
    ensures r.Err? ==> r.error == EnvNotSet(name)
  {
    if Present(value) then Ok(value.value) else Err(EnvNotSet(name))
  }

  /** `process.env.X || fallback`. */
  function ExpiresIn(configured: Option<string>, fallback: string): (r: string)
    ensures Present(configured) ==> r == configured.value
    ensures !Present(configured) ==> r == fallback
  {
    if Present(configured) then configured.value else fallback
  }

  /** The access payload: `{sub}`, plus `email` and `username` when the input
      is an object and carries them (truthy). */
  function AccessClaims(input: UserInput, sub: string): (c: Claims)
    ensures c.sub == Some(sub)
    ensures c.email.Some? <==> input.Record? && Present(input.email)
    ensures c.username.Some? <==> input.Record? && Present(input.username)
    ensures c.email.Some? ==> c.email == input.email
    ensures c.username.Some? ==> c.username == input.username
  {
    match input
    case Record(_, _, _, email, username) =>
      Claims(Some(sub), if Present(email) then email else None, if Present(username) then username else None)
    case _ => Claims(Some(sub), None, None)
  }

  /** `signAccessToken`: the secret is required first, then a subject id. */
  function SignAccessToken(input: UserInput, env: Env, sign: Signer): (r: Result<string, TokenError>)
    ensures !Present(env.accessSecret) ==> r == Err(EnvNotSet(AccessSecretVar))
    ensures Present(env.accessSecret) && !Present(GetUserId(input)) ==> r == Err(NoSubject("access"))
    ensures r.Ok? <==> Present(env.accessSecret) && Present(GetUserId(input))
    ensures r.Ok? ==> r.value == sign(AccessClaims(input, GetUserId(input).value), env.accessSecret.value,
                                      ExpiresIn(env.accessExpiresIn, AccessExpiryDefault))
  {
    match RequireEnv(AccessSecretVar, env.accessSecret)
    case Err(e) => Err(e)
    case Ok(secret) =>
      var expiresIn := ExpiresIn(env.accessExpiresIn, AccessExpiryDefault);
      var sub := GetUserId(input);
      if !Present(sub) then Err(NoSubject("access"))
      else Ok(sign(AccessClaims(input, sub.value), secret, expiresIn))
  }

  /** `signRefreshToken`: as for access tokens, with its own secret and a
      payload that is exactly `{sub}`. */
  function SignRefreshToken(input: UserInput, env: Env, sign: Signer): (r: Result<string, TokenError>)
    ensures !Present(env.refreshSecret) ==> r == Err(EnvNotSet(RefreshSecretVar))
    ensures Present(env.refreshSecret) && !Present(GetUserId(input)) ==> r == Err(NoSubject("refresh"))
    ensures r.Ok? <==> Present(env.refreshSecret) && Present(GetUserId(input))
    ensures r.Ok? ==> r.value == sign(Claims(GetUserId(input), None, None), env.refreshSecret.value,
                                      ExpiresIn(env.refreshExpiresIn, RefreshExpiryDefault))
  {
    match RequireEnv(RefreshSecretVar, env.refreshSecret)
    case Err(e) => Err(e)
    case Ok(secret) =>
      var expiresIn := ExpiresIn(env.refreshExpiresIn, RefreshExpiryDefault);
      var sub := GetUserId(input);
      if !Present(sub) then Err(NoSubject("refresh"))
      else Ok(sign(Claims(sub, None, None), secret, expiresIn))
  }

  /** Verifying with the secret named `name`. */
  function VerifyWith(token: string, name: string, secret: Option<string>, verify: Verifier): (r: Result<Claims, TokenError>)
    ensures !Present(secret) ==> r == Err(EnvNotSet(name))
    ensures Present(secret) ==> r == (if verify(token, secret.value).Some? then Ok(verify(token, secret.value).value) else Err(Rejected))
  {
    match RequireEnv(name, secret)
    case Err(e) => Err(e)
    case Ok(s) =>
      match verify(token, s)
      case None => Err(Rejected)
      case Some(claims) => Ok(claims)
  }

  /** `verifyAccessToken`: only the access secret is consulted. */
  function VerifyAccessToken(token: string, env: Env, verify: Verifier): (r: Result<Claims, TokenError>)
    ensures !Present(env.accessSecret) ==> r == Err(EnvNotSet(AccessSecretVar))
    ensures Present(env.accessSecret) ==> (r.Ok? <==> verify(token, env.accessSecret.value).Some?)
    ensures Present(env.accessSecret) && r.Ok? ==> r.value == verify(token, env.accessSecret.value).value
    ensures r.Err? ==> r.error in {EnvNotSet(AccessSecretVar), Rejected}
  {
    VerifyWith(token, AccessSecretVar, env.accessSecret, verify)
  }

  /** `verifyRefreshToken`: only the refresh secret is consulted. */
  function VerifyRefreshToken(token: string, env: Env, verify: Verifier): (r: Result<Claims, TokenError>)
    ensures !Present(env.refreshSecret) ==> r == Err(EnvNotSet(RefreshSecretVar))
    ensures Present(env.refreshSecret) ==> (r.Ok? <==> verify(token, env.refreshSecret.value).Some?)
    ensures Present(env.refreshSecret) && r.Ok? ==> r.value == verify(token, env.refreshSecret.value).value
    ensures r.Err? ==> r.error in {EnvNotSet(RefreshSecretVar), Rejected}
  {
    VerifyWith(token, RefreshSecretVar, env.refreshSecret, verify)
  }

  /** A refresh token carries the same subject as an access token for the
      same input, and never its email or username. */
  lemma RefreshPayloadIsSubjectOnly(input: UserInput, env: Env, sign: Signer)
    requires SignRefreshToken(input, env, sign).Ok?
    ensures SignRefreshToken(input, env, sign).value ==
      sign(Claims(AccessClaims(input, GetUserId(input).value).sub, None, None), env.refreshSecret.value,
           ExpiresIn(env.refreshExpiresIn, RefreshExpiryDefault))
  {
  }

  /** An unset access secret fails access verification whatever the refresh
      secret, and the other way round. */
  lemma VerifiersUseOwnSecrets(token: string, env: Env, verify: Verifier)
    ensures !Present(env.accessSecret) ==> VerifyAccessToken(token, env, verify) == Err(EnvNotSet(AccessSecretVar))
    ensures !Present(env.refreshSecret) ==> VerifyRefreshToken(token, env, verify) == Err(EnvNotSet(RefreshSecretVar))
  {
  }

  /** With a verifier that accepts what the signer produced under the same
      secret, verifying a freshly signed access token gives back its claims:
      the input's id as subject, and its email and username when present. */
  lemma AccessRoundTrip(input: UserInput, env: Env, sign: Signer, verify: Verifier)
    requires SignAccessToken(input, env, sign).Ok?
    requires verify(SignAccessToken(input, env, sign).value, env.accessSecret.value) ==
             Some(AccessClaims(input, GetUserId(input).value))
    ensures VerifyAccessToken(SignAccessToken(input, env, sign).value, env, verify) ==
            Ok(Claims(GetUserId(input), if input.Record? && Present(input.email) then input.email else None,
                      if input.Record? && Present(input.username) then input.username else None))
  {
  }
}
