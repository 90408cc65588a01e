/** The authentication middleware of middleware/auth.js: the shape check on
    the `Authorization` header, the token taken from it, and the mapping of a
    verified payload to `req.user`. Attaching `req.user` and answering with an
    HTTP status become the returned outcome. */
module Auth {
  import opened Values
  import opened Tokens

  /** `req.user` as the middleware sets it. */
  datatype ReqUser = ReqUser(id: Option<string>, email: Option<string>, username: Option<string>)

  datatype AuthOutcome = Unauthorized(message: string) | Authenticated(user: ReqUser)

  const AuthRequired := "Authorization required"
  const InvalidToken := "Invalid or expired token"
  const Scheme := "Bearer "

  predicate StartsWith(s: string, prefix: string)
  {
    |prefix| <= |s| && s[..|prefix|] == prefix
  }

  /** `s.split(sep)`: the pieces between separators, including empty ones. */
  function Split(s: string, sep: char): (r: seq<string>)
    ensures |r| >= 1
    ensures forall i :: 0 <= i < |r| ==> sep !in r[i]
  {
    if s == [] then [""]
    else if s[0] == sep then [""] + Split(s[1..], sep)
    else
      var rest := Split(s[1..], sep);
      [[s[0]] + rest[0]] + rest[1..]
  }

  /** Joining pieces with a separator; the inverse of `Split`. */
  function Join(pieces: seq<string>, sep: char): string
    requires |pieces| >= 1
  {
    if |pieces| == 1 then pieces[0] else pieces[0] + [sep] + Join(pieces[1..], sep)
  }

  /** Splitting loses nothing: joining the pieces gives the string back. */
  lemma {:induction false} SplitJoin(s: string, sep: char)
    ensures Join(Split(s, sep), sep) == s
  {
    if s != [] {
      SplitJoin(s[1..], sep);
      var rest := Split(s[1..], sep);
      if s[0] != sep && |rest| > 1 {
        assert ([[s[0]] + rest[0]] + rest[1..])[1..] == rest[1..];
      }
    }
  }

  /** A word without separators, then a separator, splits into that word
      followed by the pieces of the rest. */
  lemma {:induction false} SplitAfterWord(w: string, sep: char, rest: string)
    requires sep !in w
    ensures Split(w + [sep] + rest, sep) == [w] + Split(rest, sep)
  {
    if w == [] {
      assert [sep] + rest == w + [sep] + rest;
      assert ([sep] + rest)[1..] == rest;
    } else {
      SplitAfterWord(w[1..], sep, rest);
      assert (w + [sep] + rest)[1..] == w[1..] + [sep] + rest;
      assert [w[0]] + w[1..] == w;
    }
  }

  /** The first piece of a split is the longest separator-free prefix. */
  lemma {:induction false} SplitFirst(s: string, sep: char)
    ensures var w := Split(s, sep)[0];
      |w| <= |s| && s[..|w|] == w && (|w| == |s| || s[|w|] == sep)
  {
    if s != [] && s[0] != sep {
      SplitFirst(s[1..], sep);
    }
  }

  /** `auth.split(' ')[1]` for a header that starts with `Bearer `: the text
      after the scheme up to the next space or the end. Extra segments are
      ignored and a second space gives the empty token. */
  function TokenOf(auth: string): (token: string)
    requires StartsWith(auth, Scheme)
    ensures ' ' !in token
    ensures var rest := auth[|Scheme|..];
      |token| <= |rest| && rest[..|token|] == token && (|token| == |rest| || rest[|token|] == ' ')
  {
    var rest := auth[|Scheme|..];
    SplitAfterWord("Bearer", ' ', rest);
    assert auth == "Bearer" + [' '] + rest;
    SplitFirst(rest, ' ');
    Split(auth, ' ')[1]
  }

  /** The middleware: a header that is missing or does not start with exactly
      `Bearer ` is refused before any verification; a token the verifier
      rejects (or an unset access secret) gives the invalid-token answer;
      otherwise `req.user` is the payload's `sub`, `email` and `username`,
      unchecked. */
  function Authenticate(header: Option<string>, env: Env, verify: Verifier): (r: AuthOutcome)
    ensures r == Unauthorized(AuthRequired) <==> !Present(header) || !StartsWith(header.value, Scheme)
    ensures r == Unauthorized(InvalidToken) <==>
      Present(header) && StartsWith(header.value, Scheme) && VerifyAccessToken(TokenOf(header.value), env, verify).Err?
    ensures r.Authenticated? <==>
      Present(header) && StartsWith(header.value, Scheme) && VerifyAccessToken(TokenOf(header.value), env, verify).Ok?
    ensures r.Authenticated? ==>
      var claims := VerifyAccessToken(TokenOf(header.value), env, verify).value;
      r.user == ReqUser(claims.sub, claims.email, claims.username)
  {
    if !Present(header) || !StartsWith(header.value, Scheme) then Unauthorized(AuthRequired)
    else
      match VerifyAccessToken(TokenOf(header.value), env, verify)
      case Err(_) => Unauthorized(InvalidToken)
      case Ok(claims) => Authenticated(ReqUser(claims.sub, claims.email, claims.username))
  }

  /** A malformed header is answered without consulting the verifier. */
  lemma MalformedHeaderNotVerified(header: Option<string>, env: Env, v1: Verifier, v2: Verifier)
    requires !Present(header) || !StartsWith(header.value, Scheme)
    ensures Authenticate(header, env, v1) == Authenticate(header, env, v2) == Unauthorized(AuthRequired)
  {
  }

  /** The headers `""`, `"Token abc"` and `"Bearer"` are refused as missing
      authorization; `"bearer x"` too, the scheme being case-sensitive. */
  lemma RefusedHeaders(env: Env, verify: Verifier)
    ensures Authenticate(Some(""), env, verify) == Unauthorized(AuthRequired)
    ensures Authenticate(Some("Token abc"), env, verify) == Unauthorized(AuthRequired)
    ensures Authenticate(Some("Bearer"), env, verify) == Unauthorized(AuthRequired)
    ensures Authenticate(Some("bearer x"), env, verify) == Unauthorized(AuthRequired)
  {
    assert !StartsWith("Token abc", Scheme) by { assert "Token abc"[0] != Scheme[0]; }
    assert !StartsWith("bearer x", Scheme) by { assert "bearer x"[0] != Scheme[0]; }
  }

  /** `"Bearer a b"` is not refused: it reaches verification with token `"a"`;
      `"Bearer  a"` reaches it with the empty token. */
  lemma ExtraSegmentsReachVerification()
    ensures StartsWith("Bearer a b", Scheme) && TokenOf("Bearer a b") == "a"
    ensures StartsWith("Bearer  a", Scheme) && TokenOf("Bearer  a") == ""
  {
    assert "Bearer a b"[|Scheme|..] == "a b";
    assert "Bearer  a"[|Scheme|..] == " a";
  }

  /** Signing an access token and presenting it as `Bearer <token>` signs the
      caller in as the input's id, with its email and username when present,
      provided the verifier accepts what the signer produced and the token
      has no space in it. */
  lemma SignThenAuthenticate(input: UserInput, env: Env, sign: Signer, verify: Verifier)
    requires SignAccessToken(input, env, sign).Ok?
    requires ' ' !in SignAccessToken(input, env, sign).value
    requires verify(SignAccessToken(input, env, sign).value, env.accessSecret.value) ==
             Some(AccessClaims(input, GetUserId(input).value))
    ensures Authenticate(Some(Scheme + SignAccessToken(input, env, sign).value), env, verify) ==
            Authenticated(ReqUser(GetUserId(input),
                                  if input.Record? && Present(input.email) then input.email else None,
                                  if input.Record? && Present(input.username) then input.username else None))
  {
    var token := SignAccessToken(input, env, sign).value;
    var header := Scheme + token;
    assert header[..|Scheme|] == Scheme;
    assert header[|Scheme|..] == token;
    var t := TokenOf(header);
    assert t == token[..|t|] == token;
    AccessRoundTrip(input, env, sign, verify);
  }
}
