/**
 * Issuing and validating the service's signed credentials (JWTs). The cryptography and the
 * compact encoding are kept abstract in a Crypto value: `sign` is SignedString (header,
 * claims and HMAC, None when signing fails), `parse` splits and decodes a compact token
 * (None when it is malformed), and `mac` computes the signature of a signing string.
 */
module Jwt {
  import opened Wrappers
  import opened AppErrors
  import opened Config

  const Issuer := "student-portal-api"

  /** The registered claims this service reads or writes; exp and nbf are optional in a token. */
  datatype RegisteredClaims = RegisteredClaims(
    issuer: string,
    expiresAt: Option<int>,
    notBefore: Option<int>,
    issuedAt: Option<int>)

  datatype UserClaims = UserClaims(userID: int, email: string, role: string, registered: RegisteredClaims)

  /** The signing methods a token header can name. */
  datatype SigningMethod =
    | HS256 | HS384 | HS512
    | RS256 | RS384 | RS512
    | PS256 | PS384 | PS512
    | ES256 | ES384 | ES512
    | EdDSA | NoSignature

  /** The methods of the HMAC family (SigningMethodHMAC). */
  predicate IsHMAC(m: SigningMethod)
  {
    m.HS256? || m.HS384? || m.HS512?
  }

  /** A decoded token: the method its header names, its claims, the signed text and the signature. */
  datatype Parsed = Parsed(alg: SigningMethod, claims: UserClaims, signingString: string, signature: string)

  datatype Crypto = Crypto(
    sign: (SigningMethod, string, UserClaims) -> Option<string>,
    parse: string -> Option<Parsed>,
    mac: (SigningMethod, string, string) -> string)

  /**
   * What the library promises of its own tokens: a token produced by `sign` decodes to the
   * same method and claims, and carries the MAC of its signing string under the key used.
   */
  ghost predicate Sound(c: Crypto)
  {
    forall m, key, claims | c.sign(m, key, claims).Some? ::
      var p := c.parse(c.sign(m, key, claims).value);
      p.Some? && p.value.alg == m && p.value.claims == claims
      && p.value.signature == c.mac(m, key, p.value.signingString)
  }

  /**
   * The claims GenerateToken builds. `t1` is the clock read for the expiry, `t2` the later
   * read for issued-at; `expiry` is the configured lifetime.
   */
  function NewClaims(userID: int, email: string, role: string, expiry: int, t1: int, t2: int): (c: UserClaims)
    ensures c.userID == userID && c.email == email && c.role == role
    ensures c.registered == RegisteredClaims(Issuer, Some(t1 + expiry), None, Some(t2))
  {
    UserClaims(userID, email, role, RegisteredClaims(Issuer, Some(t1 + expiry), None, Some(t2)))
  }

  /** GenerateToken: sign the new claims with HS256 under the configured secret. */
  function GenerateToken(cfg: Config, crypto: Crypto, userID: int, email: string, role: string, t1: int, t2: int)
    : (r: Result<string, ErrorKind>)
    ensures r.Err? ==> r.error == InternalServerError
    ensures r.Ok? <==> crypto.sign(HS256, cfg.jwtSecret, NewClaims(userID, email, role, cfg.jwtExpiry, t1, t2)).Some?
    ensures r.Ok? ==> Some(r.value) == crypto.sign(HS256, cfg.jwtSecret, NewClaims(userID, email, role, cfg.jwtExpiry, t1, t2))
  {
    var claims := NewClaims(userID, email, role, cfg.jwtExpiry, t1, t2);
    match crypto.sign(HS256, cfg.jwtSecret, claims)
    case None => Err(InternalServerError)
    case Some(tokenString) => Ok(tokenString)
  }

  /**
   * The time checks the library applies by default at clock value `now`: a token without exp
   * never expires, one with exp is valid strictly before it, and nbf, when present, must have
   * passed. Issued-at, issuer, audience and subject are not checked.
   */
  predicate TimeValid(rc: RegisteredClaims, now: int)
  {
    (rc.expiresAt.None? || now < rc.expiresAt.value)
    && (rc.notBefore.None? || rc.notBefore.value <= now)
  }

  /** ValidateToken at clock value `now`. Every way of failing yields the same error. */
  function ValidateToken(cfg: Config, crypto: Crypto, tokenStr: string, now: int): (r: Result<UserClaims, ErrorKind>)
    ensures r.Err? ==> r.error == Unauthorized
    ensures r.Ok? <==>
      && crypto.parse(tokenStr).Some?
      && IsHMAC(crypto.parse(tokenStr).value.alg)
      && crypto.parse(tokenStr).value.signature
         == crypto.mac(crypto.parse(tokenStr).value.alg, cfg.jwtSecret, crypto.parse(tokenStr).value.signingString)
      && TimeValid(crypto.parse(tokenStr).value.claims.registered, now)
    ensures r.Ok? ==> r.value == crypto.parse(tokenStr).value.claims
  {
    match crypto.parse(tokenStr)
    case None => Err(Unauthorized)
    case Some(token) =>
      if !IsHMAC(token.alg) then Err(Unauthorized)
      else if token.signature != crypto.mac(token.alg, cfg.jwtSecret, token.signingString) then Err(Unauthorized)
      else if !TimeValid(token.claims.registered, now) then Err(Unauthorized)
      else Ok(token.claims)
  }

  /** Round trip: a freshly generated token validates, before it expires, to the claims it was built from. */
  lemma GenerateThenValidate(cfg: Config, crypto: Crypto, userID: int, email: string, role: string,
                             t1: int, t2: int, now: int, token: string)
    requires Sound(crypto)
    requires GenerateToken(cfg, crypto, userID, email, role, t1, t2) == Ok(token)
    requires now < t1 + cfg.jwtExpiry
    ensures ValidateToken(cfg, crypto, token, now) == Ok(NewClaims(userID, email, role, cfg.jwtExpiry, t1, t2))
    ensures var c := ValidateToken(cfg, crypto, token, now).value;
      c.userID == userID && c.email == email && c.role == role
  {
    var claims := NewClaims(userID, email, role, cfg.jwtExpiry, t1, t2);
    assert crypto.sign(HS256, cfg.jwtSecret, claims) == Some(token);
    var p := crypto.parse(token);
    assert p.Some? && p.value.alg == HS256 && p.value.claims == claims;
  }

  /** A generated token lives at most the configured lifetime after it was issued, and names the fixed issuer. */
  lemma IssuedLifetime(userID: int, email: string, role: string, expiry: int, t1: int, t2: int)
    requires t1 <= t2
    ensures var rc := NewClaims(userID, email, role, expiry, t1, t2).registered;
      rc.issuer == Issuer && rc.expiresAt.value - rc.issuedAt.value <= expiry
  {
  }

  /** A token whose header names a method outside the HMAC family is refused, whatever else it carries. */
  lemma NonHmacRejected(cfg: Config, crypto: Crypto, tokenStr: string, now: int)
    requires crypto.parse(tokenStr).Some? && !IsHMAC(crypto.parse(tokenStr).value.alg)
    ensures ValidateToken(cfg, crypto, tokenStr, now) == Err(Unauthorized)
  {
  }

  /**
   * The check is on the family, not on HS256: a correctly signed, current token whose
   * header names HS384 or HS512 is accepted too.
   */
  lemma AnyHmacAccepted(cfg: Config, crypto: Crypto, tokenStr: string, now: int)
    requires crypto.parse(tokenStr).Some?
    requires var p := crypto.parse(tokenStr).value;
      p.alg in {HS384, HS512} && p.signature == crypto.mac(p.alg, cfg.jwtSecret, p.signingString)
      && TimeValid(p.claims.registered, now)
    ensures ValidateToken(cfg, crypto, tokenStr, now) == Ok(crypto.parse(tokenStr).value.claims)
  {
  }

  /** A token whose signature is not the MAC under the configured secret is refused. */
  lemma BadSignatureRejected(cfg: Config, crypto: Crypto, tokenStr: string, now: int)
    requires crypto.parse(tokenStr).Some?
    requires var p := crypto.parse(tokenStr).value; p.signature != crypto.mac(p.alg, cfg.jwtSecret, p.signingString)
    ensures ValidateToken(cfg, crypto, tokenStr, now) == Err(Unauthorized)
  {
  }

  /** A token at or past its expiry is refused with the same error as every other failure. */
  lemma ExpiredRejected(cfg: Config, crypto: Crypto, tokenStr: string, now: int)
    requires crypto.parse(tokenStr).Some?
    requires var exp := crypto.parse(tokenStr).value.claims.registered.expiresAt; exp.Some? && exp.value <= now
    ensures ValidateToken(cfg, crypto, tokenStr, now) == Err(Unauthorized)
  {
  }

  /** A token generated with one secret is refused under another whose MAC differs. */
  lemma OtherSecretRejected(cfg: Config, crypto: Crypto, userID: int, email: string, role: string,
                            t1: int, t2: int, now: int, token: string, otherSecret: string)
    requires Sound(crypto)
    requires GenerateToken(cfg, crypto, userID, email, role, t1, t2) == Ok(token)
    requires var p := crypto.parse(token).value;
      crypto.mac(HS256, otherSecret, p.signingString) != crypto.mac(HS256, cfg.jwtSecret, p.signingString)
    ensures ValidateToken(cfg.(jwtSecret := otherSecret), crypto, token, now) == Err(Unauthorized)
  {
    var claims := NewClaims(userID, email, role, cfg.jwtExpiry, t1, t2);
    assert crypto.sign(HS256, cfg.jwtSecret, claims) == Some(token);
  }

  /**
   * The issuer is not checked: two tokens that decode alike except for their issuer are
   * accepted or refused together, and yield the same identity.
   */
  lemma IssuerNotChecked(cfg: Config, crypto: Crypto, token1: string, token2: string, now: int)
    requires crypto.parse(token1).Some? && crypto.parse(token2).Some?
    requires var p1, p2 := crypto.parse(token1).value, crypto.parse(token2).value;
      p1.(claims := p1.claims.(registered := p1.claims.registered.(issuer := ""))) ==
      p2.(claims := p2.claims.(registered := p2.claims.registered.(issuer := "")))
    ensures ValidateToken(cfg, crypto, token1, now).Ok? == ValidateToken(cfg, crypto, token2, now).Ok?
    ensures ValidateToken(cfg, crypto, token1, now).Ok? ==>
      var c1, c2 := ValidateToken(cfg, crypto, token1, now).value, ValidateToken(cfg, crypto, token2, now).value;
      c1.userID == c2.userID && c1.email == c2.email && c1.role == c2.role
  {
    var p1, p2 := crypto.parse(token1).value, crypto.parse(token2).value;
    assert p1.alg == p2.alg && p1.signature == p2.signature && p1.signingString == p2.signingString;
    assert p1.claims.registered.expiresAt == p2.claims.registered.expiresAt;
    assert p1.claims.registered.notBefore == p2.claims.registered.notBefore;
    assert p1.claims.userID == p2.claims.userID && p1.claims.email == p2.claims.email && p1.claims.role == p2.claims.role;
  }
}
