/**
 * AuthService (internal/app/api/service.go): issuing a credential pair
 * (a signed access token and a random refresh secret whose bcrypt hash is
 * stored) and rotating it (verify the access token, warn on a changed client
 * address, check the refresh secret against the stored hash, issue afresh).
 *
 * The clock (read once per call: for parsing the presented token and for
 * the claims of a new one), the random source, bcrypt's salt and the database's failures are
 * inputs (`Draw` and the lookup fault). `Issue` and `Rotate` state, as
 * functions of the old table and those inputs, what the two methods of the
 * class return and leave behind; the lemmas in module Rotation are about them.
 */
module Api {
  import opened Wrappers
  import opened Base64
  import opened Models
  import opened Primitives
  import opened Repository

  /** Access tokens expire 30 minutes after they are issued (seconds). */
  const AccessTokenLifetime: int := 30 * 60

  /** Random bytes behind a refresh secret. */
  const RefreshBytes: nat := 32

  /** Length of a refresh secret: 32 bytes in padded base64. */
  const RefreshSecretLength: nat := 44

  /** An effect of the service that is visible outside it, in order. */
  datatype Event =
    | Warned(userID: string)                                   // sendEmailWarning
    | Fetched(userID: string)                                  // repo.GetRefreshToken
    | Saved(userID: string, tokenHash: string, clientIP: string) // repo.SaveRefreshToken

  /**
   * What the world supplies to one issuance: the clock reading (Unix seconds),
   * the outcome of reading from crypto/rand (an error, or the bytes it delivers),
   * the salt bcrypt draws, and whether the save fails.
   */
  datatype Draw = Draw(now: int, entropy: Result<seq<byte>, Error>, salt: seq<byte>, saveFault: Option<Error>)

  /** The result of a call, the table it leaves and the events it caused. */
  datatype Outcome = Outcome(access: string, refresh: string, err: Option<Error>, table: Table, events: seq<Event>)

  /** Every failure returns ("", "", err). */
  function Failed(e: Error, t: Table, events: seq<Event>): Outcome
  {
    Outcome("", "", Some(e), t, events)
  }

  /** The claims createAccessToken signs at Unix time `now`. */
  function NewClaims(userID: string, clientIP: string, now: int): TokenClaims
  {
    TokenClaims(userID, clientIP, now + AccessTokenLifetime, now)
  }

  /** createAccessToken: the claims signed with HS512 under the key passed as a string. */
  function CreateAccessToken(crypto: Crypto, jwtKey: string, userID: string, clientIP: string, now: int)
    : (r: Result<string, Error>)
    ensures forall at :: SignatureSound(crypto) && r.Ok? && crypto.parse(StringKey(jwtKey), r.value, at).Ok? ==>
      var claims := crypto.parse(StringKey(jwtKey), r.value, at).value.claims;
      claims.Some? && claims.value.userID == userID && claims.value.clientIP == clientIP &&
      claims.value.issuedAt == now && claims.value.expiresAt == now + 30 * 60
  {
    crypto.sign(StringKey(jwtKey), NewClaims(userID, clientIP, now))
  }

  /** What createRefreshToken returns for a given outcome of the random source. */
  function RefreshSecret(entropy: Result<seq<byte>, Error>): (r: Result<string, Error>)
    ensures r.Ok? <==> entropy.Ok? && |entropy.value| >= RefreshBytes
    ensures entropy.Err? ==> r == Err(entropy.error)
    ensures r.Ok? ==> r.value == Encode(entropy.value[..RefreshBytes])
    ensures r.Ok? ==> |r.value| == RefreshSecretLength && Decode(r.value) == Some(entropy.value[..RefreshBytes])
  {
    match entropy
    case Err(e) => Err(e)
    case Ok(bytes) =>
      if |bytes| < RefreshBytes then Err(ShortRead)
      else
        var chosen := bytes[..RefreshBytes];
        SecretEncoding(chosen);
        Ok(Encode(chosen))
  }

  /** The encoding of 32 bytes is 44 characters long and decodes back to them. */
  lemma SecretEncoding(b: seq<byte>)
    requires |b| == RefreshBytes
    ensures |Encode(b)| == RefreshSecretLength && Decode(Encode(b)) == Some(b)
  {
    EncodedLength(b);
    assert 4 * ((|b| + 2) / 3) == 44;
    DecodeEncode(b);
  }

  /** crypto/rand.Read: fills the whole buffer, or fails. */
  method ReadRandom(buf: array<byte>, entropy: Result<seq<byte>, Error>) returns (err: Option<Error>)
    modifies buf
    ensures err.None? <==> entropy.Ok? && |entropy.value| >= buf.Length
    ensures err.None? ==> buf[..] == entropy.value[..buf.Length]
    ensures err.Some? ==> err.value == if entropy.Err? then entropy.error else ShortRead
  {
    match entropy
    case Err(e) => return Some(e);
    case Ok(bytes) =>
      if |bytes| < buf.Length {
        return Some(ShortRead);
      }
      forall i | 0 <= i < buf.Length {
        buf[i] := bytes[i];
      }
      return None;
  }

  /** createRefreshToken: 32 random bytes, base64-encoded. */
  method CreateRefreshToken(entropy: Result<seq<byte>, Error>) returns (secret: string, err: Option<Error>)
    ensures err.Some? ==> secret == ""
    ensures RefreshSecret(entropy) == if err.None? then Ok(secret) else Err(err.value)
  {
    var bytes := new byte[RefreshBytes];
    err := ReadRandom(bytes, entropy);
    if err.Some? {
      return "", err;
    }
    secret := Encode(bytes[..]);
  }

  /** GenerateToken, as a function of the table before the call. */
  function Issue(crypto: Crypto, jwtKey: string, t: Table, userID: string, clientIP: string, d: Draw): Outcome
  {
    match CreateAccessToken(crypto, jwtKey, userID, clientIP, d.now)
    case Err(e) => Failed(e, t, [])
    case Ok(access) =>
      match RefreshSecret(d.entropy)
      case Err(e) => Failed(e, t, [])
      case Ok(refresh) =>
        match crypto.hash(refresh, DefaultCost, d.salt)
        case Err(e) => Failed(e, t, [])
        case Ok(h) =>
          match d.saveFault
          case Some(e) => Failed(e, t, [Saved(userID, h, clientIP)])
          case None => Outcome(access, refresh, None, Upsert(t, userID, Record(h, clientIP)), [Saved(userID, h, clientIP)])
  }

  /** RefreshToken, as a function of the table before the call. */
  function Rotate(crypto: Crypto, jwtKey: string, t: Table, accessToken: string, refreshToken: string,
                  clientIP: string, lookupFault: Option<Error>, d: Draw): Outcome
  {
    match crypto.parse(StringKey(jwtKey), accessToken, d.now)
    case Err(e) => Failed(e, t, [])
    case Ok(parsed) =>
      if parsed.claims.None? || !parsed.valid then Failed(InvalidAccessToken, t, [])
      else
        var claims := parsed.claims.value;
        var checked := (if claims.clientIP != clientIP then [Warned(claims.userID)] else []) + [Fetched(claims.userID)];
        match Lookup(t, claims.userID, lookupFault)
        case Err(e) => Failed(e, t, checked)
        case Ok(h) =>
          if !crypto.matches(h, refreshToken) then Failed(InvalidRefreshToken, t, checked)
          else
            var o := Issue(crypto, jwtKey, t, claims.userID, clientIP, d);
            o.(events := checked + o.events)
  }

  class AuthService {
    const repo: Repo
    const jwtKey: string
    /** The token and hashing library. */
    const crypto: Crypto
    /** Warnings sent and calls made to the repository, in order. */
    ghost var events: seq<Event>

    constructor (repo: Repo, jwtKey: string, crypto: Crypto)
      ensures this.repo == repo && this.jwtKey == jwtKey && this.crypto == crypto && events == []
    {
      this.repo := repo;
      this.jwtKey := jwtKey;
      this.crypto := crypto;
      events := [];
    }

    /** sendEmailWarning: only the fact that it was sent, and for whom, is kept. */
    method SendEmailWarning(userID: string)
      modifies this`events
      ensures events == old(events) + [Warned(userID)]
    {
      events := events + [Warned(userID)];
    }

    method GenerateToken(userID: string, clientIP: string, d: Draw)
      returns (accessToken: string, refreshToken: string, err: Option<Error>)
      modifies this`events, repo
      ensures var o := Issue(crypto, jwtKey, old(repo.records), userID, clientIP, d);
        accessToken == o.access && refreshToken == o.refresh && err == o.err &&
        repo.records == o.table && events == old(events) + o.events
      ensures err.Some? ==> accessToken == "" && refreshToken == "" && repo.records == old(repo.records)
      ensures err.None? ==>
        userID in repo.records && repo.records[userID].clientIP == clientIP &&
        repo.records == Upsert(old(repo.records), userID, repo.records[userID]) &&
        |refreshToken| == RefreshSecretLength
      ensures err.None? && HashSound(crypto) ==> crypto.matches(repo.records[userID].tokenHash, refreshToken)
    {
      var signed := CreateAccessToken(crypto, jwtKey, userID, clientIP, d.now);
      if signed.Err? {
        return "", "", Some(signed.error);
      }
      var secret, randErr := CreateRefreshToken(d.entropy);
      if randErr.Some? {
        return "", "", randErr;
      }
      var hashed := crypto.hash(secret, DefaultCost, d.salt);
      if hashed.Err? {
        return "", "", Some(hashed.error);
      }
      events := events + [Saved(userID, hashed.value, clientIP)];
      var saveErr := repo.SaveRefreshToken(userID, hashed.value, clientIP, d.saveFault);
      if saveErr.Some? {
        return "", "", saveErr;
      }
      return signed.value, secret, None;
    }

    method RefreshToken(accessToken: string, refreshToken: string, clientIP: string, lookupFault: Option<Error>, d: Draw)
      returns (newAccessToken: string, newRefreshToken: string, err: Option<Error>)
      modifies this`events, repo
      ensures var o := Rotate(crypto, jwtKey, old(repo.records), accessToken, refreshToken, clientIP, lookupFault, d);
        newAccessToken == o.access && newRefreshToken == o.refresh && err == o.err &&
        repo.records == o.table && events == old(events) + o.events
      ensures err.Some? ==> newAccessToken == "" && newRefreshToken == "" && repo.records == old(repo.records)
    {
      var parsed := crypto.parse(StringKey(jwtKey), accessToken, d.now);
      if parsed.Err? {
        return "", "", Some(parsed.error);
      }
      var claims := parsed.value.claims;
      if claims.None? || !parsed.value.valid {
        return "", "", Some(InvalidAccessToken);
      }
      if claims.value.clientIP != clientIP {
        SendEmailWarning(claims.value.userID);
      }
      events := events + [Fetched(claims.value.userID)];
      var dbHash, lookupErr := repo.GetRefreshToken(claims.value.userID, lookupFault);
      if lookupErr.Some? {
        return "", "", lookupErr;
      }
      if !crypto.matches(dbHash, refreshToken) {
        return "", "", Some(InvalidRefreshToken);
      }
      newAccessToken, newRefreshToken, err := GenerateToken(claims.value.userID, clientIP, d);
    }
  }
}
