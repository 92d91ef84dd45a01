/**
 * The cryptographic library calls the service depends on, kept abstract.
 * A `Crypto` value bundles them as functions, so the model holds for every
 * implementation; what the model relies on about them is stated as the
 * predicates below and appears only as a hypothesis of the lemmas that need it.
 */
module Primitives {
  import opened Wrappers
  import opened Base64
  import opened Models

  /**
   * The dynamic value handed to the signing library as a key. The service
   * hands over its key as a string (`StringKey`); an HMAC key is normally a
   * byte slice (`BytesKey`); the service itself never builds one, and the
   * constructor is there only to name that alternative. Whether the library
   * accepts a string is the library's business, so signing and parsing stay
   * fallible.
   */
  datatype KeyValue = StringKey(s: string) | BytesKey(b: seq<byte>)

  /**
   * What parsing an access token yields: the claims, if they have the
   * expected shape, and the validity flag. Validity may depend on the moment
   * of parsing (the library may check the expiry claim), so parsing takes it.
   */
  datatype Parsed = Parsed(claims: Option<TokenClaims>, valid: bool)

  /** bcrypt.DefaultCost. */
  const DefaultCost: nat := 10

  datatype Crypto = Crypto(
    /** Signing the claims with HMAC-SHA512 (section 3.2 of RFC 7518) into a compact JWT. */
    sign: (KeyValue, TokenClaims) -> Result<string, Error>,
    /** Parsing a compact JWT into TokenClaims and checking its signature with the key, at a Unix time. */
    parse: (KeyValue, string, int) -> Result<Parsed, Error>,
    /** bcrypt of a password at a cost, with the salt it draws. */
    hash: (string, nat, seq<byte>) -> Result<string, Error>,
    /** bcrypt's comparison of a stored hash with a password succeeding. */
    matches: (string, string) -> bool)

  /** A token that parses under the key it was signed with yields the claims it was signed with. */
  ghost predicate SignatureSound(c: Crypto)
  {
    forall k, claims, at :: c.sign(k, claims).Ok? && c.parse(k, c.sign(k, claims).value, at).Ok? ==>
      c.parse(k, c.sign(k, claims).value, at).value.claims == Some(claims)
  }

  /** A hash produced from a password matches that password. */
  ghost predicate HashSound(c: Crypto)
  {
    forall pw, cost, salt :: c.hash(pw, cost, salt).Ok? ==> c.matches(c.hash(pw, cost, salt).value, pw)
  }

  /** A hash produced from a password matches no other password (no collisions). */
  ghost predicate HashBinding(c: Crypto)
  {
    forall pw, cost, salt, other :: c.hash(pw, cost, salt).Ok? && c.matches(c.hash(pw, cost, salt).value, other) ==> other == pw
  }
}
