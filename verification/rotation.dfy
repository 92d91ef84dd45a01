/**
 * What issuing and rotating credentials guarantee, stated about the
 * functions `Api.Issue` and `Api.Rotate` that the methods of
 * `Api.AuthService` are proved to follow.
 */
module Rotation {
  import opened Wrappers
  import opened Base64
  import opened Models
  import opened Primitives
  import opened Repository
  import opened Api

  /** Every step of an issuance goes through: signing, the random source, bcrypt and the save. */
  ghost predicate IssueSucceeds(crypto: Crypto, jwtKey: string, userID: string, clientIP: string, d: Draw)
  {
    CreateAccessToken(crypto, jwtKey, userID, clientIP, d.now).Ok? &&
    RefreshSecret(d.entropy).Ok? &&
    crypto.hash(RefreshSecret(d.entropy).value, DefaultCost, d.salt).Ok? &&
    d.saveFault.None?
  }

  /** The users named by the warnings among some events, in order. */
  function Warnings(events: seq<Event>): seq<string>
  {
    if events == [] then []
    else (if events[0].Warned? then [events[0].userID] else []) + Warnings(events[1..])
  }

  lemma {:induction false} WarningsAppend(a: seq<Event>, b: seq<Event>)
    ensures Warnings(a + b) == Warnings(a) + Warnings(b)
    decreases |a|
  {
    if a == [] {
      assert a + b == b;
    } else {
      assert (a + b)[0] == a[0] && (a + b)[1..] == a[1..] + b;
      WarningsAppend(a[1..], b);
    }
  }

  /** GenerateToken succeeds exactly when every one of its steps does. */
  lemma IssueSucceedsExactly(crypto: Crypto, jwtKey: string, t: Table, userID: string, clientIP: string, d: Draw)
    ensures Issue(crypto, jwtKey, t, userID, clientIP, d).err.None? <==> IssueSucceeds(crypto, jwtKey, userID, clientIP, d)
  {
  }

  /**
   * A failed GenerateToken returns no credentials and leaves the table as it
   * was; the only call to the store is one save, as the last step, and when
   * that save fails its error is the one returned.
   */
  lemma IssueFailureWritesNothing(crypto: Crypto, jwtKey: string, t: Table, userID: string, clientIP: string, d: Draw)
    ensures var o := Issue(crypto, jwtKey, t, userID, clientIP, d);
      (o.err.Some? ==> o.access == "" && o.refresh == "" && o.table == t) &&
      (o.events == [] || (|o.events| == 1 && o.events[0] == Saved(userID, o.events[0].tokenHash, clientIP))) &&
      (o.events == [] ==> o.err.Some?) &&
      (o.err.Some? && o.events != [] ==> o.err == d.saveFault)
  {
  }

  /**
   * A successful GenerateToken replaces the user's record by the hash of the
   * returned secret and the client address, and the secret is 44 characters.
   */
  lemma IssueStoresHashOfSecret(crypto: Crypto, jwtKey: string, t: Table, userID: string, clientIP: string, d: Draw)
    requires HashSound(crypto)
    ensures var o := Issue(crypto, jwtKey, t, userID, clientIP, d);
      o.err.None? ==>
        userID in o.table && o.table == Upsert(t, userID, Record(o.table[userID].tokenHash, clientIP)) &&
        crypto.matches(o.table[userID].tokenHash, o.refresh) &&
        |o.refresh| == RefreshSecretLength &&
        o.events == [Saved(userID, o.table[userID].tokenHash, clientIP)]
  {
  }

  /** The access token of a successful GenerateToken carries the user, the address and a 30-minute lifetime. */
  lemma IssuedClaims(crypto: Crypto, jwtKey: string, t: Table, userID: string, clientIP: string, d: Draw, at: int, p: Parsed)
    requires SignatureSound(crypto)
    requires Issue(crypto, jwtKey, t, userID, clientIP, d).err.None?
    requires crypto.parse(StringKey(jwtKey), Issue(crypto, jwtKey, t, userID, clientIP, d).access, at) == Ok(p)
    ensures p.claims == Some(TokenClaims(userID, clientIP, d.now + AccessTokenLifetime, d.now))
  {
  }

  /** Refresh secrets drawn from different random bytes differ. */
  lemma FreshSecretsDiffer(e1: seq<byte>, e2: seq<byte>)
    requires |e1| >= RefreshBytes && |e2| >= RefreshBytes && e1[..RefreshBytes] != e2[..RefreshBytes]
    ensures RefreshSecret(Ok(e1)).value != RefreshSecret(Ok(e2)).value
  {
  }

  /** A token that does not parse, or parses to wrong-shaped or invalid claims, stops RefreshToken before anything else happens. */
  lemma RotateRejectsInvalidAccessToken(crypto: Crypto, jwtKey: string, t: Table, accessToken: string, refreshToken: string,
                                        clientIP: string, lookupFault: Option<Error>, d: Draw)
    requires var r := crypto.parse(StringKey(jwtKey), accessToken, d.now); r.Err? || r.value.claims.None? || !r.value.valid
    ensures var o := Rotate(crypto, jwtKey, t, accessToken, refreshToken, clientIP, lookupFault, d);
      o.err.Some? && o.access == "" && o.refresh == "" && o.table == t && o.events == []
  {
  }

  /**
   * Once the token checks out, exactly one warning naming the token's user
   * is sent when its address differs from the current one, none otherwise,
   * and the rotation goes on to the lookup either way.
   */
  lemma RotateWarnsOnAddressChange(crypto: Crypto, jwtKey: string, t: Table, accessToken: string, refreshToken: string,
                                   clientIP: string, lookupFault: Option<Error>, d: Draw, claims: TokenClaims)
    requires crypto.parse(StringKey(jwtKey), accessToken, d.now) == Ok(Parsed(Some(claims), true))
    ensures var o := Rotate(crypto, jwtKey, t, accessToken, refreshToken, clientIP, lookupFault, d);
      Warnings(o.events) == (if claims.clientIP != clientIP then [claims.userID] else []) &&
      Fetched(claims.userID) in o.events
  {
    var o := Rotate(crypto, jwtKey, t, accessToken, refreshToken, clientIP, lookupFault, d);
    var warned := if claims.clientIP != clientIP then [Warned(claims.userID)] else [];
    var checked := warned + [Fetched(claims.userID)];
    assert Warnings(checked) == Warnings(warned) + Warnings([Fetched(claims.userID)]) by {
      WarningsAppend(warned, [Fetched(claims.userID)]);
    }
    assert Warnings([Fetched(claims.userID)]) == [];
    assert checked[|warned|] == Fetched(claims.userID);
    if o.events != checked {
      var i := Issue(crypto, jwtKey, t, claims.userID, clientIP, d);
      assert o.events == checked + i.events;
      WarningsAppend(checked, i.events);
      if i.events != [] {
        assert i.events == [i.events[0]] && !i.events[0].Warned?;
        assert Warnings(i.events) == [] + Warnings(i.events[1..]);
      }
    }
  }

  /** A failed lookup (no record for the user, or the database) or a wrong secret ends RefreshToken with an error and no write. */
  lemma RotateRejectsUnknownUserOrWrongSecret(crypto: Crypto, jwtKey: string, t: Table, accessToken: string, refreshToken: string,
                                              clientIP: string, lookupFault: Option<Error>, d: Draw, claims: TokenClaims)
    requires crypto.parse(StringKey(jwtKey), accessToken, d.now) == Ok(Parsed(Some(claims), true))
    ensures var o := Rotate(crypto, jwtKey, t, accessToken, refreshToken, clientIP, lookupFault, d);
      var l := Lookup(t, claims.userID, lookupFault);
      (l.Err? ==> o.err == Some(l.error) && o.access == "" && o.refresh == "" && o.table == t) &&
      (claims.userID !in t && lookupFault.None? ==> o.err == Some(NoRows) && o.table == t) &&
      (l.Ok? && !crypto.matches(l.value, refreshToken) ==>
        o.err == Some(InvalidRefreshToken) && o.access == "" && o.refresh == "" && o.table == t)
  {
  }

  /**
   * A successful RefreshToken is GenerateToken for the token's user at the
   * current address; the secret presented no longer matches what is stored,
   * provided the new secret is a different one.
   */
  lemma RotateReissues(crypto: Crypto, jwtKey: string, t: Table, accessToken: string, refreshToken: string,
                       clientIP: string, lookupFault: Option<Error>, d: Draw, claims: TokenClaims)
    requires HashBinding(crypto)
    requires crypto.parse(StringKey(jwtKey), accessToken, d.now) == Ok(Parsed(Some(claims), true))
    ensures var o := Rotate(crypto, jwtKey, t, accessToken, refreshToken, clientIP, lookupFault, d);
      var i := Issue(crypto, jwtKey, t, claims.userID, clientIP, d);
      o.err.None? ==>
        o.access == i.access && o.refresh == i.refresh && o.table == i.table &&
        claims.userID in t && crypto.matches(t[claims.userID].tokenHash, refreshToken) &&
        o.table[claims.userID].clientIP == clientIP &&
        (o.refresh != refreshToken ==> !crypto.matches(o.table[claims.userID].tokenHash, refreshToken))
  {
  }

  /**
   * A refresh secret is good for one rotation: once a rotation that presented
   * it has stored a different secret, presenting it again with any token of
   * the same user fails with InvalidRefreshToken and writes nothing.
   */
  lemma SecretIsSingleUse(crypto: Crypto, jwtKey: string, t: Table, accessToken: string, refreshToken: string,
                          clientIP: string, d: Draw, claims: TokenClaims,
                          again: string, clientIP2: string, d2: Draw, claims2: TokenClaims)
    requires HashBinding(crypto)
    requires crypto.parse(StringKey(jwtKey), accessToken, d.now) == Ok(Parsed(Some(claims), true))
    requires Rotate(crypto, jwtKey, t, accessToken, refreshToken, clientIP, None, d).err.None?
    requires Rotate(crypto, jwtKey, t, accessToken, refreshToken, clientIP, None, d).refresh != refreshToken
    requires crypto.parse(StringKey(jwtKey), again, d2.now) == Ok(Parsed(Some(claims2), true)) && claims2.userID == claims.userID
    ensures var first := Rotate(crypto, jwtKey, t, accessToken, refreshToken, clientIP, None, d);
      var second := Rotate(crypto, jwtKey, first.table, again, refreshToken, clientIP2, None, d2);
      second.err == Some(InvalidRefreshToken) && second.table == first.table
  {
    RotateReissues(crypto, jwtKey, t, accessToken, refreshToken, clientIP, None, d, claims);
    var first := Rotate(crypto, jwtKey, t, accessToken, refreshToken, clientIP, None, d);
    RotateRejectsUnknownUserOrWrongSecret(crypto, jwtKey, first.table, again, refreshToken, clientIP2, None, d2, claims2);
  }

  /**
   * Issue, then rotate with the pair just issued from the same address while
   * the token is still accepted: the rotation succeeds without a warning and
   * stores a new secret. Replaying the first pair afterwards always fails and
   * writes nothing; while the first token is still accepted, it fails because
   * the secret is no longer the stored one.
   */
  lemma IssueThenRotate(crypto: Crypto, jwtKey: string, t: Table, userID: string, clientIP: string,
                        d1: Draw, d2: Draw, d3: Draw)
    requires SignatureSound(crypto) && HashSound(crypto) && HashBinding(crypto)
    requires Issue(crypto, jwtKey, t, userID, clientIP, d1).err.None?
    requires var r := crypto.parse(StringKey(jwtKey), Issue(crypto, jwtKey, t, userID, clientIP, d1).access, d2.now);
      r.Ok? && r.value.valid
    requires IssueSucceeds(crypto, jwtKey, userID, clientIP, d2)
    requires d1.entropy.value[..RefreshBytes] != d2.entropy.value[..RefreshBytes]
    ensures var first := Issue(crypto, jwtKey, t, userID, clientIP, d1);
      var second := Rotate(crypto, jwtKey, first.table, first.access, first.refresh, clientIP, None, d2);
      var replay := Rotate(crypto, jwtKey, second.table, first.access, first.refresh, clientIP, None, d3);
      var later := crypto.parse(StringKey(jwtKey), first.access, d3.now);
      second.err.None? && second.refresh != first.refresh && Warnings(second.events) == [] &&
      second.table.Keys == first.table.Keys &&
      replay.err.Some? && replay.access == "" && replay.refresh == "" && replay.table == second.table &&
      (later.Ok? && later.value.valid ==> replay.err == Some(InvalidRefreshToken))
  {
    var first := Issue(crypto, jwtKey, t, userID, clientIP, d1);
    IssueStoresHashOfSecret(crypto, jwtKey, t, userID, clientIP, d1);
    var p := crypto.parse(StringKey(jwtKey), first.access, d2.now).value;
    IssuedClaims(crypto, jwtKey, t, userID, clientIP, d1, d2.now, p);
    var claims := TokenClaims(userID, clientIP, d1.now + AccessTokenLifetime, d1.now);
    assert p == Parsed(Some(claims), true);
    IssueSucceedsExactly(crypto, jwtKey, first.table, userID, clientIP, d2);
    IssueSucceedsExactly(crypto, jwtKey, t, userID, clientIP, d1);
    FreshSecretsDiffer(d1.entropy.value, d2.entropy.value);
    RotateWarnsOnAddressChange(crypto, jwtKey, first.table, first.access, first.refresh, clientIP, None, d2, claims);
    RotateReissues(crypto, jwtKey, first.table, first.access, first.refresh, clientIP, None, d2, claims);
    var second := Rotate(crypto, jwtKey, first.table, first.access, first.refresh, clientIP, None, d2);
    var later := crypto.parse(StringKey(jwtKey), first.access, d3.now);
    if later.Ok? && later.value.valid {
      IssuedClaims(crypto, jwtKey, t, userID, clientIP, d1, d3.now, later.value);
      assert later.value == Parsed(Some(claims), true);
      SecretIsSingleUse(crypto, jwtKey, first.table, first.access, first.refresh, clientIP, d2, claims,
                        first.access, clientIP, d3, claims);
    } else {
      RotateRejectsInvalidAccessToken(crypto, jwtKey, second.table, first.access, first.refresh, clientIP, None, d3);
    }
  }

  /**
   * For a token that parses to valid claims, RefreshToken succeeds exactly
   * when the lookup finds a hash that the presented secret matches and the
   * reissue succeeds; the client address plays no part.
   */
  lemma RotateSucceedsExactly(crypto: Crypto, jwtKey: string, t: Table, accessToken: string, refreshToken: string,
                              clientIP: string, lookupFault: Option<Error>, d: Draw, claims: TokenClaims)
    requires crypto.parse(StringKey(jwtKey), accessToken, d.now) == Ok(Parsed(Some(claims), true))
    ensures var l := Lookup(t, claims.userID, lookupFault);
      Rotate(crypto, jwtKey, t, accessToken, refreshToken, clientIP, lookupFault, d).err.None? <==>
        l.Ok? && crypto.matches(l.value, refreshToken) && IssueSucceeds(crypto, jwtKey, claims.userID, clientIP, d)
  {
    IssueSucceedsExactly(crypto, jwtKey, t, claims.userID, clientIP, d);
  }

  /**
   * Signing is deterministic, so a reissue for the same user and address
   * within the same second yields the very access token issued before; only
   * the refresh secret is new.
   */
  lemma SameSecondSameAccessToken(crypto: Crypto, jwtKey: string, t1: Table, t2: Table, userID: string, clientIP: string,
                                  d1: Draw, d2: Draw)
    requires d1.now == d2.now
    requires Issue(crypto, jwtKey, t1, userID, clientIP, d1).err.None?
    requires Issue(crypto, jwtKey, t2, userID, clientIP, d2).err.None?
    ensures Issue(crypto, jwtKey, t2, userID, clientIP, d2).access == Issue(crypto, jwtKey, t1, userID, clientIP, d1).access
  {
  }

  /**
   * With a signing library that refuses a key given as a string (the service
   * hands its key over as one), no credentials are ever issued and no
   * rotation ever succeeds.
   */
  lemma StringKeyRefused(crypto: Crypto, jwtKey: string, t: Table, userID: string, accessToken: string, refreshToken: string,
                         clientIP: string, lookupFault: Option<Error>, d: Draw)
    requires forall claims :: crypto.sign(StringKey(jwtKey), claims).Err?
    ensures Issue(crypto, jwtKey, t, userID, clientIP, d).err.Some?
    ensures Issue(crypto, jwtKey, t, userID, clientIP, d).table == t
    ensures Rotate(crypto, jwtKey, t, accessToken, refreshToken, clientIP, lookupFault, d).err.Some?
    ensures Rotate(crypto, jwtKey, t, accessToken, refreshToken, clientIP, lookupFault, d).table == t
  {
  }
}
