# rest-jwt credential rotation, modelled in Dafny

This project models the core of a Go service that hands out credential
pairs and rotates them. A pair is a short-lived access token (a JWT signed
with HMAC-SHA512) and a long-lived refresh secret. The service stores only
a bcrypt hash of the refresh secret, one row per user, in a PostgreSQL
table.

- `GenerateToken(userID, clientIP)` signs an access token whose claims are
  the user, the client address, the issuing time and an expiry 30 minutes
  later. It then draws 32 random bytes, base64-encodes them into the refresh
  secret and hashes the secret with bcrypt. As its last step it upserts
  `(hash, clientIP)` for the user. Any failure returns `("", "", err)`.
- `RefreshToken(accessToken, refreshToken, clientIP)` parses and verifies the
  access token. If the token's address differs from the current one, it sends
  a warning, and the rotation goes on anyway. It then fetches the stored hash
  for the token's user and compares the presented secret with it. If that
  succeeds, it runs `GenerateToken` again for that user at the current
  address, which overwrites the row.

Files and modules:

- `wrappers.dfy` (`Wrappers`): `Option` and `Result`.
- `base64.dfy` (`Base64`): the standard encoding of section 4 of RFC 4648.
  It has a decoder as the encoder's partner, and the round trip is proved.
- `models.dfy` (`Models`): the `TokenClaims` record and the errors.
- `primitives.dfy` (`Primitives`): the token and hashing library, kept
  abstract. It is a value `Crypto` of four functions: `sign`, `parse`,
  `hash` and `matches`. Three predicates state the laws the lemmas assume:
  a signed token parses back to its claims (`SignatureSound`), a hash matches
  its password (`HashSound`), and a hash matches no other password
  (`HashBinding`).
- `repository.dfy` (`Repository`): the `refresh_tokens` table as a map keyed
  by user. It has the class `Repo` with `SaveRefreshToken` (insert or
  replace) and `GetRefreshToken` (lookup, or `NoRows`).
- `service.dfy` (`Api`): the class `AuthService`. Its methods
  `GenerateToken` and `RefreshToken` are proved to follow the functions
  `Issue` and `Rotate`, which give the result, the new table and the events
  of a call. Events are warnings sent, fetches and saves. They are kept in
  the ghost log `events`.
- `rotation.dfy` (`Rotation`): what `Issue` and `Rotate` guarantee, alone
  and in sequence.

Inputs from outside the program are parameters:

- `Draw` carries the clock reading in Unix seconds (used for parsing the presented token and for the new claims), the outcome of reading
  `crypto/rand`, the salt bcrypt draws and whether the save fails.
- The lookup's database failure is a separate argument of `RefreshToken`.

The service passes its key to the JWT library as a Go `string` at
internal/app/api/service.go:56 and :95. The test helper converts it to bytes
at internal/app/api/service_test.go:114. The model keeps that string as
`StringKey(jwtKey)`, and signing and parsing stay fallible.
`Rotation.StringKeyRefused` shows the consequence: a signing library that
refuses string keys means no credentials are ever issued and no rotation
ever succeeds.

## Model

| member | source | states |
|---|---|---|
| `Base64.EncodedLength` | internal/app/api/service.go:103 | standard base64 output is four characters for every three input bytes or part of three |
| `Base64.DecodeEncode` | internal/app/api/service.go:103 | decoding the standard base64 encoding gives back the bytes |
| `Base64.EncodeInjective` | internal/app/api/service.go:103 | different byte strings encode to different texts |
| `Repository.Upsert` | internal/app/repository/postgresql/repo.go:23-24 | insert-or-update by user: the saved user maps to the new row, other rows are unchanged, and no key appears except that user |
| `Repository.UpsertRowCount` | internal/app/repository/postgresql/repo.go:23-24 | a save never adds a second row for a user; the table grows by one only for a new user |
| `Repository.UpsertReplaces` | internal/app/repository/postgresql/repo.go:23-24 | a second save for a user replaces the first entirely |
| `Repository.LookupAfterUpsert` | internal/app/repository/postgresql/repo.go:31-40 | after saving `(u, h, ip)`, a lookup of `u` returns `h` with no error |
| `Repository.UpsertIsolation` | internal/app/repository/postgresql/repo.go:22-40 | saving for one user does not change what a lookup of another user returns |
| `Repository.Repo.constructor` | internal/app/repository/postgresql/repo.go:18-20 | the repository works over the table it is given, which may already hold rows |
| `Repository.Repo.SaveRefreshToken` | internal/app/repository/postgresql/repo.go:22-29 | the error returned is the database's; on success the table is the old one upserted with `(hash, clientIP)`, and on failure it is unchanged |
| `Repository.Repo.GetRefreshToken` | internal/app/repository/postgresql/repo.go:31-41 | read-only; returns the stored hash, or `""` with `NoRows` for a user without a row, or `""` with the database's error |
| `Api.CreateAccessToken` | internal/app/api/service.go:84-96 | a signed token that parses carries exactly the given user and address, issued at `now` and expiring 30 minutes later |
| `Api.RefreshSecret` | internal/app/api/service.go:98-104 | a random-source error is returned as is, and too few bytes is an error; otherwise the secret is the standard base64 encoding of the first 32 random bytes, 44 characters long, and decodes back to them |
| `Api.SecretEncoding` | internal/app/api/service.go:99-103 | 32 bytes encode to 44 characters that decode back to them |
| `Api.ReadRandom` | internal/app/api/service.go:99-102 | the buffer is filled with the source's bytes, or an error is returned when the source fails or runs short |
| `Api.CreateRefreshToken` | internal/app/api/service.go:98-104 | fills a 32-byte buffer and encodes it; it returns what `RefreshSecret` describes, with `""` on error |
| `Api.AuthService.constructor` | internal/app/api/service.go:26-28 | the service holds the given repository and key, and nothing has happened yet |
| `Api.AuthService.SendEmailWarning` | internal/app/api/service.go:106-108 | one warning naming the user is appended to the event log |
| `Api.AuthService.GenerateToken` | internal/app/api/service.go:30-52 | returns what `Issue` returns, leaves the table `Issue` leaves, and logs its events; a failure returns `("", "", err)` with the table unchanged, and a success replaces the user's row with the current address and a hash that matches the returned 44-character secret |
| `Api.AuthService.RefreshToken` | internal/app/api/service.go:54-82 | returns what `Rotate` returns, leaves the table `Rotate` leaves, and logs its events; a failure returns `("", "", err)` with the table unchanged |
| `Rotation.IssueSucceedsExactly` | internal/app/api/service.go:30-52 | issuing succeeds if and only if signing, the random source, bcrypt and the save all succeed |
| `Rotation.IssueFailureWritesNothing` | internal/app/api/service.go:30-49 | a failure returns `("", "", err)` and leaves the table unchanged; the only store call is one save, made last, whose error is the one returned when it fails |
| `Rotation.IssueStoresHashOfSecret` | internal/app/api/service.go:41-51 | on success the user's row is replaced by a hash that matches the returned secret, together with the client address, and the secret is 44 characters |
| `Rotation.IssuedClaims` | internal/app/api/service.go:84-95 | whenever the issued access token parses, it yields the claims `{userID, clientIP, now + 30 min, now}` |
| `Rotation.FreshSecretsDiffer` | internal/app/api/service.go:98-104 | refresh secrets made from different random bytes are different |
| `Rotation.RotateRejectsInvalidAccessToken` | internal/app/api/service.go:55-65 | a token that fails to parse, or whose claims are of the wrong shape or not valid, gives an error with no warning, no lookup and no write |
| `Rotation.RotateWarnsOnAddressChange` | internal/app/api/service.go:67-71 | for a valid token, exactly one warning naming the token's user is sent when its address differs from the current one, and none otherwise; the lookup happens either way |
| `Rotation.RotateRejectsUnknownUserOrWrongSecret` | internal/app/api/service.go:71-79 | a failed lookup returns its error, an unknown user gives `NoRows`, and a wrong secret gives `InvalidRefreshToken`; none of them writes |
| `Rotation.RotateSucceedsExactly` | internal/app/api/service.go:62-81 | for a token that parses to valid claims, rotation succeeds if and only if the lookup finds a hash the secret matches and the reissue succeeds, whatever the client address |
| `Rotation.RotateReissues` | internal/app/api/service.go:76-81 | a successful rotation is an issuance for the token's user at the current address, and the presented secret matched the stored hash; afterwards the presented secret no longer matches, given a new secret |
| `Rotation.SecretIsSingleUse` | internal/app/api/service.go:71-81 | after a rotation that stored a new secret, presenting the old secret again with any token of that user fails with `InvalidRefreshToken` and writes nothing |
| `Rotation.IssueThenRotate` | internal/app/api/service.go:30-81 | rotating a freshly issued pair from the same address while its token is accepted succeeds with no warning and a new secret, and adds no row; replaying the first pair then fails without a write, with `InvalidRefreshToken` while the token is still accepted |
| `Rotation.SameSecondSameAccessToken` | internal/app/api/service.go:84-95 | two issuances for the same user and address in the same second produce the same access token |
| `Rotation.StringKeyRefused` | internal/app/api/service.go:54-96 | if the signer refuses the key given as a string, issuing and rotating always fail and never write |

## Left out

- The HTTP handler (internal/app/http/handler.go) and the program start-up (cmd/main.go) are transport and bootstrap code. They are not part of this model.
- The JWT and bcrypt internals are not modelled. HMAC-SHA512, the bcrypt algorithm at `bcrypt.DefaultCost` and `crypto/rand` are abstract functions, and their laws are hypotheses of the lemmas that need them.
- Expiry is not modelled during rotation. Parsing is given the moment of the call, and validity is the library's `valid` flag at that moment. The model asserts neither that expiry is checked nor that it is skipped.
- SQL text, the pgx pool and `context.Background()` are not modelled. Only the table's map semantics are, and a database failure is an input.
- The warning's `fmt.Printf` output is not modelled. Only the fact that a warning was sent, and for whom, is logged.
- Concurrency is not modelled. Two rotations racing for the same user are outside a sequential model.
- Api.AuthService.RefreshToken: the JWT library reads the clock itself while parsing; the model gives parsing the same instant (`Draw.now`) that the reissued token's claims use.
- Api.CreateAccessToken: the source calls `time.Now()` twice, once for the expiry and once for the issue time. The model reads the clock once, so the two times are always exactly 30 minutes apart.
- Api.CreateAccessToken: the claims are stated only for a token that parses under a signer obeying `SignatureSound`. The library's behaviour is not part of this model.
- Rotation.IssueThenRotate: the new access token is not shown to differ from the old one. Signing is deterministic, so within the same second it does not (see `Rotation.SameSecondSameAccessToken`).
- Errors are not sorted into categories. The service passes library and database errors through unchanged, so the model carries them as values rather than as a fixed list of failure kinds.
