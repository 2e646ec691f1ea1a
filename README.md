# auth-ms: a Dafny model of the auth orchestrator

This project models the authentication microservice's `AuthService`. The
service registers users, logs them in and verifies session tokens. Its state
is a user table keyed by email. A user row holds `id`, `email`, `name` and a
bcrypt hash in `password`. Every operation runs inside a `try`. Its `catch`
turns whatever was thrown into a structured `{status, message}` error:

- `registerUser` and `loginUser` answer 400 with the thrown error's message.
  A NestJS `RpcException({status, message})` exposes its object's `message`,
  so the rewrap keeps the inner message.
- `verifyToken` always answers 401 "Invalid token".

Files:

- `wrappers.dfy` (module `Wrappers`): `Option`, and `Outcome` (a value, or a
  thrown error carrying its `message`).
- `tokens.dfy` (module `Tokens`): claim sets as maps of JSON values.
  `Omit` is object-rest destructuring. `TokenService` pairs a `sign` and a
  `verify` function supplied from outside. `RoundTrip` is the one assumption
  made about them: verifying a signed claim set gives back the same claims
  plus `iat` and `exp`.
- `bcrypt.dfy` (module `Bcrypt`): a hash is `"$2b$" + cost + "$" + salt +
  digest`.
  - The digest covers only the password's `Key`, its first 72 characters.
  - `Compare` reads the cost and salt back out of the hash and recomputes the
    digest. It accepts the `$2b$` tag that `hashSync` writes and the older
    `$2a$` tag. A hash with another tag, or a cost field that is not two
    digits naming at most 31, compares false.
  - The digest function is supplied from outside. The salt bcrypt would draw
    at random is a parameter.
- `auth.dfy` (modules `Auth` and `Scenario`):
  - `Config` holds the collaborators: the token service and the hasher.
  - `Store` is the database as a value: the table and `nextId`, the
    identifier the store assigns next. `ValidStore` is its invariant.
  - `FindUnique`, `SignJWT` and `Register` are functions over these values.
    `Register` states in full what `registerUser` does.
  - `CatchAsBadRequest` is the `catch` of `registerUser` and `loginUser`.
  - Class `AuthService` holds `users`, `nextId` and `config`. It also holds
    `outage`, which the environment sets while the database is unreachable.
    Every store call then throws that message.
  - The method `RegisterUser` calls `FindUnique` and then the method
    `Create`. It is proved to agree with `Register` on the object's state.
  - `LoginUser` is a function that reads the table. `VerifyToken` reads no
    table state. Being functions, neither can write.
  - `Serve` and `Replay` serve a sequence of requests one after another.
    Each request carries the outage in force while it is served. The
    `Replay…` lemmas are proved by induction over that sequence.
  - In `Serve`, a login or a verification leaves the store as it was. This
    mirrors the fact that `LoginUser` and `VerifyToken` are functions.
  - `Scenario` is a client that registers, logs in and re-registers.

The invariant `ValidStore` says three things: every row sits under its own
email, every identifier is below `nextId`, and identifiers are distinct. `RegisterUser` preserves it as `Valid()`, and
so does any sequence of requests (`ReplayKeepsValid`).
`ValidHasUniqueEmails` derives from it that no two rows share an email.

Email uniqueness comes from the table being keyed by email. Without the
duplicate pre-check (src/auth/auth.service.ts:38-43), `create` would refuse
the taken email with the store's unique-constraint error (`EmailTaken`). So
the pre-check decides the message: "User already exist". `Register`'s own
map update has no check of its own, so there the pre-check is what keeps
every old row, and so does any sequence of requests (`ReplayKeepsRows`).

## Model

| member | source | states |
|---|---|---|
| `Tokens.Omit` | src/auth/auth.service.ts:101 | the rest object has exactly the input's fields minus the destructured ones, with unchanged values |
| `Tokens.VerifySigned` | src/auth/auth.service.ts:101-103 | under the sign/verify round trip, verifying a signed claim set succeeds and dropping `sub`/`iat`/`exp` gives back exactly the signed claims |
| `Bcrypt.Key` | src/auth/auth.service.ts:45 | the part of a password bcrypt reads is its first 72 characters: a prefix of exactly `min(length, 72)` characters, the whole password when it fits |
| `Bcrypt.Compare` | src/auth/auth.service.ts:75 | `bcrypt.compare` accepts only a hash laid out as `$2b$` or `$2a$`, a two-digit cost of at most 31, `$`, salt and digest |
| `Bcrypt.BadCostRejected` | src/auth/auth.service.ts:75 | a hash whose cost field is not a number (`xx`) or is above 31 (`32`) compares false, whatever its digest |
| `Bcrypt.LegacySchemeCompares` | src/auth/auth.service.ts:75 | a stored hash under the older `$2a$` tag accepts the password it was made from, as a `$2b$` one does |
| `Bcrypt.HashSync` | src/auth/auth.service.ts:45 | `hashSync(p, 10)` yields a hash that `compare` accepts for `p`, with scheme `$2b$`, cost `10` and the drawn salt embedded |
| `Bcrypt.CompareOnlyOriginal` | src/auth/auth.service.ts:75 | with a collision-free digest of keys, `compare(q, hashSync(p))` holds if and only if `q` and `p` agree on their first 72 characters |
| `Bcrypt.CompareIgnoresTail` | src/auth/auth.service.ts:75 | whatever the digest, a hash of a password of 72 or more characters accepts that password with anything appended |
| `Bcrypt.SaltedHashesDiffer` | src/auth/auth.service.ts:45 | one password hashed under two different salts gives two different hashes |
| `Auth.SafeView` | src/auth/auth.service.ts:46 | the row minus `password` has exactly the fields `id`, `email` and `name`, carrying the row's values, and no registered claim |
| `Auth.CatchAsBadRequest` | src/auth/auth.service.ts:51-56 | the `catch` fails if and only if the `try` threw, and then with 400 and the thrown message; a completed `try` passes its user and token through |
| `Auth.SignJWT` | src/auth/auth.service.ts:26-28 | under the round trip, the token signed for a payload without registered claims verifies back to that payload |
| `Auth.FindUnique` | src/auth/auth.service.ts:33-37 | lookup by email: throws the outage message while the store is down, otherwise finds a row if and only if the email is in the table, and in a valid store that row carries the email |
| `Auth.Register` | src/auth/auth.service.ts:30-57 | a store fault fails with 400 and its message; a taken email fails with 400 "User already exist"; every failure leaves the store unchanged; a free email adds exactly one row, with the next identifier, the input email and name and a hash that compares with the password; every old row is kept; success returns the new row's safe view and `Sign` of exactly that view; a valid store stays valid |
| `Auth.AuthService.constructor` | src/auth/auth.service.ts:17-19 | a new service works over the given valid table and holds the given collaborators |
| `Auth.AuthService.Create` | src/auth/auth.service.ts:45 | adds one row with the next identifier under a free email; throws, with the table unchanged, when the store is down or the email is taken; keeps `Valid()` |
| `Auth.AuthService.RegisterUser` | src/auth/auth.service.ts:30-57 | the lookup-then-create sequence leaves the object in the state `Register` gives and answers what it answers; afterwards `LoginUser` with the same credentials returns the same result, and under the round trip `VerifyToken` of the token gives it back; `Valid()` is preserved |
| `Auth.AuthService.LoginUser` | src/auth/auth.service.ts:59-96 | every failure is a 400; a store fault carries its message; an unknown email gives "User/Password invalidate credentials"; a password that does not compare gives "Password not valid"; it succeeds if and only if the email is present and the password compares, returning the row's safe view and `Sign` of it; it cannot write |
| `Auth.AuthService.VerifyToken` | src/auth/auth.service.ts:98-117 | fails if and only if verification fails, and then always with 401 "Invalid token"; otherwise returns the verified claims minus `sub`, `iat` and `exp`, and `Sign` of exactly that remainder; it reads no table state |
| `Auth.Serve` | src/auth/auth.service.ts:30-117 | serving one request keeps a valid store valid; a login or a verification leaves the store as it was |
| `Auth.ValidHasUniqueEmails` | src/auth/auth.service.ts:33-45 | in a valid store no two rows share an email |
| `Auth.ReplayKeepsValid` | src/auth/auth.service.ts:33-45 | after any sequence of requests, under any outages, a valid store is still valid, so no two rows share an email |
| `Auth.ReplayKeepsRows` | src/auth/auth.service.ts:38-45 | no sequence of requests changes or removes an existing row |
| `Auth.ReplayCountsRows` | src/auth/auth.service.ts:45 | over any sequence of requests, the number of rows added equals the number of identifiers handed out |
| `Auth.ReadOnlyReplay` | src/auth/auth.service.ts:59-117 | a sequence of logins and verifications leaves the store exactly as it was: only registration writes |
| `Auth.VerifySafeView` | src/auth/auth.service.ts:46-50 | a token issued for a user's safe view passes `verifyToken`, which returns that view and the same token |
| `Auth.LoginTokenVerifies` | src/auth/auth.service.ts:84-88 | the token of a successful login passes `verifyToken` with the same user view |
| `Auth.VerifyRenews` | src/auth/auth.service.ts:101-108 | the token that `verifyToken` reissues verifies again, to the same user view |
| `Auth.LoginChecksPasswordKey` | src/auth/auth.service.ts:75-82 | with a collision-free digest of keys, a row hashed from `p` logs in for exactly the passwords whose first 72 characters are those of `p`, and refuses every other with 400 "Password not valid" |
| `Auth.LoginAcceptsLongerPassword` | src/auth/auth.service.ts:75-88 | whatever the digest, a row hashed from a password of 72 or more characters logs in with that password followed by anything |
| `Scenario.RegisterLoginRegister` | src/auth/auth.service.ts:30-96 | on a new, empty service, registering Ana succeeds with the view `{id, email, name}`; a wrong password is refused; the right password returns the registration's result; registering the same email again fails with "User already exist" |

## Left out

- `src/main.ts` is not part of this model. It holds the NestJS bootstrap, the NATS transport, the validation pipe and logging.
- `onModuleInit`, `$connect` and the `Logger` are not modelled. They are database connection and logging, which are I/O.
- Prisma inheritance is replaced by the owned `users` map. The constructor takes the table already in the database.
- The database schema is not part of this model. The email is taken to be a unique field because `findUnique` is called on it. `EmailTaken` stands for Prisma's unique-constraint message.
- The store assigns identifiers from a counter (`nextId`), stored as a number. These stand for the database's own opaque identifiers.
- Races between `findUnique` and `create` are not modelled, because the model is sequential. `async`/`await` is treated as synchronous.
- DTO validation and the `JWTPayload` type are not part of this model. Claims are a generic map of fields.
- The bcrypt digest, its cost-factor arithmetic and salt generation are not modelled. The digest is a supplied function and the salt is a parameter.
- Bcrypt.Compare: rejects the tag `$2$`, which has no minor letter. bcrypt also accepts it; with one character fewer in the tag, its cost and salt sit at other offsets.
- Bcrypt.Key: counts characters. bcrypt cuts the UTF-8 encoding of the password at 72 bytes. The two agree only for passwords made of one-byte (ASCII) characters.
- Bcrypt.CompareOnlyOriginal: assumes the digest never collides for two distinct keys of at most 72 characters, under any one cost and salt. The real digest has a fixed-size output, so such collisions exist but are not expected to be found.
- Auth.LoginChecksPasswordKey: rests on the same collision-free assumption.
- JWT signing internals are not modelled: the HMAC, the encoding and the clock.
- `RoundTrip` assumes that the secret the JWT module signs with (`signJWT`, src/auth/auth.service.ts:27) is the same as `envs.jwtSecret`, which `verify` is given at :102.
- `sign` is a supplied function without a clock, so the token `verifyToken` reissues carries no new timestamp. For a token the service issued itself (a signed safe view), the reissued token is the one it was given (`VerifySafeView`). For any other token that verifies, for instance one carrying `sub`, it is `sign` of the claims minus `sub`, `iat` and `exp`.
- `verify` answers `None` for every kind of failure, so expiry is one of the ways `verify` can fail, with no clock of its own.
- Exceptions thrown by `hashSync` itself, or by `jwtService.sign`, are not modelled; both are total functions here. So `Register`'s "every failure leaves the store unchanged" relies on `sign` being total. In the source, a throw from `signJWT` at :49 comes after `create` at :45: it answers 400 and the new row stays. A store fault is modelled as the `outage` in force for the whole of one call.
- An unknown email fails with "User/Password invalidate credentials" (src/auth/auth.service.ts:71) and a wrong password with "Password not valid" (:80); the model keeps both messages.
