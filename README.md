# task-api: a Dafny model of the authentication gate and the ownership-scoped task handlers

The task service is a small REST API written in Go. Users register and log in. Login hands
out an HS256-signed JSON Web Token whose subject is the user id. Every `/api` route sits
behind `AuthMiddleware`, which checks a `Bearer` token and puts the user id into the request
context. The task handlers then read and write only the rows whose `user_id` is that id.
Settings come from environment variables, each with a default.

The model has six modules:

- `Numeric` (numeric.dfy): the Go conversions the code relies on, for 64-bit Go.
  These are `strconv.Atoi`, `strconv.ParseUint(s, 10, 64)`, `fmt.Sprint` of a `uint`,
  and int64 wrap-around. Round trips between them are proved.
- `Jwt` (jwt.dfy): the claims Login signs (`sub`, `iat`, `exp` of RFC 7519).
  It also defines what parsing a token string reports.
- `Middleware` (middleware.dfy): `AuthMiddleware` as the pure function `Authorize`.
  `Authorize` checks the header prefix. `Judge` decides on the verification result.
- `Configuration` (configuration.dfy): `getEnv` over an environment map.
  `LoadConfig` is a method of the `Process` class, which holds the global `AppConfig`.
  The function `ConfigFrom` gives the configuration it builds.
- `Handlers` (handlers.dfy): the shared `DB` as a `Database` class.
  It holds a users table and a tasks table (maps from primary key to row) and the sequences that number them.
  Each handler is a method returning a `Response` (status code and JSON body).
  `Serve` runs the gate before a protected route's handler.
  The module also has the token-expiry arithmetic of Login.
- `Wrappers` (wrappers.dfy): `Option`.

Collaborators the code cannot see are parameters:
- the JSON binder's outcome: `None` when binding fails;
- bcrypt's digest of the new password: `None` when hashing fails;
- bcrypt's comparison: a function `matches(digest, password)`;
- HS256 signing: a function `sign(claims, secret)`;
- `jwt.ParseWithClaims`: a function `verify(token, secret)` giving a `Verification` for the current instant;
- `time.Now`: `now`, in whole Unix seconds;
- the request context: an `Option<nat>` user id.
- the global `AppConfig`: Login's `cfg` parameter, and `Serve`'s `secret` for the gate's JWT secret. Both are meant to be what `Process.LoadConfig` stored in `appConfig`. Nothing in the model ties them to that field.

Behaviour worth noting (the model follows the code):
- A token lifetime of 0 is replaced by 24 hours. Any other value, negative ones included, goes into the Duration product unchanged. A negative lifetime down to -2,562,047 hours makes a token that has already expired. Beyond ±2,562,047 hours the int64 Duration product wraps: +2,562,048 hours gives a token that expired about 292 years ago, and -2,562,048 hours one that stays valid for about 292 years.
- The default database name is `GoProject2`.
- `UpdateTask` sets the status to `false` whenever the request leaves it out.

## Model

| member | source | states |
|---|---|---|
| Numeric.FormatUint | internal/server/handlers.go:51 | `fmt.Sprint` of a user id is a non-empty string of digits with no leading zero (except for 0 itself). It is one character long exactly when the id is below 10. |
| Numeric.ParseUint | internal/server/middleware.go:37 | It accepts only a non-empty all-digit string whose value is at most 2^64-1. A leading `+` or `-` is always refused. |
| Numeric.Atoi | internal/server/handlers.go:164 | An accepted value lies in the int64 range. An accepted string is digits after an optional sign, with at least one digit. |
| Numeric.Wrap64 | internal/server/handlers.go:53 | The int64 product lies in range and is congruent to the exact product modulo 2^64. It equals the exact product when that fits. |
| Numeric.ValueOfFormatUint | internal/server/handlers.go:51 | The decimal form `fmt.Sprint` writes denotes the number it was written from. |
| Numeric.FormatUintValueOf | internal/server/middleware.go:37 | A canonical digit string is exactly what `fmt.Sprint` writes for its value. |
| Numeric.ParseUintFormatUint | internal/server/middleware.go:37 | `ParseUint(Sprint(n))` is `n` exactly when `n` fits in 64 bits. Otherwise it is refused. |
| Numeric.ParseUintCanonical | internal/server/middleware.go:37 | A canonical subject that `ParseUint` accepts is reproduced exactly by `Sprint` of the result. |
| Numeric.AtoiFormatInt | internal/server/config.go:44 | `Atoi` reads back every int64, zero and negatives included, from its decimal form. |
| Numeric.AtoiPlusSign | internal/server/handlers.go:164 | `Atoi` accepts a leading `+` on a non-negative int64. |
| Numeric.AtoiSignedDigits | internal/server/handlers.go:164 | An optional `+` or `-` followed by any non-empty digit run is read as the signed value of the digits when that lies in the int64 range, and refused otherwise. |
| Numeric.AtoiLeadingZeros | internal/server/handlers.go:164 | `Atoi` accepts an optional `+` or `-`, any number of leading zeros and then a decimal number, and reads it as the signed number when that fits in int64: "007" is 7, "-007" is -7, "+024" is 24. |
| Numeric.AtoiRejectsOverflow | internal/server/config.go:44 | A well-formed decimal outside the int64 range is refused. |
| Middleware.HasPrefix | internal/server/middleware.go:16 | `strings.HasPrefix`: true exactly when the header is the prefix followed by some rest. |
| Middleware.TrimPrefix | internal/server/middleware.go:20 | With the prefix present, prefix + result is the header. Without it, the header comes back unchanged. |
| Middleware.Judge | internal/server/middleware.go:21-43 | "invalid token" exactly when the string is unparsable, not HS256 or not valid. "invalid token claims" exactly for an empty subject. "invalid subject in token" exactly when `ParseUint` refuses the subject. Conversely, a valid HS256 token whose subject `ParseUint` accepts is always admitted as exactly that id, a 64-bit one. Every rejection is 401. |
| Middleware.Authorize | internal/server/middleware.go:15-43 | 401 "authorization required" exactly when the header does not start with "Bearer ". Otherwise the decision is `Judge` of the oracle's verdict on the header minus its first 7 characters. |
| Middleware.TokenIsRestOfHeader | internal/server/middleware.go:20-27 | For any token text t, the header "Bearer " + t is decided on t verbatim. Only one "Bearer " comes off. |
| Middleware.RejectsMalformedSubject | internal/server/middleware.go:37-41 | A sign, a non-digit character or a value above 2^64-1 in the subject of a valid HS256 token gives 401 "invalid subject in token". |
| Middleware.AcceptsDecimalSubject | internal/server/middleware.go:37-43 | A valid HS256 token whose subject is `Sprint(n)`, for a 64-bit `n`, admits user `n`. |
| Middleware.AcceptsLeadingZeros | internal/server/middleware.go:37 | A subject with leading zeros before the decimal form of n is accepted as n. |
| Configuration.GetEnv | internal/server/config.go:56-61 | A key that is present gives its value, even when the value is empty. The fallback comes back only when the key is absent. |
| Configuration.ExpHoursFrom | internal/server/config.go:43-51 | JWTExpHrs is always an int64. Any value other than the fallback 24 is exactly what `Atoi` reads from a JWT_EXP_HOURS that is set. |
| Configuration.ConfigFrom | internal/server/config.go:31-51 | Each of the eight string settings is the variable's value when it is set (even to "") and its default when it is not: 8080, development, localhost, 5432, postgres, "", GoProject2, change-this. JWTExpHrs is the lifetime setting. |
| Configuration.DefaultsWhenUnset | internal/server/config.go:31-51 | With none of the nine variables set, the configuration is "8080", "development", "localhost", "5432", "postgres", "", "GoProject2", "change-this" and 24 hours. |
| Configuration.ExpHoursParsed | internal/server/config.go:43-45 | Whenever `Atoi` accepts JWT_EXP_HOURS, JWTExpHrs is its value. |
| Configuration.ExpHoursAnyInt64 | internal/server/config.go:43-45 | JWT_EXP_HOURS set to the decimal form of any int64 yields exactly that number, 0 and negatives included. |
| Configuration.ExpHoursFallback | internal/server/config.go:43-51 | A JWT_EXP_HOURS that `Atoi` refuses, the empty string included, gives 24. |
| Configuration.ExpHoursUnset | internal/server/config.go:43 | An absent JWT_EXP_HOURS gives 24 through its fallback "24". |
| Configuration.Process.constructor | internal/server/config.go:25 | Before LoadConfig runs, AppConfig is Go's zero Config: every string empty and JWTExpHrs 0. |
| Configuration.Process.LoadConfig | internal/server/config.go:27-54 | The returned configuration is `ConfigFrom(environ)`, and the global AppConfig equals it afterwards. |
| Handlers.StatusOrDefault | internal/server/handlers.go:123-128 | The stored status is true exactly when the request supplied `true`. An omitted status is false. |
| Handlers.FindOwned | internal/server/handlers.go:169 | The primary-key lookup finds a row exactly when some row has that id and that owner, and then returns that row. |
| Handlers.FindOwnedSeesOwnRows | internal/server/handlers.go:169 | Two tables that agree on the caller's rows give the same lookup result. Another user's rows cannot influence it. |
| Handlers.ForeignTaskLooksAbsent | internal/server/handlers.go:169-174 | A task owned by another user gives the same "not found" as a table without it. |
| Handlers.EffectiveExpHours | internal/server/handlers.go:46-49 | A configured 0 becomes 24. Any non-zero configured value, negative included, is kept. The result is never 0. |
| Handlers.IssueClaims | internal/server/handlers.go:46-54 | The subject is the decimal user id and the issue time is now. When the effective lifetime fits the Duration range, expiry is now + 3600 × lifetime. A configured 0 expires 24 hours after issue. |
| Handlers.ExpiresAt | internal/server/handlers.go:53 | For an hour count whose Duration fits in int64, expiry is now + 3600 × hours. For any hour count the expiry lies within the roughly ±292 years an int64 of nanoseconds spans around now. |
| Handlers.ExpiryWrapsAround | internal/server/handlers.go:53 | One hour past that range, the Duration product wraps, and the expiry lies about 292 years before now. |
| Handlers.NegativeExpiryWrapsAround | internal/server/handlers.go:53 | One hour below the Duration range the product wraps positive, and a token with a negative lifetime stays valid for about 292 years. |
| Handlers.DefaultLifetime | internal/server/handlers.go:46-53 | With JWT_EXP_HOURS unset, or set to anything `Atoi` reads as 0, a token expires 24 hours after issue. |
| Handlers.ZeroSpellings | internal/server/handlers.go:46-47 | "0", "00", "+0" and "-0" all read as 0 and so reach the 24-hour rule. |
| Handlers.IssuedTokenAdmitsUser | internal/server/handlers.go:50-56 | A token Login signed for a 64-bit user id, verified as valid HS256 with its signed subject, is admitted by the gate as exactly that user. |
| Handlers.Database.constructor | internal/server/database.go:21-29 | A freshly migrated database: both tables empty, both sequences at 1, and the table invariants hold. |
| Handlers.Database.Register | internal/server/handlers.go:65-91 | A binding failure is 400 with the binder's text, and a hash failure is 400 "couldn't hash password"; neither changes the tables. A taken email is 400 with the store's text and no new row. Otherwise one user row is added under a fresh id, storing the digest, and the answer is 200 with id, username and email. The email stays unique and the tasks are untouched. |
| Handlers.Database.Login | internal/server/handlers.go:31-63 | Binding failure: 400. Unknown email: 400 "wrong Email address". Digest mismatch: 400 "wrong Password". Signing failure: 500 "could not create token". Otherwise 200 with the token signed over the user's claims. A 200 always means a user with that email whose digest matches the password. |
| Handlers.Database.Me | internal/server/handlers.go:93-110 | A missing context id is 500 "user id missing in context". An unknown id is 404 "user not found". Otherwise 200 with the caller's id, username and email; no digest is returned. |
| Handlers.Database.CreateTask | internal/server/handlers.go:112-141 | Binding is checked before the context id (400, then 401 "user not found"), and both failures leave the table unchanged. On success one row is added under a fresh id, owned by the context id, with the given description and the status or false. No existing row changes. |
| Handlers.Database.ListTasks | internal/server/handlers.go:142-155 | A missing context id is 401. Otherwise 200 with exactly the rows whose owner is the caller. The table is not modified. |
| Handlers.Database.GetTask | internal/server/handlers.go:156-179 | Checks run in this order: context id (401), then an id `Atoi` refuses (400 "invalid task id"), then no row with that id and owner (404 "task not found"). Otherwise 200 with that row, which belongs to the caller. |
| Handlers.Database.UpdateTask | internal/server/handlers.go:181-221 | Checks run in this order: binding (400), task id (400), context id (401), row with that id and owner (404). Each failure leaves the table unchanged. On success only that row changes: its description is overwritten, its status becomes the given one or false, and its id and owner stay. |
| Handlers.Database.DeleteTask | internal/server/handlers.go:222-244 | Checks run in this order: context id (401), then task id (400). Then only the caller's row with that id is removed, if there is one. The answer is 200 "task deleted" even when nothing matched. |
| Handlers.Database.Serve | internal/server/router.go:17-26 | On every path the users table and the user sequence are unchanged. When the gate rejects, the answer is its 401 and message, and no table or sequence changes, so the handler never ran. When it accepts, the route's handler runs with the gate's user id. Me gives that user's profile or 404. ListTasks gives exactly that user's rows. GetTask gives 400, 404 or that user's row. CreateTask adds a row owned by that user under the next id. UpdateTask and DeleteTask change or remove only that user's row with the given id. The 401 and 500 missing-context answers never occur. No other user's task row appears, vanishes or changes. |
| Handlers.RegisterThenLogin | internal/server/handlers.go:31-91 | A fresh email registers under the next id. Logging in with the same password, when the digest matches it, answers 200 with the token signed for that id's claims. |

## Left out

- HTTP plumbing is left out: gin routing, JSON decoding and the `binding` validators (`required`, `email`, `min=6`). Binding success or failure is an input. The route table appears only as the `Route` datatype that `Serve` dispatches on.
- bcrypt hashing and comparison, and HMAC-SHA256 signing and verification, are cryptography; they are parameters. Their correctness, `matches(hash(p), p)`, is a premise of `RegisterThenLogin` and not an axiom.
- Token parsing, signature checking and the expiry check of `jwt.ParseWithClaims` happen inside the `verify` function. What the model sees is its `Verification` for one fixed instant.
- The Postgres connection, migrations and the unique index on email (database.go) are left out. The index shows up only as Register's duplicate-email refusal.
- A failed insert in Register still advances the user sequence, as a Postgres sequence does. Soft deletion (if `Task` embeds `gorm.Model`) is not modelled; it would make no difference to what these handlers return.
- The store is assumed not to fail. Its generic error branches are not modelled: handlers.go:134-136, 150-152, 175, 204, 214-216 and 235-241. The branches at 175, 204 and 240 would panic on a nil error and answer 500 through gin's recovery. handlers.go:235-241 is DeleteTask's failed delete; its 404 "task not found" at 236-238 is the only 404 DeleteTask can give, so the model's DeleteTask never answers 404.
- `godotenv.Load`, `os.LookupEnv` and process start-up in cmd/server/main.go are process I/O. The environment is a map.
- Concurrency: each request runs alone; isolation between concurrent requests belongs to the store.
- Handlers.Database.ListTasks: the JSON list becomes a set. The order gorm returns the rows in is not modelled.
- Handlers.Database.Login: `time.Now` is read twice in the source (issue and expiry) but once in the model. Instants are in whole seconds, so the sub-second part that `jwt.NewNumericDate` truncates is not represented.
- `uidVal.(uint)` type assertions: the context value is always the gate's `uint`, so the context is an `Option<nat>`. A value of another type, which would panic, is not modelled.
