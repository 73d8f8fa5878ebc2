# go-bank: a Dafny model of the authenticated transfer path

This project models the core of go-bank, a small Go account service: the
account record and request payloads (`types.go`), the account table with its
transactional, retried transfer (`storage.go`), and the authorization gate and
HTTP handlers that sit in front of it (`api.go`).

- `wrappers.dfy` — `Option`, `Result`, `Outcome`.
- `types.dfy` (module `Types`) — `Account`, its password-free JSON view, the
  payloads and their `GetAccountNumber`, `NewAccount`, and Go's `int64`/`uint64`
  with explicit unsigned wrap-around.
- `storage.dfy` (module `Storage`) — the `account` table as the class
  `PostgressStore` holding a `seq<Row>` in insertion order plus the id
  sequence. `Row` has no role column and nothing makes `number` unique. Lookups
  return the first matching row. `TransferMoney` runs one transaction per attempt
  on a private copy of the table and publishes it only on commit. It makes at most
  1 + 3 attempts.
- `http.dfy` (module `Http`) — a response writer on which only the first
  status written counts and every body is appended, and `makeHttpHandleFunc`.
- `params.dfy` (module `Params`) — the `{id}` path parameter and `strconv.Atoi`.
- `auth.dfy` (module `Auth`) — claims, `getClaimsMap`/`jwtAuthMiddleware`,
  `decodeAndValidateRequest`, and the claims `createJwt` signs.
- `api.dfy` (module `Api`) — the handlers as methods of `ApiServer` over the
  store, and two routes (`/login`, `/transfer`) as the router composes them.

Outside influences are parameters:
- bcrypt becomes `hash` and `matches`.
- JWT signing and validation become `sign` and `validate`.
- `rand.Intn(10000)` becomes `draw`, and the clock becomes `now`.
- Driver errors become `dbFaults`: the k-th query of a request fails.
- Per-attempt transaction faults become `txFaults`.
- Whether the retry library retries the closure's errors becomes `retryable`.

Where one might expect otherwise, the model follows the code:
- Admins get no bypass of the account-number check.
- A missing role claim becomes "user".
- The expiry is stored under `expiresAt` and never checked.
- Account numbers are random in [0, 10000) and may collide.
- Role is not stored, so login tokens carry role "" and never pass the admin scope.
- The funds check happens in the handler, before and outside the transaction.
- A transfer whose source and destination numbers are equal is not rejected. The
  second write wins, which credits `amount` to that account.

## Model

| member | source | states |
|---|---|---|
| `Types.WrapSub` | storage.go:122 | the source balance write is unsigned: exact when balance >= amount, otherwise wraps by 2^64 |
| `Types.WrapAdd` | storage.go:130 | the destination balance write is unsigned: exact below 2^64, otherwise wraps |
| `Types.View` | types.go:50-59 | the JSON form of an account: every field except the `json:"-"` password hash (partner: `ViewOmitsOnlyPassword`) |
| `Types.TransferRequest.GetAccountNumber` | types.go:20-22 | a transfer acts for its source account `from_number` |
| `Types.DeleteAccountRequest.GetAccountNumber` | types.go:28-30 | a delete acts for `admin_account` |
| `Types.GetAccountRequest.GetAccountNumber` | types.go:36-38 | a read acts for `number` |
| `Types.CreateAccountRequest.GetAccountNumber` | types.go:74-76 | a create acts for `admin_account` |
| `Types.HttpRequest.GetAccountNumber` | types.go:20-38 | the `HttpRequest` interface dispatches to the payload's own method (partners: the `Auth.*Gate*` lemmas) |
| `Types.ViewOmitsOnlyPassword` | types.go:50-59 | the JSON view of an account ignores the password hash and loses no other field (both directions) |
| `Types.NewAccount` | types.go:78-93 | fails exactly when hashing fails; otherwise copies names, role and balance, stores the hash, leaves id 0, numbers in [0, 10000) |
| `Types.NewAccountNumbersMayCollide` | types.go:87 | two different accounts get the same number when the draws agree: no uniqueness |
| `Storage.InsertedRow` | storage.go:63-72 | the columns an INSERT writes for an account under the assigned id, with no role column (partner: `ScanIntoAccount`) |
| `Storage.ScanIntoAccount` | storage.go:200-212 | every column is read into its field (lossless on the columns) and the role is always empty |
| `Storage.ReadBackLosesRole` | storage.go:63-72 | an inserted account reads back with its new id and role "", so a non-empty role is lost |
| `Storage.FirstMatch` | storage.go:158-160 | the index found matches and no earlier row matches; None means no row matches |
| `Storage.Lookup` | storage.go:152-163 | a lookup succeeds exactly when some row matches; otherwise it is the not-found error |
| `Storage.Query` | storage.go:152-156 | a query the driver fails returns its error before any row is read, otherwise it is the lookup |
| `Storage.LookupFindsMatch` | storage.go:158-159 | a found account is a row of the table that matches the key, with role "" |
| `Storage.ScanAll` | storage.go:186-197 | the account list has one entry per row, in order, each the scanned row |
| `Storage.WithoutId` | storage.go:78 | the surviving rows are exactly those whose id differs; nothing changes when no id matches |
| `Storage.SetBalanceWhere` | storage.go:123-125 | every row with the number gets the balance, every other row is unchanged |
| `Storage.TransferredRows` | storage.go:122-135 | the committed table: rows numbered like the source get its snapshot minus amount, then rows numbered like the destination get its snapshot plus amount (partners: the transfer lemmas below) |
| `Storage.TransferChangesOnlyBalances` | storage.go:122-135 | a transfer changes no id, name, number, hash or timestamp |
| `Storage.TransferConservesPairSum` | storage.go:122-135 | for distinct numbers and no wrap, the source reads back as snapshot - amount, the destination as snapshot + amount, and their sum is the snapshots' sum |
| `Storage.TransferDebitsSource` | storage.go:122-125 | for distinct numbers and enough funds, the source reads back as its snapshot minus amount, whatever the destination holds |
| `Storage.UncheckedTransferWraps` | storage.go:122 | without funds the Go subtraction computes balance - amount + 2^64, and that is what the model writes; the real driver refuses it when the shortfall is at most 2^63 (the value then has the high bit set, see Left out), while a larger shortfall wraps to a value that fits BIGINT, and the transfer then commits as in the model only when the destination value, after wrapping, is also below 2^63 |
| `Storage.SelfTransferSecondWriteWins` | storage.go:130-135 | with equal numbers the account ends at the destination snapshot plus amount |
| `Storage.TransferConservesTotal` | storage.go:106-145 | with each number on one row, matching snapshots and no wrap, the table's total balance is unchanged |
| `Storage.WithoutIdKeepsIdsFresh` | storage.go:51 | deleting keeps ids positive, below the sequence and distinct |
| `Storage.WithoutIdRemovesOne` | storage.go:77-93 | deleting an existing id removes exactly one row |
| `Storage.DeleteThenLookupFails` | storage_test.go:34-37 | after deleting the only row with a number, a lookup by that number fails |
| `Storage.AttemptBound` | storage.go:106 | the retry loop runs between 1 and 1 + 3 attempts |
| `Storage.PostgressStore.constructor` | storage.go:49-61 | a new table is empty and its id sequence starts at 1 |
| `Storage.PostgressStore.CreateAccount` | storage.go:63-75 | appends the account's columns under the next id and returns the account with that id; a driver error changes nothing |
| `Storage.PostgressStore.DeleteAccount` | storage.go:77-93 | removes the one row with the id; no such row gives "could not delete" and no change |
| `Storage.PostgressStore.UpdateAccount` | storage.go:95-97 | always succeeds and changes nothing |
| `Storage.PostgressStore.Attempt` | storage.go:107-144 | a faulted step leaves the table unchanged (rollback); an unfaulted attempt commits both writes together |
| `Storage.PostgressStore.TransferMoney` | storage.go:99-150 | commits iff some attempt within the bound meets no fault, writing both balances from the snapshots; every earlier attempt met a fault; otherwise the table is unchanged and the last cause is wrapped as "transfer failed after retries" |
| `Storage.PostgressStore.FindFirst` | storage.go:158-162 | returns the first matching row as an account, or not-found |
| `Storage.PostgressStore.GetAccountByNumber` | storage.go:152-163 | a driver error, else the first row with the number, else not-found |
| `Storage.PostgressStore.GetAccountById` | storage.go:165-177 | a driver error, else the first row with the id, else not-found |
| `Storage.PostgressStore.GetAccounts` | storage.go:179-198 | a driver error, else every row scanned, in order |
| `Http.ResponseWriter.WriteJson` | api.go:244-248 | a status is set only if none was set, and the body is appended (partner: `FirstStatusWins`) |
| `Http.FirstStatusWins` | api.go:244-248 | a second WriteJson keeps the first status and appends its body |
| `Http.MakeHttpHandleFunc` | api.go:337-344 | a handler error is written as JSON and yields 400 unless the handler already set a status |
| `Params.GetParameter` | api.go:346-354 | the path variable if the route has it, otherwise an error |
| `Params.Atoi` | api.go:193 | a parsed string is an optional sign followed by one or more decimal digits and its value is the digits' value, negated after a '-'; every such string whose value fits in int64 parses |
| `Params.AtoiItoa` | api.go:193 | parsing the decimal form of any int64 gives it back |
| `Params.AtoiRejectsNonNumbers` | api.go:193-197 | every empty string, bare sign, or string with a non-digit after the optional sign is rejected |
| `Auth.TruncateToInt` | api.go:297 | float-to-integer conversion truncates toward zero |
| `Auth.Float64ToInt64` | api.go:297 | `int64(f)` is the truncation when in range, the minimum int64 otherwise |
| `Auth.Float64ToInt64OfInteger` | api.go:289-297 | an integral account number claim converts back to itself |
| `Auth.RoleClaim` | api.go:283-287 | the role is the string claim if there is one, otherwise "user" |
| `Auth.AccountNumberClaim` | api.go:289-294 | the account number exists exactly when the claim is a JSON number, and is its int64 conversion |
| `Auth.GetClaimsMap` | api.go:250-271 | claims exactly when the token is present and valid, with the writer untouched; otherwise one error body is appended, with 401 for a missing token and 403 for an invalid one |
| `Auth.JwtAuthMiddleware` | api.go:250-301 | rejects iff the token is missing, invalid or has no numeric accountNumber; 401 for missing, 403 otherwise; else admits with the (defaulted) role and the number |
| `Auth.DecodeAndValidateRequest` | api.go:105-135 | succeeds iff the admin scope has role "admin", the body decodes and its account number is the caller's; a non-admin in admin scope fails before the body is read |
| `Auth.NoAdminBypass` | api.go:125-132 | an admin naming another account number is refused in any scope |
| `Auth.TransferGateChecksSourceOnly` | types.go:20-22 | a transfer passes the gate iff its source is the caller's number, whatever the destination |
| `Auth.DeleteGateChecksAdminAccount` | types.go:28-30 | a delete passes iff the caller is admin and admin_account is the caller's number |
| `Auth.GetGateChecksNumber` | types.go:36-38 | an account read passes iff the scope's role holds and the number is the caller's |
| `Auth.CreateGateChecksAdminAccount` | types.go:74-76 | a create passes iff the caller is admin and admin_account is the caller's number |
| `Auth.IssuedClaims` | api.go:316-320 | a token carries role, accountNumber and expiresAt and no standard "exp" claim |
| `Auth.CreateJwt` | api.go:314-329 | fails iff JWT_SECRET is empty, otherwise signs the issued claims |
| `Auth.IssuedTokenAdmits` | api.go:274-299 | a token issued for an account admits its bearer with that account's role and number |
| `Auth.MissingRoleDefaultsToUser` | api.go:283-287 | a valid token without a string role acts as "user" |
| `Auth.TokenBoundToOwnAccount` | api.go:125-132 | any admitted token is refused for a payload naming another account |
| `Api.DefaultRole` | api.go:161-164 | an empty role becomes "user", any other role is kept |
| `Api.TransferOutcome` | api.go:206-241 | the specification of handleTransfer's outcomes from the table before to the table after and the response, shared by the handler and the routed transfer |
| `Api.ApiServer.constructor` | api.go:23-28 | the server works on the given store |
| `Api.ApiServer.HandleTransfer` | api.go:206-241 | 400 on failed validation or insufficient funds, 500 on a missing account or a failed transfer, each with the table unchanged; on commit the table is the transferred one and 200 returns the re-read source, debited by amount (credited for a self-transfer); the id sequence is untouched |
| `Api.ApiServer.HandleCreateAccount` | api.go:154-177 | every failure is an error (400) with the table unchanged; success inserts one row, advances the id sequence by one and returns the account with its id and defaulted role |
| `Api.ApiServer.HandleDeleteAccount` | api.go:179-204 | 200 iff the gate passes, the id parses and a row has it (then exactly that row is gone); every other case is 400 with `{}` and no change; the id sequence is untouched |
| `Api.ApiServer.HandleLogin` | api.go:53-86 | succeeds iff the body decodes, the number is found, the password matches and a secret is set; every failure is the same "Not Authenticated" |
| `Api.ApiServer.HandleGetAccountByNumber` | api.go:137-152 | succeeds iff the gate passes and the number is found; the caller sees only their own account |
| `Api.ApiServer.HandleGetAccounts` | api.go:88-103 | succeeds iff the admin gate passes and no driver error occurs, listing every row's view |
| `Api.ApiServer.ServeLogin` | api.go:42 | a login answers 200 exactly when the body decodes, the number is found, the password matches and a secret is set, with the account number and the token signed over its issued claims; otherwise exactly 400 "Not Authenticated" |
| `Api.ApiServer.ServeTransfer` | api.go:45-46 | a rejected token never reaches the handler (401 missing, 403 invalid); an admitted caller gets every outcome of the transfer handler (each status, the table unchanged before a commit, the transferred table and the re-read source after it); any change of the table comes from an admitted caller moving money out of their own account; the id sequence is untouched |
| `Api.TransferScenario` | api_test.go:217-282 | on a real table, 500 from 9901 (1000) to 9902 (1) leaves 500 and 501 and answers 200 with account 9901 |
| `Api.LoginTokensNeverPassAdminScope` | api.go:316-317 | a login token for any stored account carries role "" and fails every admin-scope check |

## Left out

- HTTP plumbing: the route table, `ListenAndServe`, JSON encoding and decoding.
  A payload that does not decode is `None`. The message of a decoding error is
  replaced by a fixed text.
- The text of bcrypt and SQL driver errors is replaced by fixed texts (`HashErrorText`, `DriverErrorText`).
- JWT signing and verification belong to the JWT library and are the parameters `sign` and `validate`.
  Claims are modelled as the JSON values they decode to. No expiry is checked, because the code checks none.
- bcrypt, `rand.Intn` and `time.Now` are parameters. `rand.Intn` is constrained to [0, 10000).
- SQL text, connections, `sql.Rows` iteration and the `Scan` error path are not modelled.
  Rows written by this code have no NULL columns.
- Column limits are not modelled: VARCHAR widths, the BIGINT range of `balance` and `number`,
  the SERIAL range of `id`, and the driver's refusal of uint64 values above 2^63 - 1.
  Every insert and update of a well-formed row succeeds unless `dbFaults` or `txFaults` says otherwise.
- Row order is insertion order. SQL promises no order without ORDER BY, and an UPDATE may move a row.
  "The first match" is therefore the first in insertion order.
- `Storage.PostgressStore.TransferMoney`: the retry timing (Fibonacci backoff, the 5 s limits,
  the context timeout) is not modelled. Whether go-retry retries the closure's plain errors is
  the input `retryable`; the model does not claim that a retry happens. The deadline could stop
  retries earlier, which the model does not capture.
- Concurrency is not modelled. The model is sequential, so the overdraft race between the funds
  check in `handleTransfer` and the write in `TransferMoney` cannot occur in it.
  `UncheckedTransferWraps` gives the balance the Go subtraction computes without funds. The model writes that value.
  The real driver refuses a uint64 with the high bit set, so the UPDATE fails, the transaction rolls back,
  and the transfer fails. That happens when the shortfall is at most 2^63. A larger shortfall wraps to a value
  below 2^63. The real program then commits as the model does only when the destination value, after wrapping,
  is also below 2^63, since the second UPDATE is refused otherwise. The model does not capture the refusal.
- `Auth.Float64ToInt64`: float64 rounding of large numbers (beyond 2^53) is not modelled.
  An out-of-range conversion follows amd64, giving the minimum int64.
- `getClaimsMap`'s `jwt.MapClaims` type assertion is not modelled: `jwt.Parse` always produces MapClaims.
- The HttpRequest interface assertion in `decodeAndValidateRequest` is not modelled: every payload type implements it.
- `handleGetAccounts`, `handleGetAccountByNumber`, `handleCreateAccount` and `handleDeleteAccount` are modelled as handlers only.
  Only `/login` and `/transfer` are also modelled as composed routes. The other routes compose the same way,
  through `JwtAuthMiddleware` and `MakeHttpHandleFunc`.
- `Storage.PostgressStore.CreateAccount`: a failed INSERT that reached the server still uses up a SERIAL value
  in PostgreSQL. In the model a driver error leaves `nextId` as it was, so the model's ids have no gaps.
- `Init`/`createAccountTable` on an existing table is not modelled: the store starts empty.
- The `createdAt` timestamp is an integer. Time zones and the precision of `timestamp` are not modelled.
- main.go (seeding and flags) and the k6 load script are not part of this model.
