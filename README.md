# El Dado de Oro backend — a Dafny model of accounts and the fichas ledger

The backend is an Express server over a Firestore database. It registers players with a
password and a TOTP second factor; it logs them in, recovers forgotten passwords, sells
packages of *fichas* (game chips) through PayPal, and debits, credits and redeems fichas.
This project models that account and ledger state machine. The store is a class holding one
map per Firestore collection (`tempUsers`, `users`, `passwordResets`, `orders`) and the
`transactions` and `redemptions` logs. Each route handler is a method on it that makes the
handler's checks in the same order, answers with a `Response`, and changes only the
collections its `modifies` clause names. Each `Failure` carries the HTTP status the route
sends.

Files and modules:

- `wrappers.dfy` (`Wrappers`): `Option`.
- `validators.dfy` (`Validators`): the two regular expressions, written as matchers that
  follow their structure, with lemmas stating exactly which strings each one accepts.
- `decimal.dfy` (`Decimal`): the decimal rendering of the reset code and its inverse.
- `crypto.dfy` (`Crypto`): bcrypt, JSON Web Tokens and speakeasy, reduced to the
  properties the server relies on.
- `catalogue.dfy` (`Catalogue`): the fichas packages and the redeemable products.
- `records.dfy` (`Records`): the stored documents, the replies and their statuses, and the
  sum of a user's transactions.
- `backend.dfy` (`Backend`):
  - the token middleware;
  - the store invariants: documents filed under their own email, no negative balance,
    every transaction belonging to an account, and every balance equal to the sum of the
    user's transactions;
  - class `Store`, with one method per route.
- `scenarios.dfy` (`Scenarios`): client walkthroughs on a fresh store. They cover sign-up and
  sign-in with two factors, a refused first code, password recovery, an expired or wrong
  reset code, and playing, buying and redeeming. `Sample` runs sign-up and sign-in with
  `("a@x.com", "alice1", "Passw0rd")`.

Values the handlers get from outside the database are method parameters:

- the clock (`now`, in milliseconds);
- the TOTP secret and its provisioning URI;
- the bcrypt salt;
- the random integer behind the reset code;
- the set of (secret, code) pairs the TOTP check accepts at the time of the request;
- whether the mail was delivered;
- what PayPal answered.

The routes behind the `authenticateToken` middleware take the user id it established. The
middleware itself is `Backend.Authenticate`. The two routes that check the token inline take
the bearer token.

Behaviour of the code that the model keeps:

- The provisioning URI `register` returns is whatever `generateSecret({length: 20})`
  produced; it does not name the account.
- Registering again with an email that already has an account replaces the pending record.
  Verifying it then overwrites the account with a fresh one holding 0 fichas. For this
  reason `VerifyRegistration` promises the ledger invariant only when the email had no
  account.
- `verify-mfa` does not check `verified`.
- A token that does not verify gives 403 in the middleware. In `GET /api/auth/user` and
  `update-username` it makes `jwt.verify` throw inside the handler, which answers 500.
- `capture-order` does not check whether the order is already COMPLETED. It marks the order
  before updating the balance.

## Model

| member | source | states |
|---|---|---|
| Validators.ValidateUsername | Server.js:787-789 | `validateUsername` is the anchored repetition `[a-zA-Z0-9]{3,20}$` |
| Validators.ValidatePassword | Server.js:791-793 | `validatePassword` is the two lookaheads `(?=.*[A-Z])` and `(?=.*\d)` followed by the anchored repetition `.{8,}$` |
| Validators.RunToEndIff | Server.js:787-789 | an anchored repetition `k{lo,hi}$` accepts exactly the strings of class characters whose length lies within the bounds |
| Validators.DotStarThenIff | Server.js:791-793 | the lookahead `(?=.*X)` holds exactly when some character of class X comes before the first line terminator |
| Validators.ValidateUsernameIff | Server.js:787-789 | `validateUsername` accepts exactly the strings of 3 to 20 characters, all of them ASCII letters or digits |
| Validators.ValidatePasswordIff | Server.js:791-793 | `validatePassword` accepts exactly the strings of at least 8 characters with no line terminator, at least one ASCII upper-case letter and at least one ASCII digit |
| Decimal.DecimalString | Server.js:271 | `toString()` of a non-negative integer is a non-empty string of decimal digits |
| Decimal.ParseDecimalString | Server.js:271 | reading the rendering back gives the number, so distinct numbers give distinct codes |
| Decimal.DecimalLength | Server.js:271 | a number with k digits renders as k characters |
| Decimal.DecimalNoLeadingZero | Server.js:271 | a positive number renders without a leading `0` |
| Decimal.ResetCode | Server.js:271 | the reset code is six ASCII digits with no leading zero, and its value is the drawn integer, which lies in [100000, 999998] because the upper bound of `randomInt` is exclusive |
| Crypto.Hash | Server.js:107 | `bcrypt.compare` accepts the password a hash was made from and no other |
| Crypto.Matches | Server.js:174 | `bcrypt.compare(password, user.password)` holds when the stored hash was made from that password |
| Crypto.Sign | Server.js:184 | `jwt.sign({ userId }, JWT_SECRET)` is a token carrying the user id and the server's signature |
| Crypto.Verify | Server.js:80 | `jwt.verify` yields the claim of exactly the tokens the server signed |
| Catalogue.PackageFor | Server.js:423-436 | `paquetes[paqueteId]` names a package exactly for the ids 0 to 5, and the package found has that id and credits a positive amount of fichas |
| Catalogue.Find | Server.js:719 | a product found has the requested id and is in the table |
| Catalogue.FindNone | Server.js:719-720 | `find` comes back empty exactly when no product has the id |
| Catalogue.FindFirst | Server.js:719 | the product found is the first one in the table with that id |
| Catalogue.ProductTable | Server.js:712-716 | exactly the ids 1, 2 and 3 are redeemable, at 500, 300 and 150 fichas |
| Records.Balance | Server.js:618 | the balance the ledger routes read: the stored `fichas`, or 0 when the field is absent |
| Records.Promote | Server.js:141-147 | the account made from a pending registration keeps its email, name, password, secret and creation time, is verified with MFA on, and holds 0 fichas |
| Records.Failure.Status | Server.js:160-178 | each failure answers 400, 401, 403, 404 or 500, and 500 only for an exception caught by the handler |
| Records.Response.Status | Server.js:185 | a reply is 200 exactly when it succeeds |
| Records.OfUser | Server.js:562-563 | the log filtered to the user's transactions, in log order, no longer than the log; what it holds is stated by `OfUserMembers` and `OfUserMultiset` |
| Records.OfUserMultiset | Server.js:562-563 | each logged transaction of the user appears in the query result as many times as in the log, and no other transaction appears |
| Records.OfUserMembers | Server.js:562-563 | the query `where('userId', '==', u)` yields exactly the logged transactions that carry that user id |
| Records.CreditedAppend | Server.js:631-636 | logging a transaction changes the credit of its own user by its amount and no other user's credit |
| Records.CreditedNone | Server.js:141-147 | a user with no logged transaction has been credited nothing |
| Backend.EmailInUsers | Server.js:89-91 | the query `where('email', '==', email)` on `users` is not empty: some account carries the email |
| Backend.UsernameInUsers | Server.js:394-396 | the query `where('username', '==', name)` on `users` is not empty: some account has the name |
| Backend.UsernameInPending | Server.js:777-779 | the same query on `tempUsers`: some pending registration has the name |
| Backend.Authenticate | Server.js:73-86 | no bearer token gives 401 and a token that does not verify 403; a request proceeds only as the user the server's token names |
| Backend.InlineAuthenticate | Server.js:382-385 | the inline check gives 401 without a token and 500 for a token that does not verify; it proceeds only as the user the token names |
| Backend.SignedTokensAuthenticate | Server.js:78-81 | both token checks let every token the server signed through as its user |
| Backend.Credit | Server.js:513 | `increment(delta)` changes the balance by delta, an absent balance counting as 0, and changes no other field |
| Backend.CreditKeepsLedger | Server.js:510-524 | changing one balance by a transaction's amount while logging that transaction keeps every balance equal to the sum of its transactions |
| Backend.WriteAccountKeepsInvariant | Server.js:140-147 | writing an account under its own email with a balance that is not negative keeps the store invariant |
| Backend.LogKeepsInvariant | Server.js:517-524 | logging a transaction of an existing account keeps the store invariant |
| Backend.Store.constructor | Server.js:49-51 | an empty store, with both invariants holding |
| Backend.Store.CheckEmail | Server.js:87-93 | `available` is true exactly when no account carries the email; under the invariant, exactly when none is filed under it |
| Backend.Store.CheckUsername | Server.js:769-784 | `available` is true exactly when neither an account nor a pending registration has the name |
| Backend.Store.Register | Server.js:94-122 | an invalid name, then a weak password, gives 400 with no write; otherwise the pending record for the email is overwritten with the hashed password and the new secret, and the URI is returned |
| Backend.Store.VerifyRegistration | Server.js:123-154 | an unknown email gives 404 and a refused code 401, both with no write; otherwise the account becomes the promoted pending record and the pending record is gone; the ledger invariant holds after the first registration of an email |
| Backend.Store.Login | Server.js:155-189 | it checks a missing account (404), then an unverified one (403), then a wrong password (401); with MFA on it answers only `requiresMFA`, and only with MFA off does it issue a token, which verifies to the email; the store is not written |
| Backend.Store.VerifyMfa | Server.js:190-235 | an empty email or code gives 400, a missing account 404, a missing secret 400 and a refused code 401; a token for the email is issued exactly when the TOTP check accepts the stored secret |
| Backend.Store.ForgotPassword | Server.js:261-293 | an email without an account gives 404 and writes nothing; otherwise the request for the email is replaced by the rendered code with an expiry 600000 ms ahead, before the mail is sent, and a failed delivery answers 500; both invariants are kept |
| Backend.Store.ResetPassword | Server.js:295-351 | a weak password gives 400; a missing request, a different code or a time after the expiry give the same 400 and change nothing; otherwise only the account's hash changes, to one that accepts the new password, and the request is deleted |
| Backend.Store.CurrentUser | Server.js:353-379 | an authenticated caller with an account gets that account's public fields; no account gives 404 |
| Backend.Store.UpdateUsername | Server.js:380-417 | it checks the token inline, the name (400) and whether an account already has the name (400); otherwise only the caller's name changes, and names unique among accounts stay unique |
| Backend.Store.CreateOrder | Server.js:418-475 | only the ids 0 to 5 are accepted (400); a failed PayPal call answers 500 with no write; otherwise a CREATED order for the package is stored under PayPal's id; only `orders` is written, which neither invariant reads |
| Backend.Store.Post | Server.js:510-524 | the balance changes by the transaction's amount and the transaction is logged; both invariants are kept |
| Backend.Store.CaptureOrder | Server.js:478-536 | an unknown order gives 404 and another user's order 403; a failed capture 500 with no write; otherwise the order is COMPLETED and the caller is credited its fichas with one purchase logged |
| Backend.Store.Fichas | Server.js:539-556 | the caller's balance, absent read as 0; under the invariants it is not negative and equals the sum of the caller's transactions |
| Backend.Store.History | Server.js:559-581 | the loop collects exactly the caller's transactions in log order, and under the ledger invariant they add up to the balance |
| Backend.Store.DeductFichas | Server.js:602-644 | an amount that is not positive, a missing account or a balance below the amount give 400, 404 and 400 with no write; otherwise the balance drops by the amount, not below 0, and one game transaction of `-amount` is logged |
| Backend.Store.AddFichas | Server.js:647-684 | an amount that is not positive gives 400 and a missing account 404 with no write; otherwise the balance rises by the amount and one prize transaction is logged |
| Backend.Store.RedeemProduct | Server.js:686-767 | a missing product id or a price that is not positive gives 400, a missing account 404, a balance below the price 400 (checked before the product) and a product not listed at that price 400, all with no write; otherwise the balance drops by exactly the price and an exchange and a pending redemption are logged |
| Scenarios.SampleUsernameValid | Server.js:787-789 | `alice1` is a valid username |
| Scenarios.SamplePasswordValid | Server.js:791-793 | `Passw0rd` is a valid password |
| Scenarios.SampleUsernamesInvalid | Server.js:787-789 | `alice_1` and `al` are refused |
| Scenarios.SamplePasswordNoUpper | Server.js:791-793 | a password without an upper-case letter is refused |
| Scenarios.SamplePasswordNoDigit | Server.js:791-793 | a password without a digit is refused |
| Scenarios.SamplePasswordShort | Server.js:791-793 | a password of seven characters is refused |
| Scenarios.SignedUpStore | Server.js:94-154 | registering and verifying on an empty database leaves exactly one verified account with 0 fichas and nothing pending |
| Scenarios.SignUpAndSignIn | Server.js:94-235 | for any valid credentials: register, verify, log in and pass the second factor; the password step issues no token and the second factor issues a token for the email |
| Scenarios.Sample | Server.js:94-235 | the same walkthrough for `a@x.com`, `alice1`, `Passw0rd` ends with a session for `a@x.com` and `alice1` |
| Scenarios.FailedVerification | Server.js:123-189 | a refused first code creates no account (login 404), the right code then does, and a wrong password is refused with 401 |
| Scenarios.RecoverPassword | Server.js:261-351 | an unknown email gives 404; the mailed code works at the last valid millisecond, after which the new password logs in and the old one is refused |
| Scenarios.ExpiredOrWrongCode | Server.js:295-351 | one millisecond late and a wrong code get the same 400 and leave the request, so the right code in time still works |
| Scenarios.FundedStore | Server.js:602-767 | after a prize of 100, a stake of 150 and a redemption at 150 are refused for lack of fichas, and one at a wrong price is refused, all leaving the balance |
| Scenarios.BuyAndRedeem | Server.js:418-581 | buying package 1 credits 250 fichas, redeeming the mousepad leaves 200, and balance and history agree on 200 |

## Left out

- The Express app, CORS, dotenv, the Firebase, PayPal and mail client set-up, the listen call, and the duplicated `testFirebaseConnection` (Server.js:240-260, 586-597). They are plumbing with no state of the core.
- The Firestore SDK. Collections are maps and `updateDoc` on a missing document is a 500 reply. Document ids made from `Date.now()` for transactions and redemptions are not modelled: the logs are sequences, so two writes in the same millisecond never collide.
- Crypto.Hash: bcrypt uses only the first 72 bytes of a password, and `validatePassword` sets no upper length, so two passwords sharing a 72-byte prefix match the same hash; the model's hash is injective on the whole password, and `Scenarios.RecoverPassword`'s refusal of the old password relies on that.
- The console logging, including reset-password writing the submitted email, code and new password in clear (Server.js:298, 317-322). It is output with no effect on the store or the replies.
- The internals of speakeasy (secret generation, the time step and the one-step window), bcrypt (cost factor 10) and JSON Web Tokens. Each is modelled only by the property the server relies on.
- Nodemailer delivery. Its outcome is a parameter; the model keeps the order in which the reset request is stored before the send.
- The PayPal HTTP calls and the `paypalDetails` stored with a captured order. Order creation is an optional PayPal reply and capture a success flag.
- Real dates and ISO strings. Time is an integer number of milliseconds, and `createdAt`, `completedAt` and transaction dates are that integer.
- Backend.Store.History: returns the caller's transactions in log order, without the descending sort by date (Server.js:574), which is a library sort over parsed dates; the `id` added to each document is not modelled.
- Backend.Store.Fichas: does not model the catch branch that answers `{fichas: 0}` or the `Number(...)` conversion, as the model's balance is always an integer.
- Package prices and `toFixed(2)` are floating point; the table keeps the prices as integer US cents.
- JavaScript values and coercion. Amounts and balances are integers, so fractional amounts are not modelled; request fields are typed strings and integers, so `undefined` or non-string inputs are not modelled. A missing `productoId` is modelled as 0.
- The password length counts Unicode scalar values. The regular expression, without the `u` flag, counts UTF-16 code units, which differs for characters outside the Basic Multilingual Plane.
- Exceptions that `register` and `verify-registration` do not catch. No operation of the model throws there.
- Concurrency and interleaving of requests. The model runs one request at a time.
