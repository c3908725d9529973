/**
 * The route handlers of the server and the document store they read and write.
 *
 * `Store` holds the Firestore collections the handlers use: `tempUsers`, `users` and
 * `passwordResets` keyed by email, `orders` keyed by PayPal order id, and the
 * `transactions` and `redemptions` logs. Every route is a method that checks its inputs in
 * the order the source does, answers with a `Response`, and changes only the collections
 * its `modifies` clause names. `setDoc` is a map update that overwrites, `deleteDoc` a key
 * removal, and `updateDoc` on a missing document fails the request with status 500.
 *
 * What the handlers obtain from outside the store is passed in: the clock (`now`, in
 * milliseconds), random values (the TOTP secret, the bcrypt salt, the reset code), the
 * verdict of the TOTP library, and the outcome of the PayPal and mail calls.
 */
module Backend {
  import opened Wrappers
  import opened Validators
  import opened Decimal
  import opened Crypto
  import opened Catalogue
  import opened Records

  /** How long a password-reset code stays valid: ten minutes, in milliseconds. */
  const ResetValidityMs := 600000

  /** The successful reply of `login`: either a demand for the second factor or a session. */
  datatype LoginReply = RequiresMfa | Session(token: Token, user: Account)

  /** The successful reply of `verify-mfa`: a session token and a reduced view of the user. */
  datatype MfaReply = MfaReply(token: Token, email: Email, username: string)

  /** The successful reply of `GET /api/auth/user`. */
  datatype UserView = UserView(username: string, email: Email, verified: bool, mfaEnabled: bool, createdAt: int)

  /** What the PayPal order-creation call returns that the server uses. */
  datatype PayPalOrder = PayPalOrder(id: string, status: string)

  /** The `authenticateToken` middleware: no bearer token gives 401, a token that does not
      verify gives 403, and otherwise the request proceeds as the user the token names. */
  function Authenticate(bearer: Option<Token>): (r: Response<Email>)
    ensures bearer.None? ==> r == Err(MissingToken)
    ensures bearer.Some? && r.Err? ==> r == Err(InvalidToken)
    ensures r.Ok? ==> bearer == Some(Sign(r.body))
  {
    match bearer
    case None => Err(MissingToken)
    case Some(t) =>
      match Verify(t)
      case None => Err(InvalidToken)
      case Some(u) => Ok(u)
  }

  /** The token check written inline in `GET /api/auth/user` and `update-username`: no token
      gives 401, but a token that does not verify makes `jwt.verify` throw inside the
      handler's try block, which answers 500. */
  function InlineAuthenticate(bearer: Option<Token>): (r: Response<Email>)
    ensures bearer.None? ==> r == Err(MissingToken)
    ensures bearer.Some? && r.Err? ==> r == Err(Internal)
    ensures r.Ok? ==> bearer == Some(Sign(r.body))
  {
    match bearer
    case None => Err(MissingToken)
    case Some(t) =>
      match Verify(t)
      case None => Err(Internal)
      case Some(u) => Ok(u)
  }

  /** Both token checks let exactly the tokens the server signed through, as their user. */
  lemma SignedTokensAuthenticate(u: Email)
    ensures Authenticate(Some(Sign(u))) == Ok(u)
    ensures InlineAuthenticate(Some(Sign(u))) == Ok(u)
  {
  }

  /** `query(collection(db, 'users'), where('username', '==', name))` is not empty. */
  predicate UsernameInUsers(users: map<Email, Account>, name: string) {
    exists e :: e in users && users[e].username == name
  }

  /** `query(collection(db, 'tempUsers'), where('username', '==', name))` is not empty. */
  predicate UsernameInPending(tempUsers: map<Email, PendingAccount>, name: string) {
    exists e :: e in tempUsers && tempUsers[e].username == name
  }

  /** `query(collection(db, 'users'), where('email', '==', email))` is not empty. */
  predicate EmailInUsers(users: map<Email, Account>, email: Email) {
    exists e :: e in users && users[e].email == email
  }

  /** Every pending registration is filed under its own email. */
  ghost predicate PendingKeyedByEmail(tempUsers: map<Email, PendingAccount>) {
    forall e :: e in tempUsers ==> tempUsers[e].email == e
  }

  /** Every account is filed under its own email. */
  ghost predicate AccountsKeyedByEmail(users: map<Email, Account>) {
    forall e :: e in users ==> users[e].email == e
  }

  /** No account has a negative balance. */
  ghost predicate NoNegativeBalance(users: map<Email, Account>) {
    forall e :: e in users ==> Balance(users[e]) >= 0
  }

  /** Every logged transaction belongs to an existing account. */
  ghost predicate LogOfAccounts(txs: seq<Transaction>, users: map<Email, Account>) {
    forall i :: 0 <= i < |txs| ==> txs[i].userId in users
  }

  /** The store invariant over the collections it concerns. */
  ghost predicate StoreInvariant(tempUsers: map<Email, PendingAccount>, users: map<Email, Account>, txs: seq<Transaction>) {
    && PendingKeyedByEmail(tempUsers)
    && AccountsKeyedByEmail(users)
    && NoNegativeBalance(users)
    && LogOfAccounts(txs, users)
  }

  /** Writing an account under its own email with a balance that is not negative, and
      dropping a pending registration, keep the store invariant. */
  lemma WriteAccountKeepsInvariant(tempUsers: map<Email, PendingAccount>, users: map<Email, Account>,
                                   txs: seq<Transaction>, e: Email, a: Account, dropped: set<Email>)
    requires StoreInvariant(tempUsers, users, txs)
    requires a.email == e && Balance(a) >= 0
    ensures StoreInvariant(tempUsers - dropped, users[e := a], txs)
  {
  }

  /** Logging a transaction of an existing account keeps the store invariant. */
  lemma LogKeepsInvariant(tempUsers: map<Email, PendingAccount>, users: map<Email, Account>,
                          txs: seq<Transaction>, t: Transaction)
    requires StoreInvariant(tempUsers, users, txs)
    requires t.userId in users
    ensures StoreInvariant(tempUsers, users, txs + [t])
  {
    assert forall i :: 0 <= i < |txs| ==> (txs + [t])[i] == txs[i];
  }

  /** No two accounts share a username. */
  ghost predicate UniqueUsernames(users: map<Email, Account>) {
    forall a, b :: a in users && b in users && users[a].username == users[b].username ==> a == b
  }

  /** Every account's balance equals the sum of its transactions. */
  ghost predicate LedgerBalanced(users: map<Email, Account>, txs: seq<Transaction>) {
    forall e :: e in users ==> Balance(users[e]) == Credited(txs, e)
  }

  /** The account `a` with its balance changed by `delta`, as the ledger routes write it. */
  function Credit(a: Account, delta: int): (b: Account)
    ensures Balance(b) == Balance(a) + delta
    ensures b.fichas.Some?
    ensures b == a.(fichas := b.fichas)
  {
    a.(fichas := Some(Balance(a) + delta))
  }

  /** Changing one balance by `delta` while logging a transaction of `delta` for the same
      user keeps every balance equal to the sum of its transactions. */
  lemma CreditKeepsLedger(users: map<Email, Account>, txs: seq<Transaction>, u: Email, t: Transaction, delta: int)
    requires LedgerBalanced(users, txs)
    requires u in users && t.userId == u && t.fichas == delta
    ensures LedgerBalanced(users[u := Credit(users[u], delta)], txs + [t])
  {
    var users' := users[u := Credit(users[u], delta)];
    forall e | e in users' ensures Balance(users'[e]) == Credited(txs + [t], e) {
      CreditedAppend(txs, t, e);
    }
  }

  class Store {
    var tempUsers: map<Email, PendingAccount>
    var users: map<Email, Account>
    var passwordResets: map<Email, ResetRequest>
    var orders: map<string, Order>
    var transactions: seq<Transaction>
    var redemptions: seq<Redemption>

    /** The store invariant: documents keyed by email carry that email, no balance is
        negative, and every transaction belongs to an existing account. */
    ghost predicate Valid()
      reads this`tempUsers, this`users, this`transactions
    {
      StoreInvariant(tempUsers, users, transactions)
    }

    /** The ledger invariant: every balance is the sum of the user's transactions. */
    ghost predicate Balanced()
      reads this`users, this`transactions
    {
      LedgerBalanced(users, transactions)
    }

    /** An empty store. */
    constructor ()
      ensures Valid() && Balanced()
      ensures tempUsers == map[] && users == map[] && passwordResets == map[] && orders == map[]
      ensures transactions == [] && redemptions == []
    {
      tempUsers, users, passwordResets, orders := map[], map[], map[], map[];
      transactions, redemptions := [], [];
    }

    /** `POST /api/auth/check-email`: `{available}` is true exactly when no account document
        carries the email; under the invariant, exactly when no account is keyed by it. */
    method CheckEmail(email: Email) returns (available: bool)
      ensures available <==> forall e :: e in users ==> users[e].email != email
      ensures Valid() ==> (available <==> email !in users)
    {
      available := !EmailInUsers(users, email);
    }

    /** `POST /api/auth/check-username`: `{available}` is true exactly when neither an account
        nor a pending registration uses the name. */
    method CheckUsername(username: string) returns (available: bool)
      ensures available <==>
        && (forall e :: e in users ==> users[e].username != username)
        && (forall e :: e in tempUsers ==> tempUsers[e].username != username)
    {
      available := !UsernameInUsers(users, username) && !UsernameInPending(tempUsers, username);
    }

    /** `POST /api/auth/register`: rejects an invalid username, then a weak password, with
        400 and no write; otherwise overwrites the pending registration for the email and
        answers with the provisioning URI of the new secret. */
    method Register(email: Email, username: string, password: string, secret: GeneratedSecret, salt: string, now: int)
      returns (r: Response<string>)
      requires Valid()
      modifies this`tempUsers
      ensures Valid()
      ensures !ValidateUsername(username) ==> r == Err(InvalidUsername)
      ensures ValidateUsername(username) && !ValidatePassword(password) ==> r == Err(WeakPassword)
      ensures r.Ok? <==> ValidateUsername(username) && ValidatePassword(password)
      ensures r.Ok? ==> r.body == secret.otpauthUrl
      ensures r.Ok? ==>
        tempUsers == old(tempUsers)[email := PendingAccount(email, username, Hash(password, salt), secret.base32, false, now)]
      ensures r.Err? ==> tempUsers == old(tempUsers)
    {
      if !ValidateUsername(username) {
        return Err(InvalidUsername);
      }
      if !ValidatePassword(password) {
        return Err(WeakPassword);
      }
      var hashed := Hash(password, salt);
      tempUsers := tempUsers[email := PendingAccount(email, username, hashed, secret.base32, false, now)];
      r := Ok(secret.otpauthUrl);
    }

    /** `POST /api/auth/verify-registration`: an unknown email gives 404 and a code the TOTP
        check refuses gives 401, both with no write; otherwise the pending record becomes the
        account (verified, with MFA on and no fichas) and the pending record is deleted. */
    method VerifyRegistration(email: Email, code: string, totp: TotpCheck) returns (r: Response<()>)
      requires Valid()
      modifies this`tempUsers, this`users
      ensures Valid()
      ensures email !in old(tempUsers) ==> r == Err(UserNotFound)
      ensures email in old(tempUsers) && (old(tempUsers)[email].mfaSecret, code) !in totp ==> r == Err(InvalidCode)
      ensures r.Ok? <==> email in old(tempUsers) && (old(tempUsers)[email].mfaSecret, code) in totp
      ensures r.Ok? ==> users == old(users)[email := Promote(old(tempUsers)[email])]
      ensures r.Ok? ==> tempUsers == old(tempUsers) - {email} && email !in tempUsers
      ensures r.Ok? ==> users[email].verified && users[email].mfaEnabled && Balance(users[email]) == 0
      ensures r.Err? ==> users == old(users) && tempUsers == old(tempUsers)
      ensures old(Balanced()) && email !in old(users) ==> Balanced()
    {
      if email !in tempUsers {
        return Err(UserNotFound);
      }
      var pending := tempUsers[email];
      if (pending.mfaSecret, code) !in totp {
        return Err(InvalidCode);
      }
      WriteAccountKeepsInvariant(tempUsers, users, transactions, email, Promote(pending), {email});
      users := users[email := Promote(pending)];
      tempUsers := tempUsers - {email};
      r := Ok(());
      if old(Balanced()) && email !in old(users) {
        CreditedNone(transactions, email);
      }
    }

    /** `POST /api/auth/login`: a missing account gives 404, then an unverified one 403, then a
        wrong password 401. A correct password on an account with MFA on yields only the
        demand for the second factor; a session token is issued only when MFA is off. */
    method Login(email: Email, password: string) returns (r: Response<LoginReply>)
      ensures email !in users ==> r == Err(UserNotFound)
      ensures email in users && !users[email].verified ==> r == Err(NotVerified)
      ensures email in users && users[email].verified && !Matches(password, users[email].password) ==>
        r == Err(InvalidCredentials)
      ensures r.Ok? <==> email in users && users[email].verified && Matches(password, users[email].password)
      ensures r.Ok? ==> (r.body == RequiresMfa <==> users[email].mfaEnabled)
      ensures r.Ok? && r.body.Session? ==> r.body.user == users[email] && r.body.token == Sign(users[email].email)
      ensures Valid() && r.Ok? && r.body.Session? ==> Verify(r.body.token) == Some(email)
    {
      if email !in users {
        return Err(UserNotFound);
      }
      var user := users[email];
      if !user.verified {
        return Err(NotVerified);
      }
      if !Matches(password, user.password) {
        return Err(InvalidCredentials);
      }
      if user.mfaEnabled {
        return Ok(RequiresMfa);
      }
      r := Ok(Session(Sign(user.email), user));
    }

    /** `POST /api/auth/verify-mfa`: an empty email or code gives 400, a missing account 404,
        an account without a secret 400, a code the TOTP check refuses 401; a session token
        for the account is issued only after the TOTP check accepts. */
    method VerifyMfa(email: Email, code: string, totp: TotpCheck) returns (r: Response<MfaReply>)
      ensures email == "" || code == "" ==> r == Err(IncompleteData)
      ensures email != "" && code != "" && email !in users ==> r == Err(UserNotFound)
      ensures email != "" && code != "" && email in users && users[email].mfaSecret == "" ==> r == Err(MfaNotConfigured)
      ensures r.Ok? <==>
        email != "" && code != "" && email in users && users[email].mfaSecret != "" && (users[email].mfaSecret, code) in totp
      ensures email != "" && code != "" && email in users && users[email].mfaSecret != "" && (users[email].mfaSecret, code) !in totp ==>
        r == Err(InvalidCode)
      ensures r.Ok? ==> r.body == MfaReply(Sign(users[email].email), users[email].email, users[email].username)
      ensures Valid() && r.Ok? ==> Verify(r.body.token) == Some(email)
    {
      if email == "" || code == "" {
        return Err(IncompleteData);
      }
      if email !in users {
        return Err(UserNotFound);
      }
      var user := users[email];
      if user.mfaSecret == "" {
        return Err(MfaNotConfigured);
      }
      if (user.mfaSecret, code) !in totp {
        return Err(InvalidCode);
      }
      r := Ok(MfaReply(Sign(user.email), user.email, user.username));
    }

    /** `POST /api/auth/forgot-password`: an email without an account gives 404 and writes
        nothing. Otherwise the reset request for the email is overwritten with the code drawn
        from [100000, 999999) and an expiry ten minutes from now, and only then is the mail
        sent; a failed delivery answers 500 and leaves the request in place. */
    method ForgotPassword(email: Email, n: nat, now: int, mailSent: bool) returns (r: Response<()>)
      requires Valid()
      requires 100000 <= n < 999999
      modifies this`passwordResets
      ensures Valid()
      ensures old(Balanced()) ==> Balanced()
      ensures email !in users ==> r == Err(NoAccountForEmail) && passwordResets == old(passwordResets)
      ensures email in users ==>
        passwordResets == old(passwordResets)[email := ResetRequest(ResetCode(n), now + ResetValidityMs)]
      ensures email in users ==> r == if mailSent then Ok(()) else Err(Internal)
    {
      if email !in users {
        return Err(NoAccountForEmail);
      }
      var code := ResetCode(n);
      passwordResets := passwordResets[email := ResetRequest(code, now + ResetValidityMs)];
      if !mailSent {
        return Err(Internal);
      }
      r := Ok(());
    }

    /** `POST /api/auth/reset-password`: a weak new password gives 400; a missing request,
        a different code or a time after the expiry all give the same 400. Otherwise the
        account's password hash is replaced and the request deleted; if the account is gone,
        `updateDoc` fails with 500 before anything is written. */
    method ResetPassword(email: Email, code: string, newPassword: string, now: int, salt: string)
      returns (r: Response<()>)
      requires Valid()
      modifies this`users, this`passwordResets
      ensures Valid()
      ensures !ValidatePassword(newPassword) ==> r == Err(WeakPassword)
      ensures (ValidatePassword(newPassword) &&
        !(email in old(passwordResets) && old(passwordResets)[email].code == code && now <= old(passwordResets)[email].expiresAt))
        ==> r == Err(InvalidOrExpired)
      ensures r.Ok? <==>
        && ValidatePassword(newPassword)
        && email in old(passwordResets)
        && old(passwordResets)[email].code == code
        && now <= old(passwordResets)[email].expiresAt
        && email in old(users)
      ensures r.Ok? ==>
        && users == old(users)[email := old(users)[email].(password := Hash(newPassword, salt))]
        && passwordResets == old(passwordResets) - {email}
        && Matches(newPassword, users[email].password)
      ensures r.Err? ==> users == old(users) && passwordResets == old(passwordResets)
      ensures r.Err? && ValidatePassword(newPassword) && email in old(users) ==> r == Err(InvalidOrExpired)
      ensures (ValidatePassword(newPassword) && email in old(passwordResets) && old(passwordResets)[email].code == code &&
        now <= old(passwordResets)[email].expiresAt && email !in old(users)) ==> r == Err(Internal)
      ensures old(Balanced()) ==> Balanced()
    {
      if !ValidatePassword(newPassword) {
        return Err(WeakPassword);
      }
      if email !in passwordResets {
        return Err(InvalidOrExpired);
      }
      var request := passwordResets[email];
      if request.code != code || now > request.expiresAt {
        return Err(InvalidOrExpired);
      }
      var hashed := Hash(newPassword, salt);
      if email !in users {
        return Err(Internal);
      }
      WriteAccountKeepsInvariant(tempUsers, users, transactions, email, users[email].(password := hashed), {});
      assert tempUsers - {} == tempUsers;
      users := users[email := users[email].(password := hashed)];
      passwordResets := passwordResets - {email};
      r := Ok(());
    }

    /** `GET /api/auth/user`: the public fields of the caller's account. */
    method CurrentUser(bearer: Option<Token>) returns (r: Response<UserView>)
      ensures InlineAuthenticate(bearer).Err? ==> r == Err(InlineAuthenticate(bearer).failure)
      ensures r.Ok? <==> InlineAuthenticate(bearer).Ok? && InlineAuthenticate(bearer).body in users
      ensures InlineAuthenticate(bearer).Ok? && InlineAuthenticate(bearer).body !in users ==> r == Err(UserNotFound)
      ensures r.Ok? ==>
        var a := users[InlineAuthenticate(bearer).body];
        r.body == UserView(a.username, a.email, a.verified, a.mfaEnabled, a.createdAt)
    {
      var auth := InlineAuthenticate(bearer);
      if auth.Err? {
        return Err(auth.failure);
      }
      if auth.body !in users {
        return Err(UserNotFound);
      }
      var a := users[auth.body];
      r := Ok(UserView(a.username, a.email, a.verified, a.mfaEnabled, a.createdAt));
    }

    /** `PUT /api/auth/update-username`: after the inline token check, an invalid name gives
        400, then a name some account already has gives 400 (pending registrations are not
        consulted); otherwise the caller's account takes the name. Usernames that were unique
        among accounts stay unique. */
    method UpdateUsername(bearer: Option<Token>, newUsername: string) returns (r: Response<string>)
      requires Valid()
      modifies this`users
      ensures Valid()
      ensures InlineAuthenticate(bearer).Err? ==> r == Err(InlineAuthenticate(bearer).failure)
      ensures InlineAuthenticate(bearer).Ok? && !ValidateUsername(newUsername) ==> r == Err(InvalidUsername)
      ensures InlineAuthenticate(bearer).Ok? && ValidateUsername(newUsername) && UsernameInUsers(old(users), newUsername) ==>
        r == Err(UsernameTaken)
      ensures (InlineAuthenticate(bearer).Ok? && ValidateUsername(newUsername) && !UsernameInUsers(old(users), newUsername) &&
        InlineAuthenticate(bearer).body !in old(users)) ==> r == Err(Internal)
      ensures r.Ok? <==>
        && InlineAuthenticate(bearer).Ok?
        && ValidateUsername(newUsername)
        && !UsernameInUsers(old(users), newUsername)
        && InlineAuthenticate(bearer).body in old(users)
      ensures r.Ok? ==>
        var uid := InlineAuthenticate(bearer).body;
        r.body == newUsername && users == old(users)[uid := old(users)[uid].(username := newUsername)]
      ensures r.Ok? ==> UsernameInUsers(users, newUsername)
      ensures r.Err? ==> users == old(users)
      ensures UniqueUsernames(old(users)) ==> UniqueUsernames(users)
      ensures old(Balanced()) ==> Balanced()
    {
      var auth := InlineAuthenticate(bearer);
      if auth.Err? {
        return Err(auth.failure);
      }
      var uid := auth.body;
      if !ValidateUsername(newUsername) {
        return Err(InvalidUsername);
      }
      if UsernameInUsers(users, newUsername) {
        return Err(UsernameTaken);
      }
      if uid !in users {
        return Err(Internal);
      }
      WriteAccountKeepsInvariant(tempUsers, users, transactions, uid, users[uid].(username := newUsername), {});
      assert tempUsers - {} == tempUsers;
      users := users[uid := users[uid].(username := newUsername)];
      r := Ok(newUsername);
      assert users[uid].username == newUsername;
    }

    /*
     * The routes below run behind the `authenticateToken` middleware (`Authenticate`): they
     * are reached only when it accepted the bearer token, and `userId` is the
     * `req.user.userId` it established.
     */

    /** `POST /api/payments/create-order`: only the package ids 0 to 5 are accepted (400
        otherwise); a failed PayPal call answers 500 with no write; otherwise the order is
        stored under PayPal's id as CREATED, with the package's fichas and price. */
    method CreateOrder(userId: Email, packageId: int, created: Option<PayPalOrder>, now: int)
      returns (r: Response<PayPalOrder>)
      modifies this`orders
      ensures PackageFor(packageId).None? ==> r == Err(InvalidPackage)
      ensures PackageFor(packageId).Some? && created.None? ==> r == Err(Internal)
      ensures r.Ok? <==> 0 <= packageId <= 5 && created.Some?
      ensures r.Ok? ==>
        var p := PackageFor(packageId).value;
        && r.body == created.value
        && orders == old(orders)[created.value.id :=
             Order(userId, packageId, p.fichas, p.priceCents, Created, now, None, created.value.id)]
      ensures r.Err? ==> orders == old(orders)
    {
      var package := PackageFor(packageId);
      if package.None? {
        return Err(InvalidPackage);
      }
      if created.None? {
        return Err(Internal);
      }
      var id := created.value.id;
      orders := orders[id := Order(userId, packageId, package.value.fichas, package.value.priceCents, Created, now, None, id)];
      r := Ok(created.value);
    }

    /** The two writes every ledger route ends with: the balance of the transaction's user
        changes by the transaction's amount (`increment`, an absent balance counting as 0)
        and the transaction is logged. */
    method Post(t: Transaction)
      requires Valid()
      requires t.userId in users && Balance(users[t.userId]) + t.fichas >= 0
      modifies this`users, this`transactions
      ensures Valid()
      ensures users == old(users)[t.userId := Credit(old(users)[t.userId], t.fichas)]
      ensures transactions == old(transactions) + [t]
      ensures old(Balanced()) ==> Balanced()
    {
      if Balanced() {
        CreditKeepsLedger(users, transactions, t.userId, t, t.fichas);
      }
      WriteAccountKeepsInvariant(tempUsers, users, transactions, t.userId, Credit(users[t.userId], t.fichas), {});
      assert tempUsers - {} == tempUsers;
      LogKeepsInvariant(tempUsers, users[t.userId := Credit(users[t.userId], t.fichas)], transactions, t);
      users := users[t.userId := Credit(users[t.userId], t.fichas)];
      transactions := transactions + [t];
    }

    /** `POST /api/payments/capture-order`: an unknown order gives 404 and another user's
        order 403; a failed PayPal capture answers 500 with no write. Otherwise the order is
        marked COMPLETED, then the caller's balance is increased by the order's fichas and a
        purchase is logged; if the account is gone that increment fails with 500 after the
        order was already marked. */
    method CaptureOrder(userId: Email, orderId: string, captured: bool, now: int)
      returns (r: Response<nat>)
      requires Valid()
      modifies this`orders, this`users, this`transactions
      ensures Valid()
      ensures orderId !in old(orders) ==> r == Err(OrderNotFound)
      ensures orderId in old(orders) && old(orders)[orderId].userId != userId ==> r == Err(NotOwner)
      ensures orderId in old(orders) && old(orders)[orderId].userId == userId && !captured ==> r == Err(Internal)
      ensures (orderId in old(orders) && old(orders)[orderId].userId == userId && captured && userId !in old(users)) ==>
        r == Err(Internal)
      ensures r.Ok? <==>
        orderId in old(orders) && old(orders)[orderId].userId == userId && captured && userId in old(users)
      ensures orders ==
        if orderId in old(orders) && old(orders)[orderId].userId == userId && captured
        then old(orders)[orderId := old(orders)[orderId].(status := Completed, completedAt := Some(now))]
        else old(orders)
      ensures r.Ok? ==>
        var o := old(orders)[orderId];
        && r.body == o.fichas
        && users == old(users)[userId := Credit(old(users)[userId], o.fichas)]
        && transactions == old(transactions) + [Purchase(userId, o.fichas, orderId, o.amountCents, now)]
      ensures r.Err? ==> users == old(users) && transactions == old(transactions)
      ensures old(Balanced()) ==> Balanced()
    {
      if orderId !in orders {
        return Err(OrderNotFound);
      }
      var order := orders[orderId];
      if order.userId != userId {
        return Err(NotOwner);
      }
      if !captured {
        return Err(Internal);
      }
      orders := orders[orderId := order.(status := Completed, completedAt := Some(now))];
      if userId !in users {
        return Err(Internal);
      }
      var t := Purchase(userId, order.fichas, orderId, order.amountCents, now);
      Post(t);
      r := Ok(order.fichas);
    }

    /** `GET /api/user/fichas`: the caller's balance, an absent balance read as 0; under the
        invariants it is not negative and equals what the log credits the caller. */
    method Fichas(userId: Email) returns (r: Response<int>)
      ensures userId !in users ==> r == Err(UserNotFound)
      ensures userId in users ==> r == Ok(Balance(users[userId]))
      ensures r.Ok? && Valid() ==> r.body >= 0
      ensures r.Ok? && Balanced() ==> r.body == Credited(transactions, userId)
    {
      if userId !in users {
        return Err(UserNotFound);
      }
      r := Ok(Balance(users[userId]));
    }

    /** `GET /api/user/transactions`: the caller's transactions, collected one document at a
        time from the log; they are exactly the logged transactions that carry the caller's
        id, and under the ledger invariant they add up to the caller's balance. */
    method History(userId: Email) returns (txs: seq<Transaction>)
      ensures txs == OfUser(transactions, userId)
      ensures forall t :: t in txs <==> t in transactions && t.userId == userId
      ensures Balanced() && userId in users ==> Total(txs) == Balance(users[userId])
    {
      txs := [];
      var i := 0;
      while i < |transactions|
        invariant 0 <= i <= |transactions|
        invariant txs == OfUser(transactions[..i], userId)
      {
        assert transactions[..i + 1][..i] == transactions[..i];
        if transactions[i].userId == userId {
          txs := txs + [transactions[i]];
        }
        i := i + 1;
      }
      assert transactions[..i] == transactions;
      OfUserMembers(transactions, userId);
    }

    /** `POST /api/user/deduct-fichas`: an amount that is not positive gives 400, a missing
        account 404, an amount above the balance 400, all with no write. Otherwise the balance
        drops by the amount, never below 0, and one game transaction of `-amount` is logged. */
    method DeductFichas(userId: Email, amount: int, now: int) returns (r: Response<int>)
      requires Valid()
      modifies this`users, this`transactions
      ensures Valid()
      ensures amount <= 0 ==> r == Err(InvalidAmount)
      ensures amount > 0 && userId !in old(users) ==> r == Err(UserNotFound)
      ensures amount > 0 && userId in old(users) && Balance(old(users)[userId]) < amount ==> r == Err(InsufficientFichas)
      ensures r.Ok? <==> amount > 0 && userId in old(users) && amount <= Balance(old(users)[userId])
      ensures r.Ok? ==>
        && r.body == Balance(old(users)[userId]) - amount >= 0
        && users == old(users)[userId := Credit(old(users)[userId], -amount)]
        && transactions == old(transactions) + [Game(userId, -amount, now)]
      ensures r.Err? ==> users == old(users) && transactions == old(transactions)
      ensures old(Balanced()) ==> Balanced()
    {
      if amount <= 0 {
        return Err(InvalidAmount);
      }
      if userId !in users {
        return Err(UserNotFound);
      }
      var current := Balance(users[userId]);
      if current < amount {
        return Err(InsufficientFichas);
      }
      var t := Game(userId, -amount, now);
      Post(t);
      r := Ok(current - amount);
    }

    /** `POST /api/user/add-fichas`: an amount that is not positive gives 400 and a missing
        account 404, with no write. Otherwise the balance rises by the amount and one prize
        transaction of `amount` is logged. */
    method AddFichas(userId: Email, amount: int, now: int) returns (r: Response<int>)
      requires Valid()
      modifies this`users, this`transactions
      ensures Valid()
      ensures amount <= 0 ==> r == Err(InvalidAmount)
      ensures amount > 0 && userId !in old(users) ==> r == Err(UserNotFound)
      ensures r.Ok? <==> amount > 0 && userId in old(users)
      ensures r.Ok? ==>
        && r.body == Balance(old(users)[userId]) + amount
        && users == old(users)[userId := Credit(old(users)[userId], amount)]
        && transactions == old(transactions) + [Prize(userId, amount, now)]
      ensures r.Err? ==> users == old(users) && transactions == old(transactions)
      ensures old(Balanced()) ==> Balanced()
    {
      if amount <= 0 {
        return Err(InvalidAmount);
      }
      if userId !in users {
        return Err(UserNotFound);
      }
      var current := Balance(users[userId]);
      var t := Prize(userId, amount, now);
      Post(t);
      r := Ok(current + amount);
    }

    /** `POST /api/user/canjear-producto`: a zero product id or a price that is not positive
        gives 400, a missing account 404, a balance below the price 400 (checked before the
        product), a product that is not in the table at exactly that price 400, all with no
        write. Otherwise the balance drops by the price and an exchange transaction and a
        pending redemption are logged. */
    method RedeemProduct(userId: Email, productId: int, price: int, now: int) returns (r: Response<int>)
      requires Valid()
      modifies this`users, this`transactions, this`redemptions
      ensures Valid()
      ensures productId == 0 || price <= 0 ==> r == Err(InvalidRedemption)
      ensures productId != 0 && price > 0 && userId !in old(users) ==> r == Err(UserNotFound)
      ensures productId != 0 && price > 0 && userId in old(users) && Balance(old(users)[userId]) < price ==>
        r == Err(InsufficientFichas)
      ensures (productId != 0 && price > 0 && userId in old(users) && price <= Balance(old(users)[userId]) &&
        !(Find(Products, productId).Some? && Find(Products, productId).value.price == price)) ==>
        r == Err(InvalidProduct)
      ensures r.Ok? <==>
        && productId != 0 && price > 0
        && userId in old(users)
        && price <= Balance(old(users)[userId])
        && Find(Products, productId).Some? && Find(Products, productId).value.price == price
      ensures r.Ok? ==>
        var p := Find(Products, productId).value;
        && r.body == Balance(old(users)[userId]) - price >= 0
        && users == old(users)[userId := Credit(old(users)[userId], -price)]
        && transactions == old(transactions) + [Exchange(userId, -price, productId, p.name, p.price, now)]
        && redemptions == old(redemptions) + [Redemption(userId, productId, now)]
      ensures r.Err? ==> users == old(users) && transactions == old(transactions) && redemptions == old(redemptions)
      ensures old(Balanced()) ==> Balanced()
    {
      if productId == 0 || price <= 0 {
        return Err(InvalidRedemption);
      }
      if userId !in users {
        return Err(UserNotFound);
      }
      var current := Balance(users[userId]);
      if current < price {
        return Err(InsufficientFichas);
      }
      var product := Find(Products, productId);
      if product.None? || product.value.price != price {
        return Err(InvalidProduct);
      }
      var t := Exchange(userId, -price, productId, product.value.name, product.value.price, now);
      Post(t);
      redemptions := redemptions + [Redemption(userId, productId, now)];
      r := Ok(current - price);
    }
  }
}
