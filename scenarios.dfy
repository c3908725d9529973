/**
 * Walkthroughs of a client against an empty store: each method builds one, sends a
 * sequence of requests and states the reply of every request. The credentials are any
 * that pass the validators, and the TOTP library is a parameter that accepts a code
 * `code` for the generated secret; `Sample` runs the first walkthrough with
 * the account ("a@x.com", "alice1", "Passw0rd").
 */
module Scenarios {
  import opened Wrappers
  import opened Validators
  import opened Decimal
  import opened Crypto
  import opened Catalogue
  import opened Records
  import opened Backend

  lemma SampleUsernameValid()
    ensures ValidateUsername("alice1")
  {
    ValidateUsernameIff("alice1");
  }

  lemma SamplePasswordValid()
    ensures ValidatePassword("Passw0rd")
  {
    ValidatePasswordIff("Passw0rd");
    assert IsAsciiUpper("Passw0rd"[0]) && IsAsciiDigit("Passw0rd"[5]);
  }

  /** A name with `_` and a name of two characters are refused. */
  lemma SampleUsernamesInvalid()
    ensures !ValidateUsername("alice_1") && !ValidateUsername("al")
  {
    ValidateUsernameIff("alice_1");
    assert !IsAsciiAlnum("alice_1"[5]);
  }

  /** A password without an upper-case letter is refused. */
  lemma SamplePasswordNoUpper()
    ensures !ValidatePassword("passw0rd")
  {
    ValidatePasswordIff("passw0rd");
  }

  /** A password without a digit is refused. */
  lemma SamplePasswordNoDigit()
    ensures !ValidatePassword("Password")
  {
    ValidatePasswordIff("Password");
  }

  /** A password of seven characters is refused. */
  lemma SamplePasswordShort()
    ensures !ValidatePassword("Passw0r")
  {
    ValidatePasswordIff("Passw0r");
  }

  /** Registers an account on an empty store and completes the registration with an
      accepted code: the store then holds just the verified account, with no fichas. */
  method SignedUpStore(email: Email, username: string, password: string, secret: GeneratedSecret,
                       salt: string, now: int, code: string, totp: TotpCheck)
    returns (store: Store, registered: Response<string>, verified: Response<()>)
    requires ValidateUsername(username) && ValidatePassword(password)
    requires (secret.base32, code) in totp
    ensures fresh(store)
    ensures registered == Ok(secret.otpauthUrl) && verified.Ok?
    ensures store.Valid() && store.Balanced()
    ensures store.tempUsers == map[]
    ensures store.users == map[email := Account(email, username, Hash(password, salt), secret.base32, true, true, now, Some(0))]
    ensures store.passwordResets == map[] && store.orders == map[]
    ensures store.transactions == [] && store.redemptions == []
  {
    store := new Store();
    registered := store.Register(email, username, password, secret, salt, now);
    verified := store.VerifyRegistration(email, code, totp);
    assert store.tempUsers == map[email := PendingAccount(email, username, Hash(password, salt), secret.base32, false, now)] - {email};
  }

  /** Register, verify the registration, log in, pass the second factor: the password step
      asks for the code and issues no token, the code step issues a token for the email. */
  method SignUpAndSignIn(email: Email, username: string, password: string, secret: GeneratedSecret,
                         salt: string, now: int, code: string, totp: TotpCheck)
    returns (registered: Response<string>, verified: Response<()>, loggedIn: Response<LoginReply>, session: Response<MfaReply>)
    requires ValidateUsername(username) && ValidatePassword(password)
    requires (secret.base32, code) in totp && secret.base32 != "" && email != "" && code != ""
    ensures registered == Ok(secret.otpauthUrl)
    ensures verified.Ok?
    ensures loggedIn == Ok(RequiresMfa)
    ensures session == Ok(MfaReply(Sign(email), email, username))
    ensures Verify(session.body.token) == Some(email)
  {
    var store;
    store, registered, verified := SignedUpStore(email, username, password, secret, salt, now, code, totp);
    loggedIn := store.Login(email, password);
    session := store.VerifyMfa(email, code, totp);
  }

  /** The first walkthrough for the account ("a@x.com", "alice1", "Passw0rd"). */
  method Sample(secret: GeneratedSecret, salt: string, now: int, totp: TotpCheck)
    returns (registered: Response<string>, verified: Response<()>, loggedIn: Response<LoginReply>, session: Response<MfaReply>)
    requires (secret.base32, "123456") in totp && secret.base32 != ""
    ensures registered == Ok(secret.otpauthUrl) && verified.Ok? && loggedIn == Ok(RequiresMfa)
    ensures session.Ok? && session.body.email == "a@x.com" && session.body.username == "alice1"
    ensures Verify(session.body.token) == Some("a@x.com")
  {
    SampleUsernameValid();
    SamplePasswordValid();
    registered, verified, loggedIn, session := SignUpAndSignIn("a@x.com", "alice1", "Passw0rd", secret, salt, now, "123456", totp);
  }

  /** A refused code leaves the registration pending and creates no account, so the email
      cannot log in; once verified, a wrong password is refused with 401. */
  method FailedVerification(email: Email, username: string, password: string, wrongPassword: string,
                            secret: GeneratedSecret, salt: string, now: int, code: string, wrongCode: string, totp: TotpCheck)
    returns (refused: Response<()>, early: Response<LoginReply>, completed: Response<()>, mistyped: Response<LoginReply>)
    requires ValidateUsername(username) && ValidatePassword(password) && wrongPassword != password
    requires (secret.base32, code) in totp && (secret.base32, wrongCode) !in totp
    ensures refused == Err(InvalidCode) && refused.Status() == 401
    ensures early == Err(UserNotFound) && early.Status() == 404
    ensures completed.Ok?
    ensures mistyped == Err(InvalidCredentials) && mistyped.Status() == 401
  {
    var store := new Store();
    var registered := store.Register(email, username, password, secret, salt, now);
    refused := store.VerifyRegistration(email, wrongCode, totp);
    early := store.Login(email, password);
    completed := store.VerifyRegistration(email, code, totp);
    mistyped := store.Login(email, wrongPassword);
  }

  /** Password recovery: an unknown email gives 404; for the account, the mailed code resets
      the password at the last valid millisecond, after which the new password is accepted
      and the old one refused. */
  method RecoverPassword(email: Email, username: string, password: string, newPassword: string,
                         secret: GeneratedSecret, salt: string, salt': string, now: int, code: string,
                         totp: TotpCheck, unknownEmail: Email, n: nat)
    returns (unknown: Response<()>, requested: Response<()>, reset: Response<()>,
             withNew: Response<LoginReply>, withOld: Response<LoginReply>)
    requires ValidateUsername(username) && ValidatePassword(password) && ValidatePassword(newPassword)
    requires newPassword != password && unknownEmail != email
    requires (secret.base32, code) in totp && 100000 <= n < 999999
    ensures unknown == Err(NoAccountForEmail) && unknown.Status() == 404
    ensures requested.Ok?
    ensures reset.Ok?
    ensures withNew == Ok(RequiresMfa)
    ensures withOld == Err(InvalidCredentials)
  {
    var store, registered, verified := SignedUpStore(email, username, password, secret, salt, now, code, totp);
    unknown := store.ForgotPassword(unknownEmail, n, now, true);
    requested := store.ForgotPassword(email, n, now, true);
    reset := store.ResetPassword(email, ResetCode(n), newPassword, now + ResetValidityMs, salt');
    withNew := store.Login(email, newPassword);
    withOld := store.Login(email, password);
  }

  /** A reset one millisecond after expiry and a reset with another code both get the same
      400 and leave the request in place, so the right code in time still works. */
  method ExpiredOrWrongCode(email: Email, username: string, password: string, secret: GeneratedSecret,
                            salt: string, now: int, code: string, totp: TotpCheck, n: nat, wrongCode: string)
    returns (late: Response<()>, wrong: Response<()>, inTime: Response<()>)
    requires ValidateUsername(username) && ValidatePassword(password)
    requires (secret.base32, code) in totp && 100000 <= n < 999999 && wrongCode != ResetCode(n)
    ensures late == Err(InvalidOrExpired) && late.Status() == 400
    ensures wrong == Err(InvalidOrExpired)
    ensures inTime.Ok?
  {
    var store, registered, verified := SignedUpStore(email, username, password, secret, salt, now, code, totp);
    var requested := store.ForgotPassword(email, n, now, true);
    late := store.ResetPassword(email, ResetCode(n), password, now + ResetValidityMs + 1, salt);
    wrong := store.ResetPassword(email, wrongCode, password, now, salt);
    inTime := store.ResetPassword(email, ResetCode(n), password, now + 1, salt);
  }

  /** The ledger routes on a new account: a prize of 100, then a refused stake of 150, a
      redemption of the mousepad refused for lack of fichas and one refused at a wrong price,
      none of which touches the balance. */
  method FundedStore(email: Email, username: string, password: string, secret: GeneratedSecret,
                     salt: string, now: int, code: string, totp: TotpCheck)
    returns (store: Store, prize: Response<int>, stake: Response<int>, poor: Response<int>, mispriced: Response<int>)
    requires ValidateUsername(username) && ValidatePassword(password)
    requires (secret.base32, code) in totp
    ensures fresh(store) && store.Valid() && store.Balanced()
    ensures prize == Ok(100)
    ensures stake == Err(InsufficientFichas)
    ensures poor == Err(InsufficientFichas)
    ensures mispriced == Err(InvalidProduct)
    ensures email in store.users && Balance(store.users[email]) == 100 && store.orders == map[]
  {
    var registered, verified;
    store, registered, verified := SignedUpStore(email, username, password, secret, salt, now, code, totp);
    prize := store.AddFichas(email, 100, now);
    stake := store.DeductFichas(email, 150, now);
    poor := store.RedeemProduct(email, 3, 150, now);
    ProductTable(3);
    mispriced := store.RedeemProduct(email, 3, 100, now);
  }

  /** After the prize, a purchase of package 1 credits 250 fichas and the mousepad is
      redeemed for 150; the balance and the history then both come to 200. */
  method BuyAndRedeem(email: Email, username: string, password: string, secret: GeneratedSecret,
                      salt: string, now: int, code: string, totp: TotpCheck, paypal: PayPalOrder)
    returns (bought: Response<nat>, redeemed: Response<int>, balance: Response<int>, history: seq<Transaction>)
    requires ValidateUsername(username) && ValidatePassword(password)
    requires (secret.base32, code) in totp
    ensures bought == Ok(250)
    ensures redeemed == Ok(200)
    ensures balance == Ok(200)
    ensures Total(history) == 200
  {
    var store, prize, stake, poor, mispriced := FundedStore(email, username, password, secret, salt, now, code, totp);
    var created := store.CreateOrder(email, 1, Some(paypal), now);
    bought := store.CaptureOrder(email, paypal.id, true, now);
    ProductTable(3);
    redeemed := store.RedeemProduct(email, 3, 150, now);
    balance := store.Fichas(email);
    history := store.History(email);
  }
}
