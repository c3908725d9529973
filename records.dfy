/**
 * The documents the server keeps in its store, the replies its routes send, and the
 * functions over the transaction log that give each user's credited fichas.
 */
module Records {
  import opened Wrappers
  import opened Crypto

  type Email = string

  /** A document of `tempUsers`: a registration waiting for its first one-time code. */
  datatype PendingAccount = PendingAccount(
    email: Email,
    username: string,
    password: PasswordHash,
    mfaSecret: string,
    verified: bool,
    createdAt: int)

  /** A document of `users`. `fichas` is a field that may be absent from the document. */
  datatype Account = Account(
    email: Email,
    username: string,
    password: PasswordHash,
    mfaSecret: string,
    verified: bool,
    mfaEnabled: bool,
    createdAt: int,
    fichas: Option<int>)

  /** The fichas balance of an account, `userData.fichas || 0`: an absent balance is 0. */
  function Balance(a: Account): int {
    a.fichas.GetOr(0)
  }

  /** `{ ...tempUser, verified: true, mfaEnabled: true, mfaSecret, fichas: 0 }`: the account a
      pending registration becomes. */
  function Promote(p: PendingAccount): (a: Account)
    ensures a.email == p.email && a.username == p.username && a.password == p.password
    ensures a.mfaSecret == p.mfaSecret && a.createdAt == p.createdAt
    ensures a.verified && a.mfaEnabled && Balance(a) == 0
  {
    Account(p.email, p.username, p.password, p.mfaSecret, true, true, p.createdAt, Some(0))
  }

  /** A document of `passwordResets`: the code that was mailed and when it stops being valid
      (milliseconds since the epoch). */
  datatype ResetRequest = ResetRequest(code: string, expiresAt: int)

  datatype OrderStatus = Created | Completed

  /** A document of `orders`, keyed by the PayPal order id. */
  datatype Order = Order(
    userId: Email,
    packageId: int,
    fichas: nat,
    amountCents: nat,
    status: OrderStatus,
    createdAt: int,
    completedAt: Option<int>,
    paypalOrderId: string)

  /** A document of `transactions`; `fichas` is the signed change to the user's balance.
      The constructors are the `tipo` values COMPRA, JUEGO, PREMIO and CANJE. */
  datatype Transaction =
    | Purchase(userId: Email, fichas: int, orderId: string, amountCents: nat, date: int)
    | Game(userId: Email, fichas: int, date: int)
    | Prize(userId: Email, fichas: int, date: int)
    | Exchange(userId: Email, fichas: int, productId: int, productName: string, price: nat, date: int)

  /** A document of `redemptions`: a redeemed product waiting to be shipped ('PENDIENTE'). */
  datatype Redemption = Redemption(userId: Email, productId: int, date: int)

  /** Why a route answered with an error; `Status` gives the HTTP status it sends. */
  datatype Failure =
    | InvalidUsername       // 'Nombre de usuario inválido'
    | WeakPassword          // 'Contraseña no cumple requisitos' and its reset-password wording
    | UserNotFound          // 'Usuario no encontrado'
    | InvalidCode           // 'Código inválido'
    | NotVerified           // 'Usuario no verificado'
    | InvalidCredentials    // 'Credenciales inválidas'
    | IncompleteData        // 'Datos incompletos'
    | MfaNotConfigured      // 'MFA no configurado'
    | NoAccountForEmail     // 'No existe una cuenta con este correo'
    | InvalidOrExpired      // 'Código inválido o expirado'
    | MissingToken          // 'Acceso denegado', 'No autorizado', 'Acceso no autorizado'
    | InvalidToken          // 'Token inválido'
    | UsernameTaken         // 'Nombre de usuario ya está en uso'
    | InvalidPackage        // 'Paquete no válido'
    | OrderNotFound         // 'Orden no encontrada'
    | NotOwner              // 'No autorizado' on an order of another user
    | InvalidAmount         // 'Cantidad inválida'
    | InsufficientFichas    // 'Fichas insuficientes'
    | InvalidRedemption     // 'Datos de canje inválidos'
    | InvalidProduct        // 'Producto no válido'
    | Internal              // any exception caught by a handler's try/catch
  {
    function Status(): (code: int)
      ensures code in {400, 401, 403, 404, 500}
      ensures code == 500 <==> this == Internal
    {
      match this
      case UserNotFound | NoAccountForEmail | OrderNotFound => 404
      case InvalidCode | InvalidCredentials | MissingToken => 401
      case NotVerified | InvalidToken | NotOwner => 403
      case Internal => 500
      case _ => 400
    }
  }

  /** The reply of a route: a JSON body with status 200, or an error. */
  datatype Response<T> = Ok(body: T) | Err(failure: Failure) {
    function Status(): (code: int)
      ensures code == 200 <==> Ok?
    {
      if Ok? then 200 else failure.Status()
    }
  }

  /** The transactions of the log that belong to user `u`, in log order (the query
      `where('userId', '==', u)`). */
  function OfUser(txs: seq<Transaction>, u: Email): (r: seq<Transaction>)
    ensures |r| <= |txs|
    decreases |txs|
  {
    if txs == [] then []
    else
      var last := txs[|txs| - 1];
      OfUser(txs[..|txs| - 1], u) + (if last.userId == u then [last] else [])
  }

  /** The user's transactions are exactly the transactions of the log that carry the
      user's id. */
  lemma {:induction false} OfUserMembers(txs: seq<Transaction>, u: Email)
    ensures forall t :: t in OfUser(txs, u) <==> t in txs && t.userId == u
    decreases |txs|
  {
    if txs != [] {
      var init := txs[..|txs| - 1];
      OfUserMembers(init, u);
      assert txs == init + [txs[|txs| - 1]];
    }
  }

  /** The user's transactions count each logged transaction of the user as often as the log
      holds it, and no other transaction: what `Total` adds up is exactly the user's part of
      the log. */
  lemma {:induction false} OfUserMultiset(txs: seq<Transaction>, u: Email)
    ensures forall t :: multiset(OfUser(txs, u))[t] == if t.userId == u then multiset(txs)[t] else 0
    decreases |txs|
  {
    if txs != [] {
      var init, last := txs[..|txs| - 1], txs[|txs| - 1];
      OfUserMultiset(init, u);
      assert txs == init + [last];
      assert multiset(txs) == multiset(init) + multiset{last};
      assert multiset(OfUser(txs, u)) == multiset(OfUser(init, u)) + multiset(if last.userId == u then [last] else []);
    }
  }

  /** The sum of the fichas changes of a list of transactions. */
  function Total(txs: seq<Transaction>): int
    decreases |txs|
  {
    if txs == [] then 0 else Total(txs[..|txs| - 1]) + txs[|txs| - 1].fichas
  }

  /** The fichas credited to `u` by the log. */
  function Credited(txs: seq<Transaction>, u: Email): int {
    Total(OfUser(txs, u))
  }

  /** Appending one transaction changes the credit of its own user by its amount and the
      credit of every other user not at all. */
  lemma CreditedAppend(txs: seq<Transaction>, t: Transaction, u: Email)
    ensures Credited(txs + [t], u) == Credited(txs, u) + (if t.userId == u then t.fichas else 0)
  {
    var s := txs + [t];
    assert s[..|s| - 1] == txs;
    assert OfUser(s, u) == OfUser(txs, u) + (if t.userId == u then [t] else []);
    if t.userId == u {
      var f := OfUser(txs, u) + [t];
      assert f[..|f| - 1] == OfUser(txs, u);
      assert Total(f) == Total(OfUser(txs, u)) + t.fichas;
    } else {
      assert OfUser(s, u) == OfUser(txs, u) + [];
      assert OfUser(txs, u) + [] == OfUser(txs, u);
    }
  }

  /** A user with no transaction in the log has been credited nothing. */
  lemma {:induction false} CreditedNone(txs: seq<Transaction>, u: Email)
    requires forall i :: 0 <= i < |txs| ==> txs[i].userId != u
    ensures OfUser(txs, u) == [] && Credited(txs, u) == 0
    decreases |txs|
  {
    if txs != [] {
      CreditedNone(txs[..|txs| - 1], u);
    }
  }
}
