/** The records kept in the bot's chat database: users, stock accounts,
    payments and ledger transactions, as the dictionaries of bot.py hold them. */
module Records {

  datatype Option<T> = None | Some(value: T)

  /** Amounts of money. The source keeps them as Python floats (rupees);
      the model uses exact reals, so no rounding is modelled. */
  type Money = real

  /** `TWITTER_PRICE`: the price of one account while no price is stored. */
  const DefaultPrice: Money := 5.0

  /** The key of the price in the admin settings map. */
  const PriceKey: string := "twitter_price"

  /** One reading of `datetime.now()`: its `str()` form and `int(timestamp())`. */
  datatype Time = Time(text: string, seconds: int)

  datatype User = User(
    userId: int,
    username: Option<string>,
    firstName: string,
    lastName: Option<string>,
    balance: Money,
    totalSpent: Money,
    totalPurchases: int,
    joinDate: string,
    lastActive: string)

  /** A Twitter account held in stock. */
  datatype Account = Account(
    id: int,
    username: string,
    password: string,
    email: string,
    addedBy: int,
    addedDate: string,
    soldTo: Option<int>,
    soldDate: Option<string>,
    isSold: bool)

  datatype PaymentStatus = Pending | PendingVerification | Verified

  datatype Payment = Payment(
    paymentId: string,
    userId: int,
    amount: Option<Money>,
    utr: Option<string>,
    status: PaymentStatus,
    qrSent: bool,
    createdAt: string,
    verifiedAt: Option<string>,
    verifiedBy: Option<int>)

  /** The `type` of a transaction; each kind also gives its id prefix
      (`TWITTER_`, `PAYMENT_`, `ADMIN_`). */
  datatype TxKind = PurchaseTwitter | AddFunds | AdminAddFunds

  /** A transaction id `<PREFIX>_<user id>_<whole seconds>`, kept as its parts. */
  datatype TxId = TxId(kind: TxKind, userId: int, seconds: int)

  /** What the `details` text of a transaction says. */
  datatype Details =
    | Purchased(quantity: int, unitPrice: Money)
    | PaymentVia(utr: Option<string>)
    | AdminAdded

  /** A ledger entry; every entry the source writes has status `completed`. */
  datatype Transaction = Transaction(
    transactionId: TxId,
    userId: int,
    amount: Money,
    kind: TxKind,
    details: Details,
    createdAt: string,
    completedAt: string)

  function NewUser(userId: int, username: Option<string>, firstName: string,
                   lastName: Option<string>, now: Time): User
  {
    User(userId, username, firstName, lastName, 0.0, 0.0, 0, now.text, now.text)
  }

  function NewAccount(id: int, username: string, password: string, email: string,
                      addedBy: int, now: Time): Account
  {
    Account(id, username, password, email, addedBy, now.text, None, None, false)
  }

  function NewPayment(paymentId: string, userId: int, now: Time): Payment
  {
    Payment(paymentId, userId, None, None, Pending, true, now.text, None, None)
  }

  function NewTransaction(kind: TxKind, userId: int, amount: Money, details: Details,
                          now: Time): Transaction
  {
    Transaction(TxId(kind, userId, now.seconds), userId, amount, kind, details, now.text, now.text)
  }
}
