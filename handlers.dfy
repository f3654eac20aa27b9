/** The checks the bot's command and button handlers make before they call
    the database, with the chat replies reduced to an outcome value
    (bot.py:679-731, 956-984, 1043-1066, 1273-1295, 1328-1368). */
module Handlers {
  import opened Records
  import opened Inventory
  import opened Ledger
  import opened Database

  /** What a handler tells the user, without the message text. */
  datatype Reply =
    | Unauthorized
    | UserNotFound
    | AlreadyAdmin
    | InvalidPrice
    | DuplicateUsername
    | InsufficientBalance(required: Money, balance: Money)
    | InsufficientStock(requested: int, inStock: nat)
    | PurchaseFailed
    | Delivered(accounts: seq<Account>)
    | AccountAdded(accountId: int, available: nat)
    | FundsAdded(amount: Money)
    | AdminPromoted
    | AddAdminFailed
    | PriceChanged(oldPrice: Money, newPrice: Money)

  /** The outcome of a purchase that passed both checks: the first
      `quantity` available records are sold to the buyer and their usernames
      join the used set, the buyer is charged `quantity * price` (which
      leaves a balance of at least zero), one purchase transaction is logged,
      and the reply delivers the records, or reports a failure when there
      are none. */
  twostate predicate PurchaseDone(db: ChatDatabase, userId: int, quantity: int, now: Time, reply: Reply)
    requires userId in old(db.users) && quantity <= old(AvailableCount(db.stock))
    reads db
  {
    var u := old(db.users)[userId];
    var price := old(db.GetTwitterPrice());
    var total := quantity as real * price;
    && reply == (if quantity >= 1 then Delivered(Bought(old(db.stock), quantity, userId, now.text))
                 else PurchaseFailed)
    && db.stock == SellFirst(old(db.stock), Clamp(quantity), userId, now.text)
    && db.used == old(db.used) + Usernames(Bought(old(db.stock), Clamp(quantity), userId, now.text))
    && db.users == old(db.users)[userId := Charge(u, quantity, total)]
    && userId in db.users && db.users[userId].balance >= 0.0
    && db.transactions == old(db.transactions)
                          + [NewTransaction(PurchaseTwitter, userId, total, Purchased(quantity, price), now)]
  }

  /** `purchase_twitter_accounts`: the balance check, then the stock check,
      then the purchase; an empty result is reported as a failure even
      though the database has already logged the (empty) purchase. An
      unknown buyer makes the handler fail on its first lookup. */
  method PurchaseTwitterAccounts(db: ChatDatabase, userId: int, quantity: int, now: Time)
    returns (reply: Reply)
    requires db.Valid()
    modifies db
    ensures db.Valid()
    ensures userId !in old(db.users) ==> reply == UserNotFound && unchanged(db)
    ensures userId in old(db.users) ==>
      var balance := old(db.users)[userId].balance;
      var total := quantity as real * old(db.GetTwitterPrice());
      && (balance < total ==> reply == InsufficientBalance(total, balance) && unchanged(db))
      && (balance >= total && old(AvailableCount(db.stock)) < quantity ==>
            reply == InsufficientStock(quantity, old(AvailableCount(db.stock))) && unchanged(db))
      && (balance >= total && quantity <= old(AvailableCount(db.stock)) ==>
            PurchaseDone(db, userId, quantity, now, reply))
    ensures reply.Delivered? ==> |reply.accounts| == quantity
    ensures unchanged(db`userOrder, db`payments, db`settings, db`admins)
  {
    var user := db.GetUser(userId);
    if user.None? {
      return UserNotFound;
    }
    var price := db.GetTwitterPrice();
    var total := quantity as real * price;
    if user.value.balance < total {
      return InsufficientBalance(total, user.value.balance);
    }
    var available := db.GetAvailableTwitterCount();
    if available < quantity {
      return InsufficientStock(quantity, available);
    }
    reply := Deliver(db, userId, quantity, now);
  }

  /** The purchase `purchase_twitter_accounts` makes once the balance and
      the stock checks pass, and the reply it gives for the result. */
  method Deliver(db: ChatDatabase, userId: int, quantity: int, now: Time) returns (reply: Reply)
    requires db.Valid() && userId in db.users
    requires db.users[userId].balance >= quantity as real * db.GetTwitterPrice()
    requires quantity <= AvailableCount(db.stock)
    modifies db
    ensures db.Valid()
    ensures PurchaseDone(db, userId, quantity, now, reply)
    ensures reply.Delivered? ==> |reply.accounts| == quantity
    ensures unchanged(db`userOrder, db`payments, db`settings, db`admins)
  {
    var purchased := db.PurchaseTwitterAccount(userId, quantity, now);
    if purchased.None? || purchased.value == [] {
      return PurchaseFailed;
    }
    reply := Delivered(purchased.value);
  }

  /** The append `add_twitter` makes once its checks pass, and the
      available count it reports. */
  method AppendAccount(db: ChatDatabase, callerId: int, username: string, password: string,
                       email: string, now: Time)
    returns (reply: Reply)
    requires db.Valid() && !HasUsername(db.stock, username)
    modifies db
    ensures db.Valid()
    ensures reply == AccountAdded(|old(db.stock)| + 1, old(AvailableCount(db.stock)) + 1)
    ensures db.stock == old(db.stock) + [NewAccount(|old(db.stock)| + 1, username, password, email, callerId, now)]
    ensures old(DistinctUsernames(db.stock)) ==> DistinctUsernames(db.stock)
    ensures unchanged(db`users, db`userOrder, db`transactions, db`payments, db`settings, db`used, db`admins)
  {
    ghost var s := db.stock;
    var accountId := db.AddTwitterAccount(username, password, email, callerId, now);
    if DistinctUsernames(s) {
      AppendDistinctUsernames(s, db.stock[|s|]);
    }
    AppendAvailable(s, db.stock[|s|]);
    var available := db.GetAvailableTwitterCount();
    reply := AccountAdded(accountId, available);
  }

  /** `add_twitter`: admins only, and no record in the stock, sold or
      unsold, may already carry the username. */
  method AddTwitter(db: ChatDatabase, callerId: int, username: string, password: string,
                    email: string, now: Time)
    returns (reply: Reply)
    requires db.Valid()
    modifies db
    ensures db.Valid()
    ensures !old(db.IsAdmin(callerId)) ==> reply == Unauthorized && unchanged(db)
    ensures old(db.IsAdmin(callerId)) && HasUsername(old(db.stock), username) ==>
      reply == DuplicateUsername && unchanged(db)
    ensures old(db.IsAdmin(callerId)) && !HasUsername(old(db.stock), username) ==>
      && reply == AccountAdded(|old(db.stock)| + 1, old(AvailableCount(db.stock)) + 1)
      && db.stock == old(db.stock) + [NewAccount(|old(db.stock)| + 1, username, password, email, callerId, now)]
    ensures old(DistinctUsernames(db.stock)) ==> DistinctUsernames(db.stock)
    ensures unchanged(db`users, db`userOrder, db`transactions, db`payments, db`settings, db`used, db`admins)
  {
    if !db.IsAdmin(callerId) {
      return Unauthorized;
    }
    if HasUsername(db.stock, username) {
      return DuplicateUsername;
    }
    reply := AppendAccount(db, callerId, username, password, email, now);
  }

  /** The credit `transfer_funds` makes once its checks pass: the balance
      update and the admin transaction the handler appends itself. */
  method CreditUser(db: ChatDatabase, userId: int, amount: Money, now: Time)
    requires db.Valid() && userId in db.users
    modifies db`users, db`transactions
    ensures db.Valid()
    ensures db.users == old(db.users)[userId := Adjust(old(db.users)[userId], amount, true)]
    ensures db.Balances() == old(db.Balances()) + amount
    ensures db.transactions == old(db.transactions) + [NewTransaction(AdminAddFunds, userId, amount, AdminAdded, now)]
    ensures TotalSales(db.transactions) == old(TotalSales(db.transactions))
    ensures unchanged(db`userOrder, db`stock, db`payments, db`settings, db`used, db`admins)
  {
    var t := NewTransaction(AdminAddFunds, userId, amount, AdminAdded, now);
    var log := db.transactions + [t];
    TotalSalesAppend(db.transactions, t);
    var _ := db.UpdateBalance(userId, amount, true);
    db.transactions := log;
  }

  /** `transfer_funds`: admins only, to a known user; credits the amount
      (which may be negative) and logs an admin transaction. */
  method TransferFunds(db: ChatDatabase, callerId: int, userId: int, amount: Money, now: Time)
    returns (reply: Reply)
    requires db.Valid()
    modifies db
    ensures db.Valid()
    ensures !old(db.IsAdmin(callerId)) ==> reply == Unauthorized && unchanged(db)
    ensures old(db.IsAdmin(callerId)) && userId !in old(db.users) ==> reply == UserNotFound && unchanged(db)
    ensures old(db.IsAdmin(callerId)) && userId in old(db.users) ==>
      && reply == FundsAdded(amount)
      && db.users == old(db.users)[userId := Adjust(old(db.users)[userId], amount, true)]
      && db.Balances() == old(db.Balances()) + amount
      && db.transactions == old(db.transactions) + [NewTransaction(AdminAddFunds, userId, amount, AdminAdded, now)]
      && TotalSales(db.transactions) == old(TotalSales(db.transactions))
    ensures unchanged(db`userOrder, db`stock, db`payments, db`settings, db`used, db`admins)
  {
    if !db.IsAdmin(callerId) {
      return Unauthorized;
    }
    var user := db.GetUser(userId);
    if user.None? {
      return UserNotFound;
    }
    CreditUser(db, userId, amount, now);
    reply := FundsAdded(amount);
  }

  /** `add_new_admin`: admins only; the new admin must be a known user who
      is not an admin yet. */
  method AddNewAdmin(db: ChatDatabase, callerId: int, newAdminId: int) returns (reply: Reply)
    requires db.Valid()
    modifies db
    ensures db.Valid()
    ensures !old(db.IsAdmin(callerId)) ==> reply == Unauthorized && unchanged(db)
    ensures old(db.IsAdmin(callerId)) && newAdminId !in old(db.users) ==> reply == UserNotFound && unchanged(db)
    ensures old(db.IsAdmin(callerId)) && newAdminId in old(db.users) && old(db.IsAdmin(newAdminId)) ==>
      reply == AlreadyAdmin && unchanged(db)
    ensures old(db.IsAdmin(callerId)) && newAdminId in old(db.users) && !old(db.IsAdmin(newAdminId)) ==>
      reply == AdminPromoted && db.admins == old(db.admins) + [newAdminId]
    ensures unchanged(db`users, db`userOrder, db`stock, db`transactions, db`payments, db`settings, db`used)
  {
    if !db.IsAdmin(callerId) {
      return Unauthorized;
    }
    var user := db.GetUser(newAdminId);
    if user.None? {
      return UserNotFound;
    }
    if db.IsAdmin(newAdminId) {
      return AlreadyAdmin;
    }
    var success := db.AddAdmin(newAdminId, callerId);
    reply := if success then AdminPromoted else AddAdminFailed;
  }

  /** `change_twitter_price`: admins only, and the new price must be positive. */
  method ChangeTwitterPrice(db: ChatDatabase, callerId: int, newPrice: Money) returns (reply: Reply)
    requires db.Valid()
    modifies db
    ensures db.Valid()
    ensures !old(db.IsAdmin(callerId)) ==> reply == Unauthorized && unchanged(db)
    ensures old(db.IsAdmin(callerId)) && newPrice <= 0.0 ==> reply == InvalidPrice && unchanged(db)
    ensures old(db.IsAdmin(callerId)) && newPrice > 0.0 ==>
      && reply == PriceChanged(old(db.GetTwitterPrice()), newPrice)
      && db.settings == old(db.settings)[PriceKey := newPrice]
      && db.GetTwitterPrice() == newPrice
    ensures old(db.GetTwitterPrice()) > 0.0 ==> db.GetTwitterPrice() > 0.0
    ensures unchanged(db`users, db`userOrder, db`stock, db`transactions, db`payments, db`used, db`admins)
  {
    if !db.IsAdmin(callerId) {
      return Unauthorized;
    }
    if newPrice <= 0.0 {
      return InvalidPrice;
    }
    var oldPrice := db.GetTwitterPrice();
    var _ := db.UpdateTwitterPrice(newPrice);
    reply := PriceChanged(oldPrice, newPrice);
  }
}
