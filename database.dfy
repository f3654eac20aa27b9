/** `ChatDatabase`: the bot's whole mutable state, kept in memory and
    changed in place by its methods (bot.py:45-355). */
module Database {
  import opened Records
  import opened Lists
  import opened Inventory
  import opened Ledger
  import opened Payments

  /** What `get_statistics` reports; its ten most recent transactions are
      not part of the model. */
  datatype Statistics = Statistics(
    userCount: nat,
    totalBalance: Money,
    totalSales: Money,
    totalStock: nat,
    soldStock: nat,
    availableStock: int,
    adminCount: nat,
    currentPrice: Money)

  /** The root is an admin and no admin is listed twice. */
  ghost predicate AdminsValid(admins: seq<int>, root: int)
  {
    root in admins && Distinct(admins)
  }

  ghost predicate PaymentsValid(payments: seq<Payment>)
  {
    forall i :: 0 <= i < |payments| ==> WellFormed(payments[i])
  }

  /** The user record after a purchase of `quantity` accounts costing `total`. */
  function Charge(u: User, quantity: int, total: Money): User
  {
    u.(balance := u.balance - total, totalSpent := u.totalSpent + total,
       totalPurchases := u.totalPurchases + quantity)
  }

  /** The user record after `update_balance`. */
  function Adjust(u: User, amount: Money, add: bool): User
  {
    u.(balance := if add then u.balance + amount else u.balance - amount)
  }

  /** How many accounts `for i in range(quantity)` visits. */
  function Clamp(quantity: int): nat
  {
    if quantity < 0 then 0 else quantity
  }

  class ChatDatabase {
    /** `ADMIN_CHAT_ID`, the root admin, read from the environment. */
    const root: int
    /** `data['users']`, keyed by user id, with its keys in insertion order. */
    var users: map<int, User>
    var userOrder: seq<int>
    /** `data['twitter_stock']`. */
    var stock: seq<Account>
    /** `data['transactions']`. */
    var transactions: seq<Transaction>
    /** `data['payments']`. */
    var payments: seq<Payment>
    /** `data['admin_settings']`, the numeric part: the price. */
    var settings: map<string, Money>
    /** `data['used_twitter_accounts']`. */
    var used: set<string>
    /** `data['admins']`. */
    var admins: seq<int>

    ghost predicate Valid()
      reads this
    {
      && AdminsValid(admins, root)
      && UsersValid(users, userOrder)
      && StockValid(stock, used)
      && PaymentsValid(payments)
    }

    constructor (root: int)
      ensures Valid() && this.root == root
      ensures users == map[] && userOrder == [] && stock == [] && transactions == []
      ensures payments == [] && settings == map[] && used == {} && admins == [root]
    {
      this.root := root;
      users, userOrder, stock, transactions := map[], [], [], [];
      payments, settings, used, admins := [], map[], {}, [root];
    }

    /** The sum of all balances (`total_balance` of the statistics). */
    function Balances(): Money
      reads this
      requires Valid()
    {
      TotalBalance(users, userOrder)
    }

    function GetUser(userId: int): (r: Option<User>)
      reads this
      requires Valid()
      ensures r.Some? <==> userId in userOrder
      ensures r.Some? ==> r.value.userId == userId
    {
      if userId in users then Some(users[userId]) else None
    }

    method CreateUser(userId: int, username: Option<string>, firstName: string,
                      lastName: Option<string>, now: Time) returns (created: bool)
      requires Valid()
      modifies this
      ensures Valid()
      ensures created == (userId !in old(users))
      ensures created ==> users == old(users)[userId := NewUser(userId, username, firstName, lastName, now)]
                          && userOrder == old(userOrder) + [userId]
      ensures !created ==> users == old(users) && userOrder == old(userOrder)
      ensures Balances() == old(Balances())
      ensures unchanged(this`stock, this`transactions, this`payments, this`settings, this`used, this`admins)
    {
      created := userId !in users;
      if created {
        var u := NewUser(userId, username, firstName, lastName, now);
        UsersInsert(users, userOrder, userId, u);
        users := users[userId := u];
        userOrder := userOrder + [userId];
      }
    }

    function IsAdmin(userId: int): (r: bool)
      reads this
      requires Valid()
      ensures userId == root ==> r
    {
      userId in admins
    }

    method AddAdmin(userId: int, addedBy: int) returns (added: bool)
      requires Valid()
      modifies this
      ensures Valid()
      ensures added == (userId !in old(admins))
      ensures admins == if added then old(admins) + [userId] else old(admins)
      ensures IsAdmin(userId)
      ensures unchanged(this`users, this`userOrder, this`stock, this`transactions,
                        this`payments, this`settings, this`used)
    {
      added := userId !in admins;
      if added {
        admins := admins + [userId];
      }
    }

    method RemoveAdmin(userId: int) returns (removed: bool)
      requires Valid()
      modifies this
      ensures Valid()
      ensures removed == (userId in old(admins) && userId != root)
      ensures removed ==> admins == RemoveFirst(old(admins), userId) && !IsAdmin(userId)
                          && forall x :: x in admins <==> x in old(admins) && x != userId
      ensures !removed ==> admins == old(admins)
      ensures IsAdmin(root)
      ensures unchanged(this`users, this`userOrder, this`stock, this`transactions,
                        this`payments, this`settings, this`used)
    {
      removed := userId in admins && userId != root;
      if removed {
        RemoveFirstDistinct(admins, userId);
        admins := RemoveFirst(admins, userId);
      }
    }

    function GetAllAdmins(): (r: seq<int>)
      reads this
      requires Valid()
      ensures root in r && Distinct(r)
    {
      admins
    }

    function GetTwitterPrice(): (r: Money)
      reads this
      ensures PriceKey in settings ==> r == settings[PriceKey]
      ensures PriceKey !in settings ==> r == DefaultPrice
    {
      if PriceKey in settings then settings[PriceKey] else DefaultPrice
    }

    method UpdateTwitterPrice(newPrice: Money) returns (ok: bool)
      requires Valid()
      modifies this
      ensures Valid()
      ensures ok && settings == old(settings)[PriceKey := newPrice]
      ensures GetTwitterPrice() == newPrice
      ensures unchanged(this`users, this`userOrder, this`stock, this`transactions,
                        this`payments, this`used, this`admins)
    {
      settings := settings[PriceKey := newPrice];
      ok := true;
    }

    method UpdateBalance(userId: int, amount: Money, add: bool) returns (ok: bool)
      requires Valid()
      modifies this`users
      ensures Valid()
      ensures ok == (userId in old(users))
      ensures ok ==> users == old(users)[userId := Adjust(old(users)[userId], amount, add)]
      ensures !ok ==> users == old(users)
      ensures Balances() == old(Balances()) + (if !ok then 0.0 else if add then amount else -amount)
      ensures unchanged(this`userOrder, this`stock, this`transactions, this`payments,
                        this`settings, this`used, this`admins)
    {
      ok := userId in users;
      if ok {
        var u := Adjust(users[userId], amount, add);
        TotalBalanceUpdate(users, userOrder, userId, u);
        users := users[userId := u];
      }
    }

    method AddTwitterAccount(username: string, password: string, email: string,
                             addedBy: int, now: Time) returns (accountId: int)
      requires Valid()
      modifies this
      ensures Valid()
      ensures accountId == |old(stock)| + 1
      ensures stock == old(stock) + [NewAccount(accountId, username, password, email, addedBy, now)]
      ensures unchanged(this`users, this`userOrder, this`transactions, this`payments,
                        this`settings, this`used, this`admins)
    {
      accountId := |stock| + 1;
      var account := NewAccount(accountId, username, password, email, addedBy, now);
      AppendAvailable(stock, account);
      StockAppend(stock, used, account);
      stock := stock + [account];
    }

    function GetAvailableTwitterCount(): (r: nat)
      reads this
      ensures r == |stock| - SoldCount(stock)
    {
      SoldPlusAvailable(stock);
      AvailableCount(stock)
    }

    function GetTwitterAccounts(limit: int): (r: seq<Account>)
      reads this
      ensures |r| <= AvailableCount(stock) && r == Available(stock)[..|r|]
      ensures forall a :: a in r ==> a in stock && !a.isSold
    {
      FirstAvailable(stock, limit)
    }

    /** The loop of `purchase_twitter_account`: marks the first `quantity`
        available accounts sold, adding each username to the used set and a
        copy of each record to the bought list. */
    method MarkFirstSold(avail: seq<nat>, userId: int, quantity: nat, now: Time)
      returns (bought: seq<Account>)
      requires StockValid(stock, used)
      requires avail == UnsoldIndices(stock) && quantity <= |avail|
      modifies this`stock, this`used
      ensures StockValid(stock, used)
      ensures stock == SellFirst(old(stock), quantity, userId, now.text)
      ensures bought == Bought(old(stock), quantity, userId, now.text)
      ensures used == old(used) + Usernames(bought)
    {
      SellFirstRecorded(stock, quantity, userId, now.text, used);
      stock, bought, used := SellEach(stock, avail, userId, now.text, quantity, used);
    }

    /** The end of a purchase: a known buyer's stats are charged for
        `quantity` accounts at `price`, and the purchase is logged whether
        or not the buyer is known. */
    method ChargeAndLog(userId: int, quantity: int, price: Money, now: Time)
      requires UsersValid(users, userOrder)
      modifies this`users, this`transactions
      ensures UsersValid(users, userOrder)
      ensures var total := quantity as real * price;
        users == if userId in old(users) then old(users)[userId := Charge(old(users)[userId], quantity, total)]
                 else old(users)
      ensures TotalBalance(users, userOrder)
              == old(TotalBalance(users, userOrder)) - (if userId in old(users) then quantity as real * price else 0.0)
      ensures transactions == old(transactions)
              + [NewTransaction(PurchaseTwitter, userId, quantity as real * price, Purchased(quantity, price), now)]
    {
      var total := quantity as real * price;
      if userId in users {
        var u := Charge(users[userId], quantity, total);
        TotalBalanceUpdate(users, userOrder, userId, u);
        users := users[userId := u];
      }
      transactions := transactions + [NewTransaction(PurchaseTwitter, userId, total, Purchased(quantity, price), now)];
    }

    /** `purchase_twitter_account` past its stock check: the sale loop, the
        charge to the buyer and the transaction record. */
    method CompletePurchase(avail: seq<nat>, userId: int, quantity: int, now: Time)
      returns (bought: seq<Account>)
      requires Valid()
      requires avail == UnsoldIndices(stock) && quantity <= |avail|
      modifies this`stock, this`used, this`users, this`transactions
      ensures Valid()
      ensures bought == Bought(old(stock), Clamp(quantity), userId, now.text)
      ensures stock == SellFirst(old(stock), Clamp(quantity), userId, now.text)
      ensures used == old(used) + Usernames(bought)
      ensures var total := quantity as real * old(GetTwitterPrice());
        users == (if userId in old(users) then old(users)[userId := Charge(old(users)[userId], quantity, total)]
                  else old(users))
      ensures var total := quantity as real * old(GetTwitterPrice());
        Balances() == old(Balances()) - (if userId in old(users) then total else 0.0)
      ensures var price := old(GetTwitterPrice());
        transactions == old(transactions)
                        + [NewTransaction(PurchaseTwitter, userId, quantity as real * price, Purchased(quantity, price), now)]
      ensures unchanged(this`userOrder, this`payments, this`settings, this`admins)
    {
      var price := GetTwitterPrice();
      bought := MarkFirstSold(avail, userId, Clamp(quantity), now);
      ChargeAndLog(userId, quantity, price, now);
      assert price == old(GetTwitterPrice());
      assert AdminsValid(admins, root) && UsersValid(users, userOrder)
          && StockValid(stock, used) && PaymentsValid(payments);
    }

    /** `purchase_twitter_account`: refuses when fewer accounts are available
        than asked for; otherwise sells the earliest ones, charges a known
        buyer without checking the balance, and logs the purchase. A
        negative quantity sells nothing and credits the buyer. */
    method PurchaseTwitterAccount(userId: int, quantity: int, now: Time)
      returns (purchased: Option<seq<Account>>)
      requires Valid()
      modifies this
      ensures Valid()
      ensures quantity > old(AvailableCount(stock)) ==>
        purchased == None && unchanged(this)
      ensures quantity <= old(AvailableCount(stock)) ==>
        var price := old(GetTwitterPrice());
        var total := quantity as real * price;
        && purchased == Some(Bought(old(stock), Clamp(quantity), userId, now.text))
        && stock == SellFirst(old(stock), Clamp(quantity), userId, now.text)
        && used == old(used) + Usernames(purchased.value)
        && users == (if userId in old(users) then old(users)[userId := Charge(old(users)[userId], quantity, total)]
                     else old(users))
        && Balances() == old(Balances()) - (if userId in old(users) then total else 0.0)
        && transactions == old(transactions)
                           + [NewTransaction(PurchaseTwitter, userId, total, Purchased(quantity, price), now)]
      ensures unchanged(this`userOrder, this`payments, this`settings, this`admins)
    {
      var avail := UnsoldIndices(stock);
      if |avail| < quantity {
        return None;
      }
      var bought := CompletePurchase(avail, userId, quantity, now);
      purchased := Some(bought);
    }

    method CreatePayment(paymentId: string, userId: int, now: Time) returns (payment: Payment)
      requires Valid()
      modifies this
      ensures Valid()
      ensures payment == NewPayment(paymentId, userId, now) && payment.status == Pending
      ensures payments == old(payments) + [payment]
      ensures unchanged(this`users, this`userOrder, this`stock, this`transactions,
                        this`settings, this`used, this`admins)
    {
      payment := NewPayment(paymentId, userId, now);
      payments := payments + [payment];
    }

    method UpdatePaymentUtr(paymentId: string, utr: string) returns (found: bool)
      requires Valid()
      modifies this
      ensures Valid()
      ensures found == FirstMatch(old(payments), paymentId).Some?
      ensures match FirstMatch(old(payments), paymentId)
        case None => payments == old(payments)
        case Some(i) => payments == old(payments)[i := WithUtr(old(payments)[i], utr)]
                        && payments[i].status == PendingVerification
      ensures unchanged(this`users, this`userOrder, this`stock, this`transactions,
                        this`settings, this`used, this`admins)
    {
      var i := 0;
      while i < |payments|
        invariant 0 <= i <= |payments|
        invariant forall j :: 0 <= j < i ==> payments[j].paymentId != paymentId
      {
        if payments[i].paymentId == paymentId {
          payments := payments[i := WithUtr(payments[i], utr)];
          return true;
        }
        i := i + 1;
      }
      return false;
    }

    method VerifyPayment(paymentId: string, amount: Money, verifiedBy: int, now: Time)
      returns (found: bool)
      requires Valid()
      modifies this
      ensures Valid()
      ensures found == FirstMatch(old(payments), paymentId).Some?
      ensures !found ==> unchanged(this)
      ensures found ==>
        var i := FirstMatch(old(payments), paymentId).value;
        var payer := old(payments)[i].userId;
        && payments == old(payments)[i := Verify(old(payments)[i], amount, verifiedBy, now)]
        && users == (if payer in old(users) then old(users)[payer := Adjust(old(users)[payer], amount, true)]
                     else old(users))
        && Balances() == old(Balances()) + (if payer in old(users) then amount else 0.0)
        && transactions == old(transactions)
                           + [NewTransaction(AddFunds, payer, amount, PaymentVia(old(payments)[i].utr), now)]
      ensures unchanged(this`userOrder, this`stock, this`settings, this`used, this`admins)
    {
      var i := 0;
      while i < |payments|
        invariant 0 <= i <= |payments|
        invariant forall j :: 0 <= j < i ==> payments[j].paymentId != paymentId
        invariant unchanged(this)
      {
        if payments[i].paymentId == paymentId {
          var p := payments[i];
          payments := payments[i := Verify(p, amount, verifiedBy, now)];
          var _ := UpdateBalance(p.userId, amount, true);
          transactions := transactions + [NewTransaction(AddFunds, p.userId, amount, PaymentVia(p.utr), now)];
          return true;
        }
        i := i + 1;
      }
      return false;
    }

    function GetStatistics(): (r: Statistics)
      reads this
      requires Valid()
      ensures r.availableStock == GetAvailableTwitterCount()
      ensures r.soldStock + r.availableStock == r.totalStock == |stock|
      ensures r.totalBalance == Balances() && r.totalSales == TotalSales(transactions)
      ensures r.adminCount >= 1
    {
      var sold := SoldCount(stock);
      SoldPlusAvailable(stock);
      Statistics(|users|, TotalBalance(users, userOrder), TotalSales(transactions),
                 |stock|, sold, |stock| - sold, |admins|, GetTwitterPrice())
    }

    /** `get_all_users`: the user ids, in the order they were created. */
    function GetAllUsers(): (r: seq<int>)
      reads this
      requires Valid()
      ensures Distinct(r)
      ensures forall k :: k in r <==> GetUser(k).Some?
    {
      userOrder
    }
  }
}
