/** Worked examples of the database and its handlers from an empty state:
    three small sessions, each proved to end as bot.py's code dictates. */
module Scenarios {
  import opened Records
  import opened Inventory
  import opened Database
  import opened Handlers

  /** A fresh database whose one user, 7, holds 12. */
  method ShopWithBuyer(now: Time) returns (db: ChatDatabase)
    ensures fresh(db) && db.Valid()
    ensures db.stock == [] && db.settings == map[]
    ensures 7 in db.users && db.users[7].balance == 12.0
  {
    db := new ChatDatabase(1);
    var _ := db.CreateUser(7, None, "buyer", None, now);
    var _ := db.UpdateBalance(7, 12.0, true);
  }

  /** An admin adds three accounts to an empty stock; all three are available. */
  method Restock(db: ChatDatabase, u1: string, u2: string, u3: string, now: Time)
    requires db.Valid() && db.stock == []
    modifies db
    ensures db.Valid()
    ensures |db.stock| == 3 && db.stock[0].username == u1 && db.stock[1].username == u2
    ensures Available(db.stock) == db.stock
    ensures unchanged(db`users, db`userOrder, db`settings)
  {
    var _ := db.AddTwitterAccount(u1, "pw1", "mail1", 1, now);
    var _ := db.AddTwitterAccount(u2, "pw2", "mail2", 1, now);
    var _ := db.AddTwitterAccount(u3, "pw3", "mail3", 1, now);
    NoneSold(db.stock);
  }

  /** With three unsold accounts at the default price and a buyer holding
      12, buying two delivers the first two in stock order, logs one purchase
      of 10, and leaves 2 and one available account. */
  method BuyTwo(db: ChatDatabase, u1: string, u2: string, now: Time) returns (delivered: Reply)
    requires db.Valid() && db.settings == map[]
    requires |db.stock| == 3 && db.stock[0].username == u1 && db.stock[1].username == u2
    requires Available(db.stock) == db.stock
    requires 7 in db.users && db.users[7].balance == 12.0
    modifies db
    ensures db.Valid() && db.settings == map[]
    ensures delivered.Delivered? && |delivered.accounts| == 2
    ensures delivered.accounts[0].username == u1 && delivered.accounts[1].username == u2
    ensures forall a :: a in delivered.accounts ==> a.isSold && a.soldTo == Some(7)
    ensures 7 in db.users && db.users[7].balance == 2.0
    ensures db.transactions == old(db.transactions) + [NewTransaction(PurchaseTwitter, 7, 10.0, Purchased(2, 5.0), now)]
    ensures AvailableCount(db.stock) == 1
  {
    ghost var s := db.stock;
    assert AvailableCount(s) == 3 && db.GetTwitterPrice() == 5.0;
    SellFirstRemaining(s, 2, 7, now.text);
    BoughtFromUnsold(s, 2, 7, now.text);
    delivered := PurchaseTwitterAccounts(db, 7, 2, now);
    assert delivered == Delivered(Bought(s, 2, 7, now.text));
  }

  /** Three accounts in stock at the default price of 5, a buyer with 12:
      buying two leaves 2 and one available account. Asking the database
      for three more then yields nothing, and the handler refuses on the
      balance before it looks at the stock. */
  method PurchaseSession(u1: string, u2: string, u3: string, now: Time)
    returns (delivered: Reply, balance: Money, left: nat, retry: Option<seq<Account>>, refused: Reply)
    ensures delivered.Delivered? && |delivered.accounts| == 2
    ensures delivered.accounts[0].username == u1 && delivered.accounts[1].username == u2
    ensures balance == 2.0 && left == 1
    ensures retry == None
    ensures refused == InsufficientBalance(15.0, 2.0)
  {
    var db := ShopWithBuyer(now);
    Restock(db, u1, u2, u3, now);
    delivered := BuyTwo(db, u1, u2, now);
    balance := db.users[7].balance;
    left := db.GetAvailableTwitterCount();
    retry := db.PurchaseTwitterAccount(7, 3, now);
    refused := PurchaseTwitterAccounts(db, 7, 3, now);
  }

  /** A payment created, given a UTR and verified for 100 credits 100; a
      second verification of the same payment credits another 100, since
      `verify_payment` does not look at the status. */
  method PaymentSession(now: Time)
    returns (afterUtr: PaymentStatus, afterVerify: PaymentStatus, once: Money, twice: Money)
    ensures afterUtr == PendingVerification && afterVerify == Verified
    ensures once == 100.0 && twice == 200.0
  {
    var db := new ChatDatabase(1);
    var _ := db.CreateUser(7, None, "payer", None, now);
    var _ := db.CreatePayment("P1", 7, now);
    var _ := db.UpdatePaymentUtr("P1", "REF123456");
    afterUtr := db.payments[0].status;
    var _ := db.VerifyPayment("P1", 100.0, 1, now);
    afterVerify := db.payments[0].status;
    once := db.users[7].balance;
    var _ := db.VerifyPayment("P1", 100.0, 1, now);
    twice := db.users[7].balance;
  }
}
