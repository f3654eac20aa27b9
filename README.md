# Twitter account shop bot: the chat database as a verified model

The bot sells Twitter account credentials over Telegram. Users top up a
balance through UPI payments that an admin verifies, then buy accounts from a
stock that admins fill. All of its state lives in one in-memory object,
`ChatDatabase` (bot.py:45-355). It holds:

- a user table keyed by id;
- the stock list of account records, each with an `is_sold` flag;
- the set of used usernames;
- the transaction log;
- the payment list;
- the admin settings, from which only the price is modelled;
- the admin list, which always contains the root admin `ADMIN_CHAT_ID`.

This project models that object and the checks five of the bot's handlers
make before they call it.

Modules:

- `Records` (records.dfy): the records the database stores: users, accounts,
  payments, transactions. Money is an exact `real`. A reading of
  `datetime.now()` is a `Time` value passed in by the caller.
- `Lists` (lists.dfy): `list.index` and `list.remove` on the admin list.
- `Ledger` (ledger.dfy): the user table invariant, and the sums the
  statistics report (total balance, total sales). Lemmas say how one balance
  change or one new transaction moves these sums.
- `Inventory` (inventory.dfy): the stock as a value. It covers which records
  are available, in what order and how many, and what selling the first `n`
  available records does. The purchase loop (`SellEach`) runs here on values,
  checked against the specification function `SellFirst`.
- `Payments` (payments.dfy): the first-match search both payment updates
  use, and the three steps of the payment lifecycle.
- `Database` (database.dfy): the class `ChatDatabase`, with fields the
  methods update in place, and a class invariant `Valid()`. Every method
  states its whole new state.
- `Handlers` (handlers.dfy): the guards of the handlers:
  - `purchase_twitter_accounts`: balance, then stock, then the purchase;
  - `add_twitter`: admin, then duplicate username;
  - `transfer_funds`: admin, then known user, then credit and log;
  - `add_new_admin`: admin, then known user, then not yet admin;
  - `change_twitter_price`: admin, then positive price.

  Each reply is a `Reply` value instead of a chat message.
- `Scenarios` (scenarios.dfy): three worked examples, each starting from an
  empty database and proved to end as the code dictates:
  - a purchase that succeeds;
  - a second purchase that is refused;
  - a payment verified twice.

Behaviours of bot.py that the model keeps as written:

- **Verifying a payment twice.** `verify_payment` never looks at the
  status, so a second call on the same payment verifies it again and credits
  the amount again (`Scenarios.PaymentSession`).
- **Attaching a UTR to a verified payment.** `update_payment_utr` accepts a
  payment in any status, and puts a verified payment back to
  `pending_verification`.
- **Balance check.** `purchase_twitter_account` checks only the stock and
  charges without looking at the balance. The balance is checked in the
  handler `purchase_twitter_accounts`, before the stock check, so a buyer
  short of both is told about the balance (`Scenarios.PurchaseSession`).
- **Unknown buyer.** `purchase_twitter_accounts` reads the balance of the
  user record it looked up without checking that one was found, so an
  unknown buyer makes the handler raise. The model's reply is `UserNotFound`,
  with no state change.
- **Duplicate usernames.** `add_twitter` rejects a username that any record
  in the stock carries, sold or not. It never consults the used-usernames
  set.
- **Quantity of 0 or less.** Such a quantity always passes the stock check,
  and passes the balance check whenever the balance is at least
  `quantity * price` (so a negative balance, which a negative transfer makes
  possible, fails it for a quantity of 0, but can pass it for a negative
  quantity). When it passes, nothing is sold, the charge
  `quantity * price` is 0 or a credit, the purchase is still logged, and the
  handler reports a failure.
- **Negative transfers.** `transfer_funds` accepts negative amounts.

## Model

| member | source | states |
|---|---|---|
| Database.ChatDatabase.constructor | bot.py:46-57 | the store starts empty, with the root as the only admin, and satisfies the invariant |
| Database.ChatDatabase.GetUser | bot.py:116-118 | a record is found exactly for the ids in the table, and it carries the id it was looked up by |
| Database.ChatDatabase.CreateUser | bot.py:120-135 | returns true exactly when the id is new. Then it adds a user with zero balance, spending and purchases at the end of the insertion order. Otherwise nothing changes. The total balance is unchanged either way |
| Database.ChatDatabase.IsAdmin | bot.py:137-139 | the root admin is always an admin |
| Database.ChatDatabase.AddAdmin | bot.py:141-146 | appends the id exactly when it was not an admin, and the id is an admin afterwards |
| Database.ChatDatabase.RemoveAdmin | bot.py:148-153 | removes exactly the given id, keeping the order of the rest, when it is an admin other than the root. Otherwise nothing changes. The root stays an admin |
| Database.ChatDatabase.GetAllAdmins | bot.py:155-157 | the admin list contains the root and no id twice |
| Database.ChatDatabase.UpdateTwitterPrice | bot.py:159-162 | stores the price, which the price lookup then returns |
| Database.ChatDatabase.GetTwitterPrice | bot.py:164-166 | the stored price, or 5 while none is stored |
| Database.ChatDatabase.UpdateBalance | bot.py:168-177 | succeeds exactly for a known user, whose balance alone moves by the amount. The total balance moves by the same amount |
| Database.ChatDatabase.AddTwitterAccount | bot.py:179-197 | appends one unsold record numbered after the previous stock length; earlier records are unchanged |
| Database.ChatDatabase.GetAvailableTwitterCount | bot.py:208-210 | the available count is the stock size minus the sold records |
| Database.ChatDatabase.GetTwitterAccounts | bot.py:212-215 | a prefix of the available records in stock order, all of them unsold and in stock |
| Database.ChatDatabase.MarkFirstSold | bot.py:227-235 | the stock becomes the stock with its first n available records sold to the buyer. The bought copies are those records. Their usernames join the used set. Every sale stays recorded |
| Database.ChatDatabase.ChargeAndLog | bot.py:237-258 | a known buyer's balance drops by quantity times the price, spending rises by the same and purchases by the quantity, and the total balance drops by that charge. An unknown buyer's record is not touched. One purchase transaction for the charge is logged either way |
| Database.ChatDatabase.CompletePurchase | bot.py:224-258 | the sale, the charge and exactly one purchase transaction for quantity times the price. Nothing else changes |
| Database.ChatDatabase.PurchaseTwitterAccount | bot.py:217-260 | with fewer available records than asked for, returns nothing and changes nothing. Otherwise it returns the first n available records, marked sold, and sells exactly those. It charges a known buyer without checking the balance and appends one transaction. Nothing else changes |
| Database.ChatDatabase.CreatePayment | bot.py:262-276 | appends and returns a pending payment with the QR flag set |
| Database.ChatDatabase.UpdatePaymentUtr | bot.py:278-285 | finds the first payment with the id, if any. Only that payment changes: it gets the UTR and status pending_verification. Without a match nothing changes |
| Database.ChatDatabase.VerifyPayment | bot.py:287-313 | on the first matching payment, whatever its status: marks it verified with amount, time and verifier, credits a known payer, and appends one add-funds transaction. The total balance rises by the credit. Without a match nothing changes |
| Database.ChatDatabase.GetStatistics | bot.py:324-351 | sold plus available records is the stock size, and the available count agrees with get_available_twitter_count. The balance and sales totals are the ledger sums, and there is at least one admin |
| Database.ChatDatabase.GetAllUsers | bot.py:353-355 | every user id exactly once, and exactly the ids the user lookup finds |
| Inventory.UnsoldIndices | bot.py:219 | the positions of the unsold records, increasing, and all of them |
| Inventory.Available | bot.py:219 | only unsold records from the stock, one per unsold position |
| Inventory.FirstAvailable | bot.py:212-215 | Python's slice [:limit] of the available list, for any limit, including negative ones |
| Inventory.SellFirst | bot.py:227-232 | the sale's reference definition: the stock keeps its length |
| Inventory.Bought | bot.py:227-232 | the bought copies' reference definition: there are exactly n of them |
| Inventory.SoldCount | bot.py:330 | at most the stock size; zero exactly when no record is sold, and the stock size exactly when every record is |
| Inventory.SellOne | bot.py:228-235 | one turn of the loop takes the sale from i records to i + 1, and adds the new copy's username to the used usernames |
| Inventory.UsernamesAppend | bot.py:235 | one more bought copy adds exactly its username to the used usernames |
| Inventory.RemainingIndices | bot.py:219-233 | after a sale of n, the unsold positions are the old ones after the first n |
| Inventory.UntouchedAfterSale | bot.py:219-233 | an available record past the first n is left as it was by the sale |
| Inventory.SellEach | bot.py:227-235 | the purchase loop computes the specification function of a sale: the stock after it, the bought copies and the used set |
| Inventory.SoldInOrder | bot.py:219-232 | a sale changes exactly the unsold records with fewer than n available records before them. It marks each of them sold to the buyer and leaves every other record as it was |
| Inventory.SellFirstRemaining | bot.py:219-233 | after a sale of n, the available records are the old ones after the first n, in order, and the count drops by exactly n |
| Inventory.SellFirstMarks | bot.py:227-232 | the j-th bought copy is the record now at the j-th available position |
| Inventory.SellFirstStep | bot.py:227-232 | one turn of the loop sells the next available record, which was still unsold |
| Inventory.BoughtStep | bot.py:232 | one turn of the loop appends that record's copy to the bought list |
| Inventory.SaleStep | bot.py:227-235 | one turn of the loop takes the loop state from i sold records to i + 1 |
| Inventory.SellFirstRecorded | bot.py:227-235 | after a sale every record keeps its id, and every sold record has a buyer, a date and its username in the used set |
| Inventory.StockAppend | bot.py:179-194 | appending a record numbered after the last keeps every record's id and sale recorded |
| Inventory.AppendAvailable | bot.py:179-210 | an appended unsold record joins the end of the available list, and the count rises by exactly one |
| Inventory.AppendDistinctUsernames | bot.py:1288-1292 | a username that no record carries keeps the stock's usernames distinct once appended |
| Inventory.SoldPlusAvailable | bot.py:329-331 | every record is sold or available, so the statistics' total minus sold is the available count |
| Inventory.NoneSold | bot.py:208-215 | with nothing sold, the available list is the whole stock |
| Inventory.BoughtFromUnsold | bot.py:227-232 | with nothing sold, the bought copies are the first n records, marked sold |
| Ledger.TotalBalance | bot.py:327 | the total balance is at least zero when every user's balance is |
| Ledger.TotalSales | bot.py:328 | total sales are at least zero when every purchase amount is, and zero when the log holds no purchase |
| Ledger.TotalBalanceUpdate | bot.py:240-244 | changing one listed user moves the total balance by exactly the change in that user's balance |
| Ledger.TotalBalanceUnchanged | bot.py:327 | the total balance depends only on the listed users' records |
| Ledger.TotalBalanceInsert | bot.py:120-133 | a user added at the end of the order adds its balance to the total |
| Ledger.UsersInsert | bot.py:120-133 | creating a new user keeps the table's invariant and adds the new user's balance to the total |
| Ledger.TotalSalesAppend | bot.py:328 | a new transaction adds its amount to total sales exactly when it is a purchase |
| Lists.IndexOf | bot.py:151 | the first position of the element |
| Lists.RemoveFirst | bot.py:151 | the list loses exactly one copy of the element: one shorter, with the same elements otherwise |
| Lists.RemoveFirstDistinct | bot.py:148-153 | on a list with no repeats, removing an element leaves every other element, still without repeats and one shorter |
| Lists.DistinctAppend | bot.py:141-146 | appending an absent element keeps a list free of repeats |
| Payments.FirstMatch | bot.py:278-290 | the first payment with the id, or none when no payment has it |
| Payments.WithUtr | bot.py:282-283 | the record gets the UTR and status pending_verification, whatever its status was, and keeps its id, payer and amount |
| Payments.Verify | bot.py:291-294 | the record is verified with the amount, time and verifier, and keeps its id, payer and UTR |
| Payments.LifecycleWellFormed | bot.py:262-313 | creating, attaching a UTR and verifying each leave a record whose fields fit its status, from any record |
| Handlers.PurchaseTwitterAccounts | bot.py:679-731 | an unknown buyer, a balance below quantity times the price, or too little stock each change nothing and give their reply. Otherwise it sells the first available records and adds their usernames to the used set. It charges the buyer, who keeps a balance of at least zero, and logs exactly one purchase transaction for quantity times the price. It delivers the accounts when the quantity is positive and reports a failure otherwise |
| Handlers.Deliver | bot.py:723-731 | once both checks pass: the sale, the charge, the one purchase transaction and the reply, as above |
| Handlers.AppendAccount | bot.py:1294-1312 | the append add_twitter makes: the new record, the available count one higher, usernames kept distinct |
| Handlers.AddTwitter | bot.py:1273-1295 | non-admins and a username already on any record, sold or unsold, are refused with no change. Otherwise one record is appended and nothing else changes. Usernames stay distinct |
| Handlers.CreditUser | bot.py:1353-1368 | the credit and the admin transaction transfer_funds makes; total sales are unchanged |
| Handlers.TransferFunds | bot.py:1328-1368 | non-admins and unknown users are refused with no change. Otherwise the user's balance and the total rise by the amount and one admin transaction is logged |
| Handlers.AddNewAdmin | bot.py:956-984 | non-admins, unknown users and existing admins are refused with no change; otherwise the user is appended to the admins |
| Handlers.ChangeTwitterPrice | bot.py:1043-1066 | non-admins and prices of zero or less are refused with no change. Otherwise the price key alone is set to the new price, which the lookup then returns. A positive price stays positive |
| Scenarios.ShopWithBuyer | bot.py:120-177 | a new user credited with 12 has balance 12 |
| Scenarios.Restock | bot.py:179-197 | three accounts added to an empty stock are all available, in order |
| Scenarios.BuyTwo | bot.py:679-731 | with three accounts at price 5 and a balance of 12, buying two delivers the first two, logs one purchase of 10, and leaves a balance of 2 and one available account |
| Scenarios.PurchaseSession | bot.py:684-701 | after that, asking for three returns nothing, and the handler refuses on the balance (15 needed, 2 held) before the stock |
| Scenarios.PaymentSession | bot.py:262-313 | create, attach a UTR and verify for 100 credits 100, and verifying the same payment again credits 100 more |

## Left out

- `save_to_chat` and `load_from_chat` (bot.py:59-114) are not modelled.
  They write and read base64 JSON snapshots through Telegram, including the
  merge that puts the root admin back. That is network I/O and library
  decoding. `save_twitter_details_to_chat` (bot.py:199-206) does nothing and
  is not modelled.
- All Telegram messaging, keyboards, menus and `save_to_database_chat`:
  these are I/O.
- `broadcast_message`, the QR code generator, configuration, logging and
  `main`: these are I/O or foreign libraries.
- The handlers not listed above: the payment button, `/verify`, UTR entry,
  statistics and backup. Their database calls are modelled; their own checks
  are not.
- Argument counting and number parsing in the handlers are not modelled. The
  handler models take already-parsed ids and amounts.
- `get_admin_setting` and `set_admin_setting` (bot.py:315-322) are not
  modelled. They store text settings (the QR file id and PayTM details), and
  the model's settings map holds only the price.
- `datetime.now()` is not modelled. Each operation takes one `Time` value
  (its text and whole seconds) instead of reading the clock several times.
- Transaction ids are kept as their parts (kind, user id, seconds), and the
  formatted text is not modelled. Two ids are equal exactly when the
  source's formatted ids are, so the model keeps the collisions that two
  transactions of one kind for one user in the same second cause.
- The `status` field of transactions is not modelled: it is always
  `completed`.
- `Records`: money is an exact real, so Python float rounding is not
  modelled.
- User ids are integers, whereas the source keys the user table by
  `str(user_id)`, which is a one-to-one renaming.
- No interleaving of concurrent handler calls is modelled.
- Database.ChatDatabase.GetStatistics: does not model `recent_transactions`,
  the ten latest transactions sorted by their timestamp text. It also does
  not relate `user_count` to the length of the user list.
- Database.ChatDatabase.PurchaseTwitterAccount: its contract does not repeat
  that the available list loses its first n entries, nor that total sales
  rise by the charge. Those follow from its stated new state by the lemmas
  `Inventory.SellFirstRemaining` and `Ledger.TotalSalesAppend`.
- Database.ChatDatabase.AddTwitterAccount: its contract does not repeat
  that the available count rises by one. That follows from the appended
  record by `Inventory.AppendAvailable`, which `Handlers.AppendAccount`
  applies.
