/** Sums over the users and the transaction log, as the statistics report
    them, and how balance updates move them. The user table is a map with
    its keys in insertion order, as a Python dict keeps them. */
module Ledger {
  import opened Records
  import opened Lists

  /** Every listed id has a user record. */
  ghost predicate Covers(users: map<int, User>, order: seq<int>)
  {
    forall i :: 0 <= i < |order| ==> order[i] in users
  }

  /** Each user is stored under its own id, and the order lists every id once. */
  ghost predicate UsersValid(users: map<int, User>, order: seq<int>)
  {
    && Distinct(order)
    && Covers(users, order)
    && (forall k :: k in users ==> k in order)
    && (forall k :: k in users ==> users[k].userId == k)
  }

  /** `sum(user['balance'] for user in users.values())`, in dict order. */
  function TotalBalance(users: map<int, User>, order: seq<int>): (r: Money)
    requires Covers(users, order)
    ensures (forall i :: 0 <= i < |order| ==> users[order[i]].balance >= 0.0) ==> r >= 0.0
  {
    if order == [] then 0.0
    else
      var last := order[|order| - 1];
      TotalBalance(users, order[..|order| - 1]) + users[last].balance
  }

  /** `sum(t['amount'] for t in transactions if t['type'] == 'purchase_twitter')`. */
  function TotalSales(txs: seq<Transaction>): (r: Money)
    ensures (forall i :: 0 <= i < |txs| && txs[i].kind == PurchaseTwitter ==> txs[i].amount >= 0.0) ==> r >= 0.0
    ensures (forall i :: 0 <= i < |txs| ==> txs[i].kind != PurchaseTwitter) ==> r == 0.0
  {
    if txs == [] then 0.0
    else
      var last := txs[|txs| - 1];
      TotalSales(txs[..|txs| - 1]) + (if last.kind == PurchaseTwitter then last.amount else 0.0)
  }

  /** Changing the record of one listed user moves the total by exactly the
      change in that user's balance. */
  lemma {:induction false} TotalBalanceUpdate(users: map<int, User>, order: seq<int>, k: int, u: User)
    requires Covers(users, order) && Distinct(order) && k in order
    ensures Covers(users[k := u], order)
    ensures TotalBalance(users[k := u], order) == TotalBalance(users, order) - users[k].balance + u.balance
    decreases |order|
  {
    var init := order[..|order| - 1];
    var last := order[|order| - 1];
    if last == k {
      assert k !in init;
      TotalBalanceUnchanged(users, users[k := u], init);
    } else {
      assert k in init by {
        var i :| 0 <= i < |order| && order[i] == k;
        assert init[i] == k;
      }
      TotalBalanceUpdate(users, init, k, u);
    }
  }

  /** The total over a key list depends only on the records of those keys. */
  lemma {:induction false} TotalBalanceUnchanged(users: map<int, User>, users': map<int, User>, order: seq<int>)
    requires Covers(users, order) && Covers(users', order)
    requires forall i :: 0 <= i < |order| ==> users'[order[i]] == users[order[i]]
    ensures TotalBalance(users', order) == TotalBalance(users, order)
    decreases |order|
  {
    if order != [] {
      TotalBalanceUnchanged(users, users', order[..|order| - 1]);
    }
  }

  /** Adding a user at the end of the order adds that user's balance to the total. */
  lemma TotalBalanceInsert(users: map<int, User>, order: seq<int>, k: int, u: User)
    requires Covers(users, order) && k !in order
    ensures Covers(users[k := u], order + [k])
    ensures TotalBalance(users[k := u], order + [k]) == TotalBalance(users, order) + u.balance
  {
    assert (order + [k])[..|order|] == order;
    TotalBalanceUnchanged(users, users[k := u], order);
  }

  /** Creating a user not yet in the table keeps the table valid and adds
      the new user's balance to the total. */
  lemma UsersInsert(users: map<int, User>, order: seq<int>, k: int, u: User)
    requires UsersValid(users, order) && k !in users && u.userId == k
    ensures UsersValid(users[k := u], order + [k])
    ensures TotalBalance(users[k := u], order + [k]) == TotalBalance(users, order) + u.balance
  {
    assert k !in order;
    TotalBalanceInsert(users, order, k, u);
    DistinctAppend(order, k);
  }

  /** Appending a transaction adds its amount to the sales exactly when it
      is a purchase. */
  lemma TotalSalesAppend(txs: seq<Transaction>, t: Transaction)
    ensures TotalSales(txs + [t]) == TotalSales(txs) + (if t.kind == PurchaseTwitter then t.amount else 0.0)
  {
    assert (txs + [t])[..|txs|] == txs;
  }
}
