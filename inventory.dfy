/** The Twitter account stock as a value: which accounts are available,
    how many, and what selling the earliest ones does to the list. */
module Inventory {
  import opened Records

  ghost predicate Increasing(r: seq<nat>)
  {
    forall i, j :: 0 <= i < j < |r| ==> r[i] < r[j]
  }

  function Elems(r: seq<nat>): set<nat>
  {
    set x | x in r
  }

  /** The positions of the unsold accounts, in stock order: the list
      `[acc for acc in stock if not acc['is_sold']]` as indices into the stock. */
  function UnsoldIndices(s: seq<Account>): (r: seq<nat>)
    ensures forall i :: 0 <= i < |r| ==> r[i] < |s| && !s[r[i]].isSold
    ensures Increasing(r)
    ensures forall k :: 0 <= k < |s| && !s[k].isSold ==> k in r
    decreases |s|
  {
    if s == [] then []
    else
      var init := UnsoldIndices(s[..|s| - 1]);
      if s[|s| - 1].isSold then init else init + [|s| - 1]
  }

  /** The unsold accounts, in stock order. */
  function Available(s: seq<Account>): (r: seq<Account>)
    ensures |r| == |UnsoldIndices(s)|
    ensures forall a :: a in r ==> a in s && !a.isSold
  {
    var idx := UnsoldIndices(s);
    var r := seq(|idx|, i requires 0 <= i < |idx| => s[idx[i]]);
    assert forall a :: a in r ==> exists i :: 0 <= i < |idx| && a == s[idx[i]];
    r
  }

  /** The number of unsold accounts. */
  function AvailableCount(s: seq<Account>): nat
  {
    |Available(s)|
  }

  /** The number of sold accounts, `sum(1 for acc in stock if acc['is_sold'])`. */
  function SoldCount(s: seq<Account>): (r: nat)
    ensures r <= |s|
    ensures r == 0 <==> forall i :: 0 <= i < |s| ==> !s[i].isSold
    ensures r == |s| <==> forall i :: 0 <= i < |s| ==> s[i].isSold
  {
    if s == [] then 0 else SoldCount(s[..|s| - 1]) + (if s[|s| - 1].isSold then 1 else 0)
  }

  /** The first `limit` available accounts, with Python's slice `[:limit]`
      (a negative limit drops that many from the end). */
  function FirstAvailable(s: seq<Account>, limit: int): (r: seq<Account>)
    ensures |r| <= |Available(s)|
    ensures r == Available(s)[..|r|]
    ensures limit >= 0 ==> |r| == if limit < |Available(s)| then limit else |Available(s)|
    ensures limit < 0 ==> |r| == if |Available(s)| + limit < 0 then 0 else |Available(s)| + limit
  {
    var avail := Available(s);
    var n := if limit >= 0 then limit else |avail| + limit;
    if n < 0 then [] else if n < |avail| then avail[..n] else avail
  }

  /** True when some account in the stock, sold or not, has this username. */
  predicate HasUsername(s: seq<Account>, username: string)
  {
    exists a :: a in s && a.username == username
  }

  ghost predicate DistinctUsernames(s: seq<Account>)
  {
    forall i, j :: 0 <= i < j < |s| ==> s[i].username != s[j].username
  }

  /** A record's sale fields agree with its flag, and a sold account's
      username is in the used set. */
  ghost predicate SaleRecorded(a: Account, used: set<string>)
  {
    && (a.isSold ==> a.soldTo.Some? && a.soldDate.Some? && a.username in used)
    && (!a.isSold ==> a.soldTo.None? && a.soldDate.None?)
  }

  /** The record at position `k` has id `k + 1` and its sale is recorded. */
  ghost predicate RecordValid(s: seq<Account>, k: nat, used: set<string>)
    requires k < |s|
  {
    s[k].id == k + 1 && SaleRecorded(s[k], used)
  }

  /** Every record's id is its position plus one, and its sale is recorded. */
  ghost predicate StockValid(s: seq<Account>, used: set<string>)
  {
    forall k: nat :: k < |s| ==> RecordValid(s, k, used)
  }

  /** Marks one account sold to `buyer` at `when`. */
  function Sell(a: Account, buyer: int, when: string): Account
  {
    a.(soldTo := Some(buyer), soldDate := Some(when), isSold := true)
  }

  /** The stock after its first `n` unsold accounts are sold to `buyer`. */
  function SellFirst(s: seq<Account>, n: nat, buyer: int, when: string): (t: seq<Account>)
    requires n <= AvailableCount(s)
    ensures |t| == |s|
  {
    var chosen := UnsoldIndices(s)[..n];
    seq(|s|, k requires 0 <= k < |s| => if k in chosen then Sell(s[k], buyer, when) else s[k])
  }

  /** The copies handed to the buyer: the first `n` available accounts, marked sold. */
  function Bought(s: seq<Account>, n: nat, buyer: int, when: string): (r: seq<Account>)
    requires n <= AvailableCount(s)
    ensures |r| == n
  {
    var avail := Available(s);
    seq(n, j requires 0 <= j < n => Sell(avail[j], buyer, when))
  }

  /** The usernames of a list of accounts. */
  function Usernames(xs: seq<Account>): set<string>
  {
    set a | a in xs :: a.username
  }

  lemma HeadIsLeast(a: seq<nat>, x: nat)
    requires Increasing(a) && x in a
    ensures a[0] <= x
  {
    var i :| 0 <= i < |a| && a[i] == x;
  }

  lemma TailElems(a: seq<nat>)
    requires Increasing(a) && a != []
    ensures forall x :: x in a[1..] <==> x in a && x != a[0]
  {
    forall x | x in a && x != a[0] ensures x in a[1..] {
      var i :| 0 <= i < |a| && a[i] == x;
      assert a[1..][i - 1] == x;
    }
  }

  lemma {:induction false} DistinctCard(a: seq<nat>)
    requires Increasing(a)
    ensures |Elems(a)| == |a|
    decreases |a|
  {
    if a != [] {
      TailElems(a);
      DistinctCard(a[1..]);
      assert Elems(a) == Elems(a[1..]) + {a[0]};
    }
  }

  /** An increasing list is fixed by its elements: two increasing lists
      with the same elements are equal. */
  lemma {:induction false} EnumerationUnique(a: seq<nat>, b: seq<nat>)
    requires Increasing(a) && Increasing(b)
    requires forall x :: x in a <==> x in b
    ensures a == b
    decreases |a|
  {
    DistinctCard(a);
    DistinctCard(b);
    assert Elems(a) == Elems(b);
    if a != [] {
      HeadIsLeast(b, a[0]);
      HeadIsLeast(a, b[0]);
      TailElems(a);
      TailElems(b);
      EnumerationUnique(a[1..], b[1..]);
    }
  }

  lemma InIndices(s: seq<Account>, x: nat)
    requires x in UnsoldIndices(s)
    ensures x < |s| && !s[x].isSold
  {
    var idx := UnsoldIndices(s);
    var i :| 0 <= i < |idx| && idx[i] == x;
  }

  /** An increasing list splits into a prefix and a suffix that share no element. */
  lemma SplitElems(idx: seq<nat>, n: nat, x: nat)
    requires Increasing(idx) && n <= |idx|
    ensures x in idx <==> x in idx[..n] || x in idx[n..]
    ensures !(x in idx[..n] && x in idx[n..])
  {
    assert idx == idx[..n] + idx[n..];
    if x in idx[..n] {
      var i :| 0 <= i < n && idx[..n][i] == x;
      forall j | 0 <= j < |idx| - n ensures idx[n..][j] != x {
        assert idx[i] < idx[n + j];
      }
    }
  }

  /** A position is unsold after the sale exactly when it is among the
      unsold positions past the first `n`. */
  lemma UnsoldAfterSale(s: seq<Account>, n: nat, buyer: int, when: string, x: nat)
    requires n <= AvailableCount(s) && x < |s|
    ensures !SellFirst(s, n, buyer, when)[x].isSold <==> x in UnsoldIndices(s)[n..]
  {
    var idx := UnsoldIndices(s);
    SplitElems(idx, n, x);
    if x in idx[n..] {
      InIndices(s, x);
    }
  }

  /** After the sale, the unsold positions are the old ones past the first `n`. */
  lemma RemainingIndices(s: seq<Account>, n: nat, buyer: int, when: string)
    requires n <= AvailableCount(s)
    ensures UnsoldIndices(SellFirst(s, n, buyer, when)) == UnsoldIndices(s)[n..]
  {
    var t := SellFirst(s, n, buyer, when);
    var rest := UnsoldIndices(s)[n..];
    var jdx := UnsoldIndices(t);
    forall x ensures x in jdx <==> x in rest {
      if x in jdx {
        InIndices(t, x);
        UnsoldAfterSale(s, n, buyer, when, x);
      }
      if x in rest {
        InIndices(s, x);
        UnsoldAfterSale(s, n, buyer, when, x);
      }
    }
    EnumerationUnique(jdx, rest);
  }

  /** The `i`-th available account is the one at the `i`-th unsold position. */
  lemma AvailableAt(s: seq<Account>, i: nat)
    requires i < AvailableCount(s)
    ensures Available(s)[i] == s[UnsoldIndices(s)[i]]
  {
  }

  /** An available account past the first `n` is left as it was by the sale. */
  lemma UntouchedAfterSale(s: seq<Account>, n: nat, buyer: int, when: string, j: nat)
    requires n <= j < AvailableCount(s)
    ensures UnsoldIndices(s)[j] < |s|
    ensures SellFirst(s, n, buyer, when)[UnsoldIndices(s)[j]] == s[UnsoldIndices(s)[j]]
  {
    var k := UnsoldIndices(s)[j];
    UnsoldAfterSale(s, n, buyer, when, k);
  }

  /** Selling the first `n` available accounts leaves exactly the rest of the
      available list, in the same order. */
  lemma SellFirstRemaining(s: seq<Account>, n: nat, buyer: int, when: string)
    requires n <= AvailableCount(s)
    ensures Available(SellFirst(s, n, buyer, when)) == Available(s)[n..]
    ensures AvailableCount(SellFirst(s, n, buyer, when)) == AvailableCount(s) - n
  {
    var t := SellFirst(s, n, buyer, when);
    RemainingIndices(s, n, buyer, when);
    forall i | 0 <= i < AvailableCount(t) ensures Available(t)[i] == Available(s)[n + i] {
      AvailableAt(t, i);
      AvailableAt(s, n + i);
      UntouchedAfterSale(s, n, buyer, when, n + i);
    }
  }

  /** Selling the first `n` available accounts marks exactly those sold, to
      `buyer`: the `j`-th chosen position holds the `j`-th bought copy. */
  lemma SellFirstMarks(s: seq<Account>, n: nat, buyer: int, when: string, j: nat)
    requires n <= AvailableCount(s) && j < n
    ensures SellFirst(s, n, buyer, when)[UnsoldIndices(s)[j]] == Bought(s, n, buyer, when)[j]
  {
    assert UnsoldIndices(s)[..n][j] == UnsoldIndices(s)[j];
  }

  /** The `i`-th chosen position is not among the first `i`. */
  lemma NotChosenYet(s: seq<Account>, i: nat)
    requires i < |UnsoldIndices(s)|
    ensures UnsoldIndices(s)[i] !in UnsoldIndices(s)[..i]
    ensures UnsoldIndices(s)[..i + 1] == UnsoldIndices(s)[..i] + [UnsoldIndices(s)[i]]
  {
    var idx := UnsoldIndices(s);
    forall j | 0 <= j < i ensures idx[..i][j] != idx[i] { assert idx[j] < idx[i]; }
  }

  /** Selling one more account: the `i`-th available position, still unsold,
      is marked sold and its copy is appended to the bought list. */
  lemma SellFirstStep(s: seq<Account>, i: nat, buyer: int, when: string)
    requires i < AvailableCount(s)
    ensures SellFirst(s, i, buyer, when)[UnsoldIndices(s)[i]] == s[UnsoldIndices(s)[i]]
    ensures SellFirst(s, i + 1, buyer, when)
         == SellFirst(s, i, buyer, when)[UnsoldIndices(s)[i] := Sell(s[UnsoldIndices(s)[i]], buyer, when)]
  {
    NotChosenYet(s, i);
  }

  /** Selling one more account appends its copy to the bought list. */
  lemma BoughtStep(s: seq<Account>, i: nat, buyer: int, when: string)
    requires i < AvailableCount(s)
    ensures Bought(s, i + 1, buyer, when)
         == Bought(s, i, buyer, when) + [Sell(s[UnsoldIndices(s)[i]], buyer, when)]
  {
  }

  /** A sale keeps every record's id, and records each sold username: once
      the bought usernames join the used set, every record is consistent again. */
  lemma SellFirstRecorded(s: seq<Account>, n: nat, buyer: int, when: string, used: set<string>)
    requires n <= AvailableCount(s)
    requires StockValid(s, used)
    ensures StockValid(SellFirst(s, n, buyer, when), used + Usernames(Bought(s, n, buyer, when)))
  {
    var t := SellFirst(s, n, buyer, when);
    var b := Bought(s, n, buyer, when);
    var idx := UnsoldIndices(s);
    forall k: nat | k < |s| ensures RecordValid(t, k, used + Usernames(b)) {
      assert RecordValid(s, k, used);
      if k in idx[..n] {
        var j :| 0 <= j < n && idx[..n][j] == k;
        assert b[j] in b;
        assert b[j].username == s[k].username;
      }
    }
  }

  /** Appending a record numbered after the last one, with its sale
      recorded, keeps the stock valid. */
  lemma StockAppend(s: seq<Account>, used: set<string>, a: Account)
    requires StockValid(s, used) && a.id == |s| + 1 && SaleRecorded(a, used)
    ensures StockValid(s + [a], used)
  {
    forall k: nat | k < |s| + 1 ensures RecordValid(s + [a], k, used) {
      if k < |s| {
        assert RecordValid(s, k, used);
      }
    }
  }

  /** The unsold positions of a prefix of the stock are a prefix of the
      unsold positions of the whole stock. */
  lemma {:induction false} IndicesPrefix(s: seq<Account>, k: nat)
    requires k <= |s|
    ensures |UnsoldIndices(s[..k])| <= |UnsoldIndices(s)|
    ensures UnsoldIndices(s[..k]) == UnsoldIndices(s)[..|UnsoldIndices(s[..k])|]
    decreases |s| - k
  {
    if k == |s| {
      assert s[..k] == s;
    } else {
      var init := s[..|s| - 1];
      assert init[..k] == s[..k];
      IndicesPrefix(init, k);
    }
  }

  /** An unsold record's position comes right after the unsold positions
      before it. */
  lemma PositionOfUnsold(s: seq<Account>, k: nat)
    requires k < |s| && !s[k].isSold
    ensures |UnsoldIndices(s[..k])| < |UnsoldIndices(s)|
    ensures UnsoldIndices(s)[|UnsoldIndices(s[..k])|] == k
  {
    assert s[..k + 1][..k] == s[..k];
    IndicesPrefix(s, k + 1);
  }

  /** The sale changes exactly the unsold records with fewer than `n`
      available accounts before them, marking each sold to `buyer`; every
      other record is left as it was. */
  lemma SoldInOrder(s: seq<Account>, n: nat, buyer: int, when: string, k: nat)
    requires n <= AvailableCount(s) && k < |s|
    ensures SellFirst(s, n, buyer, when)[k]
         == if !s[k].isSold && AvailableCount(s[..k]) < n then Sell(s[k], buyer, when) else s[k]
  {
    var idx := UnsoldIndices(s);
    if !s[k].isSold {
      PositionOfUnsold(s, k);
      var m := |UnsoldIndices(s[..k])|;
      if m < n {
        assert idx[..n][m] == k;
      } else {
        forall j | 0 <= j < n ensures idx[..n][j] != k {
          assert idx[j] < idx[m];
        }
      }
    } else {
      forall j | 0 <= j < n ensures idx[..n][j] != k {
        assert !s[idx[j]].isSold;
      }
    }
  }

  /** The state of the purchase loop after `i` accounts: the stock has its
      first `i` available accounts sold and `bought` holds their copies. */
  ghost predicate SaleInProgress(s0: seq<Account>, i: nat, buyer: int, when: string,
                                 stock: seq<Account>, bought: seq<Account>)
  {
    && i <= AvailableCount(s0)
    && stock == SellFirst(s0, i, buyer, when)
    && bought == Bought(s0, i, buyer, when)
  }

  /** One turn of the purchase loop: sell the `i`-th available account. */
  lemma SaleStep(s0: seq<Account>, i: nat, buyer: int, when: string,
                 stock: seq<Account>, bought: seq<Account>)
    requires SaleInProgress(s0, i, buyer, when, stock, bought) && i < AvailableCount(s0)
    ensures UnsoldIndices(s0)[i] < |stock|
    ensures var k := UnsoldIndices(s0)[i];
      SaleInProgress(s0, i + 1, buyer, when, stock[k := Sell(stock[k], buyer, when)],
                     bought + [Sell(stock[k], buyer, when)])
  {
    SellFirstStep(s0, i, buyer, when);
    BoughtStep(s0, i, buyer, when);
  }

  /** One more bought copy adds its username to the used set. */
  lemma UsernamesAppend(xs: seq<Account>, a: Account)
    ensures Usernames(xs + [a]) == Usernames(xs) + {a.username}
  {
    assert forall b :: b in xs + [a] <==> b in xs || b == a;
  }

  /** One turn of the loop below: the account at position `k` of the
      stock is marked sold, and its copy joins the bought ones. */
  method SellOne(s: seq<Account>, i: nat, k: nat, buyer: int, when: string,
                 t: seq<Account>, bought: seq<Account>)
    returns (t': seq<Account>, bought': seq<Account>)
    requires SaleInProgress(s, i, buyer, when, t, bought)
    requires i < AvailableCount(s) && k == UnsoldIndices(s)[i]
    ensures SaleInProgress(s, i + 1, buyer, when, t', bought')
    ensures Usernames(bought') == Usernames(bought) + {bought'[i].username}
  {
    SaleStep(s, i, buyer, when, t, bought);
    var account := Sell(t[k], buyer, when);
    t' := t[k := account];
    bought' := bought + [account];
    UsernamesAppend(bought, account);
  }

  /** The loop of `purchase_twitter_account` on the stock as a value: the
      first `quantity` available accounts, found by their positions `avail`,
      are marked sold one at a time and their copies collected. */
  method SellEach(s: seq<Account>, avail: seq<nat>, buyer: int, when: string, quantity: nat,
                  used: set<string>)
    returns (t: seq<Account>, bought: seq<Account>, used': set<string>)
    requires avail == UnsoldIndices(s) && quantity <= |avail|
    ensures t == SellFirst(s, quantity, buyer, when)
    ensures bought == Bought(s, quantity, buyer, when)
    ensures used' == used + Usernames(bought)
  {
    t, bought, used' := s, [], used;
    var i := 0;
    while i < quantity
      invariant i <= quantity
      invariant SaleInProgress(s, i, buyer, when, t, bought)
      invariant used' == used + Usernames(bought)
    {
      t, bought := SellOne(s, i, avail[i], buyer, when, t, bought);
      used' := used' + {bought[i].username};
      i := i + 1;
    }
  }

  /** Appending an account whose username no record has, sold or not,
      keeps the usernames distinct. */
  lemma AppendDistinctUsernames(s: seq<Account>, a: Account)
    requires DistinctUsernames(s) && !HasUsername(s, a.username)
    ensures DistinctUsernames(s + [a])
  {
    forall i, j | 0 <= i < j < |s| + 1 ensures (s + [a])[i].username != (s + [a])[j].username {
      if j == |s| {
        assert s[i] in s;
      }
    }
  }

  /** Appending an unsold account appends it to the available list. */
  lemma {:induction false} AppendAvailable(s: seq<Account>, a: Account)
    requires !a.isSold
    ensures Available(s + [a]) == Available(s) + [a]
    ensures AvailableCount(s + [a]) == AvailableCount(s) + 1
  {
    assert (s + [a])[..|s|] == s;
  }

  /** With nothing sold, every account is available, in stock order. */
  lemma {:induction false} NoneSold(s: seq<Account>)
    requires forall k :: 0 <= k < |s| ==> !s[k].isSold
    ensures Available(s) == s
    decreases |s|
  {
    if s != [] {
      var init := s[..|s| - 1];
      NoneSold(init);
      AppendAvailable(init, s[|s| - 1]);
      assert init + [s[|s| - 1]] == s;
    }
  }

  /** When every account is available, the bought copies are the first
      `n` records, marked sold. */
  lemma BoughtFromUnsold(s: seq<Account>, n: nat, buyer: int, when: string)
    requires Available(s) == s && n <= |s|
    ensures |Bought(s, n, buyer, when)| == n
    ensures forall j :: 0 <= j < n ==> Bought(s, n, buyer, when)[j] == Sell(s[j], buyer, when)
  {
  }

  /** Every account is either sold or available: the statistics' available
      count `total - sold` is the available count. */
  lemma {:induction false} SoldPlusAvailable(s: seq<Account>)
    ensures SoldCount(s) + AvailableCount(s) == |s|
    decreases |s|
  {
    if s != [] {
      SoldPlusAvailable(s[..|s| - 1]);
    }
  }
}
