/**
 * The driver's view of the ledger: a map from (account, token) to the
 * balance the account holds of that token, where a missing entry reads as 0.
 * Besides the read accessors it has the two builders the solver's callers
 * use: from a flat account-major balances vector, and from a list of orders
 * whose sellers are credited exactly what they offer.
 */
module AccountStates {
  import opened Wrappers
  import opened Models
  import Ledger

  type Key = (Address, TokenId)

  /** The balance stored under a key; an absent key reads as 0. */
  function Lookup(balances: map<Key, nat>, key: Key): nat {
    if key in balances then balances[key] else 0
  }

  /**
   * The map built from a flat vector: entry i belongs to account i / n and
   * token i % n. Built from the last entry so that it grows with the vector.
   */
  function FromFlat(flat: seq<nat>, numTokens: nat): map<Key, nat>
    requires numTokens > 0
    decreases |flat|
  {
    if flat == [] then map[]
    else
      var i := |flat| - 1;
      FromFlat(flat[..i], numTokens)[(i / numTokens, i % numTokens) := flat[i]]
  }

  /** Entry i of the flat vector sits at account i / n, token i % n. */
  lemma FlatPosition(i: nat, numTokens: nat)
    requires numTokens > 0
    ensures i % numTokens < numTokens && Ledger.Index(numTokens, i / numTokens, i % numTokens) == i
  {
    assert numTokens * (i / numTokens) + i % numTokens == i;
  }

  /**
   * The map holds an entry for (a, t) exactly when t is a token id and the
   * account-major cell n*a + t exists, and that entry is the cell's value:
   * the same layout the ledger engine indexes its balances list with.
   */
  lemma {:induction false} FromFlatLayout(flat: seq<nat>, numTokens: nat, a: Address, t: TokenId)
    requires numTokens > 0
    ensures (a, t) in FromFlat(flat, numTokens)
      <==> t < numTokens && Ledger.Index(numTokens, a, t) < |flat|
    ensures (a, t) in FromFlat(flat, numTokens)
      ==> FromFlat(flat, numTokens)[(a, t)] == flat[Ledger.Index(numTokens, a, t)]
    decreases |flat|
  {
    if flat != [] {
      var i := |flat| - 1;
      var prefix := flat[..i];
      FromFlatLayout(prefix, numTokens, a, t);
      var a', t' := i / numTokens, i % numTokens;
      FlatPosition(i, numTokens);
      assert FromFlat(flat, numTokens) == FromFlat(prefix, numTokens)[(a', t') := flat[i]];
      if t < numTokens {
        Ledger.IndexInjective(numTokens, a, t, a', t');
        if (a, t) != (a', t') && (a, t) in FromFlat(prefix, numTokens) {
          assert prefix[Ledger.Index(numTokens, a, t)] == flat[Ledger.Index(numTokens, a, t)];
        }
      }
    }
  }

  /** The total each (account, sell token) offers across the orders. */
  function SoldBy(orders: seq<Order>, account: Address, token: TokenId): nat
    decreases |orders|
  {
    if orders == [] then 0
    else
      var o := orders[|orders| - 1];
      SoldBy(orders[..|orders| - 1], account, token)
        + (if o.accountId == account && o.sellToken == token then o.sellAmount else 0)
  }

  /** The map obtained by crediting every order's seller with its sell amount, in order. */
  function SellTotals(orders: seq<Order>): map<Key, nat>
    decreases |orders|
  {
    if orders == [] then map[]
    else
      var o := orders[|orders| - 1];
      var prev := SellTotals(orders[..|orders| - 1]);
      var key := (o.accountId, o.sellToken);
      prev[key := Lookup(prev, key) + o.sellAmount]
  }

  /**
   * Crediting the orders one by one leaves every (account, token) with the
   * sum of what that account sells of that token, and creates an entry
   * exactly for the pairs some order sells.
   */
  lemma {:induction false} SellTotalsLookup(orders: seq<Order>, account: Address, token: TokenId)
    ensures Lookup(SellTotals(orders), (account, token)) == SoldBy(orders, account, token)
    ensures (account, token) in SellTotals(orders)
      <==> exists i :: 0 <= i < |orders| && orders[i].accountId == account && orders[i].sellToken == token
    decreases |orders|
  {
    if orders != [] {
      var n := |orders| - 1;
      SellTotalsLookup(orders[..n], account, token);
      if (account, token) in SellTotals(orders[..n]) {
        var i :| 0 <= i < n && orders[..n][i].accountId == account && orders[..n][i].sellToken == token;
        assert orders[i] == orders[..n][i];
      }
      if exists i :: 0 <= i < |orders| && orders[i].accountId == account && orders[i].sellToken == token {
        var i :| 0 <= i < |orders| && orders[i].accountId == account && orders[i].sellToken == token;
        if i < n {
          assert orders[..n][i] == orders[i];
        }
      }
    }
  }

  /** Every order is covered: its seller's total is at least its own sell amount. */
  lemma {:induction false} SoldByCovers(orders: seq<Order>, i: nat)
    requires i < |orders|
    ensures SoldBy(orders, orders[i].accountId, orders[i].sellToken) >= orders[i].sellAmount
    decreases |orders|
  {
    var n := |orders| - 1;
    if i < n {
      assert orders[..n][i] == orders[i];
      SoldByCovers(orders[..n], i);
    }
  }

  class AccountState {
    var balances: map<Key, nat>

    /** The empty state, in which every balance reads as 0. */
    constructor ()
      ensures balances == map[]
    {
      balances := map[];
    }

    function ReadBalance(token: TokenId, account: Address): (r: nat)
      reads this
      ensures (account, token) in balances ==> r == balances[(account, token)]
      ensures (account, token) !in balances ==> r == 0
    {
      Lookup(balances, (account, token))
    }

    /** The (account, token) pairs that hold an entry, whatever its value. */
    function UserTokenPairs(): (r: set<Key>)
      reads this
      ensures forall key :: key in r <==> key in balances
      ensures forall a: Address, t: TokenId :: ReadBalance(t, a) != 0 ==> (a, t) in r
    {
      balances.Keys
    }

    /** Credits one entry, creating it at 0 first when absent; no other entry changes. */
    method IncreaseBalance(account: Address, token: TokenId, amount: nat)
      modifies this
      ensures balances == old(balances)[(account, token) := old(ReadBalance(token, account)) + amount]
      ensures ReadBalance(token, account) == old(ReadBalance(token, account)) + amount
      ensures forall a: Address, t: TokenId :: (a, t) != (account, token) ==> ReadBalance(t, a) == old(ReadBalance(t, a))
      ensures UserTokenPairs() == old(UserTokenPairs()) + {(account, token)}
    {
      balances := balances[(account, token) := Lookup(balances, (account, token)) + amount];
    }

    /**
     * The state of a flat account-major vector of numTokens balances per
     * account; the driver refuses a vector that is not a whole number of
     * accounts long, and a token count of 0 (a remainder by zero).
     */
    static method New(flat: seq<nat>, numTokens: nat) returns (r: Option<AccountState>)
      ensures r.None? <==> numTokens == 0 || |flat| % numTokens != 0
      ensures r.Some? ==> fresh(r.value) && numTokens > 0 && r.value.balances == FromFlat(flat, numTokens)
    {
      if numTokens == 0 || |flat| % numTokens != 0 {
        return None;
      }
      var state := new AccountState();
      state.balances := FromFlat(flat, numTokens);
      return Some(state);
    }

    /** The state in which each order's seller holds what the orders sell, summed per pair. */
    static method WithBalanceFor(orders: seq<Order>) returns (state: AccountState)
      ensures fresh(state)
      ensures state.balances == SellTotals(orders)
    {
      state := new AccountState();
      for i := 0 to |orders|
        invariant fresh(state)
        invariant state.balances == SellTotals(orders[..i])
      {
        assert orders[..i + 1][..i] == orders[..i];
        state.IncreaseBalance(orders[i].accountId, orders[i].sellToken, orders[i].sellAmount);
      }
      assert orders[..|orders|] == orders;
    }
  }
}
