/**
 * The balance rules of the snapp ledger transition engine, as pure functions
 * on the flat balances list of one account record.
 *
 * Balances are stored account-major, [b(a0,t0), b(a0,t1), ..., b(a1,t0), ...],
 * so the cell of (account, token) is numTokens * account + token. Each
 * transition kind is a left-to-right fold over its batch; the receivers in
 * module SnappEventReceiver run the same folds in place on a copied array.
 */
module Ledger {

  // ---------------------------------------------------------------- records

  /** A deposit filed under a slot; amounts are uint256, hence non-negative. */
  datatype Deposit = Deposit(accountId: nat, tokenId: nat, amount: nat, slot: nat)

  /** A withdraw request; `valid` is set once the engine has debited it. */
  datatype Withdraw = Withdraw(accountId: nat, tokenId: nat, amount: nat, slot: nat, valid: bool)

  /** The ledger's view of an auction order: who trades which tokens. */
  datatype Order = Order(accountId: nat, buyToken: nat, sellToken: nat, auctionId: nat)

  /** One versioned snapshot of all balances. */
  datatype AccountRecord = AccountRecord(stateIndex: int, stateHash: string, balances: seq<int>)

  /** The kind of a state transition; UnknownType stands for any other tag. */
  datatype TransitionType = DepositType | WithdrawType | UnknownType(tag: nat)

  datatype StateTransition = StateTransition(
    transitionType: TransitionType, stateIndex: int, stateHash: string, slot: nat)

  /** A settled auction: volumes aligned by position with the auction's orders. */
  datatype AuctionSettlement = AuctionSettlement(
    auctionId: nat, stateIndex: int, stateHash: string,
    buyAmounts: seq<nat>, sellAmounts: seq<nat>)

  // ---------------------------------------------------------------- indexing

  /**
   * The flat position of (accountId, tokenId) in the account-major balances
   * list: the accounts before it each take numTokens cells.
   */
  function Index(numTokens: int, accountId: nat, tokenId: nat): (r: int)
    ensures numTokens >= 0 ==> r >= tokenId
  {
    numTokens * accountId + tokenId
  }

  /** The ids address a cell of a balances list of length `size` without aliasing. */
  predicate InRange(numTokens: int, size: nat, accountId: nat, tokenId: nat) {
    tokenId < numTokens && Index(numTokens, accountId, tokenId) < size
  }

  lemma MulMonotonic(n: nat, x: nat, y: nat)
    requires x <= y
    ensures n * x <= n * y
  {
  }

  /** Distinct in-range (account, token) pairs never share a cell. */
  lemma IndexInjective(numTokens: int, a: nat, t: nat, a': nat, t': nat)
    requires t < numTokens && t' < numTokens
    ensures Index(numTokens, a, t) == Index(numTokens, a', t') <==> a == a' && t == t'
  {
    if a < a' {
      MulMonotonic(numTokens, a + 1, a');
      assert Index(numTokens, a, t) < numTokens * (a + 1) <= Index(numTokens, a', t');
    } else if a' < a {
      MulMonotonic(numTokens, a' + 1, a);
      assert Index(numTokens, a', t') < numTokens * (a' + 1) <= Index(numTokens, a, t);
    }
  }

  // ---------------------------------------------------------------- deposits

  predicate DepositsInRange(numTokens: int, size: nat, ds: seq<Deposit>) {
    forall d :: d in ds ==> InRange(numTokens, size, d.accountId, d.tokenId)
  }

  /** The balances after crediting every deposit of the batch, in order. */
  function ApplyDeposits(balances: seq<int>, ds: seq<Deposit>, numTokens: int): (r: seq<int>)
    requires DepositsInRange(numTokens, |balances|, ds)
    ensures |r| == |balances|
    decreases |ds|
  {
    if ds == [] then balances
    else
      var d := ds[|ds| - 1];
      var p := ApplyDeposits(balances, ds[..|ds| - 1], numTokens);
      var i := Index(numTokens, d.accountId, d.tokenId);
      p[i := p[i] + d.amount]
  }

  /** The total deposited into cell k by the batch. */
  function DepositedAt(ds: seq<Deposit>, numTokens: int, k: int): nat
    decreases |ds|
  {
    if ds == [] then 0
    else
      var d := ds[|ds| - 1];
      DepositedAt(ds[..|ds| - 1], numTokens, k)
        + (if Index(numTokens, d.accountId, d.tokenId) == k then d.amount else 0)
  }

  /** Deposit additivity: every cell grows by exactly what was deposited into it. */
  lemma {:induction false} DepositCell(balances: seq<int>, ds: seq<Deposit>, numTokens: int, k: int)
    requires DepositsInRange(numTokens, |balances|, ds)
    requires 0 <= k < |balances|
    ensures ApplyDeposits(balances, ds, numTokens)[k] == balances[k] + DepositedAt(ds, numTokens, k)
  {
    if ds != [] {
      DepositCell(balances, ds[..|ds| - 1], numTokens, k);
    }
  }

  /** A single deposit adds its amount to its own cell and leaves every other cell alone. */
  lemma SingleDeposit(balances: seq<int>, d: Deposit, numTokens: int)
    requires InRange(numTokens, |balances|, d.accountId, d.tokenId)
    ensures DepositsInRange(numTokens, |balances|, [d])
    ensures forall k :: 0 <= k < |balances| ==>
      ApplyDeposits(balances, [d], numTokens)[k]
        == balances[k] + (if k == Index(numTokens, d.accountId, d.tokenId) then d.amount else 0)
  {
    forall k | 0 <= k < |balances|
      ensures ApplyDeposits(balances, [d], numTokens)[k]
        == balances[k] + (if k == Index(numTokens, d.accountId, d.tokenId) then d.amount else 0)
    {
      DepositCell(balances, [d], numTokens, k);
      assert [d][..0] == [];
    }
  }

  lemma {:induction false} DepositedAtAppend(ds1: seq<Deposit>, ds2: seq<Deposit>, numTokens: int, k: int)
    ensures DepositedAt(ds1 + ds2, numTokens, k)
      == DepositedAt(ds1, numTokens, k) + DepositedAt(ds2, numTokens, k)
    decreases |ds2|
  {
    if ds2 == [] {
      assert ds1 + ds2 == ds1;
    } else {
      assert (ds1 + ds2)[..|ds1 + ds2| - 1] == ds1 + ds2[..|ds2| - 1];
      DepositedAtAppend(ds1, ds2[..|ds2| - 1], numTokens, k);
    }
  }

  /** Deposits within a slot commute: the order of the batch does not matter. */
  lemma DepositsCommute(balances: seq<int>, ds1: seq<Deposit>, ds2: seq<Deposit>, numTokens: int)
    requires DepositsInRange(numTokens, |balances|, ds1 + ds2)
    ensures DepositsInRange(numTokens, |balances|, ds2 + ds1)
    ensures ApplyDeposits(balances, ds1 + ds2, numTokens) == ApplyDeposits(balances, ds2 + ds1, numTokens)
  {
    assert forall d :: d in ds2 + ds1 ==> d in ds1 + ds2;
    var r1 := ApplyDeposits(balances, ds1 + ds2, numTokens);
    var r2 := ApplyDeposits(balances, ds2 + ds1, numTokens);
    forall k | 0 <= k < |balances| ensures r1[k] == r2[k] {
      DepositCell(balances, ds1 + ds2, numTokens, k);
      DepositCell(balances, ds2 + ds1, numTokens, k);
      DepositedAtAppend(ds1, ds2, numTokens, k);
      DepositedAtAppend(ds2, ds1, numTokens, k);
    }
  }

  // ---------------------------------------------------------------- withdraws

  predicate WithdrawsInRange(numTokens: int, size: nat, ws: seq<Withdraw>) {
    forall j :: 0 <= j < |ws| ==> InRange(numTokens, size, ws[j].accountId, ws[j].tokenId)
  }

  /**
   * The result of a withdraw batch: the new balances, the withdraw records as
   * they are stored afterwards, and which requests were debited.
   */
  datatype WithdrawOutcome = WithdrawOutcome(balances: seq<int>, records: seq<Withdraw>, accepted: seq<bool>)

  /**
   * Processes the withdraws in stored order; a request is debited, and its
   * record marked valid, only when its cell stays non-negative.
   */
  function ApplyWithdraws(balances: seq<int>, ws: seq<Withdraw>, numTokens: int): (r: WithdrawOutcome)
    requires WithdrawsInRange(numTokens, |balances|, ws)
    ensures |r.balances| == |balances| && |r.records| == |ws| && |r.accepted| == |ws|
    decreases |ws|
  {
    if ws == [] then WithdrawOutcome(balances, [], [])
    else
      var w := ws[|ws| - 1];
      var p := ApplyWithdraws(balances, ws[..|ws| - 1], numTokens);
      var i := Index(numTokens, w.accountId, w.tokenId);
      if p.balances[i] - w.amount >= 0 then
        WithdrawOutcome(p.balances[i := p.balances[i] - w.amount], p.records + [w.(valid := true)], p.accepted + [true])
      else
        WithdrawOutcome(p.balances, p.records + [w], p.accepted + [false])
  }

  /** The total debited from cell k by the accepted requests. */
  function WithdrawnAt(ws: seq<Withdraw>, accepted: seq<bool>, numTokens: int, k: int): nat
    requires |accepted| == |ws|
    decreases |ws|
  {
    if ws == [] then 0
    else
      var w := ws[|ws| - 1];
      WithdrawnAt(ws[..|ws| - 1], accepted[..|ws| - 1], numTokens, k)
        + (if accepted[|ws| - 1] && Index(numTokens, w.accountId, w.tokenId) == k then w.amount else 0)
  }

  /** Each cell loses exactly the amounts of the accepted requests on it. */
  lemma {:induction false} WithdrawCell(balances: seq<int>, ws: seq<Withdraw>, numTokens: int, k: int)
    requires WithdrawsInRange(numTokens, |balances|, ws)
    requires 0 <= k < |balances|
    ensures var r := ApplyWithdraws(balances, ws, numTokens);
      r.balances[k] == balances[k] - WithdrawnAt(ws, r.accepted, numTokens, k)
    decreases |ws|
  {
    if ws != [] {
      var r := ApplyWithdraws(balances, ws, numTokens);
      var p := ApplyWithdraws(balances, ws[..|ws| - 1], numTokens);
      WithdrawCell(balances, ws[..|ws| - 1], numTokens, k);
      assert r.accepted[..|ws| - 1] == p.accepted;
    }
  }

  /** Only the accepted requests are marked valid; nothing else in a record changes. */
  lemma {:induction false} WithdrawRecords(balances: seq<int>, ws: seq<Withdraw>, numTokens: int)
    requires WithdrawsInRange(numTokens, |balances|, ws)
    ensures var r := ApplyWithdraws(balances, ws, numTokens);
      forall i :: 0 <= i < |ws| ==>
        r.records[i] == (if r.accepted[i] then ws[i].(valid := true) else ws[i])
    decreases |ws|
  {
    if ws != [] {
      WithdrawRecords(balances, ws[..|ws| - 1], numTokens);
    }
  }

  /**
   * Withdraw solvency: a batch never raises a cell, and never drives a
   * non-negative cell below zero.
   */
  lemma {:induction false} WithdrawsBounded(balances: seq<int>, ws: seq<Withdraw>, numTokens: int, k: int)
    requires WithdrawsInRange(numTokens, |balances|, ws)
    requires 0 <= k < |balances|
    ensures var r := ApplyWithdraws(balances, ws, numTokens);
      r.balances[k] <= balances[k] && (balances[k] >= 0 ==> r.balances[k] >= 0)
    decreases |ws|
  {
    if ws != [] {
      WithdrawsBounded(balances, ws[..|ws| - 1], numTokens, k);
    }
  }

  lemma {:induction false} WithdrawPrefix(balances: seq<int>, ws: seq<Withdraw>, numTokens: int, m: nat)
    requires WithdrawsInRange(numTokens, |balances|, ws)
    requires m <= |ws|
    ensures WithdrawsInRange(numTokens, |balances|, ws[..m])
    ensures ApplyWithdraws(balances, ws[..m], numTokens).accepted
      == ApplyWithdraws(balances, ws, numTokens).accepted[..m]
    decreases |ws|
  {
    if m < |ws| {
      var ws' := ws[..|ws| - 1];
      assert ws[..m] == ws'[..m];
      WithdrawPrefix(balances, ws', numTokens, m);
    } else {
      assert ws[..m] == ws;
    }
  }

  /** Extending a prefix of the batch by request i processes that request alone. */
  lemma WithdrawStep(balances: seq<int>, ws: seq<Withdraw>, numTokens: int, i: nat)
    requires WithdrawsInRange(numTokens, |balances|, ws)
    requires i < |ws|
    ensures WithdrawsInRange(numTokens, |balances|, ws[..i]) && WithdrawsInRange(numTokens, |balances|, ws[..i + 1])
    ensures InRange(numTokens, |balances|, ws[i].accountId, ws[i].tokenId)
    ensures var p := ApplyWithdraws(balances, ws[..i], numTokens);
      var w := ws[i];
      var k := Index(numTokens, w.accountId, w.tokenId);
      ApplyWithdraws(balances, ws[..i + 1], numTokens)
        == if p.balances[k] - w.amount >= 0
           then WithdrawOutcome(p.balances[k := p.balances[k] - w.amount], p.records + [w.(valid := true)], p.accepted + [true])
           else WithdrawOutcome(p.balances, p.records + [w], p.accepted + [false])
  {
    WithdrawPrefix(balances, ws, numTokens, i);
    WithdrawPrefix(balances, ws, numTokens, i + 1);
    assert ws[..i + 1][..i] == ws[..i];
  }

  /**
   * Withdraws run in stored order: request i is accepted exactly when the
   * balance left by the requests before it covers its amount.
   */
  lemma WithdrawAcceptance(balances: seq<int>, ws: seq<Withdraw>, numTokens: int, i: nat)
    requires WithdrawsInRange(numTokens, |balances|, ws)
    requires i < |ws|
    ensures WithdrawsInRange(numTokens, |balances|, ws[..i])
    ensures ApplyWithdraws(balances, ws, numTokens).accepted[i]
      <==> ApplyWithdraws(balances, ws[..i], numTokens)
             .balances[Index(numTokens, ws[i].accountId, ws[i].tokenId)] >= ws[i].amount
  {
    WithdrawPrefix(balances, ws, numTokens, i);
    WithdrawPrefix(balances, ws, numTokens, i + 1);
    assert ws[..i + 1][..i] == ws[..i];
    assert ws[..i + 1][i] == ws[i];
  }

  // ---------------------------------------------------------------- settlement

  /** The solution covers every order and every order touches in-range cells. */
  predicate SettlementFits(numTokens: int, size: nat, orders: seq<Order>, buys: seq<nat>, sells: seq<nat>) {
    && |buys| >= |orders| && |sells| >= |orders|
    && forall j :: 0 <= j < |orders| ==>
         InRange(numTokens, size, orders[j].accountId, orders[j].buyToken)
         && InRange(numTokens, size, orders[j].accountId, orders[j].sellToken)
  }

  lemma SettlementFitsPrefix(numTokens: int, size: nat, orders: seq<Order>, buys: seq<nat>, sells: seq<nat>, m: nat)
    requires SettlementFits(numTokens, size, orders, buys, sells) && m <= |orders|
    ensures SettlementFits(numTokens, size, orders[..m], buys, sells)
  {
    assert forall j :: 0 <= j < m ==> orders[..m][j] == orders[j];
  }

  /**
   * Credits each order's buy token and debits its sell token, in order, with
   * no solvency check: settlement volumes are trusted.
   */
  function ApplySettlement(balances: seq<int>, orders: seq<Order>, buys: seq<nat>, sells: seq<nat>, numTokens: int): (r: seq<int>)
    requires SettlementFits(numTokens, |balances|, orders, buys, sells)
    ensures |r| == |balances|
    decreases |orders|
  {
    if orders == [] then balances
    else
      var m := |orders| - 1;
      var p := ApplySettlement(balances, orders[..m], buys, sells, numTokens);
      var credited := Adjust(p, Index(numTokens, orders[m].accountId, orders[m].buyToken), buys[m]);
      Adjust(credited, Index(numTokens, orders[m].accountId, orders[m].sellToken), -(sells[m] as int))
  }

  /** Cell i moved by delta, every other cell as it was. */
  function Adjust(p: seq<int>, i: nat, delta: int): (r: seq<int>)
    requires i < |p|
    ensures |r| == |p|
  {
    p[i := p[i] + delta]
  }

  /** The total bought into cell k: the buy amounts of the orders whose buy cell is k. */
  function BoughtAt(orders: seq<Order>, buys: seq<nat>, numTokens: int, k: int): nat
    requires |buys| >= |orders|
    decreases |orders|
  {
    if orders == [] then 0
    else
      var m := |orders| - 1;
      BoughtAt(orders[..m], buys, numTokens, k)
        + (if Index(numTokens, orders[m].accountId, orders[m].buyToken) == k then buys[m] else 0)
  }

  /** The total sold out of cell k. */
  function SoldAt(orders: seq<Order>, sells: seq<nat>, numTokens: int, k: int): nat
    requires |sells| >= |orders|
    decreases |orders|
  {
    if orders == [] then 0
    else
      var m := |orders| - 1;
      SoldAt(orders[..m], sells, numTokens, k)
        + (if Index(numTokens, orders[m].accountId, orders[m].sellToken) == k then sells[m] else 0)
  }

  /** Per-cell settlement: a cell changes by what its orders bought minus what they sold. */
  lemma {:induction false} SettlementCell(balances: seq<int>, orders: seq<Order>, buys: seq<nat>, sells: seq<nat>, numTokens: int, k: int)
    requires SettlementFits(numTokens, |balances|, orders, buys, sells)
    requires 0 <= k < |balances|
    ensures ApplySettlement(balances, orders, buys, sells, numTokens)[k]
      == balances[k] + BoughtAt(orders, buys, numTokens, k) - SoldAt(orders, sells, numTokens, k)
    decreases |orders|
  {
    if orders != [] {
      var m := |orders| - 1;
      var o := orders[m];
      SettlementStep(balances, orders, buys, sells, numTokens);
      SettlementCell(balances, orders[..m], buys, sells, numTokens, k);
    }
  }

  /** The sum of all entries. */
  function Sum(s: seq<int>): int
    decreases |s|
  {
    if s == [] then 0 else Sum(s[..|s| - 1]) + s[|s| - 1]
  }

  lemma {:induction false} SumUpdate(s: seq<int>, i: nat, v: int)
    requires i < |s|
    ensures Sum(s[i := v]) == Sum(s) - s[i] + v
    decreases |s|
  {
    var m := |s| - 1;
    if i < m {
      assert s[i := v][..m] == s[..m][i := v];
      SumUpdate(s[..m], i, v);
    } else {
      assert s[i := v][..m] == s[..m];
    }
  }

  /** Crediting one cell and debiting another moves the total by the difference. */
  lemma {:induction false} AdjustTotal(p: seq<int>, i: nat, delta: int)
    requires i < |p|
    ensures Sum(Adjust(p, i, delta)) == Sum(p) + delta
  {
    SumUpdate(p, i, p[i] + delta);
  }

  /** Settlement conservation: the ledger total moves by the bought volume minus the sold volume. */
  lemma {:induction false} SettlementTotal(balances: seq<int>, orders: seq<Order>, buys: seq<nat>, sells: seq<nat>, numTokens: int)
    requires SettlementFits(numTokens, |balances|, orders, buys, sells)
    ensures Sum(ApplySettlement(balances, orders, buys, sells, numTokens))
      == Sum(balances) + Sum(buys[..|orders|]) - Sum(sells[..|orders|])
    decreases |orders|
  {
    if orders != [] {
      var m := |orders| - 1;
      SettleLastTotal(balances, orders, buys, sells, numTokens);
      SettlementTotal(balances, orders[..m], buys, sells, numTokens);
      SumSnoc(buys, m);
      SumSnoc(sells, m);
    }
  }

  /** The last order of a settlement moves the total by its bought minus its sold volume. */
  lemma SettleLastTotal(balances: seq<int>, orders: seq<Order>, buys: seq<nat>, sells: seq<nat>, numTokens: int)
    requires SettlementFits(numTokens, |balances|, orders, buys, sells) && orders != []
    ensures SettlementFits(numTokens, |balances|, orders[..|orders| - 1], buys, sells)
    ensures Sum(ApplySettlement(balances, orders, buys, sells, numTokens))
      == Sum(ApplySettlement(balances, orders[..|orders| - 1], buys, sells, numTokens))
         + buys[|orders| - 1] - sells[|orders| - 1]
  {
    var m := |orders| - 1;
    var o := orders[m];
    SettlementStep(balances, orders, buys, sells, numTokens);
    AdjustTwiceTotal(ApplySettlement(balances, orders, buys, sells, numTokens),
                     ApplySettlement(balances, orders[..m], buys, sells, numTokens),
                     Index(numTokens, o.accountId, o.buyToken), buys[m], Index(numTokens, o.accountId, o.sellToken), sells[m]);
  }

  lemma AdjustTwiceTotal(r: seq<int>, p: seq<int>, bi: nat, bought: int, si: nat, sold: int)
    requires bi < |p| && si < |p|
    requires r == Adjust(Adjust(p, bi, bought), si, -sold)
    ensures Sum(r) == Sum(p) + bought - sold
  {
    AdjustTotal(p, bi, bought);
    AdjustTotal(Adjust(p, bi, bought), si, -sold);
  }

  lemma SumSnoc(s: seq<int>, m: nat)
    requires m < |s|
    ensures Sum(s[..m + 1]) == Sum(s[..m]) + s[m]
  {
    assert s[..m + 1][..m] == s[..m];
  }

  /** The last order of a non-empty settlement credits and debits the state the others leave. */
  lemma SettlementStep(balances: seq<int>, orders: seq<Order>, buys: seq<nat>, sells: seq<nat>, numTokens: int)
    requires SettlementFits(numTokens, |balances|, orders, buys, sells) && orders != []
    ensures SettlementFits(numTokens, |balances|, orders[..|orders| - 1], buys, sells)
    ensures InRange(numTokens, |balances|, orders[|orders| - 1].accountId, orders[|orders| - 1].buyToken)
    ensures InRange(numTokens, |balances|, orders[|orders| - 1].accountId, orders[|orders| - 1].sellToken)
    ensures var m := |orders| - 1;
      ApplySettlement(balances, orders, buys, sells, numTokens)
        == Adjust(Adjust(ApplySettlement(balances, orders[..m], buys, sells, numTokens),
                         Index(numTokens, orders[m].accountId, orders[m].buyToken), buys[m]),
                  Index(numTokens, orders[m].accountId, orders[m].sellToken), -(sells[m] as int))
  {
    var m := |orders| - 1;
    SettlementFitsPrefix(numTokens, |balances|, orders, buys, sells, m);
  }

  // ---------------------------------------------------------------- genesis

  /** The genesis snapshot: state index 0 and one zero per (account, token) cell. */
  function GenesisRecord(stateHash: string, numTokens: int, numAccounts: int): (r: AccountRecord)
    ensures r.stateIndex == 0 && r.stateHash == stateHash
    ensures numTokens * numAccounts >= 0 ==> |r.balances| == numTokens * numAccounts
    ensures numTokens * numAccounts < 0 ==> r.balances == []
    ensures forall k :: 0 <= k < |r.balances| ==> r.balances[k] == 0
  {
    var cells := numTokens * numAccounts;
    AccountRecord(0, stateHash, seq(if cells > 0 then cells else 0, _ => 0))
  }

  // ---------------------------------------------------------------- scenarios

  /** Two tokens, two accounts: a deposit of 5 of token 0 to account 1 lands in cell 2. */
  lemma ScenarioDeposit()
    ensures DepositsInRange(2, 4, [Deposit(1, 0, 5, 1)])
    ensures ApplyDeposits(GenesisRecord("", 2, 2).balances, [Deposit(1, 0, 5, 1)], 2) == [0, 0, 5, 0]
  {
    assert GenesisRecord("", 2, 2).balances == [0, 0, 0, 0];
  }

  /** A withdraw above the balance changes nothing and stays invalid; one below is debited. */
  lemma ScenarioWithdraws()
    ensures WithdrawsInRange(2, 4, [Withdraw(0, 0, 15, 1, false)])
    ensures ApplyWithdraws([10, 0, 0, 0], [Withdraw(0, 0, 15, 1, false)], 2)
      == WithdrawOutcome([10, 0, 0, 0], [Withdraw(0, 0, 15, 1, false)], [false])
    ensures ApplyWithdraws([10, 0, 0, 0], [Withdraw(0, 0, 4, 1, false)], 2)
      == WithdrawOutcome([6, 0, 0, 0], [Withdraw(0, 0, 4, 1, true)], [true])
  {
  }

  /** A later withdraw sees the debit of an earlier one in the same batch. */
  lemma ScenarioWithdrawOrder()
    ensures WithdrawsInRange(2, 4, [Withdraw(0, 0, 6, 1, false), Withdraw(0, 0, 6, 1, false)])
    ensures ApplyWithdraws([10, 0, 0, 0], [Withdraw(0, 0, 6, 1, false), Withdraw(0, 0, 6, 1, false)], 2).accepted
      == [true, false]
  {
    var ws := [Withdraw(0, 0, 6, 1, false), Withdraw(0, 0, 6, 1, false)];
    assert ws[..1] == [ws[0]];
  }

  /** One order of account 0 buying 3 of token 1 for 2 of token 0. */
  lemma ScenarioSettlement()
    ensures SettlementFits(2, 4, [Order(0, 1, 0, 7)], [3], [2])
    ensures ApplySettlement([10, 0, 0, 0], [Order(0, 1, 0, 7)], [3], [2], 2) == [8, 3, 0, 0]
  {
  }
}
