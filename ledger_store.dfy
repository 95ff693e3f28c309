/**
 * The ledger store the snapp receivers talk to, as abstract collections with
 * get and put operations. Account records form an insertion-ordered log and
 * a lookup by state index returns the earliest matching record; a write does
 * not check for an existing record with the same index.
 */
module LedgerStore {
  import opened Wrappers
  import opened Ledger

  datatype SnappConstants = SnappConstants(numTokens: int, numAccounts: int)

  datatype AuctionConstants = AuctionConstants(maxOrders: int, numReservedAccounts: int, ordersPerReservedAccount: int)

  /** The earliest record of the log carrying the given state index. */
  function FindRecord(log: seq<AccountRecord>, index: int): (r: Option<AccountRecord>)
    ensures r.Some? ==> r.value in log && r.value.stateIndex == index
    ensures r.None? <==> forall rec :: rec in log ==> rec.stateIndex != index
    decreases |log|
  {
    if log == [] then None
    else if log[0].stateIndex == index then Some(log[0])
    else FindRecord(log[1..], index)
  }

  /**
   * Appending a record never changes what an earlier lookup found: a record
   * already stored is never shadowed or altered by a later write.
   */
  lemma {:induction false} FindRecordAppend(log: seq<AccountRecord>, rec: AccountRecord, index: int)
    ensures FindRecord(log + [rec], index)
      == if FindRecord(log, index).Some? then FindRecord(log, index)
         else if rec.stateIndex == index then Some(rec) else None
    decreases |log|
  {
    if log == [] {
      assert log + [rec] == [rec];
    } else {
      assert (log + [rec])[1..] == log[1..] + [rec];
      FindRecordAppend(log[1..], rec, index);
    }
  }

  class Database {
    var accounts: seq<AccountRecord>
    var snappConstants: seq<SnappConstants>
    var auctionConstants: seq<AuctionConstants>
    /** Deposits and withdraws by slot, orders by auction id, each list in stored order. */
    var deposits: map<nat, seq<Deposit>>
    var withdraws: map<nat, seq<Withdraw>>
    var orders: map<nat, seq<Order>>

    constructor ()
      ensures accounts == [] && snappConstants == [] && auctionConstants == []
      ensures deposits == map[] && withdraws == map[] && orders == map[]
    {
      accounts, snappConstants, auctionConstants := [], [], [];
      deposits, withdraws, orders := map[], map[], map[];
    }

    function GetAccountState(index: int): Option<AccountRecord>
      reads this
    {
      FindRecord(accounts, index)
    }

    /** The token count of the first constants record, if any was written. */
    function GetNumTokens(): Option<int>
      reads this
    {
      if snappConstants == [] then None else Some(snappConstants[0].numTokens)
    }

    function GetDeposits(slot: nat): seq<Deposit>
      reads this
    {
      if slot in deposits then deposits[slot] else []
    }

    function GetWithdraws(slot: nat): seq<Withdraw>
      reads this
    {
      if slot in withdraws then withdraws[slot] else []
    }

    function GetOrders(auctionId: nat): seq<Order>
      reads this
    {
      if auctionId in orders then orders[auctionId] else []
    }

    method WriteAccountState(rec: AccountRecord)
      modifies this
      ensures accounts == old(accounts) + [rec]
      ensures snappConstants == old(snappConstants) && auctionConstants == old(auctionConstants)
      ensures deposits == old(deposits) && withdraws == old(withdraws) && orders == old(orders)
    {
      accounts := accounts + [rec];
    }

    /** Replaces the withdraw stored at position i of its slot. */
    method UpdateWithdraw(slot: nat, i: nat, replacement: Withdraw)
      requires slot in withdraws && i < |withdraws[slot]|
      modifies this
      ensures withdraws == old(withdraws)[slot := old(withdraws)[slot][i := replacement]]
      ensures accounts == old(accounts)
      ensures snappConstants == old(snappConstants) && auctionConstants == old(auctionConstants)
      ensures deposits == old(deposits) && orders == old(orders)
    {
      withdraws := withdraws[slot := withdraws[slot][i := replacement]];
    }

    method WriteSnappConstants(numTokens: int, numAccounts: int)
      modifies this
      ensures snappConstants == old(snappConstants) + [SnappConstants(numTokens, numAccounts)]
      ensures accounts == old(accounts) && auctionConstants == old(auctionConstants)
      ensures deposits == old(deposits) && withdraws == old(withdraws) && orders == old(orders)
    {
      snappConstants := snappConstants + [SnappConstants(numTokens, numAccounts)];
    }

    method WriteAuctionConstants(maxOrders: int, numReservedAccounts: int, ordersPerReservedAccount: int)
      modifies this
      ensures auctionConstants
        == old(auctionConstants) + [AuctionConstants(maxOrders, numReservedAccounts, ordersPerReservedAccount)]
      ensures accounts == old(accounts) && snappConstants == old(snappConstants)
      ensures deposits == old(deposits) && withdraws == old(withdraws) && orders == old(orders)
    {
      auctionConstants := auctionConstants + [AuctionConstants(maxOrders, numReservedAccounts, ordersPerReservedAccount)];
    }
  }
}
