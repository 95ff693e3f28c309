/**
 * The snapp event receivers: each reads the predecessor snapshot from the
 * store, applies one batch to a fresh copy of its balances in place, and
 * appends the new account record; the two initialisation receivers check the
 * raw event's shape before writing anything.
 */
module SnappEventReceiver {
  import opened Wrappers
  import opened Ledger
  import opened LedgerStore

  /** Why a receiver stops; in the service each of these is a raised exception. */
  datatype Failure =
    | AccountStateNotFound
    | ConstantsNotFound
    | InvalidTransitionType
    | UnexpectedEventKeys
    | UnexpectedValue(field: string)

  /** The records a state transition applies: deposits or withdraws of one slot. */
  datatype Batch = DepositBatch(deposits: seq<Deposit>) | WithdrawBatch(withdraws: seq<Withdraw>)

  /** A raw event field. A Python bool is also an int, worth 0 or 1. */
  datatype Value = IntValue(i: int) | BoolValue(b: bool) | StrValue(s: string) | OtherValue

  predicate IsInt(v: Value) {
    v.IntValue? || v.BoolValue?
  }

  function AsInt(v: Value): int
    requires IsInt(v)
  {
    if v.IntValue? then v.i else if v.b then 1 else 0
  }

  /** The validated content of a snapp initialisation event. */
  datatype SnappInit = SnappInit(stateHash: string, maxTokens: int, maxAccounts: int)

  /** The validated content of an auction initialisation event. */
  datatype AuctionInit = AuctionInit(maxOrders: int, numReservedAccounts: int, ordersPerReservedAccount: int)

  /**
   * A snapp initialisation event is accepted exactly when its key set is
   * {stateHash, maxTokens, maxAccounts}, the hash is a 64-character string
   * and both counts are ints; the checks run in that order.
   */
  function ValidateSnappInit(event: map<string, Value>): (r: Result<SnappInit, Failure>)
    ensures r.Success? <==>
      && event.Keys == {"stateHash", "maxTokens", "maxAccounts"}
      && event["stateHash"].StrValue? && |event["stateHash"].s| == 64
      && IsInt(event["maxTokens"]) && IsInt(event["maxAccounts"])
    ensures r.Success? ==>
      r.value == SnappInit(event["stateHash"].s, AsInt(event["maxTokens"]), AsInt(event["maxAccounts"]))
    ensures event.Keys != {"stateHash", "maxTokens", "maxAccounts"} ==> r == Failure(UnexpectedEventKeys)
  {
    if event.Keys != {"stateHash", "maxTokens", "maxAccounts"} then Failure(UnexpectedEventKeys)
    else if !(event["stateHash"].StrValue? && |event["stateHash"].s| == 64) then Failure(UnexpectedValue("stateHash"))
    else if !IsInt(event["maxTokens"]) then Failure(UnexpectedValue("maxTokens"))
    else if !IsInt(event["maxAccounts"]) then Failure(UnexpectedValue("maxAccounts"))
    else Success(SnappInit(event["stateHash"].s, AsInt(event["maxTokens"]), AsInt(event["maxAccounts"])))
  }

  /**
   * An auction initialisation event is accepted exactly when its key set is
   * {maxOrders, numReservedAccounts, ordersPerReservedAccount} and all three are ints.
   */
  function ValidateAuctionInit(event: map<string, Value>): (r: Result<AuctionInit, Failure>)
    ensures r.Success? <==>
      && event.Keys == {"maxOrders", "numReservedAccounts", "ordersPerReservedAccount"}
      && IsInt(event["maxOrders"]) && IsInt(event["numReservedAccounts"]) && IsInt(event["ordersPerReservedAccount"])
    ensures r.Success? ==>
      r.value == AuctionInit(AsInt(event["maxOrders"]), AsInt(event["numReservedAccounts"]),
                             AsInt(event["ordersPerReservedAccount"]))
    ensures event.Keys != {"maxOrders", "numReservedAccounts", "ordersPerReservedAccount"} ==>
      r == Failure(UnexpectedEventKeys)
  {
    if event.Keys != {"maxOrders", "numReservedAccounts", "ordersPerReservedAccount"} then Failure(UnexpectedEventKeys)
    else if !IsInt(event["maxOrders"]) then Failure(UnexpectedValue("maxOrders"))
    else if !IsInt(event["numReservedAccounts"]) then Failure(UnexpectedValue("numReservedAccounts"))
    else if !IsInt(event["ordersPerReservedAccount"]) then Failure(UnexpectedValue("ordersPerReservedAccount"))
    else Success(AuctionInit(AsInt(event["maxOrders"]), AsInt(event["numReservedAccounts"]),
                             AsInt(event["ordersPerReservedAccount"])))
  }

  /** Applies deposit and withdraw transitions. */
  class StateTransitionReceiver {
    const database: Database

    constructor (database: Database)
      ensures this.database == database
    {
      this.database := database;
    }

    /** The batch a transition applies; any type but Deposit or Withdraw is refused. */
    function DataToApply(transition: StateTransition): (r: Result<Batch, Failure>)
      reads database
      ensures r.Failure? <==> transition.transitionType.UnknownType?
      ensures r.Failure? ==> r.error == InvalidTransitionType
      ensures transition.transitionType == DepositType ==>
        r == Success(DepositBatch(database.GetDeposits(transition.slot)))
      ensures transition.transitionType == WithdrawType ==>
        r == Success(WithdrawBatch(database.GetWithdraws(transition.slot)))
    {
      match transition.transitionType
      case DepositType => Success(DepositBatch(database.GetDeposits(transition.slot)))
      case WithdrawType => Success(WithdrawBatch(database.GetWithdraws(transition.slot)))
      case UnknownType(_) => Failure(InvalidTransitionType)
    }

    /**
     * The records the transition will apply address cells of its predecessor
     * without aliasing (the service itself does not check this).
     */
    ghost predicate BatchInRange(transition: StateTransition)
      reads database
    {
      match (database.GetAccountState(transition.stateIndex - 1), database.GetNumTokens())
      case (Some(prev), Some(numTokens)) =>
        && (transition.transitionType == DepositType ==>
              DepositsInRange(numTokens, |prev.balances|, database.GetDeposits(transition.slot)))
        && (transition.transitionType == WithdrawType ==>
              WithdrawsInRange(numTokens, |prev.balances|, database.GetWithdraws(transition.slot)))
      case _ => true
    }

    /** Whether a transition goes through, and if not, why it stops. */
    ghost function TransitionOutcome(transition: StateTransition): Outcome<Failure>
      reads database
    {
      if database.GetAccountState(transition.stateIndex - 1).None? then Fail(AccountStateNotFound)
      else if database.GetNumTokens().None? then Fail(ConstantsNotFound)
      else if transition.transitionType.UnknownType? then Fail(InvalidTransitionType)
      else Pass
    }

    /** Applies the transition; the receiver's only effect is that of UpdateAccounts. */
    method SaveParsed(transition: StateTransition) returns (r: Outcome<Failure>)
      requires BatchInRange(transition)
      modifies database
      ensures r == old(TransitionOutcome(transition))
      ensures r.Fail? ==>
        && database.accounts == old(database.accounts)
        && database.withdraws == old(database.withdraws)
      ensures r.Pass? && transition.transitionType == DepositType ==>
        var prev := old(database.GetAccountState(transition.stateIndex - 1)).value.balances;
        var numTokens := old(database.GetNumTokens()).value;
        && database.accounts == old(database.accounts) + [AccountRecord(transition.stateIndex, transition.stateHash,
             ApplyDeposits(prev, old(database.GetDeposits(transition.slot)), numTokens))]
        && database.withdraws == old(database.withdraws)
      ensures r.Pass? && transition.transitionType == WithdrawType ==>
        var prev := old(database.GetAccountState(transition.stateIndex - 1)).value.balances;
        var numTokens := old(database.GetNumTokens()).value;
        var outcome := ApplyWithdraws(prev, old(database.GetWithdraws(transition.slot)), numTokens);
        && database.accounts == old(database.accounts) + [AccountRecord(transition.stateIndex, transition.stateHash, outcome.balances)]
        && database.withdraws == if transition.slot in old(database.withdraws)
                                 then old(database.withdraws)[transition.slot := outcome.records]
                                 else old(database.withdraws)
      ensures r.Pass? ==>
        var prev := old(database.GetAccountState(transition.stateIndex - 1)).value;
        && |database.accounts| == |old(database.accounts)| + 1
        && database.accounts[|database.accounts| - 1].stateIndex == prev.stateIndex + 1
        && |database.accounts[|database.accounts| - 1].balances| == |prev.balances|
      ensures database.snappConstants == old(database.snappConstants)
      ensures database.auctionConstants == old(database.auctionConstants)
      ensures database.deposits == old(database.deposits) && database.orders == old(database.orders)
    {
      r := UpdateAccounts(transition);
    }

    /**
     * Builds the record at transition.stateIndex from the record at
     * stateIndex - 1: a missing predecessor, missing constants or an unknown
     * transition type stop it before anything is written; otherwise the new
     * record is appended, and a withdraw batch also marks its debited
     * withdraws valid in the store.
     */
    method UpdateAccounts(transition: StateTransition) returns (r: Outcome<Failure>)
      requires BatchInRange(transition)
      modifies database
      ensures r == old(TransitionOutcome(transition))
      ensures r.Fail? ==>
        && database.accounts == old(database.accounts)
        && database.withdraws == old(database.withdraws)
      ensures r.Pass? && transition.transitionType == DepositType ==>
        var prev := old(database.GetAccountState(transition.stateIndex - 1)).value.balances;
        var numTokens := old(database.GetNumTokens()).value;
        && database.accounts == old(database.accounts) + [AccountRecord(transition.stateIndex, transition.stateHash,
             ApplyDeposits(prev, old(database.GetDeposits(transition.slot)), numTokens))]
        && database.withdraws == old(database.withdraws)
      ensures r.Pass? && transition.transitionType == WithdrawType ==>
        var prev := old(database.GetAccountState(transition.stateIndex - 1)).value.balances;
        var numTokens := old(database.GetNumTokens()).value;
        var outcome := ApplyWithdraws(prev, old(database.GetWithdraws(transition.slot)), numTokens);
        && database.accounts == old(database.accounts) + [AccountRecord(transition.stateIndex, transition.stateHash, outcome.balances)]
        && database.withdraws == if transition.slot in old(database.withdraws)
                                 then old(database.withdraws)[transition.slot := outcome.records]
                                 else old(database.withdraws)
      ensures r.Pass? ==>
        var prev := old(database.GetAccountState(transition.stateIndex - 1)).value;
        && |database.accounts| == |old(database.accounts)| + 1
        && database.accounts[|database.accounts| - 1].stateIndex == prev.stateIndex + 1
        && |database.accounts[|database.accounts| - 1].balances| == |prev.balances|
      ensures database.snappConstants == old(database.snappConstants)
      ensures database.auctionConstants == old(database.auctionConstants)
      ensures database.deposits == old(database.deposits) && database.orders == old(database.orders)
    {
      var state := database.GetAccountState(transition.stateIndex - 1);
      if state.None? {
        return Fail(AccountStateNotFound);
      }
      var prev := state.value.balances;
      var balances := new int[|prev|](k requires 0 <= k < |prev| => prev[k]);
      var numTokensRecord := database.GetNumTokens();
      if numTokensRecord.None? {
        return Fail(ConstantsNotFound);
      }
      var numTokens := numTokensRecord.value;
      var data := DataToApply(transition);
      if data.Failure? {
        return Fail(data.error);
      }
      assert balances[..] == prev;
      match data.value {
        case DepositBatch(ds) =>
          ApplyDepositBatch(balances, ds, numTokens);
        case WithdrawBatch(ws) =>
          ApplyWithdrawBatch(balances, transition.slot, ws, numTokens);
      }
      database.WriteAccountState(AccountRecord(transition.stateIndex, transition.stateHash, balances[..]));
      return Pass;
    }

    /** Credits each deposit of the batch to its cell of the working copy. */
    method ApplyDepositBatch(balances: array<int>, ds: seq<Deposit>, numTokens: int)
      requires DepositsInRange(numTokens, balances.Length, ds)
      modifies balances
      ensures balances[..] == ApplyDeposits(old(balances[..]), ds, numTokens)
    {
      for i := 0 to |ds|
        invariant balances[..] == ApplyDeposits(old(balances[..]), ds[..i], numTokens)
      {
        assert ds[..i + 1][..i] == ds[..i];
        var d := ds[i];
        var index := Index(numTokens, d.accountId, d.tokenId);
        balances[index] := balances[index] + d.amount;
      }
      assert ds[..|ds|] == ds;
    }

    /**
     * Processes request i of the slot's withdraws: debits it when its cell
     * covers the amount and then marks its stored record valid; otherwise
     * changes nothing. Before the call the working copy and the stored list
     * reflect requests 0..i-1; afterwards they reflect 0..i.
     */
    method ApplyWithdraw(balances: array<int>, slot: nat, ws: seq<Withdraw>, i: nat, numTokens: int,
                         ghost start: seq<int>, ghost stored: map<nat, seq<Withdraw>>) returns (accepted: bool)
      requires WithdrawsInRange(numTokens, |start|, ws) && i < |ws|
      requires WithdrawsInRange(numTokens, |start|, ws[..i])
      requires balances[..] == ApplyWithdraws(start, ws[..i], numTokens).balances
      requires slot in stored
      requires database.withdraws == stored[slot := ApplyWithdraws(start, ws[..i], numTokens).records + ws[i..]]
      modifies balances, database
      ensures WithdrawsInRange(numTokens, |start|, ws[..i + 1])
      ensures accepted == ApplyWithdraws(start, ws[..i + 1], numTokens).accepted[i]
      ensures balances[..] == ApplyWithdraws(start, ws[..i + 1], numTokens).balances
      ensures database.withdraws == stored[slot := ApplyWithdraws(start, ws[..i + 1], numTokens).records + ws[i + 1..]]
      ensures database.accounts == old(database.accounts)
      ensures database.snappConstants == old(database.snappConstants)
      ensures database.auctionConstants == old(database.auctionConstants)
      ensures database.deposits == old(database.deposits) && database.orders == old(database.orders)
    {
      WithdrawStoreStep(start, ws, numTokens, i);
      ghost var p := ApplyWithdraws(start, ws[..i], numTokens);
      ghost var q := ApplyWithdraws(start, ws[..i + 1], numTokens);
      ghost var pending := p.records + ws[i..];
      var w := ws[i];
      var index := Index(numTokens, w.accountId, w.tokenId);
      accepted := balances[index] - w.amount >= 0;
      if accepted {
        balances[index] := balances[index] - w.amount;
        database.UpdateWithdraw(slot, i, w.(valid := true));
        assert stored[slot := pending][slot := pending[i := w.(valid := true)]] == stored[slot := q.records + ws[i + 1..]];
      }
    }

    /**
     * Debits each withdraw of the slot that its cell can cover, in stored
     * order, and marks exactly those withdraws valid in the store.
     */
    method ApplyWithdrawBatch(balances: array<int>, slot: nat, ws: seq<Withdraw>, numTokens: int)
      requires WithdrawsInRange(numTokens, balances.Length, ws)
      requires ws == database.GetWithdraws(slot)
      modifies balances, database
      ensures var outcome := ApplyWithdraws(old(balances[..]), ws, numTokens);
        && balances[..] == outcome.balances
        && database.withdraws == if slot in old(database.withdraws)
                                 then old(database.withdraws)[slot := outcome.records]
                                 else old(database.withdraws)
      ensures database.accounts == old(database.accounts)
      ensures database.snappConstants == old(database.snappConstants)
      ensures database.auctionConstants == old(database.auctionConstants)
      ensures database.deposits == old(database.deposits) && database.orders == old(database.orders)
    {
      ghost var start := balances[..];
      ghost var stored := database.withdraws;
      assert ws[..0] == [] && ws[0..] == ws;
      assert ApplyWithdraws(start, ws[..0], numTokens).records + ws[0..] == ws;
      if slot in stored {
        assert ws == stored[slot];
        assert stored[slot := ws] == stored;
      } else {
        assert ws == [];
      }
      for i := 0 to |ws|
        invariant WithdrawsInRange(numTokens, |start|, ws[..i])
        invariant balances[..] == ApplyWithdraws(start, ws[..i], numTokens).balances
        invariant slot in stored ==> database.withdraws == stored[slot := ApplyWithdraws(start, ws[..i], numTokens).records + ws[i..]]
        invariant slot !in stored ==> database.withdraws == stored
        invariant database.accounts == old(database.accounts)
        invariant database.snappConstants == old(database.snappConstants)
        invariant database.auctionConstants == old(database.auctionConstants)
        invariant database.deposits == old(database.deposits) && database.orders == old(database.orders)
      {
        var accepted := ApplyWithdraw(balances, slot, ws, i, numTokens, start, stored);
      }
      assert ws[..|ws|] == ws && ws[|ws|..] == [];
      if slot in stored {
        ghost var records := ApplyWithdraws(start, ws, numTokens).records;
        assert records + [] == records;
      }
    }
  }

  /**
   * Processing request i of a stored withdraw list, seen on the list as the
   * store holds it: the processed prefix followed by the untouched rest.
   */
  lemma WithdrawStoreStep(balances: seq<int>, ws: seq<Withdraw>, numTokens: int, i: nat)
    requires WithdrawsInRange(numTokens, |balances|, ws)
    requires i < |ws|
    ensures WithdrawsInRange(numTokens, |balances|, ws[..i]) && WithdrawsInRange(numTokens, |balances|, ws[..i + 1])
    ensures InRange(numTokens, |balances|, ws[i].accountId, ws[i].tokenId)
    ensures var p := ApplyWithdraws(balances, ws[..i], numTokens);
      var q := ApplyWithdraws(balances, ws[..i + 1], numTokens);
      var k := Index(numTokens, ws[i].accountId, ws[i].tokenId);
      var ok := p.balances[k] - ws[i].amount >= 0;
      && i < |p.records + ws[i..]|
      && q.accepted[i] == ok
      && q.balances == (if ok then p.balances[k := p.balances[k] - ws[i].amount] else p.balances)
      && q.records + ws[i + 1..]
         == (if ok then (p.records + ws[i..])[i := ws[i].(valid := true)] else p.records + ws[i..])
  {
    WithdrawStep(balances, ws, numTokens, i);
    var p := ApplyWithdraws(balances, ws[..i], numTokens);
    assert ws[i..][0] == ws[i] && ws[i..][1..] == ws[i + 1..];
    Splice(p.records, ws[i..], ws[i].(valid := true));
  }

  /** Overwriting the head of the pending part of a list, seen as moving it to the processed part. */
  lemma Splice<T>(done: seq<T>, pending: seq<T>, x: T)
    requires pending != []
    ensures (done + pending)[|done| := x] == done + [x] + pending[1..]
    ensures done + pending == done + [pending[0]] + pending[1..]
  {
  }

  /** Applies an auction settlement to the predecessor of its state index. */
  class AuctionSettlementReceiver {
    const database: Database

    constructor (database: Database)
      ensures this.database == database
    {
      this.database := database;
    }

    /**
     * The auction's orders and the settlement's volumes address cells of the
     * predecessor, and there is a volume for every order.
     */
    ghost predicate SettlementInRange(settlement: AuctionSettlement)
      reads database
    {
      match (database.GetAccountState(settlement.stateIndex - 1), database.GetNumTokens())
      case (Some(prev), Some(numTokens)) =>
        SettlementFits(numTokens, |prev.balances|, database.GetOrders(settlement.auctionId),
                       settlement.buyAmounts, settlement.sellAmounts)
      case _ => true
    }

    /**
     * Appends the record at settlement.stateIndex: each order's buy cell is
     * credited and its sell cell debited by the aligned volumes.
     */
    method SaveParsed(settlement: AuctionSettlement) returns (r: Outcome<Failure>)
      requires SettlementInRange(settlement)
      modifies database
      ensures old(database.GetAccountState(settlement.stateIndex - 1)).None? ==> r == Fail(AccountStateNotFound)
      ensures old(database.GetAccountState(settlement.stateIndex - 1)).Some? && old(database.GetNumTokens()).None? ==>
        r == Fail(ConstantsNotFound)
      ensures r.Pass? <==>
        old(database.GetAccountState(settlement.stateIndex - 1)).Some? && old(database.GetNumTokens()).Some?
      ensures r.Fail? ==> database.accounts == old(database.accounts)
      ensures r.Pass? ==>
        && old(database.GetAccountState(settlement.stateIndex - 1)).Some?
        && old(database.GetNumTokens()).Some?
        && database.accounts == old(database.accounts) + [AccountRecord(settlement.stateIndex, settlement.stateHash,
             ApplySettlement(old(database.GetAccountState(settlement.stateIndex - 1)).value.balances,
                             old(database.GetOrders(settlement.auctionId)),
                             settlement.buyAmounts, settlement.sellAmounts, old(database.GetNumTokens()).value))]
      ensures r.Pass? ==>
        var prev := old(database.GetAccountState(settlement.stateIndex - 1)).value;
        && database.accounts[|database.accounts| - 1].stateIndex == prev.stateIndex + 1
        && |database.accounts[|database.accounts| - 1].balances| == |prev.balances|
      ensures database.snappConstants == old(database.snappConstants)
      ensures database.auctionConstants == old(database.auctionConstants)
      ensures database.deposits == old(database.deposits) && database.withdraws == old(database.withdraws)
      ensures database.orders == old(database.orders)
    {
      var state := database.GetAccountState(settlement.stateIndex - 1);
      if state.None? {
        return Fail(AccountStateNotFound);
      }
      var prev := state.value.balances;
      var balances := new int[|prev|](k requires 0 <= k < |prev| => prev[k]);
      var orders := database.GetOrders(settlement.auctionId);
      var numTokensRecord := database.GetNumTokens();
      if numTokensRecord.None? {
        return Fail(ConstantsNotFound);
      }
      var numTokens := numTokensRecord.value;
      assert balances[..] == prev;
      ApplySettlementBatch(balances, orders, settlement.buyAmounts, settlement.sellAmounts, numTokens);
      database.WriteAccountState(AccountRecord(settlement.stateIndex, settlement.stateHash, balances[..]));
      return Pass;
    }
  }

  /**
   * Credits each order's buy cell and debits its sell cell of the working
   * copy by the volumes at the order's position.
   */
  method ApplySettlementBatch(balances: array<int>, orders: seq<Order>, buyAmounts: seq<nat>, sellAmounts: seq<nat>, numTokens: int)
    requires SettlementFits(numTokens, balances.Length, orders, buyAmounts, sellAmounts)
    modifies balances
    ensures balances[..] == ApplySettlement(old(balances[..]), orders, buyAmounts, sellAmounts, numTokens)
  {
    for i := 0 to |orders|
      invariant balances[..] == ApplySettlement(old(balances[..]), orders[..i], buyAmounts, sellAmounts, numTokens)
    {
      assert orders[..i + 1][..i] == orders[..i];
      var order := orders[i];
      var buyIndex := Index(numTokens, order.accountId, order.buyToken);
      balances[buyIndex] := balances[buyIndex] + buyAmounts[i];
      var sellIndex := Index(numTokens, order.accountId, order.sellToken);
      balances[sellIndex] := balances[sellIndex] - sellAmounts[i];
    }
    assert orders[..|orders|] == orders;
  }

  /** Writes the snapp constants and the genesis record. */
  class SnappInitializationReceiver {
    const database: Database

    constructor (database: Database)
      ensures this.database == database
    {
      this.database := database;
    }

    /** Checks the event's shape, then initialises the accounts; a malformed event writes nothing. */
    method Save(event: map<string, Value>) returns (r: Outcome<Failure>)
      modifies database
      ensures ValidateSnappInit(event).Failure? ==>
        r == Fail(ValidateSnappInit(event).error) && unchanged(database)
      ensures ValidateSnappInit(event).Success? ==>
        var init := ValidateSnappInit(event).value;
        && r == Pass
        && database.snappConstants == old(database.snappConstants) + [SnappConstants(init.maxTokens, init.maxAccounts)]
        && database.accounts == old(database.accounts) + [GenesisRecord(init.stateHash, init.maxTokens, init.maxAccounts)]
        && database.auctionConstants == old(database.auctionConstants)
        && database.deposits == old(database.deposits) && database.withdraws == old(database.withdraws)
        && database.orders == old(database.orders)
    {
      if event.Keys != {"stateHash", "maxTokens", "maxAccounts"} {
        return Fail(UnexpectedEventKeys);
      }
      var stateHash := event["stateHash"];
      if !(stateHash.StrValue? && |stateHash.s| == 64) {
        return Fail(UnexpectedValue("stateHash"));
      }
      if !IsInt(event["maxTokens"]) {
        return Fail(UnexpectedValue("maxTokens"));
      }
      if !IsInt(event["maxAccounts"]) {
        return Fail(UnexpectedValue("maxAccounts"));
      }
      InitializeAccounts(AsInt(event["maxTokens"]), AsInt(event["maxAccounts"]), stateHash.s);
      return Pass;
    }

    method InitializeAccounts(numTokens: int, numAccounts: int, stateHash: string)
      modifies database
      ensures database.snappConstants == old(database.snappConstants) + [SnappConstants(numTokens, numAccounts)]
      ensures database.accounts == old(database.accounts) + [GenesisRecord(stateHash, numTokens, numAccounts)]
      ensures database.auctionConstants == old(database.auctionConstants)
      ensures database.deposits == old(database.deposits) && database.withdraws == old(database.withdraws)
      ensures database.orders == old(database.orders)
    {
      var accountRecord := GenesisRecord(stateHash, numTokens, numAccounts);
      database.WriteSnappConstants(numTokens, numAccounts);
      database.WriteAccountState(accountRecord);
    }
  }

  /** Writes the auction constants; no account record is produced. */
  class AuctionInitializationReceiver {
    const database: Database

    constructor (database: Database)
      ensures this.database == database
    {
      this.database := database;
    }

    method Save(event: map<string, Value>) returns (r: Outcome<Failure>)
      modifies database
      ensures ValidateAuctionInit(event).Failure? ==>
        r == Fail(ValidateAuctionInit(event).error) && unchanged(database)
      ensures ValidateAuctionInit(event).Success? ==>
        var init := ValidateAuctionInit(event).value;
        && r == Pass
        && database.auctionConstants == old(database.auctionConstants)
             + [AuctionConstants(init.maxOrders, init.numReservedAccounts, init.ordersPerReservedAccount)]
        && database.accounts == old(database.accounts)
        && database.snappConstants == old(database.snappConstants)
        && database.deposits == old(database.deposits) && database.withdraws == old(database.withdraws)
        && database.orders == old(database.orders)
    {
      if event.Keys != {"maxOrders", "numReservedAccounts", "ordersPerReservedAccount"} {
        return Fail(UnexpectedEventKeys);
      }
      if !IsInt(event["maxOrders"]) {
        return Fail(UnexpectedValue("maxOrders"));
      }
      if !IsInt(event["numReservedAccounts"]) {
        return Fail(UnexpectedValue("numReservedAccounts"));
      }
      if !IsInt(event["ordersPerReservedAccount"]) {
        return Fail(UnexpectedValue("ordersPerReservedAccount"));
      }
      database.WriteAuctionConstants(
        AsInt(event["maxOrders"]), AsInt(event["numReservedAccounts"]), AsInt(event["ordersPerReservedAccount"]));
      return Pass;
    }
  }
}
