/**
 * The driver's naive price finder. It looks for the first pair of orders that
 * can trade against each other, settles that pair alone at the pair's own
 * limit prices and, when a fee applies, rescales the prices so the fee token
 * costs BASE_PRICE and reshapes the executed volumes to charge the fee.
 *
 * Amounts and prices are naturals. The driver keeps them in u128 and does the
 * intermediate products in 256 bits; the three places where it narrows back
 * to u128 are written out, as an Option where it checks and as an Overflow
 * panic where it would abort.
 */
module NaiveSolver {
  import opened Wrappers
  import opened Models
  import opened AccountStates
  import Ledger

  const BASE_UNIT: nat := 1_000_000_000_000_000_000
  const BASE_PRICE: nat := BASE_UNIT
  const U128_MAX: nat := 0xffff_ffff_ffff_ffff_ffff_ffff_ffff_ffff

  /** The integer d of a fee ratio 1/d; below 2 the fee formulas divide by zero. */
  type Denominator = d: nat | d >= 2 witness 2

  datatype Fee = Fee(token: TokenId, denominator: Denominator)

  datatype OrderPairType = LhsFullyFilled | RhsFullyFilled | BothFullyFilled

  /** The ways the solver aborts instead of returning a solution. */
  datatype Panic = DivisionByZero | Overflow | MissingPrice

  /** Two matched orders, in the order they were found, and how they fill. */
  datatype Match = Match(pairType: OrderPairType, x: Order, y: Order)

  // ---------------------------------------------------------------------
  // Integer helpers

  /** Division rounding down, as the driver's integer division does. */
  function FloorDiv(a: nat, b: nat): (r: nat)
    requires b > 0
    ensures r * b <= a < (r + 1) * b
  {
    var q := a / b;
    assert b * q + a % b == a;
    q
  }

  /** Division rounding up. */
  function CeilDiv(a: nat, b: nat): (r: nat)
    requires b > 0
    ensures r * b >= a
    ensures (r - 1) * b < a || r == 0
  {
    var q := (a + b - 1) / b;
    assert b * q + (a + b - 1) % b == a + b - 1;
    q
  }

  lemma {:induction false} CeilDivExact(a: nat, b: nat)
    requires b > 0
    ensures CeilDiv(b * a, b) == a
  {
    var q := CeilDiv(b * a, b);
    if q < a {
      Ledger.MulMonotonic(b, q + 1, a);
    } else if q > a {
      Ledger.MulMonotonic(b, a, q - 1);
    }
  }

  // ---------------------------------------------------------------------
  // Whether two orders match

  /** Each order sells what the other buys. */
  predicate OppositeTokens(x: Order, y: Order) {
    x.buyToken == y.sellToken && x.sellToken == y.buyToken
  }

  /** Some price satisfies both limits: both sell something and x.buy * y.buy <= y.sell * x.sell. */
  predicate HavePriceOverlap(x: Order, y: Order) {
    x.sellAmount > 0 && y.sellAmount > 0
    && x.buyAmount * y.buyAmount <= y.sellAmount * x.sellAmount
  }

  predicate TradesFeeToken(o: Order, fee: Fee) {
    o.buyToken == fee.token || o.sellToken == fee.token
  }

  predicate Attracts(x: Order, y: Order, fee: Option<Fee>) {
    if fee.Some? && fee.value.token !in [x.sellToken, x.buyToken] then false
    else OppositeTokens(x, y) && HavePriceOverlap(x, y)
  }

  predicate SufficientSellerFunds(o: Order, balances: map<Key, nat>) {
    Lookup(balances, (o.accountId, o.sellToken)) >= o.sellAmount
  }

  /** Which side of a matching pair is filled completely. */
  function Classify(x: Order, y: Order): OrderPairType {
    if x.buyAmount <= y.sellAmount && x.sellAmount <= y.buyAmount then LhsFullyFilled
    else if x.buyAmount >= y.sellAmount && x.sellAmount >= y.buyAmount then RhsFullyFilled
    else BothFullyFilled
  }

  /**
   * The driver's comparison exactly as written: overlap and fill type are
   * judged on the orders as placed, although the executed volumes are later
   * computed from the orders with the fee buffer (OrderWithBufferForFee).
   */
  function MatchCompareAsWritten(x: Order, y: Order, balances: map<Key, nat>, fee: Option<Fee>): (r: Option<OrderPairType>)
    ensures r.Some?
      <==> SufficientSellerFunds(x, balances) && SufficientSellerFunds(y, balances)
           && OppositeTokens(x, y) && HavePriceOverlap(x, y)
           && (fee.Some? ==> TradesFeeToken(x, fee.value))
    ensures r.Some? ==> r.value == Classify(x, y)
  {
    if !SufficientSellerFunds(x, balances) || !SufficientSellerFunds(y, balances) || !Attracts(x, y, fee)
      || !(if fee.Some? then TradesFeeToken(x, fee.value) else true)
    then None
    else Some(Classify(x, y))
  }

  /**
   * Whether x and y match, and how: both sellers must hold what they offer,
   * and overlap and fill type are judged on the orders with the fee buffer,
   * the same orders the executed volumes are computed from. A pair matches
   * exactly when both sellers hold what they offer, the tokens are opposite,
   * the buffered prices overlap and, under a fee, the first order trades the
   * fee token; a match is then classified by Classify on the buffered orders.
   */
  function MatchCompare(x: Order, y: Order, balances: map<Key, nat>, fee: Option<Fee>): (r: Option<OrderPairType>)
    ensures r.Some?
      <==> SufficientSellerFunds(x, balances) && SufficientSellerFunds(y, balances)
           && OppositeTokens(x, y) && HavePriceOverlap(OrderWithBufferForFee(x, fee), OrderWithBufferForFee(y, fee))
           && (fee.Some? ==> TradesFeeToken(x, fee.value))
    ensures r.Some? ==> r.value == Classify(OrderWithBufferForFee(x, fee), OrderWithBufferForFee(y, fee))
  {
    var xb := OrderWithBufferForFee(x, fee);
    var yb := OrderWithBufferForFee(y, fee);
    if !SufficientSellerFunds(x, balances) || !SufficientSellerFunds(y, balances) || !Attracts(xb, yb, fee)
      || !(if fee.Some? then TradesFeeToken(x, fee.value) else true)
    then None
    else Some(Classify(xb, yb))
  }

  /** Without a fee the buffer changes nothing and both comparisons agree. */
  lemma MatchCompareWithoutFee(x: Order, y: Order, balances: map<Key, nat>)
    ensures MatchCompare(x, y, balances, None) == MatchCompareAsWritten(x, y, balances, None)
  {
  }

  /**
   * The buffer only tightens: a pair matching after the buffer also matches
   * as placed, so the comparison on buffered orders rejects pairs and never
   * admits new ones.
   */
  lemma {:induction false} BufferedMatchIsMatch(x: Order, y: Order, balances: map<Key, nat>, fee: Option<Fee>)
    ensures MatchCompare(x, y, balances, fee).Some? ==> MatchCompareAsWritten(x, y, balances, fee).Some?
  {
    var xb := OrderWithBufferForFee(x, fee);
    var yb := OrderWithBufferForFee(y, fee);
    if MatchCompare(x, y, balances, fee).Some? {
      BufferLoosensNothing(x, fee);
      BufferLoosensNothing(y, fee);
      Ledger.MulMonotonic(x.buyAmount, y.buyAmount, yb.buyAmount);
      Ledger.MulMonotonic(yb.buyAmount, x.buyAmount, xb.buyAmount);
      Ledger.MulMonotonic(yb.sellAmount, xb.sellAmount, x.sellAmount);
      Ledger.MulMonotonic(x.sellAmount, yb.sellAmount, y.sellAmount);
    }
  }

  lemma OppositeTokensSymmetric(x: Order, y: Order)
    ensures OppositeTokens(x, y) <==> OppositeTokens(y, x)
  {
  }

  lemma HavePriceOverlapSymmetric(x: Order, y: Order)
    ensures HavePriceOverlap(x, y) <==> HavePriceOverlap(y, x)
  {
  }

  /**
   * Among overlapping orders the three fill types are exclusive and
   * exhaustive, and "both filled" means x asks strictly less than y offers
   * while offering strictly more than y asks.
   */
  lemma {:induction false} ClassifyShape(x: Order, y: Order)
    requires HavePriceOverlap(x, y)
    ensures Classify(x, y) == LhsFullyFilled <==> x.buyAmount <= y.sellAmount && x.sellAmount <= y.buyAmount
    ensures Classify(x, y) == RhsFullyFilled
      <==> !(x.buyAmount <= y.sellAmount && x.sellAmount <= y.buyAmount)
           && x.buyAmount >= y.sellAmount && x.sellAmount >= y.buyAmount
    ensures Classify(x, y) == BothFullyFilled <==> x.buyAmount < y.sellAmount && y.buyAmount < x.sellAmount
  {
    if Classify(x, y) == BothFullyFilled && x.buyAmount >= y.sellAmount {
      assert x.buyAmount > y.sellAmount && x.sellAmount < y.buyAmount;
      Ledger.MulMonotonic(y.buyAmount, y.sellAmount + 1, x.buyAmount);
      Ledger.MulMonotonic(y.sellAmount, x.sellAmount, y.buyAmount);
      assert false;
    }
  }

  /** Crediting every order's seller with what it sells makes every order pass the funds check. */
  lemma WithBalanceForFunds(orders: seq<Order>, i: nat)
    requires i < |orders|
    ensures SufficientSellerFunds(orders[i], SellTotals(orders))
  {
    SellTotalsLookup(orders, orders[i].accountId, orders[i].sellToken);
    SoldByCovers(orders, i);
  }

  // ---------------------------------------------------------------------
  // The first matching pair

  /** No pair (i', j') with i' < j' before (i, j) in lexicographic order matches. */
  ghost predicate NoMatchBefore(orders: seq<Order>, balances: map<Key, nat>, fee: Option<Fee>, i: int, j: int) {
    forall i', j' :: 0 <= i' < j' < |orders| && (i' < i || (i' == i && j' < j))
      ==> MatchCompare(orders[i'], orders[j'], balances, fee).None?
  }

  /** The first match found when scanning from pair (i, j) onwards, rows first. */
  function FirstMatchFrom(orders: seq<Order>, balances: map<Key, nat>, fee: Option<Fee>, i: nat, j: nat): Option<Match>
    decreases |orders| - i, |orders| - j
  {
    if i >= |orders| then None
    else if j >= |orders| then FirstMatchFrom(orders, balances, fee, i + 1, i + 2)
    else match MatchCompare(orders[i], orders[j], balances, fee)
      case Some(t) => Some(Match(t, orders[i], orders[j]))
      case None => FirstMatchFrom(orders, balances, fee, i, j + 1)
  }

  function FirstMatch(orders: seq<Order>, balances: map<Key, nat>, fee: Option<Fee>): Option<Match> {
    FirstMatchFrom(orders, balances, fee, 0, 1)
  }

  lemma {:induction false} FirstMatchFromIsFirst(orders: seq<Order>, balances: map<Key, nat>, fee: Option<Fee>, i: nat, j: nat)
    requires i < j && (i < |orders| ==> j <= |orders|)
    requires NoMatchBefore(orders, balances, fee, i, j)
    ensures FirstMatchFrom(orders, balances, fee, i, j).None? <==> NoMatchBefore(orders, balances, fee, |orders|, 0)
    ensures FirstMatchFrom(orders, balances, fee, i, j).Some? ==>
      exists i', j' :: 0 <= i' < j' < |orders| && NoMatchBefore(orders, balances, fee, i', j')
        && MatchCompare(orders[i'], orders[j'], balances, fee).Some?
        && FirstMatchFrom(orders, balances, fee, i, j)
           == Some(Match(MatchCompare(orders[i'], orders[j'], balances, fee).value, orders[i'], orders[j']))
    decreases |orders| - i, |orders| - j
  {
    if i >= |orders| {
    } else if j >= |orders| {
      FirstMatchFromIsFirst(orders, balances, fee, i + 1, i + 2);
    } else if MatchCompare(orders[i], orders[j], balances, fee).None? {
      FirstMatchFromIsFirst(orders, balances, fee, i, j + 1);
    } else {
      assert !NoMatchBefore(orders, balances, fee, |orders|, 0);
    }
  }

  /**
   * FirstMatch is None exactly when no pair i < j matches, and otherwise it
   * is the lexicographically first matching pair, with its classification.
   */
  lemma FirstMatchIsFirst(orders: seq<Order>, balances: map<Key, nat>, fee: Option<Fee>)
    ensures FirstMatch(orders, balances, fee).None?
      <==> forall i, j :: 0 <= i < j < |orders| ==> MatchCompare(orders[i], orders[j], balances, fee).None?
    ensures FirstMatch(orders, balances, fee).Some? ==>
      exists i, j :: 0 <= i < j < |orders| && NoMatchBefore(orders, balances, fee, i, j)
        && MatchCompare(orders[i], orders[j], balances, fee).Some?
        && FirstMatch(orders, balances, fee)
           == Some(Match(MatchCompare(orders[i], orders[j], balances, fee).value, orders[i], orders[j]))
  {
    FirstMatchFromIsFirst(orders, balances, fee, 0, 1);
  }

  method FindFirstMatch(orders: seq<Order>, state: AccountState, fee: Option<Fee>) returns (r: Option<Match>)
    ensures r == FirstMatch(orders, state.balances, fee)
  {
    var balances := state.balances;
    for i := 0 to |orders|
      invariant FirstMatch(orders, balances, fee) == FirstMatchFrom(orders, balances, fee, i, i + 1)
    {
      for j := i + 1 to |orders|
        invariant FirstMatch(orders, balances, fee) == FirstMatchFrom(orders, balances, fee, i, j)
      {
        var t := MatchCompare(orders[i], orders[j], balances, fee);
        if t.Some? {
          return Some(Match(t.value, orders[i], orders[j]));
        }
      }
    }
    return None;
  }

  // ---------------------------------------------------------------------
  // Executed orders and prices of a match

  /**
   * The order with its limit tightened so a fee of 1/d fits inside it: it
   * asks at least d/(d-1) times as much of the fee token, or offers at most
   * (d-1)/d of the fee token, rounded towards the order's own advantage
   * being kept. Nothing but the amounts changes.
   */
  function OrderWithBufferForFee(o: Order, fee: Option<Fee>): (r: Order)
    ensures r.(sellAmount := o.sellAmount, buyAmount := o.buyAmount) == o
    ensures fee.None? ==> r == o
    ensures fee.Some? && fee.value.token == o.buyToken ==>
      var d := fee.value.denominator;
      r.sellAmount == o.sellAmount
      && r.buyAmount * (d - 1) >= o.buyAmount * d && (r.buyAmount == 0 || (r.buyAmount - 1) * (d - 1) < o.buyAmount * d)
    ensures fee.Some? && fee.value.token != o.buyToken && fee.value.token == o.sellToken ==>
      var d := fee.value.denominator;
      r.buyAmount == o.buyAmount
      && r.sellAmount * d <= o.sellAmount * (d - 1) < (r.sellAmount + 1) * d
    ensures fee.Some? && !TradesFeeToken(o, fee.value) ==> r == o
  {
    match fee
    case None => o
    case Some(f) =>
      var d := f.denominator;
      if f.token == o.buyToken then
        o.(buyAmount := CeilDiv(o.buyAmount * d, d - 1))
      else if f.token == o.sellToken then
        o.(sellAmount := FloorDiv(o.sellAmount * (d - 1), d))
      else o
  }

  /**
   * The buffer never loosens an order: it asks at least as much and offers
   * at most as much as the order itself.
   */
  lemma {:induction false} BufferLoosensNothing(o: Order, fee: Option<Fee>)
    ensures OrderWithBufferForFee(o, fee).buyAmount >= o.buyAmount
    ensures OrderWithBufferForFee(o, fee).sellAmount <= o.sellAmount
  {
    var b := OrderWithBufferForFee(o, fee);
    if fee.Some? && fee.value.token == o.buyToken {
      RaisedByBuffer(o.buyAmount, b.buyAmount, fee.value.denominator);
    } else if fee.Some? && fee.value.token == o.sellToken {
      LoweredByBuffer(o.sellAmount, b.sellAmount, fee.value.denominator);
    }
  }

  /** An amount grossed up by d/(d-1) is at least the amount. */
  lemma {:induction false} RaisedByBuffer(amount: nat, raised: nat, d: nat)
    requires d >= 2 && raised * (d - 1) >= amount * d
    ensures raised >= amount
  {
    Ledger.MulMonotonic(amount, d - 1, d);
    MulCancel(d - 1, amount, raised);
  }

  /** An amount scaled down by (d-1)/d is at most the amount. */
  lemma {:induction false} LoweredByBuffer(amount: nat, lowered: nat, d: nat)
    requires d >= 2 && lowered * d <= amount * (d - 1)
    ensures lowered <= amount
  {
    Ledger.MulMonotonic(amount, d - 1, d);
    MulCancel(d, lowered, amount);
  }

  /** A positive factor can be cancelled from both sides of an inequality. */
  lemma MulCancel(n: nat, x: nat, y: nat)
    requires n > 0 && n * x <= n * y
    ensures x <= y
  {
    if x > y {
      Ledger.MulMonotonic(n, y + 1, x);
      assert false;
    }
  }

  /** The executed order of o selling and buying the given volumes. */
  function ExecutedFor(o: Order, sellAmount: nat, buyAmount: nat): ExecutedOrder {
    ExecutedOrder(o.accountId, o.id, buyAmount, sellAmount)
  }

  /**
   * The two executed orders and the prices of a match, priced at the limit
   * of the fully filled side (after the fee buffer). What one order sells
   * the other buys, and both tokens of the pair are priced.
   */
  function CreateExecutedOrders(m: Match, fee: Option<Fee>): (r: (seq<ExecutedOrder>, map<TokenId, nat>))
    ensures |r.0| == 2
    ensures r.0[0].accountId == m.x.accountId && r.0[0].orderId == m.x.id
    ensures r.0[1].accountId == m.y.accountId && r.0[1].orderId == m.y.id
    ensures r.0[0].sellAmount == r.0[1].buyAmount && r.0[0].buyAmount == r.0[1].sellAmount
    ensures OppositeTokens(m.x, m.y) ==> r.1.Keys == {m.x.sellToken, m.x.buyToken}
  {
    var x := OrderWithBufferForFee(m.x, fee);
    var y := OrderWithBufferForFee(m.y, fee);
    match m.pairType
    case LhsFullyFilled =>
      ([ExecutedFor(x, x.sellAmount, x.buyAmount), ExecutedFor(y, x.buyAmount, x.sellAmount)],
       map[x.buyToken := x.sellAmount][y.buyToken := x.buyAmount])
    case RhsFullyFilled =>
      ([ExecutedFor(x, y.buyAmount, y.sellAmount), ExecutedFor(y, y.sellAmount, y.buyAmount)],
       map[x.sellToken := y.sellAmount][y.sellToken := y.buyAmount])
    case BothFullyFilled =>
      ([ExecutedFor(x, x.sellAmount, y.sellAmount), ExecutedFor(y, y.sellAmount, x.sellAmount)],
       map[y.buyToken := y.sellAmount][x.buyToken := x.sellAmount])
  }

  /** A match as MatchCompare produces it, up to the account balances. */
  predicate ValidMatch(m: Match, fee: Option<Fee>) {
    var xb := OrderWithBufferForFee(m.x, fee);
    var yb := OrderWithBufferForFee(m.y, fee);
    OppositeTokens(m.x, m.y) && HavePriceOverlap(xb, yb)
    && (fee.Some? ==> TradesFeeToken(m.x, fee.value))
    && m.pairType == Classify(xb, yb)
  }

  /** The executed order sells at most the order's amount, at the order's limit price or better. */
  predicate RespectsLimit(o: Order, e: ExecutedOrder) {
    e.sellAmount <= o.sellAmount && e.sellAmount * o.buyAmount <= e.buyAmount * o.sellAmount
  }

  /** At the prices, what the executed order buys is worth exactly what it sells. */
  predicate PricedFairly(o: Order, e: ExecutedOrder, prices: map<TokenId, nat>) {
    o.buyToken in prices && o.sellToken in prices
    && e.buyAmount * prices[o.buyToken] == e.sellAmount * prices[o.sellToken]
  }

  lemma {:induction false} FirstMatchValid(orders: seq<Order>, balances: map<Key, nat>, fee: Option<Fee>)
    requires FirstMatch(orders, balances, fee).Some?
    ensures ValidMatch(FirstMatch(orders, balances, fee).value, fee)
    ensures exists i, j :: (0 <= i < j < |orders|
      && FirstMatch(orders, balances, fee).value.x == orders[i]
      && FirstMatch(orders, balances, fee).value.y == orders[j])
  {
    FirstMatchIsFirst(orders, balances, fee);
    var i, j :| 0 <= i < j < |orders| && NoMatchBefore(orders, balances, fee, i, j)
      && MatchCompare(orders[i], orders[j], balances, fee).Some?
      && FirstMatch(orders, balances, fee)
         == Some(Match(MatchCompare(orders[i], orders[j], balances, fee).value, orders[i], orders[j]));
  }

  /**
   * Without a fee a valid match settles both orders within their limits, and
   * when the pair trades two distinct tokens both executed orders are worth
   * the same on both sides at the solution's prices.
   */
  lemma {:induction false} NoFeeExecution(m: Match)
    requires ValidMatch(m, None)
    ensures RespectsLimit(m.x, CreateExecutedOrders(m, None).0[0])
    ensures RespectsLimit(m.y, CreateExecutedOrders(m, None).0[1])
    ensures m.x.sellToken != m.x.buyToken ==>
      PricedFairly(m.x, CreateExecutedOrders(m, None).0[0], CreateExecutedOrders(m, None).1)
      && PricedFairly(m.y, CreateExecutedOrders(m, None).0[1], CreateExecutedOrders(m, None).1)
  {
    var x, y := m.x, m.y;
    ClassifyShape(x, y);
    var e := CreateExecutedOrders(m, None).0;
    match m.pairType
    case LhsFullyFilled =>
      assert e[1].sellAmount * y.buyAmount == x.buyAmount * y.buyAmount;
    case RhsFullyFilled =>
      assert e[0].sellAmount * x.buyAmount == y.buyAmount * x.buyAmount;
    case BothFullyFilled =>
      Ledger.MulMonotonic(x.sellAmount, x.buyAmount, y.sellAmount);
      Ledger.MulMonotonic(y.sellAmount, y.buyAmount, x.sellAmount);
  }

  /** An execution within the buffered order's limit is within the order's own limit. */
  lemma {:induction false} BufferTightens(o: Order, fee: Option<Fee>, e: ExecutedOrder)
    requires RespectsLimit(OrderWithBufferForFee(o, fee), e)
    ensures RespectsLimit(o, e)
  {
    var b := OrderWithBufferForFee(o, fee);
    BufferLoosensNothing(o, fee);
    Ledger.MulMonotonic(e.sellAmount, o.buyAmount, b.buyAmount);
    Ledger.MulMonotonic(e.buyAmount, b.sellAmount, o.sellAmount);
  }

  /**
   * Under any fee, the volumes of a valid match before the fee is charged
   * keep both orders within the limits of their buffered orders, and so
   * within their own limits, and are worth the same on both sides at the
   * match's prices.
   */
  lemma {:induction false} BufferedExecution(m: Match, fee: Option<Fee>)
    requires ValidMatch(m, fee)
    ensures var e := CreateExecutedOrders(m, fee).0;
      RespectsLimit(OrderWithBufferForFee(m.x, fee), e[0]) && RespectsLimit(OrderWithBufferForFee(m.y, fee), e[1])
      && RespectsLimit(m.x, e[0]) && RespectsLimit(m.y, e[1])
    ensures m.x.sellToken != m.x.buyToken ==>
      var (e, prices) := CreateExecutedOrders(m, fee);
      PricedFairly(m.x, e[0], prices) && PricedFairly(m.y, e[1], prices)
  {
    var xb := OrderWithBufferForFee(m.x, fee);
    var yb := OrderWithBufferForFee(m.y, fee);
    var bm := Match(m.pairType, xb, yb);
    assert OrderWithBufferForFee(xb, None) == xb && OrderWithBufferForFee(yb, None) == yb;
    assert ValidMatch(bm, None);
    assert CreateExecutedOrders(m, fee) == CreateExecutedOrders(bm, None);
    NoFeeExecution(bm);
    BufferTightens(m.x, fee, CreateExecutedOrders(m, fee).0[0]);
    BufferTightens(m.y, fee, CreateExecutedOrders(m, fee).0[1]);
  }

  // ---------------------------------------------------------------------
  // Prices normalized to the fee token and fee-charging volumes

  /**
   * The price rescaled so the fee token's price becomes BASE_PRICE, rounded
   * up; None when it does not fit in 128 bits.
   */
  function NormalizePrice(price: nat, feePrice: nat): (r: Option<nat>)
    requires feePrice > 0
    ensures r.Some? ==> r.value <= U128_MAX
    ensures r.Some? ==> (r.value * feePrice >= price * BASE_PRICE
      && (r.value == 0 || (r.value - 1) * feePrice < price * BASE_PRICE))
    ensures r.None? ==> U128_MAX * feePrice < price * BASE_PRICE
  {
    var v := CeilDiv(price * BASE_PRICE, feePrice);
    if v > U128_MAX then
      Ledger.MulMonotonic(feePrice, U128_MAX, v - 1);
      None
    else Some(v)
  }

  /** The fee token's own price normalizes to exactly BASE_PRICE. */
  lemma {:induction false} NormalizeSelf(feePrice: nat)
    requires feePrice > 0
    ensures NormalizePrice(feePrice, feePrice) == Some(BASE_PRICE)
  {
    CeilDivExact(BASE_PRICE, feePrice);
    assert feePrice * BASE_PRICE == BASE_PRICE * feePrice;
  }

  /**
   * The sell volume paying for buyAmount at the given prices, grossed up by
   * the fee: (buyAmount * buyPrice / (d - 1)) * d / sellPrice, each division
   * rounding down. It never charges more than the exact grossed-up value.
   */
  function ExecutedSellAmount(fee: Fee, buyAmount: nat, buyPrice: nat, sellPrice: nat): (r: Result<nat, Panic>)
    ensures r == Failure(DivisionByZero) <==> sellPrice == 0
    ensures r.Failure? ==> r.error != MissingPrice
    ensures r.Success? ==> (r.value <= U128_MAX
      && r.value * sellPrice * (fee.denominator - 1) <= buyAmount * buyPrice * fee.denominator)
  {
    var d := fee.denominator;
    if sellPrice == 0 then Failure(DivisionByZero)
    else
      var q := FloorDiv(buyAmount * buyPrice, d - 1);
      var v := FloorDiv(q * d, sellPrice);
      if v > U128_MAX then Failure(Overflow)
      else
        GrossedUpWithin(buyAmount * buyPrice, d, sellPrice, q, v);
        Success(v)
  }

  /** The two rounded-down quotients of ExecutedSellAmount never exceed the exact grossed-up value. */
  lemma {:induction false} GrossedUpWithin(value: nat, d: nat, sellPrice: nat, q: nat, v: nat)
    requires d >= 2
    requires q * (d - 1) <= value && v * sellPrice <= q * d
    ensures v * sellPrice * (d - 1) <= value * d
  {
    Ledger.MulMonotonic(d - 1, v * sellPrice, q * d);
    Ledger.MulMonotonic(d, q * (d - 1), value);
  }

  /**
   * ExecutedSellAmount panics with Overflow only at a positive sell price
   * whose exact grossed-up value buy*pb*d/((d-1)*ps) is beyond the u128
   * maximum.
   */
  lemma {:induction false} ExecutedSellOverflow(fee: Fee, buyAmount: nat, buyPrice: nat, sellPrice: nat)
    ensures ExecutedSellAmount(fee, buyAmount, buyPrice, sellPrice) == Failure(Overflow) ==>
      sellPrice > 0 && (U128_MAX + 1) * sellPrice * (fee.denominator - 1) <= buyAmount * buyPrice * fee.denominator
  {
    var d: nat := fee.denominator;
    if sellPrice > 0 {
      var q := FloorDiv(buyAmount * buyPrice, d - 1);
      var v := FloorDiv(q * d, sellPrice);
      if v > U128_MAX {
        Ledger.MulMonotonic(sellPrice, U128_MAX + 1, v);
        GrossedUpWithin(buyAmount * buyPrice, d, sellPrice, q, U128_MAX + 1);
      }
    }
  }

  /**
   * The driver's inverse of ExecutedSellAmount, exactly as written: the
   * buy volume rounded up, kept only if it round-trips to sellAmount. With a
   * sell price of 0 the round-trip check itself divides by zero.
   */
  function ExecutedBuyAmountAsWritten(fee: Fee, sellAmount: nat, buyPrice: nat, sellPrice: nat): (r: Result<Option<nat>, Panic>)
    ensures r == Failure(DivisionByZero) <==> buyPrice == 0 || sellPrice == 0
    ensures r.Success? && r.value.Some? ==> ExecutedSellAmount(fee, r.value.value, buyPrice, sellPrice) == Success(sellAmount)
  {
    var d := fee.denominator;
    if buyPrice == 0 then Failure(DivisionByZero)
    else
      var b := CeilDiv(sellAmount * sellPrice / d * (d - 1), buyPrice);
      if b > U128_MAX then
        assert sellPrice != 0;
        Failure(Overflow)
      else match ExecutedSellAmount(fee, b, buyPrice, sellPrice)
        case Failure(p) => Failure(p)
        case Success(s) => Success(if s == sellAmount then Some(b) else None)
  }

  /**
   * The inverse of ExecutedSellAmount: a buy volume b with
   * ExecutedSellAmount(b) == sellAmount, or None. A sell price of 0 has no
   * such b, since ExecutedSellAmount then has no value at all.
   */
  function ExecutedBuyAmount(fee: Fee, sellAmount: nat, buyPrice: nat, sellPrice: nat): (r: Result<Option<nat>, Panic>)
    ensures r == Failure(DivisionByZero) <==> buyPrice == 0
    ensures r.Failure? ==> r.error != MissingPrice
    ensures r.Success? && r.value.Some? ==> (r.value.value <= U128_MAX
      && ExecutedSellAmount(fee, r.value.value, buyPrice, sellPrice) == Success(sellAmount))
    ensures buyPrice > 0 && sellPrice == 0 ==> r == Success(None)
  {
    var d := fee.denominator;
    if buyPrice == 0 then Failure(DivisionByZero)
    else if sellPrice == 0 then Success(None)
    else
      var b := CeilDiv(sellAmount * sellPrice / d * (d - 1), buyPrice);
      if b > U128_MAX then Failure(Overflow)
      else match ExecutedSellAmount(fee, b, buyPrice, sellPrice)
        case Failure(p) => Failure(p)
        case Success(s) => Success(if s == sellAmount then Some(b) else None)
  }

  /**
   * The two inverses agree wherever the sell price is positive; at a sell
   * price of 0 the code as written panics where the documented behaviour is
   * to report that no buy volume round-trips.
   */
  lemma ExecutedBuyAmountCorrection(fee: Fee, sellAmount: nat, buyPrice: nat, sellPrice: nat)
    ensures sellPrice > 0 ==>
      ExecutedBuyAmount(fee, sellAmount, buyPrice, sellPrice) == ExecutedBuyAmountAsWritten(fee, sellAmount, buyPrice, sellPrice)
    ensures buyPrice > 0 && sellPrice == 0 ==>
      ExecutedBuyAmountAsWritten(fee, sellAmount, buyPrice, sellPrice) == Failure(DivisionByZero)
      && ExecutedBuyAmount(fee, sellAmount, buyPrice, sellPrice) == Success(None)
  {
  }

  /**
   * The inverse can answer None although a buy volume round-trips, even at
   * the buy price BASE_PRICE the solver uses: with d = 2 and a sell price of
   * 2 * BASE_PRICE + 1, the candidate 1 gives a sell volume of 0, while 2
   * gives exactly the requested 1.
   */
  lemma ExecutedBuyAmountMissesInverse()
    ensures ExecutedBuyAmount(Fee(0, 2), 1, BASE_PRICE, 2 * BASE_PRICE + 1) == Success(None)
    ensures ExecutedSellAmount(Fee(0, 2), 2, BASE_PRICE, 2 * BASE_PRICE + 1) == Success(1)
  {
    assert ExecutedSellAmount(Fee(0, 2), 1, BASE_PRICE, 2 * BASE_PRICE + 1) == Success(0);
  }

  // ---------------------------------------------------------------------
  // The solution under a fee

  /** Every price normalized against the fee token's price, or None when one does not fit. */
  function NormalizeAll(prices: map<TokenId, nat>, feePrice: nat): (r: Option<map<TokenId, nat>>)
    requires feePrice > 0
    ensures r.None? <==> exists k :: k in prices && NormalizePrice(prices[k], feePrice).None?
    ensures r.Some? ==> (r.value.Keys == prices.Keys
      && forall k :: k in prices ==> NormalizePrice(prices[k], feePrice) == Some(r.value[k]))
  {
    if forall k :: k in prices ==> NormalizePrice(prices[k], feePrice).Some? then
      Some(map k | k in prices :: NormalizePrice(prices[k], feePrice).value)
    else None
  }

  /**
   * One order's executed volumes with the fee charged: an order selling the
   * fee token pays for its buy volume plus fee; any other order keeps its
   * sell volume and receives the buy volume that round-trips to it, and the
   * whole solution is dropped (None) when there is none.
   */
  function ChargeFee(o: Order, fee: Fee, e: ExecutedOrder, prices: map<TokenId, nat>): Result<Option<ExecutedOrder>, Panic> {
    if o.sellToken == fee.token then
      if o.buyToken !in prices then Failure(MissingPrice)
      else match ExecutedSellAmount(fee, e.buyAmount, prices[o.buyToken], BASE_PRICE)
        case Failure(p) => Failure(p)
        case Success(s) => Success(Some(e.(sellAmount := s)))
    else if o.sellToken !in prices then Failure(MissingPrice)
    else match ExecutedBuyAmount(fee, e.sellAmount, BASE_PRICE, prices[o.sellToken])
      case Failure(p) => Failure(p)
      case Success(None) => Success(None)
      case Success(Some(b)) => Success(Some(e.(buyAmount := b)))
  }

  /** ChargeFee on each order in turn, stopping at the first that panics or gives up. */
  function ChargeFees(orders: seq<Order>, fee: Fee, executed: seq<ExecutedOrder>, prices: map<TokenId, nat>)
    : (r: Result<Option<seq<ExecutedOrder>>, Panic>)
    requires |executed| == |orders|
    ensures r.Success? && r.value.Some? ==> |r.value.value| == |orders|
    decreases |orders|
  {
    if orders == [] then Success(Some([]))
    else
      var n := |orders| - 1;
      match ChargeFees(orders[..n], fee, executed[..n], prices)
      case Failure(p) => Failure(p)
      case Success(None) => Success(None)
      case Success(Some(done)) =>
        match ChargeFee(orders[n], fee, executed[n], prices)
        case Failure(p) => Failure(p)
        case Success(None) => Success(None)
        case Success(Some(e)) => Success(Some(done + [e]))
  }

  /** The solution the driver builds under a fee from a match's executed orders and prices. */
  function SolutionWithFee(x: Order, y: Order, fee: Fee, executed: seq<ExecutedOrder>, prices: map<TokenId, nat>)
    : Result<Solution, Panic>
    requires |executed| == 2
  {
    var feePrice := if fee.token in prices then prices[fee.token] else 0;
    if feePrice == 0 then Success(Trivial())
    else match NormalizeAll(prices, feePrice)
      case None => Success(Trivial())
      case Some(normalized) =>
        match ChargeFees([x, y], fee, executed, normalized)
        case Failure(p) => Failure(p)
        case Success(None) => Success(Trivial())
        case Success(Some(charged)) => Success(Solution(normalized, charged))
  }

  /** Once a prefix of the orders panics or gives up, so does the whole sequence. */
  lemma {:induction false} ChargeFeesStops(orders: seq<Order>, fee: Fee, executed: seq<ExecutedOrder>, prices: map<TokenId, nat>, i: nat)
    requires |executed| == |orders| && i <= |orders|
    requires !ChargeFees(orders[..i], fee, executed[..i], prices).Success?
      || ChargeFees(orders[..i], fee, executed[..i], prices).value.None?
    ensures ChargeFees(orders, fee, executed, prices) == ChargeFees(orders[..i], fee, executed[..i], prices)
    decreases |orders|
  {
    if i < |orders| {
      var n := |orders| - 1;
      assert orders[..n][..i] == orders[..i] && executed[..n][..i] == executed[..i];
      ChargeFeesStops(orders[..n], fee, executed[..n], prices, i);
    } else {
      assert orders[..i] == orders && executed[..i] == executed;
    }
  }

  /** Extending a prefix that charged cleanly charges one more order. */
  lemma ChargeFeesStep(orders: seq<Order>, fee: Fee, executed: seq<ExecutedOrder>, prices: map<TokenId, nat>, i: nat,
                       done: seq<ExecutedOrder>)
    requires |executed| == |orders| && i < |orders|
    requires ChargeFees(orders[..i], fee, executed[..i], prices) == Success(Some(done))
    ensures ChargeFees(orders[..i + 1], fee, executed[..i + 1], prices)
      == match ChargeFee(orders[i], fee, executed[i], prices)
         case Failure(p) => Failure(p)
         case Success(None) => Success(None)
         case Success(Some(e)) => Success(Some(done + [e]))
  {
    assert orders[..i + 1][..i] == orders[..i] && executed[..i + 1][..i] == executed[..i];
  }

  /**
   * After a prefix that charged cleanly, the next order decides: a panic or
   * a give-up ends the whole sequence, a charged order extends the prefix.
   */
  lemma ChargeFeesNext(orders: seq<Order>, fee: Fee, executed: seq<ExecutedOrder>, prices: map<TokenId, nat>, i: nat,
                       done: seq<ExecutedOrder>)
    requires |executed| == |orders| && i < |orders|
    requires ChargeFees(orders[..i], fee, executed[..i], prices) == Success(Some(done))
    ensures var c := ChargeFee(orders[i], fee, executed[i], prices);
      && (c.Failure? ==> ChargeFees(orders, fee, executed, prices) == Failure(c.error))
      && (c == Success(None) ==> ChargeFees(orders, fee, executed, prices) == Success(None))
      && (c.Success? && c.value.Some? ==>
            ChargeFees(orders[..i + 1], fee, executed[..i + 1], prices) == Success(Some(done + [c.value.value])))
  {
    ChargeFeesStep(orders, fee, executed, prices, i, done);
    var c := ChargeFee(orders[i], fee, executed[i], prices);
    if c.Failure? || c == Success(None) {
      ChargeFeesStops(orders, fee, executed, prices, i + 1);
    }
  }

  /** Normalizes every price in place, in no particular order, giving up at the first that does not fit. */
  method NormalizePrices(prices: map<TokenId, nat>, feePrice: nat) returns (r: Option<map<TokenId, nat>>)
    requires feePrice > 0
    ensures r == NormalizeAll(prices, feePrice)
  {
    var normalized := prices;
    var pending := prices.Keys;
    while pending != {}
      invariant pending <= prices.Keys && normalized.Keys == prices.Keys
      invariant forall k :: k in pending ==> normalized[k] == prices[k]
      invariant forall k :: k in prices && k !in pending ==> NormalizePrice(prices[k], feePrice) == Some(normalized[k])
      decreases |pending|
    {
      var k :| k in pending;
      var price := NormalizePrice(normalized[k], feePrice);
      if price.None? {
        return None;
      }
      normalized := normalized[k := price.value];
      pending := pending - {k};
    }
    assert NormalizeAll(prices, feePrice).Some?;
    assert NormalizeAll(prices, feePrice).value == normalized;
    return Some(normalized);
  }

  /** Charges the fee to the executed orders one by one, stopping at the first that panics or gives up. */
  method ChargeFeesInPlace(orders: seq<Order>, fee: Fee, executed: seq<ExecutedOrder>, prices: map<TokenId, nat>)
    returns (r: Result<Option<seq<ExecutedOrder>>, Panic>)
    requires |executed| == |orders|
    ensures r == ChargeFees(orders, fee, executed, prices)
  {
    var charged := executed;
    for i := 0 to |orders|
      invariant |charged| == |orders| && charged[i..] == executed[i..]
      invariant ChargeFees(orders[..i], fee, executed[..i], prices) == Success(Some(charged[..i]))
    {
      ChargeFeesNext(orders, fee, executed, prices, i, charged[..i]);
      var o, e := orders[i], charged[i];
      assert e == executed[i];
      if o.sellToken == fee.token {
        if o.buyToken !in prices {
          assert ChargeFee(o, fee, e, prices) == Failure(MissingPrice);
          return Failure(MissingPrice);
        }
        var sell := ExecutedSellAmount(fee, e.buyAmount, prices[o.buyToken], BASE_PRICE);
        if sell.Failure? {
          assert ChargeFee(o, fee, e, prices) == Failure(sell.error);
          return Failure(sell.error);
        }
        assert ChargeFee(o, fee, e, prices) == Success(Some(e.(sellAmount := sell.value)));
        charged := charged[i := e.(sellAmount := sell.value)];
      } else {
        if o.sellToken !in prices {
          assert ChargeFee(o, fee, e, prices) == Failure(MissingPrice);
          return Failure(MissingPrice);
        }
        var buy := ExecutedBuyAmount(fee, e.sellAmount, BASE_PRICE, prices[o.sellToken]);
        if buy.Failure? {
          assert ChargeFee(o, fee, e, prices) == Failure(buy.error);
          return Failure(buy.error);
        }
        if buy.value.None? {
          assert ChargeFee(o, fee, e, prices) == Success(None);
          return Success(None);
        }
        assert ChargeFee(o, fee, e, prices) == Success(Some(e.(buyAmount := buy.value.value)));
        charged := charged[i := e.(buyAmount := buy.value.value)];
      }
      assert charged[..i + 1] == charged[..i] + [charged[i]];
    }
    assert orders[..|orders|] == orders && executed[..|executed|] == executed && charged[..|charged|] == charged;
    return Success(Some(charged));
  }

  method CreateSolutionWithFee(x: Order, y: Order, fee: Fee, executed: seq<ExecutedOrder>, prices: map<TokenId, nat>)
    returns (r: Result<Solution, Panic>)
    requires |executed| == 2
    ensures r == SolutionWithFee(x, y, fee, executed, prices)
  {
    var feePrice := if fee.token in prices then prices[fee.token] else 0;
    if feePrice == 0 {
      return Success(Trivial());
    }
    var normalized := NormalizePrices(prices, feePrice);
    if normalized.None? {
      return Success(Trivial());
    }
    var charged := ChargeFeesInPlace([x, y], fee, executed, normalized.value);
    match charged
    case Failure(p) => r := Failure(p);
    case Success(None) => r := Success(Trivial());
    case Success(Some(c)) => r := Success(Solution(normalized.value, c));
  }

  // ---------------------------------------------------------------------
  // The price finder

  /** The solution for the orders at the given balances, or the panic that aborts the driver. */
  function Solve(orders: seq<Order>, balances: map<Key, nat>, fee: Option<Fee>): Result<Solution, Panic> {
    match FirstMatch(orders, balances, fee)
    case None => Success(Trivial())
    case Some(m) =>
      var executed := CreateExecutedOrders(m, fee);
      match fee
      case None => Success(Solution(executed.1, executed.0))
      case Some(f) => SolutionWithFee(m.x, m.y, f, executed.0, executed.1)
  }

  class NaiveSolver {
    const fee: Option<Fee>

    constructor (fee: Option<Fee>)
      ensures this.fee == fee
    {
      this.fee := fee;
    }

    method FindPrices(orders: seq<Order>, state: AccountState) returns (r: Result<Solution, Panic>)
      ensures r == Solve(orders, state.balances, fee)
    {
      var first := FindFirstMatch(orders, state, fee);
      if first.None? {
        return Success(Trivial());
      }
      var executed := CreateExecutedOrders(first.value, fee);
      if fee.Some? {
        r := CreateSolutionWithFee(first.value.x, first.value.y, fee.value, executed.0, executed.1);
      } else {
        r := Success(Solution(executed.1, executed.0));
      }
    }
  }

  /** Without a matching pair (in particular without orders) the solution is trivial. */
  lemma NoMatchTrivial(orders: seq<Order>, balances: map<Key, nat>, fee: Option<Fee>)
    requires forall i, j :: 0 <= i < j < |orders| ==> MatchCompare(orders[i], orders[j], balances, fee).None?
    ensures Solve(orders, balances, fee) == Success(Trivial())
  {
    FirstMatchIsFirst(orders, balances, fee);
  }

  /** The solution trades orders x and y of the book against each other, token for token. */
  predicate SettlesPair(x: Order, y: Order, s: Solution) {
    |s.executedOrders| == 2
    && s.executedOrders[0].accountId == x.accountId && s.executedOrders[0].orderId == x.id
    && s.executedOrders[1].accountId == y.accountId && s.executedOrders[1].orderId == y.id
    && OppositeTokens(x, y)
  }

  /**
   * Without a fee the solver never panics, and a non-trivial solution
   * settles two orders of the book, each within its limit, with every token
   * conserved and, for a pair of distinct tokens, both orders valued
   * equally on both sides at the solution's prices.
   */
  lemma {:induction false} NoFeeSolution(orders: seq<Order>, balances: map<Key, nat>)
    ensures Solve(orders, balances, None).Success?
    ensures var s := Solve(orders, balances, None).value;
      s == Trivial()
      || exists i, j :: (0 <= i < j < |orders| && SettlesPair(orders[i], orders[j], s)
        && RespectsLimit(orders[i], s.executedOrders[0]) && RespectsLimit(orders[j], s.executedOrders[1])
        && s.executedOrders[0].sellAmount == s.executedOrders[1].buyAmount
        && s.executedOrders[0].buyAmount == s.executedOrders[1].sellAmount
        && (orders[i].sellToken != orders[i].buyToken ==>
              PricedFairly(orders[i], s.executedOrders[0], s.prices)
              && PricedFairly(orders[j], s.executedOrders[1], s.prices)))
  {
    if FirstMatch(orders, balances, None).Some? {
      var m := FirstMatch(orders, balances, None).value;
      FirstMatchValid(orders, balances, None);
      NoFeeExecution(m);
      var i, j :| 0 <= i < j < |orders| && m.x == orders[i] && m.y == orders[j];
      var s := Solve(orders, balances, None).value;
      assert SettlesPair(orders[i], orders[j], s);
    }
  }

  /** The executed order is consistent with the prices under the fee: its sell volume is what the buy volume costs. */
  predicate ChargedConsistently(o: Order, e: ExecutedOrder, prices: map<TokenId, nat>, fee: Fee) {
    o.buyToken in prices && o.sellToken in prices
    && ExecutedSellAmount(fee, e.buyAmount, prices[o.buyToken], prices[o.sellToken]) == Success(e.sellAmount)
  }

  /**
   * Charging the fee to an order that trades the fee token, at prices
   * covering both its tokens with the fee token at BASE_PRICE, can only
   * overflow; otherwise the result is consistent with the prices and keeps
   * the volume on the side that is not recomputed.
   */
  lemma ChargeFeeOutcome(o: Order, fee: Fee, e: ExecutedOrder, prices: map<TokenId, nat>)
    requires TradesFeeToken(o, fee) && o.buyToken in prices && o.sellToken in prices
    requires prices[fee.token] == BASE_PRICE
    ensures ChargeFee(o, fee, e, prices).Failure? ==> ChargeFee(o, fee, e, prices).error == Overflow
    ensures ChargeFee(o, fee, e, prices).Success? && ChargeFee(o, fee, e, prices).value.Some? ==>
      var c := ChargeFee(o, fee, e, prices).value.value;
      c.accountId == e.accountId && c.orderId == e.orderId
      && ChargedConsistently(o, c, prices, fee)
      && (o.sellToken == fee.token ==> c.buyAmount == e.buyAmount)
      && (o.sellToken != fee.token ==> c.sellAmount == e.sellAmount)
  {
  }

  /** Charging the fee to a pair of executed orders, one order after the other. */
  lemma ChargeFeesPair(x: Order, y: Order, fee: Fee, executed: seq<ExecutedOrder>, prices: map<TokenId, nat>)
    requires |executed| == 2
    ensures ChargeFees([x, y], fee, executed, prices)
      == match ChargeFee(x, fee, executed[0], prices)
         case Failure(p) => Failure(p)
         case Success(None) => Success(None)
         case Success(Some(cx)) =>
           match ChargeFee(y, fee, executed[1], prices)
           case Failure(p) => Failure(p)
           case Success(None) => Success(None)
           case Success(Some(cy)) => Success(Some([cx, cy]))
  {
    assert [x, y][..1] == [x] && executed[..1] == [executed[0]];
    assert [x][..0] == [] && [executed[0]][..0] == [];
    assert ChargeFees([], fee, [], prices) == Success(Some([]));
    var first := ChargeFees([x], fee, [executed[0]], prices);
    assert first == match ChargeFee(x, fee, executed[0], prices)
      case Failure(p) => Failure(p)
      case Success(None) => Success(None)
      case Success(Some(cx)) => Success(Some([] + [cx]));
    if first.Success? && first.value.Some? {
      var cx := first.value.value[0];
      assert first.value.value == [cx];
      match ChargeFee(y, fee, executed[1], prices)
      case Failure(p) =>
      case Success(None) =>
      case Success(Some(cy)) =>
        assert [cx] + [cy] == [cx, cy];
    }
  }

  /** The fee-token price survives normalization as exactly BASE_PRICE, and no token loses its price. */
  lemma {:induction false} NormalizedFeePrice(prices: map<TokenId, nat>, fee: Fee)
    requires fee.token in prices && prices[fee.token] > 0
    requires NormalizeAll(prices, prices[fee.token]).Some?
    ensures NormalizeAll(prices, prices[fee.token]).value.Keys == prices.Keys
    ensures NormalizeAll(prices, prices[fee.token]).value[fee.token] == BASE_PRICE
  {
    NormalizeSelf(prices[fee.token]);
  }

  /**
   * Under a fee, the solution of a valid match can abort only on a 128-bit
   * overflow, and a non-trivial one prices the fee token at BASE_PRICE,
   * settles the two orders with volumes consistent with the prices and the
   * fee, conserves the token that is not the fee token, and has an order
   * that does not sell the fee token sell at most what it offered.
   */
  lemma {:induction false} FeeMatchSolution(m: Match, fee: Fee)
    requires ValidMatch(m, Some(fee))
    ensures var e := CreateExecutedOrders(m, Some(fee));
      var r := SolutionWithFee(m.x, m.y, fee, e.0, e.1);
      (r.Failure? ==> r.error == Overflow)
      && (r.Success? && r.value != Trivial() ==>
            fee.token in r.value.prices && r.value.prices[fee.token] == BASE_PRICE
            && SettlesPair(m.x, m.y, r.value)
            && ChargedConsistently(m.x, r.value.executedOrders[0], r.value.prices, fee)
            && ChargedConsistently(m.y, r.value.executedOrders[1], r.value.prices, fee)
            && (m.x.sellToken != fee.token ==> r.value.executedOrders[0].sellAmount == r.value.executedOrders[1].buyAmount)
            && (m.x.buyToken != fee.token ==> r.value.executedOrders[0].buyAmount == r.value.executedOrders[1].sellAmount)
            && (m.x.sellToken != fee.token ==> r.value.executedOrders[0].sellAmount <= m.x.sellAmount)
            && (m.y.sellToken != fee.token ==> r.value.executedOrders[1].sellAmount <= m.y.sellAmount))
  {
    BufferedExecution(m, Some(fee));
    var x, y := m.x, m.y;
    var (executed, prices) := CreateExecutedOrders(m, Some(fee));
    var feePrice := prices[fee.token];
    if feePrice > 0 && NormalizeAll(prices, feePrice).Some? {
      var normalized := NormalizeAll(prices, feePrice).value;
      NormalizedFeePrice(prices, fee);
      assert TradesFeeToken(y, fee);
      ChargeFeeOutcome(x, fee, executed[0], normalized);
      ChargeFeeOutcome(y, fee, executed[1], normalized);
      ChargeFeesPair(x, y, fee, executed, normalized);
    }
  }

  /**
   * Under a fee the solver can abort only on a 128-bit overflow. A
   * non-trivial solution prices the fee token at BASE_PRICE, settles two
   * orders of the book with volumes consistent with the prices and the fee,
   * conserves the token that is not the fee token, and has an order that
   * does not sell the fee token sell at most what it offered.
   */
  lemma {:induction false} FeeSolution(orders: seq<Order>, balances: map<Key, nat>, fee: Fee)
    ensures Solve(orders, balances, Some(fee)).Failure? ==> Solve(orders, balances, Some(fee)).error == Overflow
    ensures Solve(orders, balances, Some(fee)).Success? ==>
      var s := Solve(orders, balances, Some(fee)).value;
      s == Trivial()
      || (fee.token in s.prices && s.prices[fee.token] == BASE_PRICE
          && exists i, j :: (0 <= i < j < |orders| && SettlesPair(orders[i], orders[j], s)
            && ChargedConsistently(orders[i], s.executedOrders[0], s.prices, fee)
            && ChargedConsistently(orders[j], s.executedOrders[1], s.prices, fee)
            && (orders[i].sellToken != fee.token ==> s.executedOrders[0].sellAmount == s.executedOrders[1].buyAmount)
            && (orders[i].buyToken != fee.token ==> s.executedOrders[0].buyAmount == s.executedOrders[1].sellAmount)
            && (orders[i].sellToken != fee.token ==> s.executedOrders[0].sellAmount <= orders[i].sellAmount)
            && (orders[j].sellToken != fee.token ==> s.executedOrders[1].sellAmount <= orders[j].sellAmount)))
  {
    if FirstMatch(orders, balances, Some(fee)).Some? {
      var m := FirstMatch(orders, balances, Some(fee)).value;
      FirstMatchValid(orders, balances, Some(fee));
      FeeMatchSolution(m, fee);
      var i, j :| 0 <= i < j < |orders| && m.x == orders[i] && m.y == orders[j];
    }
  }

  // ---------------------------------------------------------------------
  // Classifying a pair before the fee buffer

  /**
   * Under a fee of 1/1000 on token 0, x offers 1 of token 1 for 1 of token
   * 0 and y the converse. As placed the pair overlaps and fills x, which is
   * what the comparison as written decides; the volumes are then computed
   * from the buffered orders, where x asks 2 and y offers 0, so y sells 2 of
   * the 1 it offered. The comparison on buffered orders rejects the pair.
   */
  lemma ClassifyBeforeBufferOverfills()
    ensures
      var fee := Fee(0, 1000);
      var x := Order(0, 0, 1, 0, 1, 1);
      var y := Order(1, 1, 0, 1, 1, 1);
      var balances: map<Key, nat> := map[(0, 1) := 1, (1, 0) := 1];
      var e := CreateExecutedOrders(Match(LhsFullyFilled, x, y), Some(fee));
      && MatchCompareAsWritten(x, y, balances, Some(fee)) == Some(LhsFullyFilled)
      && e == ([ExecutedOrder(0, 0, 2, 1), ExecutedOrder(1, 1, 1, 2)], map[0 := 1, 1 := 2])
      && !RespectsLimit(y, e.0[1])
      && MatchCompare(x, y, balances, Some(fee)).None?
  {
    var fee := Fee(0, 1000);
    assert OrderWithBufferForFee(Order(0, 0, 1, 0, 1, 1), Some(fee)) == Order(0, 0, 1, 0, 1, 2);
    assert OrderWithBufferForFee(Order(1, 1, 0, 1, 1, 1), Some(fee)) == Order(1, 1, 0, 1, 0, 1);
  }

  /**
   * Charging the fee on the executed orders of ClassifyBeforeBufferOverfills
   * keeps the excess: the solution the driver submits has y sell 2 of the 1
   * it offered.
   */
  lemma OverfillSurvivesFee()
    ensures
      var fee := Fee(0, 1000);
      var executed := [ExecutedOrder(0, 0, 2, 1), ExecutedOrder(1, 1, 1, 2)];
      var y := Order(1, 1, 0, 1, 1, 1);
      && SolutionWithFee(Order(0, 0, 1, 0, 1, 1), y, fee, executed, map[0 := 1, 1 := 2])
         == Success(Solution(map[0 := BASE_PRICE, 1 := 2 * BASE_PRICE], executed))
      && !RespectsLimit(y, executed[1])
  {
    var fee := Fee(0, 1000);
    var executed := [ExecutedOrder(0, 0, 2, 1), ExecutedOrder(1, 1, 1, 2)];
    var prices: map<TokenId, nat> := map[0 := 1, 1 := 2];
    var normalized: map<TokenId, nat> := map[0 := BASE_PRICE, 1 := 2 * BASE_PRICE];
    assert NormalizeAll(prices, 1) == Some(normalized) by {
      NormalizeSelf(1);
      assert NormalizePrice(prices[1], 1) == Some(2 * BASE_PRICE);
      assert NormalizeAll(prices, 1).Some?;
      assert NormalizeAll(prices, 1).value == normalized;
    }
    OverfillChargedVolumes();
    ChargeFeesPair(Order(0, 0, 1, 0, 1, 1), Order(1, 1, 0, 1, 1, 1), fee, executed, normalized);
  }

  /**
   * At the normalised prices of OverfillSurvivesFee, charging the fee
   * leaves both executed orders as they were: x's recomputed buy volume is
   * again 2, and y's recomputed sell volume is again 2.
   */
  lemma OverfillChargedVolumes()
    ensures
      var fee := Fee(0, 1000);
      var normalized: map<TokenId, nat> := map[0 := BASE_PRICE, 1 := 2 * BASE_PRICE];
      && ChargeFee(Order(0, 0, 1, 0, 1, 1), fee, ExecutedOrder(0, 0, 2, 1), normalized)
         == Success(Some(ExecutedOrder(0, 0, 2, 1)))
      && ChargeFee(Order(1, 1, 0, 1, 1, 1), fee, ExecutedOrder(1, 1, 1, 2), normalized)
         == Success(Some(ExecutedOrder(1, 1, 1, 2)))
  {
    var fee := Fee(0, 1000);
    assert ExecutedBuyAmount(fee, 1, BASE_PRICE, 2 * BASE_PRICE) == Success(Some(2)) by {
      assert CeilDiv(1998 * 1_000_000_000_000_000, BASE_PRICE) == 2;
      assert FloorDiv(2 * BASE_PRICE, 999) == 2_002_002_002_002_002;
      assert ExecutedSellAmount(fee, 2, BASE_PRICE, 2 * BASE_PRICE) == Success(1);
    }
    assert ExecutedSellAmount(fee, 1, 2 * BASE_PRICE, BASE_PRICE) == Success(2) by {
      assert FloorDiv(2 * BASE_PRICE, 999) == 2_002_002_002_002_002;
    }
  }

  // ---------------------------------------------------------------------
  // A fee-token seller pushed past its offer by the rounded-up prices

  /**
   * Under a fee of 1/10 on token 0, x offers BASE_PRICE of the fee token for
   * nothing of token 1 and y offers BASE_PRICE + 1 of token 1 for nothing.
   * Both comparisons fill both orders, and the solution the driver submits
   * has x sell BASE_PRICE + 1 of the fee token, one more than it offered:
   * token 1 is normalised to 9 * 10^17 rounded up, and x's sell volume is
   * grossed up from that price.
   */
  lemma FeeSellerOverfillsByRounding()
    ensures
      var fee := Fee(0, 10);
      var x := Order(0, 0, 0, 1, BASE_PRICE, 0);
      var y := Order(1, 1, 1, 0, BASE_PRICE + 1, 0);
      var balances: map<Key, nat> := map[(0, 0) := BASE_PRICE, (1, 1) := BASE_PRICE + 1];
      var executed := [ExecutedOrder(0, 0, BASE_PRICE + 1, BASE_PRICE + 1),
                       ExecutedOrder(1, 1, 810_000_000_000_000_001, BASE_PRICE + 1)];
      && MatchCompareAsWritten(x, y, balances, Some(fee)) == Some(BothFullyFilled)
      && Solve([x, y], balances, Some(fee))
         == Success(Solution(map[0 := BASE_PRICE, 1 := 900_000_000_000_000_000], executed))
      && !RespectsLimit(x, executed[0])
  {
    var fee := Fee(0, 10);
    var x := Order(0, 0, 0, 1, BASE_PRICE, 0);
    var y := Order(1, 1, 1, 0, BASE_PRICE + 1, 0);
    var before := [ExecutedOrder(0, 0, BASE_PRICE + 1, 900_000_000_000_000_000),
                   ExecutedOrder(1, 1, 900_000_000_000_000_000, BASE_PRICE + 1)];
    var prices: map<TokenId, nat> := map[0 := BASE_PRICE + 1, 1 := 900_000_000_000_000_000];
    var normalized: map<TokenId, nat> := map[0 := BASE_PRICE, 1 := 900_000_000_000_000_000];
    var executed := [ExecutedOrder(0, 0, BASE_PRICE + 1, BASE_PRICE + 1),
                     ExecutedOrder(1, 1, 810_000_000_000_000_001, BASE_PRICE + 1)];
    FeeSellerRoundingMatch();
    assert ChargeFees([x, y], fee, before, normalized) == Success(Some(executed)) by {
      FeeSellerRoundingCharged();
      ChargeFeesPair(x, y, fee, before, normalized);
    }
    assert SolutionWithFee(x, y, fee, before, prices) == Success(Solution(normalized, executed));
  }

  /**
   * The first match of FeeSellerOverfillsByRounding fills both orders at the
   * buffered volumes: x sells 9 * 10^17 (its offer less the fee) for y's
   * whole offer. Normalised against the fee token, token 1's price
   * 9 * 10^17 * BASE_PRICE / (BASE_PRICE + 1) rounds up to 9 * 10^17.
   */
  lemma FeeSellerRoundingMatch()
    ensures
      var fee := Fee(0, 10);
      var x := Order(0, 0, 0, 1, BASE_PRICE, 0);
      var y := Order(1, 1, 1, 0, BASE_PRICE + 1, 0);
      var balances: map<Key, nat> := map[(0, 0) := BASE_PRICE, (1, 1) := BASE_PRICE + 1];
      && MatchCompareAsWritten(x, y, balances, Some(fee)) == Some(BothFullyFilled)
      && FirstMatch([x, y], balances, Some(fee)) == Some(Match(BothFullyFilled, x, y))
      && CreateExecutedOrders(Match(BothFullyFilled, x, y), Some(fee))
         == ([ExecutedOrder(0, 0, BASE_PRICE + 1, 900_000_000_000_000_000),
              ExecutedOrder(1, 1, 900_000_000_000_000_000, BASE_PRICE + 1)],
             map[0 := BASE_PRICE + 1, 1 := 900_000_000_000_000_000])
      && NormalizeAll(map[0 := BASE_PRICE + 1, 1 := 900_000_000_000_000_000], BASE_PRICE + 1)
         == Some(map[0 := BASE_PRICE, 1 := 900_000_000_000_000_000])
  {
    var fee := Fee(0, 10);
    var x := Order(0, 0, 0, 1, BASE_PRICE, 0);
    var y := Order(1, 1, 1, 0, BASE_PRICE + 1, 0);
    assert OrderWithBufferForFee(x, Some(fee)) == x.(sellAmount := 900_000_000_000_000_000);
    assert OrderWithBufferForFee(y, Some(fee)) == y;
    var prices: map<TokenId, nat> := map[0 := BASE_PRICE + 1, 1 := 900_000_000_000_000_000];
    var normalized: map<TokenId, nat> := map[0 := BASE_PRICE, 1 := 900_000_000_000_000_000];
    assert NormalizeAll(prices, BASE_PRICE + 1) == Some(normalized) by {
      NormalizeSelf(BASE_PRICE + 1);
      assert NormalizePrice(prices[1], BASE_PRICE + 1) == Some(900_000_000_000_000_000);
      assert NormalizeAll(prices, BASE_PRICE + 1).Some?;
      assert NormalizeAll(prices, BASE_PRICE + 1).value == normalized;
    }
  }

  /**
   * At the normalised prices of FeeSellerOverfillsByRounding, x's sell
   * volume grossed up from its buy volume is BASE_PRICE + 1, and y keeps its
   * sell volume for a buy volume of 810000000000000001.
   */
  lemma FeeSellerRoundingCharged()
    ensures
      var fee := Fee(0, 10);
      var normalized: map<TokenId, nat> := map[0 := BASE_PRICE, 1 := 900_000_000_000_000_000];
      && ChargeFee(Order(0, 0, 0, 1, BASE_PRICE, 0), fee,
           ExecutedOrder(0, 0, BASE_PRICE + 1, 900_000_000_000_000_000), normalized)
         == Success(Some(ExecutedOrder(0, 0, BASE_PRICE + 1, BASE_PRICE + 1)))
      && ChargeFee(Order(1, 1, 1, 0, BASE_PRICE + 1, 0), fee,
           ExecutedOrder(1, 1, 900_000_000_000_000_000, BASE_PRICE + 1), normalized)
         == Success(Some(ExecutedOrder(1, 1, 810_000_000_000_000_001, BASE_PRICE + 1)))
  {
    var fee := Fee(0, 10);
    assert ExecutedSellAmount(fee, BASE_PRICE + 1, 900_000_000_000_000_000, BASE_PRICE) == Success(BASE_PRICE + 1) by {
      assert FloorDiv((BASE_PRICE + 1) * 900_000_000_000_000_000, 9)
        == 100_000_000_000_000_000_100_000_000_000_000_000;
    }
    assert ExecutedBuyAmount(fee, BASE_PRICE + 1, BASE_PRICE, 900_000_000_000_000_000)
      == Success(Some(810_000_000_000_000_001)) by {
      assert CeilDiv(810_000_000_000_000_000_810_000_000_000_000_000, BASE_PRICE) == 810_000_000_000_000_001;
      assert FloorDiv(810_000_000_000_000_001 * BASE_PRICE, 9) == 90_000_000_000_000_000_111_111_111_111_111_111;
      assert ExecutedSellAmount(fee, 810_000_000_000_000_001, BASE_PRICE, 900_000_000_000_000_000) == Success(BASE_PRICE + 1);
    }
  }

  // ---------------------------------------------------------------------
  // A zero sell price under a fee

  /**
   * Two orders that trade the fee token 0 (ratio 1/1000) against token 1,
   * where the first asks nothing: the pair fills the first order, token 1
   * is priced 0, and the buy volume of the first order is then computed
   * against a sell price of 0, which the code as written divides by.
   */
  lemma ZeroSellPricePanics()
    ensures
      var fee := Fee(0, 1000);
      var x := Order(0, 0, 1, 0, 5, 0);
      var y := Order(1, 1, 0, 1, 10, 10);
      var m := Match(LhsFullyFilled, x, y);
      FirstMatch([x, y], map[(0, 1) := 5, (1, 0) := 10], Some(fee)) == Some(m)
      && CreateExecutedOrders(m, Some(fee)).0[0].sellAmount == 5
      && CreateExecutedOrders(m, Some(fee)).1 == map[0 := 5, 1 := 0]
      && NormalizeAll(map[0 := 5, 1 := 0], 5) == Some(map[0 := BASE_PRICE, 1 := 0])
      && ExecutedBuyAmountAsWritten(fee, 5, BASE_PRICE, 0) == Failure(DivisionByZero)
  {
    var x := Order(0, 0, 1, 0, 5, 0);
    var m := Match(LhsFullyFilled, x, Order(1, 1, 0, 1, 10, 10));
    assert OrderWithBufferForFee(x, Some(Fee(0, 1000))) == x;
    NormalizeSelf(5);
    var prices: map<TokenId, nat> := map[0 := 5, 1 := 0];
    assert NormalizePrice(prices[1], 5) == Some(0);
    assert NormalizeAll(prices, 5).value == map[0 := BASE_PRICE, 1 := 0];
  }

  /** With the corrected inverse the same book yields the trivial solution instead. */
  lemma ZeroSellPriceTrivial()
    ensures Solve([Order(0, 0, 1, 0, 5, 0), Order(1, 1, 0, 1, 10, 10)], map[(0, 1) := 5, (1, 0) := 10], Some(Fee(0, 1000)))
      == Success(Trivial())
  {
    var fee := Fee(0, 1000);
    var x := Order(0, 0, 1, 0, 5, 0);
    var y := Order(1, 1, 0, 1, 10, 10);
    var m := Match(LhsFullyFilled, x, y);
    var e := CreateExecutedOrders(m, Some(fee));
    assert FirstMatch([x, y], map[(0, 1) := 5, (1, 0) := 10], Some(fee)) == Some(m) by {
      ZeroSellPricePanics();
    }
    assert SolutionWithFee(x, y, fee, e.0, e.1) == Success(Trivial()) by {
      ZeroSellPricePanics();
      var normalized: map<TokenId, nat> := map[0 := BASE_PRICE, 1 := 0];
      ChargeFeesPair(x, y, fee, e.0, normalized);
      assert ChargeFee(x, fee, e.0[0], normalized) == Success(None);
    }
  }
}
