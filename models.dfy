/**
 * The driver's order and solution records, as the solver and the account
 * state use them. Token ids are u16 and amounts u128 in the driver; here they
 * are naturals, and the solver narrows explicitly where the driver does.
 */
module Models {

  /** An account address; the helpers derive it from a small integer. */
  type Address = nat

  type TokenId = nat

  /** A standing limit order: sell up to sellAmount of sellToken for at least buyAmount of buyToken. */
  datatype Order = Order(
    id: nat, accountId: Address, sellToken: TokenId, buyToken: TokenId,
    sellAmount: nat, buyAmount: nat)

  /** The volumes an order trades in a solution. */
  datatype ExecutedOrder = ExecutedOrder(accountId: Address, orderId: nat, buyAmount: nat, sellAmount: nat)

  /** Token prices and the executed orders of one auction. */
  datatype Solution = Solution(prices: map<TokenId, nat>, executedOrders: seq<ExecutedOrder>)

  /** The solution that trades nothing. */
  function Trivial(): Solution {
    Solution(map[], [])
  }
}
