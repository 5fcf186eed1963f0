/** Values the positions view works with: the fetched NFT records, the
    notifications it dispatches and the network response it consumes. */
module PositionData {

  /** JavaScript's `undefined`/`null` versus a present value. */
  datatype Option<+T> = None | Some(value: T)

  /** One Uniswap V3 position NFT as the balances API returns it. */
  datatype Item = Item(tokenId: string, tokenHash: string, metadata: Option<string>)

  datatype Kind = Error | Warning

  /** A toast dispatched through the notification hook: type, message and title. */
  datatype Notification = Notification(kind: Kind, message: string, title: string)

  /** What the request to /api/lpV3 produces once awaited.
      Threw: `fetch` rejected, the body was not JSON, or the body was `null`
             (then reading `data.result` throws a TypeError); carries the error text.
      Received: a body whose `result` field is `None` when absent or falsy. */
  datatype Response = Threw(error: string) | Received(result: Option<seq<Item>>)
}
