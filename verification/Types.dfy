/** Identifiers and small result types shared by the model. */
module Types {

  datatype Option<+T> = None | Some(value: T)

  /** A Stellar account (G...) or contract (C...) address. */
  datatype Address = Address(key: string)

  /** `Order.id`; also the contract's `order_ref`. */
  datatype OrderId = OrderId(uuid: string)

  datatype ProductId = ProductId(uuid: string)

  datatype CreatorId = CreatorId(uuid: string)

  /** The payment provider's transaction id: the webhook's idempotency key. */
  datatype PaymentRef = PaymentRef(id: string)

  /** One entry of the contract's recipient vector. */
  datatype Recipient = Recipient(address: Address, shareBps: int)
}
