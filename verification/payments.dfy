/** lib/payments/provider.ts: the stub payment provider. */
module Payments {
  datatype PaymentStatus = Pending | Paid

  /** The request; the amount and currency are accepted and ignored. */
  datatype PaymentIntentInput = PaymentIntentInput(orderId: string, amountNok: int, currency: string)

  datatype PaymentIntent = PaymentIntent(provider: string, id: string, status: PaymentStatus)

  const IdPrefix := "pi_"

  /** `createPaymentIntent(input)`. */
  function CreatePaymentIntent(input: PaymentIntentInput): (p: PaymentIntent)
    ensures p.provider == "stub" && p.status == Pending
    ensures |p.id| == |IdPrefix| + |input.orderId|
    ensures p.id[..|IdPrefix|] == IdPrefix && p.id[|IdPrefix|..] == input.orderId
  {
    PaymentIntent("stub", IdPrefix + input.orderId, Pending)
  }

  /** The order id can be read back from the intent id, so distinct orders get
      distinct intent ids. */
  lemma IntentIdsDistinct(a: PaymentIntentInput, b: PaymentIntentInput)
    requires a.orderId != b.orderId
    ensures CreatePaymentIntent(a).id != CreatePaymentIntent(b).id
  {
    assert CreatePaymentIntent(a).id[|IdPrefix|..] == a.orderId;
    assert CreatePaymentIntent(b).id[|IdPrefix|..] == b.orderId;
  }

  /** Only the order id matters. */
  lemma AmountAndCurrencyIgnored(a: PaymentIntentInput, amountNok: int, currency: string)
    ensures CreatePaymentIntent(a.(amountNok := amountNok, currency := currency)) == CreatePaymentIntent(a)
  {
  }
}
