/** The closed set of intents a free-text message resolves to, with the
    parameters each may carry (the object `parseIntent` returns). */
module Intents {
  import opened Wrappers
  import opened Records

  datatype IntentTag =
    | BalanceCheck
    | WalletFund
    | AirtimePurchase
    | DataPurchase
    | Transactions
    | MonthlyReport
    | SetPin
    | ChangePin
    | Unknown

  /** All six fields of the resolved intent; `kind` is the source's `type`. */
  datatype ResolvedIntent = ResolvedIntent(
    intent: IntentTag,
    amount: Option<real>,
    network: Option<string>,
    phoneNumber: Option<string>,
    kind: Option<Kind>,
    dataSize: Option<string>)

  /** An intent whose five parameters are all null. */
  function Bare(tag: IntentTag): ResolvedIntent {
    ResolvedIntent(tag, None, None, None, None, None)
  }

  predicate HasNoParameters(r: ResolvedIntent) {
    r.amount.None? && r.network.None? && r.phoneNumber.None? && r.kind.None? && r.dataSize.None?
  }
}
