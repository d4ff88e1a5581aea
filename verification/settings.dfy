/** The gateway's identity and typed configuration. */
module Settings {
  import opened Wrappers

  /** The payment-method id the gateway registers under. */
  const GatewayId := "divido-finance"

  const Yes := "yes"
  const No := "no"

  /** The configuration options the modelled operations read. Unset
      auto-fulfilment/refund/cancel flags default to "yes" in the source; empty
      numeric settings are `None`. */
  datatype Config = Config(
    enabled: string,
    apiKey: string,
    url: string,
    secret: string,
    autoFulfillment: string,
    autoRefund: string,
    autoCancel: string,
    cartThreshold: Option<real>,
    maxLoanAmount: Option<real>,
    productSelect: Option<string>,
    priceSelection: real,
    showFinanceOptions: Option<string>,
    refineList: seq<string>)

  /** `is_available`: enabled is exactly "yes" and an API key is set. */
  predicate IsAvailable(cfg: Config)
  {
    cfg.enabled == Yes && cfg.apiKey != ""
  }

  /** A reason code a lender accepts with a cancellation or refund. */
  datatype Reason = Reason(code: string, title: string)

  /** `REASONS`: lenders (by app name) that require a reason, with their codes. */
  const Reasons: map<string, seq<Reason>> := map[
    "novuna" := [
      Reason("ALTERNATIVE_PAYMENT_METHOD_USED", "Alternative Payment Method Used"),
      Reason("GOODS_FAULTY", "Goods Faulty"),
      Reason("GOODS_NOT_RECEIVED", "Goods Not Received"),
      Reason("GOODS_RETURNED", "Goods Returned"),
      Reason("LOAN_AMENDED", "Loan Amended"),
      Reason("NOT_GOING_AHEAD", "Not Going Ahead"),
      Reason("NO_CUSTOMER_INFORMATION", "No Customer Information")
    ]
  ]

  const CancelAction := "cancel"
  const RefundAction := "refund"
  const ProceedAction := "proceed"
}
