/** Vocabulary shared by every service: optional values, the outcome of an
    operation, and the errors the services raise. */
module Base {

  datatype Option<+T> = None | Some(value: T)

  /** JavaScript truthiness of an optional string: present and not empty. */
  predicate Truthy(s: Option<string>) {
    s.Some? && s.value != ""
  }

  /** Lifecycle of an invoice: PENDING, then PAID, FAILED or EXPIRED. */
  datatype InvoiceStatus = Pending | Paid | Failed | Expired

  /** Every error a service throws, one constructor per kind of failure. */
  datatype Error =
    | InvalidAmount                                   // "... amount must be positive"
    | LimitExceeded                                   // "... limit exceeded"
    | SenderNotFound
    | RecipientNotFound
    | BuyerNotFound
    | SellerNotFound
    | PayerNotFound
    | CreditorNotFound
    | InvoiceNotFound
    | TreasuryNotConfigured                           // BANK_EMAIL not set
    | TreasuryNotFound                                // no account with BANK_EMAIL
    | SameAccount
    | InsufficientFunds(available: int, required: int) // "Insufficient funds. Available: .., Required: .."
    | InsufficientFundsNeeds(needed: int, currency: string) // "Insufficient Funds! Needs .."
    | TreasuryInsufficientFunds(needed: int, currency: string)
    | PayerInsufficientFunds                          // "Insufficient funds" (no figures)
    | MissingDescription
    | InvoiceAlreadyPaid
    | InvoiceNotPending(status: InvoiceStatus)        // "Invoice is already <status>"
    | InvoiceExpired
    | InvalidPin
    | DuplicateIdempotencyKey                         // unique index on Transaction.idempotencyKey
    | RatesUnavailable                                // refresh failed with no cache to fall back on
    | RateNotAvailable(from: string, to: string)      // "Rate not available for pair from-to"

  datatype Result<+T> = Ok(value: T) | Err(error: Error)
}
