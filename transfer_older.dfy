/** The older build of the money-movement service. Its `transferFunds` is the
    same code as the current build's; its `depositFunds` differs only in not
    writing the debit into the transaction's amount column; it has no
    `chargePayment`. */
module TransferOlder {
  import opened Base
  import opened Ledger
  import opened Exchange
  import TransferLatest

  /** `transferFunds`: the current build's procedure as written, so the new
      row does not carry the caller's idempotency key either. */
  method TransferFunds(db: Store, fx: ExchangeService, input: TransferLatest.TransferInput, now: int, fetch: FetchOutcome)
    returns (r: Result<Transaction>)
    requires db.View().Valid()
    modifies db, fx
    ensures var st := TransferLatest.TransferAsWritten(old(db.View()), old(fx.cache), input, now, fetch);
      r == st.result && db.View() == st.ledger && fx.cache == st.cache
  {
    r := TransferLatest.TransferFunds(db, fx, input, now, fetch, false);
  }

  /** `depositFunds` of this build. */
  function Deposit(s: Ledger, cache: Option<RateCache>, input: TransferLatest.DepositInput, bankEmail: string,
                   now: int, fetch: FetchOutcome): (st: TransferLatest.FxStep<Transaction>)
    requires s.Valid()
    // the only difference from the current build: no amount column on the row
    ensures st.result.Ok? ==> st.result.value.amount == None
    ensures st.result.Err? ==> st.ledger == s
    ensures var current := TransferLatest.Deposit(s, cache, input, bankEmail, now, fetch, true);
      && st.result.Ok? == current.result.Ok?
      && st.cache == current.cache
      && (st.result.Ok? ==> st.result.value == current.result.value.(amount := None))
      // the balances move as in the current build; only the stored row differs
      && (st.result.Ok? ==> st.ledger == current.ledger.(transactions := s.transactions + [st.result.value]))
      && (st.result.Err? ==> st == current)
  {
    TransferLatest.Deposit(s, cache, input, bankEmail, now, fetch, false)
  }

  method DepositFunds(db: Store, fx: ExchangeService, input: TransferLatest.DepositInput, bankEmail: string,
                      now: int, fetch: FetchOutcome) returns (r: Result<Transaction>)
    requires db.View().Valid()
    modifies db, fx
    ensures var st := Deposit(old(db.View()), old(fx.cache), input, bankEmail, now, fetch);
      r == st.result && db.View() == st.ledger && fx.cache == st.cache
  {
    r := TransferLatest.PostDeposit(db, fx, input, bankEmail, now, fetch, false);
  }
}
