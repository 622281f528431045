/** The current money-movement service: peer transfer, treasury deposit and
    merchant charge, with currency conversion through the rate cache. The
    conversion of a transfer or deposit rounds up (ceil of amount / rate); that
    of a charge rounds down (floor of amount * rate). */
module TransferLatest {
  import opened Base
  import opened Ledger
  import opened Money
  import opened Exchange

  /** BANK_CONFIG.MAX_TRANSACTION_LIMIT. */
  const MaxTransactionLimit: int := 100000

  datatype TransferInput = TransferInput(
    senderId: AccountId, toAccountNumber: string, amount: int,
    description: Option<string>, reference: string, idempotencyKey: Option<string>)

  datatype DepositInput = DepositInput(toAccountNumber: string, amount: int, reference: string)

  datatype ChargeInput = ChargeInput(
    buyerId: AccountId, sellerAccountNumber: string, amount: int,
    description: Option<string>, reference: string)

  /** The outcome of an operation, the store after it, and the rate cache after it. */
  datatype FxStep<+T> = FxStep(result: Result<T>, ledger: Ledger, cache: Option<RateCache>)

  /** The stored description of a transfer: the caller's, if any. */
  function TransferMemo(description: Option<string>): Memo {
    if description.Some? then Text(description.value) else NoMemo
  }

  /** The stored description of a charge: `description || 'Ticket purchase charge'`. */
  function ChargeMemo(description: Option<string>): (m: Memo)
    ensures Truthy(description) ==> m == Text(description.value)
    ensures !Truthy(description) ==> m == Text("Ticket purchase charge")
  {
    if Truthy(description) then Text(description.value) else Text("Ticket purchase charge")
  }

  /** The row `transferFunds` writes, carrying `key` in its idempotencyKey column. */
  function TransferRow(s: Ledger, input: TransferInput, toId: AccountId, rate: real, now: int, key: Option<string>): Transaction
    requires input.senderId in s.accounts && toId in s.accounts
  {
    Transaction(s.nextId, key, ChooseReference(input.reference, "REF-", now), Plain,
                s.accounts[input.senderId].currency, Some(s.accounts[toId].currency), Some(rate), None,
                TransferMemo(input.description), Posted, Some(input.senderId), Some(toId),
                Entry(input.senderId, -input.amount), Entry(toId, input.amount))
  }

  /** The row `depositFunds` writes for a debit of `debit`. */
  function DepositRow(s: Ledger, input: DepositInput, bankId: AccountId, userId: AccountId, rate: real,
                      debit: int, now: int, recordsAmount: bool): Transaction
    requires bankId in s.accounts && userId in s.accounts
  {
    Transaction(s.nextId, None, ChooseReference(input.reference, "DEP-FX-", now), Plain,
                s.accounts[bankId].currency, Some(s.accounts[userId].currency), Some(rate),
                if recordsAmount then Some(debit) else None,
                TreasuryDeposit(rate), Posted, Some(bankId), Some(userId),
                Entry(bankId, -debit), Entry(userId, input.amount))
  }

  /** The row `chargePayment` writes for a credit of `credit`. */
  function ChargeRow(s: Ledger, input: ChargeInput, sellerId: AccountId, rate: real, credit: int, now: int): Transaction
    requires input.buyerId in s.accounts && sellerId in s.accounts
  {
    Transaction(s.nextId, None, ChooseReference(input.reference, "CHG-", now), Plain,
                s.accounts[input.buyerId].currency, Some(s.accounts[sellerId].currency), Some(rate), None,
                ChargeMemo(input.description), Posted, Some(input.buyerId), Some(sellerId),
                Entry(input.buyerId, -input.amount), Entry(sellerId, credit))
  }

  // ---------------------------------------------------------------- transfer

  /** The unit of work of `transferFunds`, once the recipient `toId`, the
      rate and the converted credit are known: the self-transfer check, the
      balance checks, both legs and the transaction row. */
  function TransferMove(s: Ledger, input: TransferInput, toId: AccountId, rate: real, credit: int, now: int,
                        key: Option<string>): (st: Step<Transaction>)
    requires s.Valid() && input.senderId in s.accounts && toId in s.accounts && !KeyTaken(s.transactions, key)
    ensures st.ledger.Valid()
    ensures st.result.Err? ==> st.ledger == s
    ensures toId == input.senderId ==> st.result == Err(SameAccount)
    // success exactly when the accounts differ and the balance covers the
    // amount: allowOverdraft changes only which error is raised
    ensures st.result.Ok? <==> toId != input.senderId && s.accounts[input.senderId].balance >= input.amount
    ensures toId != input.senderId && s.accounts[input.senderId].balance < input.amount ==>
      st.result == if s.accounts[input.senderId].allowOverdraft
                   then Err(InsufficientFundsNeeds(input.amount, s.accounts[input.senderId].currency))
                   else Err(InsufficientFunds(s.accounts[input.senderId].balance, input.amount))
    ensures st.result.Ok? ==>
      var t := st.result.value;
      // the sender loses the amount, the recipient gains the credit
      && Moved(s.accounts, st.ledger.accounts, input.senderId, toId, input.amount, credit)
      // the entries record the unconverted amount on both legs
      && t.debit == Entry(input.senderId, -input.amount)
      && t.credit == Entry(toId, input.amount)
      && t.key == key
      && t.from == Some(input.senderId) && t.to == Some(toId)
      && t.exchangeRate == Some(rate)
      && t.currency == s.accounts[input.senderId].currency
      && t.targetCurrency == Some(s.accounts[toId].currency)
      && t.memo == TransferMemo(input.description)
      && t.reference == ChooseReference(input.reference, "REF-", now)
      && t.status == Posted && t.id == s.nextId && t.kind == Plain && t.amount == None
      && st.ledger == s.(accounts := st.ledger.accounts, transactions := s.transactions + [t], nextId := s.nextId + 1)
  {
    var sender := s.accounts[input.senderId];
    if input.senderId == toId then Step(Err(SameAccount), s)
    else if !sender.allowOverdraft && sender.balance < input.amount then
      Step(Err(InsufficientFunds(sender.balance, input.amount)), s)
    else if sender.balance < input.amount then
      Step(Err(InsufficientFundsNeeds(input.amount, sender.currency)), s)
    else
      var t := TransferRow(s, input, toId, rate, now, key);
      Step(Ok(t), Post(s, t, input.senderId, toId, input.amount, credit))
  }

  /** The key a new transfer row carries: the caller's key when `recordKey`
      is set and the key is truthy, otherwise none. */
  function StoredKey(key: Option<string>, recordKey: bool): (r: Option<string>)
    ensures r.Some? ==> Truthy(key) && r == key
  {
    if recordKey && Truthy(key) then key else None
  }

  /** `transferFunds`, parameterised by whether the new row records the
      caller's idempotency key: the code as written does not (`recordKey`
      false), the intended behaviour does. */
  function TransferStoring(s: Ledger, cache: Option<RateCache>, input: TransferInput, now: int, fetch: FetchOutcome,
                           recordKey: bool): (st: FxStep<Transaction>)
    requires s.Valid()
    ensures st.ledger.Valid()
    ensures st.result.Err? ==> st.ledger == s
    // the idempotency lookup comes first, before the amount is even looked at
    ensures Replays(s, input.idempotencyKey) ==>
      st == FxStep(Ok(FindByKey(s.transactions, input.idempotencyKey.value).value), s, cache)
    // then the amount, the sender, the recipient, in that order
    ensures !Replays(s, input.idempotencyKey) && input.amount <= 0 ==>
      st == FxStep(Err(InvalidAmount), s, cache)
    ensures !Replays(s, input.idempotencyKey) && input.amount > 0 && input.senderId !in s.accounts ==>
      st == FxStep(Err(SenderNotFound), s, cache)
    ensures !Replays(s, input.idempotencyKey) && input.amount > 0 && input.senderId in s.accounts
            && AccountByNumber(s, input.toAccountNumber).None? ==>
      st == FxStep(Err(RecipientNotFound), s, cache)
    // a transfer to one's own account is refused without consulting the rate service
    ensures !Replays(s, input.idempotencyKey) && input.amount > 0 && input.senderId in s.accounts
            && AccountByNumber(s, input.toAccountNumber) == Some(input.senderId) ==>
      st == FxStep(Err(SameAccount), s, cache)
    // a transfer that is not a replay and succeeds appends exactly its own row
    ensures st.result.Ok? && !Replays(s, input.idempotencyKey) ==>
      st.ledger.transactions == s.transactions + [st.result.value]
      && st.result.value.key == StoredKey(input.idempotencyKey, recordKey)
    // otherwise the rate between the two currencies is looked up and the unit of work runs with it
    ensures !Replays(s, input.idempotencyKey) && input.amount > 0 && input.senderId in s.accounts
            && AccountByNumber(s, input.toAccountNumber).Some? ==>
      var toId := AccountByNumber(s, input.toAccountNumber).value;
      var lookup := LiveRate(cache, s.accounts[input.senderId].currency, s.accounts[toId].currency, now, fetch);
      && st.cache == lookup.cache
      && (lookup.result.Err? ==> st.result == Err(lookup.result.error))
      // the recipient is credited ceil(amount / rate)
      && (lookup.result.Ok? ==>
            Step(st.result, st.ledger)
            == TransferMove(s, input, toId, lookup.result.value, CeilDiv(input.amount, lookup.result.value), now,
                            StoredKey(input.idempotencyKey, recordKey)))
  {
    if Replays(s, input.idempotencyKey) then
      FxStep(Ok(FindByKey(s.transactions, input.idempotencyKey.value).value), s, cache)
    else if input.amount <= 0 then FxStep(Err(InvalidAmount), s, cache)
    else if input.senderId !in s.accounts then FxStep(Err(SenderNotFound), s, cache)
    else if AccountByNumber(s, input.toAccountNumber).None? then FxStep(Err(RecipientNotFound), s, cache)
    else
      var toId := AccountByNumber(s, input.toAccountNumber).value;
      var lookup := LiveRate(cache, s.accounts[input.senderId].currency, s.accounts[toId].currency, now, fetch);
      if lookup.result.Err? then FxStep(Err(lookup.result.error), s, lookup.cache)
      else
        var rate := lookup.result.value;
        var step := TransferMove(s, input, toId, rate, CeilDiv(input.amount, rate), now,
                                 StoredKey(input.idempotencyKey, recordKey));
        FxStep(step.result, step.ledger, lookup.cache)
  }

  /** `transferFunds` as written: the new row never carries the key. */
  function TransferAsWritten(s: Ledger, cache: Option<RateCache>, input: TransferInput, now: int, fetch: FetchOutcome): (st: FxStep<Transaction>)
    requires s.Valid()
  {
    TransferStoring(s, cache, input, now, fetch, false)
  }

  /** `transferFunds` as intended: the new row carries the caller's key, so
      the lookup at the start can find it. */
  function Transfer(s: Ledger, cache: Option<RateCache>, input: TransferInput, now: int, fetch: FetchOutcome): (st: FxStep<Transaction>)
    requires s.Valid()
  {
    TransferStoring(s, cache, input, now, fetch, true)
  }

  /** As written, a transfer that succeeded with a key leaves no row carrying
      that key, so a retry with the same input is not recognised: it is
      validated again and, when it succeeds, appends a second row. */
  lemma {:induction false} AsWrittenRetryReexecutes(s: Ledger, cache: Option<RateCache>, input: TransferInput,
                                                   now: int, fetch: FetchOutcome, later: int, fetch2: FetchOutcome)
    requires s.Valid() && Truthy(input.idempotencyKey) && !Replays(s, input.idempotencyKey)
    requires TransferAsWritten(s, cache, input, now, fetch).result.Ok?
    ensures var first := TransferAsWritten(s, cache, input, now, fetch);
      && !Replays(first.ledger, input.idempotencyKey)
      && var second := TransferAsWritten(first.ledger, first.cache, input, later, fetch2);
         second.result.Ok? ==> |second.ledger.transactions| == |s.transactions| + 2
  {
    var first := TransferAsWritten(s, cache, input, now, fetch);
    var t := first.result.value;
    FindByKeyAppend(s.transactions, t, input.idempotencyKey.value);
  }

  /** As intended, retrying a transfer that succeeded with a key returns the
      first call's transaction and changes nothing: one row, one movement. */
  lemma {:induction false} RetryReplays(s: Ledger, cache: Option<RateCache>, input: TransferInput,
                                       now: int, fetch: FetchOutcome, later: int, fetch2: FetchOutcome)
    requires s.Valid() && Truthy(input.idempotencyKey) && !Replays(s, input.idempotencyKey)
    requires Transfer(s, cache, input, now, fetch).result.Ok?
    ensures var first := Transfer(s, cache, input, now, fetch);
      Transfer(first.ledger, first.cache, input, later, fetch2) == first
  {
    var first := Transfer(s, cache, input, now, fetch);
    var t := first.result.value;
    FindByKeyAppend(s.transactions, t, input.idempotencyKey.value);
  }

  /** A same-currency transfer conserves the sum of all balances: the rate is
      1.0, so the credit equals the debit. */
  lemma {:induction false} SameCurrencyTransferConserves(s: Ledger, cache: Option<RateCache>, input: TransferInput,
                                                        now: int, fetch: FetchOutcome)
    requires s.Valid() && !Replays(s, input.idempotencyKey)
    requires Transfer(s, cache, input, now, fetch).result.Ok?
    requires var to := Transfer(s, cache, input, now, fetch).result.value.to;
      to.Some? && to.value in s.accounts && input.senderId in s.accounts
      && s.accounts[to.value].currency == s.accounts[input.senderId].currency
    ensures TotalBalance(Transfer(s, cache, input, now, fetch).ledger.accounts) == TotalBalance(s.accounts)
  {
    var st := Transfer(s, cache, input, now, fetch);
    var toId := AccountByNumber(s, input.toAccountNumber).value;
    WholeAmountsUnchanged(input.amount);
    MovedTotal(s.accounts, st.ledger.accounts, input.senderId, toId, input.amount, input.amount);
  }

  // ----------------------------------------------------------------- deposit

  /** The unit of work of `depositFunds` once the treasury `bankId`, the user
      `userId`, the rate and the converted debit are known. The user is
      credited the amount, the treasury debited `debit`. `recordsAmount` says
      whether the build stores the debit in the transaction's amount column. */
  function DepositMove(s: Ledger, input: DepositInput, bankId: AccountId, userId: AccountId, rate: real,
                       debit: int, now: int, recordsAmount: bool): (st: Step<Transaction>)
    requires s.Valid() && bankId in s.accounts && userId in s.accounts
    ensures st.ledger.Valid()
    ensures st.result.Err? ==> st.ledger == s
    ensures st.result.Ok? <==> s.accounts[bankId].balance >= debit
    ensures st.result.Err? ==>
      st.result.error == TreasuryInsufficientFunds(debit, s.accounts[bankId].currency)
    ensures st.result.Ok? ==>
      var t := st.result.value;
      && Moved(s.accounts, st.ledger.accounts, bankId, userId, debit, input.amount)
      && t.debit == Entry(bankId, -debit)
      && t.credit == Entry(userId, input.amount)
      && t.amount == (if recordsAmount then Some(debit) else None)
      && t.memo == TreasuryDeposit(rate) && t.exchangeRate == Some(rate)
      && t.from == Some(bankId) && t.to == Some(userId)
      && t.currency == s.accounts[bankId].currency
      && t.targetCurrency == Some(s.accounts[userId].currency)
      && t.key == None && t.status == Posted && t.id == s.nextId
      && t.reference == ChooseReference(input.reference, "DEP-FX-", now)
      && st.ledger == s.(accounts := st.ledger.accounts, transactions := s.transactions + [t], nextId := s.nextId + 1)
  {
    var bank := s.accounts[bankId];
    if bank.balance < debit then Step(Err(TreasuryInsufficientFunds(debit, bank.currency)), s)
    else
      var t := DepositRow(s, input, bankId, userId, rate, debit, now, recordsAmount);
      Step(Ok(t), Post(s, t, bankId, userId, debit, input.amount))
  }

  /** `depositFunds`: the treasury, the account whose email is BANK_EMAIL (the
      empty string stands for an unset variable), pays the user. */
  function Deposit(s: Ledger, cache: Option<RateCache>, input: DepositInput, bankEmail: string,
                   now: int, fetch: FetchOutcome, recordsAmount: bool): (st: FxStep<Transaction>)
    requires s.Valid()
    ensures st.ledger.Valid()
    ensures st.result.Err? ==> st.ledger == s
    ensures input.amount <= 0 ==> st == FxStep(Err(InvalidAmount), s, cache)
    ensures input.amount > MaxTransactionLimit ==> st == FxStep(Err(LimitExceeded), s, cache)
    ensures 0 < input.amount <= MaxTransactionLimit && bankEmail == "" ==>
      st == FxStep(Err(TreasuryNotConfigured), s, cache)
    ensures 0 < input.amount <= MaxTransactionLimit && bankEmail != "" && AccountByEmail(s, bankEmail).None? ==>
      st == FxStep(Err(TreasuryNotFound), s, cache)
    ensures 0 < input.amount <= MaxTransactionLimit && bankEmail != "" && AccountByEmail(s, bankEmail).Some?
            && AccountByNumber(s, input.toAccountNumber).None? ==>
      st == FxStep(Err(RecipientNotFound), s, cache)
    ensures 0 < input.amount <= MaxTransactionLimit && bankEmail != "" && AccountByEmail(s, bankEmail).Some?
            && AccountByNumber(s, input.toAccountNumber).Some? ==>
      var bankId := AccountByEmail(s, bankEmail).value;
      var userId := AccountByNumber(s, input.toAccountNumber).value;
      var lookup := LiveRate(cache, s.accounts[bankId].currency, s.accounts[userId].currency, now, fetch);
      && st.cache == lookup.cache
      && (lookup.result.Err? ==> st.result == Err(lookup.result.error))
      // the treasury is debited ceil(amount / rate)
      && (lookup.result.Ok? ==>
            Step(st.result, st.ledger)
            == DepositMove(s, input, bankId, userId, lookup.result.value,
                           CeilDiv(input.amount, lookup.result.value), now, recordsAmount))
    // every successful deposit stays within the per-transaction limit
    ensures st.result.Ok? ==> 0 < input.amount <= MaxTransactionLimit
  {
    if input.amount <= 0 then FxStep(Err(InvalidAmount), s, cache)
    else if input.amount > MaxTransactionLimit then FxStep(Err(LimitExceeded), s, cache)
    else if bankEmail == "" then FxStep(Err(TreasuryNotConfigured), s, cache)
    else if AccountByEmail(s, bankEmail).None? then FxStep(Err(TreasuryNotFound), s, cache)
    else if AccountByNumber(s, input.toAccountNumber).None? then FxStep(Err(RecipientNotFound), s, cache)
    else
      var bankId := AccountByEmail(s, bankEmail).value;
      var userId := AccountByNumber(s, input.toAccountNumber).value;
      var lookup := LiveRate(cache, s.accounts[bankId].currency, s.accounts[userId].currency, now, fetch);
      if lookup.result.Err? then FxStep(Err(lookup.result.error), s, lookup.cache)
      else
        var rate := lookup.result.value;
        var step := DepositMove(s, input, bankId, userId, rate, CeilDiv(input.amount, rate), now, recordsAmount);
        FxStep(step.result, step.ledger, lookup.cache)
  }

  // ------------------------------------------------------------------ charge

  /** The unit of work of `chargePayment` once the seller, the rate and the
      converted credit are known: the buyer pays the amount, the seller gains
      the credit. */
  function ChargeMove(s: Ledger, input: ChargeInput, sellerId: AccountId, rate: real, credit: int, now: int): (st: Step<Transaction>)
    requires s.Valid() && input.buyerId in s.accounts && sellerId in s.accounts
    ensures st.ledger.Valid()
    ensures st.result.Err? ==> st.ledger == s
    // no overdraft here: the balance alone decides
    ensures st.result.Ok? <==> s.accounts[input.buyerId].balance >= input.amount
    ensures st.result.Err? ==>
      st.result.error == InsufficientFunds(s.accounts[input.buyerId].balance, input.amount)
    ensures st.result.Ok? ==>
      var t := st.result.value;
      && Moved(s.accounts, st.ledger.accounts, input.buyerId, sellerId, input.amount, credit)
      && t.debit == Entry(input.buyerId, -input.amount)
      && t.credit == Entry(sellerId, credit)
      && t.memo == ChargeMemo(input.description)
      && t.from == Some(input.buyerId) && t.to == Some(sellerId)
      && t.exchangeRate == Some(rate)
      && t.currency == s.accounts[input.buyerId].currency
      && t.targetCurrency == Some(s.accounts[sellerId].currency)
      && t.key == None && t.status == Posted && t.id == s.nextId && t.kind == Plain && t.amount == None
      && t.reference == ChooseReference(input.reference, "CHG-", now)
      && st.ledger == s.(accounts := st.ledger.accounts, transactions := s.transactions + [t], nextId := s.nextId + 1)
  {
    var buyer := s.accounts[input.buyerId];
    if buyer.balance < input.amount then Step(Err(InsufficientFunds(buyer.balance, input.amount)), s)
    else
      var t := ChargeRow(s, input, sellerId, rate, credit, now);
      Step(Ok(t), Post(s, t, input.buyerId, sellerId, input.amount, credit))
  }

  /** `chargePayment`: the buyer pays a seller found by account number. */
  function Charge(s: Ledger, cache: Option<RateCache>, input: ChargeInput, now: int, fetch: FetchOutcome): (st: FxStep<Transaction>)
    requires s.Valid()
    ensures st.ledger.Valid()
    ensures st.result.Err? ==> st.ledger == s
    ensures input.amount <= 0 ==> st == FxStep(Err(InvalidAmount), s, cache)
    ensures input.amount > MaxTransactionLimit ==> st == FxStep(Err(LimitExceeded), s, cache)
    ensures 0 < input.amount <= MaxTransactionLimit && input.buyerId !in s.accounts ==>
      st == FxStep(Err(BuyerNotFound), s, cache)
    ensures 0 < input.amount <= MaxTransactionLimit && input.buyerId in s.accounts
            && AccountByNumber(s, input.sellerAccountNumber).None? ==>
      st == FxStep(Err(SellerNotFound), s, cache)
    // the self-charge check comes before the rate lookup
    ensures 0 < input.amount <= MaxTransactionLimit && input.buyerId in s.accounts
            && AccountByNumber(s, input.sellerAccountNumber) == Some(input.buyerId) ==>
      st == FxStep(Err(SameAccount), s, cache)
    ensures 0 < input.amount <= MaxTransactionLimit && input.buyerId in s.accounts
            && AccountByNumber(s, input.sellerAccountNumber).Some?
            && AccountByNumber(s, input.sellerAccountNumber) != Some(input.buyerId) ==>
      var sellerId := AccountByNumber(s, input.sellerAccountNumber).value;
      var lookup := LiveRate(cache, s.accounts[input.buyerId].currency, s.accounts[sellerId].currency, now, fetch);
      && st.cache == lookup.cache
      && (lookup.result.Err? ==> st.result == Err(lookup.result.error))
      // the seller is credited floor(amount * rate)
      && (lookup.result.Ok? ==>
            Step(st.result, st.ledger)
            == ChargeMove(s, input, sellerId, lookup.result.value, FloorMul(input.amount, lookup.result.value), now))
    ensures st.result.Ok? ==> 0 < input.amount <= MaxTransactionLimit
  {
    if input.amount <= 0 then FxStep(Err(InvalidAmount), s, cache)
    else if input.amount > MaxTransactionLimit then FxStep(Err(LimitExceeded), s, cache)
    else if input.buyerId !in s.accounts then FxStep(Err(BuyerNotFound), s, cache)
    else if AccountByNumber(s, input.sellerAccountNumber).None? then FxStep(Err(SellerNotFound), s, cache)
    else
      var sellerId := AccountByNumber(s, input.sellerAccountNumber).value;
      if input.buyerId == sellerId then FxStep(Err(SameAccount), s, cache)
      else
        var lookup := LiveRate(cache, s.accounts[input.buyerId].currency, s.accounts[sellerId].currency, now, fetch);
        if lookup.result.Err? then FxStep(Err(lookup.result.error), s, lookup.cache)
        else
          var rate := lookup.result.value;
          var step := ChargeMove(s, input, sellerId, rate, FloorMul(input.amount, rate), now);
          FxStep(step.result, step.ledger, lookup.cache)
  }

  // ----------------------------------------------------------------- methods

  /** `transferFunds`: the caller's key is looked up first and, when
      `recordKey` is set, stored on the new row. The code as written does not
      store it (`recordKey` false, `TransferAsWritten`); storing it is the
      intended behaviour (`Transfer`). */
  method TransferFunds(db: Store, fx: ExchangeService, input: TransferInput, now: int, fetch: FetchOutcome,
                       recordKey: bool)
    returns (r: Result<Transaction>)
    requires db.View().Valid()
    modifies db, fx
    ensures var st := TransferStoring(old(db.View()), old(fx.cache), input, now, fetch, recordKey);
      r == st.result && db.View() == st.ledger && fx.cache == st.cache
  {
    if Truthy(input.idempotencyKey) {
      var existing := FindByKey(db.transactions, input.idempotencyKey.value);
      if existing.Some? {
        return Ok(existing.value);
      }
    }
    if input.amount <= 0 {
      return Err(InvalidAmount);
    }
    var recipient := AccountByNumber(db.View(), input.toAccountNumber);
    if input.senderId !in db.accounts {
      return Err(SenderNotFound);
    }
    if recipient.None? {
      return Err(RecipientNotFound);
    }
    var sender := db.accounts[input.senderId];
    var toAccountId := recipient.value;
    var target := db.accounts[toAccountId];
    var exchangeRate := 1.0;
    if sender.currency != target.currency {
      var fetched := fx.GetLiveRate(sender.currency, target.currency, now, fetch);
      if fetched.Err? {
        return Err(fetched.error);
      }
      exchangeRate := fetched.value;
    }
    var creditAmount := CeilDiv(input.amount, exchangeRate);
    r := MoveFunds(db, input, toAccountId, exchangeRate, creditAmount, now, StoredKey(input.idempotencyKey, recordKey));
  }

  /** The unit of work of `transferFunds`: re-read the sender, check, move
      both legs, record. */
  method MoveFunds(db: Store, input: TransferInput, toAccountId: AccountId, exchangeRate: real, creditAmount: int, now: int,
                   key: Option<string>)
    returns (r: Result<Transaction>)
    requires db.View().Valid() && input.senderId in db.accounts && toAccountId in db.accounts
    requires !KeyTaken(db.transactions, key)
    modifies db
    ensures var st := TransferMove(old(db.View()), input, toAccountId, exchangeRate, creditAmount, now, key);
      r == st.result && db.View() == st.ledger
  {
    if input.senderId == toAccountId {
      return Err(SameAccount);
    }
    var live := db.accounts[input.senderId];
    if !live.allowOverdraft && live.balance < input.amount {
      return Err(InsufficientFunds(live.balance, input.amount));
    }
    if live.balance < input.amount {
      return Err(InsufficientFundsNeeds(input.amount, live.currency));
    }
    var t := TransferRow(db.View(), input, toAccountId, exchangeRate, now, key);
    db.PostMovement(t, input.senderId, toAccountId, input.amount, creditAmount);
    return Ok(t);
  }

  /** The deposit procedure shared by both builds; `recordsAmount` is whether
      the build writes the debit into the transaction's amount column. */
  method PostDeposit(db: Store, fx: ExchangeService, input: DepositInput, bankEmail: string,
                     now: int, fetch: FetchOutcome, recordsAmount: bool) returns (r: Result<Transaction>)
    requires db.View().Valid()
    modifies db, fx
    ensures var st := Deposit(old(db.View()), old(fx.cache), input, bankEmail, now, fetch, recordsAmount);
      r == st.result && db.View() == st.ledger && fx.cache == st.cache
  {
    if input.amount <= 0 {
      return Err(InvalidAmount);
    }
    if input.amount > MaxTransactionLimit {
      return Err(LimitExceeded);
    }
    if bankEmail == "" {
      return Err(TreasuryNotConfigured);
    }
    var bankPreview := AccountByEmail(db.View(), bankEmail);
    if bankPreview.None? {
      return Err(TreasuryNotFound);
    }
    var bankId := bankPreview.value;
    var userPreview := AccountByNumber(db.View(), input.toAccountNumber);
    if userPreview.None? {
      return Err(RecipientNotFound);
    }
    var toAccountId := userPreview.value;
    var bankCurrency := db.accounts[bankId].currency;
    var userCurrency := db.accounts[toAccountId].currency;
    var exchangeRate := 1.0;
    if bankCurrency != userCurrency {
      var fetched := fx.GetLiveRate(bankCurrency, userCurrency, now, fetch);
      if fetched.Err? {
        return Err(fetched.error);
      }
      exchangeRate := fetched.value;
    }
    var debitAmount := CeilDiv(input.amount, exchangeRate);
    r := MoveDeposit(db, input, bankId, toAccountId, exchangeRate, debitAmount, now, recordsAmount);
  }

  /** The unit of work of `depositFunds`: check the treasury's balance, move
      both legs, record. */
  method MoveDeposit(db: Store, input: DepositInput, bankId: AccountId, toAccountId: AccountId,
                     exchangeRate: real, debitAmount: int, now: int, recordsAmount: bool) returns (r: Result<Transaction>)
    requires db.View().Valid() && bankId in db.accounts && toAccountId in db.accounts
    modifies db
    ensures var st := DepositMove(old(db.View()), input, bankId, toAccountId, exchangeRate, debitAmount, now, recordsAmount);
      r == st.result && db.View() == st.ledger
  {
    var creditAmount := input.amount;
    var bank := db.accounts[bankId];
    if bank.balance < debitAmount {
      return Err(TreasuryInsufficientFunds(debitAmount, bank.currency));
    }
    var t := DepositRow(db.View(), input, bankId, toAccountId, exchangeRate, debitAmount, now, recordsAmount);
    db.PostMovement(t, bankId, toAccountId, debitAmount, creditAmount);
    return Ok(t);
  }

  method DepositFunds(db: Store, fx: ExchangeService, input: DepositInput, bankEmail: string,
                      now: int, fetch: FetchOutcome) returns (r: Result<Transaction>)
    requires db.View().Valid()
    modifies db, fx
    ensures var st := Deposit(old(db.View()), old(fx.cache), input, bankEmail, now, fetch, true);
      r == st.result && db.View() == st.ledger && fx.cache == st.cache
  {
    r := PostDeposit(db, fx, input, bankEmail, now, fetch, true);
  }

  method ChargePayment(db: Store, fx: ExchangeService, input: ChargeInput, now: int, fetch: FetchOutcome)
    returns (r: Result<Transaction>)
    requires db.View().Valid()
    modifies db, fx
    ensures var st := Charge(old(db.View()), old(fx.cache), input, now, fetch);
      r == st.result && db.View() == st.ledger && fx.cache == st.cache
  {
    if input.amount <= 0 {
      return Err(InvalidAmount);
    }
    if input.amount > MaxTransactionLimit {
      return Err(LimitExceeded);
    }
    var buyerFound := input.buyerId in db.accounts;
    var seller := AccountByNumber(db.View(), input.sellerAccountNumber);
    if !buyerFound {
      return Err(BuyerNotFound);
    }
    if seller.None? {
      return Err(SellerNotFound);
    }
    var sellerId := seller.value;
    if input.buyerId == sellerId {
      return Err(SameAccount);
    }
    var buyerCurrency := db.accounts[input.buyerId].currency;
    var sellerCurrency := db.accounts[sellerId].currency;
    var exchangeRate := 1.0;
    if buyerCurrency != sellerCurrency {
      var fetched := fx.GetLiveRate(buyerCurrency, sellerCurrency, now, fetch);
      if fetched.Err? {
        return Err(fetched.error);
      }
      exchangeRate := fetched.value;
    }
    var creditAmount := FloorMul(input.amount, exchangeRate);
    r := MoveCharge(db, input, sellerId, exchangeRate, creditAmount, now);
  }

  /** The unit of work of `chargePayment`: check the buyer's balance, move
      both legs, record. */
  method MoveCharge(db: Store, input: ChargeInput, sellerId: AccountId, exchangeRate: real, creditAmount: int, now: int)
    returns (r: Result<Transaction>)
    requires db.View().Valid() && input.buyerId in db.accounts && sellerId in db.accounts
    modifies db
    ensures var st := ChargeMove(old(db.View()), input, sellerId, exchangeRate, creditAmount, now);
      r == st.result && db.View() == st.ledger
  {
    var debitAmount := input.amount;
    var buyerAccount := db.accounts[input.buyerId];
    if buyerAccount.balance < debitAmount {
      return Err(InsufficientFunds(buyerAccount.balance, debitAmount));
    }
    var t := ChargeRow(db.View(), input, sellerId, exchangeRate, creditAmount, now);
    db.PostMovement(t, input.buyerId, sellerId, debitAmount, creditAmount);
    return Ok(t);
  }
}
