/** The earliest revision of `transferFunds`: same-currency only, addressed by
    account ids, with no idempotency key, no limit and no rate lookup. */
module TransferEarliest {
  import opened Base
  import opened Ledger

  datatype TransferInput = TransferInput(
    fromAccountId: AccountId, toAccountId: AccountId, amount: int,
    description: Option<string>, reference: string)

  /** The row this revision writes: no parties, rate or target currency. */
  function TransferRow(s: Ledger, input: TransferInput, now: int): Transaction
    requires input.fromAccountId in s.accounts
  {
    Transaction(s.nextId, None, ChooseReference(input.reference, "REF-", now), Plain,
                s.accounts[input.fromAccountId].currency, None, None, None,
                if input.description.Some? then Text(input.description.value) else NoMemo,
                Posted, None, None,
                Entry(input.fromAccountId, -input.amount), Entry(input.toAccountId, input.amount))
  }

  /** `transferFunds`. */
  function Transfer(s: Ledger, input: TransferInput, now: int): (st: Step<Transaction>)
    requires s.Valid()
    ensures st.ledger.Valid()
    ensures st.result.Err? ==> st.ledger == s
    // checks in the order the code makes them
    ensures input.amount <= 0 ==> st.result == Err(InvalidAmount)
    ensures input.amount > 0 && input.fromAccountId == input.toAccountId ==> st.result == Err(SameAccount)
    ensures input.amount > 0 && input.fromAccountId != input.toAccountId && input.fromAccountId !in s.accounts ==>
      st.result == Err(SenderNotFound)
    ensures input.amount > 0 && input.fromAccountId != input.toAccountId && input.fromAccountId in s.accounts
            && !s.accounts[input.fromAccountId].allowOverdraft && s.accounts[input.fromAccountId].balance < input.amount ==>
      st.result == Err(InsufficientFunds(s.accounts[input.fromAccountId].balance, input.amount))
    // the recipient is checked last, by its update failing inside the unit of work
    ensures input.amount > 0 && input.fromAccountId != input.toAccountId && input.fromAccountId in s.accounts
            && (s.accounts[input.fromAccountId].allowOverdraft || s.accounts[input.fromAccountId].balance >= input.amount)
            && input.toAccountId !in s.accounts ==>
      st.result == Err(RecipientNotFound)
    // success exactly when every check passes; an account that allows
    // overdraft may be taken below zero
    ensures st.result.Ok? <==>
      && input.amount > 0 && input.fromAccountId != input.toAccountId
      && input.fromAccountId in s.accounts && input.toAccountId in s.accounts
      && (s.accounts[input.fromAccountId].allowOverdraft || s.accounts[input.fromAccountId].balance >= input.amount)
    ensures st.result.Ok? ==>
      var t := st.result.value;
      // the same amount leaves one account and enters the other
      && Moved(s.accounts, st.ledger.accounts, input.fromAccountId, input.toAccountId, input.amount, input.amount)
      && t.debit == Entry(input.fromAccountId, -input.amount)
      && t.credit == Entry(input.toAccountId, input.amount)
      && t.currency == s.accounts[input.fromAccountId].currency
      && t.key == None && t.status == Posted && t.id == s.nextId
      && t.reference == ChooseReference(input.reference, "REF-", now)
      // the caller's description is kept; no parties, rate, target currency or amount column
      && t.memo == (if input.description.Some? then Text(input.description.value) else NoMemo)
      && t.kind == Plain && t.from == None && t.to == None
      && t.targetCurrency == None && t.exchangeRate == None && t.amount == None
      && st.ledger == s.(accounts := st.ledger.accounts, transactions := s.transactions + [t], nextId := s.nextId + 1)
  {
    if input.amount <= 0 then Step(Err(InvalidAmount), s)
    else if input.fromAccountId == input.toAccountId then Step(Err(SameAccount), s)
    else if input.fromAccountId !in s.accounts then Step(Err(SenderNotFound), s)
    else
      var sender := s.accounts[input.fromAccountId];
      if !sender.allowOverdraft && sender.balance < input.amount then
        Step(Err(InsufficientFunds(sender.balance, input.amount)), s)
      else if input.toAccountId !in s.accounts then Step(Err(RecipientNotFound), s)
      else
        var t := TransferRow(s, input, now);
        Step(Ok(t), Post(s, t, input.fromAccountId, input.toAccountId, input.amount, input.amount))
  }

  /** Every transfer conserves the sum of all balances. */
  lemma {:induction false} TransferConserves(s: Ledger, input: TransferInput, now: int)
    requires s.Valid()
    ensures TotalBalance(Transfer(s, input, now).ledger.accounts) == TotalBalance(s.accounts)
  {
    var st := Transfer(s, input, now);
    if st.result.Ok? {
      MovedTotal(s.accounts, st.ledger.accounts, input.fromAccountId, input.toAccountId, input.amount, input.amount);
    }
  }

  /** An account that does not allow overdraft never goes from a non-negative
      balance to a negative one. */
  lemma {:induction false} NoOverdraftKeepsBalance(s: Ledger, input: TransferInput, now: int)
    requires s.Valid() && input.fromAccountId in s.accounts
    requires !s.accounts[input.fromAccountId].allowOverdraft && s.accounts[input.fromAccountId].balance >= 0
    ensures Transfer(s, input, now).ledger.accounts[input.fromAccountId].balance >= 0
  {
    var st := Transfer(s, input, now);
    if st.result.Ok? {
      assert st.ledger.accounts[input.fromAccountId].balance
          == s.accounts[input.fromAccountId].balance - input.amount;
    }
  }

  method TransferFunds(db: Store, input: TransferInput, now: int) returns (r: Result<Transaction>)
    requires db.View().Valid()
    modifies db
    ensures var st := Transfer(old(db.View()), input, now);
      r == st.result && db.View() == st.ledger
  {
    if input.amount <= 0 {
      return Err(InvalidAmount);
    }
    if input.fromAccountId == input.toAccountId {
      return Err(SameAccount);
    }
    // the unit of work
    if input.fromAccountId !in db.accounts {
      return Err(SenderNotFound);
    }
    var sender := db.accounts[input.fromAccountId];
    if !sender.allowOverdraft && sender.balance < input.amount {
      return Err(InsufficientFunds(sender.balance, input.amount));
    }
    if input.toAccountId !in db.accounts {
      // the sender's decrement has been written when the recipient's
      // increment fails; the unit of work is rolled back
      var snapshot := db.View();
      db.UpdateBalance(input.fromAccountId, -input.amount);
      db.Restore(snapshot);
      return Err(RecipientNotFound);
    }
    var t := TransferRow(db.View(), input, now);
    db.PostMovement(t, input.fromAccountId, input.toAccountId, input.amount, input.amount);
    return Ok(t);
  }
}
