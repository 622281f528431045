/** The earlier revision of the invoice service: no webhook endpoint, no
    expiry, no idempotency key and no outbox. Only a PAID invoice is refused;
    a payer who cannot cover the invoice gets an error and nothing changes.
    The PIN is compared with the stored one as a plain string. */
module InvoiceEarliest {
  import opened Base
  import opened Ledger
  import InvoiceOutbox

  datatype CreateInput = CreateInput(creditorId: AccountId, amount: int, reference: Option<string>, description: Option<string>)

  datatype PayInput = PayInput(invoiceId: RowId, payerId: AccountId, pin: string)

  /** The same request in the form the current revision takes: no endpoint, no expiry. */
  function Current(input: CreateInput): InvoiceOutbox.CreateInput {
    InvoiceOutbox.CreateInput(input.creditorId, input.amount, input.reference, input.description, None, None)
  }

  /** `createInvoice`: the same checks as the current revision, and the same
      shadowed default reference, so the stored reference is the one given. */
  function Create(s: Ledger, input: CreateInput): (st: Step<Invoice>)
    requires s.Valid()
    ensures st.ledger.Valid()
    ensures st.result.Err? ==> st.ledger == s
    ensures input.amount <= 0 ==> st.result == Err(InvalidAmount)
    ensures input.amount > 0 && input.creditorId !in s.accounts ==> st.result == Err(CreditorNotFound)
    ensures input.amount > 0 && input.creditorId in s.accounts && !Truthy(input.description) ==>
      st.result == Err(MissingDescription)
    ensures st.result.Ok? <==> input.amount > 0 && input.creditorId in s.accounts && Truthy(input.description)
    ensures st.result.Ok? ==>
      var inv := st.result.value;
      && inv.id !in s.invoices
      && st.ledger == s.(invoices := s.invoices[inv.id := inv], nextId := s.nextId + 1)
      && inv.reference == input.reference && inv.amount == input.amount && inv.creditor == input.creditorId
      && inv.description == input.description.value
      && inv.status == Pending && inv.paidAt == None
      // this revision records neither an endpoint nor an expiry
      && inv.webhookUrl == None && inv.expiresAt == None
  {
    InvoiceOutbox.Create(s, Current(input))
  }

  /** The transaction row of a payment: no idempotency key. */
  function PaymentRow(s: Ledger, input: PayInput, inv: Invoice): Transaction
    requires input.payerId in s.accounts
  {
    Transaction(s.nextId, None, InvoiceReference(inv.reference), InvoicePayment,
                s.accounts[input.payerId].currency, None, None, Some(inv.amount), NoMemo, Posted,
                Some(input.payerId), Some(inv.creditor),
                Entry(input.payerId, -inv.amount), Entry(inv.creditor, inv.amount))
  }

  /** `payInvoice`. */
  function Pay(s: Ledger, input: PayInput, now: int): (st: Step<Invoice>)
    requires s.Valid()
    ensures st.ledger.Valid()
    ensures st.result.Err? ==> st.ledger == s
    // rejected in this order: the invoice, a PAID status, the payer, the PIN, the balance
    ensures input.invoiceId !in s.invoices ==> st.result == Err(InvoiceNotFound)
    ensures input.invoiceId in s.invoices && s.invoices[input.invoiceId].status == Paid ==>
      st.result == Err(InvoiceAlreadyPaid)
    ensures input.invoiceId in s.invoices && s.invoices[input.invoiceId].status != Paid
            && input.payerId !in s.accounts ==>
      st.result == Err(PayerNotFound)
    ensures input.invoiceId in s.invoices && s.invoices[input.invoiceId].status != Paid
            && input.payerId in s.accounts && s.accounts[input.payerId].pin != input.pin ==>
      st.result == Err(InvalidPin)
    ensures input.invoiceId in s.invoices && s.invoices[input.invoiceId].status != Paid
            && input.payerId in s.accounts && s.accounts[input.payerId].pin == input.pin
            && s.accounts[input.payerId].balance < s.invoices[input.invoiceId].amount ==>
      st.result == Err(PayerInsufficientFunds)
    // PENDING, FAILED and EXPIRED invoices are all payable
    ensures st.result.Ok? <==>
      && input.invoiceId in s.invoices && s.invoices[input.invoiceId].status != Paid
      && input.payerId in s.accounts && s.accounts[input.payerId].pin == input.pin
      && s.accounts[input.payerId].balance >= s.invoices[input.invoiceId].amount
    ensures st.result.Ok? ==>
      var inv := s.invoices[input.invoiceId];
      var paid := st.result.value;
      var t := PaymentRow(s, input, inv);
      && paid == inv.(status := Paid, paidAt := Some(now))
      && Moved(s.accounts, st.ledger.accounts, input.payerId, inv.creditor, inv.amount, inv.amount)
      && st.ledger.transactions == s.transactions + [t]
      && t.key == None
      && t.debit == Entry(input.payerId, -inv.amount) && t.credit == Entry(inv.creditor, inv.amount)
      && t.amount == Some(inv.amount) && t.kind == InvoicePayment && t.status == Posted
      && st.ledger.invoices == s.invoices[input.invoiceId := paid]
      && st.ledger.events == s.events
  {
    if input.invoiceId !in s.invoices then Step(Err(InvoiceNotFound), s)
    else
      var inv := s.invoices[input.invoiceId];
      if inv.status == Paid then Step(Err(InvoiceAlreadyPaid), s)
      else if input.payerId !in s.accounts then Step(Err(PayerNotFound), s)
      else if s.accounts[input.payerId].pin != input.pin then Step(Err(InvalidPin), s)
      else if s.accounts[input.payerId].balance < inv.amount then Step(Err(PayerInsufficientFunds), s)
      else
        var paid := inv.(status := Paid, paidAt := Some(now));
        var posted := Post(s, PaymentRow(s, input, inv), input.payerId, inv.creditor, inv.amount, inv.amount);
        Step(Ok(paid), posted.(invoices := posted.invoices[inv.id := paid]))
  }

  // ------------------------------------------------------------------ lemmas

  /** A second payment of a paid invoice, by anyone, is refused and changes nothing. */
  lemma PayTwiceRejected(s: Ledger, input: PayInput, now: int, other: PayInput, later: int)
    requires s.Valid() && Pay(s, input, now).result.Ok? && other.invoiceId == input.invoiceId
    ensures var first := Pay(s, input, now);
      Pay(first.ledger, other, later) == Step(Err(InvoiceAlreadyPaid), first.ledger)
  {
  }

  /** Unlike the current revision, a FAILED or EXPIRED invoice can still be
      paid: the status check refuses PAID only. */
  lemma FailedOrExpiredStillPayable(s: Ledger, input: PayInput, now: int)
    requires s.Valid() && input.invoiceId in s.invoices && s.invoices[input.invoiceId].status in {Failed, Expired}
    requires input.payerId in s.accounts && s.accounts[input.payerId].pin == input.pin
    requires s.accounts[input.payerId].balance >= s.invoices[input.invoiceId].amount
    ensures Pay(s, input, now).result.Ok?
    ensures Pay(s, input, now).result.value.status == Paid
  {
  }

  /** A payment preserves the sum of all balances. */
  lemma {:induction false} PaymentConserves(s: Ledger, input: PayInput, now: int)
    requires s.Valid()
    ensures TotalBalance(Pay(s, input, now).ledger.accounts) == TotalBalance(s.accounts)
  {
    var st := Pay(s, input, now);
    if st.result.Ok? {
      var inv := s.invoices[input.invoiceId];
      MovedTotal(s.accounts, st.ledger.accounts, input.payerId, inv.creditor, inv.amount, inv.amount);
    }
  }

  // ----------------------------------------------------------------- methods

  method CreateInvoice(db: Store, input: CreateInput) returns (r: Result<Invoice>)
    requires db.View().Valid()
    modifies db
    ensures var st := Create(old(db.View()), input); r == st.result && db.View() == st.ledger
  {
    r := InvoiceOutbox.CreateInvoice(db, Current(input));
  }

  method PayInvoice(db: Store, input: PayInput, now: int) returns (r: Result<Invoice>)
    requires db.View().Valid()
    modifies db
    ensures var st := Pay(old(db.View()), input, now); r == st.result && db.View() == st.ledger
  {
    if input.invoiceId !in db.invoices {
      return Err(InvoiceNotFound);
    }
    var invoice := db.invoices[input.invoiceId];
    if invoice.status == Paid {
      return Err(InvoiceAlreadyPaid);
    }
    if input.payerId !in db.accounts {
      return Err(PayerNotFound);
    }
    var payer := db.accounts[input.payerId];
    if payer.pin != input.pin {
      return Err(InvalidPin);
    }
    if payer.balance < invoice.amount {
      return Err(PayerInsufficientFunds);
    }
    var paid := invoice.(status := Paid, paidAt := Some(now));
    var t := PaymentRow(db.View(), input, invoice);
    db.PostMovement(t, input.payerId, invoice.creditor, invoice.amount, invoice.amount);
    db.PutInvoice(paid);
    return Ok(paid);
  }
}
