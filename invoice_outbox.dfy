/** The invoice service of the current build: a creditor issues an invoice,
    a payer settles it with a PIN, and every settlement outcome is recorded
    in the webhook outbox inside the same unit of work. An invoice moves from
    PENDING to PAID, or to FAILED when the payer cannot cover it; the FAILED
    outcome is committed, not thrown. */
module InvoiceOutbox {
  import opened Base
  import opened Ledger

  datatype CreateInput = CreateInput(
    creditorId: AccountId, amount: int, reference: Option<string>,
    description: Option<string>, webhookUrl: Option<string>, expiresAt: Option<int>)

  /** A payment request; `pinValid` is the outcome of comparing the PIN with
      the payer's stored hash. */
  datatype PayInput = PayInput(invoiceId: RowId, payerId: AccountId, pinValid: bool, idempotencyKey: Option<string>)

  /** `new Date() > invoice.expiresAt`: an invoice without an expiry never lapses. */
  predicate PastDue(inv: Invoice, now: int) {
    inv.expiresAt.Some? && now > inv.expiresAt.value
  }

  /** The outbox row announcing that the invoice could not be paid. */
  function FailedEvent(id: RowId, inv: Invoice, now: int): WebhookEvent {
    WebhookEvent(id, inv.webhookUrl, InvoicePaymentFailedEvent(inv.id, inv.reference, "Insufficient funds"),
                 EventPending, 0, None, now)
  }

  /** The outbox row announcing that the invoice was paid. */
  function PaidEvent(id: RowId, inv: Invoice, now: int): WebhookEvent {
    WebhookEvent(id, inv.webhookUrl, InvoicePaidEvent(inv.id, inv.reference), EventPending, 0, None, now)
  }

  /** The transaction row of a payment: it carries the caller's key as given. */
  function PaymentRow(s: Ledger, input: PayInput, inv: Invoice): Transaction
    requires input.payerId in s.accounts
  {
    Transaction(s.nextId, input.idempotencyKey, InvoiceReference(inv.reference), InvoicePayment,
                s.accounts[input.payerId].currency, None, None, Some(inv.amount), NoMemo, Posted,
                Some(input.payerId), Some(inv.creditor),
                Entry(input.payerId, -inv.amount), Entry(inv.creditor, inv.amount))
  }

  // ------------------------------------------------------------ createInvoice

  /** `createInvoice`. The default reference the code computes is bound to a
      local that shadows the parameter and is never read, so the invoice
      keeps exactly the reference it was given. */
  function Create(s: Ledger, input: CreateInput): (st: Step<Invoice>)
    requires s.Valid()
    ensures st.ledger.Valid()
    ensures st.result.Err? ==> st.ledger == s
    // rejected in this order: amount, creditor, description
    ensures input.amount <= 0 ==> st.result == Err(InvalidAmount)
    ensures input.amount > 0 && input.creditorId !in s.accounts ==> st.result == Err(CreditorNotFound)
    ensures input.amount > 0 && input.creditorId in s.accounts && !Truthy(input.description) ==>
      st.result == Err(MissingDescription)
    ensures st.result.Ok? <==> input.amount > 0 && input.creditorId in s.accounts && Truthy(input.description)
    ensures st.result.Ok? ==>
      var inv := st.result.value;
      // a new invoice under a fresh id; no other invoice changes
      && inv.id !in s.invoices
      && st.ledger == s.(invoices := s.invoices[inv.id := inv], nextId := s.nextId + 1)
      && inv.reference == input.reference
      && inv.amount == input.amount && inv.creditor == input.creditorId
      && inv.description == input.description.value
      && inv.webhookUrl == input.webhookUrl && inv.expiresAt == input.expiresAt
      && inv.status == Pending && inv.paidAt == None
  {
    if input.amount <= 0 then Step(Err(InvalidAmount), s)
    else if input.creditorId !in s.accounts then Step(Err(CreditorNotFound), s)
    else if !Truthy(input.description) then Step(Err(MissingDescription), s)
    else
      var inv := Invoice(s.nextId, input.reference, input.amount, input.creditorId, input.description.value,
                         input.webhookUrl, input.expiresAt, Pending, None);
      Step(Ok(inv), s.(invoices := s.invoices[inv.id := inv], nextId := s.nextId + 1))
  }

  // --------------------------------------------------------------- payInvoice

  /** The FAILED outcome of `payInvoice`, committed rather than thrown: the
      invoice becomes FAILED, one failure event is queued, and no money moves. */
  function Decline(s: Ledger, input: PayInput, now: int): (st: Step<Invoice>)
    requires s.Valid() && input.invoiceId in s.invoices
    ensures st.ledger.Valid()
    ensures
      var failed := s.invoices[input.invoiceId].(status := Failed);
      && st.result == Ok(failed)
      && st.ledger.accounts == s.accounts
      && st.ledger.transactions == s.transactions
      && st.ledger.invoices == s.invoices[input.invoiceId := failed]
      && s.nextId !in s.events
      && st.ledger.events == s.events[s.nextId := FailedEvent(s.nextId, failed, now)]
  {
    var failed := s.invoices[input.invoiceId].(status := Failed);
    Step(Ok(failed), Settled(s, failed, FailedEvent(s.nextId, failed, now)))
  }

  /** The payment itself, for a payer who covers the invoice and a key the
      unique index accepts: both legs carry the invoice amount, the invoice
      becomes PAID, the row carries the key, and one success event is queued. */
  function Book(s: Ledger, input: PayInput, now: int): (st: Step<Invoice>)
    requires s.Valid() && input.invoiceId in s.invoices && input.payerId in s.accounts
    requires !KeyTaken(s.transactions, input.idempotencyKey)
    ensures st.ledger.Valid()
    ensures
      var inv := s.invoices[input.invoiceId];
      var paid := inv.(status := Paid, paidAt := Some(now));
      var t := PaymentRow(s, input, inv);
      && st.result == Ok(paid)
      && Moved(s.accounts, st.ledger.accounts, input.payerId, inv.creditor, inv.amount, inv.amount)
      && st.ledger.transactions == s.transactions + [t]
      && t.key == input.idempotencyKey
      && t.debit == Entry(input.payerId, -inv.amount) && t.credit == Entry(inv.creditor, inv.amount)
      && t.amount == Some(inv.amount) && t.kind == InvoicePayment && t.status == Posted
      && st.ledger.invoices == s.invoices[input.invoiceId := paid]
      && s.nextId + 1 !in s.events
      && st.ledger.events == s.events[s.nextId + 1 := PaidEvent(s.nextId + 1, paid, now)]
  {
    var inv := s.invoices[input.invoiceId];
    var paid := inv.(status := Paid, paidAt := Some(now));
    var posted := Post(s, PaymentRow(s, input, inv), input.payerId, inv.creditor, inv.amount, inv.amount);
    Step(Ok(paid), Settled(posted, paid, PaidEvent(posted.nextId, paid, now)))
  }

  /** The payment unit of work: the unique index on the key may refuse the
      row, which rolls back the legs and the invoice update written before it. */
  function Collect(s: Ledger, input: PayInput, now: int): (st: Step<Invoice>)
    requires s.Valid() && input.invoiceId in s.invoices && input.payerId in s.accounts
    ensures KeyTaken(s.transactions, input.idempotencyKey) ==> st == Step(Err(DuplicateIdempotencyKey), s)
    ensures !KeyTaken(s.transactions, input.idempotencyKey) ==> st == Book(s, input, now)
  {
    if KeyTaken(s.transactions, input.idempotencyKey) then Step(Err(DuplicateIdempotencyKey), s)
    else Book(s, input, now)
  }

  /** Do all the checks of `payInvoice` before the balance check pass? */
  predicate Admitted(s: Ledger, input: PayInput, now: int) {
    && input.invoiceId in s.invoices
    && s.invoices[input.invoiceId].status == Pending
    && !PastDue(s.invoices[input.invoiceId], now)
    && input.payerId in s.accounts
    && input.pinValid
  }

  /** `payInvoice`. */
  function Pay(s: Ledger, input: PayInput, now: int): (st: Step<Invoice>)
    requires s.Valid()
    ensures st.ledger.Valid()
    ensures st.result.Err? ==> st.ledger == s
    // a key already on a transaction returns the invoice as it is now
    ensures Replays(s, input.idempotencyKey) ==>
      st == Step(if input.invoiceId in s.invoices then Ok(s.invoices[input.invoiceId]) else Err(InvoiceNotFound), s)
    // then, in order: the invoice, its status, its expiry, the payer, the PIN
    ensures !Replays(s, input.idempotencyKey) && input.invoiceId !in s.invoices ==>
      st.result == Err(InvoiceNotFound)
    ensures !Replays(s, input.idempotencyKey) && input.invoiceId in s.invoices
            && s.invoices[input.invoiceId].status != Pending ==>
      st.result == Err(InvoiceNotPending(s.invoices[input.invoiceId].status))
    // the EXPIRED write is undone with the rest of the unit of work
    ensures !Replays(s, input.idempotencyKey) && input.invoiceId in s.invoices
            && s.invoices[input.invoiceId].status == Pending && PastDue(s.invoices[input.invoiceId], now) ==>
      st.result == Err(InvoiceExpired)
    ensures !Replays(s, input.idempotencyKey) && input.invoiceId in s.invoices
            && s.invoices[input.invoiceId].status == Pending && !PastDue(s.invoices[input.invoiceId], now)
            && input.payerId !in s.accounts ==>
      st.result == Err(PayerNotFound)
    ensures !Replays(s, input.idempotencyKey) && input.invoiceId in s.invoices
            && s.invoices[input.invoiceId].status == Pending && !PastDue(s.invoices[input.invoiceId], now)
            && input.payerId in s.accounts && !input.pinValid ==>
      st.result == Err(InvalidPin)
    // a payer who cannot cover the invoice gets the committed FAILED outcome
    ensures !Replays(s, input.idempotencyKey) && Admitted(s, input, now)
            && s.accounts[input.payerId].balance < s.invoices[input.invoiceId].amount ==>
      st == Decline(s, input, now)
    ensures !Replays(s, input.idempotencyKey) && Admitted(s, input, now)
            && s.accounts[input.payerId].balance >= s.invoices[input.invoiceId].amount ==>
      st == Collect(s, input, now)
    // an invoice that is not PENDING, or is past due, never changes
    ensures !Replays(s, input.idempotencyKey) && !Admitted(s, input, now) ==> st.ledger == s && st.result.Err?
  {
    if Replays(s, input.idempotencyKey) then
      Step(if input.invoiceId in s.invoices then Ok(s.invoices[input.invoiceId]) else Err(InvoiceNotFound), s)
    else if input.invoiceId !in s.invoices then Step(Err(InvoiceNotFound), s)
    else
      var inv := s.invoices[input.invoiceId];
      if inv.status != Pending then Step(Err(InvoiceNotPending(inv.status)), s)
      else if PastDue(inv, now) then Step(Err(InvoiceExpired), s)
      else if input.payerId !in s.accounts then Step(Err(PayerNotFound), s)
      else if !input.pinValid then Step(Err(InvalidPin), s)
      else if s.accounts[input.payerId].balance < inv.amount then Decline(s, input, now)
      else Collect(s, input, now)
  }

  // ------------------------------------------------------------------ lemmas

  /** Retrying a successful payment with the same truthy key finds the
      recorded transaction and returns the PAID invoice; nothing moves again. */
  lemma ReplayAfterPayment(s: Ledger, input: PayInput, now: int, later: int)
    requires s.Valid() && Truthy(input.idempotencyKey) && !Replays(s, input.idempotencyKey)
    requires Pay(s, input, now).result.Ok? && Pay(s, input, now).result.value.status == Paid
    ensures var first := Pay(s, input, now);
      Pay(first.ledger, input, later) == Step(first.result, first.ledger)
  {
    var first := Pay(s, input, now);
    var t := PaymentRow(s, input, s.invoices[input.invoiceId]);
    FindByKeyAppend(s.transactions, t, input.idempotencyKey.value);
  }

  /** A FAILED outcome records no transaction, so a retry with the same key
      is not a replay: it is refused because the invoice is no longer PENDING. */
  lemma RetryAfterFailureRejected(s: Ledger, input: PayInput, now: int, later: int)
    requires s.Valid() && !Replays(s, input.idempotencyKey)
    requires Pay(s, input, now).result.Ok? && Pay(s, input, now).result.value.status == Failed
    ensures var first := Pay(s, input, now);
      Pay(first.ledger, input, later) == Step(Err(InvoiceNotPending(Failed)), first.ledger)
  {
  }

  /** Once an invoice is PAID, no later payment request for it, whoever
      sends it and with whatever key, moves money or changes the invoice. */
  lemma PaidAtMostOnce(s: Ledger, input: PayInput, now: int, other: PayInput, later: int)
    requires s.Valid() && !Replays(s, input.idempotencyKey)
    requires Pay(s, input, now).result.Ok? && Pay(s, input, now).result.value.status == Paid
    requires other.invoiceId == input.invoiceId
    ensures var first := Pay(s, input, now);
      var second := Pay(first.ledger, other, later);
      second.ledger == first.ledger
      && (second.result.Ok? ==> second.result == first.result)
  {
  }

  /** Every outcome of `payInvoice` preserves the sum of all balances: a
      FAILED outcome moves nothing and a payment credits what it debits. */
  lemma {:induction false} PaymentConserves(s: Ledger, input: PayInput, now: int)
    requires s.Valid()
    ensures TotalBalance(Pay(s, input, now).ledger.accounts) == TotalBalance(s.accounts)
  {
    var st := Pay(s, input, now);
    if !Replays(s, input.idempotencyKey) && Admitted(s, input, now) && st.result.Ok? && st.result.value.status == Paid {
      var inv := s.invoices[input.invoiceId];
      MovedTotal(s.accounts, st.ledger.accounts, input.payerId, inv.creditor, inv.amount, inv.amount);
    }
  }

  /** Each payment that returns normally without replaying queues exactly
      one webhook event. */
  lemma OneEventPerOutcome(s: Ledger, input: PayInput, now: int)
    requires s.Valid() && !Replays(s, input.idempotencyKey)
    requires Pay(s, input, now).result.Ok?
    ensures |Pay(s, input, now).ledger.events| == |s.events| + 1
  {
  }

  /** A freshly created invoice can be paid at once by any payer who covers
      it, before its expiry, with a correct PIN and an unused key. */
  lemma CreatedInvoiceIsPayable(s: Ledger, c: CreateInput, p: PayInput, now: int)
    requires s.Valid() && Create(s, c).result.Ok?
    requires p.invoiceId == Create(s, c).result.value.id
    requires p.payerId in s.accounts && s.accounts[p.payerId].balance >= c.amount && p.pinValid
    requires c.expiresAt.None? || now <= c.expiresAt.value
    requires !Replays(s, p.idempotencyKey) && !KeyTaken(s.transactions, p.idempotencyKey)
    ensures var created := Create(s, c);
      Pay(created.ledger, p, now).result == Ok(created.result.value.(status := Paid, paidAt := Some(now)))
  {
  }

  // ----------------------------------------------------------------- methods

  method CreateInvoice(db: Store, input: CreateInput) returns (r: Result<Invoice>)
    requires db.View().Valid()
    modifies db
    ensures var st := Create(old(db.View()), input); r == st.result && db.View() == st.ledger
  {
    if input.amount <= 0 {
      return Err(InvalidAmount);
    }
    if input.creditorId !in db.accounts {
      return Err(CreditorNotFound);
    }
    if !Truthy(input.description) {
      return Err(MissingDescription);
    }
    var id := db.NewId();
    var inv := Invoice(id, input.reference, input.amount, input.creditorId, input.description.value,
                       input.webhookUrl, input.expiresAt, Pending, None);
    db.PutInvoice(inv);
    return Ok(inv);
  }

  method PayInvoice(db: Store, input: PayInput, now: int) returns (r: Result<Invoice>)
    requires db.View().Valid()
    modifies db
    ensures var st := Pay(old(db.View()), input, now); r == st.result && db.View() == st.ledger
  {
    if Truthy(input.idempotencyKey) {
      var existing := FindByKey(db.transactions, input.idempotencyKey.value);
      if existing.Some? {
        if input.invoiceId !in db.invoices {
          return Err(InvoiceNotFound);
        }
        return Ok(db.invoices[input.invoiceId]);
      }
    }
    var snapshot := db.View();
    if input.invoiceId !in db.invoices {
      return Err(InvoiceNotFound);
    }
    var invoice := db.invoices[input.invoiceId];
    if invoice.status != Pending {
      return Err(InvoiceNotPending(invoice.status));
    }
    if PastDue(invoice, now) {
      db.PutInvoice(invoice.(status := Expired));
      // the error aborts the unit of work, taking the EXPIRED write with it
      db.Restore(snapshot);
      return Err(InvoiceExpired);
    }
    if input.payerId !in db.accounts {
      return Err(PayerNotFound);
    }
    if !input.pinValid {
      return Err(InvalidPin);
    }
    if db.accounts[input.payerId].balance < invoice.amount {
      r := DeclinePayment(db, input, now);
    } else {
      r := CollectPayment(db, input, now);
    }
  }

  /** The FAILED outcome: the invoice update and the failure event. */
  method DeclinePayment(db: Store, input: PayInput, now: int) returns (r: Result<Invoice>)
    requires db.View().Valid() && input.invoiceId in db.invoices
    modifies db
    ensures var st := Decline(old(db.View()), input, now); r == st.result && db.View() == st.ledger
  {
    var failed := db.invoices[input.invoiceId].(status := Failed);
    db.RecordSettlement(failed, FailedEvent(db.nextId, failed, now));
    return Ok(failed);
  }

  /** The payment: both legs, the PAID invoice, the row and the success event. */
  method CollectPayment(db: Store, input: PayInput, now: int) returns (r: Result<Invoice>)
    requires db.View().Valid() && input.invoiceId in db.invoices && input.payerId in db.accounts
    modifies db
    ensures var st := Collect(old(db.View()), input, now); r == st.result && db.View() == st.ledger
  {
    var snapshot := db.View();
    var invoice := db.invoices[input.invoiceId];
    var paid := invoice.(status := Paid, paidAt := Some(now));
    var t := PaymentRow(db.View(), input, invoice);
    if KeyTaken(db.transactions, t.key) {
      // both legs and the invoice are written before the insert is refused;
      // the refusal rolls all of them back
      db.UpdateBalance(input.payerId, -invoice.amount);
      db.UpdateBalance(invoice.creditor, invoice.amount);
      db.PutInvoice(paid);
      var created := db.CreateTransaction(t);
      db.Restore(snapshot);
      return Err(DuplicateIdempotencyKey);
    }
    db.PostMovement(t, input.payerId, invoice.creditor, invoice.amount, invoice.amount);
    db.RecordSettlement(paid, PaidEvent(db.nextId, paid, now));
    return Ok(paid);
  }
}
