/** The persistent store the services run against: accounts, the transaction
    list with its double entries, invoices and the webhook outbox, together
    with the store primitives the services use (balance increment and
    decrement, row creation, rollback of an aborted unit of work). */
module Ledger {
  import opened Base

  type AccountId = string
  /** Identifiers the store generates for new rows. */
  type RowId = nat

  datatype Account = Account(
    number: string,          // external account number, unique
    email: string,           // unique; the treasury is found by it
    currency: string,
    balance: int,            // minor units
    allowOverdraft: bool,
    pin: string)             // stored transaction PIN (plain or hashed)

  datatype Entry = Entry(account: AccountId, amount: int)

  /** A transaction's reference: the caller's, a generated "<prefix><time>"
      label, or none. */
  datatype Reference = NoReference | Given(text: string) | Generated(prefix: string, at: int)

  datatype Memo = NoMemo | Text(text: string) | TreasuryDeposit(rate: real)

  datatype TxKind = Plain | InvoicePayment

  datatype TxStatus = Posted

  datatype Transaction = Transaction(
    id: RowId,
    key: Option<string>,           // idempotencyKey column
    reference: Reference,
    kind: TxKind,
    currency: string,
    targetCurrency: Option<string>,
    exchangeRate: Option<real>,
    amount: Option<int>,
    memo: Memo,
    status: TxStatus,
    from: Option<AccountId>,
    to: Option<AccountId>,
    debit: Entry,
    credit: Entry)

  datatype Invoice = Invoice(
    id: RowId,
    reference: Option<string>,
    amount: int,
    creditor: AccountId,
    description: string,
    webhookUrl: Option<string>,
    expiresAt: Option<int>,
    status: InvoiceStatus,
    paidAt: Option<int>)

  datatype EventStatus = EventPending | EventProcessing | EventCompleted | EventFailed

  /** The outbox payloads, one constructor per event kind. */
  datatype EventPayload =
    | InvoicePaidEvent(invoiceId: RowId, reference: Option<string>)
    | InvoicePaymentFailedEvent(invoiceId: RowId, reference: Option<string>, reason: string)

  datatype WebhookEvent = WebhookEvent(
    id: RowId,
    endpoint: Option<string>,
    payload: EventPayload,
    status: EventStatus,
    attempts: nat,
    lastError: Option<string>,
    createdAt: int)

  /** The reference a transaction gets from an optional caller reference:
      `reference || prefix + now`. */
  function ChooseReference(given: string, prefix: string, now: int): (r: Reference)
    ensures given != "" ==> r == Given(given)
    ensures given == "" ==> r == Generated(prefix, now)
  {
    if given != "" then Given(given) else Generated(prefix, now)
  }

  /** An invoice's optional reference copied onto its payment transaction. */
  function InvoiceReference(r: Option<string>): Reference {
    if r.Some? then Given(r.value) else NoReference
  }

  /** `transaction.findUnique({ where: { idempotencyKey } })`: the first
      transaction carrying the key. */
  function FindByKey(txs: seq<Transaction>, key: string): (r: Option<Transaction>)
    ensures r.Some? ==> r.value in txs && r.value.key == Some(key)
    ensures r.None? <==> forall i :: 0 <= i < |txs| ==> txs[i].key != Some(key)
  {
    if txs == [] then None
    else if txs[0].key == Some(key) then Some(txs[0])
    else FindByKey(txs[1..], key)
  }

  /** Appending a transaction does not hide an earlier holder of a key, and a
      new holder is found only through the appended row. */
  lemma {:induction false} FindByKeyAppend(txs: seq<Transaction>, t: Transaction, key: string)
    ensures FindByKey(txs + [t], key) ==
      if FindByKey(txs, key).Some? then FindByKey(txs, key)
      else if t.key == Some(key) then Some(t) else None
  {
    if txs != [] {
      assert (txs + [t])[1..] == txs[1..] + [t];
      FindByKeyAppend(txs[1..], t, key);
    }
  }

  /** Would inserting a transaction with this key violate the unique index? */
  predicate KeyTaken(txs: seq<Transaction>, key: Option<string>) {
    key.Some? && FindByKey(txs, key.value).Some?
  }

  /** No two transactions share an idempotency key. */
  ghost predicate KeysUnique(txs: seq<Transaction>) {
    forall i, j :: 0 <= i < j < |txs| && txs[i].key.Some? ==> txs[i].key != txs[j].key
  }

  /** The store's contents at one instant. */
  datatype Ledger = Ledger(
    accounts: map<AccountId, Account>,
    byNumber: map<string, AccountId>,   // unique index on accountNumber
    byEmail: map<string, AccountId>,    // unique index on email
    transactions: seq<Transaction>,
    invoices: map<RowId, Invoice>,
    events: map<RowId, WebhookEvent>,
    nextId: RowId)
  {
    /** What the database's indexes and foreign keys guarantee. */
    ghost predicate Valid() {
      && Indexed(accounts, byNumber, byEmail)
      && IdsBelow(transactions, nextId)
      && KeysUnique(transactions)
      && InvoicesValid(invoices, accounts.Keys, nextId)
      && EventsValid(events, nextId)
    }
  }

  /** The unique indexes on accountNumber and email agree with the accounts. */
  ghost predicate Indexed(accounts: map<AccountId, Account>, byNumber: map<string, AccountId>, byEmail: map<string, AccountId>) {
    && (forall n :: n in byNumber ==> byNumber[n] in accounts && accounts[byNumber[n]].number == n)
    && (forall e :: e in byEmail ==> byEmail[e] in accounts && accounts[byEmail[e]].email == e)
    && (forall a :: Listed(accounts, byNumber, byEmail, a))
  }

  /** An account, when present, is found under its number and its email. */
  ghost predicate Listed(accounts: map<AccountId, Account>, byNumber: map<string, AccountId>, byEmail: map<string, AccountId>,
                         a: AccountId) {
    a in accounts ==>
      && accounts[a].number in byNumber && byNumber[accounts[a].number] == a
      && accounts[a].email in byEmail && byEmail[accounts[a].email] == a
  }

  /** No account carries a number the index does not hold. */
  lemma UnlistedNumber(s: Ledger, number: string)
    requires s.Valid() && number !in s.byNumber
    ensures forall a :: a in s.accounts ==> s.accounts[a].number != number
  {
    forall a | a in s.accounts ensures s.accounts[a].number != number {
      assert Listed(s.accounts, s.byNumber, s.byEmail, a);
    }
  }

  /** No account carries an email the index does not hold. */
  lemma UnlistedEmail(s: Ledger, email: string)
    requires s.Valid() && email !in s.byEmail
    ensures forall a :: a in s.accounts ==> s.accounts[a].email != email
  {
    forall a | a in s.accounts ensures s.accounts[a].email != email {
      assert Listed(s.accounts, s.byNumber, s.byEmail, a);
    }
  }

  /** Every transaction id was issued before the counter. */
  ghost predicate IdsBelow(txs: seq<Transaction>, nextId: RowId) {
    forall i :: 0 <= i < |txs| ==> txs[i].id < nextId
  }

  /** Invoices are stored under their ids and their creditors exist. */
  ghost predicate InvoicesValid(invoices: map<RowId, Invoice>, accountIds: set<AccountId>, nextId: RowId) {
    forall k :: k in invoices ==> invoices[k].id == k && k < nextId && invoices[k].creditor in accountIds
  }

  /** Webhook events are stored under their ids. */
  ghost predicate EventsValid(events: map<RowId, WebhookEvent>, nextId: RowId) {
    forall k :: k in events ==> events[k].id == k && k < nextId
  }

  /** `account.findUnique({ where: { accountNumber } })`. */
  function AccountByNumber(s: Ledger, number: string): (r: Option<AccountId>)
    requires s.Valid()
    ensures r.Some? ==> r.value in s.accounts && s.accounts[r.value].number == number
    ensures r.None? ==> forall a :: a in s.accounts ==> s.accounts[a].number != number
  {
    if number in s.byNumber then Some(s.byNumber[number])
    else UnlistedNumber(s, number); None
  }

  /** `account.findUnique({ where: { email } })`. */
  function AccountByEmail(s: Ledger, email: string): (r: Option<AccountId>)
    requires s.Valid()
    ensures r.Some? ==> r.value in s.accounts && s.accounts[r.value].email == email
    ensures r.None? ==> forall a :: a in s.accounts ==> s.accounts[a].email != email
  {
    if email in s.byEmail then Some(s.byEmail[email])
    else UnlistedEmail(s, email); None
  }

  /** The ledger primitive `balance: { increment: delta }` (a decrement is a
      negative delta): exactly one account's balance moves, by exactly delta. */
  function Adjust(accounts: map<AccountId, Account>, id: AccountId, delta: int): (r: map<AccountId, Account>)
    requires id in accounts
    ensures r.Keys == accounts.Keys
    ensures r[id].balance == accounts[id].balance + delta
    ensures r[id] == accounts[id].(balance := r[id].balance)
    ensures forall a :: a in accounts && a != id ==> r[a] == accounts[a]
  {
    accounts[id := accounts[id].(balance := accounts[id].balance + delta)]
  }

  /** A two-leg movement: `from` loses `debit`, `to` gains `credit`, every
      other account and every other field stays as it was. */
  ghost predicate Moved(before: map<AccountId, Account>, after: map<AccountId, Account>,
                        from: AccountId, to: AccountId, debit: int, credit: int)
  {
    && from in before && to in before
    && after.Keys == before.Keys
    && (from != to ==>
          && after[from] == before[from].(balance := before[from].balance - debit)
          && after[to] == before[to].(balance := before[to].balance + credit))
    && (from == to ==> after[from] == before[from].(balance := before[from].balance - debit + credit))
    && (forall a :: a in before && a != from && a != to ==> after[a] == before[a])
  }

  /** Decrementing one account and then incrementing another is a two-leg movement. */
  lemma TwoLegs(accounts: map<AccountId, Account>, from: AccountId, to: AccountId, debit: int, credit: int)
    requires from in accounts && to in accounts
    ensures Moved(accounts, Adjust(Adjust(accounts, from, -debit), to, credit), from, to, debit, credit)
  {
  }

  /** Does a call with this idempotency key find an already stored
      transaction? Only a truthy key is looked up. */
  predicate Replays(s: Ledger, key: Option<string>) {
    Truthy(key) && FindByKey(s.transactions, key.value).Some?
  }

  /** Sum of all balances. */
  ghost function TotalBalance(accounts: map<AccountId, Account>): int
    decreases |accounts|
  {
    if accounts == map[] then 0
    else
      var a :| a in accounts;
      accounts[a].balance + TotalBalance(accounts - {a})
  }

  /** The sum may be taken starting from any account. */
  lemma {:induction false} TotalBalanceRemove(accounts: map<AccountId, Account>, a: AccountId)
    requires a in accounts
    ensures TotalBalance(accounts) == accounts[a].balance + TotalBalance(accounts - {a})
    decreases |accounts|
  {
    var b :| b in accounts && TotalBalance(accounts) == accounts[b].balance + TotalBalance(accounts - {b});
    if b != a {
      var rest := accounts - {a} - {b};
      assert accounts - {b} - {a} == rest;
      TotalBalanceRemove(accounts - {b}, a);
      TotalBalanceRemove(accounts - {a}, b);
    }
  }

  /** Adjusting one balance by delta moves the total by exactly delta. */
  lemma {:induction false} AdjustTotal(accounts: map<AccountId, Account>, id: AccountId, delta: int)
    requires id in accounts
    ensures TotalBalance(Adjust(accounts, id, delta)) == TotalBalance(accounts) + delta
  {
    var after := Adjust(accounts, id, delta);
    TotalBalanceRemove(accounts, id);
    TotalBalanceRemove(after, id);
    assert after - {id} == accounts - {id};
  }

  /** A two-leg movement changes the sum of all balances by credit - debit;
      when both legs carry the same amount, money is conserved. */
  lemma {:induction false} TwoLegsTotal(accounts: map<AccountId, Account>, from: AccountId, to: AccountId, debit: int, credit: int)
    requires from in accounts && to in accounts
    ensures TotalBalance(Adjust(Adjust(accounts, from, -debit), to, credit)) == TotalBalance(accounts) - debit + credit
  {
    AdjustTotal(accounts, from, -debit);
    AdjustTotal(Adjust(accounts, from, -debit), to, credit);
  }

  /** Any two-leg movement changes the sum of all balances by credit - debit. */
  lemma {:induction false} MovedTotal(before: map<AccountId, Account>, after: map<AccountId, Account>,
                                      from: AccountId, to: AccountId, debit: int, credit: int)
    requires Moved(before, after, from, to, debit, credit)
    ensures TotalBalance(after) == TotalBalance(before) - debit + credit
  {
    var direct := Adjust(Adjust(before, from, -debit), to, credit);
    TwoLegs(before, from, to, debit, credit);
    assert after == direct;
    TwoLegsTotal(before, from, to, debit, credit);
  }

  /** Updates that touch only balances keep every index and foreign key valid. */
  lemma BalancesOnlyKeepValid(s: Ledger, accounts: map<AccountId, Account>)
    requires s.Valid()
    requires accounts.Keys == s.accounts.Keys
    requires forall a :: a in accounts ==> accounts[a] == s.accounts[a].(balance := accounts[a].balance)
    ensures s.(accounts := accounts).Valid()
  {
    forall a ensures Listed(accounts, s.byNumber, s.byEmail, a) {
      assert Listed(s.accounts, s.byNumber, s.byEmail, a);
    }
  }

  /** Appending a transaction under the next id keeps the store valid when
      the unique index on its key accepts it. */
  lemma {:induction false} AppendValid(s: Ledger, t: Transaction)
    requires s.Valid() && t.id == s.nextId && !KeyTaken(s.transactions, t.key)
    ensures s.(transactions := s.transactions + [t], nextId := s.nextId + 1).Valid()
  {
    var txs := s.transactions + [t];
    forall i, j | 0 <= i < j < |txs| && txs[i].key.Some?
      ensures txs[i].key != txs[j].key
    {
      if j == |s.transactions| && t.key.Some? {
        assert FindByKey(s.transactions, t.key.value).None?;
        assert s.transactions[i].key != Some(t.key.value);
      }
    }
  }

  /** A committed two-leg movement: `from` loses `debit`, `to` gains `credit`,
      and the transaction is appended under the next id. */
  function Post(s: Ledger, t: Transaction, from: AccountId, to: AccountId, debit: int, credit: int): (r: Ledger)
    requires s.Valid() && from in s.accounts && to in s.accounts
    requires t.id == s.nextId && !KeyTaken(s.transactions, t.key)
    ensures r.Valid()
    ensures Moved(s.accounts, r.accounts, from, to, debit, credit)
    ensures r == s.(accounts := r.accounts, transactions := s.transactions + [t], nextId := s.nextId + 1)
  {
    var accounts := Adjust(Adjust(s.accounts, from, -debit), to, credit);
    TwoLegs(s.accounts, from, to, debit, credit);
    BalancesOnlyKeepValid(s, accounts);
    AppendValid(s.(accounts := accounts), t);
    s.(accounts := accounts, transactions := s.transactions + [t], nextId := s.nextId + 1)
  }

  /** An invoice update together with a new outbox event under the next id,
      as one settlement writes them. No balance, account or transaction
      changes, no other invoice changes, and no existing event is
      overwritten. */
  function Settled(s: Ledger, inv: Invoice, e: WebhookEvent): (r: Ledger)
    requires s.Valid() && inv.id in s.invoices && inv.creditor in s.accounts && e.id == s.nextId
    ensures r.Valid()
    ensures r.accounts == s.accounts && r.byNumber == s.byNumber && r.byEmail == s.byEmail
    ensures r.transactions == s.transactions
    ensures r.invoices.Keys == s.invoices.Keys && r.invoices[inv.id] == inv
    ensures forall id :: id in s.invoices && id != inv.id ==> r.invoices[id] == s.invoices[id]
    ensures s.nextId !in s.events && r.events.Keys == s.events.Keys + {s.nextId} && r.events[s.nextId] == e
    ensures forall id :: id in s.events ==> r.events[id] == s.events[id]
    ensures r.nextId == s.nextId + 1
  {
    s.(invoices := s.invoices[inv.id := inv], events := s.events[s.nextId := e], nextId := s.nextId + 1)
  }

  /** The outcome of an operation on the store together with the store after it. */
  datatype Step<+T> = Step(result: Result<T>, ledger: Ledger)

  /** The database the services talk to. Its methods are the store operations
      the services call; each changes exactly what it names. */
  class Store {
    var accounts: map<AccountId, Account>
    var byNumber: map<string, AccountId>
    var byEmail: map<string, AccountId>
    var transactions: seq<Transaction>
    var invoices: map<RowId, Invoice>
    var events: map<RowId, WebhookEvent>
    var nextId: RowId

    function View(): Ledger
      reads this
    {
      Ledger(accounts, byNumber, byEmail, transactions, invoices, events, nextId)
    }

    constructor (initial: Ledger)
      ensures View() == initial
    {
      accounts, byNumber, byEmail := initial.accounts, initial.byNumber, initial.byEmail;
      transactions, invoices, events := initial.transactions, initial.invoices, initial.events;
      nextId := initial.nextId;
    }

    /** `account.update({ data: { balance: { increment: delta } } })`. */
    method UpdateBalance(id: AccountId, delta: int)
      requires id in accounts
      modifies this
      ensures View() == old(View()).(accounts := Adjust(old(accounts), id, delta))
    {
      accounts := Adjust(accounts, id, delta);
    }

    /** The identifier the store gives the next row it creates. */
    method NewId() returns (id: RowId)
      modifies this
      ensures id == old(nextId)
      ensures View() == old(View()).(nextId := old(nextId) + 1)
    {
      id := nextId;
      nextId := nextId + 1;
    }

    /** `transaction.create`: refused when the key is already taken. */
    method CreateTransaction(t: Transaction) returns (created: bool)
      modifies this
      ensures created == !KeyTaken(old(transactions), t.key)
      ensures View() == if created then old(View()).(transactions := old(transactions) + [t]) else old(View())
    {
      created := !KeyTaken(transactions, t.key);
      if created {
        transactions := transactions + [t];
      }
    }

    /** A committed unit of work: the two balance updates of a movement and
        `transaction.create` for its row, which takes the next id. */
    method PostMovement(t: Transaction, from: AccountId, to: AccountId, debit: int, credit: int)
      requires View().Valid() && from in accounts && to in accounts
      requires t.id == nextId && !KeyTaken(transactions, t.key)
      modifies this
      ensures View() == Post(old(View()), t, from, to, debit, credit)
    {
      accounts := Adjust(Adjust(accounts, from, -debit), to, credit);
      transactions := transactions + [t];
      nextId := nextId + 1;
    }

    /** The settlement writes of an invoice payment: the invoice update and
        `webhookEvent.create` for its outbox event, which takes the next id. */
    method RecordSettlement(inv: Invoice, e: WebhookEvent)
      requires View().Valid() && inv.id in invoices && inv.creditor in accounts && e.id == nextId
      modifies this
      ensures View() == Settled(old(View()), inv, e)
    {
      invoices, events, nextId := invoices[inv.id := inv], events[nextId := e], nextId + 1;
    }

    /** `invoice.create` and `invoice.update`: the row is stored under its id. */
    method PutInvoice(inv: Invoice)
      modifies this
      ensures View() == old(View()).(invoices := old(invoices)[inv.id := inv])
    {
      invoices := invoices[inv.id := inv];
    }

    /** `webhookEvent.update` of a row that exists (Prisma throws on a missing one). */
    method UpdateEvent(id: RowId, e: WebhookEvent)
      requires id in events
      modifies this
      ensures View() == old(View()).(events := old(events)[id := e])
    {
      events := events[id := e];
    }

    /** `webhookEvent.updateMany`: every listed event present gets the status. */
    method SetEventStatus(ids: set<RowId>, status: EventStatus)
      modifies this
      ensures View() == old(View()).(events := WithStatus(old(events), ids, status))
    {
      events := WithStatus(events, ids, status);
    }

    /** Aborting a unit of work: every write since the snapshot is undone. */
    method Restore(snapshot: Ledger)
      modifies this
      ensures View() == snapshot
    {
      accounts, byNumber, byEmail := snapshot.accounts, snapshot.byNumber, snapshot.byEmail;
      transactions, invoices, events := snapshot.transactions, snapshot.invoices, snapshot.events;
      nextId := snapshot.nextId;
    }
  }

  /** Exactly the listed events change status; nothing else changes. */
  function WithStatus(events: map<RowId, WebhookEvent>, ids: set<RowId>, status: EventStatus): (r: map<RowId, WebhookEvent>)
    ensures r.Keys == events.Keys
    ensures forall k :: k in events && k in ids ==> r[k] == events[k].(status := status)
    ensures forall k :: k in events && k !in ids ==> r[k] == events[k]
  {
    map k | k in events :: if k in ids then events[k].(status := status) else events[k]
  }
}
