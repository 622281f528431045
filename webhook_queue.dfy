/** The webhook delivery queue: its retry configuration, the worker that
    records the outcome of each delivery attempt on the outbox event, and the
    `failed` handler that dead-letters an event once the attempts run out.
    Signing and the HTTP POST are outside the model: their outcome is an input. */
module WebhookQueue {
  import opened Base
  import opened Ledger

  /** `attempts: 5` in the queue's default job options. */
  const MaxAttempts: nat := 5
  /** `backoff: { type: 'exponential', delay: 1000 }`, in milliseconds. */
  const BackoffDelay: nat := 1000

  /** The data the sweeper puts on each job. */
  datatype Job = Job(eventId: RowId, endpoint: Option<string>, payload: EventPayload, secret: string)

  /** What the signed POST to the endpoint came to: accepted, or an error
      carrying the receiver's `response.data.message` (if any) and its own
      `message`. */
  datatype SendOutcome = Sent | SendFailed(responseMessage: Option<string>, message: string)

  /** The webhook-event table the worker and the handler update. */
  type Outbox = map<RowId, WebhookEvent>

  /** One run of the worker body: whether it threw, and the table after it. */
  datatype Attempt = Attempt(thrown: bool, events: Outbox)

  function Pow2(n: nat): (r: nat)
    ensures r >= 1
  {
    if n == 0 then 1 else 2 * Pow2(n - 1)
  }

  /** Exponential backoff: the wait before the retry that follows the
      `attemptsMade`-th failed attempt. */
  function Backoff(attemptsMade: nat): nat
    requires attemptsMade >= 1
  {
    BackoffDelay * Pow2(attemptsMade - 1)
  }

  /** No wait is shorter than the base delay, each wait doubles the one
      before, and with five attempts there are four waits: 1 s, 2 s, 4 s and
      8 s (a fifth wait of 16 s never happens). */
  lemma BackoffSchedule(n: nat)
    requires 1 <= n
    ensures Backoff(n) >= BackoffDelay
    ensures Backoff(n + 1) == 2 * Backoff(n)
    ensures Backoff(1) == 1000 && Backoff(2) == 2000 && Backoff(3) == 4000 && Backoff(MaxAttempts - 1) == 8000
  {
  }

  /** The message the worker records: the receiver's message when it is a
      non-empty string, otherwise the error's own message. */
  function ErrorMessage(outcome: SendOutcome): (m: string)
    requires outcome.SendFailed?
    ensures Truthy(outcome.responseMessage) ==> m == outcome.responseMessage.value
    ensures !Truthy(outcome.responseMessage) ==> m == outcome.message
  {
    if Truthy(outcome.responseMessage) then outcome.responseMessage.value else outcome.message
  }

  /** The worker body for one job. A successful send marks the event COMPLETED
      and clears its error; a failed one records the error, counts the attempt
      and rethrows so the queue retries. When the event row is missing, the
      update throws and nothing changes. */
  function Process(events: Outbox, job: Job, outcome: SendOutcome): (a: Attempt)
    ensures a.events.Keys == events.Keys
    ensures forall k :: k in events && k != job.eventId ==> a.events[k] == events[k]
    ensures a.thrown <==> outcome.SendFailed? || job.eventId !in events
    ensures job.eventId !in events ==> a.events == events
    ensures job.eventId in events && outcome.Sent? ==>
      var e := events[job.eventId];
      a.events[job.eventId] == e.(status := EventCompleted, lastError := None)
    ensures job.eventId in events && outcome.SendFailed? ==>
      var e := events[job.eventId];
      a.events[job.eventId] == e.(lastError := Some(ErrorMessage(outcome)), attempts := e.attempts + 1)
    // the worker body never dead-letters an event
    ensures forall k :: k in a.events && a.events[k].status == EventFailed ==> events[k].status == EventFailed
  {
    if job.eventId !in events then Attempt(true, events)
    else
      var e := events[job.eventId];
      match outcome
      case Sent =>
        Attempt(false, events[job.eventId := e.(status := EventCompleted, lastError := None)])
      case SendFailed(_, _) =>
        Attempt(true, events[job.eventId := e.(lastError := Some(ErrorMessage(outcome)), attempts := e.attempts + 1)])
  }

  /** The `failed` handler, run after every failed attempt: once the job has
      used all its attempts the event is marked FAILED. A missing job, an
      earlier attempt or a missing event row changes nothing. */
  function DeadLetter(events: Outbox, job: Option<Job>, attemptsMade: nat): (r: Outbox)
    ensures r.Keys == events.Keys
    ensures job.Some? && attemptsMade >= MaxAttempts && job.value.eventId in events ==>
      r == events[job.value.eventId := events[job.value.eventId].(status := EventFailed)]
    ensures job.None? || attemptsMade < MaxAttempts || job.value.eventId !in events ==> r == events
  {
    if job.Some? && attemptsMade >= MaxAttempts && job.value.eventId in events then
      var id := job.value.eventId;
      events[id := events[id].(status := EventFailed)]
    else events
  }

  /** The life of one job under the queue's retry policy, from attempt
      `made + 1` on: `outcomes[i]` is what the send of attempt `i + 1` came
      to. A success ends the job; a failure runs the `failed` handler and,
      while attempts remain, the job is retried. The run stops early when the
      outcomes run out (attempts not yet made). Only the job's own event
      changes, it keeps its id, and it is dead-lettered only after the fifth
      attempt has failed. */
  function Run(events: Outbox, job: Job, outcomes: seq<SendOutcome>, made: nat): (r: Outbox)
    decreases MaxAttempts - made
    ensures r.Keys == events.Keys
    ensures forall k :: k in events && k != job.eventId ==> r[k] == events[k]
    ensures job.eventId in events ==> r[job.eventId].id == events[job.eventId].id
    // reaching FAILED from another status takes failed sends up to the fifth attempt
    ensures job.eventId in events && events[job.eventId].status != EventFailed && r[job.eventId].status == EventFailed ==>
      made < MaxAttempts <= |outcomes| && forall i :: made <= i < MaxAttempts ==> outcomes[i].SendFailed?
  {
    if made >= MaxAttempts || made >= |outcomes| then events
    else
      var a := Process(events, job, outcomes[made]);
      if !a.thrown then a.events
      else Run(DeadLetter(a.events, Some(job), made + 1), job, outcomes, made + 1)
  }

  // ------------------------------------------------------------------ lemmas

  /** Failing every remaining attempt, up to the fifth, dead-letters the event:
      each failure is counted and the last error is the fifth one's. */
  lemma {:induction false} FailingRun(events: Outbox, job: Job, outcomes: seq<SendOutcome>, made: nat)
    requires job.eventId in events && made < MaxAttempts <= |outcomes|
    requires forall i :: made <= i < MaxAttempts ==> outcomes[i].SendFailed?
    ensures var e := events[job.eventId];
      var f := Run(events, job, outcomes, made)[job.eventId];
      && f.status == EventFailed
      && f.attempts == e.attempts + (MaxAttempts - made)
      && f.lastError == Some(ErrorMessage(outcomes[MaxAttempts - 1]))
      && f == e.(status := EventFailed, attempts := f.attempts, lastError := f.lastError)
    decreases MaxAttempts - made
  {
    var a := Process(events, job, outcomes[made]);
    var next := DeadLetter(a.events, Some(job), made + 1);
    if made + 1 < MaxAttempts {
      FailingRun(next, job, outcomes, made + 1);
    }
  }

  /** Five failed sends in a row end with the event FAILED, its attempts
      counter raised by five and the last error recorded. */
  lemma FiveFailuresDeadLetter(events: Outbox, job: Job, outcomes: seq<SendOutcome>)
    requires job.eventId in events && |outcomes| >= MaxAttempts
    requires forall i :: 0 <= i < MaxAttempts ==> outcomes[i].SendFailed?
    ensures var e := events[job.eventId];
      var f := Run(events, job, outcomes, 0)[job.eventId];
      && f.status == EventFailed
      && f.attempts == e.attempts + 5
      && f.lastError == Some(ErrorMessage(outcomes[4]))
  {
    FailingRun(events, job, outcomes, 0);
  }

  /** A send that succeeds at attempt `k + 1`, after `k - made` failures,
      leaves the event COMPLETED with no error and each failure counted. */
  lemma {:induction false} SucceedingRun(events: Outbox, job: Job, outcomes: seq<SendOutcome>, made: nat, k: nat)
    requires job.eventId in events && made <= k < MaxAttempts && k < |outcomes| && outcomes[k].Sent?
    requires forall i :: made <= i < k ==> outcomes[i].SendFailed?
    ensures var e := events[job.eventId];
      var f := Run(events, job, outcomes, made)[job.eventId];
      f == e.(status := EventCompleted, lastError := None, attempts := e.attempts + (k - made))
    decreases k - made
  {
    var a := Process(events, job, outcomes[made]);
    if made < k {
      var next := DeadLetter(a.events, Some(job), made + 1);
      SucceedingRun(next, job, outcomes, made + 1, k);
    }
  }

  // ----------------------------------------------------------------- methods

  /** The worker body against the store: only the event table changes. */
  method ProcessJob(db: Store, job: Job, outcome: SendOutcome) returns (thrown: bool)
    modifies db
    ensures var a := Process(old(db.events), job, outcome);
      thrown == a.thrown && db.View() == old(db.View()).(events := a.events)
  {
    if outcome.Sent? && job.eventId in db.events {
      var e := db.events[job.eventId];
      db.UpdateEvent(job.eventId, e.(status := EventCompleted, lastError := None));
      return false;
    }
    // the catch block: its update throws in turn when the row is missing
    if job.eventId !in db.events {
      return true;
    }
    var e := db.events[job.eventId];
    db.UpdateEvent(job.eventId, e.(lastError := Some(ErrorMessage(outcome)), attempts := e.attempts + 1));
    return true;
  }

  /** The `failed` handler against the store. */
  method OnFailed(db: Store, job: Option<Job>, attemptsMade: nat)
    modifies db
    ensures db.View() == old(db.View()).(events := DeadLetter(old(db.events), job, attemptsMade))
  {
    if job.Some? && attemptsMade >= MaxAttempts && job.value.eventId in db.events {
      var e := db.events[job.value.eventId];
      db.UpdateEvent(job.value.eventId, e.(status := EventFailed));
    }
  }
}
