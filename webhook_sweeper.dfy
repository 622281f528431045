/** The scheduled sweeper of the webhook outbox: each tick it takes the
    oldest PENDING events, at most a batch of them, puts one delivery job per
    event on the queue and marks exactly those events PROCESSING. The cron
    schedule is outside the model; one call is one tick. */
module WebhookSweeper {
  import opened Base
  import opened Ledger
  import opened WebhookQueue

  /** `BATCH_SIZE`. */
  const BatchSize: nat := 50
  /** The signing secret used when `WEBHOOK_SECRET` is unset or empty. */
  const DefaultSecret: string := "default-webhook-secret"

  /** `process.env.WEBHOOK_SECRET || 'default-webhook-secret'`. */
  function Secret(configured: Option<string>): (r: string)
    ensures Truthy(configured) ==> r == configured.value
    ensures !Truthy(configured) ==> r == DefaultSecret
  {
    if Truthy(configured) then configured.value else DefaultSecret
  }

  /** The events a PENDING filter finds. */
  function PendingIds(events: Outbox): (r: set<RowId>)
    ensures forall k :: k in r <==> k in events && events[k].status == EventPending
  {
    set k | k in events && events[k].status == EventPending
  }

  /** `orderBy: { createdAt: 'asc' }`: `a` may come before `b`. Events created
      at the same instant are taken in id order. */
  predicate NoLater(events: Outbox, a: RowId, b: RowId)
    requires a in events && b in events
  {
    events[a].createdAt < events[b].createdAt || (events[a].createdAt == events[b].createdAt && a <= b)
  }

  /** `m` is no later than any event of `ids`. */
  predicate IsOldest(events: Outbox, ids: set<RowId>, m: RowId)
    requires ids <= events.Keys && m in events
  {
    forall o :: o in ids ==> NoLater(events, m, o)
  }

  /** Every non-empty set of events has an oldest member. */
  lemma {:induction false} OldestExists(events: Outbox, ids: set<RowId>)
    requires ids != {} && ids <= events.Keys
    ensures exists m :: m in ids && IsOldest(events, ids, m)
    decreases |ids|
  {
    var x :| x in ids;
    var rest := ids - {x};
    if rest == {} {
      assert ids == {x};
      assert IsOldest(events, ids, x);
    } else {
      OldestExists(events, rest);
      var m :| m in rest && IsOldest(events, rest, m);
      var w := OlderOfTwo(events, rest, m, x);
      assert ids == rest + {x};
      assert IsOldest(events, ids, w);
    }
  }

  /** Adding `x` to a set whose oldest member is `m`: the older of the two is
      the oldest of the larger set. */
  lemma OlderOfTwo(events: Outbox, rest: set<RowId>, m: RowId, x: RowId) returns (w: RowId)
    requires rest <= events.Keys && m in rest && x in events
    requires IsOldest(events, rest, m)
    ensures w == m || w == x
    ensures IsOldest(events, rest + {x}, w)
  {
    w := if NoLater(events, m, x) then m else x;
  }

  /** The oldest event of a non-empty set. */
  function Oldest(events: Outbox, ids: set<RowId>): (m: RowId)
    requires ids != {} && ids <= events.Keys
    ensures m in ids && forall o :: o in ids ==> NoLater(events, m, o)
  {
    OldestExists(events, ids);
    var m :| m in ids && IsOldest(events, ids, m);
    m
  }

  /** `findMany({ take: limit, orderBy: { createdAt: 'asc' } })` over the
      candidate events `ids`: the oldest ones, oldest first, at most `limit`
      of them, and none older left behind. */
  function Select(events: Outbox, ids: set<RowId>, limit: nat): (batch: seq<RowId>)
    requires ids <= events.Keys
    decreases limit
    ensures |batch| == if limit < |ids| then limit else |ids|
    ensures forall i :: 0 <= i < |batch| ==> batch[i] in ids
    ensures forall i, j :: 0 <= i < j < |batch| ==> batch[i] != batch[j]
    ensures forall i, j :: 0 <= i < j < |batch| ==> NoLater(events, batch[i], batch[j])
    ensures forall i, o :: 0 <= i < |batch| && o in ids && o !in batch ==> NoLater(events, batch[i], o)
  {
    if limit == 0 || ids == {} then []
    else
      var m := Oldest(events, ids);
      [m] + Select(events, ids - {m}, limit - 1)
  }

  /** The batch one tick selects. */
  function Batch(events: Outbox): seq<RowId> {
    Select(events, PendingIds(events), BatchSize)
  }

  /** The job for the event stored under `id`: the id, the event's endpoint
      and payload, and the secret. */
  function JobFor(events: Outbox, id: RowId, secret: string): Job
    requires id in events
  {
    Job(id, events[id].endpoint, events[id].payload, secret)
  }

  /** The events of the batch whose `add` the queue accepts, in batch order:
      those not `refused`. */
  function Accepted(batch: seq<RowId>, refused: set<RowId>): (ids: seq<RowId>)
    ensures |ids| <= |batch|
    ensures forall k :: 0 <= k < |ids| ==> ids[k] in batch && ids[k] !in refused
  {
    if batch == [] then []
    else
      var last := batch[|batch| - 1];
      Accepted(batch[..|batch| - 1], refused) + (if last in refused then [] else [last])
  }

  /** The jobs the queue holds after the batch's adds, in batch order: one
      job for each accepted event (`EnqueuedAccepted`). */
  function Enqueued(events: Outbox, batch: seq<RowId>, secret: string, refused: set<RowId>): (jobs: seq<Job>)
    requires forall i :: 0 <= i < |batch| ==> batch[i] in events
    ensures |jobs| <= |batch|
    ensures (forall i :: 0 <= i < |batch| ==> batch[i] !in refused) ==>
      |jobs| == |batch| && forall i :: 0 <= i < |batch| ==> jobs[i] == JobFor(events, batch[i], secret)
  {
    if batch == [] then []
    else
      var last := batch[|batch| - 1];
      Enqueued(events, batch[..|batch| - 1], secret, refused)
        + (if last in refused then [] else [JobFor(events, last, secret)])
  }

  /** Some `add` of the batch rejects, so `Promise.all` rejects
      (`RejectedIff`). */
  predicate Rejected(batch: seq<RowId>, refused: set<RowId>) {
    batch != [] && (Rejected(batch[..|batch| - 1], refused) || batch[|batch| - 1] in refused)
  }

  /** `Promise.all` rejects exactly when some event of the batch is refused. */
  lemma {:induction false} RejectedIff(batch: seq<RowId>, refused: set<RowId>)
    ensures Rejected(batch, refused) <==> exists i :: 0 <= i < |batch| && batch[i] in refused
  {
    if batch != [] {
      var n := |batch| - 1;
      RejectedIff(batch[..n], refused);
      if exists i :: 0 <= i < n && batch[..n][i] in refused {
        var i :| 0 <= i < n && batch[..n][i] in refused;
        assert batch[i] in refused;
      }
      if exists i :: 0 <= i < |batch| && batch[i] in refused {
        var i :| 0 <= i < |batch| && batch[i] in refused;
        if i < n {
          assert batch[..n][i] in refused;
        }
      }
    }
  }

  /** The event table after a tick: unchanged when the batch is empty or an
      enqueue rejected (the error is caught and logged), otherwise the batch
      is PROCESSING. */
  function Swept(events: Outbox, refused: set<RowId>): (r: Outbox)
    ensures r.Keys == events.Keys
    ensures Batch(events) == [] || Rejected(Batch(events), refused) ==> r == events
    ensures Batch(events) != [] && !Rejected(Batch(events), refused) ==>
      forall k :: k in events ==>
        r[k] == if k in Batch(events) then events[k].(status := EventProcessing) else events[k]
  {
    var batch := Batch(events);
    if batch == [] || Rejected(batch, refused) then events
    else WithStatus(events, set i | 0 <= i < |batch| :: batch[i], EventProcessing)
  }

  // ------------------------------------------------------------------ lemmas

  /** A tick takes at most fifty events, all PENDING, oldest first; every
      PENDING event it leaves behind is no older than any it takes, and it
      takes fifty unless fewer are pending. */
  lemma BatchIsOldestPending(events: Outbox)
    ensures var batch := Batch(events);
      && |batch| <= BatchSize
      && (|batch| < BatchSize ==> |batch| == |PendingIds(events)|)
      && (forall i :: 0 <= i < |batch| ==> batch[i] in events && events[batch[i]].status == EventPending)
      && (forall i, j :: 0 <= i < j < |batch| ==> events[batch[i]].createdAt <= events[batch[j]].createdAt)
      && (forall i, k :: 0 <= i < |batch| && k in events && events[k].status == EventPending && k !in batch ==>
            events[batch[i]].createdAt <= events[k].createdAt)
  {
  }

  /** The batch is empty exactly when no event is PENDING. */
  lemma {:induction false} EmptyBatchIffNothingPending(events: Outbox)
    ensures Batch(events) == [] <==> forall k :: k in events ==> events[k].status != EventPending
  {
    if Batch(events) == [] {
      assert |PendingIds(events)| == 0;
    } else {
      assert Batch(events)[0] in PendingIds(events);
    }
  }

  /** A tick that marks its batch takes none of it again: the next tick's
      batch is disjoint from this one's. */
  lemma NotSweptTwice(events: Outbox, refused: set<RowId>)
    requires Batch(events) != [] && !Rejected(Batch(events), refused)
    ensures var next := Batch(Swept(events, refused));
      forall i, j :: 0 <= i < |Batch(events)| && 0 <= j < |next| ==> Batch(events)[i] != next[j]
  {
    var after := Swept(events, refused);
    forall i, j | 0 <= i < |Batch(events)| && 0 <= j < |Batch(after)|
      ensures Batch(events)[i] != Batch(after)[j]
    {
      assert Batch(after)[j] in PendingIds(after);
    }
  }

  /** With every enqueue accepted, each selected event has exactly one job. */
  lemma OneJobPerEvent(events: Outbox, secret: string)
    ensures var batch := Batch(events);
      var jobs := Enqueued(events, batch, secret, {});
      && |jobs| == |batch|
      && (forall i :: 0 <= i < |batch| ==> jobs[i].eventId == batch[i] && jobs[i].secret == secret)
      && (forall i, j :: 0 <= i < j < |jobs| ==> jobs[i].eventId != jobs[j].eventId)
  {
  }

  /** Every event of the batch that the queue does not refuse is accepted. */
  lemma {:induction false} AcceptedComplete(batch: seq<RowId>, refused: set<RowId>, i: nat)
    requires i < |batch| && batch[i] !in refused
    ensures batch[i] in Accepted(batch, refused)
  {
    var n := |batch| - 1;
    if i < n {
      AcceptedComplete(batch[..n], refused, i);
    }
  }

  /** A batch without repeats yields accepted events without repeats. */
  lemma {:induction false} AcceptedDistinct(batch: seq<RowId>, refused: set<RowId>)
    requires forall i, j :: 0 <= i < j < |batch| ==> batch[i] != batch[j]
    ensures forall k, l :: 0 <= k < l < |Accepted(batch, refused)| ==> Accepted(batch, refused)[k] != Accepted(batch, refused)[l]
  {
    if batch != [] {
      var n := |batch| - 1;
      var front := Accepted(batch[..n], refused);
      AcceptedDistinct(batch[..n], refused);
      assert forall k, l :: 0 <= k < l < |front| ==> front[k] != front[l];
      forall k | 0 <= k < |front| ensures front[k] != batch[n] {
        var i :| 0 <= i < n && batch[..n][i] == front[k];
        assert batch[i] == front[k];
      }
      var ids := Accepted(batch, refused);
      assert ids == front + (if batch[n] in refused then [] else [batch[n]]);
      forall k, l | 0 <= k < l < |ids| ensures ids[k] != ids[l] {
        if l < |front| {
          assert ids[k] == front[k] && ids[l] == front[l];
          assert front[k] != front[l];
        } else {
          assert ids[k] == front[k] && ids[l] == batch[n];
        }
      }
    }
  }

  /** The queue holds exactly one job per accepted event, in batch order,
      each carrying that event's id, endpoint, payload and the secret. */
  lemma {:induction false} EnqueuedAccepted(events: Outbox, batch: seq<RowId>, secret: string, refused: set<RowId>)
    requires forall i :: 0 <= i < |batch| ==> batch[i] in events
    ensures var jobs := Enqueued(events, batch, secret, refused);
      var ids := Accepted(batch, refused);
      && |jobs| == |ids|
      && forall k :: 0 <= k < |jobs| ==> ids[k] in events && jobs[k] == JobFor(events, ids[k], secret)
  {
    if batch != [] {
      var n := |batch| - 1;
      EnqueuedAccepted(events, batch[..n], secret, refused);
      forall k | 0 <= k < |Accepted(batch, refused)| ensures Accepted(batch, refused)[k] in events {
        assert Accepted(batch, refused)[k] in batch;
      }
    }
  }

  /** Whatever the queue refuses, a tick queues at most one job per event. */
  lemma AtMostOneJobPerEvent(events: Outbox, secret: string, refused: set<RowId>)
    ensures var jobs := Enqueued(events, Batch(events), secret, refused);
      forall k, l :: 0 <= k < l < |jobs| ==> jobs[k].eventId != jobs[l].eventId
  {
    EnqueuedAccepted(events, Batch(events), secret, refused);
    AcceptedDistinct(Batch(events), refused);
  }

  /** Each job of a batch with refusals is also a job of the same batch
      with every add accepted. */
  lemma AcceptedJobRequeued(events: Outbox, batch: seq<RowId>, secret: string, refused: set<RowId>, k: nat)
    requires forall i :: 0 <= i < |batch| ==> batch[i] in events
    requires k < |Enqueued(events, batch, secret, refused)|
    ensures var job := Enqueued(events, batch, secret, refused)[k];
      job.eventId in batch && job in Enqueued(events, batch, secret, {})
  {
    EnqueuedAccepted(events, batch, secret, refused);
    var id := Accepted(batch, refused)[k];
    var l :| 0 <= l < |batch| && batch[l] == id;
    assert Enqueued(events, batch, secret, {})[l] == JobFor(events, id, secret);
  }

  /** Every event of a tick's batch is a PENDING event. */
  lemma InBatchPending(events: Outbox, id: RowId)
    requires id in Batch(events)
    ensures id in events && events[id].status == EventPending
  {
    var i :| 0 <= i < |Batch(events)| && Batch(events)[i] == id;
    assert Batch(events)[i] in PendingIds(events);
  }

  /** A tick whose enqueue is rejected marks nothing, so the next tick sees
      the same table and selects the same batch; yet the adds that were
      accepted stay queued: every event with a job is still PENDING and in
      that batch, and a next tick that is accepted queues the job again. */
  lemma RejectedTickRequeues(events: Outbox, secret: string, refused: set<RowId>)
    requires Batch(events) != [] && Rejected(Batch(events), refused)
    ensures Swept(events, refused) == events
    ensures var first := Enqueued(events, Batch(events), secret, refused);
      var second := Enqueued(events, Batch(events), secret, {});
      forall k :: 0 <= k < |first| ==>
        && first[k].eventId in Batch(events)
        && events[first[k].eventId].status == EventPending
        && first[k] in second
  {
    var batch := Batch(events);
    var first := Enqueued(events, batch, secret, refused);
    var second := Enqueued(events, batch, secret, {});
    forall k | 0 <= k < |first|
      ensures first[k].eventId in batch && events[first[k].eventId].status == EventPending
      ensures first[k] in second
    {
      AcceptedJobRequeued(events, batch, secret, refused, k);
      InBatchPending(events, first[k].eventId);
    }
  }

  // ----------------------------------------------------------------- methods

  /** The delivery queue: the jobs added so far, in order. */
  class JobQueue {
    var jobs: seq<Job>

    constructor ()
      ensures jobs == []
    {
      jobs := [];
    }

    /** `webhookQueue.add`: rejects when the event is one the queue refuses. */
    method Add(job: Job, refused: set<RowId>) returns (accepted: bool)
      modifies this
      ensures accepted == (job.eventId !in refused)
      ensures jobs == if accepted then old(jobs) + [job] else old(jobs)
    {
      accepted := job.eventId !in refused;
      if accepted {
        jobs := jobs + [job];
      }
    }
  }

  /** Issuing one more add of the batch extends the queued jobs and the
      rejection by that add alone. */
  lemma EnqueueStep(events: Outbox, batch: seq<RowId>, secret: string, refused: set<RowId>, i: nat)
    requires i < |batch| && forall j :: 0 <= j < |batch| ==> batch[j] in events
    ensures Enqueued(events, batch[..i + 1], secret, refused)
      == Enqueued(events, batch[..i], secret, refused) + (if batch[i] in refused then [] else [JobFor(events, batch[i], secret)])
    ensures Rejected(batch[..i + 1], refused) <==> Rejected(batch[..i], refused) || batch[i] in refused
  {
    assert batch[..i + 1][..i] == batch[..i];
    assert batch[..i + 1][i] == batch[i];
  }

  /** `Promise.all` over the batch: every `add` is issued, in batch order,
      and one rejection rejects the whole. */
  method EnqueueAll(queue: JobQueue, events: Outbox, batch: seq<RowId>, secret: string, refused: set<RowId>)
    returns (rejected: bool)
    requires forall i :: 0 <= i < |batch| ==> batch[i] in events
    modifies queue
    ensures queue.jobs == old(queue.jobs) + Enqueued(events, batch, secret, refused)
    ensures rejected == Rejected(batch, refused)
  {
    rejected := false;
    var i := 0;
    while i < |batch|
      invariant 0 <= i <= |batch|
      invariant queue.jobs == old(queue.jobs) + Enqueued(events, batch[..i], secret, refused)
      invariant rejected <==> Rejected(batch[..i], refused)
    {
      EnqueueStep(events, batch, secret, refused, i);
      var accepted := queue.Add(JobFor(events, batch[i], secret), refused);
      if !accepted {
        rejected := true;
      }
      i := i + 1;
    }
    assert batch[..i] == batch;
  }

  /** One tick of the sweeper. */
  method Sweep(db: Store, queue: JobQueue, configuredSecret: Option<string>, refused: set<RowId>)
    modifies db, queue
    ensures queue.jobs == old(queue.jobs) + Enqueued(old(db.events), Batch(old(db.events)), Secret(configuredSecret), refused)
    ensures db.View() == old(db.View()).(events := Swept(old(db.events), refused))
  {
    var batch := Batch(db.events);
    if |batch| == 0 {
      return;
    }
    var rejected := EnqueueAll(queue, db.events, batch, Secret(configuredSecret), refused);
    if rejected {
      // caught and logged: no event is marked
      return;
    }
    db.SetEventStatus(set j | 0 <= j < |batch| :: batch[j], EventProcessing);
  }
}
