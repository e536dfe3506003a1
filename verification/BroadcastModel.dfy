/**
 * Broadcast runs under any interleaving of send requests, send-now calls, cron workers, deliveries
 * and failures. One recipient of the enqueue loop is one step.
 */
module BroadcastModel {
  import opened Common

  type RunId = nat
  type WorkerId = nat

  const MAX_BROADCAST_BATCH: nat := 500

  datatype RunStatus = Scheduled | Running | Completed | PartialFailure

  datatype RecipientStatus =
    Pending | Queued | Sending | Sent | Delivered | Read | Failed | Bounced | Unsubscribed | DeadLetter

  /** `starts` counts the calls of `enqueueRun` for the run; it is not a column. */
  datatype Run = Run(status: RunStatus, total: nat, queuedCount: nat, failedEnqueue: nat, starts: nat)

  /** A recipient row is unique for its run and contact channel. */
  datatype RecipientId = RecipientId(run: RunId, channel: nat)

  /**
   * `jobs` counts the send jobs added for the recipient and `marked` is what the enqueue loop
   * recorded, `Some(true)` for queued; neither is a column.
   */
  datatype Recipient = Recipient(status: RecipientStatus, jobs: nat, marked: Option<bool>)

  type Recipients = map<RecipientId, Recipient>

  /** Where a worker or request stands in `enqueueRun`; `cron` says whose `catch` surrounds it. */
  datatype Phase =
    | Claimed(run: RunId, cron: bool)
    | Enqueuing(run: RunId, cron: bool, todo: seq<RecipientId>, queued: nat, failed: nat)

  datatype Db = Db(runs: map<RunId, Run>, recipients: Recipients, workers: map<WorkerId, Phase>, nextRun: RunId)

  const EMPTY := Db(map[], map[], map[], 0)

  // ---------------------------------------------------------------- the handlers

  function Take(limit: int): nat {
    Min(Max(1, limit), MAX_BROADCAST_BATCH)
  }

  /** The recipient rows of a new run. */
  function Rows(run: RunId, n: nat): Recipients {
    map i: nat | i < n :: RecipientId(run, i) := Recipient(Pending, 0, None)
  }

  /** `sendBroadcast`: `matching` contacts fit the filters. A run to be sent at once goes on to the enqueue loop. */
  function Create(db: Db, w: WorkerId, matching: nat, limit: int, schedule: bool): Db {
    var id, total := db.nextRun, Min(matching, Take(limit));
    var status := if total == 0 then Completed else if schedule then Scheduled else Running;
    var d := db.(runs := db.runs[id := Run(status, total, 0, 0, if status == Running then 1 else 0)],
                 recipients := db.recipients + Rows(id, total), nextRun := id + 1);
    if status == Running then d.(workers := d.workers[w := Claimed(id, false)]) else d
  }

  /** The guarded update of `sendScheduledNow` and of the cron job. */
  function Claim(db: Db, w: WorkerId, id: RunId, cron: bool): Db {
    if id in db.runs && db.runs[id].status == Scheduled then
      db.(runs := db.runs[id := db.runs[id].(status := Running, starts := db.runs[id].starts + 1)],
          workers := db.workers[w := Claimed(id, cron)])
    else db
  }

  /** The pending recipients of a run from channel `i` on. */
  function PendingFrom(recipients: Recipients, run: RunId, i: nat, total: nat): seq<RecipientId>
    decreases total - i
  {
    if i >= total then []
    else
      var id := RecipientId(run, i);
      var rest := PendingFrom(recipients, run, i + 1, total);
      if id in recipients && recipients[id].status == Pending then [id] + rest else rest
  }

  function FirstOf<T>(s: seq<T>, n: nat): seq<T> {
    s[..Min(n, |s|)]
  }

  /** The rows `enqueueRun` reads; `totalAudience || 1` only matters for an empty audience. */
  function Batch(recipients: Recipients, run: RunId, total: nat): seq<RecipientId> {
    FirstOf(PendingFrom(recipients, run, 0, total), Take(total))
  }

  function Start(db: Db, w: WorkerId): Db {
    if w in db.workers && db.workers[w].Claimed? && db.workers[w].run in db.runs then
      var p := db.workers[w];
      db.(workers := db.workers[w := Enqueuing(p.run, p.cron, Batch(db.recipients, p.run, db.runs[p.run].total), 0, 0)])
    else db
  }

  /** What happens to one recipient: an error can come before or after the job was added. */
  datatype Outcome = Added | ErrorBefore | ErrorAfter

  function Mark(r: Recipient, o: Outcome): Recipient {
    match o
    case Added => Recipient(Queued, r.jobs + 1, Some(true))
    case ErrorBefore => Recipient(Failed, r.jobs, Some(false))
    case ErrorAfter => Recipient(Failed, r.jobs + 1, Some(false))
  }

  /** One round of the enqueue loop. */
  function Process(db: Db, w: WorkerId, o: Outcome): Db {
    if w in db.workers && db.workers[w].Enqueuing? && db.workers[w].todo != []
       && db.workers[w].todo[0] in db.recipients then
      var p := db.workers[w];
      var id := p.todo[0];
      var next := if o == Added then p.(todo := p.todo[1..], queued := p.queued + 1)
                  else p.(todo := p.todo[1..], failed := p.failed + 1);
      db.(recipients := db.recipients[id := Mark(db.recipients[id], o)], workers := db.workers[w := next])
    else db
  }

  function Finish(db: Db, w: WorkerId): Db {
    if w in db.workers && db.workers[w].Enqueuing? && db.workers[w].todo == [] && db.workers[w].run in db.runs then
      var p := db.workers[w];
      var r := db.runs[p.run];
      db.(runs := db.runs[p.run := r.(queuedCount := r.queuedCount + p.queued,
                                      failedEnqueue := r.failedEnqueue + p.failed,
                                      status := if p.failed > 0 then PartialFailure else Completed)],
          workers := db.workers - {w})
    else db
  }

  /** `enqueueRun` throws: the cron job then closes the run, the other callers leave it running. */
  function Abort(db: Db, w: WorkerId): Db {
    if w in db.workers && db.workers[w].run in db.runs then
      var p := db.workers[w];
      var closed := db.runs[p.run := db.runs[p.run].(status := PartialFailure)];
      db.(runs := if p.cron then closed else db.runs, workers := db.workers - {w})
    else db
  }

  /** The sender, a provider callback or an unsubscription moves a recipient whose job was added, never to pending. */
  function Deliver(db: Db, id: RecipientId, status: RecipientStatus): Db {
    if id in db.recipients && db.recipients[id].jobs > 0 && status != Pending then
      db.(recipients := db.recipients[id := db.recipients[id].(status := status)])
    else db
  }

  // ---------------------------------------------------------------- runs of the machine

  datatype Step =
    | DoCreate(w: WorkerId, matching: nat, limit: int, schedule: bool)
    | DoClaim(w: WorkerId, run: RunId, cron: bool)
    | DoStart(w: WorkerId)
    | DoProcess(w: WorkerId, o: Outcome)
    | DoFinish(w: WorkerId)
    | DoAbort(w: WorkerId)
    | DoDeliver(id: RecipientId, status: RecipientStatus)

  /** A busy worker takes no other work. */
  function Apply(db: Db, s: Step): Db {
    match s
    case DoCreate(w, matching, limit, schedule) =>
      if w in db.workers then db else Create(db, w, matching, limit, schedule)
    case DoClaim(w, run, cron) => if w in db.workers then db else Claim(db, w, run, cron)
    case DoStart(w) => Start(db, w)
    case DoProcess(w, o) => Process(db, w, o)
    case DoFinish(w) => Finish(db, w)
    case DoAbort(w) => Abort(db, w)
    case DoDeliver(id, status) => Deliver(db, id, status)
  }

  function RunAll(db: Db, steps: seq<Step>): Db {
    if steps == [] then db else Apply(RunAll(db, steps[..|steps| - 1]), steps[|steps| - 1])
  }
}
