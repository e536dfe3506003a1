/** What every interleaving of broadcast steps keeps. */
module BroadcastInvariants {
  import opened Common
  import opened BroadcastModel

  // ---------------------------------------------------------------- tallies

  /** The recipients of a run below `k` that the enqueue loop recorded as `ok`. */
  function Count(recipients: Recipients, run: RunId, k: nat, ok: bool): nat {
    if k == 0 then 0
    else
      var id := RecipientId(run, k - 1);
      Count(recipients, run, k - 1, ok) + (if id in recipients && recipients[id].marked == Some(ok) then 1 else 0)
  }

  ghost predicate HasRows(recipients: Recipients, run: RunId, total: nat) {
    forall i: nat | i < total :: RecipientId(run, i) in recipients
  }

  /** The loop has recorded exactly the recipients below `k`, and counted them. */
  ghost predicate Progress(recipients: Recipients, run: RunId, k: nat, total: nat, queued: nat, failed: nat) {
    && k <= total && HasRows(recipients, run, total)
    && (forall i: nat | i < total :: recipients[RecipientId(run, i)].marked.Some? <==> i < k)
    && queued == Count(recipients, run, k, true) && failed == Count(recipients, run, k, false)
  }

  lemma {:induction false} CountTransfers(r: Recipients, s: Recipients, run: RunId, k: nat, ok: bool)
    requires SameMarks(r, s, run)
    ensures Count(r, run, k, ok) == Count(s, run, k, ok)
  {
    if k > 0 {
      CountTransfers(r, s, run, k - 1, ok);
    }
  }

  /** The tables agree on which rows of the run exist and what the loop recorded for them. */
  ghost predicate SameMarks(r: Recipients, s: Recipients, run: RunId) {
    forall i: nat :: var id := RecipientId(run, i); (id in r <==> id in s) && (id in r ==> r[id].marked == s[id].marked)
  }

  lemma ProgressTransfers(r: Recipients, s: Recipients, run: RunId, k: nat, total: nat, queued: nat, failed: nat)
    requires Progress(r, run, k, total, queued, failed) && SameMarks(r, s, run)
    ensures Progress(s, run, k, total, queued, failed)
  {
    CountTransfers(r, s, run, k, true);
    CountTransfers(r, s, run, k, false);
  }

  lemma {:induction false} EveryoneIsCounted(recipients: Recipients, run: RunId, k: nat, total: nat)
    requires k <= total && HasRows(recipients, run, total)
    requires forall i: nat | i < k :: recipients[RecipientId(run, i)].marked.Some?
    ensures Count(recipients, run, k, true) + Count(recipients, run, k, false) == k
  {
    if k > 0 {
      EveryoneIsCounted(recipients, run, k - 1, total);
      var id := RecipientId(run, k - 1);
      assert id in recipients && recipients[id].marked.Some?;
      assert recipients[id].marked.value || recipients[id].marked == Some(false);
    }
  }

  // ---------------------------------------------------------------- the invariant

  predicate RecipientOk(r: Recipient) {
    && (r.status == Pending <==> r.marked.None?) && r.jobs <= 1
    && (r.marked.None? ==> r.jobs == 0) && (r.marked == Some(true) ==> r.jobs == 1)
  }

  ghost predicate RecipientsOk(recipients: Recipients, nextRun: RunId) {
    forall id | id in recipients :: id.run < nextRun && RecipientOk(recipients[id])
  }

  ghost predicate RunOk(id: RunId, r: Run, recipients: Recipients) {
    && r.total <= MAX_BROADCAST_BATCH && HasRows(recipients, id, r.total)
    && (r.total == 0 ==> r == Run(Completed, 0, 0, 0, 0))
    && (r.total > 0 ==> r.starts == if r.status == Scheduled then 0 else 1)
    && (r.status == Scheduled ==> Progress(recipients, id, 0, r.total, 0, 0))
    && (r.status == Scheduled || r.status == Running ==> r.queuedCount == 0 && r.failedEnqueue == 0)
    && (r.status == Completed ==>
          r.failedEnqueue == 0 && Progress(recipients, id, r.total, r.total, r.queuedCount, r.failedEnqueue))
    && (r.queuedCount + r.failedEnqueue > 0 ==>
          Progress(recipients, id, r.total, r.total, r.queuedCount, r.failedEnqueue))
    && (r.status == PartialFailure && r.failedEnqueue == 0 ==> r.queuedCount == 0)
  }

  ghost predicate RunsOk(runs: map<RunId, Run>, recipients: Recipients, nextRun: RunId) {
    forall id | id in runs :: id < nextRun && RunOk(id, runs[id], recipients)
  }

  function Ids(run: RunId, lo: nat, hi: nat): seq<RecipientId>
    requires lo <= hi
  {
    seq(hi - lo, i requires 0 <= i => RecipientId(run, lo + i))
  }

  ghost predicate PhaseOk(p: Phase, runs: map<RunId, Run>, recipients: Recipients) {
    && p.run in runs && runs[p.run].status == Running
    && var total := runs[p.run].total;
       match p
       case Claimed(_, _) => Progress(recipients, p.run, 0, total, 0, 0)
       case Enqueuing(_, _, todo, queued, failed) =>
         && |todo| <= total && todo == Ids(p.run, total - |todo|, total)
         && Progress(recipients, p.run, total - |todo|, total, queued, failed)
  }

  ghost predicate PhasesOk(workers: map<WorkerId, Phase>, runs: map<RunId, Run>, recipients: Recipients) {
    forall w | w in workers :: PhaseOk(workers[w], runs, recipients)
  }

  /** No two workers are busy with the same run. */
  ghost predicate Exclusive(workers: map<WorkerId, Phase>) {
    forall v, w | v in workers && w in workers && workers[v].run == workers[w].run :: v == w
  }

  ghost predicate Inv(db: Db) {
    && RecipientsOk(db.recipients, db.nextRun) && RunsOk(db.runs, db.recipients, db.nextRun)
    && PhasesOk(db.workers, db.runs, db.recipients) && Exclusive(db.workers)
  }

  // ---------------------------------------------------------------- frames

  lemma RunTransfers(id: RunId, r: Run, s: Recipients, t: Recipients)
    requires RunOk(id, r, s) && SameMarks(s, t, id)
    ensures RunOk(id, r, t)
  {
    if r.status == Scheduled {
      ProgressTransfers(s, t, id, 0, r.total, 0, 0);
    }
    if r.status == Completed || r.queuedCount + r.failedEnqueue > 0 {
      ProgressTransfers(s, t, id, r.total, r.total, r.queuedCount, r.failedEnqueue);
    }
  }

  lemma PhaseTransfers(p: Phase, runs: map<RunId, Run>, more: map<RunId, Run>, s: Recipients, t: Recipients)
    requires PhaseOk(p, runs, s) && SameMarks(s, t, p.run) && p.run in more && more[p.run] == runs[p.run]
    ensures PhaseOk(p, more, t)
  {
    var total := runs[p.run].total;
    match p
    case Claimed(_, _) => ProgressTransfers(s, t, p.run, 0, total, 0, 0);
    case Enqueuing(_, _, todo, queued, failed) => ProgressTransfers(s, t, p.run, total - |todo|, total, queued, failed);
  }

  /** What concerns runs other than `id` is not affected by a step on `id`. */
  ghost predicate OnlyTouches(db: Db, d: Db, id: RunId) {
    && (forall r | r in db.runs && r != id :: r in d.runs && d.runs[r] == db.runs[r])
    && (forall r | r in d.runs && r != id :: r in db.runs)
    && (forall r | r in db.runs && r != id :: SameMarks(db.recipients, d.recipients, r))
    && (forall w | w in d.workers && d.workers[w].run != id :: w in db.workers && d.workers[w] == db.workers[w])
    && db.nextRun <= d.nextRun
  }

  /** To keep the invariant a step on one run has to care for that run, its rows and its worker only. */
  lemma StepOnOneRun(db: Db, d: Db, id: RunId)
    requires Inv(db) && OnlyTouches(db, d, id)
    requires id in d.runs ==> id < d.nextRun && RunOk(id, d.runs[id], d.recipients)
    requires forall w | w in d.workers && d.workers[w].run == id :: PhaseOk(d.workers[w], d.runs, d.recipients)
    requires RecipientsOk(d.recipients, d.nextRun)
    requires forall v, w | v in d.workers && w in d.workers && d.workers[v].run == d.workers[w].run == id :: v == w
    ensures Inv(d)
  {
    forall r | r in d.runs && r != id ensures r < d.nextRun && RunOk(r, d.runs[r], d.recipients) {
      RunTransfers(r, db.runs[r], db.recipients, d.recipients);
    }
    forall w | w in d.workers && d.workers[w].run != id ensures PhaseOk(d.workers[w], d.runs, d.recipients) {
      PhaseTransfers(db.workers[w], db.runs, d.runs, db.recipients, d.recipients);
    }
  }

  // ---------------------------------------------------------------- steps

  lemma NewRows(recipients: Recipients, run: RunId, total: nat)
    ensures Progress(recipients + Rows(run, total), run, 0, total, 0, 0)
  {
    var rows := Rows(run, total);
    assert forall i: nat | i < total :: RecipientId(run, i) in rows && rows[RecipientId(run, i)].marked.None?;
  }

  /** New rows and one more run, whatever becomes of it. */
  lemma InsertInv(db: Db, d: Db, total: nat)
    requires Inv(db) && total <= MAX_BROADCAST_BATCH && d.nextRun == db.nextRun + 1
    requires d.recipients == db.recipients + Rows(db.nextRun, total)
    requires db.nextRun in d.runs && d.runs == db.runs[db.nextRun := d.runs[db.nextRun]]
    requires RunOk(db.nextRun, d.runs[db.nextRun], d.recipients)
    requires forall w | w in d.workers && d.workers[w].run == db.nextRun :: PhaseOk(d.workers[w], d.runs, d.recipients)
    requires forall w | w in d.workers && d.workers[w].run != db.nextRun ::
               w in db.workers && d.workers[w] == db.workers[w]
    requires forall v, w | v in d.workers && w in d.workers && d.workers[v].run == d.workers[w].run == db.nextRun ::
               v == w
    ensures Inv(d)
  {
    var id := db.nextRun;
    forall r | r in db.runs ensures SameMarks(db.recipients, d.recipients, r) {
      assert forall i: nat :: RecipientId(r, i) !in Rows(id, total);
    }
    assert OnlyTouches(db, d, id);
    StepOnOneRun(db, d, id);
  }

  lemma CreateInv(db: Db, w: WorkerId, matching: nat, limit: int, schedule: bool)
    requires Inv(db) && w !in db.workers
    ensures Inv(Create(db, w, matching, limit, schedule))
  {
    var d, id, total := Create(db, w, matching, limit, schedule), db.nextRun, Min(matching, Take(limit));
    NewRows(db.recipients, id, total);
    assert forall v | v in db.workers :: db.workers[v].run in db.runs;
    InsertInv(db, d, total);
  }

  lemma ClaimInv(db: Db, w: WorkerId, id: RunId, cron: bool)
    requires Inv(db) && w !in db.workers
    ensures Inv(Claim(db, w, id, cron))
  {
    if id in db.runs && db.runs[id].status == Scheduled {
      var d := Claim(db, w, id, cron);
      assert RunOk(id, db.runs[id], db.recipients);
      assert OnlyTouches(db, d, id);
      StepOnOneRun(db, d, id);
    }
  }

  lemma {:induction false} AllPendingAreListed(recipients: Recipients, run: RunId, i: nat, total: nat)
    requires i <= total
    requires forall j: nat | i <= j < total ::
               RecipientId(run, j) in recipients && recipients[RecipientId(run, j)].status == Pending
    ensures PendingFrom(recipients, run, i, total) == Ids(run, i, total)
    decreases total - i
  {
    if i < total {
      AllPendingAreListed(recipients, run, i + 1, total);
      assert Ids(run, i, total) == [RecipientId(run, i)] + Ids(run, i + 1, total);
    }
  }

  /** The batch limit never cuts the audience of a run. */
  lemma BatchIsWholeAudience(recipients: Recipients, run: RunId, total: nat, nextRun: RunId)
    requires RecipientsOk(recipients, nextRun) && Progress(recipients, run, 0, total, 0, 0)
             && total <= MAX_BROADCAST_BATCH
    ensures Batch(recipients, run, total) == Ids(run, 0, total)
  {
    forall j: nat | j < total ensures recipients[RecipientId(run, j)].status == Pending {
      assert RecipientOk(recipients[RecipientId(run, j)]);
    }
    AllPendingAreListed(recipients, run, 0, total);
  }

  lemma StartInv(db: Db, w: WorkerId)
    requires Inv(db)
    ensures Inv(Start(db, w))
  {
    if w in db.workers && db.workers[w].Claimed? {
      var d, p := Start(db, w), db.workers[w];
      assert PhaseOk(p, db.runs, db.recipients) && RunOk(p.run, db.runs[p.run], db.recipients);
      BatchIsWholeAudience(db.recipients, p.run, db.runs[p.run].total, db.nextRun);
      assert OnlyTouches(db, d, p.run);
      StepOnOneRun(db, d, p.run);
    }
  }

  /** Recording the next recipient advances the tally. */
  lemma ProgressAdvances(s: Recipients, run: RunId, k: nat, total: nat, queued: nat, failed: nat, o: Outcome)
    requires Progress(s, run, k, total, queued, failed) && k < total
    ensures var id := RecipientId(run, k);
            && id in s
            && Progress(s[id := Mark(s[id], o)], run, k + 1, total,
                        if o == Added then queued + 1 else queued, if o == Added then failed else failed + 1)
  {
    var id := RecipientId(run, k);
    assert id in s;
    var t := s[id := Mark(s[id], o)];
    CountBelow(s, t, run, k, true);
    CountBelow(s, t, run, k, false);
  }

  lemma {:induction false} CountBelow(s: Recipients, t: Recipients, run: RunId, k: nat, ok: bool)
    requires forall i: nat | i < k ::
               var id := RecipientId(run, i);
               (id in s <==> id in t) && (id in s ==> s[id] == t[id])
    ensures Count(s, run, k, ok) == Count(t, run, k, ok)
  {
    if k > 0 {
      CountBelow(s, t, run, k - 1, ok);
    }
  }

  /** A step of a busy worker that changes its run and phase at most touches that run only. */
  lemma WorkerTouches(db: Db, d: Db, w: WorkerId)
    requires w in db.workers && db.workers[w].run in db.runs && d.nextRun == db.nextRun
    requires d.runs.Keys == db.runs.Keys && forall r | r in db.runs && r != db.workers[w].run :: d.runs[r] == db.runs[r]
    requires forall r | r in db.runs && r != db.workers[w].run :: SameMarks(db.recipients, d.recipients, r)
    requires d.workers == db.workers - {w}
             || (w in d.workers && d.workers[w].run == db.workers[w].run && d.workers == db.workers[w := d.workers[w]])
    ensures OnlyTouches(db, d, db.workers[w].run)
  {
  }

  lemma MarkRow(s: Recipients, t: Recipients, id: RecipientId, o: Outcome, nextRun: RunId)
    requires RecipientsOk(s, nextRun) && id in s && s[id].marked.None? && t == s[id := Mark(s[id], o)]
    ensures RecipientsOk(t, nextRun)
    ensures forall r | r != id.run :: SameMarks(s, t, r)
  {
    assert RecipientOk(s[id]);
  }

  /** The worker's next phase after one round fits the new rows. */
  lemma ProcessPhase(db: Db, w: WorkerId, o: Outcome)
    requires Inv(db) && w in db.workers && db.workers[w].Enqueuing? && db.workers[w].todo != []
    ensures var p, d := db.workers[w], Process(db, w, o);
            && p.todo[0] in db.recipients && p.todo[0].run == p.run && db.recipients[p.todo[0]].marked.None?
            && w in d.workers && d.workers[w].run == p.run && PhaseOk(d.workers[w], d.runs, d.recipients)
  {
    var p := db.workers[w];
    assert PhaseOk(p, db.runs, db.recipients);
    var run, total := p.run, db.runs[p.run].total;
    var k := total - |p.todo|;
    assert p.todo[0] == Ids(run, k, total)[0] == RecipientId(run, k);
    assert p.todo[1..] == Ids(run, k + 1, total);
    ProgressAdvances(db.recipients, run, k, total, p.queued, p.failed, o);
  }

  lemma ProcessInv(db: Db, w: WorkerId, o: Outcome)
    requires Inv(db)
    ensures Inv(Process(db, w, o))
  {
    if w in db.workers && db.workers[w].Enqueuing? && db.workers[w].todo != [] {
      var d, p := Process(db, w, o), db.workers[w];
      ProcessPhase(db, w, o);
      MarkRow(db.recipients, d.recipients, p.todo[0], o, db.nextRun);
      assert PhaseOk(p, db.runs, db.recipients);
      WorkerMoves(db, d, w);
    }
  }

  /** A worker goes on with its run, touching rows of that run only. */
  lemma WorkerMoves(db: Db, d: Db, w: WorkerId)
    requires Inv(db) && w in db.workers && w in d.workers && d.workers[w].run == db.workers[w].run
    requires db.workers[w].run in db.runs && db.runs[db.workers[w].run].status == Running
    requires d.runs == db.runs && d.nextRun == db.nextRun && d.workers == db.workers[w := d.workers[w]]
    requires forall r | r != db.workers[w].run :: SameMarks(db.recipients, d.recipients, r)
    requires RecipientsOk(d.recipients, d.nextRun) && db.recipients.Keys <= d.recipients.Keys
    requires PhaseOk(d.workers[w], d.runs, d.recipients)
    ensures Inv(d)
  {
    var run := db.workers[w].run;
    assert RunOk(run, db.runs[run], db.recipients);
    RunningRowsAreFree(run, db.runs[run], db.recipients, d.recipients);
    WorkerTouches(db, d, w);
    StepOnOneRun(db, d, run);
  }

  /** A running run makes no promise about its rows but that they exist. */
  lemma RunningRowsAreFree(id: RunId, r: Run, s: Recipients, t: Recipients)
    requires RunOk(id, r, s) && r.status == Running && s.Keys <= t.Keys
    ensures RunOk(id, r, t)
  {
  }

  /** A worker leaves its run, whose row is in order, and touches nothing else. */
  lemma WorkerLeaves(db: Db, d: Db, w: WorkerId)
    requires Inv(db) && w in db.workers && db.workers[w].run in db.runs
    requires d.recipients == db.recipients && d.nextRun == db.nextRun && d.workers == db.workers - {w}
    requires d.runs.Keys == db.runs.Keys
    requires forall r | r in db.runs && r != db.workers[w].run :: d.runs[r] == db.runs[r]
    requires RunOk(db.workers[w].run, d.runs[db.workers[w].run], d.recipients)
    ensures Inv(d)
  {
    SameTable(db.recipients);
    WorkerTouches(db, d, w);
    StepOnOneRun(db, d, db.workers[w].run);
  }

  lemma SameTable(recipients: Recipients)
    ensures forall r: RunId :: SameMarks(recipients, recipients, r)
  {
  }

  lemma FinishInv(db: Db, w: WorkerId)
    requires Inv(db)
    ensures Inv(Finish(db, w))
  {
    if w in db.workers && db.workers[w].Enqueuing? && db.workers[w].todo == [] {
      var p := db.workers[w];
      assert PhaseOk(p, db.runs, db.recipients) && RunOk(p.run, db.runs[p.run], db.recipients);
      WorkerLeaves(db, Finish(db, w), w);
    }
  }

  lemma AbortInv(db: Db, w: WorkerId)
    requires Inv(db)
    ensures Inv(Abort(db, w))
  {
    if w in db.workers {
      var p := db.workers[w];
      assert PhaseOk(p, db.runs, db.recipients) && RunOk(p.run, db.runs[p.run], db.recipients);
      WorkerLeaves(db, Abort(db, w), w);
    }
  }

  lemma DeliverInv(db: Db, id: RecipientId, status: RecipientStatus)
    requires Inv(db)
    ensures Inv(Deliver(db, id, status))
  {
    if id in db.recipients && db.recipients[id].jobs > 0 && status != Pending {
      var d := Deliver(db, id, status);
      assert RecipientOk(db.recipients[id]);
      assert forall r: RunId :: SameMarks(db.recipients, d.recipients, r);
      forall r | r in d.runs ensures RunOk(r, d.runs[r], d.recipients) {
        RunTransfers(r, db.runs[r], db.recipients, d.recipients);
      }
      forall w | w in d.workers ensures PhaseOk(d.workers[w], d.runs, d.recipients) {
        PhaseTransfers(db.workers[w], db.runs, d.runs, db.recipients, d.recipients);
      }
    }
  }

  lemma StepInv(db: Db, s: Step)
    requires Inv(db)
    ensures Inv(Apply(db, s))
  {
    match s
    case DoCreate(w, matching, limit, schedule) => if w !in db.workers { CreateInv(db, w, matching, limit, schedule); }
    case DoClaim(w, run, cron) => if w !in db.workers { ClaimInv(db, w, run, cron); }
    case DoStart(w) => StartInv(db, w);
    case DoProcess(w, o) => ProcessInv(db, w, o);
    case DoFinish(w) => FinishInv(db, w);
    case DoAbort(w) => AbortInv(db, w);
    case DoDeliver(id, status) => DeliverInv(db, id, status);
  }

  lemma {:induction false} RunInv(steps: seq<Step>)
    ensures Inv(RunAll(EMPTY, steps))
    decreases |steps|
  {
    if steps != [] {
      RunInv(steps[..|steps| - 1]);
      StepInv(RunAll(EMPTY, steps[..|steps| - 1]), steps[|steps| - 1]);
    }
  }

  // ---------------------------------------------------------------- main results

  /** Under every interleaving a run is enqueued at most once, by at most one worker at a time. */
  lemma EnqueuedAtMostOnce(steps: seq<Step>, id: RunId, v: WorkerId, w: WorkerId)
    ensures var db := RunAll(EMPTY, steps);
            && (id in db.runs ==> db.runs[id].starts <= 1)
            && (v in db.workers && w in db.workers && db.workers[v].run == db.workers[w].run ==> v == w)
  {
    RunInv(steps);
    var db := RunAll(EMPTY, steps);
    if id in db.runs {
      assert RunOk(id, db.runs[id], db.recipients);
    }
  }

  /** In every run the batch limit cuts no audience: a worker about to start reads all the rows of its run. */
  lemma EveryBatchIsWhole(steps: seq<Step>, w: WorkerId)
    requires var db := RunAll(EMPTY, steps); w in db.workers && db.workers[w].Claimed?
    ensures var db := RunAll(EMPTY, steps);
            var run := db.workers[w].run;
            run in db.runs && Batch(db.recipients, run, db.runs[run].total) == Ids(run, 0, db.runs[run].total)
  {
    RunInv(steps);
    var db := RunAll(EMPTY, steps);
    var run := db.workers[w].run;
    assert PhaseOk(db.workers[w], db.runs, db.recipients) && RunOk(run, db.runs[run], db.recipients);
    BatchIsWholeAudience(db.recipients, run, db.runs[run].total, db.nextRun);
  }

  /** At most one send job is added per recipient, exactly one if it is recorded as queued, none while it is pending. */
  lemma OneJobPerRecipient(steps: seq<Step>, id: RecipientId)
    requires id in RunAll(EMPTY, steps).recipients
    ensures var r := RunAll(EMPTY, steps).recipients[id];
            r.jobs <= 1 && (r.marked == Some(true) ==> r.jobs == 1) && (r.status == Pending ==> r.jobs == 0)
  {
    RunInv(steps);
    assert RecipientOk(RunAll(EMPTY, steps).recipients[id]);
  }

  predicate Ended(r: Run) {
    r.status == Completed || r.status == PartialFailure
  }

  ghost predicate NonePending(recipients: Recipients, run: RunId, total: nat) {
    forall i: nat | i < total :: RecipientId(run, i) in recipients && recipients[RecipientId(run, i)].status != Pending
  }

  /** Nobody is left pending and the counters add up to the audience, each telling what the loop recorded. */
  ghost predicate Settled(db: Db, id: RunId)
    requires id in db.runs
  {
    var r := db.runs[id];
    && NonePending(db.recipients, id, r.total)
    && r.queuedCount + r.failedEnqueue == r.total
    && r.queuedCount == Count(db.recipients, id, r.total, true)
    && r.failedEnqueue == Count(db.recipients, id, r.total, false)
  }

  lemma FullProgressSettles(db: Db, id: RunId)
    requires Inv(db) && id in db.runs
    requires var r := db.runs[id]; Progress(db.recipients, id, r.total, r.total, r.queuedCount, r.failedEnqueue)
    ensures Settled(db, id)
  {
    var total := db.runs[id].total;
    forall i: nat | i < total
      ensures RecipientId(id, i) in db.recipients && db.recipients[RecipientId(id, i)].status != Pending
    {
      assert RecipientOk(db.recipients[RecipientId(id, i)]);
    }
    EveryoneIsCounted(db.recipients, id, total, total);
  }

  /** An ended run is settled exactly when it is marked completed or shows a counter. */
  lemma SettledShowsInTheRow(steps: seq<Step>, id: RunId)
    requires var db := RunAll(EMPTY, steps); id in db.runs && Ended(db.runs[id])
    ensures var db := RunAll(EMPTY, steps);
            Settled(db, id)
            <==> db.runs[id].status == Completed || db.runs[id].queuedCount + db.runs[id].failedEnqueue > 0
  {
    RunInv(steps);
    var db := RunAll(EMPTY, steps);
    assert RunOk(id, db.runs[id], db.recipients);
    if db.runs[id].status == Completed || db.runs[id].queuedCount + db.runs[id].failedEnqueue > 0 {
      FullProgressSettles(db, id);
    }
  }

  /** The status tells the two ends apart: completed means that every recipient was queued. */
  lemma CompletedMeansAllQueued(steps: seq<Step>, id: RunId)
    requires var db := RunAll(EMPTY, steps); id in db.runs && db.runs[id].status == Completed
    ensures var r := RunAll(EMPTY, steps).runs[id]; r.queuedCount == r.total && r.failedEnqueue == 0
  {
    SettledShowsInTheRow(steps, id);
    RunInv(steps);
    var db := RunAll(EMPTY, steps);
    assert RunOk(id, db.runs[id], db.recipients);
  }
}
