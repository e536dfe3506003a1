/** What a broadcast request, a claim and an enqueue loop leave behind, told from what happens to each recipient. */
module BroadcastOutcomes {
  import opened Common
  import opened BroadcastModel
  import opened BroadcastInvariants
  import opened BroadcastService

  // ---------------------------------------------------------------- a new run

  /** As many as match, but no more than asked for, at least one of them, and no more than 500. */
  predicate IsAudience(total: nat, matching: nat, limit: int) {
    && total <= matching && total <= 500 && (limit >= 1 ==> total <= limit) && (limit < 1 ==> total <= 1)
    && (total == matching || total == 500 || total == limit || (limit < 1 && total == 1))
  }

  /** A run of `total` recipients has been added whose rows are all pending. */
  ghost predicate RunAdded(db: Db, d: Db, total: nat) {
    && d.nextRun == db.nextRun + 1 && db.nextRun !in db.runs
    && d.runs.Keys == db.runs.Keys + {db.nextRun} && (forall r | r in db.runs :: d.runs[r] == db.runs[r])
    && (forall id :: id in d.recipients <==> id in db.recipients || (id.run == db.nextRun && id.channel < total))
    && (forall id | id in d.recipients ::
          d.recipients[id] == if id.run == db.nextRun then Recipient(Pending, 0, None) else db.recipients[id])
  }

  lemma AudienceIs(matching: nat, limit: int)
    ensures IsAudience(Min(matching, Take(limit)), matching, limit)
  {
  }

  lemma CreateOutcome(db: Db, w: WorkerId, matching: nat, limit: int, schedule: bool)
    requires Inv(db) && w !in db.workers
    ensures var d := Create(db, w, matching, limit, schedule);
            && db.nextRun in d.runs
            && var r := d.runs[db.nextRun];
               && IsAudience(r.total, matching, limit) && RunAdded(db, d, r.total)
               && r.queuedCount == r.failedEnqueue == 0
               && r.status == (if matching == 0 then Completed else if schedule then Scheduled else Running)
               && d.workers == if r.status == Running then db.workers[w := Claimed(db.nextRun, false)] else db.workers
  {
    AudienceIs(matching, limit);
  }

  /** A claim starts a run exactly if it is scheduled, and changes nothing else. */
  lemma ClaimOutcome(db: Db, w: WorkerId, id: RunId, cron: bool)
    ensures var d := Claim(db, w, id, cron);
            if id in db.runs && db.runs[id].status == Scheduled then
              && d.recipients == db.recipients && d.nextRun == db.nextRun
              && d.runs == db.runs[id := d.runs[id]] && d.runs[id].status == Running
              && d.runs[id].total == db.runs[id].total && d.runs[id].queuedCount == db.runs[id].queuedCount
              && d.runs[id].failedEnqueue == db.runs[id].failedEnqueue
              && d.workers == db.workers[w := Claimed(id, cron)]
            else d == db
  {
  }

  // ---------------------------------------------------------------- the enqueue loop

  /** How many of the first `k` recipients are queued. */
  function QueuedOf(outcome: Outcomes, run: RunId, k: nat): (n: nat)
    ensures n <= k
  {
    if k == 0 then 0 else QueuedOf(outcome, run, k - 1) + if outcome(RecipientId(run, k - 1)) == Added then 1 else 0
  }

  /** A row after its round: queued with one job more, or failed with the job that came before the error, if any. */
  predicate Handled(r: Recipient, s: Recipient, o: Outcome) {
    && s.status == (if o == Added then Queued else Failed) && s.marked == Some(o == Added)
    && s.jobs == r.jobs + if o == ErrorBefore then 0 else 1
  }

  /** The loop has handled the first `k` recipients of the run, and touched no other. */
  ghost predicate FirstHandled(s: Recipients, t: Recipients, run: RunId, k: nat, outcome: Outcomes) {
    && t.Keys == s.Keys
    && forall id | id in s ::
         if id.run == run && id.channel < k then Handled(s[id], t[id], outcome(id)) else t[id] == s[id]
  }

  lemma OneMoreHandled(s: Recipients, t: Recipients, run: RunId, k: nat, outcome: Outcomes)
    requires FirstHandled(s, t, run, k, outcome) && RecipientId(run, k) in s
    ensures var id := RecipientId(run, k);
            FirstHandled(s, t[id := Mark(t[id], outcome(id))], run, k + 1, outcome)
  {
  }

  /** After `k` rounds of the loop. */
  ghost predicate AtRound(db: Db, d: Db, w: WorkerId, run: RunId, cron: bool, k: nat, total: nat, outcome: Outcomes) {
    && k <= total && d.runs == db.runs && d.nextRun == db.nextRun
    && d.workers == db.workers[w := Enqueuing(run, cron, Ids(run, k, total), QueuedOf(outcome, run, k),
                                              k - QueuedOf(outcome, run, k))]
    && FirstHandled(db.recipients, d.recipients, run, k, outcome)
  }

  lemma RoundOutcome(db: Db, d: Db, w: WorkerId, run: RunId, cron: bool, k: nat, total: nat, outcome: Outcomes)
    requires AtRound(db, d, w, run, cron, k, total, outcome) && HasRows(db.recipients, run, total) && k < total
    ensures AtRound(db, Round(d, w, outcome), w, run, cron, k + 1, total, outcome)
  {
    var id := RecipientId(run, k);
    IdsHead(run, k, total);
    assert id in db.recipients;
    OneMoreHandled(db.recipients, d.recipients, run, k, outcome);
    ProcessIs(d, w, outcome(id));
    var next := Process(d, w, outcome(id)).workers[w];
    assert d.workers[w := next] == db.workers[w := next];
  }

  lemma IdsHead(run: RunId, k: nat, total: nat)
    requires k < total
    ensures Ids(run, k, total) == [RecipientId(run, k)] + Ids(run, k + 1, total)
  {
  }

  lemma ProcessIs(d: Db, w: WorkerId, o: Outcome)
    requires w in d.workers && d.workers[w].Enqueuing? && d.workers[w].todo != []
    requires d.workers[w].todo[0] in d.recipients
    ensures var p, id := d.workers[w], d.workers[w].todo[0];
            var q := if o == Added then 1 else 0;
            Process(d, w, o)
            == d.(recipients := d.recipients[id := Mark(d.recipients[id], o)],
                  workers := d.workers[w := Enqueuing(p.run, p.cron, p.todo[1..], p.queued + q, p.failed + (1 - q))])
  {
  }

  lemma IdleRound(db: Db, d: Db, w: WorkerId, run: RunId, cron: bool, total: nat, outcome: Outcomes)
    requires AtRound(db, d, w, run, cron, total, total, outcome)
    ensures Round(d, w, outcome) == d
  {
    assert d.workers[w].todo == [];
  }

  lemma NextRound(db: Db, d: Db, w: WorkerId, run: RunId, cron: bool, total: nat, outcome: Outcomes, rounds: nat)
    requires AtRound(db, d, w, run, cron, Min(rounds, total), total, outcome) && HasRows(db.recipients, run, total)
    ensures AtRound(db, Round(d, w, outcome), w, run, cron, Min(rounds + 1, total), total, outcome)
  {
    if rounds < total {
      RoundOutcome(db, d, w, run, cron, rounds, total, outcome);
    } else {
      IdleRound(db, d, w, run, cron, total, outcome);
    }
  }

  lemma {:induction false} LoopOutcome(db: Db, begun: Db, w: WorkerId, run: RunId, cron: bool, total: nat,
                                       outcome: Outcomes, rounds: nat)
    requires AtRound(db, begun, w, run, cron, 0, total, outcome) && HasRows(db.recipients, run, total)
    ensures AtRound(db, Loop(begun, w, outcome, rounds), w, run, cron, Min(rounds, total), total, outcome)
    decreases rounds
  {
    if rounds > 0 {
      LoopOutcome(db, begun, w, run, cron, total, outcome, rounds - 1);
      NextRound(db, Loop(begun, w, outcome, rounds - 1), w, run, cron, total, outcome, rounds - 1);
    }
  }

  lemma StartOutcome(db: Db, w: WorkerId, outcome: Outcomes)
    requires Inv(db) && w in db.workers && db.workers[w].Claimed?
    ensures var p := db.workers[w];
            && p.run in db.runs && HasRows(db.recipients, p.run, db.runs[p.run].total)
            && AtRound(db, Start(db, w), w, p.run, p.cron, 0, db.runs[p.run].total, outcome)
  {
    var run := db.workers[w].run;
    assert PhaseOk(db.workers[w], db.runs, db.recipients) && RunOk(run, db.runs[run], db.recipients);
    BatchIsWholeAudience(db.recipients, run, db.runs[run].total, db.nextRun);
  }

  lemma EnqueuedOutcome(db: Db, w: WorkerId, outcome: Outcomes, throws: Option<nat>)
    requires Inv(db) && w in db.workers && db.workers[w].Claimed?
    ensures var p := db.workers[w];
            && p.run in db.runs
            && var total := db.runs[p.run].total;
               AtRound(db, Enqueued(db, w, outcome, throws), w, p.run, p.cron,
                       if throws.Some? then Min(throws.value, total) else total, total, outcome)
  {
    var p := db.workers[w];
    StartOutcome(db, w, outcome);
    var total := db.runs[p.run].total;
    var begun := Start(db, w);
    assert |begun.workers[w].todo| == total;
    LoopOutcome(db, begun, w, p.run, p.cron, total, outcome, if throws.Some? then throws.value else total);
  }

  /** The row of a run after `enqueueRun`: without a throw it ends with its counters, else only the cron job ends it. */
  predicate Ends(r: Run, s: Run, id: RunId, cron: bool, outcome: Outcomes, throws: Option<nat>) {
    var queued := QueuedOf(outcome, id, r.total);
    && s.total == r.total && s.starts == r.starts
    && (throws.None? ==>
          && s.queuedCount == r.queuedCount + queued && s.failedEnqueue == r.failedEnqueue + (r.total - queued)
          && s.status == if queued == r.total then Completed else PartialFailure)
    && (throws.Some? ==>
          && s.queuedCount == r.queuedCount && s.failedEnqueue == r.failedEnqueue
          && s.status == if cron then PartialFailure else r.status)
  }

  /**
   * A claimed run whose loop is not interrupted handles every recipient, in order and once, and its row counts them;
   * one that throws after `k` recipients has handled these and leaves the others as they are.
   */
  ghost predicate Enqueues(db: Db, d: Db, w: WorkerId, id: RunId, cron: bool, outcome: Outcomes, throws: Option<nat>)
    requires id in db.runs
  {
    var total := db.runs[id].total;
    && d.workers == db.workers - {w} && d.nextRun == db.nextRun
    && d.runs.Keys == db.runs.Keys && (forall r | r in db.runs && r != id :: d.runs[r] == db.runs[r])
    && Ends(db.runs[id], d.runs[id], id, cron, outcome, throws)
    && FirstHandled(db.recipients, d.recipients, id, if throws.Some? then Min(throws.value, total) else total, outcome)
  }

  lemma EnqueueOutcome(db: Db, w: WorkerId, outcome: Outcomes, throws: Option<nat>)
    requires Inv(db) && w in db.workers && db.workers[w].Claimed?
    ensures var p := db.workers[w];
            p.run in db.runs && Enqueues(db, Enqueue(db, w, outcome, throws), w, p.run, p.cron, outcome, throws)
  {
    var p := db.workers[w];
    EnqueuedOutcome(db, w, outcome, throws);
    var after := Enqueued(db, w, outcome, throws);
    assert after.workers - {w} == db.workers - {w};
    if throws.None? {
      assert after.workers[w].todo == [];
    }
  }

  // ---------------------------------------------------------------- requests

  /** A due run is enqueued by the cron job exactly if it is still scheduled. */
  lemma CronOutcome(db: Db, id: RunId, outcome: Outcomes, throws: Option<nat>)
    requires Inv(db) && 0 !in db.workers
    ensures var (c, d) := (Claim(db, 0, id, true), CronOne(db, id, outcome, throws));
            if id in db.runs && db.runs[id].status == Scheduled
            then id in c.runs && Enqueues(c, d, 0, id, true, outcome, throws) else d == db
  {
    ClaimOutcome(db, 0, id, true);
    if id in db.runs && db.runs[id].status == Scheduled {
      var c := Claim(db, 0, id, true);
      ClaimInv(db, 0, id, true);
      assert 0 in c.workers;
      EnqueueOutcome(c, 0, outcome, throws);
    }
  }

  /** A broadcast sent at once has its whole audience handled; one for later, or without an audience, is only stored. */
  lemma SendOutcome(db: Db, matching: nat, limit: int, schedule: bool, outcome: Outcomes, throws: Option<nat>)
    requires Inv(db) && 0 !in db.workers
    ensures var (c, d) := (Create(db, 0, matching, limit, schedule),
                           Send(db, matching, limit, schedule, outcome, throws));
            if matching == 0 || schedule then d == c
            else db.nextRun in c.runs && Enqueues(c, d, 0, db.nextRun, false, outcome, throws)
  {
    CreateOutcome(db, 0, matching, limit, schedule);
    if matching > 0 && !schedule {
      CreateInv(db, 0, matching, limit, schedule);
      EnqueueOutcome(Create(db, 0, matching, limit, schedule), 0, outcome, throws);
    }
  }
}
