/** The broadcast methods as one process runs them, with the enqueue and cron loops. */
module BroadcastService {
  import opened Common
  import opened BroadcastModel
  import opened BroadcastInvariants

  type Outcomes = RecipientId -> Outcome

  /** The next round of the enqueue loop that worker `w` is in, if there is one. */
  function Round(db: Db, w: WorkerId, outcome: Outcomes): Db {
    if w in db.workers && db.workers[w].Enqueuing? && db.workers[w].todo != [] then
      Process(db, w, outcome(db.workers[w].todo[0]))
    else db
  }

  /** Up to `rounds` rounds. */
  function Loop(db: Db, w: WorkerId, outcome: Outcomes, rounds: nat): Db {
    if rounds == 0 then db else Round(Loop(db, w, outcome, rounds - 1), w, outcome)
  }

  /** A claimed run after the rounds of the enqueue loop that it gets: all of them, or those before the throw. */
  function Enqueued(db: Db, w: WorkerId, outcome: Outcomes, throws: Option<nat>): Db {
    var begun := Start(db, w);
    Loop(begun, w, outcome,
         if throws.Some? then throws.value
         else if w in begun.workers && begun.workers[w].Enqueuing? then |begun.workers[w].todo| else 0)
  }

  /** `enqueueRun` and its caller's `catch`; `throws` says after how many recipients it throws, if at all. */
  function Enqueue(db: Db, w: WorkerId, outcome: Outcomes, throws: Option<nat>): Db {
    var after := Enqueued(db, w, outcome, throws);
    if throws.Some? then Abort(after, w) else Finish(after, w)
  }

  /** One due run of the cron job, skipped if another worker has it. */
  function CronOne(db: Db, id: RunId, outcome: Outcomes, throws: Option<nat>): Db {
    var c := Claim(db, 0, id, true);
    if c.workers == db.workers then c else Enqueue(c, 0, outcome, throws)
  }

  function CronAll(db: Db, due: seq<RunId>, outcome: Outcomes, throws: RunId -> Option<nat>): Db {
    if due == [] then db
    else
      var last := due[|due| - 1];
      CronOne(CronAll(db, due[..|due| - 1], outcome, throws), last, outcome, throws(last))
  }

  function Send(db: Db, matching: nat, limit: int, schedule: bool, outcome: Outcomes, throws: Option<nat>): Db {
    var c := Create(db, 0, matching, limit, schedule);
    if 0 in c.workers then Enqueue(c, 0, outcome, throws) else c
  }

  // ---------------------------------------------------------------- they are runs of the machine

  lemma {:induction false} LoopInv(db: Db, w: WorkerId, outcome: Outcomes, rounds: nat)
    requires Inv(db)
    ensures Inv(Loop(db, w, outcome, rounds))
    decreases rounds
  {
    if rounds > 0 {
      var before := Loop(db, w, outcome, rounds - 1);
      LoopInv(db, w, outcome, rounds - 1);
      if w in before.workers && before.workers[w].Enqueuing? && before.workers[w].todo != [] {
        ProcessInv(before, w, outcome(before.workers[w].todo[0]));
      }
    }
  }

  lemma EnqueueInv(db: Db, w: WorkerId, outcome: Outcomes, throws: Option<nat>)
    requires Inv(db)
    ensures Inv(Enqueue(db, w, outcome, throws))
  {
    var begun := Start(db, w);
    StartInv(db, w);
    LoopInv(begun, w, outcome,
            if throws.Some? then throws.value
            else if w in begun.workers && begun.workers[w].Enqueuing? then |begun.workers[w].todo| else 0);
    FinishInv(Enqueued(db, w, outcome, throws), w);
    AbortInv(Enqueued(db, w, outcome, throws), w);
  }

  lemma CronOneInv(db: Db, id: RunId, outcome: Outcomes, throws: Option<nat>)
    requires Inv(db) && 0 !in db.workers
    ensures Inv(CronOne(db, id, outcome, throws))
  {
    ClaimInv(db, 0, id, true);
    EnqueueInv(Claim(db, 0, id, true), 0, outcome, throws);
  }

  lemma SendInv(db: Db, matching: nat, limit: int, schedule: bool, outcome: Outcomes, throws: Option<nat>)
    requires Inv(db) && 0 !in db.workers
    ensures Inv(Send(db, matching, limit, schedule, outcome, throws))
  {
    CreateInv(db, 0, matching, limit, schedule);
    EnqueueInv(Create(db, 0, matching, limit, schedule), 0, outcome, throws);
  }

  // ---------------------------------------------------------------- one worker in the loop

  /** The machine with one worker in the enqueue loop. */
  function At(db: Db, id: RunId, cron: bool, todo: seq<RecipientId>, queued: nat, failed: nat): Db {
    db.(workers := map[0 := Enqueuing(id, cron, todo, queued, failed)])
  }

  lemma RoundAt(db: Db, id: RunId, cron: bool, todo: seq<RecipientId>, queued: nat, failed: nat, outcome: Outcomes)
    requires todo != [] && todo[0] in db.recipients
    ensures var r := todo[0];
            var o := outcome(r);
            Round(At(db, id, cron, todo, queued, failed), 0, outcome)
            == At(db.(recipients := db.recipients[r := Mark(db.recipients[r], o)]), id, cron, todo[1..],
                  if o == Added then queued + 1 else queued, if o == Added then failed else failed + 1)
  {
  }

  lemma FinishAt(db: Db, id: RunId, cron: bool, queued: nat, failed: nat)
    requires db.workers == map[0 := Enqueuing(id, cron, [], queued, failed)] && id in db.runs
    ensures var run := db.runs[id];
            Finish(db, 0)
            == db.(workers := map[],
                   runs := db.runs[id := run.(queuedCount := run.queuedCount + queued,
                                              failedEnqueue := run.failedEnqueue + failed,
                                              status := if failed > 0 then PartialFailure else Completed)])
  {
    assert db.workers - {0} == map[];
  }

  /** Rounds beyond the end of the list do nothing. */
  lemma {:induction false} LoopEnds(db: Db, outcome: Outcomes, done: nat, rounds: nat)
    requires done <= rounds && 0 in Loop(db, 0, outcome, done).workers
    requires Loop(db, 0, outcome, done).workers[0].Enqueuing? && Loop(db, 0, outcome, done).workers[0].todo == []
    ensures Loop(db, 0, outcome, rounds) == Loop(db, 0, outcome, done)
    decreases rounds - done
  {
    if done < rounds {
      LoopEnds(db, outcome, done, rounds - 1);
    }
  }

  lemma {:induction false} PendingIn(recipients: Recipients, run: RunId, i: nat, total: nat)
    ensures forall id | id in PendingFrom(recipients, run, i, total) :: id in recipients
    decreases total - i
  {
    if i < total {
      PendingIn(recipients, run, i + 1, total);
    }
  }

  ghost predicate AllKnown(todo: seq<RecipientId>, recipients: Recipients) {
    forall i | 0 <= i < |todo| :: todo[i] in recipients
  }

  /** The tables and counters are those of the machine after `i` rounds. */
  ghost predicate Reached(begun: Db, db: Db, id: RunId, cron: bool, todo: seq<RecipientId>, i: nat,
                          queued: nat, failed: nat, outcome: Outcomes) {
    i <= |todo| && At(db, id, cron, todo[i..], queued, failed) == Loop(begun, 0, outcome, i)
  }

  lemma RowReached(begun: Db, db: Db, id: RunId, cron: bool, todo: seq<RecipientId>, i: nat,
                   queued: nat, failed: nat, outcome: Outcomes)
    requires Reached(begun, db, id, cron, todo, i, queued, failed, outcome)
    requires i < |todo| && AllKnown(todo, db.recipients)
    ensures var r := todo[i];
            var o := outcome(r);
            Reached(begun, db.(recipients := db.recipients[r := Mark(db.recipients[r], o)]), id, cron, todo, i + 1,
                    if o == Added then queued + 1 else queued, if o == Added then failed else failed + 1, outcome)
  {
    assert todo[i..][0] == todo[i] && todo[i..][1..] == todo[i + 1..];
    RoundAt(db, id, cron, todo[i..], queued, failed, outcome);
  }

  lemma EndReached(begun: Db, db: Db, id: RunId, cron: bool, todo: seq<RecipientId>, i: nat,
                   queued: nat, failed: nat, outcome: Outcomes, rounds: nat)
    requires Reached(begun, db, id, cron, todo, i, queued, failed, outcome) && i == Min(rounds, |todo|)
    ensures At(db, id, cron, todo[i..], queued, failed) == Loop(begun, 0, outcome, rounds)
  {
    if i == |todo| {
      assert todo[i..] == [];
      LoopEnds(begun, outcome, i, rounds);
    }
  }

  // ---------------------------------------------------------------- the service

  /** No worker is busy between two calls. */
  class Service {
    var runs: map<RunId, Run>
    var recipients: Recipients
    var nextRun: RunId

    ghost function State(): Db
      reads this
    {
      Db(runs, recipients, map[], nextRun)
    }

    constructor ()
      ensures State() == EMPTY && Inv(State())
    {
      runs, recipients, nextRun := map[], map[], 0;
    }

    /** One round of the loop, with the counters so far. */
    method EnqueueRow(r: RecipientId, o: Outcome, queued: nat, failed: nat) returns (q: nat, f: nat)
      requires r in recipients
      modifies this`recipients
      ensures recipients == old(recipients)[r := Mark(old(recipients)[r], o)]
      ensures q == (if o == Added then queued + 1 else queued) && f == if o == Added then failed else failed + 1
    {
      q, f := queued, failed;
      match o {
        case Added =>
          recipients := recipients[r := Recipient(Queued, recipients[r].jobs + 1, Some(true))];
          q := q + 1;
        case ErrorBefore =>
          recipients := recipients[r := Recipient(Failed, recipients[r].jobs, Some(false))];
          f := f + 1;
        case ErrorAfter =>
          recipients := recipients[r := Recipient(Failed, recipients[r].jobs + 1, Some(false))];
          f := f + 1;
      }
    }

    /** The loop of `enqueueRun` over the rows it has read, up to the round that throws, if any. */
    method EnqueueRows(todo: seq<RecipientId>, rounds: nat, ghost id: RunId, ghost cron: bool, outcome: Outcomes)
      returns (queued: nat, failed: nat)
      requires AllKnown(todo, recipients)
      modifies this`recipients
      ensures At(State(), id, cron, todo[Min(rounds, |todo|)..], queued, failed)
           == Loop(At(old(State()), id, cron, todo, 0, 0), 0, outcome, rounds)
    {
      queued, failed := 0, 0;
      var i := 0;
      ghost var begun := At(State(), id, cron, todo, 0, 0);
      assert todo[0..] == todo;
      while i < rounds && i < |todo|
        invariant 0 <= i <= |todo| && i <= rounds && AllKnown(todo, recipients)
        invariant Reached(begun, State(), id, cron, todo, i, queued, failed, outcome)
      {
        RowReached(begun, State(), id, cron, todo, i, queued, failed, outcome);
        queued, failed := EnqueueRow(todo[i], outcome(todo[i]), queued, failed);
        i := i + 1;
      }
      EndReached(begun, State(), id, cron, todo, i, queued, failed, outcome, rounds);
    }

    /** `enqueueRun` for a run that exists; a throw leaves the run's row to the caller. */
    method EnqueueRun(id: RunId, ghost cron: bool, outcome: Outcomes, throws: Option<nat>)
      requires id in runs
      modifies this`runs, this`recipients
      ensures var after := Enqueued(old(State()).(workers := map[0 := Claimed(id, cron)]), 0, outcome, throws);
              State() == if throws.Some? then after.(workers := map[]) else Finish(after, 0)
    {
      ghost var claimed := State().(workers := map[0 := Claimed(id, cron)]);
      var todo := Batch(recipients, id, runs[id].total);
      PendingIn(recipients, id, 0, runs[id].total);
      assert Start(claimed, 0) == At(State(), id, cron, todo, 0, 0);
      var rounds := if throws.Some? then throws.value else |todo|;
      var queued, failed := EnqueueRows(todo, rounds, id, cron, outcome);
      ghost var after := At(State(), id, cron, todo[Min(rounds, |todo|)..], queued, failed);
      assert after == Enqueued(claimed, 0, outcome, throws);
      if throws.Some? {
        return;
      }
      assert todo[Min(rounds, |todo|)..] == [];
      FinishAt(after, id, cron, queued, failed);
      var run := runs[id];
      runs := runs[id := run.(queuedCount := run.queuedCount + queued, failedEnqueue := run.failedEnqueue + failed,
                              status := if failed > 0 then PartialFailure else Completed)];
    }

    method ClaimRun(id: RunId) returns (claimed: bool)
      modifies this`runs
      ensures claimed <==> id in old(runs) && old(runs)[id].status == Scheduled
      ensures runs == Claim(old(State()), 0, id, true).runs
    {
      claimed := id in runs && runs[id].status == Scheduled;
      if claimed {
        runs := runs[id := runs[id].(status := Running, starts := runs[id].starts + 1)];
      }
    }

    /** One round of `processScheduledBroadcasts`. */
    method CronRun(id: RunId, outcome: Outcomes, throws: Option<nat>)
      requires Inv(State())
      modifies this`runs, this`recipients
      ensures State() == CronOne(old(State()), id, outcome, throws) && Inv(State())
    {
      CronOneInv(State(), id, outcome, throws);
      ClaimAndEnqueue(id, outcome, throws);
    }

    method ClaimAndEnqueue(id: RunId, outcome: Outcomes, throws: Option<nat>)
      modifies this`runs, this`recipients
      ensures State() == CronOne(old(State()), id, outcome, throws)
    {
      ghost var c := Claim(State(), 0, id, true);
      var claimed := ClaimRun(id);
      if !claimed {
        return;
      }
      assert c == State().(workers := map[0 := Claimed(id, true)]) && 0 in c.workers;
      ghost var after := Enqueued(c, 0, outcome, throws);
      EnqueueRun(id, true, outcome, throws);
      if throws.Some? {
        LoopKeepsRun(Start(c, 0), outcome, throws.value);
        assert 0 in after.workers && after.workers[0].run == id && after.workers[0].cron;
        runs := runs[id := runs[id].(status := PartialFailure)];
        assert after.workers - {0} == map[];
      }
    }

    /** `processScheduledBroadcasts` over the due runs found; some may have been claimed in the meantime. */
    method ProcessScheduledBroadcasts(due: seq<RunId>, outcome: Outcomes, throws: RunId -> Option<nat>)
      requires Inv(State())
      modifies this`runs, this`recipients
      ensures State() == CronAll(old(State()), due, outcome, throws) && Inv(State())
    {
      var i := 0;
      while i < |due|
        invariant 0 <= i <= |due| && nextRun == old(nextRun) && Inv(State())
        invariant State() == CronAll(old(State()), due[..i], outcome, throws)
      {
        CronRun(due[i], outcome, throws(due[i]));
        i := i + 1;
        assert due[..i][..i - 1] == due[..i - 1];
      }
      assert due[..i] == due;
    }

    /** The rows `sendBroadcast` inserts. */
    method InsertRun(matching: nat, limit: int, schedule: bool) returns (id: RunId, running: bool)
      modifies this
      ensures id == old(nextRun) && id in runs && (running <==> runs[id].status == Running)
      ensures Create(old(State()), 0, matching, limit, schedule)
              == State().(workers := if running then map[0 := Claimed(id, false)] else map[])
    {
      id := nextRun;
      var total := Min(matching, Take(limit));
      var status := if total == 0 then Completed else if schedule then Scheduled else Running;
      running := status == Running;
      runs := runs[id := Run(status, total, 0, 0, if running then 1 else 0)];
      recipients := recipients + Rows(id, total);
      nextRun := nextRun + 1;
    }

    /** `sendBroadcast`, with its enqueue loop if the run is not scheduled for later. */
    method SendBroadcast(matching: nat, limit: int, schedule: bool, outcome: Outcomes, throws: Option<nat>)
      returns (id: RunId)
      requires Inv(State())
      modifies this
      ensures Inv(State()) && id == old(nextRun)
      ensures State() == Send(old(State()), matching, limit, schedule, outcome, throws)
    {
      SendInv(State(), matching, limit, schedule, outcome, throws);
      id := InsertAndEnqueue(matching, limit, schedule, outcome, throws);
    }

    method InsertAndEnqueue(matching: nat, limit: int, schedule: bool, outcome: Outcomes, throws: Option<nat>)
      returns (id: RunId)
      modifies this
      ensures id == old(nextRun) && State() == Send(old(State()), matching, limit, schedule, outcome, throws)
    {
      ghost var c := Create(State(), 0, matching, limit, schedule);
      var running;
      id, running := InsertRun(matching, limit, schedule);
      if running {
        ghost var after := Enqueued(c, 0, outcome, throws);
        EnqueueRun(id, false, outcome, throws);
        if throws.Some? {
          LoopKeepsRun(Start(c, 0), outcome, throws.value);
          assert 0 in after.workers && after.workers[0].run == id && !after.workers[0].cron;
          assert after.workers - {0} == map[];
        }
      }
    }
  }

  /** The rounds change neither the runs nor whose run it is. */
  lemma {:induction false} LoopKeepsRun(db: Db, outcome: Outcomes, rounds: nat)
    requires db.workers.Keys == {0}
    ensures var d := Loop(db, 0, outcome, rounds);
            && d.workers.Keys == {0} && d.runs == db.runs && d.nextRun == db.nextRun
            && d.workers[0].run == db.workers[0].run && d.workers[0].cron == db.workers[0].cron
    decreases rounds
  {
    if rounds > 0 {
      LoopKeepsRun(db, outcome, rounds - 1);
    }
  }
}
