/** What becomes of a broadcast run whose enqueue loop throws, told from the trace. */
module BroadcastAborts {
  import opened Common
  import opened BroadcastModel
  import opened BroadcastInvariants

  /** The step is a throw of the enqueue loop that works on run `id`. */
  predicate Hits(db: Db, s: Step, id: RunId) {
    s.DoAbort? && s.w in db.workers && db.workers[s.w].run == id
  }

  /** Whether the enqueue loop of a run threw in the course of the trace, and if so under the cron job's `catch`. */
  function Aborted(steps: seq<Step>, id: RunId): Option<bool> {
    if steps == [] then None
    else
      var before, s := steps[..|steps| - 1], steps[|steps| - 1];
      var db := RunAll(EMPTY, before);
      if Hits(db, s, id) then Some(db.workers[s.w].cron) else Aborted(before, id)
  }

  ghost predicate Busy(workers: map<WorkerId, Phase>, id: RunId) {
    exists w | w in workers :: workers[w].run == id
  }

  /** What the row and the workers tell about an abort. */
  ghost predicate AbortShows(db: Db, id: RunId, aborted: Option<bool>) {
    if id !in db.runs then aborted.None?
    else
      var r := db.runs[id];
      match aborted
      case Some(cron) =>
        && r.status == (if cron then PartialFailure else Running) && r.queuedCount == 0 && r.failedEnqueue == 0
        && r.total > 0 && !Busy(db.workers, id)
      case None =>
        && (r.status == Running ==> Busy(db.workers, id)) && (r.status == PartialFailure ==> r.failedEnqueue > 0)
  }

  // ---------------------------------------------------------------- steps

  /** Nothing about run `id` changed. */
  lemma SameShows(db: Db, d: Db, id: RunId, aborted: Option<bool>)
    requires AbortShows(db, id, aborted)
    requires (id in d.runs <==> id in db.runs) && (id in db.runs ==> d.runs[id] == db.runs[id])
    requires Busy(d.workers, id) <==> Busy(db.workers, id)
    ensures AbortShows(d, id, aborted)
  {
  }

  lemma BusyAdded(workers: map<WorkerId, Phase>, w: WorkerId, p: Phase, id: RunId)
    requires w !in workers
    ensures Busy(workers[w := p], id) <==> Busy(workers, id) || p.run == id
  {
    var more := workers[w := p];
    if p.run == id {
      assert w in more && more[w].run == id;
    }
    if Busy(workers, id) {
      var v :| v in workers && workers[v].run == id;
      assert v in more && more[v].run == id;
    }
  }

  lemma BusyMoved(workers: map<WorkerId, Phase>, w: WorkerId, p: Phase, id: RunId)
    requires w in workers && p.run == workers[w].run
    ensures Busy(workers[w := p], id) <==> Busy(workers, id)
  {
    var more := workers[w := p];
    if Busy(workers, id) {
      var v :| v in workers && workers[v].run == id;
      assert v in more && more[v].run == id;
    }
  }

  lemma BusyRemoved(workers: map<WorkerId, Phase>, w: WorkerId, id: RunId)
    requires Exclusive(workers) && w in workers
    ensures Busy(workers - {w}, id) <==> Busy(workers, id) && workers[w].run != id
  {
    var rest := workers - {w};
    if Busy(workers, id) && workers[w].run != id {
      var v :| v in workers && workers[v].run == id;
      assert v in rest && rest[v].run == id;
    }
    if Busy(rest, id) {
      var v :| v in rest && rest[v].run == id;
      assert v in workers && workers[v].run == id && v != w;
    }
  }

  lemma CreateShows(db: Db, w: WorkerId, matching: nat, limit: int, schedule: bool, id: RunId, aborted: Option<bool>)
    requires Inv(db) && w !in db.workers && AbortShows(db, id, aborted)
    ensures AbortShows(Create(db, w, matching, limit, schedule), id, aborted)
  {
    BusyAdded(db.workers, w, Claimed(db.nextRun, false), id);
  }

  lemma ClaimShows(db: Db, w: WorkerId, run: RunId, cron: bool, id: RunId, aborted: Option<bool>)
    requires Inv(db) && w !in db.workers && AbortShows(db, id, aborted)
    ensures AbortShows(Claim(db, w, run, cron), id, aborted)
  {
    BusyAdded(db.workers, w, Claimed(run, cron), id);
  }

  lemma LoopShows(db: Db, s: Step, id: RunId, aborted: Option<bool>)
    requires Inv(db) && AbortShows(db, id, aborted) && (s.DoStart? || s.DoProcess?)
    ensures AbortShows(Apply(db, s), id, aborted)
  {
    var d := Apply(db, s);
    if d != db {
      BusyMoved(db.workers, s.w, d.workers[s.w], id);
      SameShows(db, d, id, aborted);
    }
  }

  lemma FinishShows(db: Db, w: WorkerId, id: RunId, aborted: Option<bool>)
    requires Inv(db) && AbortShows(db, id, aborted)
    ensures AbortShows(Finish(db, w), id, aborted)
  {
    if w in db.workers {
      BusyRemoved(db.workers, w, id);
      assert PhaseOk(db.workers[w], db.runs, db.recipients);
    }
  }

  lemma AbortStepShows(db: Db, w: WorkerId, id: RunId, aborted: Option<bool>)
    requires Inv(db) && AbortShows(db, id, aborted)
    ensures AbortShows(Abort(db, w), id, if Hits(db, DoAbort(w), id) then Some(db.workers[w].cron) else aborted)
  {
    if w in db.workers {
      var run := db.workers[w].run;
      BusyRemoved(db.workers, w, id);
      assert PhaseOk(db.workers[w], db.runs, db.recipients);
      assert RunOk(run, db.runs[run], db.recipients);
    }
  }

  lemma StepShows(db: Db, s: Step, id: RunId, aborted: Option<bool>)
    requires Inv(db) && AbortShows(db, id, aborted)
    ensures AbortShows(Apply(db, s), id, if Hits(db, s, id) then Some(db.workers[s.w].cron) else aborted)
  {
    match s
    case DoCreate(w, matching, limit, schedule) =>
      if w !in db.workers { CreateShows(db, w, matching, limit, schedule, id, aborted); }
    case DoClaim(w, run, cron) => if w !in db.workers { ClaimShows(db, w, run, cron, id, aborted); }
    case DoStart(_) => LoopShows(db, s, id, aborted);
    case DoProcess(_, _) => LoopShows(db, s, id, aborted);
    case DoFinish(w) => FinishShows(db, w, id, aborted);
    case DoAbort(w) => AbortStepShows(db, w, id, aborted);
    case DoDeliver(_, _) => SameShows(db, Apply(db, s), id, aborted);
  }

  lemma {:induction false} RunShows(steps: seq<Step>, id: RunId)
    ensures Inv(RunAll(EMPTY, steps)) && AbortShows(RunAll(EMPTY, steps), id, Aborted(steps, id))
    decreases |steps|
  {
    RunInv(steps);
    if steps != [] {
      RunShows(steps[..|steps| - 1], id);
      StepShows(RunAll(EMPTY, steps[..|steps| - 1]), steps[|steps| - 1], id, Aborted(steps[..|steps| - 1], id));
    }
  }

  // ---------------------------------------------------------------- main results

  /** An ended run is settled, with nobody pending and right counters, exactly if its enqueue loop never threw. */
  lemma EndedRunIsSettledIff(steps: seq<Step>, id: RunId)
    requires var db := RunAll(EMPTY, steps); id in db.runs && Ended(db.runs[id])
    ensures Settled(RunAll(EMPTY, steps), id) <==> Aborted(steps, id).None?
  {
    RunShows(steps, id);
    SettledShowsInTheRow(steps, id);
  }

  /** A run is stuck, running with nobody at work on it, exactly if its enqueue loop threw outside the cron job. */
  lemma StuckIff(steps: seq<Step>, id: RunId)
    requires id in RunAll(EMPTY, steps).runs
    ensures var db := RunAll(EMPTY, steps);
            db.runs[id].status == Running && !Busy(db.workers, id) <==> Aborted(steps, id) == Some(false)
  {
    RunShows(steps, id);
  }

  /** An abort is for good: whatever happens later, the run keeps its status and counters and nobody works on it. */
  lemma {:induction false} AbortedForEver(steps: seq<Step>, more: seq<Step>, id: RunId)
    requires Aborted(steps, id).Some?
    ensures Aborted(steps + more, id) == Aborted(steps, id)
    ensures var d := RunAll(EMPTY, steps + more);
            && id in d.runs && !Busy(d.workers, id) && d.runs[id].queuedCount == 0 && d.runs[id].failedEnqueue == 0
            && d.runs[id].status == if Aborted(steps, id) == Some(true) then PartialFailure else Running
    decreases |more|
  {
    RunShows(steps + more, id);
    if more == [] {
      assert steps + more == steps;
    } else {
      var init, all := more[..|more| - 1], steps + more;
      AbortedForEver(steps, init, id);
      assert all[..|all| - 1] == steps + init && all[|all| - 1] == more[|more| - 1];
      NoSecondHit(RunAll(EMPTY, steps + init), more[|more| - 1], id);
    }
  }

  lemma NoSecondHit(db: Db, s: Step, id: RunId)
    requires !Busy(db.workers, id)
    ensures !Hits(db, s, id)
  {
  }

  /** Rows of a run that nobody works on keep what the loop recorded for them. */
  lemma StepKeepsMarks(db: Db, s: Step, id: RunId)
    requires Inv(db) && id in db.runs && !Busy(db.workers, id)
    ensures SameMarks(db.recipients, Apply(db, s).recipients, id)
  {
    if s.DoProcess? && s.w in db.workers && db.workers[s.w].Enqueuing? && db.workers[s.w].todo != [] {
      assert PhaseOk(db.workers[s.w], db.runs, db.recipients);
      ProcessPhase(db, s.w, s.o);
    }
  }

  ghost predicate IsPending(db: Db, id: RecipientId) {
    id in db.recipients && db.recipients[id].status == Pending
  }

  // ---------------------------------------------------------------- who is left pending

  /** The worker has rows of its run still to do. */
  predicate Unfinished(p: Phase) {
    p.Claimed? || p.todo != []
  }

  /** Whether the enqueue loop of a run threw with rows still to do. */
  predicate Interrupted(steps: seq<Step>, id: RunId) {
    steps != [] &&
    var before, s := steps[..|steps| - 1], steps[|steps| - 1];
    var db := RunAll(EMPTY, before);
    if Hits(db, s, id) then Unfinished(db.workers[s.w]) else Interrupted(before, id)
  }

  ghost predicate AllMarked(recipients: Recipients, id: RunId, total: nat) {
    forall i: nat | i < total :: RecipientId(id, i) in recipients && recipients[RecipientId(id, i)].marked.Some?
  }

  lemma AllMarkedTransfers(r: Recipients, s: Recipients, id: RunId, total: nat)
    requires SameMarks(r, s, id)
    ensures AllMarked(r, id, total) <==> AllMarked(s, id, total)
  {
    forall i: nat | i < total
      ensures (RecipientId(id, i) in r && r[RecipientId(id, i)].marked.Some?)
         <==> (RecipientId(id, i) in s && s[RecipientId(id, i)].marked.Some?)
    {
      assert SameMarks(r, s, id);
    }
  }

  /** After a throw every row was recorded exactly if the worker had none left. */
  ghost predicate InterruptShows(db: Db, id: RunId, aborted: Option<bool>, interrupted: bool) {
    && (aborted.None? ==> !interrupted)
    && (aborted.Some? ==> id in db.runs && (AllMarked(db.recipients, id, db.runs[id].total) <==> !interrupted))
  }

  lemma HitShows(db: Db, w: WorkerId)
    requires Inv(db) && w in db.workers
    ensures var id := db.workers[w].run;
            id in db.runs && (AllMarked(db.recipients, id, db.runs[id].total) <==> !Unfinished(db.workers[w]))
  {
    var p := db.workers[w];
    assert PhaseOk(p, db.runs, db.recipients) && RunOk(p.run, db.runs[p.run], db.recipients);
    var total := db.runs[p.run].total;
    var k := if p.Claimed? then 0 else total - |p.todo|;
    assert k < total ==> RecipientId(p.run, k) in db.recipients && db.recipients[RecipientId(p.run, k)].marked.None?;
  }

  lemma TotalStays(db: Db, s: Step, id: RunId)
    requires Inv(db) && id in db.runs
    ensures id in Apply(db, s).runs && Apply(db, s).runs[id].total == db.runs[id].total
  {
  }

  lemma StepInterruptShows(db: Db, s: Step, id: RunId, aborted: Option<bool>, interrupted: bool)
    requires Inv(db) && AbortShows(db, id, aborted) && InterruptShows(db, id, aborted, interrupted)
    ensures InterruptShows(Apply(db, s), id, if Hits(db, s, id) then Some(db.workers[s.w].cron) else aborted,
                           if Hits(db, s, id) then Unfinished(db.workers[s.w]) else interrupted)
  {
    if id in db.runs {
      TotalStays(db, s, id);
    }
    if Hits(db, s, id) {
      HitShows(db, s.w);
    } else if aborted.Some? {
      StepKeepsMarks(db, s, id);
      AllMarkedTransfers(db.recipients, Apply(db, s).recipients, id, db.runs[id].total);
    }
  }

  lemma {:induction false} RunInterruptShows(steps: seq<Step>, id: RunId)
    ensures InterruptShows(RunAll(EMPTY, steps), id, Aborted(steps, id), Interrupted(steps, id))
    decreases |steps|
  {
    if steps != [] {
      var before := steps[..|steps| - 1];
      RunShows(before, id);
      RunInterruptShows(before, id);
      StepInterruptShows(RunAll(EMPTY, before), steps[|steps| - 1], id, Aborted(before, id), Interrupted(before, id));
    }
  }

  lemma MarkedIsNotPending(db: Db, id: RunId, total: nat)
    requires Inv(db)
    ensures AllMarked(db.recipients, id, total) <==> NonePending(db.recipients, id, total)
  {
    forall i: nat | i < total && RecipientId(id, i) in db.recipients
      ensures db.recipients[RecipientId(id, i)].marked.Some? <==> db.recipients[RecipientId(id, i)].status != Pending
    {
      assert RecipientOk(db.recipients[RecipientId(id, i)]);
    }
  }

  /**
   * An ended run has a recipient left pending exactly if its enqueue loop threw before it had done all rows; so has a
   * run that is stuck. A throw after the last row only spoils the counters.
   */
  lemma LeavesPendingIff(steps: seq<Step>, id: RunId)
    requires var db := RunAll(EMPTY, steps);
             id in db.runs && (Ended(db.runs[id]) || (db.runs[id].status == Running && !Busy(db.workers, id)))
    ensures var db := RunAll(EMPTY, steps);
            !NonePending(db.recipients, id, db.runs[id].total) <==> Interrupted(steps, id)
  {
    var db := RunAll(EMPTY, steps);
    RunShows(steps, id);
    RunInterruptShows(steps, id);
    MarkedIsNotPending(db, id, db.runs[id].total);
    if Aborted(steps, id).None? {
      EndedRunIsSettledIff(steps, id);
    }
  }

  /** The loop of the recipient's run threw, and the recipient is pending. */
  ghost predicate Stalled(steps: seq<Step>, id: RecipientId) {
    Aborted(steps, id.run).Some? && IsPending(RunAll(EMPTY, steps), id)
  }

  /** So the recipients that are pending after the throw are pending for ever. */
  lemma {:induction false} PendingForEver(steps: seq<Step>, more: seq<Step>, id: RecipientId)
    requires Stalled(steps, id)
    ensures Stalled(steps + more, id)
    decreases |more|
  {
    if more == [] {
      assert steps + more == steps;
    } else {
      var init, last := more[..|more| - 1], more[|more| - 1];
      assert steps + more == (steps + init) + [last];
      PendingForEver(steps, init, id);
      StalledOneMore(steps + init, last, id);
    }
  }

  lemma StalledOneMore(steps: seq<Step>, s: Step, id: RecipientId)
    requires Stalled(steps, id)
    ensures Stalled(steps + [s], id)
  {
    var db := RunAll(EMPTY, steps);
    RunShows(steps, id.run);
    StepInv(db, s);
    StepKeepsPending(db, s, id);
    RunSnoc(steps, s);
    NoSecondHit(db, s, id.run);
    assert (steps + [s])[..|steps|] == steps && (steps + [s])[|steps|] == s;
  }

  lemma StepKeepsPending(db: Db, s: Step, id: RecipientId)
    requires Inv(db) && Inv(Apply(db, s)) && id.run in db.runs && !Busy(db.workers, id.run)
    requires IsPending(db, id)
    ensures IsPending(Apply(db, s), id)
  {
    StepKeepsMarks(db, s, id.run);
    assert RecipientId(id.run, id.channel) == id;
    assert RecipientOk(db.recipients[id]) && RecipientOk(Apply(db, s).recipients[id]);
  }

  lemma RunSnoc(steps: seq<Step>, s: Step)
    ensures RunAll(EMPTY, steps + [s]) == Apply(RunAll(EMPTY, steps), s)
  {
    assert (steps + [s])[..|steps|] == steps;
  }

  /** A scheduled run whose enqueue loop throws at once: ended, and its recipient is pending. */
  lemma AbortedRunLeavesPending() returns (steps: seq<Step>, db: Db)
    ensures db == RunAll(EMPTY, steps) && 0 in db.runs && Ended(db.runs[0]) && db.runs[0].total == 1
    ensures RecipientId(0, 0) in db.recipients && db.recipients[RecipientId(0, 0)].status == Pending
  {
    var a := Apply(EMPTY, DoCreate(0, 1, 1, true));
    var b := Apply(a, DoClaim(7, 0, true));
    db := Apply(b, DoAbort(7));
    var s1, s2 := [DoCreate(0, 1, 1, true)], [DoCreate(0, 1, 1, true), DoClaim(7, 0, true)];
    steps := s2 + [DoAbort(7)];
    RunSnoc([], DoCreate(0, 1, 1, true));
    assert [] + s1 == s1 && s1 + [DoClaim(7, 0, true)] == s2;
    RunSnoc(s1, DoClaim(7, 0, true));
    RunSnoc(s2, DoAbort(7));
    assert RecipientId(0, 0) in Rows(0, 1);
  }

  /** A cron run that throws after its only row: ended and aborted, but nobody is pending. */
  lemma LateThrowLeavesNobodyPending() returns (steps: seq<Step>)
    ensures var db := RunAll(EMPTY, steps);
            && Aborted(steps, 0).Some? && 0 in db.runs && Ended(db.runs[0]) && db.runs[0].total == 1
            && NonePending(db.recipients, 0, 1) && !Settled(db, 0)
  {
    var s1 := [DoCreate(0, 1, 1, true)];
    var s2 := s1 + [DoClaim(7, 0, true)];
    var s3 := s2 + [DoStart(7)];
    var s4 := s3 + [DoProcess(7, Added)];
    steps := s4 + [DoAbort(7)];
    RunSnoc([], DoCreate(0, 1, 1, true));
    assert [] + s1 == s1;
    RunSnoc(s1, DoClaim(7, 0, true));
    RunSnoc(s2, DoStart(7));
    RunSnoc(s3, DoProcess(7, Added));
    RunSnoc(s4, DoAbort(7));
    var a := Apply(EMPTY, DoCreate(0, 1, 1, true));
    assert RecipientId(0, 0) in Rows(0, 1);
    var b := Apply(a, DoClaim(7, 0, true));
    EveryBatchIsWhole(s2, 7);
    var c := Apply(b, DoStart(7));
    assert c.workers == map[7 := Enqueuing(0, true, [RecipientId(0, 0)], 0, 0)];
    var d := Apply(c, DoProcess(7, Added));
    assert [RecipientId(0, 0)][1..] == [];
    assert d.workers == map[7 := Enqueuing(0, true, [], 1, 0)] && d.recipients[RecipientId(0, 0)].status == Queued;
    var e := Apply(d, DoAbort(7));
    assert steps[..|steps| - 1] == s4;
    EndedRunIsSettledIff(steps, 0);
  }

  /** A broadcast to be sent at once whose enqueue loop throws: running with nobody at work, its recipient pending. */
  lemma StuckRunLeavesPending() returns (steps: seq<Step>, db: Db)
    ensures db == RunAll(EMPTY, steps) && 0 in db.runs && db.runs[0].status == Running && db.workers == map[]
    ensures RecipientId(0, 0) in db.recipients && db.recipients[RecipientId(0, 0)].status == Pending
  {
    var a := Apply(EMPTY, DoCreate(7, 1, 1, false));
    assert a.workers == map[7 := Claimed(0, false)];
    db := Apply(a, DoAbort(7));
    var s1 := [DoCreate(7, 1, 1, false)];
    steps := s1 + [DoAbort(7)];
    RunSnoc([], DoCreate(7, 1, 1, false));
    assert [] + s1 == s1;
    RunSnoc(s1, DoAbort(7));
    assert RecipientId(0, 0) in Rows(0, 1);
  }
}
