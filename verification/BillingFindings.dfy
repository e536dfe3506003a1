/**
 * Things that the protocol does not guarantee, each with the exact condition and a run.
 *
 * A worker pass over an old operation can put a replaced subscription back; a reconcile can refund the credit of a plan
 * change that is still open, and abandon that change in the same step; and a credit can be refunded twice.
 */
module BillingFindings {
  import opened Common
  import opened OperationStatus
  import opened BillingModel
  import opened BillingInvariants
  import opened BillingRefunds

  /** A pass over a replacement operation moves the live id exactly when it finds that replacement active elsewhere. */
  lemma PassKeepsLiveIff(db: Db, k: OpKey, r: Replies, now: int)
    requires Due(db, k, now) && k.Replace? && k.ws in db.subs
    ensures k.ws in WorkerPass(db, k, r, now).subs
    ensures WorkerPass(db, k, r, now).subs[k.ws].live == db.subs[k.ws].live
       <==> || db.ops[k].status == CancelRequested
            || r.fetchNew.None? || !r.fetchNew.value.status.Active?
            || db.subs[k.ws].live == Some(k.to)
  {
    ProcessReplaceWorked(db, k, r, now);
    if db.ops[k].status == CancelRequested {
      if r.fetchOld.Some? && Over(r.fetchOld.value.status) {
        RefundIsRefundOnly(MarkCompleted(db, k, now), k.ws, r.refund);
      }
    } else if r.fetchNew.Some? && r.fetchNew.value.status.Active? && k.from != k.to {
      var promoted := Activate(db, k.ws, r.fetchNew.value, k.to, Some(k.from), db.ops[k].plan);
      FinalizeWorked(promoted, k, db.ops[k].retryCount, r, now);
    }
  }

  /**
   * So a pass puts an older subscription in the place of one that its operation knows nothing about exactly when,
   * besides, the live subscription is neither the one it replaces nor its replacement.
   */
  lemma PassRevivesOlderIff(db: Db, k: OpKey, r: Replies, now: int)
    requires Due(db, k, now) && k.Replace? && k.ws in db.subs
    ensures k.ws in WorkerPass(db, k, r, now).subs
    ensures WorkerPass(db, k, r, now).subs[k.ws].live != db.subs[k.ws].live && db.subs[k.ws].live != Some(k.from)
       <==> && db.ops[k].status != CancelRequested
            && r.fetchNew.Some? && r.fetchNew.value.status.Active?
            && db.subs[k.ws].live != Some(k.from) && db.subs[k.ws].live != Some(k.to)
  {
    PassKeepsLiveIff(db, k, r, now);
  }

  /**
   * While a plan change is open, a reconcile pays its credit exactly when the provider answers all it is asked and the
   * live subscription was itself a replacement, whatever it says about the replacement that is pending.
   */
  lemma OpenPlanChangeRefundedIff(db: Db, ws: WorkspaceId, r: ReconcileReplies, now: int)
    requires ws in db.subs && db.subs[ws].live.Some? && db.subs[ws].pending.Some?
    requires db.subs[ws].refundAmount > 0 && db.subs[ws].refundStatus == Some("pending")
    ensures Reconcile(db, ws, r, now).ledger.refunded > db.ledger.refunded
       <==> && r.sync.Some? && r.pending.Some? && r.refund.Refunded?
            && ReplacedBy(db, ws, db.subs[ws].live.value) != {}
  {
    ReconcileSettles(db, ws, r, now);
  }

  function Sub(status: ProviderStatus): ProviderSub {
    ProviderSub(status, None, true, Some(0), Some(100))
  }

  lemma RunSnoc(steps: seq<Step>, s: Step)
    ensures Run(EMPTY, steps + [s]) == Apply(Run(EMPTY, steps), s)
  {
    assert (steps + [s])[..|steps|] == steps;
  }

  /** A trial and a first checkout that becomes active. */
  lemma Subscribed() returns (steps: seq<Step>, db: Db)
    ensures db == Run(EMPTY, steps)
    ensures db.subs == map[7 := Row("starter", "active", Some(0), None, None, Some(0), Some(100), 0, None, true)]
    ensures db.ops == map[] && db.nextSub == 1 && db.ledger == Ledger(map[], map[], [], map[], 0)
  {
    var trial, checkout, active := DoTrial(7, 0, 100), DoCheckout(7, "starter", None, None, 0), Activated(7, 0, None);
    var d1 := Apply(EMPTY, trial);
    var d2 := Apply(d1, checkout);
    db := Apply(d2, active);
    RunSnoc([], trial);
    RunSnoc([trial], checkout);
    RunSnoc([trial, checkout], active);
    assert [] + [trial] == [trial] && [trial] + [checkout] == [trial, checkout];
    steps := [trial, checkout] + [active];
  }

  /** Then a plan change that becomes active: subscription 1 replaced subscription 0. */
  lemma Upgraded() returns (steps: seq<Step>, db: Db)
    ensures db == Run(EMPTY, steps)
    ensures db.subs == map[7 := Row("growth", "active", Some(1), None, None, Some(0), Some(100), 899, Some("pending"),
                                    true)]
    ensures db.ops == map[Replace(7, 0, 1) := Op(Pending, Some("growth"), 0, 60_010, true)]
    ensures db.nextSub == 2 && db.ledger == Ledger(map[], map[], [Credit(899, 0, 0)], map[7 := 0], 0)
  {
    var s0, d0 := Subscribed();
    var change, active := DoChangePlan(7, "growth", None, 10), Activated(7, 1, None);
    var d1 := Apply(d0, change);
    assert d1.subs[7] == Row("starter", "active", Some(0), Some(1), Some("growth"), Some(0), Some(100), 899,
                             Some("pending"), true);
    db := Apply(d1, active);
    RunSnoc(s0, change);
    RunSnoc(s0 + [change], active);
    steps := s0 + [change] + [active];
  }

  /** Then a second plan change that stays open: subscription 2 is to replace subscription 1. */
  lemma Changing() returns (steps: seq<Step>, db: Db)
    ensures db == Run(EMPTY, steps)
    ensures db.subs == map[7 := Row("growth", "active", Some(1), Some(2), Some("pro"), Some(0), Some(100), 2399,
                                    Some("pending"), true)]
    ensures db.ops.Keys == {Replace(7, 0, 1), Replace(7, 1, 2)}
    ensures db.ops[Replace(7, 0, 1)] == Op(Pending, Some("growth"), 0, 60_010, true)
    ensures db.ops[Replace(7, 1, 2)].status == Pending
    ensures db.ledger == Ledger(map[], map[], [Credit(899, 0, 0), Credit(2399, 0, 0)], map[7 := 1], 0)
  {
    var s0, d0 := Upgraded();
    var change := DoChangePlan(7, "pro", None, 20);
    db := Apply(d0, change);
    RunSnoc(s0, change);
    steps := s0 + [change];
  }

  lemma StalePass(db: Db, s: Step)
    requires 7 in db.subs && Replace(7, 0, 1) in db.ops
    requires db.ops[Replace(7, 0, 1)] == Op(Pending, Some("growth"), 0, 60_010, true)
    requires s == DoWorkerPass(Replace(7, 0, 1), Replies(Some(Sub(Active)), Deferred, None, NoPayment), 60_010)
    ensures var d := Apply(db, s);
            7 in d.subs && d.subs[7].live == Some(1) && d.subs[7].plan == "growth"
  {
    var k, r := Replace(7, 0, 1), s.replies;
    var promoted := Activate(db, 7, Sub(Active), 1, Some(0), Some("growth"));
    assert Process(db, k, r, 60_010) == Finalize(promoted, k, 0, r, 60_010);
  }

  /** A run in which subscription 2 goes live, and one pass later the replaced subscription 1 is live again. */
  lemma StalePassRevivesReplaced() returns (before: seq<Step>, pass: Step)
    ensures pass.DoWorkerPass?
    ensures var d := Run(EMPTY, before); 7 in d.subs && d.subs[7].live == Some(2) && d.subs[7].plan == "pro"
    ensures var d := Run(EMPTY, before + [pass]); 7 in d.subs && d.subs[7].live == Some(1) && d.subs[7].plan == "growth"
  {
    var s0, d0 := Changing();
    var active := Activated(7, 2, None);
    RunSnoc(s0, active);
    before := s0 + [active];
    var d1 := Apply(d0, active);
    assert d1.ops == d0.ops && d1.subs[7].live == Some(2);
    pass := DoWorkerPass(Replace(7, 0, 1), Replies(Some(Sub(Active)), Deferred, None, NoPayment), 60_010);
    StalePass(d1, pass);
    RunSnoc(before, pass);
  }

  lemma RefundedAndAbandoned(db: Db, r: ReconcileReplies)
    requires db.subs == map[7 := Row("growth", "active", Some(1), Some(2), Some("pro"), Some(0), Some(100), 2399,
                                     Some("pending"), true)]
    requires Replace(7, 0, 1) in db.ops && Replace(7, 1, 2) in db.ops && db.ops[Replace(7, 1, 2)].status == Pending
    requires db.ledger.refunded == 0
    requires r == ReconcileReplies(Some(Sub(Active)), Some(Sub(Cancelled)), [], Refunded(Some("processed")))
    ensures var d := Reconcile(db, 7, r, 30);
            && d.ledger.refunded == 2399
            && d.subs == map[7 := WithoutPending(db.subs[7]).(refundStatus := Some("processed"))]
            && Replace(7, 1, 2) in d.ops && d.ops[Replace(7, 1, 2)].status == Abandoned
  {
    var row := db.subs[7];
    assert SyncedRow(row, r.sync) == row && PutRow(db, 7, row).subs == db.subs;
    var settled := ReconcilePending(PutRow(db, 7, row), 7, 2, Sub(Cancelled), 30);
    assert Replace(7, 0, 1) in ReplacedBy(settled, 7, 1);
    assert Duplicates([], 1, Some(2)) == [];
    assert ReconcileRest(settled, 7, row, r, 30) == Refund(settled, 7, r.refund).0;
  }

  /** A run whose last step finds the replacement cancelled, abandons the plan change and refunds its credit. */
  lemma AbandonedChangeKeepsItsRefund() returns (steps: seq<Step>)
    ensures var d := Run(EMPTY, steps);
            && d.ledger.refunded == 2399
            && 7 in d.subs && d.subs[7].live == Some(1) && d.subs[7].pending == None && d.subs[7].plan == "growth"
            && Replace(7, 1, 2) in d.ops && d.ops[Replace(7, 1, 2)].status == Abandoned
  {
    var s0, d0 := Changing();
    var r := ReconcileReplies(Some(Sub(Active)), Some(Sub(Cancelled)), [], Refunded(Some("processed")));
    RefundedAndAbandoned(d0, r);
    RunSnoc(s0, DoReconcile(7, r, 30));
    steps := s0 + [DoReconcile(7, r, 30)];
  }

  /** One reconcile of an upgraded workspace whose refund is reported as pending: it pays and changes nothing else. */
  lemma PendingRefund(db: Db, r: ReconcileReplies, paid: nat, refunds: nat)
    requires db.subs == map[7 := Row("growth", "active", Some(1), None, None, Some(0), Some(100), 899,
                                     Some("pending"), true)]
    requires Replace(7, 0, 1) in db.ops
    requires db.ledger.credits == [Credit(899, paid, refunds)] && db.ledger.latest == map[7 := 0]
    requires r == ReconcileReplies(Some(Sub(Active)), None, [], Refunded(Some("pending")))
    ensures var d := Reconcile(db, 7, r, 30);
            && d.subs == db.subs && d.ops == db.ops && d.ledger.latest == db.ledger.latest
            && d.ledger.credits == [Credit(899, paid + 899, refunds + 1)]
            && d.ledger.refunded == db.ledger.refunded + 899
  {
    var row := db.subs[7];
    assert SyncedRow(row, r.sync) == row && PutRow(db, 7, row).subs == db.subs;
    var synced := PutRow(db, 7, row);
    assert Replace(7, 0, 1) in ReplacedBy(synced, 7, 1);
    assert Duplicates([], 1, None) == [];
    assert ReconcileRest(synced, 7, row, r, 30) == Refund(synced, 7, r.refund).0;
  }

  /** A run that refunds one credit of 899 twice: the provider reports the first refund as pending. */
  lemma CreditPaidTwice() returns (steps: seq<Step>)
    ensures var l := Run(EMPTY, steps).ledger;
            l.refunded == 1798 && l.credits == [Credit(899, 1798, 2)]
  {
    var s0, d0 := Upgraded();
    var r := ReconcileReplies(Some(Sub(Active)), None, [], Refunded(Some("pending")));
    PendingRefund(d0, r, 0, 0);
    PendingRefund(Reconcile(d0, 7, r, 30), r, 899, 1);
    RunSnoc(s0, DoReconcile(7, r, 30));
    RunSnoc(s0 + [DoReconcile(7, r, 30)], DoReconcile(7, r, 30));
    steps := s0 + [DoReconcile(7, r, 30)] + [DoReconcile(7, r, 30)];
  }
}
