/** Refund accounting: what a run refunds never exceeds the credits that its plan changes recorded. */
module BillingRefunds {
  import opened Common
  import opened OperationStatus
  import opened BillingModel

  function TotalCredited(credits: seq<Credit>): nat {
    if credits == [] then 0 else TotalCredited(credits[..|credits| - 1]) + credits[|credits| - 1].amount
  }

  function TotalPaid(credits: seq<Credit>): nat {
    if credits == [] then 0 else TotalPaid(credits[..|credits| - 1]) + credits[|credits| - 1].paid
  }

  /** A credit is either untouched or was refunded once, in full. */
  predicate PaidAtMostOnce(c: Credit) {
    (c.refunds == 0 && c.paid == 0) || (c.refunds == 1 && c.paid == c.amount)
  }

  /** The refund fields of a row describe the workspace's latest credit, and nobody refunded it yet. */
  predicate OpenCredit(l: Ledger, ws: WorkspaceId, amount: nat) {
    ws in l.latest && l.latest[ws] < |l.credits| && l.credits[l.latest[ws]] == Credit(amount, 0, 0)
  }

  ghost predicate Credited(db: Db) {
    && db.ledger.refunded == TotalPaid(db.ledger.credits)
    && (forall i | 0 <= i < |db.ledger.credits| :: PaidAtMostOnce(db.ledger.credits[i]))
    && (forall ws | ws in db.ledger.latest :: db.ledger.latest[ws] < |db.ledger.credits|)
    && (forall a, b | a in db.ledger.latest && b in db.ledger.latest && a != b ::
          db.ledger.latest[a] != db.ledger.latest[b])
    && (forall ws | ws in db.subs :: Refundable(db.subs[ws]) ==> OpenCredit(db.ledger, ws, db.subs[ws].refundAmount))
  }

  /** The provider never answers a refund with the word that the row uses for "not refunded yet". */
  predicate HonestReply(r: RefundReply) {
    r != Refunded(Some("pending"))
  }

  predicate Honest(s: Step) {
    && (s.DoWorkerPass? ==> HonestReply(s.replies.refund))
    && (s.DoReconcile? ==> HonestReply(s.found.refund))
  }

  // ---------------------------------------------------------------- changes that move no money

  predicate SameMoney(a: Ledger, b: Ledger) {
    a.credits == b.credits && a.latest == b.latest && a.refunded == b.refunded
  }

  predicate SameRefund(a: Row, b: Row) {
    a.refundAmount == b.refundAmount && a.refundStatus == b.refundStatus
  }

  /** Every row either keeps its refund fields or has nothing to refund. */
  ghost predicate Untouched(db: Db, d: Db) {
    && SameMoney(db.ledger, d.ledger)
    && forall ws | ws in d.subs :: (ws in db.subs && SameRefund(db.subs[ws], d.subs[ws])) || !Refundable(d.subs[ws])
  }

  lemma UntouchedCredited(db: Db, d: Db)
    requires Credited(db) && Untouched(db, d)
    ensures Credited(d)
  {
  }

  lemma {:induction false} TotalPaidUpdate(credits: seq<Credit>, i: nat, c: Credit)
    requires i < |credits|
    ensures TotalPaid(credits[i := c]) == TotalPaid(credits) - credits[i].paid + c.paid
    decreases |credits|
  {
    var n := |credits| - 1;
    if i < n {
      TotalPaidUpdate(credits[..n], i, c);
      assert credits[i := c][..n] == credits[..n][i := c];
    } else {
      assert credits[i := c][..n] == credits[..n];
    }
  }

  lemma RefundCredited(db: Db, ws: WorkspaceId, reply: RefundReply)
    requires Credited(db) && ws in db.subs && HonestReply(reply)
    ensures Credited(Refund(db, ws, reply).0)
  {
    var row := db.subs[ws];
    if Refundable(row) && reply.Refunded? {
      var l := db.ledger;
      var i, c := l.latest[ws], l.credits[l.latest[ws]];
      TotalPaidUpdate(l.credits, i, c.(paid := c.paid + row.refundAmount, refunds := c.refunds + 1));
    }
  }

  lemma StartReplacementCredited(db: Db, ws: WorkspaceId, plan: string, now: int)
    requires Credited(db) && ws in db.subs
    ensures Credited(StartReplacement(db, ws, plan, now))
  {
    var credits := StartReplacement(db, ws, plan, now).ledger.credits;
    assert credits[..|credits| - 1] == db.ledger.credits;
  }

  // ---------------------------------------------------------------- the handlers

  lemma VerifyCredited(db: Db, k: OpKey, r: Replies, now: int)
    requires Credited(db) && k in db.ops && k.Replace? && k.ws in db.subs && HonestReply(r.refund)
    ensures Credited(Verify(db, k, r, now).0)
  {
    if r.fetchOld.Some? && Over(r.fetchOld.value.status) {
      UntouchedCredited(db, MarkCompleted(db, k, now));
      RefundCredited(MarkCompleted(db, k, now), k.ws, r.refund);
    } else {
      UntouchedCredited(db, Verify(db, k, r, now).0);
    }
  }

  lemma CompletedCredited(db: Db, called: Db, k: OpKey, reply: RefundReply, now: int)
    requires Credited(db) && k.ws in db.subs && HonestReply(reply) && called == CountCancel(db, k)
    ensures Credited(Refund(MarkCompleted(called, k, now), k.ws, reply).0)
  {
    UntouchedCredited(db, MarkCompleted(called, k, now));
    RefundCredited(MarkCompleted(called, k, now), k.ws, reply);
  }

  lemma FinalizeCredited(db: Db, k: OpKey, attempt: nat, r: Replies, now: int)
    requires Credited(db) && k.Replace? && k.ws in db.subs && HonestReply(r.refund)
    ensures Credited(Finalize(db, k, attempt, r, now).0)
  {
    if k.from != k.to && k in db.ops && db.ops[k].status == CancelRequested {
      VerifyCredited(db, k, r, now);
    } else if k.from != k.to && r.cancel.Accepted? {
      var called, verified := CountCancel(db, k), VerifiedStatus(r.cancel.returned, r.fetchOld);
      if verified.Some? && Over(verified.value) {
        CompletedCredited(db, called, k, r.refund, now);
      } else {
        UntouchedCredited(db, Finalize(db, k, attempt, r, now).0);
      }
    } else {
      UntouchedCredited(db, Finalize(db, k, attempt, r, now).0);
    }
  }

  lemma ProcessReplaceCredited(db: Db, k: OpKey, r: Replies, now: int)
    requires Credited(db) && k in db.ops && k.Replace? && HonestReply(r.refund)
    ensures Credited(ProcessReplace(db, k, r, now).0)
  {
    if k.ws in db.subs && db.ops[k].status == CancelRequested {
      VerifyCredited(db, k, r, now);
    } else if k.ws in db.subs && r.fetchNew.Some? && r.fetchNew.value.status.Active? {
      var promoted := Activate(db, k.ws, r.fetchNew.value, k.to, Some(k.from), db.ops[k].plan);
      UntouchedCredited(db, promoted);
      if k.from != k.to {
        FinalizeCredited(promoted, k, db.ops[k].retryCount, r, now);
      }
    }
  }

  lemma WorkerPassCredited(db: Db, k: OpKey, r: Replies, now: int)
    requires Credited(db) && HonestReply(r.refund)
    ensures Credited(WorkerPass(db, k, r, now))
  {
    if Due(db, k, now) {
      var (d, threw) := Process(db, k, r, now);
      ProcessKeepsKeys(db, k, r, now);
      if k.Replace? {
        ProcessReplaceCredited(db, k, r, now);
      } else {
        ProcessCancelUntouched(db, k, r, now);
        UntouchedCredited(db, d);
      }
      UntouchedCredited(d, Caught(d, k, db.ops[k], now));
    }
  }

  lemma ProcessCancelUntouched(db: Db, k: OpKey, r: Replies, now: int)
    requires k in db.ops && k.Cancel?
    ensures Untouched(db, ProcessCancel(db, k, r, now).0)
  {
    var d := ProcessCancel(db, k, r, now).0;
    if d.subs != db.subs {
      assert SameMoney(db.ledger, d.ledger);
      CancelledRow(db, d, k.ws);
    }
  }

  lemma CancelledRow(db: Db, d: Db, ws: WorkspaceId)
    requires ws in db.subs && ws in d.subs && d.subs == db.subs[ws := d.subs[ws]]
    requires SameRefund(db.subs[ws], d.subs[ws]) && SameMoney(db.ledger, d.ledger)
    ensures Untouched(db, d)
  {
  }

  lemma ReconcileRestCredited(db: Db, ws: WorkspaceId, row: Row, r: ReconcileReplies, now: int)
    requires Credited(db) && ws in db.subs && HonestReply(r.refund)
    ensures Credited(ReconcileRest(db, ws, row, r, now))
  {
    var cleaned := CleanUp(db, ws, row, r.listing, now);
    UntouchedCredited(db, cleaned);
    RefundCredited(cleaned, ws, r.refund);
  }

  lemma ReconcilePendingUntouched(db: Db, ws: WorkspaceId, pending: SubId, sub: ProviderSub, now: int)
    requires ws in db.subs
    ensures Untouched(db, ReconcilePending(db, ws, pending, sub, now))
  {
  }

  lemma ReconcilePendingCredited(db: Db, ws: WorkspaceId, row: Row, r: ReconcileReplies, now: int)
    requires Credited(db) && ws in db.subs && HonestReply(r.refund) && row.pending.Some? && r.pending.Some?
    ensures Credited(ReconcileRest(ReconcilePending(db, ws, row.pending.value, r.pending.value, now), ws, row, r, now))
  {
    var settled := ReconcilePending(db, ws, row.pending.value, r.pending.value, now);
    ReconcilePendingUntouched(db, ws, row.pending.value, r.pending.value, now);
    UntouchedCredited(db, settled);
    ReconcileRestCredited(settled, ws, row, r, now);
  }

  lemma ReconcileCredited(db: Db, ws: WorkspaceId, r: ReconcileReplies, now: int)
    requires Credited(db) && HonestReply(r.refund)
    ensures Credited(Reconcile(db, ws, r, now))
  {
    if ws in db.subs && (db.subs[ws].live.Some? ==> r.sync.Some?) {
      var row := SyncedRow(db.subs[ws], r.sync);
      var synced := PutRow(db, ws, row);
      UntouchedCredited(db, synced);
      if row.pending.None? {
        ReconcileRestCredited(synced, ws, row, r, now);
      } else if r.pending.Some? {
        ReconcilePendingCredited(synced, ws, row, r, now);
      }
    }
  }

  lemma ContinueCheckoutUntouched(db: Db, ws: WorkspaceId, plan: string, reuse: Option<SubId>, fetchReuse: Fetched)
    requires ws in db.subs
    ensures Untouched(db, ContinueCheckout(db, ws, plan, reuse, fetchReuse))
  {
    RowUntouched(db, ContinueCheckout(db, ws, plan, reuse, fetchReuse), ws);
  }

  /** The pending subscription was over and is dropped first. */
  lemma DroppedCheckoutUntouched(db: Db, ws: WorkspaceId, plan: string, reuse: Option<SubId>, fetchReuse: Fetched)
    requires ws in db.subs
    ensures Untouched(db, ContinueCheckout(PutRow(db, ws, WithoutPending(db.subs[ws])), ws, plan, reuse, fetchReuse))
  {
    ContinueCheckoutUntouched(PutRow(db, ws, WithoutPending(db.subs[ws])), ws, plan, reuse, fetchReuse);
  }

  lemma OtherPlanUntouched(db: Db, ws: WorkspaceId, plan: string, fetchPending: Fetched, fetchReuse: Fetched)
    requires ws in db.subs && db.subs[ws].pending.Some? && db.subs[ws].pendingPlan != Some(plan)
    ensures Untouched(db, Checkout(db, ws, plan, fetchPending, fetchReuse))
  {
    var live := db.subs[ws].live;
    if fetchPending.Some? {
      if fetchPending.value.status.Active? {
        RowUntouched(db, Checkout(db, ws, plan, fetchPending, fetchReuse), ws);
      } else if Over(fetchPending.value.status) {
        DroppedCheckoutUntouched(db, ws, plan, live, fetchReuse);
      } else {
        ContinueCheckoutUntouched(db, ws, plan, live, fetchReuse);
      }
    }
  }

  lemma CheckoutUntouched(db: Db, ws: WorkspaceId, plan: string, fetchPending: Fetched, fetchReuse: Fetched)
    ensures Untouched(db, Checkout(db, ws, plan, fetchPending, fetchReuse))
  {
    if ws in db.subs {
      var row := db.subs[ws];
      if row.pending.None? || row.pendingPlan == Some(plan) {
        ContinueCheckoutUntouched(db, ws, plan, OrElse(row.pending, row.live), fetchReuse);
      } else {
        OtherPlanUntouched(db, ws, plan, fetchPending, fetchReuse);
      }
    }
  }

  lemma ChangePlanCredited(db: Db, ws: WorkspaceId, plan: string, fetchPending: Fetched, now: int)
    requires Credited(db)
    ensures Credited(ChangePlan(db, ws, plan, fetchPending, now))
  {
    if PaidPlan(plan) && ws in db.subs && db.subs[ws].live.Some? {
      if db.subs[ws].pending.None? {
        StartReplacementCredited(db, ws, plan, now);
      } else if StillOpen(fetchPending) {
        OpenChangeUntouched(db, ws, plan, fetchPending, now);
        UntouchedCredited(db, ChangePlan(db, ws, plan, fetchPending, now));
      } else {
        DroppedChangeCredited(db, ws, plan, now);
      }
    }
  }

  /** The pending replacement is unknown, active, or still waiting for its first payment. */
  predicate StillOpen(f: Fetched) {
    f.None? || f.value.status.Active? || PendingLike(f.value.status)
  }

  lemma OpenChangeUntouched(db: Db, ws: WorkspaceId, plan: string, fetchPending: Fetched, now: int)
    requires ws in db.subs && db.subs[ws].live.Some? && db.subs[ws].pending.Some? && StillOpen(fetchPending)
    ensures Untouched(db, ChangePlan(db, ws, plan, fetchPending, now))
  {
    var d := ChangePlan(db, ws, plan, fetchPending, now);
    if d.subs != db.subs {
      RowUntouched(db, d, ws);
    }
  }

  lemma DroppedChangeCredited(db: Db, ws: WorkspaceId, plan: string, now: int)
    requires Credited(db) && ws in db.subs
    ensures Credited(StartReplacement(PutRow(db, ws, WithoutPending(db.subs[ws])), ws, plan, now))
  {
    var dropped := PutRow(db, ws, WithoutPending(db.subs[ws]));
    UntouchedCredited(db, dropped);
    StartReplacementCredited(dropped, ws, plan, now);
  }

  lemma CancelPlanUntouched(db: Db, ws: WorkspaceId, now: int)
    ensures Untouched(db, CancelPlan(db, ws, now))
  {
  }

  lemma RunCleanupUntouched(db: Db, k: OpKey, now: int)
    ensures Untouched(db, RunCleanup(db, k, now))
  {
  }

  lemma TrialUntouched(db: Db, ws: WorkspaceId, start: int, end: int)
    ensures Untouched(db, StartTrial(db, ws, start, end))
  {
  }

  lemma RefundProcessedUntouched(db: Db, ws: WorkspaceId)
    ensures Untouched(db, OnRefundProcessed(db, ws))
  {
  }

  lemma OnActivatedUntouched(db: Db, ws: WorkspaceId, sub: SubId, note: Option<string>)
    ensures Untouched(db, OnActivated(db, ws, sub, note))
  {
    if Holds(db, ws, sub) {
      RowUntouched(db, OnActivated(db, ws, sub, note), ws);
    }
  }

  lemma OnStatusUntouched(db: Db, ws: WorkspaceId, sub: SubId, status: ProviderStatus, note: Option<string>, now: int)
    ensures Untouched(db, OnStatus(db, ws, sub, status, note, now))
  {
    if Holds(db, ws, sub) {
      var row, d := db.subs[ws], OnStatus(db, ws, sub, status, note, now);
      if row.pending == Some(sub) && !ActiveLike(status) && !Over(status) {
        assert d.subs == db.subs && d.ledger == db.ledger;
      } else {
        RowUntouched(db, d, ws);
      }
    }
  }

  /** Only one row changed, and not in its refund fields. */
  lemma RowUntouched(db: Db, d: Db, ws: WorkspaceId)
    requires ws in db.subs && ws in d.subs && d.subs == db.subs[ws := d.subs[ws]]
    requires SameRefund(db.subs[ws], d.subs[ws]) && d.ledger == db.ledger
    ensures Untouched(db, d)
  {
  }

  lemma OnCapturedUntouched(db: Db, ws: WorkspaceId, sub: SubId, note: Option<string>)
    ensures Untouched(db, OnCaptured(db, ws, sub, note))
  {
    if Holds(db, ws, sub) {
      RowUntouched(db, OnCaptured(db, ws, sub, note), ws);
    }
  }

  lemma OnPaymentFailedUntouched(db: Db, ws: WorkspaceId, sub: SubId)
    ensures Untouched(db, OnPaymentFailed(db, ws, sub))
  {
    if Holds(db, ws, sub) {
      RowUntouched(db, OnPaymentFailed(db, ws, sub), ws);
    }
  }

  lemma WebhooksUntouched(db: Db, s: Step)
    requires s.Activated? || s.StatusChanged? || s.Captured? || s.PaymentFailed?
    ensures Untouched(db, Apply(db, s))
  {
    match s
    case Activated(ws, sub, note) => OnActivatedUntouched(db, ws, sub, note);
    case StatusChanged(ws, sub, status, note, now) => OnStatusUntouched(db, ws, sub, status, note, now);
    case Captured(ws, sub, note) => OnCapturedUntouched(db, ws, sub, note);
    case PaymentFailed(ws, sub) => OnPaymentFailedUntouched(db, ws, sub);
  }

  lemma StepCredited(db: Db, s: Step)
    requires Credited(db) && Honest(s)
    ensures Credited(Apply(db, s))
  {
    match s
    case DoCheckout(ws, plan, p, r, now) =>
      if PaidPlan(plan) {
        if HasActivePaidSubscription(db, ws) {
          ChangePlanCredited(db, ws, plan, p, now);
        } else {
          CheckoutUntouched(db, ws, plan, p, r);
          UntouchedCredited(db, Checkout(db, ws, plan, p, r));
        }
      }
    case DoChangePlan(ws, plan, p, now) => ChangePlanCredited(db, ws, plan, p, now);
    case DoWorkerPass(k, r, now) => WorkerPassCredited(db, k, r, now);
    case DoReconcile(ws, r, now) => ReconcileCredited(db, ws, r, now);
    case DoTrial(ws, start, end) => TrialUntouched(db, ws, start, end); UntouchedCredited(db, Apply(db, s));
    case DoCancelPlan(ws, now) => CancelPlanUntouched(db, ws, now); UntouchedCredited(db, Apply(db, s));
    case DoRunCleanup(k, now) => RunCleanupUntouched(db, k, now); UntouchedCredited(db, Apply(db, s));
    case RefundProcessed(ws) => RefundProcessedUntouched(db, ws); UntouchedCredited(db, Apply(db, s));
    case _ => WebhooksUntouched(db, s); UntouchedCredited(db, Apply(db, s));
  }

  // ---------------------------------------------------------------- every run

  lemma {:induction false} PaidWithinCredited(credits: seq<Credit>)
    requires forall i | 0 <= i < |credits| :: PaidAtMostOnce(credits[i])
    ensures TotalPaid(credits) <= TotalCredited(credits)
    decreases |credits|
  {
    if credits != [] {
      PaidWithinCredited(credits[..|credits| - 1]);
    }
  }

  lemma {:induction false} RunCredited(steps: seq<Step>)
    requires forall i | 0 <= i < |steps| :: Honest(steps[i])
    ensures Credited(Run(EMPTY, steps))
    decreases |steps|
  {
    if steps != [] {
      RunCredited(steps[..|steps| - 1]);
      StepCredited(Run(EMPTY, steps[..|steps| - 1]), steps[|steps| - 1]);
    }
  }

  /** Over every run the refunds stay within the recorded credits, and each credit is refunded at most once. */
  lemma RefundsWithinCredits(steps: seq<Step>)
    requires forall i | 0 <= i < |steps| :: Honest(steps[i])
    ensures var l := Run(EMPTY, steps).ledger;
            && l.refunded <= TotalCredited(l.credits)
            && forall i | 0 <= i < |l.credits| :: l.credits[i].refunds <= 1 && l.credits[i].paid <= l.credits[i].amount
  {
    RunCredited(steps);
    PaidWithinCredited(Run(EMPTY, steps).ledger.credits);
  }

  // ---------------------------------------------------------------- which steps pay, and which pay again

  /** A pass over a replacement operation that ends in the refund call. */
  predicate PassRefunds(db: Db, k: OpKey, r: Replies, now: int) {
    && Due(db, k, now) && k.Replace? && k.ws in db.subs
    && if db.ops[k].status == CancelRequested then r.fetchOld.Some? && Over(r.fetchOld.value.status)
       else
         && r.fetchNew.Some? && r.fetchNew.value.status.Active? && k.from != k.to && r.cancel.Accepted?
         && var verified := VerifiedStatus(r.cancel.returned, r.fetchOld);
            verified.Some? && Over(verified.value)
  }

  /** A reconcile that ends in the refund call. */
  predicate ReconcileRefunds(db: Db, ws: WorkspaceId, r: ReconcileReplies) {
    && ws in db.subs && db.subs[ws].live.Some? && r.sync.Some? && (db.subs[ws].pending.Some? ==> r.pending.Some?)
    && db.subs[ws].refundStatus == Some("pending") && ReplacedBy(db, ws, db.subs[ws].live.value) != {}
  }

  /** The workspace whose credit a step tries to refund, and the provider's reply to that. */
  function RefundCall(db: Db, s: Step): (c: Option<(WorkspaceId, RefundReply)>)
    ensures c.Some? ==> c.value.0 in db.subs
  {
    match s
    case DoWorkerPass(k, r, now) => if PassRefunds(db, k, r, now) then Some((k.ws, r.refund)) else None
    case DoReconcile(ws, r, _) => if ReconcileRefunds(db, ws, r) then Some((ws, r.refund)) else None
    case _ => None
  }

  predicate Pays(db: Db, c: Option<(WorkspaceId, RefundReply)>)
    requires c.Some? ==> c.value.0 in db.subs
  {
    c.Some? && Refundable(db.subs[c.value.0]) && c.value.1.Refunded?
  }

  /** The credit of the workspace was paid, its row holds the provider's word for it, and no other money moved. */
  ghost predicate PaidOut(db: Db, d: Db, ws: WorkspaceId, reply: RefundReply)
    requires ws in db.subs && reply.Refunded?
  {
    && SameMoney(d.ledger, Pay(db.ledger, ws, db.subs[ws].refundAmount))
    && d.subs.Keys == db.subs.Keys
    && (forall w | w in db.subs && w != ws :: SameRefund(db.subs[w], d.subs[w]))
    && d.subs[ws].refundAmount == db.subs[ws].refundAmount
    && d.subs[ws].refundStatus == Some(GetOr(reply.status, "initiated"))
  }

  /** What a refund call does to the money, depending on the row and the reply. */
  ghost predicate Settles(db: Db, d: Db, c: Option<(WorkspaceId, RefundReply)>)
    requires c.Some? ==> c.value.0 in db.subs
  {
    if Pays(db, c) then PaidOut(db, d, c.value.0, c.value.1) else Untouched(db, d)
  }

  lemma RefundSettles(db: Db, ws: WorkspaceId, reply: RefundReply)
    requires ws in db.subs
    ensures Settles(db, Refund(db, ws, reply).0, Some((ws, reply)))
  {
  }

  /** Changes that move no money, before and after. */
  lemma SettlesAround(db: Db, mid: Db, d: Db, e: Db, c: Option<(WorkspaceId, RefundReply)>)
    requires SameMoney(db.ledger, mid.ledger) && mid.subs.Keys == db.subs.Keys
    requires forall w | w in db.subs :: SameRefund(db.subs[w], mid.subs[w])
    requires c.Some? ==> c.value.0 in db.subs
    requires Settles(mid, d, c)
    requires SameMoney(d.ledger, e.ledger) && e.subs == d.subs
    ensures Settles(db, e, c)
  {
    if Pays(db, c) {
      PaidOutAround(db, mid, d, e, c.value.0, c.value.1);
    } else {
      assert !Pays(mid, c);
    }
  }

  lemma PaidOutAround(db: Db, mid: Db, d: Db, e: Db, ws: WorkspaceId, reply: RefundReply)
    requires SameMoney(db.ledger, mid.ledger) && mid.subs.Keys == db.subs.Keys
    requires forall w | w in db.subs :: SameRefund(db.subs[w], mid.subs[w])
    requires ws in db.subs && reply.Refunded? && PaidOut(mid, d, ws, reply)
    requires SameMoney(d.ledger, e.ledger) && e.subs == d.subs
    ensures PaidOut(db, e, ws, reply)
  {
    assert SameMoney(Pay(db.ledger, ws, db.subs[ws].refundAmount), Pay(mid.ledger, ws, mid.subs[ws].refundAmount));
  }

  lemma VerifySettles(db: Db, k: OpKey, r: Replies, now: int)
    requires k in db.ops && k.Replace? && k.ws in db.subs
    ensures Settles(db, Verify(db, k, r, now).0,
                    if r.fetchOld.Some? && Over(r.fetchOld.value.status) then Some((k.ws, r.refund)) else None)
  {
    if r.fetchOld.Some? && Over(r.fetchOld.value.status) {
      var marked := MarkCompleted(db, k, now);
      RefundSettles(marked, k.ws, r.refund);
      var d := Refund(marked, k.ws, r.refund).0;
      SettlesAround(db, marked, d, d, Some((k.ws, r.refund)));
    }
  }

  lemma FinalizeSettles(db: Db, k: OpKey, attempt: nat, r: Replies, now: int)
    requires k in db.ops && k.Replace? && k.ws in db.subs && k.from != k.to && db.ops[k].status != CancelRequested
    ensures var verified := VerifiedStatus(if r.cancel.Accepted? then r.cancel.returned else None, r.fetchOld);
            Settles(db, Finalize(db, k, attempt, r, now).0,
                    if r.cancel.Accepted? && verified.Some? && Over(verified.value) then Some((k.ws, r.refund))
                    else None)
  {
    if r.cancel.Accepted? {
      var verified := VerifiedStatus(r.cancel.returned, r.fetchOld);
      if verified.Some? && Over(verified.value) {
        var marked := MarkCompleted(CountCancel(db, k), k, now);
        RefundSettles(marked, k.ws, r.refund);
        var d := Refund(marked, k.ws, r.refund).0;
        SettlesAround(db, marked, d, d, Some((k.ws, r.refund)));
      }
    }
  }

  lemma ProcessReplaceSettles(db: Db, k: OpKey, r: Replies, now: int)
    requires k in db.ops && k.Replace? && Due(db, k, now)
    ensures Settles(db, ProcessReplace(db, k, r, now).0, RefundCall(db, DoWorkerPass(k, r, now)))
  {
    if k.ws in db.subs && db.ops[k].status == CancelRequested {
      VerifySettles(db, k, r, now);
    } else if k.ws in db.subs && r.fetchNew.Some? && r.fetchNew.value.status.Active? && k.from != k.to {
      var promoted := Activate(db, k.ws, r.fetchNew.value, k.to, Some(k.from), db.ops[k].plan);
      FinalizeSettles(promoted, k, db.ops[k].retryCount, r, now);
      var d := Finalize(promoted, k, db.ops[k].retryCount, r, now).0;
      SettlesAround(db, promoted, d, d, RefundCall(db, DoWorkerPass(k, r, now)));
    }
  }

  lemma WorkerPassSettles(db: Db, k: OpKey, r: Replies, now: int)
    ensures Settles(db, WorkerPass(db, k, r, now), RefundCall(db, DoWorkerPass(k, r, now)))
  {
    if Due(db, k, now) {
      var d := Process(db, k, r, now).0;
      ProcessKeepsKeys(db, k, r, now);
      if k.Replace? {
        ProcessReplaceSettles(db, k, r, now);
      } else {
        ProcessCancelUntouched(db, k, r, now);
      }
      SettlesAround(db, db, d, WorkerPass(db, k, r, now), RefundCall(db, DoWorkerPass(k, r, now)));
    }
  }

  /** Cancelling duplicates creates no replacement operation. */
  lemma {:induction false} DuplicatesKeepReplaced(db: Db, ws: WorkspaceId, keep: SubId, dups: seq<SubId>, now: int)
    ensures ReplacedBy(CancelDuplicates(db, ws, keep, dups, now), ws, keep) == ReplacedBy(db, ws, keep)
    decreases |dups|
  {
    if dups != [] {
      DuplicatesKeepReplaced(db, ws, keep, dups[..|dups| - 1], now);
    }
  }

  lemma CleanUpKeepsReplaced(db: Db, ws: WorkspaceId, row: Row, listing: seq<Listed>, now: int)
    requires row.live.Some?
    ensures ReplacedBy(CleanUp(db, ws, row, listing, now), ws, row.live.value) == ReplacedBy(db, ws, row.live.value)
  {
    DuplicatesKeepReplaced(db, ws, row.live.value, FirstTen(Duplicates(listing, row.live.value, row.pending)), now);
  }

  /** Nor does settling the pending replacement make one towards the live subscription. */
  lemma PendingKeepsReplaced(db: Db, ws: WorkspaceId, pending: SubId, sub: ProviderSub, now: int)
    requires ws in db.subs && db.subs[ws].live.Some?
    ensures var live := db.subs[ws].live.value;
            ReplacedBy(ReconcilePending(db, ws, pending, sub, now), ws, live) == ReplacedBy(db, ws, live)
  {
  }

  lemma ReconcileRestSettles(db: Db, ws: WorkspaceId, row: Row, r: ReconcileReplies, now: int)
    requires ws in db.subs
    ensures Settles(db, ReconcileRest(db, ws, row, r, now),
                    if row.refundStatus == Some("pending") && row.live.Some? && ReplacedBy(db, ws, row.live.value) != {}
                    then Some((ws, r.refund)) else None)
  {
    var cleaned := CleanUp(db, ws, row, r.listing, now);
    if row.live.Some? {
      CleanUpKeepsReplaced(db, ws, row, r.listing, now);
    }
    RefundSettles(cleaned, ws, r.refund);
    var d := Refund(cleaned, ws, r.refund).0;
    SettlesAround(db, cleaned, d, d, Some((ws, r.refund)));
  }

  lemma ReconcilePendingKeeps(db: Db, ws: WorkspaceId, pending: SubId, sub: ProviderSub, now: int)
    requires ws in db.subs
    ensures var d := ReconcilePending(db, ws, pending, sub, now);
            SameMoney(db.ledger, d.ledger) && d.subs.Keys == db.subs.Keys
            && forall w | w in db.subs :: SameRefund(db.subs[w], d.subs[w])
  {
  }

  lemma ReconcileSettles(db: Db, ws: WorkspaceId, r: ReconcileReplies, now: int)
    ensures Settles(db, Reconcile(db, ws, r, now), RefundCall(db, DoReconcile(ws, r, now)))
  {
    if ws in db.subs && (db.subs[ws].live.Some? ==> r.sync.Some?) && (db.subs[ws].pending.Some? ==> r.pending.Some?) {
      var row := SyncedRow(db.subs[ws], r.sync);
      var synced := PutRow(db, ws, row);
      var mid := if row.pending.None? then synced
                 else ReconcilePending(synced, ws, row.pending.value, r.pending.value, now);
      if row.pending.Some? {
        ReconcilePendingKeeps(synced, ws, row.pending.value, r.pending.value, now);
        if row.live.Some? {
          PendingKeepsReplaced(synced, ws, row.pending.value, r.pending.value, now);
        }
      }
      ReconcileRestSettles(mid, ws, row, r, now);
      var d := ReconcileRest(mid, ws, row, r, now);
      SettlesAround(db, mid, d, d, RefundCall(db, DoReconcile(ws, r, now)));
    }
  }

  /** Nothing was paid; a plan change may have recorded a new credit at the end. */
  predicate NothingPaid(a: Ledger, b: Ledger) {
    b.refunded == a.refunded && a.credits <= b.credits
  }

  /** A row that asks for a refund belongs to a recorded credit. */
  ghost predicate CreditsLinked(db: Db) {
    forall ws | ws in db.subs && Refundable(db.subs[ws]) ::
      ws in db.ledger.latest && db.ledger.latest[ws] < |db.ledger.credits|
  }

  lemma SettlesLinked(db: Db, d: Db, c: Option<(WorkspaceId, RefundReply)>)
    requires c.Some? ==> c.value.0 in db.subs
    requires CreditsLinked(db) && Settles(db, d, c)
    ensures CreditsLinked(d)
  {
    if Pays(db, c) {
      assert d.ledger.latest == db.ledger.latest && |d.ledger.credits| == |db.ledger.credits|;
      forall w | w in d.subs && Refundable(d.subs[w])
        ensures w in d.ledger.latest && d.ledger.latest[w] < |d.ledger.credits|
      {
        assert Refundable(db.subs[w]);
      }
    }
  }

  lemma StartReplacementMoney(db: Db, ws: WorkspaceId, plan: string, now: int)
    requires ws in db.subs
    ensures var d := StartReplacement(db, ws, plan, now);
            NothingPaid(db.ledger, d.ledger) && (CreditsLinked(db) ==> CreditsLinked(d))
  {
  }

  lemma ChangePlanMoney(db: Db, ws: WorkspaceId, plan: string, fetchPending: Fetched, now: int)
    ensures var d := ChangePlan(db, ws, plan, fetchPending, now);
            NothingPaid(db.ledger, d.ledger) && (CreditsLinked(db) ==> CreditsLinked(d))
  {
    if PaidPlan(plan) && ws in db.subs && db.subs[ws].live.Some? {
      if db.subs[ws].pending.None? {
        StartReplacementMoney(db, ws, plan, now);
      } else if StillOpen(fetchPending) {
        OpenChangeUntouched(db, ws, plan, fetchPending, now);
        UntouchedMoney(db, ChangePlan(db, ws, plan, fetchPending, now));
      } else {
        var dropped := PutRow(db, ws, WithoutPending(db.subs[ws]));
        UntouchedMoney(db, dropped);
        StartReplacementMoney(dropped, ws, plan, now);
      }
    }
  }

  lemma UntouchedMoney(db: Db, d: Db)
    requires Untouched(db, d)
    ensures NothingPaid(db.ledger, d.ledger) && (CreditsLinked(db) ==> CreditsLinked(d))
  {
  }

  /** The money a step moves: the credit of its refund call, or none. */
  lemma StepMoney(db: Db, s: Step)
    ensures var d, c := Apply(db, s), RefundCall(db, s);
            && (Pays(db, c) ==> PaidOut(db, d, c.value.0, c.value.1))
            && (!Pays(db, c) ==> NothingPaid(db.ledger, d.ledger))
            && (CreditsLinked(db) ==> CreditsLinked(d))
  {
    match s
    case DoWorkerPass(k, r, now) =>
      WorkerPassSettles(db, k, r, now);
      SettledMoney(db, s);
    case DoReconcile(ws, r, now) =>
      ReconcileSettles(db, ws, r, now);
      SettledMoney(db, s);
    case DoChangePlan(ws, plan, p, now) => ChangePlanMoney(db, ws, plan, p, now);
    case DoCheckout(ws, plan, p, r, now) =>
      if PaidPlan(plan) {
        if HasActivePaidSubscription(db, ws) {
          ChangePlanMoney(db, ws, plan, p, now);
        } else {
          CheckoutUntouched(db, ws, plan, p, r);
          UntouchedMoney(db, Checkout(db, ws, plan, p, r));
        }
      }
    case DoTrial(ws, start, end) => TrialUntouched(db, ws, start, end); UntouchedMoney(db, Apply(db, s));
    case DoCancelPlan(ws, now) => CancelPlanUntouched(db, ws, now); UntouchedMoney(db, Apply(db, s));
    case DoRunCleanup(k, now) => RunCleanupUntouched(db, k, now); UntouchedMoney(db, Apply(db, s));
    case RefundProcessed(ws) => RefundProcessedUntouched(db, ws); UntouchedMoney(db, Apply(db, s));
    case _ => WebhooksUntouched(db, s); UntouchedMoney(db, Apply(db, s));
  }

  lemma SettledMoney(db: Db, s: Step)
    requires Settles(db, Apply(db, s), RefundCall(db, s))
    ensures var d, c := Apply(db, s), RefundCall(db, s);
            && (Pays(db, c) ==> PaidOut(db, d, c.value.0, c.value.1))
            && (!Pays(db, c) ==> NothingPaid(db.ledger, d.ledger))
            && (CreditsLinked(db) ==> CreditsLinked(d))
  {
    if CreditsLinked(db) {
      SettlesLinked(db, Apply(db, s), RefundCall(db, s));
    }
    if !Pays(db, RefundCall(db, s)) {
      UntouchedMoney(db, Apply(db, s));
    }
  }

  lemma {:induction false} RunLinked(steps: seq<Step>)
    ensures CreditsLinked(Run(EMPTY, steps))
    decreases |steps|
  {
    if steps != [] {
      RunLinked(steps[..|steps| - 1]);
      StepMoney(Run(EMPTY, steps[..|steps| - 1]), steps[|steps| - 1]);
    }
  }

  /** Some credit that was refunded before is refunded again. */
  ghost predicate RefundedAgain(a: Ledger, b: Ledger) {
    exists i | 0 <= i < |a.credits| && i < |b.credits| :: b.credits[i].refunds > a.credits[i].refunds >= 1
  }

  /** How often the latest credit of a workspace was refunded. */
  function LatestRefunds(l: Ledger, ws: WorkspaceId): nat {
    if ws in l.latest && l.latest[ws] < |l.credits| then l.credits[l.latest[ws]].refunds else 0
  }

  /** Paying a credit touches that credit only. */
  lemma PayTouchesLatest(l: Ledger, b: Ledger, ws: WorkspaceId, amount: nat)
    requires ws in l.latest && l.latest[ws] < |l.credits| && SameMoney(b, Pay(l, ws, amount))
    ensures RefundedAgain(l, b) <==> LatestRefunds(l, ws) >= 1
  {
    var i := l.latest[ws];
    assert b.credits[i].refunds > l.credits[i].refunds;
    assert forall j | 0 <= j < |l.credits| && j != i :: b.credits[j] == l.credits[j];
  }

  /** Is the reply the one that leaves the row asking for a refund? */
  ghost predicate Reopened(d: Db, ws: WorkspaceId, reply: RefundReply) {
    ws in d.subs && (Refundable(d.subs[ws]) <==> reply == Refunded(Some("pending")))
  }

  /**
   * In every run, whatever the provider replies: a step pays exactly if it reaches the refund call for a row that
   * asks for a refund and the call goes through; it pays a credit again exactly if, besides, the latest credit of that
   * workspace was refunded before; and the row asks for a refund afterwards exactly if the reply was `pending`.
   */
  lemma PaysAgainIff(steps: seq<Step>, s: Step)
    ensures var db := Run(EMPTY, steps);
            var d, c := Apply(db, s), RefundCall(db, s);
            && (d.ledger.refunded > db.ledger.refunded <==> Pays(db, c))
            && (RefundedAgain(db.ledger, d.ledger) <==> Pays(db, c) && LatestRefunds(db.ledger, c.value.0) >= 1)
            && (Pays(db, c) ==> Reopened(d, c.value.0, c.value.1))
  {
    RunLinked(steps);
    StepMoney(Run(EMPTY, steps), s);
    MoneyPaysAgain(Run(EMPTY, steps), Apply(Run(EMPTY, steps), s), RefundCall(Run(EMPTY, steps), s));
  }

  lemma MoneyPaysAgain(db: Db, d: Db, c: Option<(WorkspaceId, RefundReply)>)
    requires CreditsLinked(db) && (c.Some? ==> c.value.0 in db.subs)
    requires Pays(db, c) ==> PaidOut(db, d, c.value.0, c.value.1)
    requires !Pays(db, c) ==> NothingPaid(db.ledger, d.ledger)
    ensures d.ledger.refunded > db.ledger.refunded <==> Pays(db, c)
    ensures RefundedAgain(db.ledger, d.ledger) <==> Pays(db, c) && LatestRefunds(db.ledger, c.value.0) >= 1
    ensures Pays(db, c) ==> Reopened(d, c.value.0, c.value.1)
  {
    if Pays(db, c) {
      PayTouchesLatest(db.ledger, d.ledger, c.value.0, db.subs[c.value.0].refundAmount);
    }
  }
}
