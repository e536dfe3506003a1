/** When a subscription leaves its row with no operation left that would cancel it, and what may pick it up later. */
module BillingTracking {
  import opened Common
  import opened OperationStatus
  import opened BillingModel
  import opened BillingInvariants
  import opened BillingFindings

  /** The operation is there to cancel subscription `x`. */
  predicate About(k: OpKey, ws: WorkspaceId, x: SubId) {
    k == Cancel(ws, x) || (k.Replace? && k.ws == ws && k.from == x)
  }

  /** Some operation has cancelled `x` or still may. */
  ghost predicate Remembered(ops: map<OpKey, Op>, ws: WorkspaceId, x: SubId) {
    exists k | k in ops :: About(k, ws, x) && ops[k].status != Abandoned
  }

  /** Subscription `x` is neither on its row nor remembered. */
  ghost predicate Lost(db: Db, ws: WorkspaceId, x: SubId) {
    !Holds(db, ws, x) && !Remembered(db.ops, ws, x)
  }

  // ---------------------------------------------------------------- the branches that take the live subscription off

  /** A checkout that goes on with the subscription found. */
  predicate GoesOn(reuse: Option<SubId>, fetchReuse: Fetched, plan: string) {
    reuse.Some? && fetchReuse.Some? && Reusable(fetchReuse.value, plan)
  }

  /** The guards that lead a checkout request to a new subscription. */
  predicate CreatesFresh(db: Db, s: Step, ws: WorkspaceId)
    requires ws in db.subs
  {
    && s.DoCheckout? && s.ws == ws && PaidPlan(s.plan) && !HasActivePaidSubscription(db, ws)
    && var row := db.subs[ws];
       if row.pending.None? then !GoesOn(row.live, s.fetchReuse, s.plan)
       else if row.pendingPlan == Some(s.plan) then !GoesOn(row.pending, s.fetchReuse, s.plan)
       else
         && s.fetchPending.Some? && !s.fetchPending.value.status.Active? && !PendingLike(s.fetchPending.value.status)
         && !GoesOn(row.live, s.fetchReuse, s.plan)
  }

  /** The guards under which a worker pass makes another subscription than `x` the live one. */
  predicate PassPromotes(db: Db, s: Step, ws: WorkspaceId, x: SubId) {
    && s.DoWorkerPass? && Due(db, s.key, s.now) && s.key.Replace? && s.key.ws == ws
    && db.ops[s.key].status != CancelRequested
    && s.replies.fetchNew.Some? && s.replies.fetchNew.value.status.Active? && s.key.to != x
  }

  predicate IsActive(f: Fetched) {
    f.Some? && f.value.status.Active?
  }

  /** The guards under which an event, a reconcile, a checkout or a plan change promotes the pending subscription. */
  predicate PromotesPending(db: Db, s: Step, ws: WorkspaceId, x: SubId)
    requires ws in db.subs
  {
    var row := db.subs[ws];
    && row.pending.Some? && row.pending != Some(x)
    && match s
       case Activated(w, sub, _) => w == ws && Some(sub) == row.pending
       case StatusChanged(w, sub, status, _, _) => w == ws && Some(sub) == row.pending && ActiveLike(status)
       case Captured(w, sub, _) => w == ws && Some(sub) == row.pending
       case DoReconcile(w, r, _) => w == ws && (row.live.Some? ==> r.sync.Some?) && IsActive(r.pending)
       case DoChangePlan(w, plan, p, _) => w == ws && PaidPlan(plan) && row.live.Some? && IsActive(p)
       case DoCheckout(w, plan, p, r, _) =>
         && w == ws && PaidPlan(plan)
         && if !HasActivePaidSubscription(db, ws) && row.pendingPlan == Some(plan)
            then GoesOn(row.pending, r, plan) && IsActive(r) else IsActive(p)
       case _ => false
  }

  /** The step takes the live subscription `x` off its row. */
  predicate TakesOff(db: Db, s: Step, ws: WorkspaceId, x: SubId)
    requires ws in db.subs
  {
    CreatesFresh(db, s, ws) || PassPromotes(db, s, ws, x) || PromotesPending(db, s, ws, x)
  }

  /** The row of `w` has the live subscription `x`. */
  predicate Live(db: Db, w: WorkspaceId, x: SubId) {
    w in db.subs && db.subs[w].live == Some(x) && x < db.nextSub
  }

  // ---------------------------------------------------------------- what each handler does to the row

  lemma ReconcileTakesOff(db: Db, ws: WorkspaceId, r: ReconcileReplies, now: int, w: WorkspaceId, x: SubId)
    requires Live(db, w, x)
    ensures Holds(Reconcile(db, ws, r, now), w, x) <==> !TakesOff(db, DoReconcile(ws, r, now), w, x)
  {
    if ws in db.subs && (db.subs[ws].live.Some? ==> r.sync.Some?) {
      var row := SyncedRow(db.subs[ws], r.sync);
      var synced := PutRow(db, ws, row);
      if row.pending.None? {
        RestKeepsRow(synced, ws, row, r, now, w, x);
      } else if r.pending.Some? {
        var mid := ReconcilePending(synced, ws, row.pending.value, r.pending.value, now);
        SettledPendingTakesOff(synced, ws, r.pending.value, now, w, x);
        RestKeepsRow(mid, ws, row, r, now, w, x);
      }
    }
  }

  lemma SettledPendingTakesOff(db: Db, ws: WorkspaceId, sub: ProviderSub, now: int, w: WorkspaceId, x: SubId)
    requires Live(db, w, x) && ws in db.subs && db.subs[ws].pending.Some?
    ensures Holds(ReconcilePending(db, ws, db.subs[ws].pending.value, sub, now), w, x)
       <==> !(ws == w && db.subs[ws].pending != Some(x) && sub.status.Active?)
  {
  }

  /** Steps 3 and 4 of a reconcile leave the ids on every row alone. */
  lemma RestKeepsRow(db: Db, ws: WorkspaceId, row: Row, r: ReconcileReplies, now: int, w: WorkspaceId, x: SubId)
    requires ws in db.subs
    ensures Holds(ReconcileRest(db, ws, row, r, now), w, x) <==> Holds(db, w, x)
  {
    RefundIsRefundOnly(CleanUp(db, ws, row, r.listing, now), ws, r.refund);
  }

  lemma StartKeepsLive(db: Db, ws: WorkspaceId, plan: string, now: int, w: WorkspaceId, x: SubId)
    requires Live(db, w, x) && ws in db.subs
    ensures Holds(StartReplacement(db, ws, plan, now), w, x)
  {
  }

  lemma ChangePlanTakesOff(db: Db, ws: WorkspaceId, plan: string, p: Fetched, now: int, w: WorkspaceId, x: SubId)
    requires Live(db, w, x)
    ensures Holds(ChangePlan(db, ws, plan, p, now), w, x) <==> !TakesOff(db, DoChangePlan(ws, plan, p, now), w, x)
  {
    if ws in db.subs {
      StartKeepsLive(db, ws, plan, now, w, x);
      StartKeepsLive(PutRow(db, ws, WithoutPending(db.subs[ws])), ws, plan, now, w, x);
    }
  }

  lemma CheckoutTakesOff(db: Db, s: Step, w: WorkspaceId, x: SubId)
    requires Live(db, w, x) && s.DoCheckout? && PaidPlan(s.plan) && !HasActivePaidSubscription(db, s.ws)
    ensures Holds(Checkout(db, s.ws, s.plan, s.fetchPending, s.fetchReuse), w, x) <==> !TakesOff(db, s, w, x)
  {
    if s.ws in db.subs && s.ws == w {
      var row := db.subs[w];
      if row.pending.Some? && row.pendingPlan != Some(s.plan) {
        OtherPlanTakesOff(db, s, w, x);
      }
    }
  }

  /** The branch of a checkout that meets a pending subscription for another plan. */
  lemma OtherPlanTakesOff(db: Db, s: Step, w: WorkspaceId, x: SubId)
    requires Live(db, w, x) && s.DoCheckout? && s.ws == w && PaidPlan(s.plan) && !HasActivePaidSubscription(db, w)
    requires db.subs[w].pending.Some? && db.subs[w].pendingPlan != Some(s.plan)
    ensures Holds(Checkout(db, w, s.plan, s.fetchPending, s.fetchReuse), w, x) <==> !TakesOff(db, s, w, x)
  {
  }

  lemma StatusTakesOff(db: Db, ws: WorkspaceId, sub: SubId, status: ProviderStatus, note: Option<string>, now: int,
                       w: WorkspaceId, x: SubId)
    requires Live(db, w, x)
    ensures Holds(OnStatus(db, ws, sub, status, note, now), w, x)
       <==> !TakesOff(db, StatusChanged(ws, sub, status, note, now), w, x)
  {
  }

  lemma EventTakesOff(db: Db, s: Step, w: WorkspaceId, x: SubId)
    requires Live(db, w, x) && (s.Activated? || s.Captured?)
    ensures Holds(Apply(db, s), w, x) <==> !TakesOff(db, s, w, x)
  {
  }

  lemma PassTakesOff(db: Db, k: OpKey, r: Replies, now: int, w: WorkspaceId, x: SubId)
    requires Live(db, w, x)
    ensures Holds(WorkerPass(db, k, r, now), w, x) <==> !TakesOff(db, DoWorkerPass(k, r, now), w, x)
  {
    if Due(db, k, now) {
      ProcessKeepsKeys(db, k, r, now);
      if k.Replace? {
        ProcessReplaceWorked(db, k, r, now);
        if k.ws == w {
          PassKeepsLiveIff(db, k, r, now);
        }
      } else {
        ProcessCancelWorked(db, k, r, now);
      }
    }
  }

  lemma OtherStepsTakeNothingOff(db: Db, s: Step, w: WorkspaceId, x: SubId)
    requires Live(db, w, x)
    requires s.DoTrial? || s.DoCancelPlan? || s.DoRunCleanup? || s.PaymentFailed? || s.RefundProcessed?
    ensures Holds(Apply(db, s), w, x) && !TakesOff(db, s, w, x)
  {
  }

  /** A live subscription leaves its row in those branches exactly. */
  lemma LeavesRowIff(db: Db, s: Step, w: WorkspaceId, x: SubId)
    requires Live(db, w, x)
    ensures Holds(Apply(db, s), w, x) <==> !TakesOff(db, s, w, x)
  {
    match s
    case DoWorkerPass(k, r, now) => PassTakesOff(db, k, r, now, w, x);
    case DoReconcile(ws, r, now) => ReconcileTakesOff(db, ws, r, now, w, x);
    case DoChangePlan(ws, plan, p, now) => ChangePlanTakesOff(db, ws, plan, p, now, w, x);
    case DoCheckout(ws, plan, p, r, now) =>
      if PaidPlan(plan) {
        if HasActivePaidSubscription(db, ws) {
          ChangePlanTakesOff(db, ws, plan, p, now, w, x);
        } else {
          CheckoutTakesOff(db, s, w, x);
        }
      }
    case StatusChanged(ws, sub, status, note, now) => StatusTakesOff(db, ws, sub, status, note, now, w, x);
    case Activated(_, _, _) => EventTakesOff(db, s, w, x);
    case Captured(_, _, _) => EventTakesOff(db, s, w, x);
    case _ => OtherStepsTakeNothingOff(db, s, w, x);
  }

  // ---------------------------------------------------------------- what each handler does to the memory of `x`

  /** The operations about `x` are the same, and abandoned or not as before. */
  ghost predicate SameMemory(a: map<OpKey, Op>, b: map<OpKey, Op>, ws: WorkspaceId, x: SubId) {
    forall k | About(k, ws, x) ::
      (k in a <==> k in b) && (k in a ==> (a[k].status == Abandoned <==> b[k].status == Abandoned))
  }

  /** Nothing remembers `x` that did not before. */
  ghost predicate NoNewMemory(a: map<OpKey, Op>, b: map<OpKey, Op>, ws: WorkspaceId, x: SubId) {
    forall k | About(k, ws, x) && k in b && b[k].status != Abandoned :: k in a && a[k].status != Abandoned
  }

  lemma SameMemoryRemembers(a: map<OpKey, Op>, b: map<OpKey, Op>, ws: WorkspaceId, x: SubId)
    requires SameMemory(a, b, ws, x)
    ensures Remembered(a, ws, x) <==> Remembered(b, ws, x)
  {
    if Remembered(a, ws, x) {
      var k :| k in a && About(k, ws, x) && a[k].status != Abandoned;
      assert k in b && b[k].status != Abandoned;
    }
    if Remembered(b, ws, x) {
      var k :| k in b && About(k, ws, x) && b[k].status != Abandoned;
      assert k in a && a[k].status != Abandoned;
    }
  }

  /** Cancelling other subscriptions than `x` leaves the operations about `x` alone. */
  lemma {:induction false} DuplicatesMemory(db: Db, ws: WorkspaceId, keep: SubId, dups: seq<SubId>, now: int,
                                            w: WorkspaceId, x: SubId)
    requires ws != w || x !in dups
    ensures SameMemory(db.ops, CancelDuplicates(db, ws, keep, dups, now).ops, w, x)
    decreases |dups|
  {
    if dups != [] {
      assert dups[|dups| - 1] in dups;
      DuplicatesMemory(db, ws, keep, dups[..|dups| - 1], now, w, x);
    }
  }

  /** What is listed as a duplicate is neither the one to keep nor the pending one. */
  lemma {:induction false} DuplicatesAreOthers(listing: seq<Listed>, keep: SubId, pending: Option<SubId>, x: SubId)
    requires x in Duplicates(listing, keep, pending)
    ensures x != keep && Some(x) != pending
    decreases |listing|
  {
    if x in Duplicates(listing[1..], keep, pending) {
      DuplicatesAreOthers(listing[1..], keep, pending, x);
    }
  }

  lemma CleanUpMemory(db: Db, ws: WorkspaceId, row: Row, listing: seq<Listed>, now: int, w: WorkspaceId, x: SubId)
    requires ws != w || row.live == Some(x)
    ensures SameMemory(db.ops, CleanUp(db, ws, row, listing, now).ops, w, x)
  {
    if row.live.Some? {
      var dups := FirstTen(Duplicates(listing, row.live.value, row.pending));
      if x in dups {
        DuplicatesAreOthers(listing, row.live.value, row.pending, x);
      }
      DuplicatesMemory(db, ws, row.live.value, dups, now, w, x);
    }
  }

  lemma ReconcileMemory(db: Db, r: ReconcileReplies, now: int, w: WorkspaceId, x: SubId)
    requires Live(db, w, x) && PromotesPending(db, DoReconcile(w, r, now), w, x)
    ensures SameMemory(db.ops, Reconcile(db, w, r, now).ops, w, x)
  {
    var row := SyncedRow(db.subs[w], r.sync);
    var mid := ReconcilePending(PutRow(db, w, row), w, row.pending.value, r.pending.value, now);
    assert mid.ops == db.ops;
    CleanUpMemory(mid, w, row, r.listing, now, w, x);
    RefundIsRefundOnly(CleanUp(mid, w, row, r.listing, now), w, r.refund);
  }

  /** A pass that promotes its replacement does not abandon its operation. */
  lemma PassMemory(db: Db, k: OpKey, r: Replies, now: int, w: WorkspaceId, x: SubId)
    requires PassPromotes(db, DoWorkerPass(k, r, now), w, x) && w in db.subs
    ensures SameMemory(db.ops, WorkerPass(db, k, r, now).ops, w, x)
  {
    var d := WorkerPass(db, k, r, now);
    ProcessKeepsKeys(db, k, r, now);
    ProcessReplaceWorked(db, k, r, now);
    PromotionIsNotAbandoned(db, k, r, now);
    assert d.ops[k].status != Abandoned;
    assert forall j | j in db.ops && j != k :: d.ops[j] == db.ops[j];
  }

  lemma PromotionIsNotAbandoned(db: Db, k: OpKey, r: Replies, now: int)
    requires Due(db, k, now) && k.Replace? && k.ws in db.subs
    requires db.ops[k].status != CancelRequested && IsActive(r.fetchNew)
    ensures var d := ProcessReplace(db, k, r, now).0; k in d.ops && d.ops[k].status != Abandoned
  {
    var promoted := Activate(db, k.ws, r.fetchNew.value, k.to, Some(k.from), db.ops[k].plan);
    if k.from != k.to {
      FinalizeIsNotAbandoned(promoted, k, db.ops[k].retryCount, r, now);
    }
  }

  lemma FinalizeIsNotAbandoned(db: Db, k: OpKey, attempt: nat, r: Replies, now: int)
    requires k in db.ops && k.Replace? && k.ws in db.subs && k.from != k.to
    requires db.ops[k].status != CancelRequested && !Terminal(db.ops[k].status)
    ensures var d := Finalize(db, k, attempt, r, now).0; k in d.ops && d.ops[k].status != Abandoned
  {
    RefundIsRefundOnly(MarkCompleted(CountCancel(db, k), k, now), k.ws, r.refund);
  }

  /** The other branches that take the live subscription off leave the operations alone. */
  lemma RowOnly(db: Db, s: Step, w: WorkspaceId, x: SubId)
    requires Live(db, w, x) && !s.DoReconcile? && !s.DoWorkerPass? && TakesOff(db, s, w, x)
    ensures Apply(db, s).ops == db.ops
  {
  }

  lemma TakesOffMemory(db: Db, s: Step, w: WorkspaceId, x: SubId)
    requires Live(db, w, x) && TakesOff(db, s, w, x)
    ensures SameMemory(db.ops, Apply(db, s).ops, w, x)
  {
    match s
    case DoReconcile(ws, r, now) => ReconcileMemory(db, r, now, w, x);
    case DoWorkerPass(k, r, now) => PassMemory(db, k, r, now, w, x);
    case _ => RowOnly(db, s, w, x);
  }

  // ---------------------------------------------------------------- main results

  /**
   * In every run a step loses the live subscription of a row exactly if no operation remembers it and the step is a
   * checkout that creates a new subscription, a worker pass that promotes another replacement, or a promotion of the
   * pending subscription.
   */
  lemma LosesTrackIff(steps: seq<Step>, s: Step, w: WorkspaceId, x: SubId)
    requires w in Run(EMPTY, steps).subs && Run(EMPTY, steps).subs[w].live == Some(x)
    ensures var db := Run(EMPTY, steps);
            Lost(Apply(db, s), w, x)
            <==> && !Remembered(db.ops, w, x)
                 && (CreatesFresh(db, s, w) || PassPromotes(db, s, w, x) || PromotesPending(db, s, w, x))
  {
    var db := Run(EMPTY, steps);
    RunCore(steps);
    assert RowIdsKnown(db.subs[w], db.nextSub);
    StepLosesTrackIff(db, s, w, x);
  }

  lemma StepLosesTrackIff(db: Db, s: Step, w: WorkspaceId, x: SubId)
    requires Live(db, w, x)
    ensures Lost(Apply(db, s), w, x) <==> !Remembered(db.ops, w, x) && TakesOff(db, s, w, x)
  {
    LeavesRowIff(db, s, w, x);
    if TakesOff(db, s, w, x) {
      TakesOffMemory(db, s, w, x);
      SameMemoryRemembers(db.ops, Apply(db, s).ops, w, x);
    }
  }

  // ---------------------------------------------------------------- what may pick a lost subscription up

  /** A reconcile whose listing shows `x` among the first ten duplicates, with no cancel operation for it yet. */
  predicate PicksUp(db: Db, s: Step, ws: WorkspaceId, x: SubId) {
    && s.DoReconcile? && s.ws == ws && ws in db.subs && db.subs[ws].live.Some? && s.found.sync.Some?
    && (db.subs[ws].pending.Some? ==> s.found.pending.Some?)
    && db.subs[ws].customer && ActiveLike(s.found.sync.value.status)
    && x in FirstTen(Duplicates(s.found.listing, db.subs[ws].live.value, db.subs[ws].pending))
    && Cancel(ws, x) !in db.ops
  }

  lemma NothingNewForgets(a: map<OpKey, Op>, b: map<OpKey, Op>, ws: WorkspaceId, x: SubId)
    requires NoNewMemory(a, b, ws, x) && !Remembered(a, ws, x)
    ensures !Remembered(b, ws, x)
  {
  }

  lemma UpsertForgets(db: Db, ws: WorkspaceId, from: Option<SubId>, to: Option<SubId>, plan: Option<string>,
                      status: OpStatus, retry: Option<nat>, at: Option<int>, now: int, w: WorkspaceId, x: SubId)
    requires !Remembered(db.ops, w, x)
    requires ws == w && from == Some(x) && to.Some? ==> Replace(w, x, to.value) in db.ops
    ensures NoNewMemory(db.ops, UpsertReplacement(db, ws, from, to, plan, status, retry, at, now).ops, w, x)
  {
  }

  lemma StartForgets(db: Db, ws: WorkspaceId, plan: string, now: int, w: WorkspaceId, x: SubId)
    requires !Holds(db, w, x) && ws in db.subs
    ensures NoNewMemory(db.ops, StartReplacement(db, ws, plan, now).ops, w, x)
  {
  }

  lemma ChangePlanForgets(db: Db, ws: WorkspaceId, plan: string, p: Fetched, now: int, w: WorkspaceId, x: SubId)
    requires Lost(db, w, x)
    ensures NoNewMemory(db.ops, ChangePlan(db, ws, plan, p, now).ops, w, x)
  {
    if ws in db.subs {
      StartForgets(db, ws, plan, now, w, x);
      StartForgets(PutRow(db, ws, WithoutPending(db.subs[ws])), ws, plan, now, w, x);
      UpsertForgets(db, ws, db.subs[ws].live, db.subs[ws].pending, Some(plan), Pending, None, None, now, w, x);
    }
  }

  lemma CheckoutForgets(db: Db, ws: WorkspaceId, plan: string, p: Fetched, r: Fetched, w: WorkspaceId, x: SubId)
    ensures Checkout(db, ws, plan, p, r).ops == db.ops
  {
  }

  lemma StatusForgets(db: Db, ws: WorkspaceId, sub: SubId, status: ProviderStatus, note: Option<string>, now: int,
                      w: WorkspaceId, x: SubId)
    requires Lost(db, w, x)
    ensures NoNewMemory(db.ops, OnStatus(db, ws, sub, status, note, now).ops, w, x)
  {
    if Holds(db, ws, sub) {
      var row := db.subs[ws];
      UpsertForgets(db, ws, row.live, Some(sub), row.pendingPlan, Pending, None, None, now, w, x);
    }
  }

  /** A pass over an operation about `x` would mean that `x` is remembered. */
  lemma PassForgets(db: Db, k: OpKey, r: Replies, now: int, w: WorkspaceId, x: SubId)
    requires Lost(db, w, x)
    ensures NoNewMemory(db.ops, WorkerPass(db, k, r, now).ops, w, x)
  {
    if Due(db, k, now) {
      ProcessKeepsKeys(db, k, r, now);
      assert !About(k, w, x);
      if k.Replace? {
        ProcessReplaceWorked(db, k, r, now);
      } else {
        ProcessCancelWorked(db, k, r, now);
      }
    }
  }

  lemma RunCleanupForgets(db: Db, k: OpKey, now: int, w: WorkspaceId, x: SubId)
    requires Lost(db, w, x) && QueueRecorded(db)
    ensures NoNewMemory(db.ops, RunCleanup(db, k, now).ops, w, x)
  {
    if k in db.queue && k.Replace? {
      UpsertForgets(db.(queue := db.queue - multiset{k}), k.ws, Some(k.from), Some(k.to), None, CleanupPending,
                    Some(0), Some(now + CleanupDelay(0)), now, w, x);
    }
  }

  lemma EventForgets(db: Db, s: Step, w: WorkspaceId, x: SubId)
    requires Lost(db, w, x)
    requires s.Activated? || s.Captured? || s.PaymentFailed? || s.RefundProcessed? || s.DoTrial? || s.DoCancelPlan?
    ensures NoNewMemory(db.ops, Apply(db, s).ops, w, x)
  {
  }

  lemma ReconcilePendingForgets(db: Db, ws: WorkspaceId, pending: SubId, sub: ProviderSub, now: int,
                                w: WorkspaceId, x: SubId)
    requires Lost(db, w, x) && ws in db.subs
    ensures var d := ReconcilePending(db, ws, pending, sub, now);
            NoNewMemory(db.ops, d.ops, w, x) && (Cancel(w, x) in d.ops <==> Cancel(w, x) in db.ops)
  {
    UpsertForgets(db, ws, db.subs[ws].live, Some(pending), db.subs[ws].pendingPlan, Pending, None, None, now, w, x);
  }

  /** The loop over the duplicates remembers exactly those among them that have no cancel operation yet. */
  lemma {:induction false} DuplicatesPickUp(db: Db, ws: WorkspaceId, keep: SubId, dups: seq<SubId>, now: int,
                                            w: WorkspaceId, x: SubId)
    requires !Remembered(db.ops, w, x)
    ensures Remembered(CancelDuplicates(db, ws, keep, dups, now).ops, w, x)
       <==> ws == w && x in dups && Cancel(w, x) !in db.ops
    ensures var ops := CancelDuplicates(db, ws, keep, dups, now).ops;
            && (Cancel(w, x) in db.ops ==> Cancel(w, x) in ops && ops[Cancel(w, x)].status == Abandoned)
            && (Cancel(w, x) in ops <==> Cancel(w, x) in db.ops || (ws == w && x in dups))
            && (forall k: OpKey | k.Replace? && About(k, w, x) && k in ops :: ops[k].status == Abandoned)
            && (Cancel(w, x) in ops && Cancel(w, x) !in db.ops ==> ops[Cancel(w, x)].status == CleanupPending)
    decreases |dups|
  {
    var ops := CancelDuplicates(db, ws, keep, dups, now).ops;
    if dups != [] {
      var init, last := dups[..|dups| - 1], dups[|dups| - 1];
      DuplicatesPickUp(db, ws, keep, init, now, w, x);
      assert dups == init + [last];
      assert About(Cancel(w, x), w, x) && About(Replace(w, x, keep), w, x);
    }
    if Cancel(w, x) in ops && Cancel(w, x) !in db.ops {
      assert Remembered(ops, w, x);
    }
  }

  /** The row and the listing make the clean-up meet `x`, with no cancel operation for it yet. */
  predicate Meets(db: Db, ws: WorkspaceId, row: Row, listing: seq<Listed>, w: WorkspaceId, x: SubId) {
    && ws == w && row.live.Some? && row.customer && row.status == "active"
    && x in FirstTen(Duplicates(listing, row.live.value, row.pending)) && Cancel(w, x) !in db.ops
  }

  lemma RestPicksUp(db: Db, ws: WorkspaceId, row: Row, r: ReconcileReplies, now: int, w: WorkspaceId, x: SubId)
    requires !Remembered(db.ops, w, x) && ws in db.subs
    ensures Remembered(ReconcileRest(db, ws, row, r, now).ops, w, x) <==> Meets(db, ws, row, r.listing, w, x)
  {
    CleanUpPicksUp(db, ws, row, r.listing, now, w, x);
    RestOps(db, ws, row, r, now);
  }

  lemma OpenPicksUp(db: Db, ws: WorkspaceId, row: Row, r: ReconcileReplies, now: int, w: WorkspaceId, x: SubId)
    requires Lost(db, w, x) && ws in db.subs && row.pending.Some? && r.pending.Some?
    ensures var mid := ReconcilePending(db, ws, row.pending.value, r.pending.value, now);
            Remembered(ReconcileRest(mid, ws, row, r, now).ops, w, x) <==> Meets(db, ws, row, r.listing, w, x)
  {
    var mid := ReconcilePending(db, ws, row.pending.value, r.pending.value, now);
    ReconcilePendingForgets(db, ws, row.pending.value, r.pending.value, now, w, x);
    NothingNewForgets(db.ops, mid.ops, w, x);
    RestPicksUp(mid, ws, row, r, now, w, x);
  }

  lemma SyncedFacts(row: Row, sync: Fetched)
    requires row.live.Some? ==> sync.Some?
    ensures var next := SyncedRow(row, sync);
            && SameIds(row, next) && (row.live.Some? ==> (next.status == "active" <==> ActiveLike(sync.value.status)))
  {
  }

  lemma ReconcilePicksUp(db: Db, s: Step, w: WorkspaceId, x: SubId)
    requires Lost(db, w, x) && s.DoReconcile?
    ensures Remembered(Apply(db, s).ops, w, x) <==> PicksUp(db, s, w, x)
  {
    var ws, r, now := s.ws, s.found, s.now;
    if ws in db.subs && (db.subs[ws].live.Some? ==> r.sync.Some?) {
      var row := SyncedRow(db.subs[ws], r.sync);
      var synced := PutRow(db, ws, row);
      SyncedFacts(db.subs[ws], r.sync);
      assert Lost(synced, w, x);
      if row.pending.None? {
        RestPicksUp(synced, ws, row, r, now, w, x);
      } else if r.pending.Some? {
        OpenPicksUp(synced, ws, row, r, now, w, x);
      }
      assert PicksUp(db, s, w, x)
        <==> (row.pending.Some? ==> r.pending.Some?) && Meets(synced, ws, row, r.listing, w, x);
    }
  }

  lemma RestOps(db: Db, ws: WorkspaceId, row: Row, r: ReconcileReplies, now: int)
    requires ws in db.subs
    ensures ReconcileRest(db, ws, row, r, now).ops == CleanUp(db, ws, row, r.listing, now).ops
  {
    RefundIsRefundOnly(CleanUp(db, ws, row, r.listing, now), ws, r.refund);
  }

  lemma CleanUpPicksUp(db: Db, ws: WorkspaceId, row: Row, listing: seq<Listed>, now: int, w: WorkspaceId, x: SubId)
    requires !Remembered(db.ops, w, x)
    ensures Remembered(CleanUp(db, ws, row, listing, now).ops, w, x) <==> Meets(db, ws, row, listing, w, x)
  {
    if row.live.Some? {
      DuplicatesPickUp(db, ws, row.live.value, FirstTen(Duplicates(listing, row.live.value, row.pending)), now, w, x);
    }
  }

  /** In every run a lost subscription is remembered again exactly by a reconcile whose duplicate clean-up meets it. */
  lemma PickedUpIff(steps: seq<Step>, s: Step, w: WorkspaceId, x: SubId)
    requires Lost(Run(EMPTY, steps), w, x)
    ensures var db := Run(EMPTY, steps); Remembered(Apply(db, s).ops, w, x) <==> PicksUp(db, s, w, x)
  {
    RunCore(steps);
    StepPicksUpIff(Run(EMPTY, steps), s, w, x);
  }

  lemma StepPicksUpIff(db: Db, s: Step, w: WorkspaceId, x: SubId)
    requires Lost(db, w, x) && QueueRecorded(db)
    ensures Remembered(Apply(db, s).ops, w, x) <==> PicksUp(db, s, w, x)
  {
    if s.DoReconcile? {
      ReconcilePicksUp(db, s, w, x);
    } else {
      StepForgets(db, s, w, x);
      NothingNewForgets(db.ops, Apply(db, s).ops, w, x);
    }
  }

  lemma StepForgets(db: Db, s: Step, w: WorkspaceId, x: SubId)
    requires Lost(db, w, x) && QueueRecorded(db) && !s.DoReconcile?
    ensures NoNewMemory(db.ops, Apply(db, s).ops, w, x)
  {
    match s
    case DoWorkerPass(k, r, now) => PassForgets(db, k, r, now, w, x);
    case DoRunCleanup(k, now) => RunCleanupForgets(db, k, now, w, x);
    case DoChangePlan(ws, plan, p, now) => ChangePlanForgets(db, ws, plan, p, now, w, x);
    case DoCheckout(ws, plan, p, r, now) =>
      ChangePlanForgets(db, ws, plan, p, now, w, x);
      CheckoutForgets(db, ws, plan, p, r, w, x);
    case StatusChanged(ws, sub, status, note, now) => StatusForgets(db, ws, sub, status, note, now, w, x);
    case _ => EventForgets(db, s, w, x);
  }

  // ---------------------------------------------------------------- runs

  /** A failed payment, then a checkout for another plan that goes through: subscription 0 is lost. */
  lemma CheckoutLosesTheOldSubscription() returns (steps: seq<Step>, d: Db)
    ensures d == Run(EMPTY, steps) && Lost(d, 7, 0) && d.ops == map[]
    ensures d.subs == map[7 := Row("growth", "active", Some(1), None, None, Some(0), Some(100), 0, None, true)]
  {
    var s0, d0 := Subscribed();
    var failed, checkout, active := PaymentFailed(7, 0), DoCheckout(7, "growth", None, None, 5), Activated(7, 1, None);
    var d1 := Apply(d0, failed);
    assert d1.subs == map[7 := d0.subs[7].(status := "past_due")] && d1.ops == map[];
    var d2 := Apply(d1, checkout);
    assert d2 == FreshCheckout(d1, 7, "growth");
    d := Apply(d2, active);
    RunSnoc(s0, failed);
    RunSnoc(s0 + [failed], checkout);
    RunSnoc(s0 + [failed] + [checkout], active);
    steps := s0 + [failed] + [checkout] + [active];
  }

  lemma AbandoningPass(db: Db, pass: Step)
    requires 7 in db.subs && db.ops == map[Replace(7, 0, 1) := Op(Pending, Some("growth"), 0, 60_010, true)]
    requires pass == DoWorkerPass(Replace(7, 0, 1), Replies(Some(Sub(Cancelled)), Deferred, None, NoPayment), 60_010)
    ensures var d := Apply(db, pass);
            && d.subs == db.subs && d.ledger == db.ledger && d.queue == db.queue && d.nextSub == db.nextSub
            && d.ops.Keys == {Replace(7, 0, 1)} && d.ops[Replace(7, 0, 1)].status == Abandoned
  {
    var k := Replace(7, 0, 1);
    assert Process(db, k, pass.replies, 60_010)
        == (PutOp(db, k, Retried(db.ops[k], Abandoned, 60_010 + CleanupDelay(1))), false);
  }

  lemma CapturedPayment(db: Db, captured: Step)
    requires 7 in db.subs && db.subs[7].live == Some(0) && db.subs[7].pending == Some(1)
    requires captured == Captured(7, 1, None)
    requires db.ops.Keys == {Replace(7, 0, 1)} && db.ops[Replace(7, 0, 1)].status == Abandoned
    ensures var d := Apply(db, captured);
            7 in d.subs && d.subs[7].live == Some(1) && d.ops == db.ops && d.ledger == db.ledger && Lost(d, 7, 0)
  {
  }

  /**
   * A pass finds the replacement cancelled and abandons its operation, while the row keeps it pending; then a captured
   * payment promotes it. Subscription 0 is lost, and no cancel call was ever made.
   */
  lemma PromotionAfterAbandonLosesTheOldSubscription() returns (steps: seq<Step>)
    ensures var d := Run(EMPTY, steps);
            && Lost(d, 7, 0) && 7 in d.subs && d.subs[7].live == Some(1) && d.ledger.cancels == map[]
            && Replace(7, 0, 1) in d.ops && d.ops[Replace(7, 0, 1)].status == Abandoned
  {
    var s0, d0 := Subscribed();
    var change, captured := DoChangePlan(7, "growth", None, 10), Captured(7, 1, None);
    var pass := DoWorkerPass(Replace(7, 0, 1), Replies(Some(Sub(Cancelled)), Deferred, None, NoPayment), 60_010);
    var d1 := Apply(d0, change);
    assert d1.subs[7] == Row("starter", "active", Some(0), Some(1), Some("growth"), Some(0), Some(100), 899,
                             Some("pending"), true);
    assert d1.ops == map[Replace(7, 0, 1) := Op(Pending, Some("growth"), 0, 60_010, true)];
    AbandoningPass(d1, pass);
    CapturedPayment(Apply(d1, pass), captured);
    RunSnoc(s0, change);
    RunSnoc(s0 + [change], pass);
    RunSnoc(s0 + [change] + [pass], captured);
    steps := s0 + [change] + [pass] + [captured];
  }

  /** A lost subscription need not stay lost: a reconcile whose listing shows it gives it a cancel operation. */
  lemma ReconcilePicksLostSubscriptionUp() returns (steps: seq<Step>, s: Step)
    ensures Lost(Run(EMPTY, steps), 7, 0) && Remembered(Run(EMPTY, steps + [s]).ops, 7, 0)
  {
    var d;
    steps, d := CheckoutLosesTheOldSubscription();
    var listing := [Listed(0, true, Active)];
    s := DoReconcile(7, ReconcileReplies(Some(Sub(Active)), None, listing, NoPayment), 30);
    assert listing[1..] == [] && Duplicates(listing, 1, None) == [0];
    assert PicksUp(d, s, 7, 0);
    PickedUpIff(steps, s, 7, 0);
    RunSnoc(steps, s);
  }
}
