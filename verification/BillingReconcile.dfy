/** What a reconcile does: the row is synced, the pending subscription settled, duplicates are cancelled. */
module BillingReconcile {
  import opened Common
  import opened OperationStatus
  import opened BillingModel
  import opened BillingInvariants
  import opened BillingRefunds
  import opened BillingEffects

  // ---------------------------------------------------------------- step 1: the live subscription

  /** The row with the provider's status; the period is read unless it is known and the status is the same. */
  predicate IsSynced(row: Row, next: Row, sub: ProviderSub) {
    && next.status == RowStatus(sub.status)
    && next == row.(status := next.status, periodStart := next.periodStart, periodEnd := next.periodEnd)
    && (if row.status == RowStatus(sub.status) && row.periodStart.Some? && row.periodEnd.Some?
        then SamePeriod(row, next) else PeriodOf(row, next, sub))
  }

  // ---------------------------------------------------------------- step 2: the pending subscription

  ghost predicate PendingSettled(db: Db, d: Db, ws: WorkspaceId, sub: ProviderSub, now: int)
    requires ws in db.subs && db.subs[ws].pending.Some?
  {
    var row := db.subs[ws];
    if sub.status == Active then
      && RowAndQueue(db, d, ws) && QueuesReplaced(db, d, ws, row)
      && TookOver(row, d.subs[ws], FirstKnown(row.pendingPlan, sub.plan, row.plan), "active")
      && PeriodOf(row, d.subs[ws], sub)
    else if sub.status in ENDED then Dropped(db, d, ws, row.pending.value)
    else if sub.status in WAITING then
      d == UpsertReplacement(db, ws, row.live, row.pending, row.pendingPlan, Pending, None, None, now)
    else d == db
  }

  lemma PendingOutcome(db: Db, ws: WorkspaceId, sub: ProviderSub, now: int)
    requires ws in db.subs && db.subs[ws].pending.Some?
    ensures PendingSettled(db, ReconcilePending(db, ws, db.subs[ws].pending.value, sub, now), ws, sub, now)
  {
    if sub.status == Active {
      ActiveOutcome(db, ws, sub, now);
    } else if sub.status in ENDED {
      EndedOutcome(db, ws, sub, now);
    }
  }

  lemma ActiveOutcome(db: Db, ws: WorkspaceId, sub: ProviderSub, now: int)
    requires ws in db.subs && db.subs[ws].pending.Some? && sub.status == Active
    ensures PendingSettled(db, ReconcilePending(db, ws, db.subs[ws].pending.value, sub, now), ws, sub, now)
  {
  }

  lemma EndedOutcome(db: Db, ws: WorkspaceId, sub: ProviderSub, now: int)
    requires ws in db.subs && db.subs[ws].pending.Some? && sub.status in ENDED
    ensures Dropped(db, ReconcilePending(db, ws, db.subs[ws].pending.value, sub, now), ws, db.subs[ws].pending.value)
  {
  }

  // ---------------------------------------------------------------- step 3: duplicates

  /** The duplicates are the listed subscriptions of the workspace that can be cancelled and that nobody needs. */
  lemma {:induction false} DuplicatesAre(listing: seq<Listed>, keep: SubId, pending: Option<SubId>, x: SubId)
    ensures x in Duplicates(listing, keep, pending)
       <==> exists i | 0 <= i < |listing| ::
              && listing[i].sub == x && listing[i].ours && listing[i].status in {Authenticated, Active, Unpaid, Halted}
              && x != keep && Some(x) != pending
    decreases |listing|
  {
    if listing != [] {
      DuplicatesAre(listing[1..], keep, pending, x);
      assert forall i | 1 <= i < |listing| :: listing[i] == listing[1..][i - 1];
      if x in Duplicates(listing[1..], keep, pending) {
        var i :| 0 <= i < |listing| - 1 && listing[1..][i].sub == x && listing[1..][i].ours
                 && listing[1..][i].status in {Authenticated, Active, Unpaid, Halted}
                 && x != keep && Some(x) != pending;
        assert listing[i + 1].sub == x;
      }
    }
  }

  /** The listed order is kept, and no more than ten are taken. */
  lemma FirstTenAre(subs: seq<SubId>)
    ensures FirstTen(subs) <= subs && |FirstTen(subs)| == (if |subs| > 10 then 10 else |subs|)
  {
  }

  /** A cancel operation that was asked for anew. */
  ghost predicate AskedAnew(existing: Option<Op>, next: Op, now: int) {
    && next.nextRetryAt == now && !next.atCycleEnd
    && next.status == (if existing.Some? && existing.value.status in {Completed, Abandoned, CancelRequested}
                       then existing.value.status else CleanupPending)
    && next.retryCount == (if existing.Some? then existing.value.retryCount else 0)
  }

  /** A live replacement operation is in charge of the duplicate. */
  predicate Covered(db: Db, ws: WorkspaceId, keep: SubId, x: SubId) {
    Replace(ws, x, keep) in db.ops && !Terminal(db.ops[Replace(ws, x, keep)].status)
  }

  /** Every duplicate that is not covered has its cancel operation, and no other operation changed. */
  lemma {:induction false} DuplicatesOutcome(db: Db, ws: WorkspaceId, keep: SubId, dups: seq<SubId>, now: int, k: OpKey)
    ensures var d := CancelDuplicates(db, ws, keep, dups, now);
            && d == db.(ops := d.ops)
            && (if k.Cancel? && k.ws == ws && k.sub in dups && !Covered(db, ws, keep, k.sub)
                then k in d.ops && AskedAnew(Find(db.ops, k), d.ops[k], now)
                else (k in d.ops <==> k in db.ops) && (k in db.ops ==> d.ops[k] == db.ops[k]))
    decreases |dups|
  {
    if dups != [] {
      var init, last := dups[..|dups| - 1], dups[|dups| - 1];
      assert dups == init + [last];
      DuplicatesOutcome(db, ws, keep, init, now, k);
      DuplicatesOutcome(db, ws, keep, init, now, Replace(ws, last, keep));
      CancelDuplicatesFrame(db, ws, keep, init, now);
    }
  }

  // ---------------------------------------------------------------- the whole

  /** Nothing is cleaned up unless the row read at first is live, active and of a known customer. */
  ghost predicate CleanedUp(db: Db, d: Db, ws: WorkspaceId, row: Row, listing: seq<Listed>, now: int) {
    && d == db.(ops := d.ops)
    && if row.live.Some? && row.customer && row.status == "active" then
         forall k: OpKey ::
           var dups := FirstTen(Duplicates(listing, row.live.value, row.pending));
           if k.Cancel? && k.ws == ws && k.sub in dups && !Covered(db, ws, row.live.value, k.sub)
           then k in d.ops && AskedAnew(Find(db.ops, k), d.ops[k], now)
           else (k in d.ops <==> k in db.ops) && (k in db.ops ==> d.ops[k] == db.ops[k])
       else d == db
  }

  lemma CleanUpOutcome(db: Db, ws: WorkspaceId, row: Row, listing: seq<Listed>, now: int)
    ensures CleanedUp(db, CleanUp(db, ws, row, listing, now), ws, row, listing, now)
  {
    var d := CleanUp(db, ws, row, listing, now);
    if row.live.Some? && row.customer && row.status == "active" {
      var dups := FirstTen(Duplicates(listing, row.live.value, row.pending));
      forall k: OpKey
        ensures if k.Cancel? && k.ws == ws && k.sub in dups && !Covered(db, ws, row.live.value, k.sub)
                then k in d.ops && AskedAnew(Find(db.ops, k), d.ops[k], now)
                else (k in d.ops <==> k in db.ops) && (k in db.ops ==> d.ops[k] == db.ops[k])
      {
        DuplicatesOutcome(db, ws, row.live.value, dups, now, k);
      }
    }
  }

  /** The same but for the refund status of one row and the money. */
  ghost predicate SameButRefund(db: Db, d: Db, ws: WorkspaceId) {
    && ws in db.subs && ws in d.subs && OtherRowsSame(db, d, ws)
    && d.subs[ws] == db.subs[ws].(refundStatus := d.subs[ws].refundStatus)
    && d.ops == db.ops && d.queue == db.queue && d.nextSub == db.nextSub
    && d.ledger.cancels == db.ledger.cancels && d.ledger.throws == db.ledger.throws
  }

  /**
   * A reconcile whose calls all answer syncs the row, settles the pending subscription, cleans duplicates up, and may
   * change the refund status; what it pays is told by `BillingRefunds.PaysAgainIff`.
   */
  lemma ReconcileOutcome(db: Db, ws: WorkspaceId, r: ReconcileReplies, now: int)
    returns (synced: Db, settled: Db, cleaned: Db)
    requires ws in db.subs && (db.subs[ws].live.Some? ==> r.sync.Some?)
    requires db.subs[ws].pending.Some? ==> r.pending.Some?
    ensures ws in synced.subs && OtherRowsSame(db, synced, ws) && synced == db.(subs := synced.subs)
    ensures if db.subs[ws].live.Some? then IsSynced(db.subs[ws], synced.subs[ws], r.sync.value)
            else synced.subs[ws] == db.subs[ws]
    ensures if synced.subs[ws].pending.Some? then PendingSettled(synced, settled, ws, r.pending.value, now)
            else settled == synced
    ensures CleanedUp(settled, cleaned, ws, synced.subs[ws], r.listing, now)
    ensures SameButRefund(cleaned, Reconcile(db, ws, r, now), ws)
  {
    var row := SyncedRow(db.subs[ws], r.sync);
    synced := PutRow(db, ws, row);
    settled := synced;
    if row.pending.Some? {
      settled := ReconcilePending(synced, ws, row.pending.value, r.pending.value, now);
      PendingOutcome(synced, ws, r.pending.value, now);
    }
    cleaned := CleanUp(settled, ws, row, r.listing, now);
    CleanUpOutcome(settled, ws, row, r.listing, now);
    RestIsRefund(settled, ws, row, r, now);
  }

  lemma RestIsRefund(db: Db, ws: WorkspaceId, row: Row, r: ReconcileReplies, now: int)
    requires ws in db.subs
    ensures SameButRefund(CleanUp(db, ws, row, r.listing, now), ReconcileRest(db, ws, row, r, now), ws)
  {
    RefundIsRefundOnly(CleanUp(db, ws, row, r.listing, now), ws, r.refund);
  }

  /** A reconcile whose first call threw does nothing; one whose second call threw only syncs the row. */
  lemma InterruptedReconcileOutcome(db: Db, ws: WorkspaceId, r: ReconcileReplies, now: int)
    requires ws in db.subs ==>
               (db.subs[ws].live.Some? && r.sync.None?) || (db.subs[ws].pending.Some? && r.pending.None?)
    ensures var d := Reconcile(db, ws, r, now);
            if ws !in db.subs || (db.subs[ws].live.Some? && r.sync.None?) then d == db
            else
              && ws in d.subs && OtherRowsSame(db, d, ws) && d == db.(subs := d.subs)
              && (if db.subs[ws].live.Some? then IsSynced(db.subs[ws], d.subs[ws], r.sync.value)
                  else d.subs[ws] == db.subs[ws])
  {
  }
}
