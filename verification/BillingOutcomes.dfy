/** What a worker pass makes of its operation, its row and the provider, told from the replies alone. */
module BillingOutcomes {
  import opened Common
  import opened OperationStatus
  import opened BillingModel
  import opened BillingInvariants
  import opened BillingRefunds

  // ---------------------------------------------------------------- the tables

  /** The provider's statuses: waiting for a payment, active, over, or none of these. */
  lemma StatusClasses(s: ProviderStatus)
    ensures PendingLike(s) <==> s in {Created, Authenticated, Unpaid, Halted}
    ensures ActiveLike(s) <==> s in {Active, Authenticated, Resumed}
    ensures Over(s) <==> s in {Cancelled, Ended, Expired}
    ensures RowStatus(s) == "active" <==> s in {Active, Authenticated, Resumed}
    ensures RowStatus(s) == "paused" <==> s == Paused
    ensures RowStatus(s) == "cancelled" <==> s in {Cancelled, Ended}
    ensures RowStatus(s) == "expired" <==> s == Expired
    ensures RowStatus(s) == "past_due" <==> s in {Created, Unpaid, Halted, Unknown}
  {
  }

  /** Retries come after 1, 5, 15 and then 30 minutes; verifications after 5, 15, 30 and then 60. */
  lemma Delays(attempt: nat)
    ensures attempt == 0 ==> CleanupDelay(attempt) == 1 * 60_000 && VerifyDelay(attempt) == 5 * 60_000
    ensures attempt == 1 ==> CleanupDelay(attempt) == 5 * 60_000 && VerifyDelay(attempt) == 15 * 60_000
    ensures attempt == 2 ==> CleanupDelay(attempt) == 15 * 60_000 && VerifyDelay(attempt) == 30 * 60_000
    ensures attempt >= 3 ==> CleanupDelay(attempt) == 30 * 60_000 && VerifyDelay(attempt) == 60 * 60_000
  {
  }

  /** The worker takes up an operation exactly if it is open and its time has come; any other stays as it is. */
  lemma DueIff(db: Db, k: OpKey, r: Replies, now: int)
    ensures Due(db, k, now)
       <==> k in db.ops && db.ops[k].status !in {Completed, Abandoned} && db.ops[k].nextRetryAt <= now
    ensures !Due(db, k, now) ==> WorkerPass(db, k, r, now) == db
  {
  }

  // ---------------------------------------------------------------- what the provider says in a pass

  const ENDED: set<ProviderStatus> := {Cancelled, Ended, Expired}

  /** The cancel call itself returned a final status. */
  predicate ReturnedOver(r: Replies) {
    r.cancel.Accepted? && r.cancel.returned.Some? && r.cancel.returned.value in ENDED
  }

  /** The provider reports that the subscription is over with status `s`; `asks` says that the pass cancels. */
  predicate SaysOver(asks: bool, r: Replies, s: ProviderStatus) {
    s in ENDED
    && if asks && ReturnedOver(r) then r.cancel.returned == Some(s)
       else (asks ==> r.cancel.Accepted?) && r.fetchOld.Some? && r.fetchOld.value.status == s
  }

  ghost predicate IsOver(asks: bool, r: Replies) {
    exists s :: SaysOver(asks, r, s)
  }

  /** A call that the outcome depends on threw. */
  predicate Unsure(asks: bool, r: Replies) {
    if asks then r.cancel.CancelThrew? || (r.cancel.Accepted? && !ReturnedOver(r) && r.fetchOld.None?)
    else r.fetchOld.None?
  }

  /** The provider put the cancel off. */
  predicate PutOff(asks: bool, r: Replies) {
    asks && (r.cancel.Deferred? || r.cancel.NotStarted?)
  }

  /** The cancel is asked for, accepted, and still to be confirmed. */
  ghost predicate Unconfirmed(asks: bool, r: Replies) {
    !Unsure(asks, r) && !PutOff(asks, r) && !IsOver(asks, r)
  }

  lemma VerifiedIsOver(r: Replies)
    requires r.cancel.Accepted?
    ensures var v := VerifiedStatus(r.cancel.returned, r.fetchOld);
            && (v.None? <==> Unsure(true, r))
            && (v.Some? && Over(v.value) ==> SaysOver(true, r, v.value))
            && (v.Some? && !Over(v.value) ==> !IsOver(true, r))
            && (forall s | SaysOver(true, r, s) :: v == Some(s))
  {
  }

  lemma FetchedIsOver(r: Replies)
    ensures r.fetchOld.Some? && Over(r.fetchOld.value.status) ==> SaysOver(false, r, r.fetchOld.value.status)
    ensures r.fetchOld.Some? && !Over(r.fetchOld.value.status) ==> !IsOver(false, r)
    ensures forall s | SaysOver(false, r, s) :: r.fetchOld.Some? && r.fetchOld.value.status == s
  {
  }

  // ---------------------------------------------------------------- a pass over a cancel operation

  /** The operation after the pass. */
  ghost predicate CancelOpEnds(op: Op, next: Op, r: Replies, now: int) {
    var asks := op.status != CancelRequested;
    && (next.status == Completed <==> IsOver(asks, r))
    && (next.status == Failed <==> Unsure(asks, r))
    && (next.status == CleanupPending <==> PutOff(asks, r))
    && (next.status == CancelRequested <==> Unconfirmed(asks, r))
    && next.retryCount == (if IsOver(asks, r) then op.retryCount else op.retryCount + 1)
    && next.nextRetryAt == (if IsOver(asks, r) then now
                            else if Unconfirmed(asks, r) then now + VerifyDelay(op.retryCount + 1)
                            else now + CleanupDelay(op.retryCount + 1))
    && next.plan == op.plan && next.atCycleEnd == op.atCycleEnd
  }

  /** The rows after the pass: the final status is mirrored on the row whose live subscription it was. */
  ghost predicate CancelRowEnds(db: Db, d: Db, k: OpKey, asks: bool, r: Replies)
    requires k.Cancel?
  {
    && d.subs.Keys == db.subs.Keys && (forall w | w in db.subs && w != k.ws :: d.subs[w] == db.subs[w])
    && (k.ws in db.subs ==>
          var row := db.subs[k.ws];
          if row.live == Some(k.sub) && IsOver(asks, r) then
            d.subs[k.ws] == row.(status := if SaysOver(asks, r, Expired) then "expired" else "cancelled")
          else d.subs[k.ws] == row)
  }

  lemma CancelDoneEnds(db: Db, called: Db, k: OpKey, s: ProviderStatus, asks: bool, r: Replies, now: int)
    requires k in db.ops && k.Cancel? && called.ops == db.ops && called.subs == db.subs && SaysOver(asks, r, s)
    requires forall t | SaysOver(asks, r, t) :: t == s
    ensures CancelRowEnds(db, CancelDone(called, k, s, now), k, asks, r)
  {
    StatusClasses(s);
  }

  lemma SameRowsEnd(db: Db, d: Db, k: OpKey, asks: bool, r: Replies)
    requires k.Cancel? && d.subs == db.subs && !IsOver(asks, r)
    ensures CancelRowEnds(db, d, k, asks, r)
  {
  }

  /** A pass that verifies a requested cancel. */
  lemma VerifyingCancelEnds(db: Db, k: OpKey, r: Replies, now: int)
    requires Due(db, k, now) && k.Cancel? && db.ops[k].status == CancelRequested
    ensures var d := WorkerPass(db, k, r, now);
            && k in d.ops && CancelOpEnds(db.ops[k], d.ops[k], r, now) && CancelRowEnds(db, d, k, false, r)
            && Cancels(d, k) == Cancels(db, k)
            && Throws(d, k) == Throws(db, k) + (if Unsure(false, r) then 1 else 0)
  {
    FetchedIsOver(r);
    if r.fetchOld.Some? && Over(r.fetchOld.value.status) {
      CancelDoneEnds(db, db, k, r.fetchOld.value.status, false, r, now);
    } else {
      SameRowsEnd(db, WorkerPass(db, k, r, now), k, false, r);
    }
  }

  ghost predicate AskingEnds(db: Db, k: OpKey, r: Replies, now: int)
    requires k in db.ops && k.Cancel?
  {
    var d := WorkerPass(db, k, r, now);
    && k in d.ops && CancelOpEnds(db.ops[k], d.ops[k], r, now) && CancelRowEnds(db, d, k, true, r)
    && Cancels(d, k) == Cancels(db, k) + (if PutOff(true, r) then 0 else 1)
    && Throws(d, k) == Throws(db, k) + (if Unsure(true, r) then 1 else 0)
  }

  lemma AcceptedCancelEnds(db: Db, k: OpKey, r: Replies, now: int)
    requires Due(db, k, now) && k.Cancel? && db.ops[k].status != CancelRequested && r.cancel.Accepted?
    ensures AskingEnds(db, k, r, now)
  {
    VerifiedIsOver(r);
    var v, d := VerifiedStatus(r.cancel.returned, r.fetchOld), WorkerPass(db, k, r, now);
    if v.Some? && Over(v.value) {
      CancelDoneEnds(db, CountCancel(db, k), k, v.value, true, r, now);
      assert d == CancelDone(CountCancel(db, k), k, v.value, now);
    } else {
      assert d.subs == db.subs;
      SameRowsEnd(db, d, k, true, r);
    }
  }

  lemma RefusedCancelEnds(db: Db, k: OpKey, r: Replies, now: int)
    requires Due(db, k, now) && k.Cancel? && db.ops[k].status != CancelRequested && !r.cancel.Accepted?
    ensures AskingEnds(db, k, r, now)
  {
    assert !IsOver(true, r);
    SameRowsEnd(db, WorkerPass(db, k, r, now), k, true, r);
  }

  /**
   * A pass over a cancel operation completes it exactly if the provider reports the subscription as over, fails it
   * exactly if a call it depends on threw, and otherwise leaves it to be retried or verified; the row mirrors the final
   * status exactly if the subscription is its live one.
   */
  lemma CancelPassOutcome(db: Db, k: OpKey, r: Replies, now: int)
    requires Due(db, k, now) && k.Cancel?
    ensures var d, asks := WorkerPass(db, k, r, now), db.ops[k].status != CancelRequested;
            && k in d.ops && CancelOpEnds(db.ops[k], d.ops[k], r, now) && CancelRowEnds(db, d, k, asks, r)
            && Cancels(d, k) == Cancels(db, k) + (if asks && !PutOff(asks, r) then 1 else 0)
            && Throws(d, k) == Throws(db, k) + (if Unsure(asks, r) then 1 else 0)
            && (forall j | j in db.ops && j != k :: j in d.ops && d.ops[j] == db.ops[j])
            && d.ops.Keys == db.ops.Keys && d.queue == db.queue && d.nextSub == db.nextSub
            && SameMoney(db.ledger, d.ledger)
  {
    if db.ops[k].status == CancelRequested {
      VerifyingCancelEnds(db, k, r, now);
    } else {
      if r.cancel.Accepted? {
        AcceptedCancelEnds(db, k, r, now);
      } else {
        RefusedCancelEnds(db, k, r, now);
      }
    }
    ProcessCancelWorked(db, k, r, now);
    ProcessCancelUntouched(db, k, r, now);
    ProcessKeepsKeys(db, k, r, now);
  }

  // ---------------------------------------------------------------- a pass over a replacement operation

  predicate NewIs(r: Replies, statuses: set<ProviderStatus>) {
    r.fetchNew.Some? && r.fetchNew.value.status in statuses
  }

  /** The credit of the row is due, and the refund call threw. */
  predicate RefundFails(row: Row, r: Replies) {
    row.refundAmount > 0 && (row.refundStatus == None || row.refundStatus == Some("pending")) && r.refund.RefundThrew?
  }

  const WAITING: set<ProviderStatus> := {Created, Authenticated, Unpaid, Halted}

  const STRANGE: set<ProviderStatus> := {Paused, Resumed, Unknown}

  /** How a pass that verifies a requested cancel ends. */
  ghost predicate VerifyingEnds(op: Op, next: Op, row: Row, r: Replies, now: int) {
    && (next.status == Completed <==> IsOver(false, r) && !RefundFails(row, r))
    && (next.status == Failed <==> r.fetchOld.None? || (IsOver(false, r) && RefundFails(row, r)))
    && (next.status == CancelRequested <==> r.fetchOld.Some? && !IsOver(false, r))
    && (next.status == Completed ==> next.retryCount == op.retryCount && next.nextRetryAt == now)
    && (next.status == Failed ==> next.retryCount == op.retryCount + 1)
    && (next.status == Failed ==> next.nextRetryAt == now + CleanupDelay(op.retryCount + 1))
    && (next.status == CancelRequested ==> next.retryCount == op.retryCount + 1)
    && (next.status == CancelRequested ==> next.nextRetryAt == now + VerifyDelay(op.retryCount + 1))
  }

  /** How any other pass ends: by what the provider says of the replacement, and then of the cancel. */
  ghost predicate ReplacingEnds(op: Op, next: Op, same: bool, r: Replies, now: int) {
    var cancels := NewIs(r, {Active}) && !same;
    && (next.status == Completed <==> NewIs(r, {Active}) && (same || IsOver(true, r)))
    && (next.status == Abandoned <==> NewIs(r, ENDED))
    && (next.status == Failed <==> r.fetchNew.None? || NewIs(r, STRANGE) || (cancels && Unsure(true, r)))
    && (next.status == CancelRequested <==> cancels && Unconfirmed(true, r))
    && (next.status == CleanupPending <==>
          (cancels && PutOff(true, r)) || (NewIs(r, WAITING) && op.status == CleanupPending))
    && (next.status == Pending <==> NewIs(r, WAITING) && op.status != CleanupPending)
    && next.retryCount == (if next.status == Completed then op.retryCount else op.retryCount + 1)
    && next.nextRetryAt == (if next.status == Completed then now
                            else if next.status == CancelRequested then now + VerifyDelay(op.retryCount + 1)
                            else now + CleanupDelay(op.retryCount + 1))
  }

  /** The row once the replacement is the live subscription; the plan is the operation's, or else the next one known. */
  predicate IsPromoted(row: Row, next: Row, op: Op, to: SubId, sub: ProviderSub) {
    && next.live == Some(to) && next.pending == None && next.pendingPlan == None && next.status == "active"
    && next.plan == (if op.plan.Some? then op.plan.value
                     else if sub.plan.Some? then sub.plan.value
                     else if row.pendingPlan.Some? then row.pendingPlan.value else row.plan)
    && next.periodStart == (if sub.start.Some? then sub.start else row.periodStart)
    && next.periodEnd == (if sub.end.Some? then sub.end else row.periodEnd)
    && next.refundAmount == row.refundAmount && next.customer == row.customer
  }

  lemma VerifyingReplaceEnds(db: Db, k: OpKey, r: Replies, now: int)
    requires Due(db, k, now) && k.Replace? && k.ws in db.subs && db.ops[k].status == CancelRequested
    ensures var d := WorkerPass(db, k, r, now);
            && k in d.ops && VerifyingEnds(db.ops[k], d.ops[k], db.subs[k.ws], r, now)
            && k.ws in d.subs && d.subs[k.ws] == db.subs[k.ws].(refundStatus := d.subs[k.ws].refundStatus)
            && Cancels(d, k) == Cancels(db, k) && d.queue == db.queue
            && Throws(d, k) == Throws(db, k) + (if d.ops[k].status == Failed then 1 else 0)
  {
    FetchedIsOver(r);
    if r.fetchOld.Some? && Over(r.fetchOld.value.status) {
      RefundIsRefundOnly(MarkCompleted(db, k, now), k.ws, r.refund);
    }
  }

  /** The cancel that follows a promotion. */
  lemma FinalizeEnds(db: Db, k: OpKey, op: Op, r: Replies, now: int)
    requires k in db.ops && k.Replace? && k.ws in db.subs && k.from != k.to && db.ops[k] == op
    requires op.status != CancelRequested && !Terminal(op.status)
    ensures var (d, threw) := Finalize(db, k, op.retryCount, r, now);
            && k in d.ops && (threw <==> Unsure(true, r)) && (threw ==> d.ops[k] == op)
            && (!threw ==>
                  && (d.ops[k].status == Completed <==> IsOver(true, r))
                  && (d.ops[k].status == CleanupPending <==> PutOff(true, r))
                  && (d.ops[k].status == CancelRequested <==> Unconfirmed(true, r))
                  && d.ops[k].status in {Completed, CleanupPending, CancelRequested}
                  && d.ops[k].retryCount == (if IsOver(true, r) then op.retryCount else op.retryCount + 1)
                  && d.ops[k].nextRetryAt == (if IsOver(true, r) then now
                                              else if PutOff(true, r) then now + CleanupDelay(op.retryCount + 1)
                                              else now + VerifyDelay(op.retryCount + 1)))
            && k.ws in d.subs && d.subs[k.ws] == db.subs[k.ws].(refundStatus := d.subs[k.ws].refundStatus)
            && Cancels(d, k) == Cancels(db, k) + (if PutOff(true, r) then 0 else 1) && d.queue == db.queue
            && Throws(d, k) == Throws(db, k)
  {
    if r.cancel.Accepted? {
      VerifiedIsOver(r);
      RefundIsRefundOnly(MarkCompleted(CountCancel(db, k), k, now), k.ws, r.refund);
    } else {
      assert !IsOver(true, r);
    }
  }

  lemma WaitingReplaceEnds(db: Db, k: OpKey, r: Replies, now: int)
    requires Due(db, k, now) && k.Replace? && k.ws in db.subs && db.ops[k].status != CancelRequested
    requires !NewIs(r, {Active})
    ensures var d := WorkerPass(db, k, r, now);
            && k in d.ops && ReplacingEnds(db.ops[k], d.ops[k], k.from == k.to, r, now)
            && d.subs == db.subs && Cancels(d, k) == Cancels(db, k) && d.queue == db.queue
            && Throws(d, k) == Throws(db, k) + (if r.fetchNew.None? then 1 else 0)
  {
    if r.fetchNew.Some? {
      StatusClasses(r.fetchNew.value.status);
    }
  }

  /** A promotion alone: the row, the queue, and nothing else. */
  lemma ActivateEnds(db: Db, k: OpKey, sub: ProviderSub)
    requires k in db.ops && k.Replace? && k.ws in db.subs
    ensures var d := Activate(db, k.ws, sub, k.to, Some(k.from), db.ops[k].plan);
            && k.ws in d.subs && IsPromoted(db.subs[k.ws], d.subs[k.ws], db.ops[k], k.to, sub)
            && d.ops == db.ops && d.ledger == db.ledger
            && d.queue == db.queue + (if k.from == k.to then multiset{} else multiset{k})
  {
  }

  lemma PromotingReplaceEnds(db: Db, k: OpKey, r: Replies, now: int)
    requires Due(db, k, now) && k.Replace? && k.ws in db.subs && db.ops[k].status != CancelRequested
    requires NewIs(r, {Active})
    ensures var d := WorkerPass(db, k, r, now);
            && k in d.ops && ReplacingEnds(db.ops[k], d.ops[k], k.from == k.to, r, now)
            && k.ws in d.subs && IsPromoted(db.subs[k.ws], d.subs[k.ws], db.ops[k], k.to, r.fetchNew.value)
            && Cancels(d, k) == Cancels(db, k) + (if k.from == k.to || PutOff(true, r) then 0 else 1)
            && Throws(d, k) == Throws(db, k) + (if k.from != k.to && Unsure(true, r) then 1 else 0)
            && d.queue == db.queue + (if k.from == k.to then multiset{} else multiset{k})
  {
    var op := db.ops[k];
    var promoted := Activate(db, k.ws, r.fetchNew.value, k.to, Some(k.from), op.plan);
    ActivateEnds(db, k, r.fetchNew.value);
    if k.from != k.to {
      FinalizeEnds(promoted, k, op, r, now);
      var (d, threw) := Finalize(promoted, k, op.retryCount, r, now);
      assert WorkerPass(db, k, r, now) == if threw then Caught(d, k, op, now) else d;
      CaughtEnds(db, d, k, r, threw, now);
    } else {
      assert WorkerPass(db, k, r, now) == PutOp(promoted, k, op.(status := Completed, nextRetryAt := now));
    }
  }

  /** The catch around the cancel of a promoted replacement. */
  lemma CaughtEnds(db: Db, d: Db, k: OpKey, r: Replies, threw: bool, now: int)
    requires k in db.ops && k in d.ops && NewIs(r, {Active}) && (threw <==> Unsure(true, r))
    requires db.ops[k].status != CancelRequested && !Terminal(db.ops[k].status)
    requires !threw ==>
               && (d.ops[k].status == Completed <==> IsOver(true, r))
               && (d.ops[k].status == CleanupPending <==> PutOff(true, r))
               && (d.ops[k].status == CancelRequested <==> Unconfirmed(true, r))
               && d.ops[k].status in {Completed, CleanupPending, CancelRequested}
               && d.ops[k].retryCount == (if IsOver(true, r) then db.ops[k].retryCount else db.ops[k].retryCount + 1)
               && d.ops[k].nextRetryAt == (if IsOver(true, r) then now
                                           else if PutOff(true, r) then now + CleanupDelay(db.ops[k].retryCount + 1)
                                           else now + VerifyDelay(db.ops[k].retryCount + 1))
    ensures var e := if threw then Caught(d, k, db.ops[k], now) else d;
            && k in e.ops && ReplacingEnds(db.ops[k], e.ops[k], false, r, now)
            && e.subs == d.subs && e.queue == d.queue && Cancels(e, k) == Cancels(d, k)
            && Throws(e, k) == Throws(d, k) + (if threw then 1 else 0)
  {
    assert r.cancel.Accepted? ==> (Unsure(true, r) ==> !IsOver(true, r));
  }

  /**
   * A pass over a replacement operation: how the operation ends, whether the replacement becomes the live subscription,
   * and how many cancel calls were made, from the provider's replies alone. What it pays is told by
   * `BillingRefunds.PaysAgainIff`, what it leaves alone by `BillingInvariants.ProcessReplaceWorked`.
   */
  lemma ReplacePassOutcome(db: Db, k: OpKey, r: Replies, now: int)
    requires Due(db, k, now) && k.Replace? && k.ws in db.subs
    ensures var d, op := WorkerPass(db, k, r, now), db.ops[k];
            var asks := op.status != CancelRequested;
            && k in d.ops && k.ws in d.subs
            && (if asks then ReplacingEnds(op, d.ops[k], k.from == k.to, r, now)
                else VerifyingEnds(op, d.ops[k], db.subs[k.ws], r, now))
            && (if asks && NewIs(r, {Active})
                then IsPromoted(db.subs[k.ws], d.subs[k.ws], op, k.to, r.fetchNew.value)
                else d.subs[k.ws] == db.subs[k.ws].(refundStatus := d.subs[k.ws].refundStatus))
            && Cancels(d, k) == Cancels(db, k)
                 + (if asks && NewIs(r, {Active}) && k.from != k.to && !PutOff(true, r) then 1 else 0)
            && d.queue == db.queue + (if asks && NewIs(r, {Active}) && k.from != k.to then multiset{k} else multiset{})
  {
    if db.ops[k].status == CancelRequested {
      VerifyingReplaceEnds(db, k, r, now);
    } else if NewIs(r, {Active}) {
      PromotingReplaceEnds(db, k, r, now);
    } else {
      WaitingReplaceEnds(db, k, r, now);
    }
  }

  /** Without a row the operation is abandoned; a pass that is not due changes nothing. */
  lemma OtherPassOutcome(db: Db, k: OpKey, r: Replies, now: int)
    requires !Due(db, k, now) || (k.Replace? && k.ws !in db.subs)
    ensures !Due(db, k, now) ==> WorkerPass(db, k, r, now) == db
    ensures Due(db, k, now) ==> WorkerPass(db, k, r, now) == db.(ops := db.ops[k := db.ops[k].(status := Abandoned)])
  {
  }
}
