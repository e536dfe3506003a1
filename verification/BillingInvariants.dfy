/**
 * What every run of the replacement protocol keeps: a record for every pending replacement, a bound
 * on the cancel calls of one operation, and terminal statuses that are never left.
 */
module BillingInvariants {
  import opened Common
  import opened OperationStatus
  import opened BillingModel

  /** Statuses from which the worker never issues another cancel call. */
  predicate Settled(s: OpStatus) {
    s == CancelRequested || Terminal(s)
  }

  function Cancels(db: Db, k: OpKey): nat {
    Count(db.ledger.cancels, k)
  }

  function Throws(db: Db, k: OpKey): nat {
    Count(db.ledger.throws, k)
  }

  function SettledOnce(db: Db, k: OpKey): nat {
    if k in db.ops && Settled(db.ops[k].status) then 1 else 0
  }

  /** An operation's cancel calls are paid for by its thrown passes, plus one once it is settled. */
  ghost predicate CancelsBounded(db: Db) {
    forall k | k in db.ledger.cancels :: Cancels(db, k) <= Throws(db, k) + SettledOnce(db, k)
  }

  predicate Recorded(db: Db, k: OpKey) {
    k in db.ops && Cancels(db, k) == 0
  }

  predicate RowRecorded(db: Db, ws: WorkspaceId, row: Row) {
    row.live.Some? && row.pending.Some? ==> Recorded(db, Replace(ws, row.live.value, row.pending.value))
  }

  /** A row with a live and a pending subscription has an operation for exactly that pair, not yet cancelling. */
  ghost predicate PairsRecorded(db: Db) {
    forall ws | ws in db.subs :: RowRecorded(db, ws, db.subs[ws])
  }

  /** Every queued cleanup finds the operation it is about. */
  ghost predicate QueueRecorded(db: Db) {
    forall k | k in db.queue :: k.Replace? && k in db.ops
  }

  predicate RowIdsKnown(row: Row, bound: SubId) {
    && (row.live.Some? ==> row.live.value < bound)
    && (row.pending.Some? ==> row.pending.value < bound)
    && (row.live.Some? || row.pending.Some? ==> row.customer)
  }

  predicate HasCustomer(db: Db, ws: WorkspaceId) {
    ws in db.subs && db.subs[ws].customer
  }

  /** Subscription ids come from the provider, which hands each one out once, to a known customer. */
  ghost predicate IdsKnown(db: Db) {
    && (forall ws | ws in db.subs :: RowIdsKnown(db.subs[ws], db.nextSub))
    && (forall k | k in db.ops && k.Replace? :: k.to < db.nextSub && HasCustomer(db, k.ws))
    && (forall k | k in db.ledger.cancels :: k in db.ops)
  }

  ghost predicate Core(db: Db) {
    CancelsBounded(db) && PairsRecorded(db) && QueueRecorded(db) && IdsKnown(db)
  }

  /** Operations are never deleted and never leave a terminal status. */
  ghost predicate TerminalKept(db: Db, d: Db) {
    forall k | k in db.ops :: k in d.ops && (Terminal(db.ops[k].status) ==> d.ops[k].status == db.ops[k].status)
  }

  ghost predicate Good(db: Db, d: Db) {
    Core(d) && TerminalKept(db, d)
  }

  // ---------------------------------------------------------------- the worker

  /** All that processing operation `k` may change. */
  ghost predicate Worked(db: Db, d: Db, k: OpKey, threw: bool)
    requires k in db.ops
  {
    && d.ops.Keys == db.ops.Keys && (forall j | j in db.ops && j != k :: d.ops[j] == db.ops[j])
    && d.nextSub == db.nextSub && d.ledger.throws == db.ledger.throws
    && d.subs.Keys == db.subs.Keys && (forall w | w in db.subs && w != k.ws :: d.subs[w] == db.subs[w])
    && (k.ws in db.subs ==> SameIds(db.subs[k.ws], d.subs[k.ws]) || Promoted(d, k))
    && (k.ws in db.subs ==> d.subs[k.ws].customer == db.subs[k.ws].customer)
    && (d.queue == db.queue || (k.Replace? && d.queue == db.queue + multiset{k}))
    && (|| d.ledger.cancels == db.ledger.cancels
        || CancelIssued(db, d, k, threw))
    && (!threw && Settled(db.ops[k].status) ==> Settled(d.ops[k].status))
  }

  predicate SameIds(a: Row, b: Row) {
    a.live == b.live && a.pending == b.pending && a.customer == b.customer
  }

  /** The replacement of `k` is the workspace's live subscription and nothing is pending. */
  predicate Promoted(d: Db, k: OpKey) {
    k.Replace? && k.ws in d.subs && d.subs[k.ws].pending.None? && d.subs[k.ws].live == Some(k.to)
  }

  predicate CancelIssued(db: Db, d: Db, k: OpKey, threw: bool)
    requires k in db.ops && k in d.ops
  {
    && d.ledger.cancels == Bump(db.ledger.cancels, k)
    && !Settled(db.ops[k].status) && (threw || Settled(d.ops[k].status))
    && (k.Replace? ==> Promoted(d, k))
  }

  lemma VerifyWorked(db: Db, k: OpKey, r: Replies, now: int)
    requires k in db.ops && k.Replace? && k.ws in db.subs
    ensures var (d, threw) := Verify(db, k, r, now); Worked(db, d, k, threw)
    ensures Verify(db, k, r, now).0.queue == db.queue
  {
    if r.fetchOld.Some? && Over(r.fetchOld.value.status) {
      RefundIsRefundOnly(MarkCompleted(db, k, now), k.ws, r.refund);
    }
  }

  /** A refund touches nothing but the refund status of one row and the ledger's credits. */
  ghost predicate RefundOnly(db: Db, d: Db, ws: WorkspaceId)
    requires ws in db.subs
  {
    && d.ops == db.ops && d.queue == db.queue && d.nextSub == db.nextSub
    && d.ledger.cancels == db.ledger.cancels && d.ledger.throws == db.ledger.throws
    && d.subs.Keys == db.subs.Keys
    && d.subs == db.subs[ws := db.subs[ws].(refundStatus := d.subs[ws].refundStatus)]
  }

  lemma RefundIsRefundOnly(db: Db, ws: WorkspaceId, reply: RefundReply)
    requires ws in db.subs
    ensures RefundOnly(db, Refund(db, ws, reply).0, ws)
  {
    var d := Refund(db, ws, reply).0;
    if d != db {
      assert d.subs == db.subs[ws := db.subs[ws].(refundStatus := d.subs[ws].refundStatus)];
    } else {
      assert db.subs[ws].(refundStatus := db.subs[ws].refundStatus) == db.subs[ws];
      assert db.subs == db.subs[ws := db.subs[ws]];
    }
  }

  lemma FinalizeWorked(db: Db, k: OpKey, attempt: nat, r: Replies, now: int)
    requires k in db.ops && Promoted(db, k) && !Settled(db.ops[k].status)
    ensures var (d, threw) := Finalize(db, k, attempt, r, now);
            Worked(db, d, k, threw) && Promoted(d, k) && d.queue == db.queue
  {
    match r.cancel
    case CancelThrew =>
    case Deferred | NotStarted =>
    case Accepted(_) => FinalizeAcceptedWorked(db, k, attempt, r, now);
  }

  lemma FinalizeAcceptedWorked(db: Db, k: OpKey, attempt: nat, r: Replies, now: int)
    requires k in db.ops && Promoted(db, k) && !Settled(db.ops[k].status) && r.cancel.Accepted?
    ensures var (d, threw) := Finalize(db, k, attempt, r, now);
            Worked(db, d, k, threw) && Promoted(d, k) && d.queue == db.queue
  {
    var verified := VerifiedStatus(r.cancel.returned, r.fetchOld);
    if verified.Some? && Over(verified.value) {
      CompletedWorked(db, k, r.refund, now);
    } else if verified.Some? && k.from != k.to {
      RequestedWorked(db, k, attempt, now);
    }
  }

  /** A cancel still to be confirmed: the operation is marked as requested. */
  lemma RequestedWorked(db: Db, k: OpKey, attempt: nat, now: int)
    requires k in db.ops && Promoted(db, k) && k.from != k.to && !Settled(db.ops[k].status)
    ensures var d := UpsertReplacement(CountCancel(db, k), k.ws, Some(k.from), Some(k.to), None, CancelRequested,
                                       Some(attempt + 1), Some(now + VerifyDelay(attempt + 1)), now);
            Worked(db, d, k, false) && Promoted(d, k) && d.queue == db.queue
  {
  }

  /** A cancel confirmed at once: the operation is completed, then the credit is refunded. */
  lemma CompletedWorked(db: Db, k: OpKey, reply: RefundReply, now: int)
    requires k in db.ops && Promoted(db, k) && !Settled(db.ops[k].status)
    ensures var d := Refund(MarkCompleted(CountCancel(db, k), k, now), k.ws, reply).0;
            Worked(db, d, k, false) && Promoted(d, k) && d.queue == db.queue
  {
    RefundIsRefundOnly(MarkCompleted(CountCancel(db, k), k, now), k.ws, reply);
  }

  lemma ProcessReplaceWorked(db: Db, k: OpKey, r: Replies, now: int)
    requires k in db.ops && k.Replace? && !Terminal(db.ops[k].status)
    ensures var (d, threw) := ProcessReplace(db, k, r, now); Worked(db, d, k, threw)
  {
    if k.ws in db.subs {
      if db.ops[k].status == CancelRequested {
        VerifyWorked(db, k, r, now);
      } else if r.fetchNew.Some? && r.fetchNew.value.status.Active? {
        var promoted := Activate(db, k.ws, r.fetchNew.value, k.to, Some(k.from), db.ops[k].plan);
        if k.from != k.to {
          FinalizeWorked(promoted, k, db.ops[k].retryCount, r, now);
          ThenWorked(db, promoted, Finalize(promoted, k, db.ops[k].retryCount, r, now), k);
        }
      }
    }
  }

  /** Finalizing after the promotion, as one change. */
  lemma ThenWorked(db: Db, promoted: Db, result: (Db, bool), k: OpKey)
    requires k in db.ops && k.Replace? && k.ws in db.subs && !Settled(db.ops[k].status)
    requires promoted.ops == db.ops && promoted.ledger == db.ledger && promoted.nextSub == db.nextSub
    requires promoted.subs.Keys == db.subs.Keys && promoted.subs[k.ws].customer == db.subs[k.ws].customer
    requires forall w | w in db.subs && w != k.ws :: promoted.subs[w] == db.subs[w]
    requires promoted.queue == db.queue + multiset{k}
    requires Promoted(promoted, k) && Promoted(result.0, k)
    requires Worked(promoted, result.0, k, result.1) && result.0.queue == promoted.queue
    ensures Worked(db, result.0, k, result.1)
  {
  }

  lemma CancelDoneWorked(db: Db, called: Db, k: OpKey, status: ProviderStatus, now: int)
    requires k in db.ops && k.Cancel?
    requires called == db || (called == CountCancel(db, k) && !Settled(db.ops[k].status))
    ensures Worked(db, CancelDone(called, k, status, now), k, false)
  {
  }

  lemma ProcessCancelWorked(db: Db, k: OpKey, r: Replies, now: int)
    requires k in db.ops && k.Cancel? && !Terminal(db.ops[k].status)
    ensures var (d, threw) := ProcessCancel(db, k, r, now); Worked(db, d, k, threw)
  {
    if db.ops[k].status == CancelRequested {
      if r.fetchOld.Some? && Over(r.fetchOld.value.status) {
        CancelDoneWorked(db, db, k, r.fetchOld.value.status, now);
      }
    } else if r.cancel.Accepted? {
      var verified := VerifiedStatus(r.cancel.returned, r.fetchOld);
      if verified.Some? && Over(verified.value) {
        CancelDoneWorked(db, CountCancel(db, k), k, verified.value, now);
      }
    }
  }

  function AfterCatch(db: Db, d: Db, k: OpKey, threw: bool, now: int): Db
    requires k in db.ops && k in d.ops
  {
    if threw then Caught(d, k, db.ops[k], now) else d
  }

  lemma WorkedBudget(db: Db, d: Db, k: OpKey, threw: bool, now: int)
    requires Core(db) && k in db.ops && !Terminal(db.ops[k].status) && Worked(db, d, k, threw)
    ensures CancelsBounded(AfterCatch(db, d, k, threw, now))
  {
  }

  lemma WorkedPairs(db: Db, d: Db, k: OpKey, threw: bool, now: int)
    requires Core(db) && k in db.ops && !Terminal(db.ops[k].status) && Worked(db, d, k, threw)
    ensures PairsRecorded(AfterCatch(db, d, k, threw, now))
  {
  }

  lemma WorkedGood(db: Db, d: Db, k: OpKey, threw: bool, now: int)
    requires Core(db) && k in db.ops && !Terminal(db.ops[k].status) && Worked(db, d, k, threw)
    ensures Good(db, AfterCatch(db, d, k, threw, now))
  {
    WorkedBudget(db, d, k, threw, now);
    WorkedPairs(db, d, k, threw, now);
    WorkedIds(db, d, k, threw, now);
  }

  lemma WorkedIds(db: Db, d: Db, k: OpKey, threw: bool, now: int)
    requires Core(db) && k in db.ops && !Terminal(db.ops[k].status) && Worked(db, d, k, threw)
    ensures IdsKnown(AfterCatch(db, d, k, threw, now)) && QueueRecorded(AfterCatch(db, d, k, threw, now))
  {
    var e := AfterCatch(db, d, k, threw, now);
    assert e.subs == d.subs && e.ops.Keys == db.ops.Keys && e.nextSub == db.nextSub && e.queue == d.queue;
    assert forall j | j in e.ledger.cancels :: j in db.ops;
    WorkedRows(db, d, k, threw);
    forall j | j in e.ops && j.Replace? ensures j.to < e.nextSub && HasCustomer(e, j.ws) {
      assert HasCustomer(db, j.ws);
    }
  }

  lemma WorkedRows(db: Db, d: Db, k: OpKey, threw: bool)
    requires IdsKnown(db) && k in db.ops && Worked(db, d, k, threw)
    ensures forall w | w in d.subs :: RowIdsKnown(d.subs[w], db.nextSub)
    ensures forall w | w in db.subs :: w in d.subs && d.subs[w].customer == db.subs[w].customer
  {
    forall w | w in d.subs ensures RowIdsKnown(d.subs[w], db.nextSub) {
      assert RowIdsKnown(db.subs[w], db.nextSub);
      assert w == k.ws && k.Replace? ==> HasCustomer(db, w) && k.to < db.nextSub;
    }
  }

  lemma WorkerPassGood(db: Db, k: OpKey, r: Replies, now: int)
    requires Core(db)
    ensures Good(db, WorkerPass(db, k, r, now))
  {
    if Due(db, k, now) {
      var (d, threw) := Process(db, k, r, now);
      if k.Cancel? {
        ProcessCancelWorked(db, k, r, now);
      } else {
        ProcessReplaceWorked(db, k, r, now);
      }
      WorkedGood(db, d, k, threw, now);
    }
  }

  // ---------------------------------------------------------------- the other handlers

  lemma UpsertGood(db: Db, ws: WorkspaceId, from: Option<SubId>, to: Option<SubId>, plan: Option<string>,
                   status: OpStatus, retry: Option<nat>, at: Option<int>, now: int)
    requires Core(db) && Requestable(status)
    requires to.Some? ==> to.value < db.nextSub
    requires from.Some? && to.Some? ==> HasCustomer(db, ws)
    ensures Good(db, UpsertReplacement(db, ws, from, to, plan, status, retry, at, now))
  {
  }

  lemma UpsertCancelGood(db: Db, ws: WorkspaceId, sub: SubId, atCycleEnd: bool, now: int)
    requires Core(db)
    ensures Good(db, UpsertCancel(db, ws, sub, atCycleEnd, now))
  {
  }

  lemma PutRowGood(db: Db, ws: WorkspaceId, row: Row)
    requires Core(db) && RowRecorded(db, ws, row) && RowIdsKnown(row, db.nextSub)
    requires HasCustomer(db, ws) ==> row.customer
    ensures Good(db, PutRow(db, ws, row))
  {
  }

  lemma AbandonGood(db: Db, ws: WorkspaceId, to: SubId)
    requires Core(db)
    ensures Good(db, AbandonFor(db, ws, to))
  {
  }

  lemma QueueGood(db: Db, ws: WorkspaceId, from: Option<SubId>, to: SubId)
    requires Core(db)
    requires from.Some? ==> Replace(ws, from.value, to) in db.ops
    ensures Good(db, QueueCleanup(db, ws, from, to))
  {
  }

  lemma GoodTransitive(a: Db, b: Db, c: Db)
    requires Good(a, b) && Good(b, c)
    ensures Good(a, c)
  {
  }

  lemma RefundGood(db: Db, ws: WorkspaceId, reply: RefundReply)
    requires Core(db) && ws in db.subs
    ensures Good(db, Refund(db, ws, reply).0)
  {
    RefundIsRefundOnly(db, ws, reply);
  }

  /** A promotion of `to`: the row forgets its pending subscription and the cleanup is queued. */
  lemma PromoteGood(db: Db, ws: WorkspaceId, row: Row, from: Option<SubId>, to: SubId)
    requires Core(db) && row.pending.None? && row.live == Some(to) && to < db.nextSub && row.customer
    requires from.Some? ==> Replace(ws, from.value, to) in db.ops
    ensures Good(db, QueueCleanup(PutRow(db, ws, row), ws, from, to))
  {
    PutRowGood(db, ws, row);
    QueueGood(PutRow(db, ws, row), ws, from, to);
  }

  lemma ActivateGood(db: Db, ws: WorkspaceId, sub: ProviderSub, plan: Option<string>)
    requires Core(db) && ws in db.subs && db.subs[ws].pending.Some?
    ensures Good(db, Activate(db, ws, sub, db.subs[ws].pending.value, db.subs[ws].live, plan))
  {
    var row, to := db.subs[ws], db.subs[ws].pending.value;
    assert RowRecorded(db, ws, row);
    var next := WithoutPending(row).(
      live := Some(to), status := "active",
      plan := GetOr(OrElse(OrElse(plan, sub.plan), row.pendingPlan), row.plan),
      periodStart := OrElse(sub.start, row.periodStart),
      periodEnd := OrElse(sub.end, row.periodEnd));
    PromoteGood(db, ws, next, row.live, to);
  }

  lemma DropPendingGood(db: Db, ws: WorkspaceId, sub: SubId)
    requires Core(db) && ws in db.subs
    ensures Good(db, PutRow(db, ws, WithoutPending(db.subs[ws])))
    ensures Good(db, AbandonFor(PutRow(db, ws, WithoutPending(db.subs[ws])), ws, sub))
  {
    var dropped := PutRow(db, ws, WithoutPending(db.subs[ws]));
    PutRowGood(db, ws, WithoutPending(db.subs[ws]));
    AbandonGood(dropped, ws, sub);
    GoodTransitive(db, dropped, AbandonFor(dropped, ws, sub));
  }

  lemma RunCleanupGood(db: Db, k: OpKey, now: int)
    requires Core(db)
    ensures Good(db, RunCleanup(db, k, now))
  {
    if k in db.queue {
      var taken := db.(queue := db.queue - multiset{k});
      assert Good(db, taken);
      UpsertGood(taken, k.ws, Some(k.from), Some(k.to), None, CleanupPending, Some(0), Some(now + CleanupDelay(0)),
                 now);
    }
  }

  lemma {:induction false} CancelDuplicatesGood(db: Db, ws: WorkspaceId, keep: SubId, dups: seq<SubId>, now: int)
    requires Core(db)
    ensures Good(db, CancelDuplicates(db, ws, keep, dups, now))
    decreases |dups|
  {
    if dups != [] {
      var before := CancelDuplicates(db, ws, keep, dups[..|dups| - 1], now);
      CancelDuplicatesGood(db, ws, keep, dups[..|dups| - 1], now);
      UpsertCancelGood(before, ws, dups[|dups| - 1], false, now);
    }
  }

  lemma ReconcilePendingGood(db: Db, ws: WorkspaceId, sub: ProviderSub, now: int)
    requires Core(db) && ws in db.subs && db.subs[ws].pending.Some?
    ensures Good(db, ReconcilePending(db, ws, db.subs[ws].pending.value, sub, now))
  {
    var row := db.subs[ws];
    if sub.status.Active? {
      ActivateGood(db, ws, sub, row.pendingPlan);
    } else if PendingLike(sub.status) {
      UpsertGood(db, ws, row.live, row.pending, row.pendingPlan, Pending, None, None, now);
    } else if Over(sub.status) {
      DropPendingGood(db, ws, row.pending.value);
    }
  }

  lemma ReconcileRestGood(db: Db, ws: WorkspaceId, row: Row, r: ReconcileReplies, now: int)
    requires Core(db) && ws in db.subs
    ensures Good(db, ReconcileRest(db, ws, row, r, now))
  {
    var cleaned := CleanUp(db, ws, row, r.listing, now);
    CleanUpGood(db, ws, row, r.listing, now);
    RefundGood(cleaned, ws, r.refund);
    GoodTransitive(db, cleaned, Refund(cleaned, ws, r.refund).0);
  }

  lemma CleanUpGood(db: Db, ws: WorkspaceId, row: Row, listing: seq<Listed>, now: int)
    requires Core(db)
    ensures Good(db, CleanUp(db, ws, row, listing, now))
  {
    if row.live.Some? {
      CancelDuplicatesGood(db, ws, row.live.value, FirstTen(Duplicates(listing, row.live.value, row.pending)), now);
    }
  }

  lemma ReconcileGood(db: Db, ws: WorkspaceId, r: ReconcileReplies, now: int)
    requires Core(db)
    ensures Good(db, Reconcile(db, ws, r, now))
  {
    if ws in db.subs && (db.subs[ws].live.Some? ==> r.sync.Some?) {
      var row := SyncedRow(db.subs[ws], r.sync);
      var synced := PutRow(db, ws, row);
      RelabelGood(db, ws, row);
      if row.pending.None? {
        ReconcileRestGood(synced, ws, row, r, now);
        GoodTransitive(db, synced, ReconcileRest(synced, ws, row, r, now));
      } else if r.pending.Some? {
        ReconcileOpenGood(synced, ws, row, r, now);
        GoodTransitive(db, synced, Reconcile(db, ws, r, now));
      }
    }
  }

  /** Steps 2 to 4 of a reconcile. */
  lemma ReconcileOpenGood(db: Db, ws: WorkspaceId, row: Row, r: ReconcileReplies, now: int)
    requires Core(db) && ws in db.subs && db.subs[ws] == row && row.pending.Some? && r.pending.Some?
    ensures Good(db, ReconcileRest(ReconcilePending(db, ws, row.pending.value, r.pending.value, now), ws, row, r, now))
  {
    var settled := ReconcilePending(db, ws, row.pending.value, r.pending.value, now);
    ReconcilePendingGood(db, ws, r.pending.value, now);
    ReconcileRestGood(settled, ws, row, r, now);
    GoodTransitive(db, settled, ReconcileRest(settled, ws, row, r, now));
  }

  lemma StartReplacementGood(db: Db, ws: WorkspaceId, plan: string, now: int)
    requires Core(db) && ws in db.subs && db.subs[ws].live.Some?
    ensures Good(db, StartReplacement(db, ws, plan, now))
  {
    var live, d := db.subs[ws].live.value, StartReplacement(db, ws, plan, now);
    var k := Replace(ws, live, db.nextSub);
    assert RowIdsKnown(db.subs[ws], db.nextSub);
    assert k !in db.ops;
    NewReplacementGood(db, d, ws, k);
  }

  /** A new operation for a new pair, with nothing else changed but money. */
  lemma NewReplacementGood(db: Db, d: Db, ws: WorkspaceId, k: OpKey)
    requires Core(db) && ws in db.subs && ws in d.subs && d.subs == db.subs[ws := d.subs[ws]]
    requires d.queue == db.queue && d.nextSub == db.nextSub + 1
    requires d.ledger.cancels == db.ledger.cancels && d.ledger.throws == db.ledger.throws
    requires k.Replace? && k.ws == ws && k.to == db.nextSub && k !in db.ops && k in d.ops
             && d.ops == db.ops[k := d.ops[k]]
    requires d.subs[ws].live == db.subs[ws].live == Some(k.from) && d.subs[ws].pending == Some(k.to)
    requires d.subs[ws].customer && RowIdsKnown(db.subs[ws], db.nextSub)
    ensures Good(db, d)
  {
    assert k !in db.ledger.cancels;
    assert PairsRecorded(d) by {
      forall w | w in d.subs ensures RowRecorded(d, w, d.subs[w]) {
        assert w != ws ==> RowRecorded(db, w, db.subs[w]);
      }
    }
    assert IdsKnown(d) by {
      assert forall w | w in db.subs :: RowIdsKnown(db.subs[w], db.nextSub);
    }
  }

  lemma FreshCheckoutGood(db: Db, ws: WorkspaceId, plan: string)
    requires Core(db)
    ensures Good(db, FreshCheckout(db, ws, plan))
  {
  }

  /** The branches of a checkout once the pending subscription does not stand in the way. */
  lemma ContinueCheckoutGood(db: Db, ws: WorkspaceId, plan: string, reuse: Option<SubId>, fetchReuse: Fetched)
    requires Core(db) && (reuse.Some? ==> Holds(db, ws, reuse.value))
    ensures Good(db, ContinueCheckout(db, ws, plan, reuse, fetchReuse))
  {
    if reuse.Some? && fetchReuse.Some? && Reusable(fetchReuse.value, plan) {
      ReuseGood(db, ws, plan, reuse.value, fetchReuse.value);
    } else {
      FreshCheckoutGood(db, ws, plan);
    }
  }

  lemma CheckoutGood(db: Db, ws: WorkspaceId, plan: string, fetchPending: Fetched, fetchReuse: Fetched)
    requires Core(db)
    ensures Good(db, Checkout(db, ws, plan, fetchPending, fetchReuse))
  {
    if ws !in db.subs {
      FreshCheckoutGood(db, ws, plan);
    } else {
      var existing := db.subs[ws];
      if existing.pending.None? || existing.pendingPlan == Some(plan) {
        ContinueCheckoutGood(db, ws, plan, OrElse(existing.pending, existing.live), fetchReuse);
      } else if fetchPending.Some? {
        if fetchPending.value.status.Active? {
          ActivateGood(db, ws, fetchPending.value, existing.pendingPlan);
        } else if Over(fetchPending.value.status) {
          var dropped := PutRow(db, ws, WithoutPending(existing));
          DropPendingGood(db, ws, 0);
          ContinueCheckoutGood(dropped, ws, plan, existing.live, fetchReuse);
          GoodTransitive(db, dropped, ContinueCheckout(dropped, ws, plan, existing.live, fetchReuse));
        } else if !PendingLike(fetchPending.value.status) {
          ContinueCheckoutGood(db, ws, plan, existing.live, fetchReuse);
        }
      }
    }
  }

  lemma ReuseGood(db: Db, ws: WorkspaceId, plan: string, reuse: SubId, sub: ProviderSub)
    requires Core(db) && Holds(db, ws, reuse)
    ensures Good(db, ReuseCheckout(db, ws, plan, reuse, sub))
  {
    var row := db.subs[ws];
    assert RowRecorded(db, ws, row) && RowIdsKnown(row, db.nextSub);
  }

  lemma ChangePlanGood(db: Db, ws: WorkspaceId, plan: string, fetchPending: Fetched, now: int)
    requires Core(db)
    ensures Good(db, ChangePlan(db, ws, plan, fetchPending, now))
  {
    if PaidPlan(plan) && ws in db.subs && db.subs[ws].live.Some? {
      var row := db.subs[ws];
      assert RowRecorded(db, ws, row) && RowIdsKnown(row, db.nextSub);
      if row.pending.None? {
        StartReplacementGood(db, ws, plan, now);
      } else if fetchPending.Some? {
        if fetchPending.value.status.Active? {
          ActivateGood(db, ws, fetchPending.value, row.pendingPlan);
          PromoteGood(db, ws, WithoutPending(row).(live := row.pending, plan := plan, status := "active"),
                      row.live, row.pending.value);
        } else if PendingLike(fetchPending.value.status) {
          UpsertGood(db, ws, row.live, row.pending, Some(plan), Pending, None, None, now);
        } else {
          var dropped := PutRow(db, ws, WithoutPending(row));
          DropPendingGood(db, ws, 0);
          StartReplacementGood(dropped, ws, plan, now);
          GoodTransitive(db, dropped, StartReplacement(dropped, ws, plan, now));
        }
      }
    }
  }

  /** A webhook that leaves the ids of a row alone. */
  lemma RelabelGood(db: Db, ws: WorkspaceId, row: Row)
    requires Core(db) && ws in db.subs && SameIds(db.subs[ws], row)
    ensures Good(db, PutRow(db, ws, row))
  {
    assert RowRecorded(db, ws, db.subs[ws]) && RowIdsKnown(db.subs[ws], db.nextSub);
    PutRowGood(db, ws, row);
  }

  /** A webhook that promotes the pending subscription of a row. */
  lemma PromotePendingGood(db: Db, ws: WorkspaceId, row: Row)
    requires Core(db) && ws in db.subs && db.subs[ws].pending.Some?
    requires row.pending.None? && row.live == db.subs[ws].pending && row.customer == db.subs[ws].customer
    ensures Good(db, QueueCleanup(PutRow(db, ws, row), ws, db.subs[ws].live, db.subs[ws].pending.value))
  {
    assert RowRecorded(db, ws, db.subs[ws]) && RowIdsKnown(db.subs[ws], db.nextSub);
    PromoteGood(db, ws, row, db.subs[ws].live, db.subs[ws].pending.value);
  }

  lemma OnActivatedGood(db: Db, ws: WorkspaceId, sub: SubId, note: Option<string>)
    requires Core(db)
    ensures Good(db, OnActivated(db, ws, sub, note))
  {
    if Holds(db, ws, sub) {
      var row, d := db.subs[ws], OnActivated(db, ws, sub, note);
      if row.pending == Some(sub) {
        PromotePendingGood(db, ws, d.subs[ws]);
      } else {
        RelabelGood(db, ws, d.subs[ws]);
      }
    }
  }

  lemma OnStatusGood(db: Db, ws: WorkspaceId, sub: SubId, status: ProviderStatus, note: Option<string>, now: int)
    requires Core(db)
    ensures Good(db, OnStatus(db, ws, sub, status, note, now))
  {
    if Holds(db, ws, sub) {
      var row, d := db.subs[ws], OnStatus(db, ws, sub, status, note, now);
      assert RowIdsKnown(row, db.nextSub);
      if row.pending != Some(sub) {
        RelabelGood(db, ws, d.subs[ws]);
      } else if Over(status) {
        DropPendingGood(db, ws, sub);
      } else if ActiveLike(status) {
        PromotePendingGood(db, ws, d.subs[ws]);
      } else {
        UpsertGood(db, ws, row.live, row.pending, row.pendingPlan, Pending, None, None, now);
      }
    }
  }

  lemma OnCapturedGood(db: Db, ws: WorkspaceId, sub: SubId, note: Option<string>)
    requires Core(db)
    ensures Good(db, OnCaptured(db, ws, sub, note))
  {
    if Holds(db, ws, sub) {
      var row, d := db.subs[ws], OnCaptured(db, ws, sub, note);
      if row.pending == Some(sub) {
        PromotePendingGood(db, ws, d.subs[ws]);
      } else {
        RelabelGood(db, ws, d.subs[ws]);
      }
    }
  }

  lemma OnPaymentFailedGood(db: Db, ws: WorkspaceId, sub: SubId)
    requires Core(db)
    ensures Good(db, OnPaymentFailed(db, ws, sub))
  {
    if Holds(db, ws, sub) {
      if db.subs[ws].pending == Some(sub) {
        DropPendingGood(db, ws, sub);
      } else {
        RelabelGood(db, ws, db.subs[ws].(status := "past_due"));
      }
    }
  }

  lemma StepGood(db: Db, s: Step)
    requires Core(db)
    ensures Good(db, Apply(db, s))
  {
    match s
    case DoTrial(ws, start, end) =>
      if ws !in db.subs { PutRowGood(db, ws, TrialRow().(periodStart := Some(start), periodEnd := Some(end))); }
    case DoCheckout(ws, plan, p, r, now) => CheckoutGood(db, ws, plan, p, r); ChangePlanGood(db, ws, plan, p, now);
    case DoChangePlan(ws, plan, p, now) => ChangePlanGood(db, ws, plan, p, now);
    case DoCancelPlan(ws, now) =>
      if ws in db.subs && db.subs[ws].live.Some? { UpsertCancelGood(db, ws, db.subs[ws].live.value, true, now); }
    case DoWorkerPass(k, r, now) => WorkerPassGood(db, k, r, now);
    case DoRunCleanup(k, now) => RunCleanupGood(db, k, now);
    case DoReconcile(ws, r, now) => ReconcileGood(db, ws, r, now);
    case Activated(ws, sub, note) => OnActivatedGood(db, ws, sub, note);
    case StatusChanged(ws, sub, status, note, now) => OnStatusGood(db, ws, sub, status, note, now);
    case Captured(ws, sub, note) => OnCapturedGood(db, ws, sub, note);
    case PaymentFailed(ws, sub) => OnPaymentFailedGood(db, ws, sub);
    case RefundProcessed(ws) =>
      if ws in db.subs { RelabelGood(db, ws, db.subs[ws].(refundStatus := Some("processed"))); }
  }

  // ---------------------------------------------------------------- every run

  lemma {:induction false} RunCore(steps: seq<Step>)
    ensures Core(Run(EMPTY, steps))
    decreases |steps|
  {
    if steps != [] {
      RunCore(steps[..|steps| - 1]);
      StepGood(Run(EMPTY, steps[..|steps| - 1]), steps[|steps| - 1]);
    }
  }

  /** An operation's cancel calls that the provider did not refuse: at most one, plus its passes that threw. */
  lemma CancelCallsBounded(steps: seq<Step>, k: OpKey)
    ensures var db := Run(EMPTY, steps);
            && Cancels(db, k) <= 1 + Throws(db, k)
            && (k in db.ops && !Settled(db.ops[k].status) ==> Cancels(db, k) <= Throws(db, k))
  {
    RunCore(steps);
  }

  /**
   * A row that holds a live and a pending subscription has an operation keyed by that pair, which has
   * not cancelled the live one; so the cleanup queued by any promotion finds its operation.
   */
  lemma PendingReplacementIsRecorded(steps: seq<Step>, ws: WorkspaceId)
    requires ws in Run(EMPTY, steps).subs
    ensures var db := Run(EMPTY, steps);
            var row := db.subs[ws];
            row.live.Some? && row.pending.Some? ==>
              var k := Replace(ws, row.live.value, row.pending.value);
              k in db.ops && Cancels(db, k) == 0
    ensures forall k | k in Run(EMPTY, steps).queue :: k in Run(EMPTY, steps).ops
  {
    RunCore(steps);
    assert RowRecorded(Run(EMPTY, steps), ws, Run(EMPTY, steps).subs[ws]);
  }

  /** A subscription always belongs to a known customer, so the reconciler's customer check never fails. */
  lemma CustomerIsKnown(steps: seq<Step>, ws: WorkspaceId)
    requires ws in Run(EMPTY, steps).subs
    ensures var row := Run(EMPTY, steps).subs[ws];
            row.live.Some? || row.pending.Some? ==> row.customer
  {
    RunCore(steps);
    assert RowIdsKnown(Run(EMPTY, steps).subs[ws], Run(EMPTY, steps).nextSub);
  }

  lemma {:induction false} RunAppend(db: Db, a: seq<Step>, b: seq<Step>)
    ensures Run(db, a + b) == Run(Run(db, a), b)
    decreases |b|
  {
    if b == [] {
      assert a + b == a;
    } else {
      RunAppend(db, a, b[..|b| - 1]);
      assert (a + b)[..|a + b| - 1] == a + b[..|b| - 1];
    }
  }

  ghost predicate EndedAs(db: Db, k: OpKey, status: OpStatus) {
    k in db.ops && db.ops[k].status == status && Terminal(status)
  }

  lemma {:induction false} EndedStays(db: Db, more: seq<Step>, k: OpKey, status: OpStatus)
    requires Core(db) && EndedAs(db, k, status)
    ensures Core(Run(db, more)) && EndedAs(Run(db, more), k, status)
    decreases |more|
  {
    if more != [] {
      var mid := Run(db, more[..|more| - 1]);
      EndedStays(db, more[..|more| - 1], k, status);
      StepGood(mid, more[|more| - 1]);
      assert TerminalKept(mid, Run(db, more));
    }
  }

  /** Once completed or abandoned, an operation stays so whatever happens next. */
  lemma TerminalIsForever(steps: seq<Step>, more: seq<Step>, k: OpKey)
    requires k in Run(EMPTY, steps).ops && Terminal(Run(EMPTY, steps).ops[k].status)
    ensures k in Run(EMPTY, steps + more).ops
    ensures Run(EMPTY, steps + more).ops[k].status == Run(EMPTY, steps).ops[k].status
  {
    RunCore(steps);
    EndedStays(Run(EMPTY, steps), more, k, Run(EMPTY, steps).ops[k].status);
    RunAppend(EMPTY, steps, more);
  }

  /** A replacement operation cancels the old subscription only after the new one became the live one. */
  lemma CancelOnlyAfterPromotion(db: Db, k: OpKey, r: Replies, now: int)
    requires k.Replace? && Cancels(WorkerPass(db, k, r, now), k) > Cancels(db, k)
    ensures Promoted(WorkerPass(db, k, r, now), k)
  {
    ProcessReplaceWorked(db, k, r, now);
  }
}
