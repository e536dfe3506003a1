/**
 * Rows, provider replies and handlers of the Razorpay replacement protocol.
 *
 * A handler is a function from the database (and the replies of the provider, as arbitrary inputs)
 * to the next database. `BillingService` holds the same handlers as methods that update the tables.
 */
module BillingModel {
  import opened Common
  import opened OperationStatus
  import Proration

  type WorkspaceId = nat
  type SubId = nat

  /** `subscription.status` at the provider; `Unpaid` is the word "pending", `Ended` is "completed". */
  datatype ProviderStatus =
    | Created | Authenticated | Active | Unpaid | Halted | Paused | Resumed
    | Cancelled | Ended | Expired | Unknown

  predicate PendingLike(s: ProviderStatus) {
    s.Created? || s.Authenticated? || s.Unpaid? || s.Halted?
  }

  predicate ActiveLike(s: ProviderStatus) {
    s.Active? || s.Authenticated? || s.Resumed?
  }

  predicate Over(s: ProviderStatus) {
    s.Cancelled? || s.Ended? || s.Expired?
  }

  function RowStatus(s: ProviderStatus): string {
    match s
    case Active | Authenticated | Resumed => "active"
    case Paused => "paused"
    case Cancelled | Ended => "cancelled"
    case Expired => "expired"
    case _ => "past_due"
  }

  /** A subscription entity; `end` is `current_end || charge_at`, `planIdMatches` compares `plan_id`. */
  datatype ProviderSub = ProviderSub(
    status: ProviderStatus, plan: Option<string>, planIdMatches: bool,
    start: Option<int>, end: Option<int>)

  /** `None` is a call that threw. */
  type Fetched = Option<ProviderSub>

  datatype CancelReply =
    | CancelThrew | Deferred | NotStarted
    | Accepted(returned: Option<ProviderStatus>)  // "cancelled" or "already_cancelled"

  datatype RefundReply = NoPayment | RefundThrew | Refunded(status: Option<string>)

  /** A row of `subscription`; `customer` says that `providerCustomerId` is set. */
  datatype Row = Row(
    plan: string, status: string,
    live: Option<SubId>, pending: Option<SubId>, pendingPlan: Option<string>,
    periodStart: Option<int>, periodEnd: Option<int>,
    refundAmount: nat, refundStatus: Option<string>, customer: bool)

  /** The unique `operationKey` of a row of `subscription_operations`. */
  datatype OpKey =
    | Replace(ws: WorkspaceId, from: SubId, to: SubId)
    | Cancel(ws: WorkspaceId, sub: SubId)

  datatype Op = Op(status: OpStatus, plan: Option<string>, retryCount: nat, nextRetryAt: int, atCycleEnd: bool)

  /** One prorated credit recorded by a plan change, and what was refunded against it. */
  datatype Credit = Credit(amount: nat, paid: nat, refunds: nat)

  /** What the provider saw: cancel calls it did not refuse, passes that threw, credits and refunds. */
  datatype Ledger = Ledger(
    cancels: map<OpKey, nat>, throws: map<OpKey, nat>,
    credits: seq<Credit>, latest: map<WorkspaceId, nat>, refunded: nat)

  /** `queue` holds the fire-and-forget cleanups that were started and have not run yet. */
  datatype Db = Db(
    subs: map<WorkspaceId, Row>, ops: map<OpKey, Op>, queue: multiset<OpKey>,
    nextSub: SubId, ledger: Ledger)

  const EMPTY := Db(map[], map[], multiset{}, 0, Ledger(map[], map[], [], map[], 0))

  function CleanupDelay(attempt: nat): int {
    [60_000, 300_000, 900_000, 1_800_000][Min(attempt, 3)]
  }

  function VerifyDelay(attempt: nat): int {
    [300_000, 900_000, 1_800_000, 3_600_000][Min(attempt, 3)]
  }

  predicate PaidPlan(plan: string) {
    plan in {"starter", "growth", "pro"}
  }

  function Count(m: map<OpKey, nat>, k: OpKey): nat {
    if k in m then m[k] else 0
  }

  function Bump(m: map<OpKey, nat>, k: OpKey): map<OpKey, nat> {
    m[k := Count(m, k) + 1]
  }

  // ---------------------------------------------------------------- table updates

  function PutOp(db: Db, k: OpKey, op: Op): Db {
    db.(ops := db.ops[k := op])
  }

  function PutRow(db: Db, ws: WorkspaceId, row: Row): Db {
    db.(subs := db.subs[ws := row])
  }

  function CountCancel(db: Db, k: OpKey): Db {
    db.(ledger := db.ledger.(cancels := Bump(db.ledger.cancels, k)))
  }

  function Upserted(existing: Option<Op>, plan: Option<string>, status: OpStatus, retry: Option<nat>,
                    at: Option<int>, now: int, delay: bool, atCycleEnd: bool): Op {
    var retryCount := GetOr(retry, if existing.Some? then existing.value.retryCount else 0);
    Op(NextStatus(if existing.Some? then Some(existing.value.status) else None, status),
       OrElse(plan, if existing.Some? then existing.value.plan else None),
       retryCount,
       GetOr(at, if delay then now + CleanupDelay(retryCount) else now),
       atCycleEnd)
  }

  function UpsertReplacement(db: Db, ws: WorkspaceId, from: Option<SubId>, to: Option<SubId>, plan: Option<string>,
                             status: OpStatus, retry: Option<nat>, at: Option<int>, now: int): Db {
    if from.None? || to.None? || from == to then db
    else
      var k := Replace(ws, from.value, to.value);
      PutOp(db, k, Upserted(Find(db.ops, k), plan, status, retry, at, now, true, true))
  }

  function UpsertCancel(db: Db, ws: WorkspaceId, sub: SubId, atCycleEnd: bool, now: int): Db {
    var k := Cancel(ws, sub);
    PutOp(db, k, Upserted(Find(db.ops, k), None, CleanupPending, None, None, now, false, atCycleEnd))
  }

  function MarkCompleted(db: Db, k: OpKey, now: int): Db {
    if k in db.ops && !Terminal(db.ops[k].status) then
      PutOp(db, k, db.ops[k].(status := Completed, nextRetryAt := now))
    else db
  }

  predicate Abandons(k: OpKey, op: Op, ws: WorkspaceId, to: SubId) {
    k.Replace? && k.ws == ws && k.to == to && !Terminal(op.status)
  }

  /** The `updateMany` that abandons every live operation towards a replacement that ended. */
  function AbandonFor(db: Db, ws: WorkspaceId, to: SubId): Db {
    db.(ops := map k | k in db.ops ::
          if Abandons(k, db.ops[k], ws, to) then db.ops[k].(status := Abandoned) else db.ops[k])
  }

  function WithoutPending(row: Row): Row {
    row.(pending := None, pendingPlan := None)
  }

  function QueueCleanup(db: Db, ws: WorkspaceId, from: Option<SubId>, to: SubId): Db {
    if from.Some? && from.value != to then
      db.(queue := db.queue + multiset{Replace(ws, from.value, to)})
    else db
  }

  /** `activateRazorpayReplacement`. */
  function Activate(db: Db, ws: WorkspaceId, sub: ProviderSub, to: SubId, from: Option<SubId>, plan: Option<string>): Db
    requires ws in db.subs
  {
    var row := db.subs[ws];
    var next := WithoutPending(row).(
      live := Some(to), status := "active",
      plan := GetOr(OrElse(OrElse(plan, sub.plan), row.pendingPlan), row.plan),
      periodStart := OrElse(sub.start, row.periodStart),
      periodEnd := OrElse(sub.end, row.periodEnd));
    QueueCleanup(PutRow(db, ws, next), ws, from, to)
  }

  // ---------------------------------------------------------------- refunds

  /** A credit that a refund would still be sent for. */
  predicate Refundable(row: Row) {
    row.refundAmount > 0 && (row.refundStatus.None? || row.refundStatus == Some("pending"))
  }

  function Pay(l: Ledger, ws: WorkspaceId, amount: nat): Ledger {
    var paid := l.(refunded := l.refunded + amount);
    if ws in l.latest && l.latest[ws] < |l.credits| then
      var c := l.credits[l.latest[ws]];
      paid.(credits := l.credits[l.latest[ws] := c.(paid := c.paid + amount, refunds := c.refunds + 1)])
    else paid
  }

  /** `refundReplacementCredit` for a row whose replaced subscription is known; the flag says it threw. */
  function Refund(db: Db, ws: WorkspaceId, reply: RefundReply): (Db, bool)
    requires ws in db.subs
  {
    var row := db.subs[ws];
    if !Refundable(row) || reply.NoPayment? then (db, false)
    else if reply.RefundThrew? then (db, true)
    else
      (PutRow(db, ws, row.(refundStatus := Some(GetOr(reply.status, "initiated"))))
       .(ledger := Pay(db.ledger, ws, row.refundAmount)), false)
  }

  // ---------------------------------------------------------------- the worker

  datatype Replies = Replies(fetchNew: Fetched, cancel: CancelReply, fetchOld: Fetched, refund: RefundReply)

  function Retried(op: Op, status: OpStatus, at: int): Op {
    op.(status := status, retryCount := op.retryCount + 1, nextRetryAt := at)
  }

  /** `verifyRazorpayReplacementCancellation`: never cancels, only looks. */
  function Verify(db: Db, k: OpKey, r: Replies, now: int): (Db, bool)
    requires k in db.ops && k.Replace? && k.ws in db.subs
  {
    var op := db.ops[k];
    if r.fetchOld.None? then (db, true)
    else if Over(r.fetchOld.value.status) then Refund(MarkCompleted(db, k, now), k.ws, r.refund)
    else (PutOp(db, k, Retried(op, CancelRequested, now + VerifyDelay(op.retryCount + 1))), false)
  }

  /** The verified status after an accepted cancel; `None` when the check threw. */
  function VerifiedStatus(returned: Option<ProviderStatus>, fetchOld: Fetched): Option<ProviderStatus> {
    if returned.Some? && Over(returned.value) then returned
    else if fetchOld.Some? then Some(fetchOld.value.status)
    else None
  }

  /** `finalizeReplacedRazorpaySubscription`. */
  function Finalize(db: Db, k: OpKey, attempt: nat, r: Replies, now: int): (Db, bool)
    requires k.Replace? && k.ws in db.subs
  {
    if k.from == k.to then (db, false)
    else if k in db.ops && db.ops[k].status == CancelRequested then Verify(db, k, r, now)
    else
      match r.cancel
      case CancelThrew => (CountCancel(db, k), true)
      case Deferred | NotStarted =>
        (UpsertReplacement(db, k.ws, Some(k.from), Some(k.to), None, CleanupPending,
                           Some(attempt + 1), Some(now + CleanupDelay(attempt + 1)), now), false)
      case Accepted(returned) =>
        var called := CountCancel(db, k);
        var verified := VerifiedStatus(returned, r.fetchOld);
        if verified.None? then (called, true)
        else if !Over(verified.value) then
          (UpsertReplacement(called, k.ws, Some(k.from), Some(k.to), None, CancelRequested,
                             Some(attempt + 1), Some(now + VerifyDelay(attempt + 1)), now), false)
        else (Refund(MarkCompleted(called, k, now), k.ws, r.refund).0, false)
  }

  function ProcessReplace(db: Db, k: OpKey, r: Replies, now: int): (Db, bool)
    requires k in db.ops && k.Replace?
  {
    var op := db.ops[k];
    if k.ws !in db.subs then (PutOp(db, k, op.(status := Abandoned)), false)
    else if op.status == CancelRequested then Verify(db, k, r, now)
    else if r.fetchNew.None? then (db, true)
    else
      var status := r.fetchNew.value.status;
      if status.Active? then
        var promoted := Activate(db, k.ws, r.fetchNew.value, k.to, Some(k.from), op.plan);
        if k.from != k.to then Finalize(promoted, k, op.retryCount, r, now)
        else (PutOp(promoted, k, op.(status := Completed, nextRetryAt := now)), false)
      else
        var next := if PendingLike(status) then (if op.status == CleanupPending then CleanupPending else Pending)
                    else if Over(status) then Abandoned else Failed;
        (PutOp(db, k, Retried(op, next, now + CleanupDelay(op.retryCount + 1))), false)
  }

  /** Completes a cancel operation and mirrors the final status on the row it belongs to. */
  function CancelDone(db: Db, k: OpKey, status: ProviderStatus, now: int): Db
    requires k in db.ops && k.Cancel?
  {
    var done := PutOp(db, k, db.ops[k].(status := Completed, nextRetryAt := now));
    if k.ws in db.subs && db.subs[k.ws].live == Some(k.sub) then
      PutRow(done, k.ws, db.subs[k.ws].(status := RowStatus(status)))
    else done
  }

  function ProcessCancel(db: Db, k: OpKey, r: Replies, now: int): (Db, bool)
    requires k in db.ops && k.Cancel?
  {
    var op := db.ops[k];
    if op.status == CancelRequested then
      if r.fetchOld.None? then (db, true)
      else if Over(r.fetchOld.value.status) then (CancelDone(db, k, r.fetchOld.value.status, now), false)
      else (PutOp(db, k, Retried(op, CancelRequested, now + VerifyDelay(op.retryCount + 1))), false)
    else
      match r.cancel
      case CancelThrew => (CountCancel(db, k), true)
      case Deferred | NotStarted =>
        (PutOp(db, k, Retried(op, CleanupPending, now + CleanupDelay(op.retryCount + 1))), false)
      case Accepted(returned) =>
        var called := CountCancel(db, k);
        var verified := VerifiedStatus(returned, r.fetchOld);
        if verified.None? then (called, true)
        else if Over(verified.value) then (CancelDone(called, k, verified.value, now), false)
        else (PutOp(called, k, Retried(op, CancelRequested, now + VerifyDelay(op.retryCount + 1))), false)
  }

  function Process(db: Db, k: OpKey, r: Replies, now: int): (Db, bool)
    requires k in db.ops
  {
    if k.Cancel? then ProcessCancel(db, k, r, now) else ProcessReplace(db, k, r, now)
  }

  predicate Due(db: Db, k: OpKey, now: int) {
    k in db.ops && !Terminal(db.ops[k].status) && db.ops[k].nextRetryAt <= now
  }

  /** The `catch` of the worker loop. */
  function Caught(db: Db, k: OpKey, claimed: Op, now: int): Db
    requires k in db.ops
  {
    var failed := db.ops[k].(status := Failed, retryCount := claimed.retryCount + 1,
                             nextRetryAt := now + CleanupDelay(claimed.retryCount + 1));
    PutOp(db, k, failed).(ledger := db.ledger.(throws := Bump(db.ledger.throws, k)))
  }

  lemma VerifyKeepsKeys(db: Db, k: OpKey, r: Replies, now: int)
    requires k in db.ops && k.Replace? && k.ws in db.subs
    ensures Verify(db, k, r, now).0.ops.Keys == db.ops.Keys
  {
  }

  lemma FinalizeKeepsKeys(db: Db, k: OpKey, attempt: nat, r: Replies, now: int)
    requires k in db.ops && k.Replace? && k.ws in db.subs
    ensures Finalize(db, k, attempt, r, now).0.ops.Keys == db.ops.Keys
  {
    if k.from != k.to && db.ops[k].status == CancelRequested {
      VerifyKeepsKeys(db, k, r, now);
    }
  }

  lemma ProcessReplaceKeepsKeys(db: Db, k: OpKey, r: Replies, now: int)
    requires k in db.ops && k.Replace?
    ensures ProcessReplace(db, k, r, now).0.ops.Keys == db.ops.Keys
  {
    if k.ws in db.subs && db.ops[k].status == CancelRequested {
      VerifyKeepsKeys(db, k, r, now);
    } else if k.ws in db.subs && r.fetchNew.Some? {
      var promoted := Activate(db, k.ws, r.fetchNew.value, k.to, Some(k.from), db.ops[k].plan);
      FinalizeKeepsKeys(promoted, k, db.ops[k].retryCount, r, now);
    }
  }

  lemma ProcessCancelKeepsKeys(db: Db, k: OpKey, r: Replies, now: int)
    requires k in db.ops && k.Cancel?
    ensures ProcessCancel(db, k, r, now).0.ops.Keys == db.ops.Keys
  {
  }

  lemma ProcessKeepsKeys(db: Db, k: OpKey, r: Replies, now: int)
    requires k in db.ops
    ensures Process(db, k, r, now).0.ops.Keys == db.ops.Keys
  {
    if k.Replace? {
      ProcessReplaceKeepsKeys(db, k, r, now);
    } else {
      ProcessCancelKeepsKeys(db, k, r, now);
    }
  }

  /** One worker pass over one operation: claim, process, catch. */
  function WorkerPass(db: Db, k: OpKey, r: Replies, now: int): Db {
    if !Due(db, k, now) then db
    else
      var (next, threw) := Process(db, k, r, now);
      ProcessKeepsKeys(db, k, r, now);
      if threw then Caught(next, k, db.ops[k], now) else next
  }

  /** A queued cleanup runs: `scheduleRazorpayReplacementCleanup` with attempt 0. */
  function RunCleanup(db: Db, k: OpKey, now: int): Db {
    if k !in db.queue || k.Cancel? then db
    else
      UpsertReplacement(db.(queue := db.queue - multiset{k}), k.ws, Some(k.from), Some(k.to), None, CleanupPending,
                        Some(0), Some(now + CleanupDelay(0)), now)
  }

  // ---------------------------------------------------------------- the reconciler

  /** An item of the provider's list, oldest first; `ours` compares its workspace and customer. */
  datatype Listed = Listed(sub: SubId, ours: bool, status: ProviderStatus)

  /** An empty listing also stands for a listing that threw. */
  datatype ReconcileReplies = ReconcileReplies(
    sync: Fetched, pending: Fetched, listing: seq<Listed>, refund: RefundReply)

  /** `syncCurrentRazorpaySubscriptionStatus`. */
  function Synced(row: Row, sub: ProviderSub): Row {
    if row.status == RowStatus(sub.status) && row.periodStart.Some? && row.periodEnd.Some? then row
    else row.(status := RowStatus(sub.status),
              periodStart := OrElse(sub.start, row.periodStart), periodEnd := OrElse(sub.end, row.periodEnd))
  }

  /** Step 2 of a reconcile: what the provider says about the pending replacement. */
  function ReconcilePending(db: Db, ws: WorkspaceId, pending: SubId, sub: ProviderSub, now: int): Db
    requires ws in db.subs
  {
    var row := db.subs[ws];
    if sub.status.Active? then Activate(db, ws, sub, pending, row.live, row.pendingPlan)
    else if PendingLike(sub.status) then
      UpsertReplacement(db, ws, row.live, Some(pending), row.pendingPlan, Pending, None, None, now)
    else if Over(sub.status) then AbandonFor(PutRow(db, ws, WithoutPending(row)), ws, pending)
    else db
  }

  /** Is a live replacement operation already in charge of cancelling `dup`? */
  predicate CoveredByReplacement(db: Db, ws: WorkspaceId, dup: SubId, keep: SubId) {
    var k := Replace(ws, dup, keep);
    k in db.ops && !Terminal(db.ops[k].status)
  }

  predicate Cancellable(s: ProviderStatus) {
    s.Authenticated? || s.Active? || s.Unpaid? || s.Halted?
  }

  predicate IsDuplicate(item: Listed, keep: SubId, pending: Option<SubId>) {
    item.sub != keep && Some(item.sub) != pending && item.ours && Cancellable(item.status)
  }

  /** The listed subscriptions that nobody needs. */
  function Duplicates(listing: seq<Listed>, keep: SubId, pending: Option<SubId>): seq<SubId> {
    if listing == [] then []
    else
      var rest := Duplicates(listing[1..], keep, pending);
      if IsDuplicate(listing[0], keep, pending) then [listing[0].sub] + rest else rest
  }

  /** At most ten a time. */
  function FirstTen(subs: seq<SubId>): seq<SubId> {
    subs[..Min(10, |subs|)]
  }

  /** The loop of `cleanupRazorpayWorkspaceSubscriptions` over the duplicates found. */
  function CancelDuplicates(db: Db, ws: WorkspaceId, keep: SubId, dups: seq<SubId>, now: int): Db {
    if dups == [] then db
    else
      var before := CancelDuplicates(db, ws, keep, dups[..|dups| - 1], now);
      var dup := dups[|dups| - 1];
      if CoveredByReplacement(before, ws, dup, keep) then before else UpsertCancel(before, ws, dup, false, now)
  }

  /** `cleanupRazorpayWorkspaceSubscriptions`, for the row as read before step 2. */
  function CleanUp(db: Db, ws: WorkspaceId, row: Row, listing: seq<Listed>, now: int): (d: Db)
    ensures d.subs == db.subs && d.queue == db.queue && d.nextSub == db.nextSub && d.ledger == db.ledger
  {
    if row.live.Some? && row.customer && row.status == "active" then
      var dups := FirstTen(Duplicates(listing, row.live.value, row.pending));
      CancelDuplicatesFrame(db, ws, row.live.value, dups, now);
      CancelDuplicates(db, ws, row.live.value, dups, now)
    else db
  }

  /** The operations that made `live` the live subscription of the workspace. */
  function ReplacedBy(db: Db, ws: WorkspaceId, live: SubId): set<OpKey> {
    set k | k in db.ops && k.Replace? && k.ws == ws && k.to == live
  }

  lemma CancelDuplicatesFrame(db: Db, ws: WorkspaceId, keep: SubId, dups: seq<SubId>, now: int)
    ensures var d := CancelDuplicates(db, ws, keep, dups, now);
            d.subs == db.subs && d.queue == db.queue && d.nextSub == db.nextSub && d.ledger == db.ledger
  {
  }

  /** Steps 3 and 4 of a reconcile; `row` is the row as read before step 2. */
  function ReconcileRest(db: Db, ws: WorkspaceId, row: Row, r: ReconcileReplies, now: int): Db
    requires ws in db.subs
  {
    var cleaned := CleanUp(db, ws, row, r.listing, now);
    if row.refundStatus == Some("pending") && row.live.Some? && ReplacedBy(cleaned, ws, row.live.value) != {} then
      Refund(cleaned, ws, r.refund).0
    else cleaned
  }

  /** Step 1: the row with the provider's view of the live subscription, when it was asked. */
  function SyncedRow(row: Row, sync: Fetched): Row
    requires row.live.Some? ==> sync.Some?
  {
    if row.live.Some? then Synced(row, sync.value) else row
  }

  /** `reconcileRazorpaySubscription`. */
  function Reconcile(db: Db, ws: WorkspaceId, r: ReconcileReplies, now: int): Db {
    if ws !in db.subs || (db.subs[ws].live.Some? && r.sync.None?) then db
    else
      var row := SyncedRow(db.subs[ws], r.sync);
      var synced := PutRow(db, ws, row);
      if row.pending.None? then ReconcileRest(synced, ws, row, r, now)
      else if r.pending.None? then synced
      else ReconcileRest(ReconcilePending(synced, ws, row.pending.value, r.pending.value, now), ws, row, r, now)
  }

  // ---------------------------------------------------------------- checkout and plan change

  function TrialRow(): Row {
    Row("trial", "trialing", None, None, None, None, None, 0, None, false)
  }

  function StartTrial(db: Db, ws: WorkspaceId, start: int, end: int): Db {
    if ws in db.subs then db
    else PutRow(db, ws, TrialRow().(periodStart := Some(start), periodEnd := Some(end)))
  }

  predicate Reusable(sub: ProviderSub, plan: string) {
    !Over(sub.status) && sub.planIdMatches && (sub.plan.None? || sub.plan == Some(plan))
  }

  /** The branch of a checkout that creates a subscription at the provider. */
  function FreshCheckout(db: Db, ws: WorkspaceId, plan: string): Db {
    var row := if ws in db.subs then db.subs[ws] else TrialRow();
    PutRow(db, ws, row.(live := None, pending := Some(db.nextSub), pendingPlan := Some(plan), customer := true))
    .(nextSub := db.nextSub + 1)
  }

  /** The branch of a checkout that goes on with a subscription the provider already has. */
  function ReuseCheckout(db: Db, ws: WorkspaceId, plan: string, reuse: SubId, sub: ProviderSub): Db
    requires ws in db.subs
  {
    var row := db.subs[ws];
    PutRow(db, ws,
           if sub.status.Active? then
             WithoutPending(row).(live := Some(reuse), plan := plan, status := "active")
           else
             row.(live := if row.live == Some(reuse) then None else row.live,
                  pending := Some(reuse), pendingPlan := Some(plan)))
  }

  /** A checkout once no other pending subscription stands in the way. */
  function ContinueCheckout(db: Db, ws: WorkspaceId, plan: string, reuse: Option<SubId>, fetchReuse: Fetched): Db
    requires reuse.Some? ==> ws in db.subs
  {
    if reuse.Some? && fetchReuse.Some? && Reusable(fetchReuse.value, plan) then
      ReuseCheckout(db, ws, plan, reuse.value, fetchReuse.value)
    else FreshCheckout(db, ws, plan)
  }

  /** `createRazorpayCheckout`; the id to go on with is taken from the row as read at the start. */
  function Checkout(db: Db, ws: WorkspaceId, plan: string, fetchPending: Fetched, fetchReuse: Fetched): Db {
    if ws !in db.subs then FreshCheckout(db, ws, plan)
    else
      var existing := db.subs[ws];
      if existing.pending.None? then ContinueCheckout(db, ws, plan, existing.live, fetchReuse)
      else if existing.pendingPlan == Some(plan) then ContinueCheckout(db, ws, plan, existing.pending, fetchReuse)
      else if fetchPending.None? then db
      else
        var sub := fetchPending.value;
        if sub.status.Active? then Activate(db, ws, sub, existing.pending.value, existing.live, existing.pendingPlan)
        else if PendingLike(sub.status) then db
        else
          var cleared := if Over(sub.status) then PutRow(db, ws, WithoutPending(existing)) else db;
          ContinueCheckout(cleared, ws, plan, existing.live, fetchReuse)
  }

  /** The last part of a plan change: record the credit, create the replacement and its operation. */
  function StartReplacement(db: Db, ws: WorkspaceId, plan: string, now: int): Db
    requires ws in db.subs
  {
    var row := db.subs[ws];
    var credit := Proration.ProratedCredit(row.plan, row.periodStart, row.periodEnd, now);
    var next := row.(pending := Some(db.nextSub), pendingPlan := Some(plan), refundAmount := credit,
                     refundStatus := if credit > 0 then Some("pending") else None);
    var ledger := db.ledger.(credits := db.ledger.credits + [Credit(credit, 0, 0)],
                             latest := db.ledger.latest[ws := |db.ledger.credits|]);
    UpsertReplacement(PutRow(db, ws, next).(nextSub := db.nextSub + 1, ledger := ledger),
                      ws, row.live, Some(db.nextSub), Some(plan), Pending, None, None, now)
  }

  /** `changePlanInternal` and `handleRazorpayPlanChange`. */
  function ChangePlan(db: Db, ws: WorkspaceId, plan: string, fetchPending: Fetched, now: int): Db {
    if !PaidPlan(plan) || ws !in db.subs || db.subs[ws].live.None? then db
    else
      var row := db.subs[ws];
      if row.pending.None? then StartReplacement(db, ws, plan, now)
      else if fetchPending.None? then db
      else
        var sub := fetchPending.value;
        if row.pendingPlan != Some(plan) then
          if PendingLike(sub.status) then db
          else if sub.status.Active? then Activate(db, ws, sub, row.pending.value, row.live, row.pendingPlan)
          else StartReplacement(PutRow(db, ws, WithoutPending(row)), ws, plan, now)
        else if sub.status.Active? then
          QueueCleanup(PutRow(db, ws, WithoutPending(row).(live := row.pending, plan := plan, status := "active")),
                       ws, row.live, row.pending.value)
        else if PendingLike(sub.status) then
          UpsertReplacement(db, ws, row.live, row.pending, Some(plan), Pending, None, None, now)
        else StartReplacement(PutRow(db, ws, WithoutPending(row)), ws, plan, now)
  }

  predicate HasActivePaidSubscription(db: Db, ws: WorkspaceId) {
    ws in db.subs && db.subs[ws].plan != "trial" && db.subs[ws].status == "active" && db.subs[ws].live.Some?
  }

  /** `createCheckout` for the Razorpay provider. */
  function CreateCheckout(db: Db, ws: WorkspaceId, plan: string, fetchPending: Fetched, fetchReuse: Fetched,
                          now: int): Db {
    if !PaidPlan(plan) then db
    else if HasActivePaidSubscription(db, ws) then ChangePlan(db, ws, plan, fetchPending, now)
    else Checkout(db, ws, plan, fetchPending, fetchReuse)
  }

  function CancelPlan(db: Db, ws: WorkspaceId, now: int): Db {
    if ws in db.subs && db.subs[ws].live.Some? then UpsertCancel(db, ws, db.subs[ws].live.value, true, now) else db
  }

  // ---------------------------------------------------------------- webhooks

  predicate Holds(db: Db, ws: WorkspaceId, sub: SubId) {
    ws in db.subs && (db.subs[ws].live == Some(sub) || db.subs[ws].pending == Some(sub))
  }

  /** `subscription.activated`, delivered to a row that the lookup may find. */
  function OnActivated(db: Db, ws: WorkspaceId, sub: SubId, note: Option<string>): Db {
    if !Holds(db, ws, sub) then db
    else
      var row := db.subs[ws];
      if row.pending == Some(sub) then
        QueueCleanup(
          PutRow(db, ws, WithoutPending(row).(live := Some(sub), status := "active",
                                              plan := GetOr(OrElse(row.pendingPlan, note), row.plan))),
          ws, row.live, sub)
      else
        PutRow(db, ws, row.(status := "active", plan := GetOr(OrElse(note, row.pendingPlan), row.plan),
                            pendingPlan := None))
  }

  /** The other `subscription.*` events. */
  function OnStatus(db: Db, ws: WorkspaceId, sub: SubId, status: ProviderStatus, note: Option<string>, now: int): Db {
    if !Holds(db, ws, sub) then db
    else
      var row := db.subs[ws];
      var replacing := row.pending == Some(sub);
      if replacing && Over(status) then AbandonFor(PutRow(db, ws, WithoutPending(row)), ws, sub)
      else if replacing && !ActiveLike(status) then
        UpsertReplacement(db, ws, row.live, Some(sub), row.pendingPlan, Pending, None, None, now)
      else if replacing then
        QueueCleanup(
          PutRow(db, ws, WithoutPending(row).(live := Some(sub), status := RowStatus(status),
                                              plan := GetOr(OrElse(row.pendingPlan, note), row.plan))),
          ws, row.live, sub)
      else
        var plan := GetOr(OrElse(note, row.pendingPlan), row.plan);
        PutRow(db, ws, row.(status := RowStatus(status), plan := plan,
                            pendingPlan := if row.pendingPlan == Some(plan) then None else row.pendingPlan))
  }

  /** `payment.captured` for a subscription payment. */
  function OnCaptured(db: Db, ws: WorkspaceId, sub: SubId, note: Option<string>): Db {
    if !Holds(db, ws, sub) then db
    else
      var row := db.subs[ws];
      if row.pending == Some(sub) then
        QueueCleanup(
          PutRow(db, ws, WithoutPending(row).(live := Some(sub), status := "active",
                                              plan := GetOr(row.pendingPlan, row.plan))),
          ws, row.live, sub)
      else
        var plan := GetOr(OrElse(note, row.pendingPlan), row.plan);
        PutRow(db, ws, row.(status := "active", plan := plan,
                            pendingPlan := if row.pendingPlan == Some(plan) then None else row.pendingPlan))
  }

  function OnPaymentFailed(db: Db, ws: WorkspaceId, sub: SubId): Db {
    if !Holds(db, ws, sub) then db
    else if db.subs[ws].pending == Some(sub) then AbandonFor(PutRow(db, ws, WithoutPending(db.subs[ws])), ws, sub)
    else PutRow(db, ws, db.subs[ws].(status := "past_due"))
  }

  function OnRefundProcessed(db: Db, ws: WorkspaceId): Db {
    if ws in db.subs then PutRow(db, ws, db.subs[ws].(refundStatus := Some("processed"))) else db
  }

  // ---------------------------------------------------------------- runs

  datatype Step =
    | DoTrial(ws: WorkspaceId, start: int, end: int)
    | DoCheckout(ws: WorkspaceId, plan: string, fetchPending: Fetched, fetchReuse: Fetched, now: int)
    | DoChangePlan(ws: WorkspaceId, plan: string, fetchPending: Fetched, now: int)
    | DoCancelPlan(ws: WorkspaceId, now: int)
    | DoWorkerPass(key: OpKey, replies: Replies, now: int)
    | DoRunCleanup(key: OpKey, now: int)
    | DoReconcile(ws: WorkspaceId, found: ReconcileReplies, now: int)
    | Activated(ws: WorkspaceId, sub: SubId, note: Option<string>)
    | StatusChanged(ws: WorkspaceId, sub: SubId, status: ProviderStatus, note: Option<string>, now: int)
    | Captured(ws: WorkspaceId, sub: SubId, note: Option<string>)
    | PaymentFailed(ws: WorkspaceId, sub: SubId)
    | RefundProcessed(ws: WorkspaceId)

  function Apply(db: Db, s: Step): Db {
    match s
    case DoTrial(ws, start, end) => StartTrial(db, ws, start, end)
    case DoCheckout(ws, plan, p, r, now) => CreateCheckout(db, ws, plan, p, r, now)
    case DoChangePlan(ws, plan, p, now) => ChangePlan(db, ws, plan, p, now)
    case DoCancelPlan(ws, now) => CancelPlan(db, ws, now)
    case DoWorkerPass(k, r, now) => WorkerPass(db, k, r, now)
    case DoRunCleanup(k, now) => RunCleanup(db, k, now)
    case DoReconcile(ws, r, now) => Reconcile(db, ws, r, now)
    case Activated(ws, sub, note) => OnActivated(db, ws, sub, note)
    case StatusChanged(ws, sub, status, note, now) => OnStatus(db, ws, sub, status, note, now)
    case Captured(ws, sub, note) => OnCaptured(db, ws, sub, note)
    case PaymentFailed(ws, sub) => OnPaymentFailed(db, ws, sub)
    case RefundProcessed(ws) => OnRefundProcessed(db, ws)
  }

  /** Any number of handlers, in any order, each as often as the run says. */
  function Run(db: Db, steps: seq<Step>): Db
    decreases |steps|
  {
    if steps == [] then db else Apply(Run(db, steps[..|steps| - 1]), steps[|steps| - 1])
  }
}
