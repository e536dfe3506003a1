/** What each request, event and reconcile does to the rows and operations, told from its guards and inputs. */
module BillingEffects {
  import opened Common
  import opened OperationStatus
  import opened BillingModel
  import opened BillingInvariants
  import opened BillingRefunds
  import opened BillingRepayments
  import Proration

  // ---------------------------------------------------------------- frames

  /** At most the row of `ws` changed. */
  ghost predicate OtherRowsSame(db: Db, d: Db, ws: WorkspaceId) {
    && (forall w | w in db.subs && w != ws :: w in d.subs && d.subs[w] == db.subs[w])
    && (forall w | w in d.subs && w != ws :: w in db.subs)
  }

  /** At most the operation `k` changed. */
  ghost predicate OtherOpsSame(db: Db, d: Db, k: OpKey) {
    && (forall j | j in db.ops && j != k :: j in d.ops && d.ops[j] == db.ops[j])
    && (forall j | j in d.ops && j != k :: j in db.ops)
  }

  function FirstKnown(a: Option<string>, b: Option<string>, c: string): string {
    if a.Some? then a.value else if b.Some? then b.value else c
  }

  // ---------------------------------------------------------------- upserts

  /** The operation after an upsert: the higher status, what is given, and else what was there. */
  ghost predicate IsUpserted(existing: Option<Op>, next: Op, plan: Option<string>, status: OpStatus, retry: Option<nat>,
                             atCycleEnd: bool) {
    && (existing.None? ==> next.status == status)
    && (existing.Some? && Terminal(existing.value.status) ==> next.status == existing.value.status)
    && (existing.Some? && !Terminal(existing.value.status) ==>
          IsHighest(next.status, Some(existing.value.status), [status]) && Requestable(next.status))
    && next.plan == (if plan.Some? then plan else if existing.Some? then existing.value.plan else None)
    && next.retryCount == (if retry.Some? then retry.value else if existing.Some? then existing.value.retryCount else 0)
    && next.atCycleEnd == atCycleEnd
  }

  lemma UpsertOutcome(db: Db, ws: WorkspaceId, from: SubId, to: SubId, plan: Option<string>, status: OpStatus,
                      retry: Option<nat>, at: Option<int>, now: int)
    requires Requestable(status)
    ensures var k := Replace(ws, from, to);
            var d := UpsertReplacement(db, ws, Some(from), Some(to), plan, status, retry, at, now);
            if from == to then d == db
            else
              && k in d.ops && IsUpserted(Find(db.ops, k), d.ops[k], plan, status, retry, true)
              && d.ops[k].nextRetryAt == (if at.Some? then at.value else now + CleanupDelay(d.ops[k].retryCount))
              && OtherOpsSame(db, d, k) && d == db.(ops := d.ops)
  {
    var k := Replace(ws, from, to);
    if k in db.ops && !Terminal(db.ops[k].status) {
      UpsertsReachTheMaximum(Some(db.ops[k].status), [status]);
      assert AfterUpserts(Some(db.ops[k].status), [status]) == Some(NextStatus(Some(db.ops[k].status), status)) by {
        assert [status][1..] == [];
        assert AfterUpserts(Some(NextStatus(Some(db.ops[k].status), status)), [])
            == Some(NextStatus(Some(db.ops[k].status), status));
      }
    }
  }

  /** A request to cancel leaves a cancel operation for the live subscription, at the cycle's end and due at once. */
  lemma CancelPlanOutcome(db: Db, ws: WorkspaceId, now: int)
    ensures var d := CancelPlan(db, ws, now);
            if ws in db.subs && db.subs[ws].live.Some? then
              var k := Cancel(ws, db.subs[ws].live.value);
              && k in d.ops && IsUpserted(Find(db.ops, k), d.ops[k], None, CleanupPending, None, true)
              && d.ops[k].nextRetryAt == now && OtherOpsSame(db, d, k) && d == db.(ops := d.ops)
            else d == db
  {
    if ws in db.subs && db.subs[ws].live.Some? {
      CancelUpsert(db, ws, db.subs[ws].live.value, true, now);
    }
  }

  lemma CancelUpsert(db: Db, ws: WorkspaceId, sub: SubId, atCycleEnd: bool, now: int)
    ensures var d, k := UpsertCancel(db, ws, sub, atCycleEnd, now), Cancel(ws, sub);
            && k in d.ops && IsUpserted(Find(db.ops, k), d.ops[k], None, CleanupPending, None, atCycleEnd)
            && d.ops[k].nextRetryAt == now && OtherOpsSame(db, d, k) && d == db.(ops := d.ops)
  {
    var k := Cancel(ws, sub);
    if k in db.ops && !Terminal(db.ops[k].status) {
      var s := db.ops[k].status;
      UpsertsReachTheMaximum(Some(s), [CleanupPending]);
      assert [CleanupPending][1..] == [];
      assert AfterUpserts(Some(NextStatus(Some(s), CleanupPending)), []) == Some(NextStatus(Some(s), CleanupPending));
      assert AfterUpserts(Some(s), [CleanupPending]) == Some(NextStatus(Some(s), CleanupPending));
    }
  }

  /** A queued cleanup leaves the queue and asks for the clean-up of its pair, as a first attempt in a minute. */
  lemma RunCleanupOutcome(db: Db, k: OpKey, now: int)
    requires k in db.queue && k.Replace? && k.from != k.to
    ensures var d := RunCleanup(db, k, now);
            && d.queue == db.queue - multiset{k} && k in d.ops
            && IsUpserted(Find(db.ops, k), d.ops[k], None, CleanupPending, Some(0), true)
            && d.ops[k].nextRetryAt == now + 60_000 && OtherOpsSame(db, d, k)
            && d == db.(ops := d.ops, queue := d.queue)
  {
    UpsertOutcome(db.(queue := db.queue - multiset{k}), k.ws, k.from, k.to, None, CleanupPending, Some(0),
                  Some(now + CleanupDelay(0)), now);
  }

  lemma TrialOutcome(db: Db, ws: WorkspaceId, start: int, end: int)
    ensures var d := StartTrial(db, ws, start, end);
            if ws in db.subs then d == db
            else
              && ws in d.subs && d.subs[ws].plan == "trial" && d.subs[ws].status == "trialing"
              && d.subs[ws].live == None && d.subs[ws].pending == None && d.subs[ws].refundAmount == 0
              && d.subs[ws].periodStart == Some(start) && d.subs[ws].periodEnd == Some(end) && !d.subs[ws].customer
              && OtherRowsSame(db, d, ws) && d == db.(subs := d.subs)
  {
  }

  /** A refund call for a row that asks for it pays the credit and stores the provider's word, or throws. */
  lemma RefundOutcome(db: Db, ws: WorkspaceId, reply: RefundReply)
    requires ws in db.subs
    ensures var (d, threw) := Refund(db, ws, reply);
            var row := db.subs[ws];
            var due := row.refundAmount > 0 && (row.refundStatus == None || row.refundStatus == Some("pending"));
            && (threw <==> due && reply.RefundThrew?)
            && (if due && reply.Refunded? then
                  && ws in d.subs && OtherRowsSame(db, d, ws)
                  && d.subs[ws] == row.(refundStatus := if reply.status.Some? then reply.status else Some("initiated"))
                  && d.ledger.refunded == db.ledger.refunded + row.refundAmount
                  && d == db.(subs := d.subs, ledger := d.ledger)
                else d == db)
  {
  }

  // ---------------------------------------------------------------- plan changes

  /** The row with a replacement on its way and the credit for the unused part of the period. */
  predicate HasReplacement(row: Row, next: Row, sub: SubId, plan: string, now: int) {
    && next.live == row.live && next.pending == Some(sub) && next.pendingPlan == Some(plan)
    && next.plan == row.plan && next.status == row.status
    && next.periodStart == row.periodStart && next.periodEnd == row.periodEnd && next.customer == row.customer
    && next.refundAmount == Proration.ProratedCredit(row.plan, row.periodStart, row.periodEnd, now)
    && next.refundStatus == (if next.refundAmount > 0 then Some("pending") else None)
  }

  lemma StartOutcome(db: Db, ws: WorkspaceId, plan: string, now: int)
    requires ws in db.subs && db.subs[ws].live.Some? && db.subs[ws].live.value < db.nextSub
    requires forall k | k in db.ops && k.Replace? :: k.to < db.nextSub
    ensures var d, k := StartReplacement(db, ws, plan, now), Replace(ws, db.subs[ws].live.value, db.nextSub);
            && ws in d.subs && HasReplacement(db.subs[ws], d.subs[ws], db.nextSub, plan, now)
            && OtherRowsSame(db, d, ws)
            && k in d.ops && d.ops[k] == Op(Pending, Some(plan), 0, now + 60_000, true) && OtherOpsSame(db, d, k)
            && d.nextSub == db.nextSub + 1 && d.queue == db.queue
            && d.ledger.credits == db.ledger.credits + [Credit(d.subs[ws].refundAmount, 0, 0)]
            && d.ledger.cancels == db.ledger.cancels && d.ledger.throws == db.ledger.throws
  {
  }

  /** The pending subscription is the live one, on its plan. */
  predicate TookOver(row: Row, next: Row, plan: string, status: string) {
    && next.live == row.pending && next.pending == None && next.pendingPlan == None
    && next.plan == plan && next.status == status && next.customer == row.customer
    && next.refundAmount == row.refundAmount && next.refundStatus == row.refundStatus
  }

  /** The replaced subscription is queued for cleanup. */
  predicate QueuesReplaced(db: Db, d: Db, ws: WorkspaceId, row: Row) {
    d.queue == db.queue + (if row.live.Some? && row.pending.Some? && row.live != row.pending
                           then multiset{Replace(ws, row.live.value, row.pending.value)} else multiset{})
  }

  predicate SamePeriod(row: Row, next: Row) {
    next.periodStart == row.periodStart && next.periodEnd == row.periodEnd
  }

  predicate PeriodOf(row: Row, next: Row, sub: ProviderSub) {
    && next.periodStart == (if sub.start.Some? then sub.start else row.periodStart)
    && next.periodEnd == (if sub.end.Some? then sub.end else row.periodEnd)
  }

  /** A plan change that finds the pending replacement active. */
  lemma PromotingChangeOutcome(db: Db, ws: WorkspaceId, plan: string, p: Fetched, now: int)
    requires PaidPlan(plan) && ws in db.subs && db.subs[ws].live.Some? && db.subs[ws].pending.Some?
    requires p.Some? && p.value.status == Active
    ensures var d, row := ChangePlan(db, ws, plan, p, now), db.subs[ws];
            && ws in d.subs && OtherRowsSame(db, d, ws) && QueuesReplaced(db, d, ws, row)
            && d.ops == db.ops && d.ledger == db.ledger && d.nextSub == db.nextSub
            && (row.pendingPlan == Some(plan) ==>
                  TookOver(row, d.subs[ws], plan, "active") && SamePeriod(row, d.subs[ws]))
            && (row.pendingPlan != Some(plan) ==>
                  && TookOver(row, d.subs[ws], FirstKnown(row.pendingPlan, p.value.plan, row.plan), "active")
                  && PeriodOf(row, d.subs[ws], p.value))
  {
  }

  const WAITING: set<ProviderStatus> := {Created, Authenticated, Unpaid, Halted}

  const ENDED: set<ProviderStatus> := {Cancelled, Ended, Expired}

  predicate StatusIn(f: Fetched, statuses: set<ProviderStatus>) {
    f.Some? && f.value.status in statuses
  }

  /** A plan change that neither starts nor promotes waits for the replacement to the same plan, or does nothing. */
  lemma WaitingChangeOutcome(db: Db, ws: WorkspaceId, plan: string, p: Fetched, now: int)
    requires !StartsCredit(db, ws, plan, p)
    requires !(PaidPlan(plan) && ws in db.subs && db.subs[ws].live.Some? && StatusIn(p, {Active}))
    ensures var waits := PaidPlan(plan) && ws in db.subs && db.subs[ws].live.Some? && db.subs[ws].pending.Some?
                         && db.subs[ws].pendingPlan == Some(plan) && StatusIn(p, WAITING);
            ChangePlan(db, ws, plan, p, now)
            == if waits
               then UpsertReplacement(db, ws, db.subs[ws].live, db.subs[ws].pending, Some(plan), Pending, None, None,
                                      now)
               else db
  {
  }

  /** A plan change starts a replacement exactly under `StartsCredit`; what was pending is dropped. */
  lemma StartingChangeOutcome(db: Db, ws: WorkspaceId, plan: string, p: Fetched, now: int)
    requires Core(db) && StartsCredit(db, ws, plan, p)
    ensures var d, k := ChangePlan(db, ws, plan, p, now), Replace(ws, db.subs[ws].live.value, db.nextSub);
            && ws in d.subs && HasReplacement(db.subs[ws], d.subs[ws], db.nextSub, plan, now)
            && OtherRowsSame(db, d, ws)
            && k in d.ops && d.ops[k] == Op(Pending, Some(plan), 0, now + 60_000, true) && OtherOpsSame(db, d, k)
            && d.nextSub == db.nextSub + 1 && d.queue == db.queue
            && d.ledger.credits == db.ledger.credits + [Credit(d.subs[ws].refundAmount, 0, 0)]
  {
    assert RowIdsKnown(db.subs[ws], db.nextSub);
    if db.subs[ws].pending.None? {
      StartOutcome(db, ws, plan, now);
    } else {
      var dropped := PutRow(db, ws, WithoutPending(db.subs[ws]));
      StartOutcome(dropped, ws, plan, now);
    }
  }

  /** A credit at the moment of the change is worth the unused part of the period, and never more than a month in it. */
  lemma ChangeCreditIsProrated(db: Db, ws: WorkspaceId, plan: string, p: Fetched, now: int)
    requires Core(db) && StartsCredit(db, ws, plan, p)
    requires db.subs[ws].periodStart.Some? && db.subs[ws].periodEnd.Some?
    requires db.subs[ws].periodStart.value <= now < db.subs[ws].periodEnd.value
    ensures var row, d := db.subs[ws], ChangePlan(db, ws, plan, p, now);
            var amount, total := Proration.MonthlyAmount(row.plan), row.periodEnd.value - row.periodStart.value;
            && ws in d.subs && d.subs[ws].refundAmount <= amount
            && 2 * total * d.subs[ws].refundAmount <= 2 * (amount * (row.periodEnd.value - now)) + total
               < 2 * total * (d.subs[ws].refundAmount + 1)
  {
    var row := db.subs[ws];
    StartingChangeOutcome(db, ws, plan, p, now);
    Proration.CreditBrackets(row.plan, row.periodStart.value, row.periodEnd.value, now);
    Proration.CreditAtMostOneMonth(row.plan, row.periodStart.value, row.periodEnd.value, now);
    var m := Proration.MonthlyAmount(row.plan);
    Proration.MulLe(2 * m, row.periodStart.value - now, 0);
  }

  // ---------------------------------------------------------------- events

  /** An event for a subscription that the row does not hold changes nothing. */
  lemma ForeignEventOutcome(db: Db, s: Step)
    requires s.Activated? || s.StatusChanged? || s.Captured? || s.PaymentFailed?
    requires s.ws !in db.subs || (db.subs[s.ws].live != Some(s.sub) && db.subs[s.ws].pending != Some(s.sub))
    ensures Apply(db, s) == db
  {
  }

  /** The row changed, and perhaps the queue. */
  ghost predicate RowAndQueue(db: Db, d: Db, ws: WorkspaceId) {
    ws in d.subs && OtherRowsSame(db, d, ws) && d == db.(subs := d.subs, queue := d.queue)
  }

  /** The pending subscription of the row took over, with the plan it was for, or else the one noted. */
  ghost predicate Promotes(db: Db, d: Db, ws: WorkspaceId, note: Option<string>)
    requires ws in db.subs
  {
    var row := db.subs[ws];
    && RowAndQueue(db, d, ws) && QueuesReplaced(db, d, ws, row)
    && TookOver(row, d.subs[ws], FirstKnown(row.pendingPlan, note, row.plan), "active") && SamePeriod(row, d.subs[ws])
  }

  lemma ActivatedOutcome(db: Db, ws: WorkspaceId, sub: SubId, note: Option<string>)
    requires ws in db.subs && db.subs[ws].pending == Some(sub)
    ensures Promotes(db, OnActivated(db, ws, sub, note), ws, note)
  {
  }

  lemma CapturedOutcome(db: Db, ws: WorkspaceId, sub: SubId, note: Option<string>)
    requires ws in db.subs && db.subs[ws].pending == Some(sub)
    ensures Promotes(db, OnCaptured(db, ws, sub, note), ws, None)
  {
  }

  lemma ActiveStatusOutcome(db: Db, ws: WorkspaceId, sub: SubId, status: ProviderStatus, note: Option<string>, now: int)
    requires ws in db.subs && db.subs[ws].pending == Some(sub) && status in {Active, Authenticated, Resumed}
    ensures Promotes(db, OnStatus(db, ws, sub, status, note, now), ws, note)
  {
  }

  /** An activation, a capture or an active-like status of the pending subscription promotes it. */
  lemma PromotingEventOutcome(db: Db, s: Step)
    requires s.Activated? || s.Captured? || (s.StatusChanged? && s.status in {Active, Authenticated, Resumed})
    requires s.ws in db.subs && db.subs[s.ws].pending == Some(s.sub)
    ensures Promotes(db, Apply(db, s), s.ws, if s.Captured? then None else s.note)
  {
    match s
    case Activated(ws, sub, note) => ActivatedOutcome(db, ws, sub, note);
    case Captured(ws, sub, note) => CapturedOutcome(db, ws, sub, note);
    case StatusChanged(ws, sub, status, note, now) => ActiveStatusOutcome(db, ws, sub, status, note, now);
  }

  /** The row is relabelled; its subscriptions, period and credit stay. */
  predicate Relabelled(row: Row, next: Row, plan: string, status: string) {
    && next.live == row.live && next.pending == row.pending && next.plan == plan && next.status == status
    && SamePeriod(row, next) && next.refundAmount == row.refundAmount && next.refundStatus == row.refundStatus
    && next.customer == row.customer
  }

  /** An event for the live subscription relabels the row: its status, and the plan it notes. */
  lemma RelabellingEventOutcome(db: Db, s: Step)
    requires s.Activated? || s.Captured? || s.StatusChanged?
    requires s.ws in db.subs && db.subs[s.ws].live == Some(s.sub) && db.subs[s.ws].pending != Some(s.sub)
    ensures var d, row := Apply(db, s), db.subs[s.ws];
            var plan := FirstKnown(s.note, row.pendingPlan, row.plan);
            && RowAndQueue(db, d, s.ws) && d.queue == db.queue
            && Relabelled(row, d.subs[s.ws], plan, if s.StatusChanged? then RowStatus(s.status) else "active")
            && d.subs[s.ws].pendingPlan
               == (if s.Activated? || row.pendingPlan == Some(plan) then None else row.pendingPlan)
  {
  }

  /** The pending subscription is dropped and exactly the open operations towards it are abandoned. */
  ghost predicate Dropped(db: Db, d: Db, ws: WorkspaceId, sub: SubId)
    requires ws in db.subs
  {
    && ws in d.subs && OtherRowsSame(db, d, ws)
    && d.subs[ws] == db.subs[ws].(pending := None, pendingPlan := None)
    && d.ops.Keys == db.ops.Keys
    && (forall k | k in db.ops ::
          d.ops[k] == if k.Replace? && k.ws == ws && k.to == sub && !Terminal(db.ops[k].status)
                      then db.ops[k].(status := Abandoned) else db.ops[k])
    && d == db.(subs := d.subs, ops := d.ops)
  }

  /** A failed first payment or a final status of the pending subscription drops it. */
  lemma DroppingEventOutcome(db: Db, s: Step)
    requires s.PaymentFailed? || (s.StatusChanged? && s.status in ENDED)
    requires s.ws in db.subs && db.subs[s.ws].pending == Some(s.sub)
    ensures Dropped(db, Apply(db, s), s.ws, s.sub)
  {
  }

  /** Any other status of the pending subscription keeps its operation open. */
  lemma WaitingEventOutcome(db: Db, s: Step)
    requires s.StatusChanged? && s.status !in ENDED && s.status !in {Active, Authenticated, Resumed}
    requires s.ws in db.subs && db.subs[s.ws].pending == Some(s.sub)
    ensures var row := db.subs[s.ws];
            Apply(db, s)
            == UpsertReplacement(db, s.ws, row.live, row.pending, row.pendingPlan, Pending, None, None, s.now)
  {
  }

  /** A failed payment of the live subscription makes the row past due; a processed refund is noted on it. */
  lemma NotingEventOutcome(db: Db, s: Step)
    requires (s.PaymentFailed? || s.RefundProcessed?) && s.ws in db.subs
    requires s.PaymentFailed? ==> db.subs[s.ws].live == Some(s.sub) && db.subs[s.ws].pending != Some(s.sub)
    ensures var d, row := Apply(db, s), db.subs[s.ws];
            && s.ws in d.subs && OtherRowsSame(db, d, s.ws) && d == db.(subs := d.subs)
            && d.subs[s.ws] == if s.PaymentFailed? then row.(status := "past_due")
                               else row.(refundStatus := Some("processed"))
  {
  }

  // ---------------------------------------------------------------- checkouts

  predicate GoesOn(reuse: Option<SubId>, f: Fetched, plan: string) {
    && reuse.Some? && f.Some? && f.value.status !in ENDED && f.value.planIdMatches
    && (f.value.plan == None || f.value.plan == Some(plan))
  }

  /** The subscription that a checkout tries to go on with: the pending one for the plan, or else the live one. */
  function Candidate(row: Row, plan: string): Option<SubId> {
    if row.pending.Some? && row.pendingPlan == Some(plan) then row.pending else row.live
  }

  /** A pending subscription for another plan stands in the way. */
  predicate Blocked(row: Row, plan: string, p: Fetched) {
    row.pending.Some? && row.pendingPlan != Some(plan) && !StatusIn(p, ENDED + {Paused, Resumed, Unknown})
  }

  /** A blocked checkout promotes the pending subscription if it is active, and otherwise changes nothing. */
  lemma BlockedCheckoutOutcome(db: Db, ws: WorkspaceId, plan: string, p: Fetched, r: Fetched)
    requires ws in db.subs && Blocked(db.subs[ws], plan, p)
    ensures var d, row := Checkout(db, ws, plan, p, r), db.subs[ws];
            if StatusIn(p, {Active}) then
              && RowAndQueue(db, d, ws) && QueuesReplaced(db, d, ws, row)
              && TookOver(row, d.subs[ws], FirstKnown(row.pendingPlan, p.value.plan, row.plan), "active")
              && PeriodOf(row, d.subs[ws], p.value)
            else d == db
  {
  }

  /** The database that an open checkout works on: a pending subscription for another plan that is over is dropped. */
  function Opened(db: Db, ws: WorkspaceId, plan: string, p: Fetched): Db
    requires ws in db.subs
  {
    var row := db.subs[ws];
    if row.pending.Some? && row.pendingPlan != Some(plan) && StatusIn(p, ENDED)
    then db.(subs := db.subs[ws := row.(pending := None, pendingPlan := None)]) else db
  }

  lemma OpenCheckout(db: Db, ws: WorkspaceId, plan: string, p: Fetched, r: Fetched)
    requires ws in db.subs && !Blocked(db.subs[ws], plan, p)
    ensures Checkout(db, ws, plan, p, r)
         == ContinueCheckout(Opened(db, ws, plan, p), ws, plan, Candidate(db.subs[ws], plan), r)
  {
  }

  /** The row of a checkout that goes on with a subscription. */
  predicate Reuses(row: Row, next: Row, sub: Option<SubId>, plan: string, active: bool) {
    && SamePeriod(row, next) && SameRefund(row, next) && next.customer == row.customer
    && (if active then
          && next.live == sub && next.pending == None && next.pendingPlan == None
          && next.plan == plan && next.status == "active"
        else
          && next.live == (if row.live == sub then None else row.live)
          && next.pending == sub && next.pendingPlan == Some(plan)
          && next.plan == row.plan && next.status == row.status)
  }

  lemma ContinueReuses(db: Db, ws: WorkspaceId, plan: string, sub: Option<SubId>, r: Fetched)
    requires ws in db.subs && GoesOn(sub, r, plan)
    ensures var d := ContinueCheckout(db, ws, plan, sub, r);
            && ws in d.subs && d == db.(subs := db.subs[ws := d.subs[ws]])
            && Reuses(db.subs[ws], d.subs[ws], sub, plan, StatusIn(r, {Active}))
  {
  }

  /** An open checkout goes on with the candidate. */
  lemma ReusingCheckoutOutcome(db: Db, ws: WorkspaceId, plan: string, p: Fetched, r: Fetched)
    requires ws in db.subs && !Blocked(db.subs[ws], plan, p) && GoesOn(Candidate(db.subs[ws], plan), r, plan)
    ensures var d, row := Checkout(db, ws, plan, p, r), db.subs[ws];
            && RowAndQueue(db, d, ws) && d.queue == db.queue
            && Reuses(row, d.subs[ws], Candidate(row, plan), plan, StatusIn(r, {Active}))
  {
    OpenCheckout(db, ws, plan, p, r);
    ContinueReuses(Opened(db, ws, plan, p), ws, plan, Candidate(db.subs[ws], plan), r);
  }

  /** The row of a checkout that creates subscription `sub`: it is pending, and the live one is off the row. */
  predicate StartsAfresh(row: Row, next: Row, sub: SubId, plan: string) {
    && next.live == None && next.pending == Some(sub) && next.pendingPlan == Some(plan) && next.customer
    && next.plan == row.plan && next.status == row.status && SamePeriod(row, next) && SameRefund(row, next)
  }

  lemma ContinueAfresh(db: Db, ws: WorkspaceId, plan: string, sub: Option<SubId>, r: Fetched)
    requires ws in db.subs && !GoesOn(sub, r, plan)
    ensures var d := ContinueCheckout(db, ws, plan, sub, r);
            && ws in d.subs && d == db.(subs := db.subs[ws := d.subs[ws]], nextSub := db.nextSub + 1)
            && StartsAfresh(db.subs[ws], d.subs[ws], db.nextSub, plan)
  {
  }

  /** Any other checkout creates a subscription. */
  lemma FreshCheckoutOutcome(db: Db, ws: WorkspaceId, plan: string, p: Fetched, r: Fetched)
    requires ws in db.subs && !Blocked(db.subs[ws], plan, p) && !GoesOn(Candidate(db.subs[ws], plan), r, plan)
    ensures var d := Checkout(db, ws, plan, p, r);
            && ws in d.subs && OtherRowsSame(db, d, ws) && d == db.(subs := d.subs, nextSub := db.nextSub + 1)
            && StartsAfresh(db.subs[ws], d.subs[ws], db.nextSub, plan)
  {
    OpenCheckout(db, ws, plan, p, r);
    ContinueAfresh(Opened(db, ws, plan, p), ws, plan, Candidate(db.subs[ws], plan), r);
  }

  /** So does a checkout for a workspace without a row, which gets a trial row. */
  lemma FirstCheckoutOutcome(db: Db, ws: WorkspaceId, plan: string, p: Fetched, r: Fetched)
    requires ws !in db.subs
    ensures var d := Checkout(db, ws, plan, p, r);
            && ws in d.subs && OtherRowsSame(db, d, ws) && d == db.(subs := d.subs, nextSub := db.nextSub + 1)
            && d.subs[ws] == Row("trial", "trialing", None, Some(db.nextSub), Some(plan), None, None, 0, None, true)
  {
  }

  /** A checkout request of a paying workspace is a plan change; one for no paid plan does nothing. */
  lemma CreateCheckoutOutcome(db: Db, ws: WorkspaceId, plan: string, p: Fetched, r: Fetched, now: int)
    ensures var d := CreateCheckout(db, ws, plan, p, r, now);
            if plan !in {"starter", "growth", "pro"} then d == db
            else if ws in db.subs && db.subs[ws].plan != "trial" && db.subs[ws].status == "active"
                    && db.subs[ws].live.Some?
            then d == ChangePlan(db, ws, plan, p, now)
            else d == Checkout(db, ws, plan, p, r)
  {
  }
}
