/**
 * The handlers of the billing service as methods that update the tables row by row. Each is proved to end in the state
 * that its function in `BillingModel` gives; the handlers that a request, an event or the worker calls also keep the
 * invariant of the protocol and every terminal status.
 */
module BillingService {
  import opened Common
  import opened OperationStatus
  import opened BillingModel
  import opened BillingInvariants
  import Proration

  class Service {
    var subs: map<WorkspaceId, Row>
    var ops: map<OpKey, Op>
    var queue: multiset<OpKey>
    var nextSub: SubId
    var ledger: Ledger

    ghost function State(): Db
      reads this
    {
      Db(subs, ops, queue, nextSub, ledger)
    }

    constructor ()
      ensures State() == EMPTY && Core(State())
    {
      subs, ops, queue, nextSub, ledger := map[], map[], multiset{}, 0, Ledger(map[], map[], [], map[], 0);
    }

    method Upsert(k: OpKey, plan: Option<string>, status: OpStatus, retry: Option<nat>, at: Option<int>,
                  now: int, delay: bool, atCycleEnd: bool)
      modifies this`ops
      ensures ops == old(ops)[k := Upserted(Find(old(ops), k), plan, status, retry, at, now, delay, atCycleEnd)]
    {
      if k in ops {
        var existing := ops[k];
        var retryCount := GetOr(retry, existing.retryCount);
        var due := if delay then now + CleanupDelay(retryCount) else now;
        ops := ops[k := Op(NextStatus(Some(existing.status), status), OrElse(plan, existing.plan),
                           retryCount, GetOr(at, due), atCycleEnd)];
      } else {
        var retryCount := GetOr(retry, 0);
        var due := if delay then now + CleanupDelay(retryCount) else now;
        ops := ops[k := Op(NextStatus(None, status), plan, retryCount, GetOr(at, due), atCycleEnd)];
      }
    }

    method UpsertReplacementOperation(ws: WorkspaceId, from: Option<SubId>, to: Option<SubId>, plan: Option<string>,
                                      status: OpStatus, retry: Option<nat>, at: Option<int>, now: int)
      modifies this`ops
      ensures State() == UpsertReplacement(old(State()), ws, from, to, plan, status, retry, at, now)
    {
      if from.None? || to.None? || from == to { return; }
      Upsert(Replace(ws, from.value, to.value), plan, status, retry, at, now, true, true);
    }

    method UpsertCancelOperation(ws: WorkspaceId, sub: SubId, atCycleEnd: bool, now: int)
      modifies this`ops
      ensures State() == UpsertCancel(old(State()), ws, sub, atCycleEnd, now)
    {
      Upsert(Cancel(ws, sub), None, CleanupPending, None, None, now, false, atCycleEnd);
    }

    method MarkOperationCompleted(k: OpKey, now: int)
      modifies this`ops
      ensures State() == MarkCompleted(old(State()), k, now)
      ensures k in ops ==> Terminal(ops[k].status)
      ensures TerminalKept(old(State()), State())
    {
      if k in ops && !Terminal(ops[k].status) {
        ops := ops[k := ops[k].(status := Completed, nextRetryAt := now)];
      }
    }

    method AbandonOperations(ws: WorkspaceId, to: SubId)
      modifies this`ops
      ensures State() == AbandonFor(old(State()), ws, to)
    {
      ops := map k | k in ops :: if Abandons(k, ops[k], ws, to) then ops[k].(status := Abandoned) else ops[k];
    }

    method QueueReplacementCleanup(ws: WorkspaceId, from: Option<SubId>, to: SubId)
      modifies this`queue
      ensures State() == QueueCleanup(old(State()), ws, from, to)
      ensures from.Some? && from.value != to ==> Replace(ws, from.value, to) in queue
      ensures old(queue) <= queue
    {
      if from.Some? && from.value != to {
        queue := queue + multiset{Replace(ws, from.value, to)};
      }
    }

    method ActivateReplacement(ws: WorkspaceId, sub: ProviderSub, to: SubId, from: Option<SubId>, plan: Option<string>)
      requires ws in subs
      modifies this`subs, this`queue
      ensures State() == Activate(old(State()), ws, sub, to, from, plan)
      ensures ws in subs && subs[ws].live == Some(to) && subs[ws].pending.None?
    {
      var row := subs[ws];
      subs := subs[ws := row.(
        live := Some(to), status := "active",
        plan := GetOr(OrElse(OrElse(plan, sub.plan), row.pendingPlan), row.plan),
        pendingPlan := None, pending := None,
        periodStart := OrElse(sub.start, row.periodStart),
        periodEnd := OrElse(sub.end, row.periodEnd))];
      QueueReplacementCleanup(ws, from, to);
    }

    method RefundReplacementCredit(ws: WorkspaceId, reply: RefundReply) returns (threw: bool)
      requires ws in subs
      modifies this`subs, this`ledger
      ensures (State(), threw) == Refund(old(State()), ws, reply)
    {
      var row := subs[ws];
      if row.refundAmount == 0 { return false; }
      if row.refundStatus.Some? && row.refundStatus != Some("pending") { return false; }
      match reply
      case NoPayment => return false;
      case RefundThrew => return true;
      case Refunded(status) =>
        ledger := Pay(ledger, ws, row.refundAmount);
        subs := subs[ws := row.(refundStatus := Some(GetOr(status, "initiated")))];
        return false;
    }

    method VerifyReplacementCancellation(k: OpKey, r: Replies, now: int) returns (threw: bool)
      requires k in ops && k.Replace? && k.ws in subs
      modifies this
      ensures (State(), threw) == Verify(old(State()), k, r, now)
      ensures ledger.cancels == old(ledger.cancels)
    {
      if r.fetchOld.None? { return true; }
      if Over(r.fetchOld.value.status) {
        MarkOperationCompleted(k, now);
        threw := RefundReplacementCredit(k.ws, r.refund);
        return;
      }
      var op := ops[k];
      ops := ops[k := op.(status := CancelRequested, retryCount := op.retryCount + 1,
                          nextRetryAt := now + VerifyDelay(op.retryCount + 1))];
      return false;
    }

    method FinalizeReplaced(k: OpKey, attempt: nat, r: Replies, now: int) returns (threw: bool)
      requires k.Replace? && k.ws in subs
      modifies this
      ensures (State(), threw) == Finalize(old(State()), k, attempt, r, now)
      ensures ledger.cancels == old(ledger.cancels) || ledger.cancels == Bump(old(ledger.cancels), k)
      ensures k in old(ops) && old(ops)[k].status == CancelRequested ==> ledger.cancels == old(ledger.cancels)
    {
      if k.from == k.to { return false; }
      if k in ops && ops[k].status == CancelRequested {
        threw := VerifyReplacementCancellation(k, r, now);
        return;
      }
      if r.cancel.Deferred? || r.cancel.NotStarted? {
        UpsertReplacementOperation(k.ws, Some(k.from), Some(k.to), None, CleanupPending,
                                   Some(attempt + 1), Some(now + CleanupDelay(attempt + 1)), now);
        return false;
      }
      ledger := ledger.(cancels := Bump(ledger.cancels, k));
      if r.cancel.CancelThrew? { return true; }
      var verified := VerifiedStatus(r.cancel.returned, r.fetchOld);
      if verified.None? { return true; }
      if !Over(verified.value) {
        UpsertReplacementOperation(k.ws, Some(k.from), Some(k.to), None, CancelRequested,
                                   Some(attempt + 1), Some(now + VerifyDelay(attempt + 1)), now);
        return false;
      }
      MarkOperationCompleted(k, now);
      var swallowed := RefundReplacementCredit(k.ws, r.refund);
      return false;
    }

    method ProcessReplaceOperation(k: OpKey, r: Replies, now: int) returns (threw: bool)
      requires k in ops && k.Replace?
      modifies this
      ensures (State(), threw) == ProcessReplace(old(State()), k, r, now)
      ensures !Terminal(old(ops)[k].status) ==> Worked(old(State()), State(), k, threw)
    {
      if !Terminal(ops[k].status) {
        ProcessReplaceWorked(State(), k, r, now);
      }
      threw := RunReplace(k, r, now);
    }

    method RunReplace(k: OpKey, r: Replies, now: int) returns (threw: bool)
      requires k in ops && k.Replace?
      modifies this
      ensures (State(), threw) == ProcessReplace(old(State()), k, r, now)
    {
      var op := ops[k];
      if k.ws !in subs {
        ops := ops[k := op.(status := Abandoned)];
        return false;
      }
      if op.status == CancelRequested {
        threw := VerifyReplacementCancellation(k, r, now);
        return;
      }
      if r.fetchNew.None? { return true; }
      var status := r.fetchNew.value.status;
      if status.Active? {
        ActivateReplacement(k.ws, r.fetchNew.value, k.to, Some(k.from), op.plan);
        if k.from != k.to {
          threw := FinalizeReplaced(k, op.retryCount, r, now);
        } else {
          ops := ops[k := op.(status := Completed, nextRetryAt := now)];
          threw := false;
        }
        return;
      }
      var next := if op.status == CleanupPending then CleanupPending else Pending;
      if !PendingLike(status) {
        next := if Over(status) then Abandoned else Failed;
      }
      ops := ops[k := op.(status := next, retryCount := op.retryCount + 1,
                          nextRetryAt := now + CleanupDelay(op.retryCount + 1))];
      return false;
    }

    method CompleteCancel(k: OpKey, status: ProviderStatus, now: int)
      requires k in ops && k.Cancel?
      modifies this`ops, this`subs
      ensures State() == CancelDone(old(State()), k, status, now)
    {
      ops := ops[k := ops[k].(status := Completed, nextRetryAt := now)];
      if k.ws in subs && subs[k.ws].live == Some(k.sub) {
        subs := subs[k.ws := subs[k.ws].(status := RowStatus(status))];
      }
    }

    method ProcessCancelOperation(k: OpKey, r: Replies, now: int) returns (threw: bool)
      requires k in ops && k.Cancel?
      modifies this
      ensures (State(), threw) == ProcessCancel(old(State()), k, r, now)
      ensures !Terminal(old(ops)[k].status) ==> Worked(old(State()), State(), k, threw)
    {
      if !Terminal(ops[k].status) {
        ProcessCancelWorked(State(), k, r, now);
      }
      threw := RunCancel(k, r, now);
    }

    method RunCancel(k: OpKey, r: Replies, now: int) returns (threw: bool)
      requires k in ops && k.Cancel?
      modifies this
      ensures (State(), threw) == ProcessCancel(old(State()), k, r, now)
    {
      var op := ops[k];
      var current: Option<ProviderStatus> := None;
      if op.status == CancelRequested {
        if r.fetchOld.None? { return true; }
        current := Some(r.fetchOld.value.status);
      } else {
        if r.cancel.Deferred? || r.cancel.NotStarted? {
          ops := ops[k := Retried(op, CleanupPending, now + CleanupDelay(op.retryCount + 1))];
          return false;
        }
        ledger := ledger.(cancels := Bump(ledger.cancels, k));
        if r.cancel.CancelThrew? { return true; }
        current := VerifiedStatus(r.cancel.returned, r.fetchOld);
        if current.None? { return true; }
      }
      if Over(current.value) {
        CompleteCancel(k, current.value, now);
      } else {
        ops := ops[k := Retried(op, CancelRequested, now + VerifyDelay(op.retryCount + 1))];
      }
      return false;
    }

    /** One round of the worker's loop: claim, process, catch. */
    method ProcessOperation(k: OpKey, r: Replies, now: int)
      requires Core(State())
      modifies this
      ensures State() == WorkerPass(old(State()), k, r, now) && Good(old(State()), State())
    {
      WorkerPassGood(State(), k, r, now);
      RunPass(k, r, now);
    }

    method RunPass(k: OpKey, r: Replies, now: int)
      modifies this
      ensures State() == WorkerPass(old(State()), k, r, now)
    {
      if k !in ops || Terminal(ops[k].status) || ops[k].nextRetryAt > now {
        return;
      }
      ghost var before := State();
      var claimed := ops[k];
      var threw: bool;
      if k.Cancel? {
        threw := ProcessCancelOperation(k, r, now);
      } else {
        threw := ProcessReplaceOperation(k, r, now);
      }
      ProcessKeepsKeys(before, k, r, now);
      if threw {
        ops := ops[k := ops[k].(status := Failed, retryCount := claimed.retryCount + 1,
                                nextRetryAt := now + CleanupDelay(claimed.retryCount + 1))];
        ledger := ledger.(throws := Bump(ledger.throws, k));
      }
    }

    /** The worker's loop over the operations that `findMany` returned, each with its own replies and clock reading. */
    method ProcessOperations(due: seq<(OpKey, Replies, int)>)
      requires Core(State())
      modifies this
      ensures State() == Run(old(State()), Passes(due)) && Good(old(State()), State())
    {
      for i := 0 to |due|
        invariant State() == Run(old(State()), Passes(due[..i])) && Good(old(State()), State())
      {
        ghost var before := State();
        ProcessOperation(due[i].0, due[i].1, due[i].2);
        PassesSnoc(due, i);
        GoodTransitive(old(State()), before, State());
      }
      assert due[..|due|] == due;
    }

    method RunQueuedCleanup(k: OpKey, now: int)
      requires Core(State())
      modifies this`queue, this`ops
      ensures State() == RunCleanup(old(State()), k, now) && Good(old(State()), State())
    {
      RunCleanupGood(State(), k, now);
      if k in queue && k.Replace? {
        queue := queue - multiset{k};
        UpsertReplacementOperation(k.ws, Some(k.from), Some(k.to), None, CleanupPending,
                                   Some(0), Some(now + CleanupDelay(0)), now);
      }
    }

    method CleanupDuplicates(ws: WorkspaceId, row: Row, listing: seq<Listed>, now: int)
      modifies this`ops
      ensures State() == CleanUp(old(State()), ws, row, listing, now)
    {
      if row.live.None? || !row.customer || row.status != "active" { return; }
      var keep := row.live.value;
      var dups := FirstTen(Duplicates(listing, keep, row.pending));
      for i := 0 to |dups|
        invariant State() == CancelDuplicates(old(State()), ws, keep, dups[..i], now)
      {
        assert dups[..i + 1][..i] == dups[..i];
        var k := Replace(ws, dups[i], keep);
        if k in ops && !Terminal(ops[k].status) { continue; }
        UpsertCancelOperation(ws, dups[i], false, now);
      }
      assert dups[..|dups|] == dups;
    }

    method ReconcileSubscription(ws: WorkspaceId, r: ReconcileReplies, now: int)
      requires Core(State())
      modifies this
      ensures State() == Reconcile(old(State()), ws, r, now) && Good(old(State()), State())
    {
      ReconcileGood(State(), ws, r, now);
      RunReconcile(ws, r, now);
    }

    method RunReconcile(ws: WorkspaceId, r: ReconcileReplies, now: int)
      modifies this
      ensures State() == Reconcile(old(State()), ws, r, now)
    {
      if ws !in subs { return; }
      if subs[ws].live.Some? {
        if r.sync.None? { return; }
        subs := subs[ws := Synced(subs[ws], r.sync.value)];
      }
      var row := subs[ws];
      assert State() == PutRow(old(State()), ws, row);
      if row.pending.Some? {
        if r.pending.None? { return; }
        var status := r.pending.value.status;
        if status.Active? {
          ActivateReplacement(ws, r.pending.value, row.pending.value, row.live, row.pendingPlan);
        } else if PendingLike(status) {
          UpsertReplacementOperation(ws, row.live, row.pending, row.pendingPlan, Pending, None, None, now);
        } else if Over(status) {
          subs := subs[ws := row.(pending := None, pendingPlan := None)];
          AbandonOperations(ws, row.pending.value);
        }
      }
      ghost var settled := State();
      CleanupDuplicates(ws, row, r.listing, now);
      if row.refundStatus == Some("pending") && row.live.Some?
         && ReplacedBy(Db(subs, ops, queue, nextSub, ledger), ws, row.live.value) != {} {
        var swallowed := RefundReplacementCredit(ws, r.refund);
      }
      assert State() == ReconcileRest(settled, ws, row, r, now);
    }

    method StartFreshCheckout(ws: WorkspaceId, plan: string)
      modifies this`subs, this`nextSub
      ensures State() == FreshCheckout(old(State()), ws, plan)
    {
      var row := if ws in subs then subs[ws] else TrialRow();
      subs := subs[ws := row.(live := None, pending := Some(nextSub), pendingPlan := Some(plan), customer := true)];
      nextSub := nextSub + 1;
    }

    method CreateRazorpayCheckout(ws: WorkspaceId, plan: string, fetchPending: Fetched, fetchReuse: Fetched)
      requires Core(State())
      modifies this
      ensures State() == Checkout(old(State()), ws, plan, fetchPending, fetchReuse) && Good(old(State()), State())
    {
      CheckoutGood(State(), ws, plan, fetchPending, fetchReuse);
      RunCheckout(ws, plan, fetchPending, fetchReuse);
    }

    method RunCheckout(ws: WorkspaceId, plan: string, fetchPending: Fetched, fetchReuse: Fetched)
      modifies this
      ensures State() == Checkout(old(State()), ws, plan, fetchPending, fetchReuse)
    {
      if ws !in subs {
        StartFreshCheckout(ws, plan);
        return;
      }
      var existing := subs[ws];
      if existing.pending.Some? && existing.pendingPlan != Some(plan) {
        if fetchPending.None? { return; }
        var status := fetchPending.value.status;
        if status.Active? {
          ActivateReplacement(ws, fetchPending.value, existing.pending.value, existing.live, existing.pendingPlan);
          return;
        }
        if PendingLike(status) { return; }
        if Over(status) {
          subs := subs[ws := existing.(pending := None, pendingPlan := None)];
        }
      }
      var same := existing.pending.Some? && existing.pendingPlan == Some(plan);
      var reuse := if same then existing.pending else existing.live;
      if reuse.Some? && fetchReuse.Some? && Reusable(fetchReuse.value, plan) {
        var row := subs[ws];
        if fetchReuse.value.status.Active? {
          subs := subs[ws := row.(live := reuse, plan := plan, status := "active", pending := None,
                                  pendingPlan := None)];
        } else {
          var live := if existing.live == reuse then None else row.live;
          subs := subs[ws := row.(live := live, pending := reuse, pendingPlan := Some(plan))];
        }
        return;
      }
      StartFreshCheckout(ws, plan);
    }

    method StartPlanReplacement(ws: WorkspaceId, plan: string, now: int)
      requires ws in subs
      modifies this
      ensures State() == StartReplacement(old(State()), ws, plan, now)
    {
      var row := subs[ws];
      var credit := Proration.ProratedCredit(row.plan, row.periodStart, row.periodEnd, now);
      var created := nextSub;
      nextSub := nextSub + 1;
      ledger := ledger.(credits := ledger.credits + [Credit(credit, 0, 0)],
                        latest := ledger.latest[ws := |ledger.credits|]);
      subs := subs[ws := row.(pending := Some(created), pendingPlan := Some(plan), refundAmount := credit,
                              refundStatus := if credit > 0 then Some("pending") else None)];
      UpsertReplacementOperation(ws, row.live, Some(created), Some(plan), Pending, None, None, now);
    }

    method HandlePlanChange(ws: WorkspaceId, plan: string, fetchPending: Fetched, now: int)
      requires Core(State())
      modifies this
      ensures State() == ChangePlan(old(State()), ws, plan, fetchPending, now) && Good(old(State()), State())
    {
      ChangePlanGood(State(), ws, plan, fetchPending, now);
      RunPlanChange(ws, plan, fetchPending, now);
    }

    method RunPlanChange(ws: WorkspaceId, plan: string, fetchPending: Fetched, now: int)
      modifies this
      ensures State() == ChangePlan(old(State()), ws, plan, fetchPending, now)
    {
      if !PaidPlan(plan) || ws !in subs || subs[ws].live.None? { return; }
      var row := subs[ws];
      if row.pending.Some? && row.pendingPlan != Some(plan) {
        if fetchPending.None? || PendingLike(fetchPending.value.status) { return; }
        if fetchPending.value.status.Active? {
          ActivateReplacement(ws, fetchPending.value, row.pending.value, row.live, row.pendingPlan);
          return;
        }
        subs := subs[ws := row.(pending := None, pendingPlan := None)];
      }
      if row.pending.Some? && row.pendingPlan == Some(plan) {
        if fetchPending.None? { return; }
        if fetchPending.value.status.Active? {
          subs := subs[ws := row.(live := row.pending, plan := plan, status := "active", pending := None,
                                  pendingPlan := None)];
          QueueReplacementCleanup(ws, row.live, row.pending.value);
          return;
        }
        if PendingLike(fetchPending.value.status) {
          UpsertReplacementOperation(ws, row.live, row.pending, Some(plan), Pending, None, None, now);
          return;
        }
        subs := subs[ws := row.(pending := None, pendingPlan := None)];
      }
      StartPlanReplacement(ws, plan, now);
    }

    /** `createCheckout` for this provider: a paying workspace changes its plan, any other one checks out. */
    method StartCheckout(ws: WorkspaceId, plan: string, fetchPending: Fetched, fetchReuse: Fetched, now: int)
      requires Core(State())
      modifies this
      ensures State() == CreateCheckout(old(State()), ws, plan, fetchPending, fetchReuse, now)
      ensures Good(old(State()), State())
    {
      if !PaidPlan(plan) { return; }
      if ws in subs && subs[ws].plan != "trial" && subs[ws].status == "active" && subs[ws].live.Some? {
        HandlePlanChange(ws, plan, fetchPending, now);
      } else {
        CreateRazorpayCheckout(ws, plan, fetchPending, fetchReuse);
      }
    }

    method CancelSubscription(ws: WorkspaceId, now: int)
      requires Core(State())
      modifies this`ops
      ensures State() == CancelPlan(old(State()), ws, now) && Good(old(State()), State())
    {
      if ws in subs && subs[ws].live.Some? {
        UpsertCancelGood(State(), ws, subs[ws].live.value, true, now);
        UpsertCancelOperation(ws, subs[ws].live.value, true, now);
      }
    }

    /** `handleRazorpayWebhook`, for the events that touch subscriptions. */
    method HandleWebhook(s: Step)
      requires s.Activated? || s.StatusChanged? || s.Captured? || s.PaymentFailed? || s.RefundProcessed?
      requires Core(State())
      modifies this
      ensures State() == Apply(old(State()), s) && Good(old(State()), State())
    {
      StepGood(State(), s);
      RunWebhook(s);
    }

    method RunWebhook(s: Step)
      requires s.Activated? || s.StatusChanged? || s.Captured? || s.PaymentFailed? || s.RefundProcessed?
      modifies this
      ensures State() == Apply(old(State()), s)
    {
      if s.ws !in subs { return; }
      var row := subs[s.ws];
      if s.RefundProcessed? {
        subs := subs[s.ws := row.(refundStatus := Some("processed"))];
        return;
      }
      var replacing := row.pending == Some(s.sub);
      if !replacing && row.live != Some(s.sub) { return; }
      if replacing && (s.PaymentFailed? || (s.StatusChanged? && Over(s.status))) {
        subs := subs[s.ws := row.(pending := None, pendingPlan := None)];
        AbandonOperations(s.ws, s.sub);
        return;
      }
      if s.PaymentFailed? {
        subs := subs[s.ws := row.(status := "past_due")];
        return;
      }
      if replacing && s.StatusChanged? && !ActiveLike(s.status) {
        UpsertReplacementOperation(s.ws, row.live, row.pending, row.pendingPlan, Pending, None, None, s.now);
        return;
      }
      var status := if s.StatusChanged? then RowStatus(s.status) else "active";
      if replacing {
        var noted := if s.Captured? then None else s.note;
        subs := subs[s.ws := row.(live := Some(s.sub), status := status, pending := None, pendingPlan := None,
                                  plan := GetOr(OrElse(row.pendingPlan, noted), row.plan))];
        QueueReplacementCleanup(s.ws, row.live, s.sub);
      } else {
        var plan := GetOr(OrElse(s.note, row.pendingPlan), row.plan);
        var clear := s.Activated? || row.pendingPlan == Some(plan);
        var pendingPlan := if clear then None else row.pendingPlan;
        subs := subs[s.ws := row.(status := status, plan := plan, pendingPlan := pendingPlan)];
      }
    }
  }

  ghost function Passes(due: seq<(OpKey, Replies, int)>): seq<Step> {
    seq(|due|, i requires 0 <= i < |due| => DoWorkerPass(due[i].0, due[i].1, due[i].2))
  }

  lemma PassesSnoc(due: seq<(OpKey, Replies, int)>, i: nat)
    requires i < |due|
    ensures Passes(due[..i + 1]) == Passes(due[..i]) + [DoWorkerPass(due[i].0, due[i].1, due[i].2)]
    ensures Passes(due[..i + 1])[..i] == Passes(due[..i])
  {
  }
}
