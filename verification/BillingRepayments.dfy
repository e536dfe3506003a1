/** When a credit is refunded twice, told from the trace. */
module BillingRepayments {
  import opened Common
  import opened OperationStatus
  import opened BillingModel
  import opened BillingRefunds

  /** The guards under which a plan change records a new credit. */
  predicate StartsCredit(db: Db, ws: WorkspaceId, plan: string, fetchPending: Fetched) {
    && PaidPlan(plan) && ws in db.subs && db.subs[ws].live.Some?
    && (db.subs[ws].pending.None? || !StillOpen(fetchPending))
  }

  /** The workspace for which a step records a new credit. */
  function NewCredit(db: Db, s: Step): (ws: Option<WorkspaceId>)
    ensures ws.Some? ==> ws.value in db.subs && RefundCall(db, s).None?
  {
    match s
    case DoChangePlan(ws, plan, p, _) => if StartsCredit(db, ws, plan, p) then Some(ws) else None
    case DoCheckout(ws, plan, p, _, _) =>
      if HasActivePaidSubscription(db, ws) && StartsCredit(db, ws, plan, p) then Some(ws) else None
    case _ => None
  }

  const PENDING := Refunded(Some("pending"))

  /** The provider's reply to the last payment for a workspace since its last new credit. */
  function LastReply(steps: seq<Step>, ws: WorkspaceId): Option<RefundReply> {
    if steps == [] then None
    else
      var before, s := steps[..|steps| - 1], steps[|steps| - 1];
      var db := Run(EMPTY, before);
      var c := RefundCall(db, s);
      if NewCredit(db, s) == Some(ws) then None
      else if Pays(db, c) && c.value.0 == ws then Some(c.value.1)
      else LastReply(before, ws)
  }

  // ---------------------------------------------------------------- what a step does to the money

  /** A new credit was recorded for the workspace, and that is all that happened to refunds. */
  ghost predicate Renewed(db: Db, d: Db, ws: WorkspaceId)
    requires ws in db.subs
  {
    && d.subs.Keys == db.subs.Keys
    && d.ledger.credits == db.ledger.credits + [Credit(d.subs[ws].refundAmount, 0, 0)]
    && d.ledger.latest == db.ledger.latest[ws := |db.ledger.credits|] && d.ledger.refunded == db.ledger.refunded
    && forall w | w in db.subs && w != ws :: SameRefund(db.subs[w], d.subs[w])
  }

  type Call = Option<(WorkspaceId, RefundReply)>

  ghost predicate Effect(db: Db, d: Db, c: Call, renewal: Option<WorkspaceId>)
    requires (c.Some? ==> c.value.0 in db.subs) && (renewal.Some? ==> renewal.value in db.subs)
  {
    if Pays(db, c) then PaidOut(db, d, c.value.0, c.value.1)
    else if renewal.Some? then Renewed(db, d, renewal.value)
    else Untouched(db, d)
  }

  lemma StartRenews(db: Db, ws: WorkspaceId, plan: string, now: int)
    requires ws in db.subs
    ensures Renewed(db, StartReplacement(db, ws, plan, now), ws)
  {
  }

  /** Dropping the pending subscription first does not matter to refunds. */
  lemma DroppedRenews(db: Db, ws: WorkspaceId, plan: string, now: int)
    requires ws in db.subs
    ensures Renewed(db, StartReplacement(PutRow(db, ws, WithoutPending(db.subs[ws])), ws, plan, now), ws)
  {
    StartRenews(PutRow(db, ws, WithoutPending(db.subs[ws])), ws, plan, now);
  }

  lemma ChangePlanEffect(db: Db, ws: WorkspaceId, plan: string, p: Fetched, now: int)
    ensures Effect(db, ChangePlan(db, ws, plan, p, now), None, NewCredit(db, DoChangePlan(ws, plan, p, now)))
  {
    if PaidPlan(plan) && ws in db.subs && db.subs[ws].live.Some? {
      if db.subs[ws].pending.None? {
        StartRenews(db, ws, plan, now);
      } else if StillOpen(p) {
        OpenChangeUntouched(db, ws, plan, p, now);
      } else {
        DroppedRenews(db, ws, plan, now);
      }
    }
  }

  lemma CheckoutEffect(db: Db, s: Step)
    requires s.DoCheckout?
    ensures Effect(db, Apply(db, s), None, NewCredit(db, s))
  {
    if PaidPlan(s.plan) {
      if HasActivePaidSubscription(db, s.ws) {
        ChangePlanEffect(db, s.ws, s.plan, s.fetchPending, s.now);
      } else {
        CheckoutUntouched(db, s.ws, s.plan, s.fetchPending, s.fetchReuse);
      }
    }
  }

  lemma StepEffect(db: Db, s: Step)
    ensures Effect(db, Apply(db, s), RefundCall(db, s), NewCredit(db, s))
  {
    match s
    case DoWorkerPass(k, r, now) => WorkerPassSettles(db, k, r, now);
    case DoReconcile(ws, r, now) => ReconcileSettles(db, ws, r, now);
    case DoChangePlan(ws, plan, p, now) => ChangePlanEffect(db, ws, plan, p, now);
    case DoCheckout(_, _, _, _, _) => CheckoutEffect(db, s);
    case DoTrial(ws, start, end) => TrialUntouched(db, ws, start, end);
    case DoCancelPlan(ws, now) => CancelPlanUntouched(db, ws, now);
    case DoRunCleanup(k, now) => RunCleanupUntouched(db, k, now);
    case RefundProcessed(ws) => RefundProcessedUntouched(db, ws);
    case _ => WebhooksUntouched(db, s);
  }

  // ---------------------------------------------------------------- the ledger follows the trace

  /** Different workspaces have different latest credits. */
  ghost predicate LatestDistinct(l: Ledger) {
    && (forall w | w in l.latest :: l.latest[w] < |l.credits|)
    && (forall a, b | a in l.latest && b in l.latest && l.latest[a] == l.latest[b] :: a == b)
  }

  /** What the last reply tells about the latest credit and the row of a workspace. */
  ghost predicate Told(db: Db, ws: WorkspaceId, last: Option<RefundReply>) {
    && (LatestRefunds(db.ledger, ws) >= 1 <==> last.Some?)
    && (ws in db.subs && Refundable(db.subs[ws]) && last.Some? ==> last == Some(PENDING))
  }

  function Next(ws: WorkspaceId, last: Option<RefundReply>, pays: bool, c: Call, renewal: Option<WorkspaceId>):
    Option<RefundReply>
    requires pays ==> c.Some?
  {
    if renewal == Some(ws) then None else if pays && c.value.0 == ws then Some(c.value.1) else last
  }

  lemma EffectDistinct(db: Db, d: Db, c: Call, renewal: Option<WorkspaceId>)
    requires (c.Some? ==> c.value.0 in db.subs) && (renewal.Some? ==> renewal.value in db.subs)
    requires Effect(db, d, c, renewal) && LatestDistinct(db.ledger)
    ensures LatestDistinct(d.ledger)
  {
  }

  lemma PaidTells(db: Db, d: Db, c: Call, ws: WorkspaceId, last: Option<RefundReply>)
    requires c.Some? && c.value.0 in db.subs && Pays(db, c) && PaidOut(db, d, c.value.0, c.value.1)
    requires LatestDistinct(db.ledger) && CreditsLinked(db) && Told(db, ws, last)
    ensures Told(d, ws, Next(ws, last, true, c, None))
  {
    var l := db.ledger;
    if c.value.0 == ws {
      assert LatestRefunds(d.ledger, ws) == LatestRefunds(l, ws) + 1;
    } else {
      assert LatestRefunds(d.ledger, ws) == LatestRefunds(l, ws);
    }
  }

  lemma RenewedTells(db: Db, d: Db, renewal: WorkspaceId, ws: WorkspaceId, last: Option<RefundReply>)
    requires renewal in db.subs && Renewed(db, d, renewal) && LatestDistinct(db.ledger) && Told(db, ws, last)
    ensures Told(d, ws, if renewal == ws then None else last)
  {
    assert renewal != ws ==> LatestRefunds(d.ledger, ws) == LatestRefunds(db.ledger, ws);
  }

  lemma UntouchedTells(db: Db, d: Db, ws: WorkspaceId, last: Option<RefundReply>)
    requires Untouched(db, d) && Told(db, ws, last)
    ensures Told(d, ws, last)
  {
  }

  lemma EffectTells(db: Db, d: Db, c: Call, renewal: Option<WorkspaceId>, ws: WorkspaceId, last: Option<RefundReply>)
    requires (c.Some? ==> c.value.0 in db.subs) && (renewal.Some? ==> renewal.value in db.subs && c.None?)
    requires Effect(db, d, c, renewal) && LatestDistinct(db.ledger) && CreditsLinked(db) && Told(db, ws, last)
    ensures Told(d, ws, Next(ws, last, Pays(db, c), c, renewal))
  {
    if Pays(db, c) {
      PaidTells(db, d, c, ws, last);
    } else if renewal.Some? {
      RenewedTells(db, d, renewal.value, ws, last);
    } else {
      UntouchedTells(db, d, ws, last);
    }
  }

  lemma {:induction false} RunTells(steps: seq<Step>, ws: WorkspaceId)
    ensures LatestDistinct(Run(EMPTY, steps).ledger) && Told(Run(EMPTY, steps), ws, LastReply(steps, ws))
    decreases |steps|
  {
    if steps != [] {
      var before, s := steps[..|steps| - 1], steps[|steps| - 1];
      var db := Run(EMPTY, before);
      RunTells(before, ws);
      RunLinked(before);
      StepEffect(db, s);
      EffectDistinct(db, Apply(db, s), RefundCall(db, s), NewCredit(db, s));
      EffectTells(db, Apply(db, s), RefundCall(db, s), NewCredit(db, s), ws, LastReply(before, ws));
    }
  }

  // ---------------------------------------------------------------- main results

  /** The last step of the trace pays a workspace whose last payment for the same credit was answered `pending`. */
  predicate Repays(steps: seq<Step>)
    requires steps != []
  {
    var before, s := steps[..|steps| - 1], steps[|steps| - 1];
    var db := Run(EMPTY, before);
    var c := RefundCall(db, s);
    Pays(db, c) && LastReply(before, c.value.0) == Some(PENDING)
  }

  /**
   * In every run a step refunds a credit that was refunded before exactly if it pays and the provider answered the last
   * payment for that workspace, with no new credit since, by `pending`.
   */
  lemma RepaysIff(steps: seq<Step>, s: Step)
    ensures RefundedAgain(Run(EMPTY, steps).ledger, Apply(Run(EMPTY, steps), s).ledger) <==> Repays(steps + [s])
  {
    var db := Run(EMPTY, steps);
    var c := RefundCall(db, s);
    assert (steps + [s])[..|steps|] == steps && (steps + [s])[|steps|] == s;
    PaysAgainIff(steps, s);
    if Pays(db, c) {
      RunTells(steps, c.value.0);
    }
  }

  ghost predicate PaidTwice(l: Ledger) {
    exists i | 0 <= i < |l.credits| :: l.credits[i].refunds >= 2
  }

  /** Credits are paid twice by steps that refund again, and stay so. */
  lemma TwiceAfter(db: Db, d: Db, c: Call, renewal: Option<WorkspaceId>)
    requires (c.Some? ==> c.value.0 in db.subs) && (renewal.Some? ==> renewal.value in db.subs)
    requires Effect(db, d, c, renewal) && CreditsLinked(db)
    ensures PaidTwice(d.ledger) <==> PaidTwice(db.ledger) || RefundedAgain(db.ledger, d.ledger)
  {
    var a, b := db.ledger.credits, d.ledger.credits;
    assert forall i | 0 <= i < |a| :: i < |b| && b[i].refunds >= a[i].refunds;
    assert forall i | 0 <= i < |a| :: b[i].refunds <= a[i].refunds + 1;
    assert forall i | |a| <= i < |b| :: b[i].refunds == 0;
    if PaidTwice(d.ledger) {
      var i :| 0 <= i < |b| && b[i].refunds >= 2;
      assert i < |a|;
    }
    if PaidTwice(db.ledger) {
      var i :| 0 <= i < |a| && a[i].refunds >= 2;
      assert b[i].refunds >= 2;
    }
  }

  /** Over a whole run some credit is refunded twice exactly if some step of it repays. */
  lemma {:induction false} CreditPaidTwiceIff(steps: seq<Step>)
    ensures PaidTwice(Run(EMPTY, steps).ledger) <==> exists n | 0 < n <= |steps| :: Repays(steps[..n])
    decreases |steps|
  {
    if steps != [] {
      var before, s := steps[..|steps| - 1], steps[|steps| - 1];
      var db := Run(EMPTY, before);
      CreditPaidTwiceIff(before);
      RunLinked(before);
      StepEffect(db, s);
      TwiceAfter(db, Apply(db, s), RefundCall(db, s), NewCredit(db, s));
      RepaysIff(before, s);
      PrefixRepays(steps);
    }
  }

  lemma PrefixRepays(steps: seq<Step>)
    requires steps != []
    ensures var before := steps[..|steps| - 1];
            (exists n | 0 < n <= |steps| :: Repays(steps[..n]))
            <==> (exists n | 0 < n <= |before| :: Repays(before[..n])) || Repays(before + [steps[|steps| - 1]])
  {
    var before := steps[..|steps| - 1];
    assert before + [steps[|steps| - 1]] == steps == steps[..|steps|];
    assert forall n | 0 < n <= |before| :: before[..n] == steps[..n];
    if m :| 0 < m <= |before| && Repays(before[..m]) {
      assert Repays(steps[..m]);
    }
    if m :| 0 < m <= |steps| && Repays(steps[..m]) {
      assert m < |steps| ==> Repays(before[..m]);
    }
  }
}
