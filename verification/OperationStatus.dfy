/** The status of a Razorpay subscription operation and the rule by which upserts move it. */
module OperationStatus {
  import opened Common

  /** `Retrying` is the legacy status that the worker still picks up. */
  datatype OpStatus =
    | Pending | CleanupPending | CancelRequested
    | Completed | Abandoned | Failed | Retrying

  predicate Terminal(s: OpStatus) {
    s.Completed? || s.Abandoned?
  }

  /** The three statuses that any caller of an upsert asks for. */
  predicate Requestable(s: OpStatus) {
    s.Pending? || s.CleanupPending? || s.CancelRequested?
  }

  /** Progress of an operation; `Failed` and `Retrying` are the bottom. */
  function Rank(s: OpStatus): nat {
    match s
    case Failed | Retrying => 0
    case Pending => 1
    case CleanupPending => 2
    case CancelRequested => 3
    case Completed | Abandoned => 4
  }

  function NextStatus(existing: Option<OpStatus>, requested: OpStatus): OpStatus {
    if existing.Some? && Terminal(existing.value) then
      existing.value
    else if existing == Some(CancelRequested) && !Terminal(requested) && requested != Failed then
      CancelRequested
    else if existing == Some(CleanupPending) && requested == Pending then
      CleanupPending
    else
      requested
  }

  /** The status after a sequence of upserts, one after the other. */
  function AfterUpserts(start: Option<OpStatus>, requests: seq<OpStatus>): Option<OpStatus>
    decreases |requests|
  {
    if requests == [] then start
    else AfterUpserts(Some(NextStatus(start, requests[0])), requests[1..])
  }

  lemma {:induction false} AfterUpsertsSnoc(start: Option<OpStatus>, requests: seq<OpStatus>, r: OpStatus)
    ensures AfterUpserts(start, requests + [r]) == Some(NextStatus(AfterUpserts(start, requests), r))
    decreases |requests|
  {
    if requests != [] {
      AfterUpsertsSnoc(Some(NextStatus(start, requests[0])), requests[1..], r);
      assert (requests + [r])[1..] == requests[1..] + [r];
    } else {
      assert ([] + [r])[1..] == [];
      assert AfterUpserts(start, [r]) == AfterUpserts(Some(NextStatus(start, r)), []);
    }
  }

  predicate AllRequestable(requests: seq<OpStatus>) {
    forall i | 0 <= i < |requests| :: Requestable(requests[i])
  }

  /** `s` is the highest status among a start and a list of requests. */
  predicate IsHighest(s: OpStatus, start: Option<OpStatus>, requests: seq<OpStatus>) {
    && (s in requests || start == Some(s))
    && (forall i | 0 <= i < |requests| :: Rank(requests[i]) <= Rank(s))
    && (start.Some? ==> Rank(start.value) <= Rank(s))
  }

  /**
   * Upserts compute a maximum: after any non-empty sequence of requests a live operation holds
   * the highest status among its start and the requests.
   */
  lemma {:induction false} UpsertsReachTheMaximum(start: Option<OpStatus>, requests: seq<OpStatus>)
    requires start.Some? ==> !Terminal(start.value)
    requires requests != [] && AllRequestable(requests)
    ensures var s := AfterUpserts(start, requests);
            s.Some? && Requestable(s.value) && IsHighest(s.value, start, requests)
    decreases |requests|
  {
    var n := |requests| - 1;
    var front, last := requests[..n], requests[n];
    assert requests == front + [last];
    AfterUpsertsSnoc(start, front, last);
    if front != [] {
      UpsertsReachTheMaximum(start, front);
    }
  }

  /** Neither the order nor the number of repetitions of the requests matters. */
  lemma UpsertOrderIsIrrelevant(start: Option<OpStatus>, a: seq<OpStatus>, b: seq<OpStatus>)
    requires start.Some? ==> !Terminal(start.value)
    requires a != [] && AllRequestable(a)
    requires forall r :: r in a <==> r in b
    ensures AfterUpserts(start, a) == AfterUpserts(start, b)
  {
    assert a[0] in b;
    assert forall i | 0 <= i < |b| :: b[i] in a;
    UpsertsReachTheMaximum(start, a);
    UpsertsReachTheMaximum(start, b);
  }

  /** No sequence of requests of any kind leaves a terminal status. */
  lemma {:induction false} UpsertsKeepTerminal(start: OpStatus, requests: seq<OpStatus>)
    requires Terminal(start)
    ensures AfterUpserts(Some(start), requests) == Some(start)
    decreases |requests|
  {
    if requests != [] {
      UpsertsKeepTerminal(start, requests[1..]);
    }
  }
}
