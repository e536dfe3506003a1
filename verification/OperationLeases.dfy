/** Cron workers that interleave at the claim and the release of a subscription operation. */
module OperationLeases {
  import opened Common
  import opened OperationStatus

  type OpId = nat
  type WorkerId = nat

  /** Five minutes, in milliseconds. */
  const LEASE := 300_000

  /** The columns of an operation that a claim looks at. */
  datatype LockRow = LockRow(status: OpStatus, nextRetryAt: int, lockExpiresAt: Option<int>)

  /** A worker that has claimed an operation and has not released it yet. */
  datatype Pass = Pass(op: OpId, since: int)

  datatype World = World(rows: map<OpId, LockRow>, passes: map<WorkerId, Pass>, now: int)

  /** The `where` of the claiming `updateMany`. */
  predicate Claimable(row: LockRow, seen: OpStatus, now: int) {
    row.status == seen && row.nextRetryAt <= now && (row.lockExpiresAt.None? || row.lockExpiresAt.value < now)
  }

  /** `Touch` is any update of an operation by its pass or by a handler: the lock columns stay. */
  datatype Step =
    | Claim(worker: WorkerId, op: OpId, seen: OpStatus)
    | Touch(op: OpId, status: OpStatus, nextRetryAt: int)
    | Release(worker: WorkerId)

  function Apply(w: World, s: Step): World {
    match s
    case Claim(worker, op, seen) =>
      if worker !in w.passes && op in w.rows && Claimable(w.rows[op], seen, w.now) then
        w.(rows := w.rows[op := w.rows[op].(lockExpiresAt := Some(w.now + LEASE))],
           passes := w.passes[worker := Pass(op, w.now)])
      else w
    case Touch(op, status, nextRetryAt) =>
      var lock := if op in w.rows then w.rows[op].lockExpiresAt else None;
      w.(rows := w.rows[op := LockRow(status, nextRetryAt, lock)])
    case Release(worker) =>
      if worker in w.passes then
        var op := w.passes[worker].op;
        w.(rows := if op in w.rows then w.rows[op := w.rows[op].(lockExpiresAt := None)] else w.rows,
           passes := w.passes - {worker})
      else w
  }

  /** Steps with the clock readings at which they happen; the clock never goes back. */
  function Run(w: World, steps: seq<(nat, Step)>): World
    decreases |steps|
  {
    if steps == [] then w
    else
      var before := Run(w, steps[..|steps| - 1]);
      var (delay, s) := steps[|steps| - 1];
      Apply(Later(before, delay), s)
  }

  function Later(w: World, delay: nat): World {
    w.(now := w.now + delay)
  }

  /** No pass has outlasted its lease. */
  ghost predicate Punctual(w: World) {
    forall worker | worker in w.passes :: w.now <= w.passes[worker].since + LEASE
  }

  /** No pass outlasts its lease at any point of the run. */
  ghost predicate PunctualRun(w: World, steps: seq<(nat, Step)>)
    decreases |steps|
  {
    steps == [] ||
    var n := |steps| - 1;
    PunctualRun(w, steps[..n]) && Punctual(Later(Run(w, steps[..n]), steps[n].0))
  }

  ghost predicate Exclusive(w: World) {
    forall a, b | a in w.passes && b in w.passes && w.passes[a].op == w.passes[b].op :: a == b
  }

  /** Every pass still holds the lock that its claim wrote. */
  ghost predicate Held(w: World) {
    forall worker | worker in w.passes ::
      var p := w.passes[worker];
      p.op in w.rows && w.rows[p.op].lockExpiresAt == Some(p.since + LEASE)
  }

  lemma StepExclusive(w: World, s: Step)
    requires Exclusive(w) && Held(w) && Punctual(w)
    ensures Exclusive(Apply(w, s)) && Held(Apply(w, s))
  {
  }

  /** At most one worker processes an operation at any instant, if no pass outlasts its lease. */
  lemma {:induction false} AtMostOneWorker(rows: map<OpId, LockRow>, now: int, steps: seq<(nat, Step)>)
    requires PunctualRun(World(rows, map[], now), steps)
    ensures Exclusive(Run(World(rows, map[], now), steps)) && Held(Run(World(rows, map[], now), steps))
    decreases |steps|
  {
    var start := World(rows, map[], now);
    if steps != [] {
      var n := |steps| - 1;
      AtMostOneWorker(rows, now, steps[..n]);
      StepExclusive(Later(Run(start, steps[..n]), steps[n].0), steps[n].1);
    }
  }

  /**
   * A claim succeeds exactly if the operation still has the status it was listed with, is due, and its lock is absent
   * or has run out; it then locks the operation for five minutes. Nothing else changes.
   */
  lemma ClaimOutcome(w: World, worker: WorkerId, op: OpId, seen: OpStatus)
    requires worker !in w.passes
    ensures var next := Apply(w, Claim(worker, op, seen));
            && (worker in next.passes
                <==> && op in w.rows && w.rows[op].status == seen && w.rows[op].nextRetryAt <= w.now
                     && (w.rows[op].lockExpiresAt == None || w.rows[op].lockExpiresAt.value < w.now))
            && (worker in next.passes ==>
                  && next.rows[op].lockExpiresAt == Some(w.now + 300_000) && next.rows == w.rows[op := next.rows[op]]
                  && next.rows[op].status == seen && next.rows[op].nextRetryAt == w.rows[op].nextRetryAt
                  && next.passes == w.passes[worker := Pass(op, w.now)] && next.now == w.now)
            && (worker !in next.passes ==> next == w)
  {
  }

  /** A release clears the lock of the operation, and only that. */
  lemma ReleaseOutcome(w: World, worker: WorkerId)
    requires worker in w.passes && w.passes[worker].op in w.rows
    ensures var next, op := Apply(w, Release(worker)), w.passes[worker].op;
            && next.rows.Keys == w.rows.Keys
            && next.rows[op] == LockRow(w.rows[op].status, w.rows[op].nextRetryAt, None)
            && (forall o | o in w.rows && o != op :: next.rows[o] == w.rows[o])
            && worker !in next.passes && next.passes == w.passes - {worker} && next.now == w.now
  {
  }

  /** A second claim of an operation in process succeeds exactly when the lease has run out. */
  lemma SecondClaimIff(w: World, first: WorkerId, second: WorkerId)
    requires Held(w) && first in w.passes && second !in w.passes
    requires w.rows[w.passes[first].op].nextRetryAt <= w.now
    ensures var op := w.passes[first].op;
            var next := Apply(w, Claim(second, op, w.rows[op].status));
            second in next.passes <==> w.now > w.passes[first].since + LEASE
  {
  }

  /** A release leaves every other pass its lock exactly when no other pass is on the same operation. */
  lemma ReleaseKeepsLocksIff(w: World, worker: WorkerId)
    requires Held(w) && worker in w.passes
    ensures Held(Apply(w, Release(worker)))
       <==> forall other | other in w.passes && other != worker :: w.passes[other].op != w.passes[worker].op
  {
    var next, op := Apply(w, Release(worker)), w.passes[worker].op;
    if other :| other in w.passes && other != worker && w.passes[other].op == op {
      assert other in next.passes && next.rows[op].lockExpiresAt == None;
    }
  }

  lemma RunSnoc(w: World, steps: seq<(nat, Step)>, delay: nat, s: Step)
    ensures Run(w, steps + [(delay, s)]) == Apply(Later(Run(w, steps), delay), s)
  {
    assert (steps + [(delay, s)])[..|steps|] == steps;
  }

  /** The release of a pass that ran out of time opens the lock of the punctual pass that followed it. */
  lemma LateReleaseOpensAnothersLock() returns (steps: seq<(nat, Step)>)
    ensures var w := Run(World(map[0 := LockRow(Pending, 0, None)], map[], 0), steps);
            2 in w.passes && 3 in w.passes && w.passes[2].op == w.passes[3].op && Punctual(w)
  {
    var w0 := World(map[0 := LockRow(Pending, 0, None)], map[], 0);
    var c1, c2, r1, c3 := Claim(1, 0, Pending), Claim(2, 0, Pending), Release(1), Claim(3, 0, Pending);
    var w1 := Apply(Later(w0, 0), c1);
    var w2 := Apply(Later(w1, LEASE + 1), c2);
    var w3 := Apply(Later(w2, 1), r1);
    var w4 := Apply(Later(w3, 1), c3);
    assert w4.passes == map[2 := Pass(0, LEASE + 1), 3 := Pass(0, LEASE + 3)];
    RunSnoc(w0, [], 0, c1);
    var s1 := [] + [(0, c1)];
    RunSnoc(w0, s1, LEASE + 1, c2);
    var s2 := s1 + [(LEASE + 1, c2)];
    RunSnoc(w0, s2, 1, r1);
    var s3 := s2 + [(1, r1)];
    RunSnoc(w0, s3, 1, c3);
    steps := s3 + [(1, c3)];
  }

  // ---------------------------------------------------------------- the table itself

  /** The lock columns, and who is processing what; every call reads a clock that does not go back. */
  class LockTable {
    var rows: map<OpId, LockRow>
    ghost var passes: map<WorkerId, Pass>

    ghost function At(now: int): World
      reads this
    {
      World(rows, passes, now)
    }

    constructor (rows: map<OpId, LockRow>, ghost now: int)
      ensures At(now) == World(rows, map[], now) && Exclusive(At(now)) && Held(At(now))
    {
      this.rows, this.passes := rows, map[];
    }

    /** The guarded `updateMany`: while every pass is within its lease, nobody else gets the operation. */
    method TryClaim(ghost worker: WorkerId, op: OpId, seen: OpStatus, now: int) returns (claimed: bool)
      requires Exclusive(At(now)) && Held(At(now)) && Punctual(At(now)) && worker !in passes
      modifies this
      ensures At(now) == Apply(old(At(now)), Claim(worker, op, seen))
      ensures Exclusive(At(now)) && Held(At(now))
      ensures claimed <==> worker in passes
      ensures claimed ==> forall other | other in old(passes) :: old(passes)[other].op != op
    {
      ghost var before := At(now);
      StepExclusive(before, Claim(worker, op, seen));
      claimed := op in rows && Claimable(rows[op], seen, now);
      if claimed {
        rows := rows[op := rows[op].(lockExpiresAt := Some(now + LEASE))];
        passes := passes[worker := Pass(op, now)];
      }
    }

    /** Clears the lock whoever holds it; within the leases it can only be the worker's own. */
    method FreeLock(ghost worker: WorkerId, op: OpId, ghost now: int)
      requires Exclusive(At(now)) && Held(At(now)) && Punctual(At(now)) && worker in passes && passes[worker].op == op
      modifies this
      ensures At(now) == Apply(old(At(now)), Release(worker))
      ensures Exclusive(At(now)) && Held(At(now)) && forall other | other in passes :: passes[other].op != op
    {
      StepExclusive(At(now), Release(worker));
      if op in rows {
        rows := rows[op := rows[op].(lockExpiresAt := None)];
      }
      passes := passes - {worker};
    }
  }
}
