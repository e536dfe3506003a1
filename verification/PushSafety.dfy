/** What a pass and any number of retries of a push delivery guarantee. */
module PushSafety {
  import opened Common
  import opened PushModel

  /** An endpoint has accepted the delivery exactly if its attempt says sent, and no endpoint twice. */
  ghost predicate Inv(db: Db) {
    Distinct(db.accepted) && forall t :: t in db.accepted <==> AttemptOf(db.attempts, t).status == Sent
  }

  lemma PushOneInv(db: Db, delivery: DeliveryId, id: DeviceId, r: Reply, t: Tally)
    requires Inv(db) && id in db.devices
    ensures Inv(PushOne(db, delivery, id, r, t).0)
  {
    var target := Target(delivery, db.devices[id].endpoint);
    var d := PushOne(db, delivery, id, r, t).0;
    forall u ensures u in d.accepted <==> AttemptOf(d.attempts, u).status == Sent {
      assert u != target ==> AttemptOf(d.attempts, u) == AttemptOf(db.attempts, u);
    }
  }

  lemma {:induction false} PushAllInv(db: Db, delivery: DeliveryId, targets: seq<DeviceId>, reply: DeviceId -> Reply)
    requires Inv(db) && forall id | id in targets :: id in db.devices
    ensures Inv(PushAll(db, delivery, targets, reply).0)
  {
    if targets != [] {
      var init, last := targets[..|targets| - 1], targets[|targets| - 1];
      PushAllInv(db, delivery, init, reply);
      var (d, t) := PushAll(db, delivery, init, reply);
      assert last in targets;
      PushOneInv(d, delivery, last, reply(last), t);
    }
  }

  lemma {:induction false} RunInv(steps: seq<Step>)
    ensures Inv(Run(EMPTY, steps))
  {
    if steps != [] {
      var db, s := Run(EMPTY, steps[..|steps| - 1]), steps[|steps| - 1];
      RunInv(steps[..|steps| - 1]);
      if s.DoPass? {
        PushAllInv(db, s.delivery, Selected(db.devices, s.order), s.reply);
      }
    }
  }

  /** Across all retries, and whatever happens to the devices, each endpoint accepts a delivery at most once. */
  lemma AcceptedAtMostOnce(steps: seq<Step>, t: Target)
    ensures multiset(Run(EMPTY, steps).accepted)[t] <= 1
  {
    RunInv(steps);
    DistinctOnce(Run(EMPTY, steps).accepted, t);
  }

  lemma {:induction false} DistinctOnce<T>(s: seq<T>, x: T)
    requires Distinct(s)
    ensures multiset(s)[x] <= 1
  {
    if s != [] {
      var init := s[..|s| - 1];
      DistinctOnce(init, x);
      assert s == init + [s[|s| - 1]];
      assert s[|s| - 1] == x ==> x !in init;
    }
  }

  // ---------------------------------------------------------------- counters

  /** Every target is counted once, and what was sent was accepted. */
  lemma {:induction false} CountersAddUp(db: Db, delivery: DeliveryId, targets: seq<DeviceId>, reply: DeviceId -> Reply)
    requires forall id | id in targets :: id in db.devices
    ensures var (d, t) := PushAll(db, delivery, targets, reply);
            && t.sent + t.failed + t.skipped == |targets| && t.invalidated <= t.failed
            && |d.accepted| == |db.accepted| + t.sent && db.accepted <= d.accepted
  {
    if targets != [] {
      CountersAddUp(db, delivery, targets[..|targets| - 1], reply);
      assert targets[|targets| - 1] in targets;
    }
  }

  // ---------------------------------------------------------------- what a pass does to each device

  predicate SentTo(db: Db, delivery: DeliveryId, endpoint: Endpoint) {
    AttemptOf(db.attempts, Target(delivery, endpoint)).status == Sent
  }

  datatype Fate = Already | Replied(reply: Reply)

  /** What happens to a device in a pass, told from the state before it. */
  function FateOf(db: Db, delivery: DeliveryId, id: DeviceId, reply: DeviceId -> Reply): Fate
    requires id in db.devices
  {
    if SentTo(db, delivery, db.devices[id].endpoint) then Already else Replied(reply(id))
  }

  predicate Quiet(f: Fate) {
    f == Already || f == Replied(Accepted) || f == Replied(Gone)
  }

  /** Device rows and endpoints are unique. */
  ghost predicate UniqueEndpoints(devices: map<DeviceId, Device>) {
    forall a, b | a in devices && b in devices && devices[a].endpoint == devices[b].endpoint :: a == b
  }

  /** A device row after a reply: a success clears the failures, a failure adds one, and 404 or 410 invalidates it. */
  predicate Noted(d: Device, e: Device, r: Reply) {
    && e.endpoint == d.endpoint && e.usable == d.usable
    && e.failures == (if r == Accepted then 0 else d.failures + 1)
    && (e.invalidated <==> r == Gone || (r == Threw && d.invalidated))
  }

  /** The rows of a device after its round. */
  ghost predicate Done(db: Db, d: Db, delivery: DeliveryId, id: DeviceId, reply: DeviceId -> Reply)
    requires id in db.devices && id in d.devices
  {
    var f, target := FateOf(db, delivery, id, reply), Target(delivery, db.devices[id].endpoint);
    if f.Already? then Untouched(db, d, delivery, id)
    else
      && Noted(db.devices[id], d.devices[id], f.reply)
      && target in d.attempts && d.attempts[target].status == (if f.reply == Accepted then Sent else Failed)
      && d.attempts[target].count == 1 + AttemptOf(db.attempts, target).count
  }

  /** The rows of a device that the pass does not visit. */
  ghost predicate Untouched(db: Db, d: Db, delivery: DeliveryId, id: DeviceId)
    requires id in db.devices && id in d.devices
  {
    var target := Target(delivery, db.devices[id].endpoint);
    d.devices[id] == db.devices[id] && AttemptOf(d.attempts, target) == AttemptOf(db.attempts, target)
  }

  lemma PushOneEffect(db: Db, d: Db, delivery: DeliveryId, last: DeviceId, reply: DeviceId -> Reply, t: Tally,
                      id: DeviceId)
    requires UniqueEndpoints(db.devices) && d.devices.Keys == db.devices.Keys && last in db.devices && id in db.devices
    requires forall k | k in db.devices :: d.devices[k].endpoint == db.devices[k].endpoint
    requires Untouched(db, d, delivery, last)
    ensures var e := PushOne(d, delivery, last, reply(last), t).0;
            && (id == last ==> Done(db, e, delivery, id, reply))
            && (id != last && Done(db, d, delivery, id, reply) ==> Done(db, e, delivery, id, reply))
            && (id != last && Untouched(db, d, delivery, id) ==> Untouched(db, e, delivery, id))
  {
  }

  lemma {:induction false} EndpointsStay(db: Db, delivery: DeliveryId, targets: seq<DeviceId>, reply: DeviceId -> Reply)
    requires forall id | id in targets :: id in db.devices
    ensures forall k | k in db.devices ::
            PushAll(db, delivery, targets, reply).0.devices[k].endpoint == db.devices[k].endpoint
  {
    if targets != [] {
      EndpointsStay(db, delivery, targets[..|targets| - 1], reply);
    }
  }

  /** The pass treats every device on its own. */
  lemma {:induction false} PassEffect(db: Db, delivery: DeliveryId, targets: seq<DeviceId>, reply: DeviceId -> Reply,
                                      id: DeviceId)
    requires UniqueEndpoints(db.devices) && Distinct(targets) && id in db.devices
    requires forall k | k in targets :: k in db.devices
    ensures var d := PushAll(db, delivery, targets, reply).0;
            (id in targets ==> Done(db, d, delivery, id, reply)) && (id !in targets ==> Untouched(db, d, delivery, id))
  {
    if targets != [] {
      var init, last := targets[..|targets| - 1], targets[|targets| - 1];
      assert targets == init + [last] && last in targets && last !in init;
      PassEffect(db, delivery, init, reply, id);
      PassEffect(db, delivery, init, reply, last);
      EndpointsStay(db, delivery, init, reply);
      var (d, t) := PushAll(db, delivery, init, reply);
      PushOneEffect(db, d, delivery, last, reply, t, id);
    }
  }

  ghost predicate AllQuiet(db: Db, delivery: DeliveryId, targets: seq<DeviceId>, reply: DeviceId -> Reply)
    requires forall id | id in targets :: id in db.devices
  {
    forall id | id in targets :: Quiet(FateOf(db, delivery, id, reply))
  }

  /** What one round adds to the counters is told by the device's fate. */
  lemma RoundCounts(db: Db, d: Db, delivery: DeliveryId, last: DeviceId, reply: DeviceId -> Reply, t: Tally)
    requires last in db.devices && last in d.devices && Untouched(db, d, delivery, last) && t.invalidated <= t.failed
    ensures var u := PushOne(d, delivery, last, reply(last), t).1;
            u.invalidated <= u.failed
            && (u.failed == u.invalidated <==> t.failed == t.invalidated && Quiet(FateOf(db, delivery, last, reply)))
  {
  }

  /** All failures were dead endpoints exactly if every target met a quiet fate. */
  lemma {:induction false} OnlyDeadEndpointsFailIff(db: Db, delivery: DeliveryId, targets: seq<DeviceId>,
                                                    reply: DeviceId -> Reply)
    requires UniqueEndpoints(db.devices) && Distinct(targets)
    requires forall id | id in targets :: id in db.devices
    ensures var t := PushAll(db, delivery, targets, reply).1;
            t.invalidated <= t.failed && (t.failed == t.invalidated <==> AllQuiet(db, delivery, targets, reply))
  {
    if targets != [] {
      var init, last := targets[..|targets| - 1], targets[|targets| - 1];
      assert targets == init + [last] && last in targets && last !in init;
      OnlyDeadEndpointsFailIff(db, delivery, init, reply);
      PassEffect(db, delivery, init, reply, last);
      var (d, t) := PushAll(db, delivery, init, reply);
      RoundCounts(db, d, delivery, last, reply, t);
      assert AllQuiet(db, delivery, targets, reply)
        <==> AllQuiet(db, delivery, init, reply) && Quiet(FateOf(db, delivery, last, reply));
    }
  }

  // ---------------------------------------------------------------- the next pass

  /** The pass finds every target sent already: it sends nothing, changes no device and fails nowhere. */
  ghost predicate SendsNothing(db: Db, delivery: DeliveryId, order: seq<DeviceId>) {
    forall id | id in Selected(db.devices, order) :: SentTo(db, delivery, db.devices[id].endpoint)
  }

  lemma {:induction false} SilentPass(db: Db, delivery: DeliveryId, targets: seq<DeviceId>, reply: DeviceId -> Reply)
    requires forall id | id in targets :: id in db.devices && SentTo(db, delivery, db.devices[id].endpoint)
    ensures PushAll(db, delivery, targets, reply) == (db, Tally(0, 0, 0, |targets|))
  {
    if targets != [] {
      var last := targets[|targets| - 1];
      SilentPass(db, delivery, targets[..|targets| - 1], reply);
      assert last in targets;
      var target := Target(delivery, db.devices[last].endpoint);
      assert db.attempts[target := AttemptOf(db.attempts, target)] == db.attempts;
    }
  }

  lemma SelectedAfter(db: Db, delivery: DeliveryId, order: seq<DeviceId>, reply: DeviceId -> Reply, id: DeviceId)
    requires UniqueEndpoints(db.devices) && Distinct(order) && id in order
    ensures var d := SendPush(db, delivery, order, reply).0;
            && (Live(d.devices, id) <==> Live(db.devices, id) && FateOf(db, delivery, id, reply) != Replied(Gone))
            && (Live(d.devices, id) ==>
                  (SentTo(d, delivery, d.devices[id].endpoint)
                   <==> FateOf(db, delivery, id, reply) in {Already, Replied(Accepted)}))
  {
    if id in db.devices {
      PassEffect(db, delivery, Selected(db.devices, order), reply, id);
    }
  }

  /** The next pass over the same devices sends nothing exactly if the summary shows no failure but dead endpoints. */
  lemma NextPassSendsNothingIff(db: Db, delivery: DeliveryId, order: seq<DeviceId>, reply: DeviceId -> Reply)
    requires UniqueEndpoints(db.devices) && Distinct(order)
    ensures var (d, t) := SendPush(db, delivery, order, reply);
            t.failed == t.invalidated <==> SendsNothing(d, delivery, order)
  {
    var (d, t) := SendPush(db, delivery, order, reply);
    OnlyDeadEndpointsFailIff(db, delivery, Selected(db.devices, order), reply);
    forall id | id in order
      ensures Live(d.devices, id) <==> Live(db.devices, id) && FateOf(db, delivery, id, reply) != Replied(Gone)
      ensures Live(d.devices, id) ==>
                (SentTo(d, delivery, d.devices[id].endpoint)
                 <==> FateOf(db, delivery, id, reply) in {Already, Replied(Accepted)})
    {
      SelectedAfter(db, delivery, order, reply, id);
    }
  }

  /** And such a next pass, whatever the service would reply, ends as sent, or as skipped if no device is left. */
  lemma NextPassEnds(db: Db, delivery: DeliveryId, order: seq<DeviceId>, reply: DeviceId -> Reply,
                     again: DeviceId -> Reply)
    requires UniqueEndpoints(db.devices) && Distinct(order)
    requires SendPush(db, delivery, order, reply).1.failed == SendPush(db, delivery, order, reply).1.invalidated
    ensures var d := SendPush(db, delivery, order, reply).0;
            var targets := Selected(d.devices, order);
            var (e, t) := SendPush(d, delivery, order, again);
            && t == Tally(0, 0, 0, |targets|) && e.accepted == d.accepted && e.devices == d.devices
            && delivery in e.deliveries && e.deliveries[delivery] == if targets == [] then Skipped else Sent
  {
    NextPassSendsNothingIff(db, delivery, order, reply);
    var d := SendPush(db, delivery, order, reply).0;
    SilentPass(d, delivery, Selected(d.devices, order), again);
  }
}
