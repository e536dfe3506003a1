/** What a push pass records, told from the devices, the attempts and the replies before it. */
module PushOutcomes {
  import opened Common
  import opened PushModel
  import opened PushSafety

  /** A listed device that the pass pushes to: live, and not sent to before. */
  predicate Pushed(db: Db, delivery: DeliveryId, order: seq<DeviceId>, id: DeviceId) {
    id in order && Live(db.devices, id) && !SentTo(db, delivery, db.devices[id].endpoint)
  }

  // ---------------------------------------------------------------- counters

  /** The devices that meet a fate. */
  function Meeting(db: Db, delivery: DeliveryId, targets: seq<DeviceId>, reply: DeviceId -> Reply, f: Fate)
    : set<DeviceId>
    requires forall id | id in targets :: id in db.devices
  {
    set id | id in targets && FateOf(db, delivery, id, reply) == f
  }

  lemma MeetingGrows(db: Db, delivery: DeliveryId, targets: seq<DeviceId>, reply: DeviceId -> Reply, f: Fate)
    requires targets != [] && Distinct(targets) && forall id | id in targets :: id in db.devices
    ensures var init, last := targets[..|targets| - 1], targets[|targets| - 1];
            |Meeting(db, delivery, targets, reply, f)|
            == |Meeting(db, delivery, init, reply, f)| + if FateOf(db, delivery, last, reply) == f then 1 else 0
  {
    var init, last := targets[..|targets| - 1], targets[|targets| - 1];
    assert targets == init + [last] && last !in init;
    var before := Meeting(db, delivery, init, reply, f);
    if FateOf(db, delivery, last, reply) == f {
      assert Meeting(db, delivery, targets, reply, f) == before + {last};
    } else {
      assert Meeting(db, delivery, targets, reply, f) == before;
    }
  }

  /** Every counter is the number of devices that met its fate; dead endpoints count as failures too. */
  ghost predicate Counted(db: Db, delivery: DeliveryId, targets: seq<DeviceId>, reply: DeviceId -> Reply, t: Tally)
    requires forall id | id in targets :: id in db.devices
  {
    && t.skipped == |Meeting(db, delivery, targets, reply, Already)|
    && t.sent == |Meeting(db, delivery, targets, reply, Replied(Accepted))|
    && t.invalidated == |Meeting(db, delivery, targets, reply, Replied(Gone))|
    && t.failed == t.invalidated + |Meeting(db, delivery, targets, reply, Replied(Refused))|
                   + |Meeting(db, delivery, targets, reply, Replied(Threw))|
  }

  lemma CountedRound(db: Db, d: Db, delivery: DeliveryId, targets: seq<DeviceId>, reply: DeviceId -> Reply, t: Tally)
    requires targets != [] && Distinct(targets) && forall id | id in targets :: id in db.devices
    requires var last := targets[|targets| - 1]; last in d.devices && Untouched(db, d, delivery, last)
    requires forall id | id in targets[..|targets| - 1] :: id in db.devices
    requires Counted(db, delivery, targets[..|targets| - 1], reply, t)
    ensures var last := targets[|targets| - 1];
            Counted(db, delivery, targets, reply, PushOne(d, delivery, last, reply(last), t).1)
  {
    MeetingGrows(db, delivery, targets, reply, Already);
    MeetingGrows(db, delivery, targets, reply, Replied(Accepted));
    MeetingGrows(db, delivery, targets, reply, Replied(Gone));
    MeetingGrows(db, delivery, targets, reply, Replied(Refused));
    MeetingGrows(db, delivery, targets, reply, Replied(Threw));
  }

  lemma {:induction false} CountersAre(db: Db, delivery: DeliveryId, targets: seq<DeviceId>, reply: DeviceId -> Reply)
    requires UniqueEndpoints(db.devices) && Distinct(targets) && forall id | id in targets :: id in db.devices
    ensures Counted(db, delivery, targets, reply, PushAll(db, delivery, targets, reply).1)
  {
    if targets != [] {
      var init, last := targets[..|targets| - 1], targets[|targets| - 1];
      assert targets == init + [last] && last in targets && last !in init;
      CountersAre(db, delivery, init, reply);
      PassEffect(db, delivery, init, reply, last);
      var (d, t) := PushAll(db, delivery, init, reply);
      CountedRound(db, d, delivery, targets, reply, t);
    }
  }

  // ---------------------------------------------------------------- the delivery

  lemma {:induction false} DeliveriesStay(db: Db, delivery: DeliveryId, targets: seq<DeviceId>,
                                          reply: DeviceId -> Reply)
    requires forall id | id in targets :: id in db.devices
    ensures PushAll(db, delivery, targets, reply).0.deliveries == db.deliveries
  {
    if targets != [] {
      DeliveriesStay(db, delivery, targets[..|targets| - 1], reply);
      assert targets[|targets| - 1] in targets;
    }
  }

  /** Some listed device was pushed to, and the service did not accept it. */
  ghost predicate SomeFails(db: Db, delivery: DeliveryId, order: seq<DeviceId>, reply: DeviceId -> Reply) {
    exists id :: Pushed(db, delivery, order, id) && reply(id) != Accepted
  }

  /** The push of this device in the pass is not accepted. */
  predicate Fails(db: Db, delivery: DeliveryId, id: DeviceId, reply: DeviceId -> Reply)
    requires id in db.devices
  {
    FateOf(db, delivery, id, reply).Replied? && reply(id) != Accepted
  }

  lemma FailingMeets(db: Db, delivery: DeliveryId, targets: seq<DeviceId>, reply: DeviceId -> Reply, id: DeviceId)
    requires forall id | id in targets :: id in db.devices
    ensures id in targets && Fails(db, delivery, id, reply)
       <==> || id in Meeting(db, delivery, targets, reply, Replied(Gone))
            || id in Meeting(db, delivery, targets, reply, Replied(Refused))
            || id in Meeting(db, delivery, targets, reply, Replied(Threw))
  {
  }

  lemma FailureCounts(db: Db, delivery: DeliveryId, targets: seq<DeviceId>, reply: DeviceId -> Reply, t: Tally,
                      id: DeviceId)
    requires forall id | id in targets :: id in db.devices
    requires Counted(db, delivery, targets, reply, t) && id in targets && Fails(db, delivery, id, reply)
    ensures t.failed > 0
  {
    FailingMeets(db, delivery, targets, reply, id);
  }

  lemma CountedFailure(db: Db, delivery: DeliveryId, targets: seq<DeviceId>, reply: DeviceId -> Reply, t: Tally)
    returns (id: DeviceId)
    requires forall id | id in targets :: id in db.devices
    requires Counted(db, delivery, targets, reply, t) && t.failed > 0
    ensures id in targets && Fails(db, delivery, id, reply)
  {
    var gone := Meeting(db, delivery, targets, reply, Replied(Gone));
    var refused := Meeting(db, delivery, targets, reply, Replied(Refused));
    var threw := Meeting(db, delivery, targets, reply, Replied(Threw));
    if gone != {} {
      id :| id in gone;
    } else if refused != {} {
      id :| id in refused;
    } else {
      id :| id in threw;
    }
    FailingMeets(db, delivery, targets, reply, id);
  }

  lemma SomeFailsIff(db: Db, delivery: DeliveryId, order: seq<DeviceId>, reply: DeviceId -> Reply)
    requires UniqueEndpoints(db.devices) && Distinct(order)
    ensures SendPush(db, delivery, order, reply).1.failed > 0 <==> SomeFails(db, delivery, order, reply)
  {
    var targets := Selected(db.devices, order);
    var t := PushAll(db, delivery, targets, reply).1;
    CountersAre(db, delivery, targets, reply);
    assert SendPush(db, delivery, order, reply).1 == t;
    if id :| Pushed(db, delivery, order, id) && reply(id) != Accepted {
      FailureCounts(db, delivery, targets, reply, t, id);
    }
    if t.failed > 0 {
      var id := CountedFailure(db, delivery, targets, reply, t);
      assert Pushed(db, delivery, order, id);
    }
  }

  lemma NoneSelectedIff(devices: map<DeviceId, Device>, order: seq<DeviceId>)
    ensures |Selected(devices, order)| == 0 <==> forall id | id in order :: !Live(devices, id)
  {
    if Selected(devices, order) != [] {
      assert Selected(devices, order)[0] in Selected(devices, order);
    }
  }

  /**
   * The delivery is skipped if no listed device is live, failed if some push of the pass was not accepted, and sent
   * otherwise. No other delivery changes.
   */
  lemma DeliveryOutcome(db: Db, delivery: DeliveryId, order: seq<DeviceId>, reply: DeviceId -> Reply)
    requires UniqueEndpoints(db.devices) && Distinct(order)
    ensures var d := SendPush(db, delivery, order, reply).0;
            && delivery in d.deliveries && d.deliveries - {delivery} == db.deliveries - {delivery}
            && (d.deliveries[delivery] == Skipped <==> forall id | id in order :: !Live(db.devices, id))
            && (d.deliveries[delivery] == Failed <==> SomeFails(db, delivery, order, reply))
            && d.deliveries[delivery] != Pending
  {
    var targets := Selected(db.devices, order);
    SomeFailsIff(db, delivery, order, reply);
    DeliveriesStay(db, delivery, targets, reply);
    NoneSelectedIff(db.devices, order);
    if targets == [] {
      assert PushAll(db, delivery, targets, reply) == (db, ZERO);
    }
  }

  // ---------------------------------------------------------------- devices and attempts

  /** A device that is pushed to notes the reply, in its row and in its attempt; every other device stays as it is. */
  lemma DeviceOutcome(db: Db, delivery: DeliveryId, order: seq<DeviceId>, reply: DeviceId -> Reply, id: DeviceId)
    requires UniqueEndpoints(db.devices) && Distinct(order) && id in db.devices
    ensures var d := SendPush(db, delivery, order, reply).0;
            var target := Target(delivery, db.devices[id].endpoint);
            && d.devices.Keys == db.devices.Keys
            && (Pushed(db, delivery, order, id) ==>
                  && Noted(db.devices[id], d.devices[id], reply(id))
                  && (Live(d.devices, id) <==> reply(id) != Gone)
                  && target in d.attempts
                  && d.attempts[target] == Attempt(if reply(id) == Accepted then Sent else Failed,
                                                   1 + AttemptOf(db.attempts, target).count))
            && (!Pushed(db, delivery, order, id) ==>
                  d.devices[id] == db.devices[id] && AttemptOf(d.attempts, target) == AttemptOf(db.attempts, target))
  {
    PassEffect(db, delivery, Selected(db.devices, order), reply, id);
  }

  lemma {:induction false} OtherTargetsStay(db: Db, delivery: DeliveryId, targets: seq<DeviceId>,
                                            reply: DeviceId -> Reply, t: Target)
    requires forall id | id in targets :: id in db.devices
    requires t.delivery != delivery || forall id | id in targets :: db.devices[id].endpoint != t.endpoint
    ensures var d := PushAll(db, delivery, targets, reply).0;
            && (t in d.attempts <==> t in db.attempts) && AttemptOf(d.attempts, t) == AttemptOf(db.attempts, t)
            && (t in d.accepted <==> t in db.accepted)
  {
    if targets != [] {
      var init, last := targets[..|targets| - 1], targets[|targets| - 1];
      assert last in targets;
      OtherTargetsStay(db, delivery, init, reply, t);
      EndpointsStay(db, delivery, init, reply);
    }
  }

  /** Attempts for other deliveries, or for endpoints of no device listed and live, stay as they are. */
  lemma OtherAttemptsStay(db: Db, delivery: DeliveryId, order: seq<DeviceId>, reply: DeviceId -> Reply, t: Target)
    requires t.delivery != delivery
             || forall id | id in order && Live(db.devices, id) :: db.devices[id].endpoint != t.endpoint
    ensures var d := SendPush(db, delivery, order, reply).0;
            && (t in d.attempts <==> t in db.attempts) && AttemptOf(d.attempts, t) == AttemptOf(db.attempts, t)
            && (t in d.accepted <==> t in db.accepted)
  {
    OtherTargetsStay(db, delivery, Selected(db.devices, order), reply, t);
  }
}
