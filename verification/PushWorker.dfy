/** The push worker as it runs: the device loop with its counters. */
module PushWorker {
  import opened Common
  import opened PushModel
  import opened PushSafety
  import opened PushOutcomes

  class Worker {
    var devices: map<DeviceId, Device>
    var attempts: map<Target, Attempt>
    var deliveries: map<DeliveryId, DeliveryStatus>
    ghost var accepted: seq<Target>

    ghost function State(): Db
      reads this
    {
      Db(devices, attempts, deliveries, accepted)
    }

    constructor ()
      ensures State() == EMPTY
    {
      devices, attempts, deliveries, accepted := map[], map[], map[], [];
    }

    /** One round of the device loop, with the counters so far. */
    method PushDevice(delivery: DeliveryId, id: DeviceId, reply: Reply, counts: Tally) returns (t: Tally)
      requires id in devices
      modifies this`devices, this`attempts, this`accepted
      ensures (State(), t) == PushOne(old(State()), delivery, id, reply, counts)
    {
      var device := devices[id];
      var target := Target(delivery, device.endpoint);
      var attempt := AttemptOf(attempts, target);
      attempts := attempts[target := attempt];
      if attempt.status == Sent {
        return counts.(skipped := counts.skipped + 1);
      }
      if reply == Accepted {
        accepted := accepted + [target];
        t := counts.(sent := counts.sent + 1);
        attempts := attempts[target := Attempt(Sent, attempt.count + 1)];
        devices := devices[id := device.(failures := 0, invalidated := false)];
      } else if reply == Threw {
        t := counts.(failed := counts.failed + 1);
        attempts := attempts[target := Attempt(Failed, attempt.count + 1)];
        devices := devices[id := device.(failures := device.failures + 1)];
      } else {
        t := counts.(failed := counts.failed + 1);
        if reply == Gone {
          t := t.(invalidated := t.invalidated + 1);
        }
        attempts := attempts[target := Attempt(Failed, attempt.count + 1)];
        devices := devices[id := device.(failures := device.failures + 1, invalidated := reply == Gone)];
      }
      assert attempts == old(attempts)[target := AttemptAfter(attempt, reply)];
    }

    /** The device loop: the counters and the rows are those of the specification. */
    method PushDevices(delivery: DeliveryId, targets: seq<DeviceId>, reply: DeviceId -> Reply) returns (t: Tally)
      requires forall id | id in targets :: id in devices
      modifies this`devices, this`attempts, this`accepted
      ensures (State(), t) == PushAll(old(State()), delivery, targets, reply)
    {
      t := ZERO;
      var i := 0;
      while i < |targets|
        invariant 0 <= i <= |targets| && devices.Keys == old(devices).Keys
        invariant (State(), t) == PushAll(old(State()), delivery, targets[..i], reply)
      {
        t := PushDevice(delivery, targets[i], reply(targets[i]), t);
        i := i + 1;
        assert targets[..i][..i - 1] == targets[..i - 1] && targets[..i][i - 1] == targets[i - 1];
      }
      assert targets[..i] == targets;
    }

    /** `sendPush` for a notification with a push delivery; it throws if a device failed. */
    method Deliver(delivery: DeliveryId, order: seq<DeviceId>, reply: DeviceId -> Reply)
      returns (t: Tally, throws: bool)
      modifies this
      ensures (State(), t) == SendPush(old(State()), delivery, order, reply)
      ensures throws <==> t.failed > 0
      ensures UniqueEndpoints(old(devices)) && Distinct(order) ==>
                && (throws <==> SomeFails(old(State()), delivery, order, reply))
                && delivery in deliveries && deliveries - {delivery} == old(deliveries) - {delivery}
                && (deliveries[delivery] == Failed <==> throws)
                && (deliveries[delivery] == Skipped <==> forall id | id in order :: !Live(old(devices), id))
                && deliveries[delivery] != Pending
    {
      t, throws := RunPass(delivery, order, reply);
      if UniqueEndpoints(old(devices)) && Distinct(order) {
        SomeFailsIff(old(State()), delivery, order, reply);
        DeliveryOutcome(old(State()), delivery, order, reply);
      }
    }

    method RunPass(delivery: DeliveryId, order: seq<DeviceId>, reply: DeviceId -> Reply)
      returns (t: Tally, throws: bool)
      modifies this
      ensures (State(), t) == SendPush(old(State()), delivery, order, reply)
      ensures throws <==> t.failed > 0
    {
      var targets := Selected(devices, order);
      if |targets| == 0 {
        deliveries := deliveries[delivery := Skipped];
        return ZERO, false;
      }
      t := PushDevices(delivery, targets, reply);
      throws := t.failed > 0;
      deliveries := deliveries[delivery := if throws then Failed else Sent];
    }
  }
}
