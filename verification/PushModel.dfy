/** Web push deliveries: one pass of the worker over the devices of a user, and any number of retries. */
module PushModel {
  import opened Common

  type DeviceId = nat
  type DeliveryId = nat
  type Endpoint = string

  /** `usable` stands for the conditions that the worker never changes: not disabled, keys present. */
  datatype Device = Device(endpoint: Endpoint, usable: bool, invalidated: bool, failures: nat)

  datatype DeliveryStatus = Pending | Sent | Failed | Skipped

  datatype Attempt = Attempt(status: DeliveryStatus, count: nat)

  /** An attempt row is unique for its delivery and endpoint. */
  datatype Target = Target(delivery: DeliveryId, endpoint: Endpoint)

  /** `accepted` lists the pushes that the push service has accepted; it is not a table. */
  datatype Db = Db(
    devices: map<DeviceId, Device>, attempts: map<Target, Attempt>, deliveries: map<DeliveryId, DeliveryStatus>,
    accepted: seq<Target>)

  const EMPTY := Db(map[], map[], map[], [])

  /** A reply of the push service: success, 404 or 410, any other status, or no reply at all. */
  datatype Reply = Accepted | Gone | Refused | Threw

  datatype Tally = Tally(sent: nat, failed: nat, invalidated: nat, skipped: nat)

  const ZERO := Tally(0, 0, 0, 0)

  // ---------------------------------------------------------------- one device

  /** The upsert at the head of the loop. */
  function AttemptOf(attempts: map<Target, Attempt>, t: Target): Attempt {
    if t in attempts then attempts[t] else Attempt(Pending, 0)
  }

  function DeviceAfter(d: Device, r: Reply): Device {
    match r
    case Accepted => d.(invalidated := false, failures := 0)
    case Gone => d.(invalidated := true, failures := d.failures + 1)
    case Refused => d.(invalidated := false, failures := d.failures + 1)
    case Threw => d.(failures := d.failures + 1)
  }

  function AttemptAfter(a: Attempt, r: Reply): Attempt {
    Attempt(if r == Accepted then Sent else Failed, a.count + 1)
  }

  function TallyAfter(t: Tally, r: Reply): Tally {
    match r
    case Accepted => t.(sent := t.sent + 1)
    case Gone => t.(failed := t.failed + 1, invalidated := t.invalidated + 1)
    case Refused => t.(failed := t.failed + 1)
    case Threw => t.(failed := t.failed + 1)
  }

  /** One round of the device loop. */
  function PushOne(db: Db, delivery: DeliveryId, id: DeviceId, r: Reply, t: Tally): (Db, Tally)
    requires id in db.devices
  {
    var target := Target(delivery, db.devices[id].endpoint);
    var attempt := AttemptOf(db.attempts, target);
    if attempt.status == Sent then (db.(attempts := db.attempts[target := attempt]), t.(skipped := t.skipped + 1))
    else (db.(attempts := db.attempts[target := AttemptAfter(attempt, r)],
              devices := db.devices[id := DeviceAfter(db.devices[id], r)],
              accepted := if r == Accepted then db.accepted + [target] else db.accepted),
          TallyAfter(t, r))
  }

  // ---------------------------------------------------------------- a pass

  predicate Live(devices: map<DeviceId, Device>, id: DeviceId) {
    id in devices && devices[id].usable && !devices[id].invalidated
  }

  predicate Distinct<T(==)>(s: seq<T>) {
    forall i, j | 0 <= i < j < |s| :: s[i] != s[j]
  }

  /** The devices of the query, in its order. */
  function Selected(devices: map<DeviceId, Device>, order: seq<DeviceId>): (targets: seq<DeviceId>)
    ensures forall id :: id in targets <==> id in order && Live(devices, id)
    ensures Distinct(order) ==> Distinct(targets)
  {
    if order == [] then []
    else
      var init, last := Selected(devices, order[..|order| - 1]), order[|order| - 1];
      assert order == order[..|order| - 1] + [last];
      if Live(devices, last) then init + [last] else init
  }

  function PushAll(db: Db, delivery: DeliveryId, targets: seq<DeviceId>, reply: DeviceId -> Reply): (r: (Db, Tally))
    requires forall id | id in targets :: id in db.devices
    ensures r.0.devices.Keys == db.devices.Keys
  {
    if targets == [] then (db, ZERO)
    else
      var init, last := targets[..|targets| - 1], targets[|targets| - 1];
      assert last in targets;
      var (d, t) := PushAll(db, delivery, init, reply);
      PushOne(d, delivery, last, reply(last), t)
  }

  function Summary(t: Tally, targets: nat): DeliveryStatus {
    if targets == 0 then Skipped else if t.failed > 0 then Failed else Sent
  }

  /** `sendPush`; `order` lists the user's devices as the query sorts them. */
  function SendPush(db: Db, delivery: DeliveryId, order: seq<DeviceId>, reply: DeviceId -> Reply): (Db, Tally) {
    var targets := Selected(db.devices, order);
    var (d, t) := PushAll(db, delivery, targets, reply);
    (d.(deliveries := d.deliveries[delivery := Summary(t, |targets|)]), t)
  }

  // ---------------------------------------------------------------- runs

  /** Passes for any deliveries, and any changes to the device table in between. */
  datatype Step =
    | DoPass(delivery: DeliveryId, order: seq<DeviceId>, reply: DeviceId -> Reply)
    | DoDevices(devices: map<DeviceId, Device>)

  function Apply(db: Db, s: Step): Db {
    match s
    case DoPass(delivery, order, reply) => SendPush(db, delivery, order, reply).0
    case DoDevices(devices) => db.(devices := devices)
  }

  function Run(db: Db, steps: seq<Step>): Db {
    if steps == [] then db else Apply(Run(db, steps[..|steps| - 1]), steps[|steps| - 1])
  }
}
