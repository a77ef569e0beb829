/** The shared state store: the records merged from vehicle telemetry, the
    three index-addressed lists, the alert list recomputed by validation, the
    subscriber list, and the broadcasts sent to subscribers. */
module State {
  import opened JsonValues

  // ---------------------------------------------------------------------
  // Records
  // ---------------------------------------------------------------------

  /** The record attributes of the store that `update_packet` can name. */
  datatype RecordKey = Mux | Twist | Network | Hunter | EStop | Resources | Control

  /** The attribute name of each record. */
  function NameOf(k: RecordKey): string {
    match k
    case Mux => "mux"
    case Twist => "twist"
    case Network => "network"
    case Hunter => "hunter"
    case EStop => "estop"
    case Resources => "resources"
    case Control => "control"
  }

  /** `getattr(self, key, None)` for the record attributes: None when the
      name is not that of a record. */
  function KeyOf(name: string): (r: Option<RecordKey>)
    ensures r.Some? ==> NameOf(r.value) == name
    ensures r.None? ==> forall k :: NameOf(k) != name
  {
    if name == "mux" then Some(Mux)
    else if name == "twist" then Some(Twist)
    else if name == "network" then Some(Network)
    else if name == "hunter" then Some(Hunter)
    else if name == "estop" then Some(EStop)
    else if name == "resources" then Some(Resources)
    else if name == "control" then Some(Control)
    else None
  }

  /** Each record's fields with the dataclass default values; the key set is
      the record's schema. */
  function Defaults(k: RecordKey): Fields {
    match k
    case Mux => map[
      "requested_mode" := Int(-1), "active_source" := Int(-1),
      "remote_enabled" := Bool(false), "nav_active" := Bool(false),
      "teleop_active" := Bool(false), "final_active" := Bool(false)]
    case Twist => map[
      "nav_lx" := Real(0.0), "nav_az" := Real(0.0),
      "teleop_lx" := Real(0.0), "teleop_az" := Real(0.0),
      "final_lx" := Real(0.0), "final_az" := Real(0.0)]
    case Network => map[
      "connected" := Bool(false), "status_code" := Int(2),
      "rtt_ms" := Real(0.0), "bandwidth_mbps" := Real(0.0)]
    case Hunter => map[
      "linear_vel" := Real(0.0), "steering_angle" := Real(0.0),
      "vehicle_state" := Int(0), "control_mode" := Int(0),
      "error_code" := Int(0), "battery_voltage" := Real(0.0)]
    case EStop => map[
      "is_estop" := Bool(false), "bridge_flag" := Int(0), "mux_flag" := Int(0)]
    case Resources => map[
      "cpu_phys" := Int(0), "cpu_logic" := Int(0),
      "cpu_usage" := Real(0.0), "cpu_temp" := Real(0.0), "cpu_load" := Real(0.0),
      "ram_total" := Int(0), "ram_used" := Int(0),
      "net_total_ifaces" := Int(0), "net_active_ifaces" := Int(0),
      "net_down_ifaces" := Int(0)]
    case Control => map[
      "mode" := Int(-1), "estop" := Bool(false),
      "linear_x" := Real(0.0), "angular_z" := Real(0.0),
      "raw_speed" := Real(0.0), "raw_steer" := Real(0.0),
      "joystick_connected" := Bool(false)]
  }

  type Records = map<RecordKey, Fields>

  /** Every record is present and has exactly its dataclass's fields. */
  ghost predicate WellFormed(records: Records) {
    forall k :: k in records && records[k].Keys == Defaults(k).Keys
  }

  function DefaultRecords(): (r: Records)
    ensures WellFormed(r)
  {
    map k: RecordKey | true :: Defaults(k)
  }

  /** The loop of `update_packet`: every name of `data` that is a field of
      the record is overwritten with its value, every other name is ignored. */
  function Merge(rec: Fields, data: Fields): (r: Fields)
    ensures r.Keys == rec.Keys
    ensures forall f :: f in rec && f in data ==> r[f] == data[f]
    ensures forall f :: f in rec && f !in data ==> r[f] == rec[f]
  {
    map f | f in rec :: if f in data then data[f] else rec[f]
  }

  /** Names that are no field of the record change nothing: merging `data`
      is merging its part restricted to the record's schema. */
  lemma MergeIgnoresUnknownNames(rec: Fields, data: Fields)
    ensures Merge(rec, data) == Merge(rec, map f | f in data && f in rec :: data[f])
  {
  }

  /** Merging the same payload twice is merging it once. */
  lemma MergeIdempotent(rec: Fields, data: Fields)
    ensures Merge(Merge(rec, data), data) == Merge(rec, data)
  {
  }

  // ---------------------------------------------------------------------
  // Indexed lists (GPUs, disk partitions, network interfaces)
  // ---------------------------------------------------------------------

  /** The three index-addressed lists of the store. */
  datatype IndexedList = Gpus | DiskPartitions | NetInterfaces

  function Max(a: int, b: int): int {
    if a < b then b else a
  }

  /** The slot `j` of `lst` as seen after growing it: empty beyond the end. */
  function Slot(lst: seq<Fields>, j: nat): Fields {
    if j < |lst| then lst[j] else map[]
  }

  function Blanks(n: nat): (r: seq<Fields>)
    ensures |r| == n && forall j :: 0 <= j < n ==> r[j] == map[]
  {
    seq(n, _ => map[])
  }

  /** `_upsert_list(lst, idx, data)`: grow with empty dicts up to `idx`, then
      `lst[idx].update(data)`. A negative index counts from the end as in
      Python; None is the IndexError for an index below `-len(lst)`. */
  function Upsert(lst: seq<Fields>, idx: int, data: Fields): (r: Option<seq<Fields>>)
    ensures r.None? <==> idx < -|lst|
    ensures r.Some? && idx >= 0 ==>
      && |r.value| == Max(|lst|, idx + 1)
      && r.value[idx] == Slot(lst, idx) + data
      && forall j :: 0 <= j < |r.value| && j != idx ==> r.value[j] == Slot(lst, j)
    ensures r.Some? && idx < 0 ==>
      && |r.value| == |lst|
      && r.value[|lst| + idx] == lst[|lst| + idx] + data
      && forall j :: 0 <= j < |lst| && j != |lst| + idx ==> r.value[j] == lst[j]
  {
    if idx >= |lst| then
      var grown := lst + Blanks(idx - |lst| + 1);
      Some(grown[idx := grown[idx] + data])
    else if idx >= -|lst| then
      var j := if idx >= 0 then idx else |lst| + idx;
      Some(lst[j := lst[j] + data])
    else
      None
  }

  /** The upsert with a decoded JSON index: a float, string or None index
      raises TypeError before the list is touched. */
  function UpsertAt(lst: seq<Fields>, idx: Value, data: Fields): (r: Option<seq<Fields>>)
    ensures r.Some? ==> AsIndex(idx).Some? && r == Upsert(lst, AsIndex(idx).value, data)
    ensures AsIndex(idx).None? ==> r.None?
  {
    match AsIndex(idx)
    case None => None
    case Some(i) => Upsert(lst, i, data)
  }

  /** An upsert merges: no field already present in any slot is lost, and
      the list never shrinks. */
  lemma UpsertKeepsFields(lst: seq<Fields>, idx: int, data: Fields)
    requires Upsert(lst, idx, data).Some?
    ensures |Upsert(lst, idx, data).value| >= |lst|
    ensures forall j :: 0 <= j < |lst| ==> lst[j].Keys <= Upsert(lst, idx, data).value[j].Keys
  {
    var r := Upsert(lst, idx, data).value;
    forall j | 0 <= j < |lst|
      ensures lst[j].Keys <= r[j].Keys
    {
      if idx >= 0 {
        assert Slot(lst, j) == lst[j];
      }
    }
  }

  /** An empty list upserted at 5 has five empty slots and then the data. */
  lemma UpsertFiveOnEmpty(data: Fields)
    ensures Upsert([], 5, data) == Some([map[], map[], map[], map[], map[], data])
  {
    var r := Upsert([], 5, data).value;
    var e: seq<Fields> := [map[], map[], map[], map[], map[], data];
    forall j | 0 <= j < 6
      ensures r[j] == e[j]
    {
      assert r[j] == Slot([], j) + (if j == 5 then data else map[]) || j != 5;
    }
    assert r == e;
  }

  // ---------------------------------------------------------------------
  // Alerts
  // ---------------------------------------------------------------------

  datatype Level = Ok | Warn | Error

  /** The four conditions `_validate` reports. The stale-data alert carries
      the elapsed seconds that its message prints. */
  datatype AlertKind =
    | EstopButMoving        // "E-STOP active but vehicle is moving!"
    | EstopUnconfirmed      // "E-stop sent — waiting for vehicle confirmation"
    | RemoteWithoutTeleop   // "Remote mode active but no teleop commands received"
    | NoVehicleData(age: real)  // "No vehicle data for {age:.1f}s"

  datatype Alert = Alert(level: Level, kind: AlertKind)

  const MotionThreshold: real := 0.05
  const StaleAfter: real := 3.0

  /** The position of each kind in the order `_validate` checks them. */
  function Rank(k: AlertKind): nat {
    match k
    case EstopButMoving => 0
    case EstopUnconfirmed => 1
    case RemoteWithoutTeleop => 2
    case NoVehicleData(_) => 3
  }

  function LevelOf(k: AlertKind): Level {
    match k
    case EstopButMoving => Error
    case EstopUnconfirmed => Warn
    case RemoteWithoutTeleop => Warn
    case NoVehicleData(_) => Error
  }

  /** At most one alert per kind, in check order, each at its kind's level. */
  ghost predicate WellOrdered(alerts: seq<Alert>) {
    && |alerts| <= 4
    && (forall i, j :: 0 <= i < j < |alerts| ==> Rank(alerts[i].kind) < Rank(alerts[j].kind))
    && (forall a :: a in alerts ==> a.level == LevelOf(a.kind))
  }

  ghost predicate Raised(alerts: seq<Alert>, k: AlertKind) {
    exists a :: a in alerts && a.kind == k
  }

  ghost predicate RaisedStale(alerts: seq<Alert>) {
    exists a :: a in alerts && a.kind.NoVehicleData?
  }

  /** `abs(v) > 0.05` for a value that is a number. */
  predicate Exceeds(v: Value) {
    IsNumber(v) && Magnitude(v) > MotionThreshold
  }

  /** The vehicle has confirmed the e-stop (`estop.is_estop`). */
  predicate EstopConfirmed(records: Records)
    requires WellFormed(records)
  {
    Truthy(records[EStop]["is_estop"])
  }

  /** The station has requested the e-stop (`control.estop`). */
  predicate EstopRequested(records: Records)
    requires WellFormed(records)
  {
    Truthy(records[Control]["estop"])
  }

  /** The vehicle reports remote mode enabled with no teleop arriving. */
  predicate RemoteIdle(records: Records)
    requires WellFormed(records)
  {
    && EqualsInt(records[Mux]["requested_mode"], 2)
    && Truthy(records[Mux]["remote_enabled"])
    && !Truthy(records[Mux]["teleop_active"])
  }

  /** Data has been received once, and more than 3 s ago. */
  predicate Stale(lastRecv: real, now: real) {
    lastRecv > 0.0 && now - lastRecv > StaleAfter
  }

  /** The moving check raises TypeError: `is_estop` is truthy and `abs` meets
      a non-number before the `or` is decided (Python evaluates `final_az`
      only when `final_lx` is within the threshold). */
  predicate MotionCheckRaises(records: Records)
    requires WellFormed(records)
  {
    var lx := records[Twist]["final_lx"];
    var az := records[Twist]["final_az"];
    EstopConfirmed(records) && (!IsNumber(lx) || (!Exceeds(lx) && !IsNumber(az)))
  }

  /** The condition of the first alert with Python's short-circuit: None is
      the TypeError. */
  function MotionCheck(records: Records): Option<bool>
    requires WellFormed(records)
  {
    if !Truthy(records[EStop]["is_estop"]) then Some(false)
    else match AbsExceeds(records[Twist]["final_lx"], MotionThreshold)
      case None => None
      case Some(true) => Some(true)
      case Some(false) => AbsExceeds(records[Twist]["final_az"], MotionThreshold)
  }

  function AlertIf(c: bool, k: AlertKind): seq<Alert> {
    if c then [Alert(LevelOf(k), k)] else []
  }

  lemma AppendInOrder(alerts: seq<Alert>, c: bool, k: AlertKind)
    requires WellOrdered(alerts) && |alerts| <= Rank(k)
    requires forall a :: a in alerts ==> Rank(a.kind) < Rank(k)
    ensures WellOrdered(alerts + AlertIf(c, k))
  {
    var r := alerts + AlertIf(c, k);
    forall i, j | 0 <= i < j < |r|
      ensures Rank(r[i].kind) < Rank(r[j].kind)
    {
      if j >= |alerts| {
        assert r[i] in alerts;
      }
    }
  }

  /** The list `_validate` assembles once the moving check has been decided. */
  function AssembleAlerts(moving: bool, records: Records, lastRecv: real, now: real): seq<Alert>
    requires WellFormed(records)
  {
    AlertIf(moving, EstopButMoving)
    + AlertIf(EstopRequested(records) && !EstopConfirmed(records), EstopUnconfirmed)
    + AlertIf(RemoteIdle(records), RemoteWithoutTeleop)
    + AlertIf(Stale(lastRecv, now), NoVehicleData(now - lastRecv))
  }

  /** `_validate`: the alert list as a function of the records, the time of
      the last vehicle receipt and the current time. None is the TypeError
      raised by `abs` in the moving check, after which no list is assigned. */
  function ComputeAlerts(records: Records, lastRecv: real, now: real): (r: Option<seq<Alert>>)
    requires WellFormed(records)
    ensures r.None? <==> MotionCheckRaises(records)
    ensures r.Some? ==> WellOrdered(r.value)
  {
    match MotionCheck(records)
    case None => None
    case Some(moving) =>
      AssembledInOrder(moving, records, lastRecv, now);
      Some(AssembleAlerts(moving, records, lastRecv, now))
  }

  /** The checks run from the most to the least severe kind, so the list
      they build is ordered by rank. */
  lemma AssembledInOrder(moving: bool, records: Records, lastRecv: real, now: real)
    requires WellFormed(records)
    ensures WellOrdered(AssembleAlerts(moving, records, lastRecv, now))
  {
    var c2 := EstopRequested(records) && !EstopConfirmed(records);
    var a1 := AlertIf(moving, EstopButMoving);
    AppendInOrder([], moving, EstopButMoving);
    var a2 := a1 + AlertIf(c2, EstopUnconfirmed);
    AppendInOrder(a1, c2, EstopUnconfirmed);
    var a3 := a2 + AlertIf(RemoteIdle(records), RemoteWithoutTeleop);
    AppendInOrder(a2, RemoteIdle(records), RemoteWithoutTeleop);
    AppendInOrder(a3, Stale(lastRecv, now), NoVehicleData(now - lastRecv));
  }

  /** An alert of kind `k` is in the assembled list iff the check for `k`
      holds (`k` as it would be raised). */
  lemma AssembledMembers(moving: bool, records: Records, lastRecv: real, now: real, a: Alert)
    requires WellFormed(records)
    ensures a in AssembleAlerts(moving, records, lastRecv, now) <==>
      || (moving && a == Alert(Error, EstopButMoving))
      || (EstopRequested(records) && !EstopConfirmed(records) && a == Alert(Warn, EstopUnconfirmed))
      || (RemoteIdle(records) && a == Alert(Warn, RemoteWithoutTeleop))
      || (Stale(lastRecv, now) && a == Alert(Error, NoVehicleData(now - lastRecv)))
  {
  }

  /** The "E-STOP active but vehicle is moving" error is raised iff the
      vehicle confirms the e-stop and `final_lx` or `final_az` exceeds 0.05
      in magnitude (strictly: 0.05 itself raises nothing). */
  lemma MovingAlertIff(records: Records, lastRecv: real, now: real)
    requires WellFormed(records) && ComputeAlerts(records, lastRecv, now).Some?
    ensures Raised(ComputeAlerts(records, lastRecv, now).value, EstopButMoving) <==>
      EstopConfirmed(records) && (Exceeds(records[Twist]["final_lx"]) || Exceeds(records[Twist]["final_az"]))
  {
    var moving := MotionCheck(records).value;
    var alerts := ComputeAlerts(records, lastRecv, now).value;
    assert alerts == AssembleAlerts(moving, records, lastRecv, now);
    AssembledMembers(moving, records, lastRecv, now, Alert(Error, EstopButMoving));
    if Raised(alerts, EstopButMoving) {
      var a :| a in alerts && a.kind == EstopButMoving;
      AssembledMembers(moving, records, lastRecv, now, a);
    }
  }

  /** The "waiting for vehicle confirmation" warning is raised iff the
      station requested the e-stop and the vehicle has not confirmed it; so
      it never stands beside the moving alert. */
  lemma UnconfirmedAlertIff(records: Records, lastRecv: real, now: real)
    requires WellFormed(records) && ComputeAlerts(records, lastRecv, now).Some?
    ensures Raised(ComputeAlerts(records, lastRecv, now).value, EstopUnconfirmed) <==>
      EstopRequested(records) && !EstopConfirmed(records)
    ensures !(Raised(ComputeAlerts(records, lastRecv, now).value, EstopUnconfirmed)
              && Raised(ComputeAlerts(records, lastRecv, now).value, EstopButMoving))
  {
    var moving := MotionCheck(records).value;
    var alerts := ComputeAlerts(records, lastRecv, now).value;
    assert alerts == AssembleAlerts(moving, records, lastRecv, now);
    AssembledMembers(moving, records, lastRecv, now, Alert(Warn, EstopUnconfirmed));
    if Raised(alerts, EstopUnconfirmed) {
      var a :| a in alerts && a.kind == EstopUnconfirmed;
      AssembledMembers(moving, records, lastRecv, now, a);
    }
    MovingAlertIff(records, lastRecv, now);
  }

  /** The "Remote mode active but no teleop" warning is raised iff the mux
      reports requested mode 2, remote enabled and no teleop active. */
  lemma RemoteAlertIff(records: Records, lastRecv: real, now: real)
    requires WellFormed(records) && ComputeAlerts(records, lastRecv, now).Some?
    ensures Raised(ComputeAlerts(records, lastRecv, now).value, RemoteWithoutTeleop) <==> RemoteIdle(records)
  {
    var moving := MotionCheck(records).value;
    var alerts := ComputeAlerts(records, lastRecv, now).value;
    assert alerts == AssembleAlerts(moving, records, lastRecv, now);
    AssembledMembers(moving, records, lastRecv, now, Alert(Warn, RemoteWithoutTeleop));
    if Raised(alerts, RemoteWithoutTeleop) {
      var a :| a in alerts && a.kind == RemoteWithoutTeleop;
      AssembledMembers(moving, records, lastRecv, now, a);
    }
  }

  /** The stale-data error is raised iff something was received and more
      than 3 s have passed since; it then reports exactly that age. */
  lemma StaleAlertIff(records: Records, lastRecv: real, now: real)
    requires WellFormed(records) && ComputeAlerts(records, lastRecv, now).Some?
    ensures RaisedStale(ComputeAlerts(records, lastRecv, now).value) <==> Stale(lastRecv, now)
    ensures forall a :: a in ComputeAlerts(records, lastRecv, now).value && a.kind.NoVehicleData? ==>
      a == Alert(Error, NoVehicleData(now - lastRecv))
  {
    var moving := MotionCheck(records).value;
    var alerts := ComputeAlerts(records, lastRecv, now).value;
    assert alerts == AssembleAlerts(moving, records, lastRecv, now);
    AssembledMembers(moving, records, lastRecv, now, Alert(Error, NoVehicleData(now - lastRecv)));
    forall a | a in alerts && a.kind.NoVehicleData?
      ensures a == Alert(Error, NoVehicleData(now - lastRecv))
    {
      AssembledMembers(moving, records, lastRecv, now, a);
    }
  }

  // ---------------------------------------------------------------------
  // Subscribers and broadcasts
  // ---------------------------------------------------------------------

  /** A subscriber queue, identified by the object it is. */
  type Sink = nat

  /** The position of the first occurrence of `q` in `s`. */
  function FirstIndex(s: seq<Sink>, q: Sink): (i: nat)
    requires q in s
    ensures i < |s| && s[i] == q && q !in s[..i]
  {
    if s[0] == q then 0
    else
      assert s[1..][..FirstIndex(s[1..], q)] == s[1..FirstIndex(s[1..], q) + 1];
      1 + FirstIndex(s[1..], q)
  }

  /** `list.remove(q)` with the ValueError of a missing `q` swallowed: the
      first occurrence of `q` is removed, nothing else moves. */
  function RemoveFirst(s: seq<Sink>, q: Sink): (r: seq<Sink>)
    ensures q !in s ==> r == s
    ensures q in s ==> r == s[..FirstIndex(s, q)] + s[FirstIndex(s, q) + 1..]
    ensures multiset(r) == multiset(s) - multiset{q}
  {
    if s == [] then []
    else if s[0] == q then
      assert s == [s[0]] + s[1..];
      s[1..]
    else
      var rest := RemoveFirst(s[1..], q);
      RemoveFirstCons(s, q, rest);
      [s[0]] + rest
  }

  /** Putting an element other than `q` in front moves the removal point one
      place to the right and leaves the rest of the contract intact. */
  lemma RemoveFirstCons(s: seq<Sink>, q: Sink, rest: seq<Sink>)
    requires s != [] && s[0] != q
    requires q !in s[1..] ==> rest == s[1..]
    requires q in s[1..] ==> rest == s[1..][..FirstIndex(s[1..], q)] + s[1..][FirstIndex(s[1..], q) + 1..]
    requires multiset(rest) == multiset(s[1..]) - multiset{q}
    ensures q !in s ==> [s[0]] + rest == s
    ensures q in s ==> [s[0]] + rest == s[..FirstIndex(s, q)] + s[FirstIndex(s, q) + 1..]
    ensures multiset([s[0]] + rest) == multiset(s) - multiset{q}
  {
    assert s == [s[0]] + s[1..];
    assert multiset(s) == multiset{s[0]} + multiset(s[1..]);
    MultisetConsRemove(s[0], q, multiset(s[1..]));
    if q in s {
      assert q in s[1..];
      var j := FirstIndex(s[1..], q);
      assert FirstIndex(s, q) == j + 1;
      SpliceCons(s, j);
    }
  }

  lemma MultisetConsRemove(x: Sink, q: Sink, m: multiset<Sink>)
    requires x != q
    ensures multiset{x} + (m - multiset{q}) == (multiset{x} + m) - multiset{q}
  {
  }

  lemma SpliceCons(s: seq<Sink>, j: nat)
    requires j + 1 < |s|
    ensures [s[0]] + (s[1..][..j] + s[1..][j + 1..]) == s[..j + 1] + s[j + 2..]
  {
    assert s[..j + 1] == [s[0]] + s[1..][..j];
    assert s[j + 2..] == s[1..][j + 1..];
  }

  /** `vehicle_age` of a snapshot: -1 before anything has been received. */
  function VehicleAge(lastRecv: real, now: real): real {
    if lastRecv > 0.0 then now - lastRecv else -1.0
  }

  /** The content of `to_json()` without the wall-clock `server_time`. */
  datatype Snapshot = Snapshot(
    records: Records,
    gpuList: seq<Fields>,
    diskPartitions: seq<Fields>,
    netInterfaces: seq<Fields>,
    remoteEnabled: Value,
    alerts: seq<Alert>,
    vehicleAge: real)

  /** One `_broadcast_sync`: the snapshot, offered to every subscriber
      registered at that moment (a full queue drops it silently). */
  datatype Broadcast = Broadcast(snapshot: Snapshot, recipients: seq<Sink>)

  // ---------------------------------------------------------------------
  // The store
  // ---------------------------------------------------------------------

  class SharedState {
    var records: Records
    var remoteEnabled: Value
    var alerts: seq<Alert>
    var lastVehicleRecv: real
    var gpuList: seq<Fields>
    var diskPartitions: seq<Fields>
    var netInterfaces: seq<Fields>
    var subscribers: seq<Sink>
    var broadcasts: seq<Broadcast>

    ghost predicate Valid()
      reads this`records
    {
      WellFormed(records)
    }

    constructor ()
      ensures Valid()
      ensures records == DefaultRecords() && remoteEnabled == Bool(false)
      ensures alerts == [] && lastVehicleRecv == 0.0
      ensures gpuList == [] && diskPartitions == [] && netInterfaces == []
      ensures subscribers == [] && broadcasts == []
    {
      records := DefaultRecords();
      remoteEnabled := Bool(false);
      alerts := [];
      lastVehicleRecv := 0.0;
      gpuList, diskPartitions, netInterfaces := [], [], [];
      subscribers := [];
      broadcasts := [];
    }

    function Indexed(which: IndexedList): seq<Fields>
      reads this
    {
      match which
      case Gpus => gpuList
      case DiskPartitions => diskPartitions
      case NetInterfaces => netInterfaces
    }

    function SnapshotAt(now: real): Snapshot
      reads this
    {
      Snapshot(records, gpuList, diskPartitions, netInterfaces, remoteEnabled, alerts,
               VehicleAge(lastVehicleRecv, now))
    }

    /** `_broadcast_sync`: the current snapshot goes to every subscriber. */
    method BroadcastSync(now: real)
      modifies this`broadcasts
      ensures broadcasts == old(broadcasts) + [Broadcast(SnapshotAt(now), subscribers)]
    {
      broadcasts := broadcasts + [Broadcast(SnapshotAt(now), subscribers)];
    }

    /** `_validate`: replaces the alert list, unless the moving check raises. */
    method Validate(now: real) returns (ok: bool)
      requires Valid()
      modifies this`alerts
      ensures ok == ComputeAlerts(records, lastVehicleRecv, now).Some?
      ensures alerts == if ok then ComputeAlerts(records, lastVehicleRecv, now).value else old(alerts)
    {
      var r := ComputeAlerts(records, lastVehicleRecv, now);
      ok := r.Some?;
      if ok {
        alerts := r.value;
      }
    }

    /** `update_packet(key, data)`: merge into the named record, stamp the
        receipt time, validate and broadcast; a name that is no record does
        nothing at all. `ok` is false when validation raised, in which case
        the broadcast is skipped. */
    method UpdatePacket(key: string, data: Fields, now: real) returns (ok: bool)
      requires Valid()
      modifies this`records, this`lastVehicleRecv, this`alerts, this`broadcasts
      ensures Valid()
      ensures KeyOf(key).None? ==>
        && ok && records == old(records) && lastVehicleRecv == old(lastVehicleRecv)
        && alerts == old(alerts) && broadcasts == old(broadcasts)
      ensures KeyOf(key).Some? ==>
        var k := KeyOf(key).value;
        && records == old(records)[k := Merge(old(records)[k], data)]
        && lastVehicleRecv == now
        && ok == ComputeAlerts(records, now, now).Some?
        && alerts == (if ok then ComputeAlerts(records, now, now).value else old(alerts))
        && broadcasts == old(broadcasts) + (if ok then [Broadcast(SnapshotAt(now), subscribers)] else [])
    {
      var k := KeyOf(key);
      if k.None? {
        return true;
      }
      records := records[k.value := Merge(records[k.value], data)];
      lastVehicleRecv := now;
      ok := Validate(now);
      if ok {
        BroadcastSync(now);
      }
    }

    /** The shared body of `update_gpu`, `update_disk_partition` and
        `update_net_interface`: upsert, stamp the receipt time, broadcast —
        never validate. `ok` is false when the upsert raised, before any
        change. */
    method UpdateIndexed(which: IndexedList, idx: Value, data: Fields, now: real) returns (ok: bool)
      modifies this`gpuList, this`diskPartitions, this`netInterfaces, this`lastVehicleRecv, this`broadcasts
      ensures var u := UpsertAt(old(Indexed(which)), idx, data);
        && ok == u.Some?
        && Indexed(which) == (if ok then u.value else old(Indexed(which)))
        && lastVehicleRecv == (if ok then now else old(lastVehicleRecv))
        && broadcasts == old(broadcasts) + (if ok then [Broadcast(SnapshotAt(now), subscribers)] else [])
      ensures forall other :: other != which ==> Indexed(other) == old(Indexed(other))
    {
      var u := UpsertAt(Indexed(which), idx, data);
      ok := u.Some?;
      if !ok {
        return;
      }
      match which {
        case Gpus => gpuList := u.value;
        case DiskPartitions => diskPartitions := u.value;
        case NetInterfaces => netInterfaces := u.value;
      }
      lastVehicleRecv := now;
      BroadcastSync(now);
    }

    method UpdateGpu(idx: Value, data: Fields, now: real) returns (ok: bool)
      modifies this`gpuList, this`diskPartitions, this`netInterfaces, this`lastVehicleRecv, this`broadcasts
      ensures var u := UpsertAt(old(gpuList), idx, data);
        && ok == u.Some?
        && gpuList == (if ok then u.value else old(gpuList))
        && lastVehicleRecv == (if ok then now else old(lastVehicleRecv))
        && broadcasts == old(broadcasts) + (if ok then [Broadcast(SnapshotAt(now), subscribers)] else [])
      ensures diskPartitions == old(diskPartitions) && netInterfaces == old(netInterfaces)
    {
      ok := UpdateIndexed(Gpus, idx, data, now);
      assert Indexed(DiskPartitions) == old(Indexed(DiskPartitions));
      assert Indexed(NetInterfaces) == old(Indexed(NetInterfaces));
    }

    method UpdateDiskPartition(idx: Value, data: Fields, now: real) returns (ok: bool)
      modifies this`gpuList, this`diskPartitions, this`netInterfaces, this`lastVehicleRecv, this`broadcasts
      ensures var u := UpsertAt(old(diskPartitions), idx, data);
        && ok == u.Some?
        && diskPartitions == (if ok then u.value else old(diskPartitions))
        && lastVehicleRecv == (if ok then now else old(lastVehicleRecv))
        && broadcasts == old(broadcasts) + (if ok then [Broadcast(SnapshotAt(now), subscribers)] else [])
      ensures gpuList == old(gpuList) && netInterfaces == old(netInterfaces)
    {
      ok := UpdateIndexed(DiskPartitions, idx, data, now);
      assert Indexed(Gpus) == old(Indexed(Gpus));
      assert Indexed(NetInterfaces) == old(Indexed(NetInterfaces));
    }

    method UpdateNetInterface(idx: Value, data: Fields, now: real) returns (ok: bool)
      modifies this`gpuList, this`diskPartitions, this`netInterfaces, this`lastVehicleRecv, this`broadcasts
      ensures var u := UpsertAt(old(netInterfaces), idx, data);
        && ok == u.Some?
        && netInterfaces == (if ok then u.value else old(netInterfaces))
        && lastVehicleRecv == (if ok then now else old(lastVehicleRecv))
        && broadcasts == old(broadcasts) + (if ok then [Broadcast(SnapshotAt(now), subscribers)] else [])
      ensures gpuList == old(gpuList) && diskPartitions == old(diskPartitions)
    {
      ok := UpdateIndexed(NetInterfaces, idx, data, now);
      assert Indexed(Gpus) == old(Indexed(Gpus));
      assert Indexed(DiskPartitions) == old(Indexed(DiskPartitions));
    }

    /** `update_remote_enabled`: set the side-channel flag and broadcast,
        without validating or stamping the receipt time. */
    method UpdateRemoteEnabled(val: Value, now: real)
      modifies this`remoteEnabled, this`broadcasts
      ensures remoteEnabled == val
      ensures broadcasts == old(broadcasts) + [Broadcast(SnapshotAt(now), subscribers)]
    {
      remoteEnabled := val;
      BroadcastSync(now);
    }

    method AddSubscriber(q: Sink)
      modifies this`subscribers
      ensures subscribers == old(subscribers) + [q]
    {
      subscribers := subscribers + [q];
    }

    method RemoveSubscriber(q: Sink)
      modifies this`subscribers
      ensures subscribers == RemoveFirst(old(subscribers), q)
    {
      subscribers := RemoveFirst(subscribers, q);
    }
  }
}
