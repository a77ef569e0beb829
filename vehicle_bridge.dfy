/** The vehicle bridge: the per-topic dispatch of decoded vehicle telemetry
    into the store, the four outbound sends sharing one sequence counter, and
    one pass of the periodic send loop. */
module VehicleBridge {
  import opened JsonValues
  import opened Wire
  import opened State
  import opened Cadence

  const HeartbeatTopic: string := "nev/gcs/heartbeat"
  const TeleopTopic: string := "nev/gcs/teleop"
  const EstopTopic: string := "nev/gcs/estop"
  const CmdModeTopic: string := "nev/gcs/cmd_mode"

  // ---------------------------------------------------------------------
  // Dispatch of decoded payloads
  // ---------------------------------------------------------------------

  /** The topics whose payload is merged into one record as it is. */
  datatype RecordTopic = TwistTopic | NetworkTopic | HunterTopic | EstopStatusTopic | CpuTopic | MemTopic

  /** The key each of those closures passes to `update_packet`; cpu and mem
      both go to `resources`. */
  function TargetOf(t: RecordTopic): string {
    match t
    case TwistTopic => "twist"
    case NetworkTopic => "network"
    case HunterTopic => "hunter"
    case EstopStatusTopic => "estop"
    case CpuTopic => "resources"
    case MemTopic => "resources"
  }

  const GpuFieldNames: set<string> :=
    {"gpu_usage", "gpu_mem_used", "gpu_mem_total", "gpu_temp", "gpu_power"}
  const DiskFieldNames: set<string> :=
    {"mountpoint", "total_bytes", "used_bytes", "percent", "accessible"}
  const NetInterfaceFieldNames: set<string> :=
    {"name", "is_up", "speed_mbps", "in_bps", "out_bps"}
  const NetCountNames: set<string> :=
    {"net_total_ifaces", "net_active_ifaces", "net_down_ifaces"}

  /** The fields each dispatch copies from a list entry into its slot. */
  function FieldNamesOf(which: IndexedList): set<string> {
    match which
    case Gpus => GpuFieldNames
    case DiskPartitions => DiskFieldNames
    case NetInterfaces => NetInterfaceFieldNames
  }

  /** The dict literal `{'a': g['a'], ...}` over `names`: exactly those
      fields, with `g`'s values; None is the KeyError of a missing one. */
  function Pick(g: Fields, names: set<string>): (r: Option<Fields>)
    ensures r.Some? <==> names <= g.Keys
    ensures r.Some? ==> r.value.Keys == names && forall f :: f in names ==> r.value[f] == g[f]
  {
    if names <= g.Keys then Some(map f | f in names :: g[f]) else None
  }

  /** One list entry as the closure passes it on: `g['idx']` and the picked
      fields. */
  datatype Entry = Entry(idx: Value, fields: Fields)

  function EntryOf(g: Fields, names: set<string>): (r: Option<Entry>)
    ensures r.Some? <==> "idx" in g && names <= g.Keys
    ensures r.Some? ==> r.value.idx == g["idx"] && Pick(g, names) == Some(r.value.fields)
  {
    if "idx" !in g then None
    else match Pick(g, names)
      case None => None
      case Some(f) => Some(Entry(g["idx"], f))
  }

  /** One entry's upsert: pick its fields and upsert them at its `idx`;
      None when a missing field or a bad index raises. */
  function EntryUpsert(lst: seq<Fields>, g: Fields, names: set<string>): Option<seq<Fields>> {
    match EntryOf(g, names)
    case None => None
    case Some(e) => UpsertAt(lst, e.idx, e.fields)
  }

  /** The state of a dispatch loop over list entries: the list so far, how
      many entries were upserted, and whether one raised (which ends the
      closure). */
  datatype Progress = Progress(list: seq<Fields>, applied: nat, failed: bool)

  /** One iteration of a list closure's loop: nothing once an entry has
      raised; otherwise pick the entry's fields and upsert them at its
      `idx`, where a missing field or a bad index raises. */
  function ApplyEntry(p: Progress, g: Fields, names: set<string>): (q: Progress)
    ensures q.applied == p.applied + (if q.failed then 0 else 1) || p.failed
    ensures p.failed ==> q == p
    ensures q.failed ==> q.list == p.list
  {
    if p.failed then p
    else match EntryUpsert(p.list, g, names)
      case None => Progress(p.list, p.applied, true)
      case Some(l) => Progress(l, p.applied + 1, false)
  }

  /** The effect on one indexed list of the loop `for g in entries:
      update_x(g['idx'], {...})`, entry by entry, stopping at the first
      entry that raises. */
  function UpsertEntries(lst: seq<Fields>, entries: seq<Fields>, names: set<string>): (p: Progress)
    ensures p.applied <= |entries|
    ensures !p.failed ==> p.applied == |entries|
    decreases |entries|
  {
    if entries == [] then Progress(lst, 0, false)
    else ApplyEntry(UpsertEntries(lst, entries[..|entries| - 1], names), entries[|entries| - 1], names)
  }

  /** The lists a dispatch goes through: the list after each entry that was
      upserted, in order; one per upsert, so one per broadcast. */
  function UpsertTrace(lst: seq<Fields>, entries: seq<Fields>, names: set<string>): (r: seq<seq<Fields>>)
    ensures |r| == UpsertEntries(lst, entries, names).applied
    decreases |entries|
  {
    if entries == [] then []
    else
      var init := entries[..|entries| - 1];
      var q := ApplyEntry(UpsertEntries(lst, init, names), entries[|entries| - 1], names);
      UpsertTrace(lst, init, names) + (if q.failed then [] else [q.list])
  }

  lemma UpsertEntriesPrefix(lst: seq<Fields>, entries: seq<Fields>, names: set<string>, i: nat)
    requires i < |entries|
    ensures UpsertEntries(lst, entries[..i + 1], names) == ApplyEntry(UpsertEntries(lst, entries[..i], names), entries[i], names)
    ensures var q := UpsertEntries(lst, entries[..i + 1], names);
      UpsertTrace(lst, entries[..i + 1], names) == UpsertTrace(lst, entries[..i], names) + (if q.failed then [] else [q.list])
  {
    assert entries[..i + 1][..i] == entries[..i];
  }

  /** The last list a dispatch goes through is the list it leaves behind. */
  lemma {:induction false} TraceEndsAtResult(lst: seq<Fields>, entries: seq<Fields>, names: set<string>)
    ensures var r := UpsertTrace(lst, entries, names);
      r != [] ==> r[|r| - 1] == UpsertEntries(lst, entries, names).list
    decreases |entries|
  {
    if entries != [] {
      TraceEndsAtResult(lst, entries[..|entries| - 1], names);
    }
  }

  /** Once an entry has raised, later entries change nothing and broadcast
      nothing. */
  lemma {:induction false} FailureIsFinal(lst: seq<Fields>, entries: seq<Fields>, names: set<string>, i: nat)
    requires i <= |entries| && UpsertEntries(lst, entries[..i], names).failed
    ensures UpsertEntries(lst, entries, names) == UpsertEntries(lst, entries[..i], names)
    ensures UpsertTrace(lst, entries, names) == UpsertTrace(lst, entries[..i], names)
    decreases |entries|
  {
    if i < |entries| {
      var init := entries[..|entries| - 1];
      assert init[..i] == entries[..i];
      FailureIsFinal(lst, init, names, i);
    } else {
      assert entries[..i] == entries;
    }
  }

  /** A whole dispatch merges: the list never shrinks and no field present
      in a slot before the message is missing after it. */
  lemma {:induction false} UpsertEntriesKeepFields(lst: seq<Fields>, entries: seq<Fields>, names: set<string>)
    ensures var p := UpsertEntries(lst, entries, names);
      |p.list| >= |lst| && forall j :: 0 <= j < |lst| ==> lst[j].Keys <= p.list[j].Keys
    decreases |entries|
  {
    if entries != [] {
      var init := entries[..|entries| - 1];
      var p := UpsertEntries(lst, init, names);
      UpsertEntriesKeepFields(lst, init, names);
      if !p.failed {
        match EntryOf(entries[|entries| - 1], names)
        case None =>
        case Some(e) =>
          match AsIndex(e.idx)
          case None =>
          case Some(i) =>
            if Upsert(p.list, i, e.fields).Some? {
              UpsertKeepsFields(p.list, i, e.fields);
            }
      }
    }
  }

  /** `s` with the dispatched list replaced by `l`. */
  function WithList(s: Snapshot, which: IndexedList, l: seq<Fields>): Snapshot {
    match which
    case Gpus => s.(gpuList := l)
    case DiskPartitions => s.(diskPartitions := l)
    case NetInterfaces => s.(netInterfaces := l)
  }

  /** The broadcasts of a dispatch: one snapshot per upsert, identical to `s`
      except for the dispatched list, which steps through `lists`. */
  function ListBroadcasts(s: Snapshot, which: IndexedList, lists: seq<seq<Fields>>, subscribers: seq<Sink>): (r: seq<Broadcast>)
    ensures |r| == |lists|
    decreases |lists|
  {
    if lists == [] then []
    else
      var last := Broadcast(WithList(s, which, lists[|lists| - 1]), subscribers);
      ListBroadcasts(s, which, lists[..|lists| - 1], subscribers) + [last]
  }

  /** The dispatched list of a snapshot. */
  function ListOf(s: Snapshot, which: IndexedList): seq<Fields> {
    match which
    case Gpus => s.gpuList
    case DiskPartitions => s.diskPartitions
    case NetInterfaces => s.netInterfaces
  }

  /** A store that agrees with `base` on everything but the dispatched list
      shows `base` with that list replaced. */
  lemma DispatchSnapshot(st: SharedState, base: Snapshot, which: IndexedList, now: real)
    requires st.records == base.records && st.remoteEnabled == base.remoteEnabled && st.alerts == base.alerts
    requires VehicleAge(st.lastVehicleRecv, now) == base.vehicleAge
    requires forall other :: other != which ==> st.Indexed(other) == ListOf(base, other)
    ensures st.SnapshotAt(now) == WithList(base, which, st.Indexed(which))
  {
    assert forall other :: other != which ==> st.Indexed(other) == ListOf(base, other);
    match which {
      case Gpus =>
        assert st.Indexed(DiskPartitions) == base.diskPartitions && st.Indexed(NetInterfaces) == base.netInterfaces;
      case DiskPartitions =>
        assert st.Indexed(Gpus) == base.gpuList && st.Indexed(NetInterfaces) == base.netInterfaces;
      case NetInterfaces =>
        assert st.Indexed(Gpus) == base.gpuList && st.Indexed(DiskPartitions) == base.diskPartitions;
    }
  }

  /** The dispatched list, broadcast log and receipt time after the first
      `i` entries of a list closure that started from the store `base`
      shows, with log `before` and receipt time `lastRecv`. */
  ghost predicate Dispatched(which: IndexedList, entries: seq<Fields>, i: nat, now: real, base: Snapshot,
                             before: seq<Broadcast>, lastRecv: real,
                             list: seq<Fields>, broadcasts: seq<Broadcast>, recv: real, subscribers: seq<Sink>)
    requires i <= |entries|
  {
    var start := ListOf(base, which);
    var p := UpsertEntries(start, entries[..i], FieldNamesOf(which));
    && list == p.list
    && broadcasts == before + ListBroadcasts(base, which, UpsertTrace(start, entries[..i], FieldNamesOf(which)), subscribers)
    && recv == (if p.applied > 0 then now else lastRecv)
  }

  /** One more entry extends a dispatch by one upsert and one broadcast, or
      ends it. */
  lemma DispatchStep(which: IndexedList, entries: seq<Fields>, i: nat, now: real, base: Snapshot,
                     before: seq<Broadcast>, lastRecv: real,
                     list: seq<Fields>, broadcasts: seq<Broadcast>, recv: real, subscribers: seq<Sink>)
    requires i < |entries|
    requires Dispatched(which, entries, i, now, base, before, lastRecv, list, broadcasts, recv, subscribers)
    requires !UpsertEntries(ListOf(base, which), entries[..i], FieldNamesOf(which)).failed
    ensures var u := EntryUpsert(list, entries[i], FieldNamesOf(which));
      && (u.Some? <==> !UpsertEntries(ListOf(base, which), entries[..i + 1], FieldNamesOf(which)).failed)
      && Dispatched(which, entries, i + 1, now, base, before, lastRecv,
                    if u.Some? then u.value else list,
                    broadcasts + (if u.Some? then [Broadcast(WithList(base, which, u.value), subscribers)] else []),
                    if u.Some? then now else recv, subscribers)
  {
    var names := FieldNamesOf(which);
    var start := ListOf(base, which);
    var p := UpsertEntries(start, entries[..i], names);
    var trace := UpsertTrace(start, entries[..i], names);
    UpsertEntriesPrefix(start, entries, names, i);
    var q := UpsertEntries(start, entries[..i + 1], names);
    var u := EntryUpsert(list, entries[i], names);
    assert q == ApplyEntry(p, entries[i], names);
    if u.Some? {
      assert q == Progress(u.value, p.applied + 1, false);
      ListBroadcastsSnoc(base, which, trace, u.value, subscribers);
      assert UpsertTrace(start, entries[..i + 1], names) == trace + [u.value];
    } else {
      assert q == Progress(list, p.applied, true);
      assert UpsertTrace(start, entries[..i + 1], names) == trace;
    }
  }

  /** A dispatch that reached the end of its entries, or raised, is the
      whole closure's effect. */
  lemma DispatchComplete(which: IndexedList, entries: seq<Fields>, i: nat, now: real, base: Snapshot,
                         before: seq<Broadcast>, lastRecv: real,
                         list: seq<Fields>, broadcasts: seq<Broadcast>, recv: real, subscribers: seq<Sink>)
    requires i <= |entries|
    requires Dispatched(which, entries, i, now, base, before, lastRecv, list, broadcasts, recv, subscribers)
    requires i == |entries| || UpsertEntries(ListOf(base, which), entries[..i], FieldNamesOf(which)).failed
    ensures var start := ListOf(base, which);
      var p := UpsertEntries(start, entries, FieldNamesOf(which));
      && p.failed == UpsertEntries(start, entries[..i], FieldNamesOf(which)).failed
      && list == p.list
      && broadcasts == before + ListBroadcasts(base, which, UpsertTrace(start, entries, FieldNamesOf(which)), subscribers)
      && recv == (if p.applied > 0 then now else lastRecv)
  {
    var start := ListOf(base, which);
    var names := FieldNamesOf(which);
    if i == |entries| {
      assert entries[..i] == entries;
    } else {
      FailureIsFinal(start, entries, names, i);
    }
    assert UpsertEntries(start, entries, names) == UpsertEntries(start, entries[..i], names);
    assert UpsertTrace(start, entries, names) == UpsertTrace(start, entries[..i], names);
  }

  /** The `k`-th broadcast of a dispatch shows the `k`-th list it went
      through, and the store otherwise as `s`. */
  lemma {:induction false} ListBroadcastsAt(s: Snapshot, which: IndexedList, lists: seq<seq<Fields>>,
                                            subscribers: seq<Sink>, k: nat)
    requires k < |lists|
    ensures ListBroadcasts(s, which, lists, subscribers)[k] == Broadcast(WithList(s, which, lists[k]), subscribers)
    decreases |lists|
  {
    if k < |lists| - 1 {
      ListBroadcastsAt(s, which, lists[..|lists| - 1], subscribers, k);
    }
  }

  lemma ListBroadcastsSnoc(s: Snapshot, which: IndexedList, lists: seq<seq<Fields>>, l: seq<Fields>, subscribers: seq<Sink>)
    ensures ListBroadcasts(s, which, lists + [l], subscribers)
      == ListBroadcasts(s, which, lists, subscribers) + [Broadcast(WithList(s, which, l), subscribers)]
  {
    assert (lists + [l])[..|lists|] == lists;
  }

  /** An incoming disk message: `data.get('partitions', [])`. */
  datatype DiskMessage = DiskMessage(partitions: Option<seq<Fields>>)

  /** An incoming net message: the interface counts and
      `data.get('interfaces', [])`. */
  datatype NetMessage = NetMessage(fields: Fields, interfaces: Option<seq<Fields>>)

  // ---------------------------------------------------------------------
  // The protocol object
  // ---------------------------------------------------------------------

  class VehicleProtocol {
    const state: SharedState
    var seqCounter: SeqNum
    /** How many sequence numbers have been handed out, over all kinds. */
    ghost var issued: nat
    /** The publications the transport accepted, in order. */
    var sent: seq<Publication>

    /** One counter for all four kinds: 0 advanced once per sequence number
        handed out so far, which is that count modulo 65536. */
    ghost predicate Valid()
      reads this
    {
      seqCounter == Advance(0, issued)
    }

    constructor (state: SharedState)
      ensures this.state == state
      ensures Valid() && seqCounter == 0 && issued == 0 && sent == []
    {
      this.state := state;
      seqCounter := 0;
      issued := 0;
      sent := [];
    }

    /** `_next_seq`: return the counter and advance it modulo 65536. */
    method NextSeq() returns (s: SeqNum)
      requires Valid()
      modifies this`seqCounter, this`issued
      ensures Valid()
      ensures s == old(seqCounter) && s == old(issued) % SeqModulus
      ensures seqCounter == Successor(s) && issued == old(issued) + 1
    {
      s := seqCounter;
      AdvanceIsModular(0, issued);
      seqCounter := Successor(seqCounter);
      issued := issued + 1;
    }

    /** `_zput`: a failed put is caught and logged, so the caller always
        continues; only an accepted put reaches the log. */
    method Put(topic: string, payload: Payload, delivered: bool)
      modifies this`sent
      ensures sent == old(sent) + (if delivered then [Publication(topic, payload)] else [])
    {
      if delivered {
        sent := sent + [Publication(topic, payload)];
      }
    }

    /** `send_heartbeat(ts)`: consumes one sequence number even when the put
        fails. */
    method SendHeartbeat(ts: real, delivered: bool)
      requires Valid()
      modifies this`seqCounter, this`issued, this`sent
      ensures Valid() && issued == old(issued) + 1 && seqCounter == Successor(old(seqCounter))
      ensures sent == old(sent) + (if delivered then [Publication(HeartbeatTopic, Heartbeat(ts, old(seqCounter)))] else [])
    {
      var s := NextSeq();
      Put(HeartbeatTopic, Heartbeat(ts, s), delivered);
    }

    /** `send_teleop(linear_x, angular_z)`. Both values are rounded before
        the sequence number is taken, so a value `round` rejects raises out
        of the call with the counter untouched (`ok` false). */
    method SendTeleop(linearX: Value, angularZ: Value, delivered: bool) returns (ok: bool)
      requires Valid()
      modifies this`seqCounter, this`issued, this`sent
      ensures Valid()
      ensures ok == (IsNumber(linearX) && IsNumber(angularZ))
      ensures !ok ==> seqCounter == old(seqCounter) && issued == old(issued) && sent == old(sent)
      ensures ok ==> issued == old(issued) + 1 && seqCounter == Successor(old(seqCounter))
      ensures ok ==> sent == old(sent) + (if delivered then [Publication(TeleopTopic, Teleop(linearX, angularZ, old(seqCounter)))] else [])
    {
      ok := IsNumber(linearX) && IsNumber(angularZ);
      if !ok {
        return;
      }
      var s := NextSeq();
      Put(TeleopTopic, Teleop(linearX, angularZ, s), delivered);
    }

    /** `send_estop(activate)`. */
    method SendEstop(activate: bool, delivered: bool)
      requires Valid()
      modifies this`seqCounter, this`issued, this`sent
      ensures Valid() && issued == old(issued) + 1 && seqCounter == Successor(old(seqCounter))
      ensures sent == old(sent) + (if delivered then [Publication(EstopTopic, EstopCommand(activate, old(seqCounter)))] else [])
    {
      var s := NextSeq();
      Put(EstopTopic, EstopCommand(activate, s), delivered);
    }

    /** `send_cmd_mode(mode)`. */
    method SendCmdMode(mode: int, delivered: bool)
      requires Valid()
      modifies this`seqCounter, this`issued, this`sent
      ensures Valid() && issued == old(issued) + 1 && seqCounter == Successor(old(seqCounter))
      ensures sent == old(sent) + (if delivered then [Publication(CmdModeTopic, CmdMode(mode, old(seqCounter)))] else [])
    {
      var s := NextSeq();
      Put(CmdModeTopic, CmdMode(mode, s), delivered);
    }

    /** The `_on_mux` closure: merge into `mux`, then set the side-channel
        flag to the payload's `remote_enabled`, or False when it has none.
        If validation raises, the closure ends before the flag is set. */
    method OnMux(data: Fields, now: real) returns (ok: bool)
      requires state.Valid()
      modifies state`records, state`lastVehicleRecv, state`alerts, state`broadcasts, state`remoteEnabled
      ensures state.Valid()
      ensures state.records == old(state.records)[Mux := Merge(old(state.records)[Mux], data)]
      ensures state.lastVehicleRecv == now
      ensures ok == ComputeAlerts(state.records, now, now).Some?
      ensures state.alerts == if ok then ComputeAlerts(state.records, now, now).value else old(state.alerts)
      ensures state.remoteEnabled ==
        if !ok then old(state.remoteEnabled)
        else if "remote_enabled" in data then data["remote_enabled"] else Bool(false)
      ensures state.broadcasts == old(state.broadcasts)
        + (if ok then [Broadcast(state.SnapshotAt(now).(remoteEnabled := old(state.remoteEnabled)), state.subscribers),
                       Broadcast(state.SnapshotAt(now), state.subscribers)]
           else [])
    {
      assert KeyOf("mux") == Some(Mux);
      ok := state.UpdatePacket("mux", data, now);
      if ok {
        SetRemoteFlag(data, now, old(state.records), old(state.alerts), old(state.remoteEnabled), old(state.broadcasts));
      }
    }

    /** The store once `update_packet('mux', data)` has merged and validated,
        against the records `r0` and alerts `a0` it held before. */
    ghost predicate MuxMerged(data: Fields, now: real, ok: bool, r0: Records, a0: seq<Alert>)
      reads state`records, state`lastVehicleRecv, state`alerts
    {
      && state.Valid()
      && Mux in r0
      && state.records == r0[Mux := Merge(r0[Mux], data)]
      && state.lastVehicleRecv == now
      && ok == ComputeAlerts(state.records, now, now).Some?
      && state.alerts == if ok then ComputeAlerts(state.records, now, now).value else a0
    }

    /** The rest of the `_on_mux` closure once validation passed:
        `update_remote_enabled` with the payload's flag, which syncs again. */
    method SetRemoteFlag(data: Fields, now: real, ghost r0: Records, ghost a0: seq<Alert>, ghost e0: Value, ghost b0: seq<Broadcast>)
      requires MuxMerged(data, now, true, r0, a0)
      requires state.remoteEnabled == e0
      requires state.broadcasts == b0 + [Broadcast(state.SnapshotAt(now), state.subscribers)]
      modifies state`remoteEnabled, state`broadcasts
      ensures MuxMerged(data, now, true, r0, a0)
      ensures state.remoteEnabled == if "remote_enabled" in data then data["remote_enabled"] else Bool(false)
      ensures state.broadcasts == b0
        + [Broadcast(state.SnapshotAt(now).(remoteEnabled := e0), state.subscribers),
           Broadcast(state.SnapshotAt(now), state.subscribers)]
    {
      var flag := if "remote_enabled" in data then data["remote_enabled"] else Bool(false);
      state.UpdateRemoteEnabled(flag, now);
    }

    /** The closures `_on_twist`, `_on_network`, `_on_hunter`, `_on_estop`,
        `_on_cpu` and `_on_mem`: one `update_packet` with the payload as it
        is. */
    method OnRecordTopic(topic: RecordTopic, data: Fields, now: real) returns (ok: bool)
      requires state.Valid()
      modifies state`records, state`lastVehicleRecv, state`alerts, state`broadcasts
      ensures state.Valid()
      ensures KeyOf(TargetOf(topic)).Some?
      ensures var k := KeyOf(TargetOf(topic)).value;
        state.records == old(state.records)[k := Merge(old(state.records)[k], data)]
      ensures state.lastVehicleRecv == now
      ensures ok == ComputeAlerts(state.records, now, now).Some?
      ensures state.alerts == if ok then ComputeAlerts(state.records, now, now).value else old(state.alerts)
      ensures state.broadcasts == old(state.broadcasts) + (if ok then [Broadcast(state.SnapshotAt(now), state.subscribers)] else [])
    {
      assert KeyOf(TargetOf(topic)).Some?;
      ok := state.UpdatePacket(TargetOf(topic), data, now);
    }

    /** One iteration of a list closure: upsert one entry through
        `update_x`, which stamps the receipt time and broadcasts; apart from
        the dispatched list, the store is as `base` shows it. */
    method UpsertOne(which: IndexedList, g: Fields, now: real, ghost base: Snapshot) returns (ok: bool)
      requires state.records == base.records && state.remoteEnabled == base.remoteEnabled && state.alerts == base.alerts
      requires VehicleAge(now, now) == base.vehicleAge
      requires forall other :: other != which ==> state.Indexed(other) == ListOf(base, other)
      modifies state`gpuList, state`diskPartitions, state`netInterfaces, state`lastVehicleRecv, state`broadcasts
      ensures var u := EntryUpsert(old(state.Indexed(which)), g, FieldNamesOf(which));
        && ok == u.Some?
        && state.Indexed(which) == (if ok then u.value else old(state.Indexed(which)))
        && state.lastVehicleRecv == (if ok then now else old(state.lastVehicleRecv))
        && state.broadcasts == old(state.broadcasts)
             + (if ok then [Broadcast(WithList(base, which, u.value), state.subscribers)] else [])
      ensures forall other :: other != which ==> state.Indexed(other) == old(state.Indexed(other))
    {
      match EntryOf(g, FieldNamesOf(which)) {
        case None =>
          ok := false;
        case Some(e) =>
          ok := state.UpdateIndexed(which, e.idx, e.fields, now);
          if ok {
            DispatchSnapshot(state, base, which, now);
          }
      }
    }

    /** Where a list closure stands after its first `i` entries, having
        started from the store `base` shows, with broadcast log `before`
        and receipt time `lastRecv`: `ok` until an entry raised, and the
        rest of the store untouched. */
    ghost predicate Dispatching(which: IndexedList, entries: seq<Fields>, i: nat, ok: bool, now: real,
                                base: Snapshot, before: seq<Broadcast>, lastRecv: real)
      reads state
    {
      && i <= |entries|
      && state.records == base.records && state.remoteEnabled == base.remoteEnabled && state.alerts == base.alerts
      && VehicleAge(now, now) == base.vehicleAge
      && (forall other :: other != which ==> state.Indexed(other) == ListOf(base, other))
      && Dispatched(which, entries, i, now, base, before, lastRecv,
                    state.Indexed(which), state.broadcasts, state.lastVehicleRecv, state.subscribers)
      && ok == !UpsertEntries(ListOf(base, which), entries[..i], FieldNamesOf(which)).failed
    }

    /** The body of the loop shared by the list closures: the `i`-th entry
        extends the dispatch by one upsert and one broadcast, or raises. */
    method DispatchOne(which: IndexedList, entries: seq<Fields>, i: nat, now: real, ghost base: Snapshot,
                       ghost before: seq<Broadcast>, ghost lastRecv: real) returns (ok: bool)
      requires i < |entries|
      requires Dispatching(which, entries, i, true, now, base, before, lastRecv)
      modifies state`gpuList, state`diskPartitions, state`netInterfaces, state`lastVehicleRecv, state`broadcasts
      ensures Dispatching(which, entries, i + 1, ok, now, base, before, lastRecv)
    {
      DispatchStep(which, entries, i, now, base, before, lastRecv,
                   state.Indexed(which), state.broadcasts, state.lastVehicleRecv, state.subscribers);
      ok := UpsertOne(which, entries[i], now, base);
    }

    /** The loop shared by the list closures: upsert each entry's picked
        fields at its `idx`, until the end or the first entry that raises. */
    method UpsertEach(which: IndexedList, entries: seq<Fields>, now: real) returns (ok: bool)
      modifies state`gpuList, state`diskPartitions, state`netInterfaces, state`lastVehicleRecv, state`broadcasts
      ensures var p := UpsertEntries(old(state.Indexed(which)), entries, FieldNamesOf(which));
        && ok == !p.failed
        && state.Indexed(which) == p.list
        && state.lastVehicleRecv == (if p.applied > 0 then now else old(state.lastVehicleRecv))
      ensures state.broadcasts == old(state.broadcasts)
        + ListBroadcasts(old(state.SnapshotAt(now)).(vehicleAge := VehicleAge(now, now)), which,
                         UpsertTrace(old(state.Indexed(which)), entries, FieldNamesOf(which)), state.subscribers)
      ensures forall other :: other != which ==> state.Indexed(other) == old(state.Indexed(other))
    {
      ghost var base := state.SnapshotAt(now).(vehicleAge := VehicleAge(now, now));
      ghost var before, lastRecv := state.broadcasts, state.lastVehicleRecv;
      assert forall w :: ListOf(base, w) == state.Indexed(w);
      assert entries[..0] == [];
      ok := true;
      var i := 0;
      while i < |entries| && ok
        invariant Dispatching(which, entries, i, ok, now, base, before, lastRecv)
      {
        ok := DispatchOne(which, entries, i, now, base, before, lastRecv);
        i := i + 1;
      }
      DispatchComplete(which, entries, i, now, base, before, lastRecv,
                       state.Indexed(which), state.broadcasts, state.lastVehicleRecv, state.subscribers);
    }

    /** The `_on_gpu` closure. */
    method OnGpu(gpus: seq<Fields>, now: real) returns (ok: bool)
      modifies state`gpuList, state`diskPartitions, state`netInterfaces, state`lastVehicleRecv, state`broadcasts
      ensures var p := UpsertEntries(old(state.gpuList), gpus, GpuFieldNames);
        && ok == !p.failed
        && state.gpuList == p.list
        && state.lastVehicleRecv == (if p.applied > 0 then now else old(state.lastVehicleRecv))
      ensures state.broadcasts == old(state.broadcasts)
        + ListBroadcasts(old(state.SnapshotAt(now)).(vehicleAge := VehicleAge(now, now)), Gpus,
                         UpsertTrace(old(state.gpuList), gpus, GpuFieldNames), state.subscribers)
      ensures state.diskPartitions == old(state.diskPartitions) && state.netInterfaces == old(state.netInterfaces)
    {
      ok := UpsertEach(Gpus, gpus, now);
      assert state.Indexed(DiskPartitions) == old(state.Indexed(DiskPartitions));
      assert state.Indexed(NetInterfaces) == old(state.Indexed(NetInterfaces));
    }

    /** The `_on_disk` closure: stamps the receipt time first, so even a
        message without partitions counts as a sign of life. */
    method OnDisk(msg: DiskMessage, now: real) returns (ok: bool)
      modifies state`gpuList, state`diskPartitions, state`netInterfaces, state`lastVehicleRecv, state`broadcasts
      ensures var p := UpsertEntries(old(state.diskPartitions), msg.partitions.GetOr([]), DiskFieldNames);
        && ok == !p.failed
        && state.diskPartitions == p.list
      ensures state.broadcasts == old(state.broadcasts)
        + ListBroadcasts(old(state.SnapshotAt(now)).(vehicleAge := VehicleAge(now, now)), DiskPartitions,
                         UpsertTrace(old(state.diskPartitions), msg.partitions.GetOr([]), DiskFieldNames), state.subscribers)
      ensures state.lastVehicleRecv == now
      ensures state.gpuList == old(state.gpuList) && state.netInterfaces == old(state.netInterfaces)
    {
      state.lastVehicleRecv := now;
      ok := UpsertEach(DiskPartitions, msg.partitions.GetOr([]), now);
      assert state.Indexed(Gpus) == old(state.Indexed(Gpus));
      assert state.Indexed(NetInterfaces) == old(state.Indexed(NetInterfaces));
    }

    /** The `_on_net` closure: the three interface counts are merged into
        `resources` before the interfaces are upserted; a missing count
        raises before anything changes. */
    method OnNet(msg: NetMessage, now: real) returns (ok: bool)
      requires state.Valid()
      modifies state`records, state`lastVehicleRecv, state`alerts, state`broadcasts
      modifies state`gpuList, state`diskPartitions, state`netInterfaces
      ensures state.Valid()
      ensures Pick(msg.fields, NetCountNames).None? ==>
        && !ok && state.records == old(state.records) && state.netInterfaces == old(state.netInterfaces)
        && state.lastVehicleRecv == old(state.lastVehicleRecv) && state.alerts == old(state.alerts)
        && state.broadcasts == old(state.broadcasts)
      ensures Pick(msg.fields, NetCountNames).Some? ==>
        NetMerged(Pick(msg.fields, NetCountNames).value, msg.interfaces.GetOr([]), now, ok)
      ensures state.gpuList == old(state.gpuList) && state.diskPartitions == old(state.diskPartitions)
    {
      var counts := Pick(msg.fields, NetCountNames);
      if counts.None? {
        return false;
      }
      ok := MergeNetCounts(counts.value, msg.interfaces.GetOr([]), now);
    }

    /** What `_on_net` does once the counts are present: `resources` gains
        the counts and the receipt time is stamped; when the alerts can be
        recomputed, the merged snapshot is broadcast and the interfaces are
        upserted after it, each broadcasting in turn; otherwise nothing
        else happens. */
    twostate predicate NetMerged(counts: Fields, interfaces: seq<Fields>, now: real, ok: bool)
      requires old(state.Valid())
      reads this, state
    {
      && state.Valid()
      && state.records == old(state.records)[Resources := Merge(old(state.records)[Resources], counts)]
      && state.lastVehicleRecv == now
      && var v := ComputeAlerts(state.records, now, now);
         var p := UpsertEntries(old(state.netInterfaces), interfaces, NetInterfaceFieldNames);
         var merged := state.SnapshotAt(now).(netInterfaces := old(state.netInterfaces));
         && state.alerts == (if v.Some? then v.value else old(state.alerts))
         && (v.Some? ==>
               && ok == !p.failed && state.netInterfaces == p.list
               && state.broadcasts == old(state.broadcasts) + [Broadcast(merged, state.subscribers)]
                    + ListBroadcasts(merged, NetInterfaces,
                                     UpsertTrace(old(state.netInterfaces), interfaces, NetInterfaceFieldNames),
                                     state.subscribers))
         && (v.None? ==> !ok && state.netInterfaces == old(state.netInterfaces) && state.broadcasts == old(state.broadcasts))
    }

    /** The part of `_on_net` after the counts were picked. */
    method MergeNetCounts(counts: Fields, interfaces: seq<Fields>, now: real) returns (ok: bool)
      requires state.Valid()
      modifies state`records, state`lastVehicleRecv, state`alerts, state`broadcasts
      modifies state`gpuList, state`diskPartitions, state`netInterfaces
      ensures state.Valid()
      ensures NetMerged(counts, interfaces, now, ok)
      ensures state.gpuList == old(state.gpuList) && state.diskPartitions == old(state.diskPartitions)
    {
      assert KeyOf("resources") == Some(Resources);
      ok := state.UpdatePacket("resources", counts, now);
      if ok {
        ok := UpsertInterfaces(interfaces, now);
      }
    }

    /** The interface loop of `_on_net`, entered with the receipt time
        already stamped: every broadcast shows the store as it is apart
        from the interface list. */
    method UpsertInterfaces(interfaces: seq<Fields>, now: real) returns (ok: bool)
      requires state.lastVehicleRecv == now
      modifies state`gpuList, state`diskPartitions, state`netInterfaces, state`lastVehicleRecv, state`broadcasts
      ensures var p := UpsertEntries(old(state.netInterfaces), interfaces, NetInterfaceFieldNames);
        ok == !p.failed && state.netInterfaces == p.list && state.lastVehicleRecv == now
      ensures state.broadcasts == old(state.broadcasts)
        + ListBroadcasts(state.SnapshotAt(now).(netInterfaces := old(state.netInterfaces)), NetInterfaces,
                         UpsertTrace(old(state.netInterfaces), interfaces, NetInterfaceFieldNames), state.subscribers)
      ensures state.gpuList == old(state.gpuList) && state.diskPartitions == old(state.diskPartitions)
    {
      ghost var before := state.SnapshotAt(now);
      assert before.(vehicleAge := VehicleAge(now, now)) == before;
      ok := UpsertEach(NetInterfaces, interfaces, now);
      assert state.Indexed(Gpus) == old(state.Indexed(Gpus));
      assert state.Indexed(DiskPartitions) == old(state.Indexed(DiskPartitions));
      assert before == state.SnapshotAt(now).(netInterfaces := old(state.netInterfaces));
    }
  }

  // ---------------------------------------------------------------------
  // The periodic send loop
  // ---------------------------------------------------------------------

  /** `1 / heartbeat_rate`, `1 / teleop_rate` and `state_push_interval`. */
  datatype SendConfig = SendConfig(hbInterval: real, tcInterval: real, pushInterval: real)

  /** The loop's `last_hb`, `last_tc` and `last_push`, all 0.0 at start. */
  datatype Timers = Timers(lastHb: real, lastTc: real, lastPush: real)

  const StartTimers: Timers := Timers(0.0, 0.0, 0.0)

  /** What one pass of the loop body does at `now`. */
  datatype SendPlan = SendPlan(heartbeat: bool, teleop: bool, push: bool, next: Timers)

  /** The teleop gate: remote mode (`control.mode == 2`) and no local
      e-stop (`not control.estop`), re-read on every pass. */
  predicate TeleopAllowed(mode: Value, estop: Value) {
    EqualsInt(mode, 2) && !Truthy(estop)
  }

  /** The decisions of one pass: a heartbeat and a state push go out
      exactly when their timers are due; a teleop exactly when its timer is
      due and the gate is open; every due timer is reset to `now`, the
      teleop timer even when the gate is closed. */
  function PlanSend(cfg: SendConfig, t: Timers, now: real, mode: Value, estop: Value): (p: SendPlan)
    ensures p.heartbeat == Due(t.lastHb, cfg.hbInterval, now)
    ensures p.teleop <==> Due(t.lastTc, cfg.tcInterval, now) && TeleopAllowed(mode, estop)
    ensures p.push == Due(t.lastPush, cfg.pushInterval, now)
    ensures p.next == Timers(Fire(t.lastHb, cfg.hbInterval, now), Fire(t.lastTc, cfg.tcInterval, now),
                             Fire(t.lastPush, cfg.pushInterval, now))
  {
    SendPlan(
      Due(t.lastHb, cfg.hbInterval, now),
      Due(t.lastTc, cfg.tcInterval, now) && TeleopAllowed(mode, estop),
      Due(t.lastPush, cfg.pushInterval, now),
      Timers(Fire(t.lastHb, cfg.hbInterval, now),
             Fire(t.lastTc, cfg.tcInterval, now),
             Fire(t.lastPush, cfg.pushInterval, now)))
  }

  /** A due teleop timer is reset whether or not the gate let a teleop
      through: a pass outside remote mode still consumes the slot. */
  lemma GatedTickStillResets(cfg: SendConfig, t: Timers, now: real, mode: Value, estop: Value)
    requires Due(t.lastTc, cfg.tcInterval, now) && !TeleopAllowed(mode, estop)
    ensures !PlanSend(cfg, t, now, mode, estop).teleop
    ensures PlanSend(cfg, t, now, mode, estop).next.lastTc == now
  {
  }

  /** With positive intervals, a second pass at the same instant sends and
      pushes nothing. */
  lemma NoRepeatAtSameInstant(cfg: SendConfig, t: Timers, now: real, mode: Value, estop: Value)
    requires cfg.hbInterval > 0.0 && cfg.tcInterval > 0.0 && cfg.pushInterval > 0.0
    ensures var again := PlanSend(cfg, PlanSend(cfg, t, now, mode, estop).next, now, mode, estop);
      !again.heartbeat && !again.teleop && !again.push
  {
  }

  /** Whether the teleop send of a pass raises (a control value `round`
      rejects). */
  predicate TeleopRaises(p: SendPlan, linearX: Value, angularZ: Value) {
    p.teleop && !(IsNumber(linearX) && IsNumber(angularZ))
  }

  /** The publications a pass adds to the log: a heartbeat, then a teleop,
      numbered from the shared counter in that order. */
  function PassPublications(p: SendPlan, s: SeqNum, wallClock: real, linearX: Value, angularZ: Value,
                            hbDelivered: bool, tcDelivered: bool): seq<Publication>
  {
    var tcSeq := if p.heartbeat then Successor(s) else s;
    (if p.heartbeat && hbDelivered then [Publication(HeartbeatTopic, Heartbeat(wallClock, s))] else [])
    + (if p.teleop && tcDelivered && !TeleopRaises(p, linearX, angularZ)
       then [Publication(TeleopTopic, Teleop(linearX, angularZ, tcSeq))] else [])
  }

  /** The sends of one pass: a heartbeat when its timer is due, then a
      teleop command when its timer is due and the gate is open. `ok` is
      false when the teleop send raised. */
  method SendDue(proto: VehicleProtocol, p: SendPlan, wallClock: real, linearX: Value, angularZ: Value,
                 hbDelivered: bool, tcDelivered: bool) returns (ok: bool)
    requires proto.Valid()
    modifies proto`seqCounter, proto`issued, proto`sent
    ensures proto.Valid()
    ensures ok == !TeleopRaises(p, linearX, angularZ)
    ensures proto.issued == old(proto.issued) + (if p.heartbeat then 1 else 0) + (if p.teleop && ok then 1 else 0)
    ensures proto.sent == old(proto.sent)
      + PassPublications(p, old(proto.seqCounter), wallClock, linearX, angularZ, hbDelivered, tcDelivered)
  {
    if p.heartbeat {
      proto.SendHeartbeat(wallClock, hbDelivered);
    }
    ok := true;
    if p.teleop {
      ok := proto.SendTeleop(linearX, angularZ, tcDelivered);
    }
  }

  /** One pass of `run_send_loop`. `ok` is false when the pass raised (a
      teleop value `round` rejects, or the state push's validation), which
      ends the loop in the source. */
  method SendLoopStep(state: SharedState, proto: VehicleProtocol, cfg: SendConfig, t: Timers, now: real,
                      wallClock: real, hbDelivered: bool, tcDelivered: bool) returns (next: Timers, ok: bool)
    requires state.Valid() && proto.Valid()
    modifies state`alerts, state`broadcasts, proto`seqCounter, proto`issued, proto`sent
    ensures state.Valid() && proto.Valid()
    ensures var ctrl := state.records[Control];
      var p := PlanSend(cfg, t, now, ctrl["mode"], ctrl["estop"]);
      var raised := TeleopRaises(p, ctrl["linear_x"], ctrl["angular_z"]);
      && next == p.next
      && proto.issued == old(proto.issued) + (if p.heartbeat then 1 else 0) + (if p.teleop && !raised then 1 else 0)
      && proto.sent == old(proto.sent)
           + PassPublications(p, old(proto.seqCounter), wallClock, ctrl["linear_x"], ctrl["angular_z"], hbDelivered, tcDelivered)
    ensures var ctrl := state.records[Control];
      var p := PlanSend(cfg, t, now, ctrl["mode"], ctrl["estop"]);
      var raised := TeleopRaises(p, ctrl["linear_x"], ctrl["angular_z"]);
      raised || !p.push ==> ok == !raised && state.alerts == old(state.alerts) && state.broadcasts == old(state.broadcasts)
    ensures var ctrl := state.records[Control];
      var p := PlanSend(cfg, t, now, ctrl["mode"], ctrl["estop"]);
      var v := ComputeAlerts(state.records, state.lastVehicleRecv, now);
      !TeleopRaises(p, ctrl["linear_x"], ctrl["angular_z"]) && p.push ==>
        && ok == v.Some?
        && state.alerts == (if ok then v.value else old(state.alerts))
        && state.broadcasts == old(state.broadcasts) + (if ok then [Broadcast(state.SnapshotAt(now), state.subscribers)] else [])
  {
    var ctrl := state.records[Control];
    var p := PlanSend(cfg, t, now, ctrl["mode"], ctrl["estop"]);
    ok := SendDue(proto, p, wallClock, ctrl["linear_x"], ctrl["angular_z"], hbDelivered, tcDelivered);
    next := p.next;
    if ok && p.push {
      ok := state.Validate(now);
      if ok {
        state.BroadcastSync(now);
      }
    }
  }
}
