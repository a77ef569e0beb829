# NEV ground-control station: a verified model of its core

The ground-control station relays between an unmanned vehicle and its
operators. The vehicle publishes telemetry topics (`nev/vehicle/*`). The
station merges them into a shared state store, recomputes a short list of
operator alerts, and pushes snapshots to web clients. In the other direction
it publishes heartbeat, teleop, e-stop and mode commands (`nev/gcs/*`).
Every command carries a 16-bit sequence number from one shared counter.
A joystick thread turns stick and button readings into the teleop command
and toggles the e-stop. A separate station client publishes the same kind
of commands on `nev/station/*`.

The Dafny model follows the Python modules one to one:

- `json_values.dfy` (module `JsonValues`) holds decoded JSON scalars. It
  spells out the Python operations the core applies to them: truthiness,
  `abs`, `== 2`, and use as a list index.
- `wire.dfy` (module `Wire`) holds the 16-bit sequence counter and the
  outbound payloads.
- `state.dfy` (module `State`) models `state.py`. `SharedState` is a class
  whose methods update the records, the indexed lists, the alerts, the
  subscribers and a log of broadcasts. `_validate` is the pure function
  `ComputeAlerts`.
- `cadence.dfy` (module `Cadence`) holds the monotonic-clock timers shared
  by both send loops, and the rate limit they enforce over a run.
- `vehicle_bridge.dfy` (module `VehicleBridge`) models `vehicle_bridge.py`.
  It covers the dispatch closures, the four sends and one pass of
  `run_send_loop`.
- `joystick.dfy` (module `Joystick`) models `joystick.py`. It covers the
  deadzone, the config check, connect and disconnect, the e-stop toggle, one
  pass of the `_run` loop, and a run of ticks that ties the e-stop flag to
  the button's rising edges.
- `station_client.dfy` (module `Station`) models `station_client.py`,
  including a finite run of its send loop.
- `web_api.dfy` (module `WebApi`) models the two state-changing REST
  commands of `web/server.py`.

Conventions:

- Time is a parameter (`now` for the monotonic clock, `wallClock` for
  `time.time()`). A step that stamps and then validates uses one `now`.
- A transport put is a `delivered` flag. An accepted put is appended to the
  protocol's `sent` log. A failed put is swallowed, and the sequence number
  is consumed anyway.
- Python exceptions that end a closure or a loop become an `ok` result or
  an `Option`. Examples are `abs` on a string, a missing field, or a bad
  list index.
- Each protocol object keeps a ghost count `issued` of sequence numbers
  handed out. Its invariant is `seqCounter == Advance(0, issued)`: the
  counter advanced once per number, which is `issued % 65536`.

## Model

| member | source | states |
|---|---|---|
| JsonValues.Magnitude | state.py:145 | `abs(v)` of a number is non-negative, and positive exactly when `v` is truthy |
| Wire.Successor | vehicle_bridge.py:155-158 | the next counter value is `s + 1` below 65535 and wraps to 0 at 65535, so it stays in [0, 65535] |
| Wire.AdvanceIsModular | vehicle_bridge.py:155-158 | handing out `n` numbers moves the counter by `n` modulo 65536; both protocol objects keep `seqCounter == Advance(0, issued)` as their invariant |
| State.KeyOf | state.py:105-107 | a name resolves to a record iff it is that record's attribute name, and otherwise to no record |
| State.DefaultRecords | state.py:84-92 | the initial store has every record with exactly its dataclass fields |
| State.Merge | state.py:108-110 | fields named in the payload are overwritten, the other fields are kept, and the schema is unchanged |
| State.MergeIgnoresUnknownNames | state.py:108-110 | payload names that are not fields of the record have no effect |
| State.MergeIdempotent | state.py:108-110 | merging the same payload twice equals merging it once |
| State.Blanks | state.py:117-118 | the padding is `n` empty dicts |
| State.Upsert | state.py:115-119 | fails iff `idx < -len`; for `idx >= 0` the length becomes max(len, idx+1), new slots are empty, slot `idx` is merged and the other slots are unchanged; a negative index merges slot `len+idx` |
| State.UpsertAt | state.py:115-119 | a non-integer index raises before any change; an int or bool index upserts |
| State.UpsertKeepsFields | state.py:117-119 | an upsert never shrinks the list and never loses a field of any slot |
| State.UpsertFiveOnEmpty | state.py:115-119 | an empty list upserted at 5 is five empty dicts followed by the data |
| State.ComputeAlerts | state.py:140-165 | validation raises iff `abs` meets a non-number in the short-circuited moving check; otherwise at most 4 alerts, one per kind, in check order, at fixed levels |
| State.MovingAlertIff | state.py:143-147 | the moving error is raised iff `is_estop` is truthy and \|final_lx\| or \|final_az\| is strictly above 0.05 |
| State.UnconfirmedAlertIff | state.py:149-151 | the confirmation warning is raised iff `control.estop` holds and `estop.is_estop` does not, and it never coexists with the moving error |
| State.RemoteAlertIff | state.py:153-157 | the remote warning is raised iff requested mode is 2, remote is enabled and teleop is not active |
| State.StaleAlertIff | state.py:159-163 | the stale error is raised iff something was received and more than 3.0 s ago, and it carries exactly that age |
| State.RemoveFirst | state.py:179-183 | removing a missing queue changes nothing; otherwise only the first occurrence goes, so the multiset loses exactly one copy |
| State.SharedState.constructor | state.py:84-101 | default records, empty lists, no alerts, no subscribers, nothing received |
| State.SharedState.BroadcastSync | state.py:168-174 | one snapshot is offered to every current subscriber |
| State.SharedState.Validate | state.py:140-165 | the alert list is replaced by `ComputeAlerts`, or left as it was when validation raises |
| State.SharedState.UpdatePacket | state.py:103-113 | an unknown key changes nothing; otherwise only the named record is merged, the receipt time is stamped, alerts are recomputed, and a broadcast follows unless validation raised |
| State.SharedState.UpdateIndexed | state.py:121-134 | upsert into one list, stamp and broadcast, with no validation; on failure nothing changes; the other lists are untouched |
| State.SharedState.UpdateGpu | state.py:121-124 | `UpdateIndexed` on the GPU list |
| State.SharedState.UpdateDiskPartition | state.py:126-129 | `UpdateIndexed` on the disk partitions |
| State.SharedState.UpdateNetInterface | state.py:131-134 | `UpdateIndexed` on the network interfaces |
| State.SharedState.UpdateRemoteEnabled | state.py:136-138 | sets the side-channel flag and broadcasts, without stamping or validating |
| State.SharedState.AddSubscriber | state.py:176-177 | appends the queue |
| State.SharedState.RemoveSubscriber | state.py:179-183 | the subscriber list becomes `RemoveFirst` of the old one |
| Cadence.LastFiringIsCurrent | vehicle_bridge.py:198-200 | a timer's last-fired time is its latest firing, or the start time if it never fired |
| Cadence.FireTimesSpaced | vehicle_bridge.py:198-211 | over any run of checks, consecutive firings of a timer are at least one interval apart |
| VehicleBridge.Pick | vehicle_bridge.py:112-118 | the copied entry has exactly the listed fields with the payload's values; it raises iff one is missing |
| VehicleBridge.EntryOf | vehicle_bridge.py:111-118 | an entry is formed iff `idx` and every listed field are present |
| VehicleBridge.ApplyEntry | vehicle_bridge.py:111-118 | after a raise, later entries change nothing; otherwise a successful entry counts one upsert |
| VehicleBridge.UpsertEntries | vehicle_bridge.py:108-119 | the loop applies every entry unless one raises, and never more entries than given |
| VehicleBridge.UpsertTrace | vehicle_bridge.py:110-118 | the lists a dispatch goes through, one per applied entry, so exactly as many as `UpsertEntries` applied |
| VehicleBridge.TraceEndsAtResult | vehicle_bridge.py:110-118 | the last list a dispatch goes through is the list it leaves behind |
| VehicleBridge.FailureIsFinal | vehicle_bridge.py:110-118 | once an entry has raised, the rest of the payload has no effect |
| VehicleBridge.UpsertEntriesKeepFields | vehicle_bridge.py:108-151 | a list dispatch never shrinks the list and never loses a field of an existing slot |
| VehicleBridge.ListBroadcastsAt | vehicle_bridge.py:110-118 | the `k`-th broadcast of a dispatch shows the `k`-th list it went through, and the rest of the store as it was |
| VehicleBridge.VehicleProtocol.constructor | vehicle_bridge.py:21-27 | the counter starts at 0 with nothing sent |
| VehicleBridge.VehicleProtocol.NextSeq | vehicle_bridge.py:155-158 | returns the counter and advances it to its successor, keeping the counter equal to the count handed out mod 65536 |
| VehicleBridge.VehicleProtocol.Put | vehicle_bridge.py:160-164 | an accepted put is logged; a failed one is swallowed |
| VehicleBridge.VehicleProtocol.SendHeartbeat | vehicle_bridge.py:166-167 | consumes exactly one number from the shared counter and publishes it with the timestamp |
| VehicleBridge.VehicleProtocol.SendTeleop | vehicle_bridge.py:169-174 | consumes one number and publishes both values; a value `round` rejects raises first and consumes nothing |
| VehicleBridge.VehicleProtocol.SendEstop | vehicle_bridge.py:176-177 | consumes one number and publishes the flag |
| VehicleBridge.VehicleProtocol.SendCmdMode | vehicle_bridge.py:179-180 | consumes one number and publishes the mode |
| VehicleBridge.VehicleProtocol.OnMux | vehicle_bridge.py:77-82 | merges into `mux`, stamps the receipt and revalidates; if validation raises, the alerts, the flag and the broadcast log are kept; otherwise the flag becomes the payload's `remote_enabled` or False, and two snapshots are broadcast: the merged store with the old flag, then with the new one |
| VehicleBridge.VehicleProtocol.SetRemoteFlag | vehicle_bridge.py:81 | the second call of the mux closure sets the flag to the payload's `remote_enabled` or False and broadcasts once more, the earlier snapshot keeping the old flag |
| VehicleBridge.VehicleProtocol.OnRecordTopic | vehicle_bridge.py:84-106 | each of twist, network, hunter, estop, cpu and mem merges into its record (cpu and mem into `resources`), stamps the receipt, recomputes the alerts or keeps them when validation raises, and broadcasts the new snapshot unless it raised |
| VehicleBridge.VehicleProtocol.UpsertOne | vehicle_bridge.py:112-118 | one entry is upserted into its list, stamped and broadcast with the new list, or, when it raises, nothing changes; the other lists are untouched |
| VehicleBridge.VehicleProtocol.DispatchOne | vehicle_bridge.py:111-118 | one iteration of a list closure: the list, the broadcast log and the receipt time are those of the first `i + 1` entries, and `ok` says whether any of them raised |
| VehicleBridge.VehicleProtocol.UpsertEach | vehicle_bridge.py:110-118 | the closure loop leaves its list equal to `UpsertEntries`, stamps the receipt iff an entry was applied, and broadcasts one snapshot per applied entry showing the list after that entry; the other lists are untouched |
| VehicleBridge.VehicleProtocol.OnGpu | vehicle_bridge.py:108-119 | upserts each GPU entry with exactly the five `gpu_*` fields, broadcasting the GPU list after each applied entry; the other lists are untouched |
| VehicleBridge.VehicleProtocol.OnDisk | vehicle_bridge.py:121-133 | stamps the receipt time even without partitions, then upserts each partition, broadcasting the partition list after each applied entry; the other lists are untouched |
| VehicleBridge.VehicleProtocol.OnNet | vehicle_bridge.py:135-151 | a missing count raises with the records, interfaces, receipt time, alerts and broadcast log unchanged; otherwise the counts are merged into `resources` and validated; when validation raises nothing else happens, else the merged snapshot is broadcast and then one per applied interface; the GPU and disk lists are untouched |
| VehicleBridge.VehicleProtocol.MergeNetCounts | vehicle_bridge.py:138-151 | what `_on_net` does once the counts were picked: the merge, the validation and, unless it raised, the interface loop with its broadcasts |
| VehicleBridge.VehicleProtocol.UpsertInterfaces | vehicle_bridge.py:143-150 | the interface loop leaves the list equal to `UpsertEntries`, each broadcast showing the current store with the interface list at that step |
| VehicleBridge.PlanSend | vehicle_bridge.py:195-211 | a heartbeat and a state push exactly when their timers are due; a teleop exactly when its timer is due and the mode is 2 with the e-stop off; every due timer is reset to `now`, the teleop timer even when the gate is closed |
| VehicleBridge.GatedTickStillResets | vehicle_bridge.py:202-206 | a due teleop timer is reset even when the gate sends nothing |
| VehicleBridge.NoRepeatAtSameInstant | vehicle_bridge.py:198-211 | with positive intervals, a second pass at the same instant sends and pushes nothing |
| VehicleBridge.SendDue | vehicle_bridge.py:198-206 | a due heartbeat, then a gated teleop, numbered in that order from the shared counter |
| VehicleBridge.SendLoopStep | vehicle_bridge.py:195-211 | one pass sends what is due, resets every due timer, and on a due push validates then broadcasts; the loop ends on a raise |
| Joystick.ApplyDeadzone | joystick.py:204-208 | readings strictly inside the deadzone give 0 |
| Joystick.RescaleWithin | joystick.py:208 | past the deadzone the rescaling is non-negative, monotone, and never above the deflection |
| Joystick.DeadzoneEndpoints | joystick.py:204-208 | full deflection maps to ±1 for 0 <= deadzone < 1 |
| Joystick.DeadzoneEdge | joystick.py:204-208 | \|v\| equal to the deadzone maps to 0 |
| Joystick.DeadzoneOdd | joystick.py:204-208 | the deadzone function is odd |
| Joystick.DeadzoneMonotone | joystick.py:204-208 | the deadzone function is monotone non-decreasing |
| Joystick.DeadzoneBounded | joystick.py:204-208 | \|v\| <= 1 implies \|out\| <= \|v\| <= 1 |
| Joystick.SpeedCommand | joystick.py:110-114 | the speed command is 0 inside the deadzone and never exceeds `max_speed` in magnitude |
| Joystick.SteerCommand | joystick.py:116-118 | the steering command is 0 inside the deadzone and never exceeds the steering limit in magnitude |
| Joystick.ClampAxis | joystick.py:165-177 | an axis index is set to 0 iff it is >= the axis count, and otherwise kept; a non-negative index afterwards lies on any device with an axis |
| Joystick.HoldingTogglesOnce | joystick.py:129-133 | holding the button toggles once, and not at all if it was already down |
| Joystick.TogglesBound | joystick.py:129-133 | toggles are separated by releases: at most (n+1)/2 over n readings |
| Joystick.EstopFollowsParity | joystick.py:129-133 | over a run of readings of the enabled button with a protocol set, the flag has flipped iff the number of rising edges is odd (`RunTicks` ties `EstopAfter` to the handler) |
| Joystick.PressesStep | joystick.py:129-133 | consuming one reading moves its edge out of the rest of the run: the final flag and the toggle count are unchanged |
| Joystick.SetField | joystick.py:114 | assigning one `control` field keeps the store well formed and changes nothing else |
| Joystick.Zeroed | joystick.py:196-202 | disconnect zeroes the four outputs, clears `joystick_connected`, and keeps `estop` and `mode` |
| Joystick.Flipped | joystick.py:213-214 | the toggle negates the truth of `control.estop` |
| Joystick.JoystickHandler.constructor | joystick.py:43-64 | config as given, no device, no proto, every optional input disabled |
| Joystick.JoystickHandler.SetProto | joystick.py:78-79 | records the protocol |
| Joystick.JoystickHandler.SetLoop | joystick.py:81-82 | records that an event loop is set |
| Joystick.JoystickHandler.ValidateConfig | joystick.py:160-194 | clamps the two control axes; the raw axes and the button are enabled iff their index is below the device's count |
| Joystick.JoystickHandler.ConfigFor | joystick.py:152-194 | the device's counts are recorded; an in-range control axis is kept; with at least one axis and non-negative indices both control axes lie on the device |
| Joystick.JoystickHandler.TryConnect | joystick.py:145-158 | with no device only `joystick_connected` is cleared; otherwise the config becomes `ConfigFor` the device and `joystick_connected` is set; the tick state, the broadcast log and the protocol are untouched |
| Joystick.JoystickHandler.ReportMissing | joystick.py:148-150 | no device: `joystick_connected` cleared and nothing else changed |
| Joystick.JoystickHandler.Open | joystick.py:152-158 | a device: the config checked against it, then `joystick_connected` set |
| Joystick.JoystickHandler.Configure | joystick.py:152-157 | device 0 opened and the config becomes `ConfigFor` its counts |
| Joystick.JoystickHandler.OnDisconnect | joystick.py:196-202 | forgets the device and zeroes the outputs, keeping the e-stop, the previous button reading, the config, the broadcast log and the protocol's log |
| Joystick.JoystickHandler.ToggleEstop | joystick.py:210-215 | without a proto nothing changes; otherwise the flag is flipped and its new value is sent |
| Joystick.JoystickHandler.AxisOutputs | joystick.py:110-126 | writes `linear_x`, `angular_z`, and the raw axes, which are 0.0 when disabled; all other fields are untouched |
| Joystick.JoystickHandler.EstopButton | joystick.py:128-133 | with the button enabled, the reading is recorded and on a rising edge, if a protocol is set, the flag is flipped, one number issued and the new value logged when delivered; with the button disabled, or without an edge, nothing is sent and the flag is kept |
| Joystick.JoystickHandler.ThrottledBroadcast | joystick.py:135-139 | at most one UI broadcast per 0.05 s, and only with an event loop |
| Joystick.JoystickHandler.Drive | joystick.py:110-133 | the four control outputs written, then the e-stop part: a flip and one send exactly on a rising edge of the enabled button with a protocol set; the config unchanged |
| Joystick.JoystickHandler.Step | joystick.py:110-139 | one tick: `Drive` (outputs, e-stop edge and its send) then the throttled broadcast; the config unchanged |
| Joystick.JoystickHandler.TickCounted | joystick.py:110-139 | seen from the e-stop, a tick flips the flag's truth exactly on a toggle, records the enabled button, and issues one number exactly then |
| Joystick.JoystickHandler.RunTicks | joystick.py:90-139 | over a run of ticks with the device open, with the button enabled and a protocol set, the flag ends as `EstopAfter` the button readings and one number is issued per rising edge (`Toggles`); otherwise the flag's truth is unchanged |
| Joystick.JoystickHandler.RunOne | joystick.py:110-139 | one tick of the run keeps the flag and issued count on course for the values the whole run determines |
| Joystick.JoystickHandler.PollConnected | joystick.py:97-139 | a pump failure or a count of 0 disconnects with nothing sent; otherwise a full tick runs with the device kept; the config unchanged |
| Joystick.JoystickHandler.PollOnce | joystick.py:90-139 | without a device, `TryConnect` (the config becomes `ConfigFor` the device when one is found); with one, `PollConnected` with the config unchanged |
| Joystick.ConnectedConfigReadable | joystick.py:160-194 | after validation against a device with an axis, every index a tick reads is on the device |
| Station.StationClient.constructor | station_client.py:24-27 | the counter starts at 0 with nothing sent |
| Station.StationClient.NextSeq | station_client.py:52-55 | returns the counter and wraps it modulo 65536 |
| Station.StationClient.Put | station_client.py:57-61 | a failed put is swallowed, never raised |
| Station.StationClient.SendHeartbeat | station_client.py:63-64 | consumes one sequence number |
| Station.StationClient.SendTeleop | station_client.py:66-71 | consumes one sequence number |
| Station.StationClient.SendEstop | station_client.py:73-75 | consumes one sequence number |
| Station.StationClient.SendCmdMode | station_client.py:77-79 | consumes one sequence number |
| Station.StationClient.SendJoystickConnected | station_client.py:81-82 | consumes no sequence number, and its payload has none |
| Station.StationLoopStep | station_client.py:97-106 | a heartbeat iff its timer is due, and a teleop whenever its timer is due, with no gate; each due timer is reset, and the log gains exactly those that were delivered, numbered in order |
| Station.RunSendLoop | station_client.py:87-106 | over a run, each timer ends at its last firing, the counter moved once per heartbeat firing plus once per teleop firing, and the log gains exactly `RunPublications`, pass by pass |
| Station.RunIsRateLimited | station_client.py:97-106 | over a run, heartbeats and teleops are each spaced at least one interval apart |
| WebApi.SetCmdMode | web/server.py:58-64 | a mode outside {-1, 0, 1, 2} is refused with no change; otherwise `control.mode` is set and sent |
| WebApi.SetEstop | web/server.py:67-71 | `control.estop` is set and sent |

## Left out

- The transport is not modelled: zenoh sessions, publishers, subscribers, JSON encoding and decoding, and `call_soon_threadsafe`. Inbound payloads are decoded maps, each posted closure is one atomic step, and outbound puts are appends to a log.
- Threads, `asyncio.sleep`, `time.sleep`, pygame initialisation and the reconnect sleep are not modelled. They are scheduling and hardware I/O.
- `to_json` is reduced to a `Snapshot` value. The wall-clock `server_time` and queue-full drops in `_broadcast_sync` are not modelled.
- JSON arrays and objects as record field values are not modelled. Record fields hold scalars only.
- Python floats are modelled as exact Dafny `real`: the deadzone arithmetic, the speed and steering commands, the clock, the timers and the alert thresholds (0.05, 3.0). No rounding, NaN or infinity is modelled, so a comparison that rounding could tip is decided exactly.
- Joystick.JoystickHandler.RunTicks: states the e-stop flag's truth and the count of issued numbers over a run with the device kept open. The per-tick outputs, sends and broadcasts are stated by `Step`, not accumulated over the run; disconnect and reconnect inside a run are covered pass by pass by `PollOnce`.
- State.KeyOf: only the seven record attributes are resolved. A key naming another attribute of the store (`alerts`, `gpu_list`, a method, a dunder name) is treated as no record; in the source that key reaches `setattr` on a non-record object.
- State.Merge: only dataclass fields count as known names. A payload key naming a dunder attribute of the record object, which `hasattr` also accepts, is not modelled.
- VehicleBridge.VehicleProtocol.SendTeleop: `round(x, 3)` is not applied to the values. Its only effect kept is the TypeError on a non-number.
- Station.StationClient.SendTeleop: `round(x, 3)` is not applied to the values.
- VehicleBridge.SendLoopStep: the intervals are given directly rather than as `1 / rate` from the config.
- Joystick.JoystickHandler.constructor: `max_steer` is given in radians; `math.radians` is not modelled.
- Joystick.ApplyDeadzone: requires the division to be defined (deadzone 1 with \|v\| >= 1 raises ZeroDivisionError in the source and ends the joystick thread).
- Joystick.JoystickHandler.Step: requires every configured index it reads to be on the device. In the source a negative index, or axis 0 on a device without axes, makes pygame raise and ends the joystick thread.
- The joystick is modelled against `SharedState.control`. The application wiring in main.py passes a different state object and calls a setter the handler does not define; that wiring is not part of this model.
- main.py, station_state.py, tools/joystick_test.py and the WebSocket and WebRTC parts of web/server.py are not part of this model.
