/** The joystick handler: deadzone rescaling, the one-shot check of the
    configured axis and button indices, the per-tick mapping of readings to
    the `control` record, and the e-stop button's rising-edge toggle. */
module Joystick {
  import opened JsonValues
  import opened Wire
  import opened State
  import opened VehicleBridge

  // ---------------------------------------------------------------------
  // Deadzone
  // ---------------------------------------------------------------------

  /** `_apply_deadzone` divides by `1 - deadzone` once `|v| >= deadzone`. */
  predicate DeadzoneDefined(v: real, dz: real) {
    dz != 1.0 || AbsReal(v) < dz
  }

  /** The distance `m` of the stick past the deadzone, rescaled so that the
      rest of the axis range maps onto `(0, 1]`. */
  function Rescale(m: real, dz: real): real
    requires dz != 1.0
  {
    (m - dz) / (1.0 - dz)
  }

  /** `_apply_deadzone(v)`: zero inside the deadzone, otherwise the
      rescaled distance past it with the sign of `v`, a `v` that is not
      positive counting as negative. */
  function ApplyDeadzone(v: real, dz: real): (r: real)
    requires DeadzoneDefined(v, dz)
    ensures AbsReal(v) < dz ==> r == 0.0
  {
    if AbsReal(v) < dz then 0.0
    else if v > 0.0 then Rescale(AbsReal(v), dz)
    else -Rescale(AbsReal(v), dz)
  }

  /** A usual deadzone: at least 0 and below the full deflection. */
  predicate Usual(dz: real) {
    0.0 <= dz < 1.0
  }

  lemma DivideMonotone(a: real, b: real, c: real)
    requires c > 0.0 && a <= b
    ensures a / c <= b / c
  {
    assert b / c - a / c == (b - a) / c;
    assert (b - a) / c * c == b - a;
  }

  lemma DivideSelf(c: real)
    requires c != 0.0
    ensures c / c == 1.0
  {
    assert c / c * c == 1.0 * c;
  }

  /** Past the deadzone, rescaling keeps the order of deflections and
      never leaves `[0, m]` for a deflection `m` within the stick's range. */
  lemma RescaleWithin(m: real, n: real, dz: real)
    requires Usual(dz) && dz <= m <= n
    ensures 0.0 <= Rescale(m, dz) <= Rescale(n, dz)
    ensures n <= 1.0 ==> Rescale(n, dz) <= n
  {
    var c := 1.0 - dz;
    DivideMonotone(0.0, m - dz, c);
    DivideMonotone(m - dz, n - dz, c);
    if n <= 1.0 {
      assert (1.0 - n) * dz >= 0.0;
      assert n * c == n - n * dz;
      DivideMonotone(n - dz, n * c, c);
      assert n * c / c == n;
    }
  }

  /** Full deflection stays full deflection. */
  lemma DeadzoneEndpoints(dz: real)
    requires Usual(dz)
    ensures ApplyDeadzone(1.0, dz) == 1.0 && ApplyDeadzone(-1.0, dz) == -1.0
  {
    DivideSelf(1.0 - dz);
  }

  /** The output is continuous at the deadzone's edge: `|v| == dz` maps to 0. */
  lemma DeadzoneEdge(v: real, dz: real)
    requires Usual(dz) && AbsReal(v) == dz
    ensures ApplyDeadzone(v, dz) == 0.0
  {
  }

  /** Mirrored deflections give mirrored outputs. */
  lemma DeadzoneOdd(v: real, dz: real)
    requires Usual(dz)
    ensures ApplyDeadzone(-v, dz) == -ApplyDeadzone(v, dz)
  {
    assert AbsReal(-v) == AbsReal(v);
    if v == 0.0 && dz == 0.0 {
      assert Rescale(0.0, dz) == 0.0;
    }
  }

  /** The output never decreases as the stick moves further. */
  lemma DeadzoneMonotone(v: real, w: real, dz: real)
    requires Usual(dz) && v <= w
    ensures ApplyDeadzone(v, dz) <= ApplyDeadzone(w, dz)
  {
    var m, n := AbsReal(v), AbsReal(w);
    if m >= dz && n >= dz {
      if v > 0.0 {
        RescaleWithin(m, n, dz);
      } else if w <= 0.0 {
        RescaleWithin(n, m, dz);
      } else {
        RescaleWithin(m, m, dz);
        RescaleWithin(n, n, dz);
      }
    } else if m >= dz {
      RescaleWithin(m, m, dz);
    } else if n >= dz {
      RescaleWithin(n, n, dz);
    }
  }

  /** Within the stick's range, the output stays within the range and never
      exceeds the input's magnitude. */
  lemma DeadzoneBounded(v: real, dz: real)
    requires Usual(dz) && AbsReal(v) <= 1.0
    ensures AbsReal(ApplyDeadzone(v, dz)) <= AbsReal(v) <= 1.0
  {
    if AbsReal(v) >= dz {
      RescaleWithin(AbsReal(v), AbsReal(v), dz);
    }
  }

  // ---------------------------------------------------------------------
  // Commands of one tick
  // ---------------------------------------------------------------------

  /** Multiplying by a limit at least 0 keeps a value in `[-1, 1]` within
      the limit. */
  lemma ScaledWithin(d: real, limit: real)
    requires AbsReal(d) <= 1.0 && limit >= 0.0
    ensures AbsReal(d * limit) <= limit && AbsReal(-d * limit) <= limit
  {
    if d >= 0.0 {
      assert d * limit <= 1.0 * limit;
    } else {
      assert -d * limit <= 1.0 * limit;
    }
  }

  lemma CommandWithin(axis: real, dz: real, limit: real)
    requires DeadzoneDefined(axis, dz)
    ensures Usual(dz) && AbsReal(axis) <= 1.0 && limit >= 0.0 ==>
      AbsReal(ApplyDeadzone(axis, dz) * limit) <= limit && AbsReal(-ApplyDeadzone(axis, dz) * limit) <= limit
  {
    if Usual(dz) && AbsReal(axis) <= 1.0 && limit >= 0.0 {
      DeadzoneBounded(axis, dz);
      ScaledWithin(ApplyDeadzone(axis, dz), limit);
    }
  }

  /** `linear_x` of one tick: the deadzoned speed axis, negated when
      `invert_speed` is set, times `max_speed`. */
  function SpeedCommand(axis: real, dz: real, invert: bool, maxSpeed: real): (r: real)
    requires DeadzoneDefined(axis, dz)
    ensures Usual(dz) && AbsReal(axis) <= 1.0 && maxSpeed >= 0.0 ==> AbsReal(r) <= maxSpeed
    ensures AbsReal(axis) < dz ==> r == 0.0
  {
    var d := ApplyDeadzone(axis, dz);
    CommandWithin(axis, dz, maxSpeed);
    (if invert then -d else d) * maxSpeed
  }

  /** `angular_z` of one tick: the deadzoned steering axis, negated, times
      the steering limit in radians. */
  function SteerCommand(axis: real, dz: real, maxSteer: real): (r: real)
    requires DeadzoneDefined(axis, dz)
    ensures Usual(dz) && AbsReal(axis) <= 1.0 && maxSteer >= 0.0 ==> AbsReal(r) <= maxSteer
    ensures AbsReal(axis) < dz ==> r == 0.0
  {
    var d := ApplyDeadzone(axis, dz);
    CommandWithin(axis, dz, maxSteer);
    -d * maxSteer
  }

  /** `_validate_config` on one control axis: an index past the device's
      axes is replaced by 0, any other is kept. */
  function ClampAxis(axis: int, numAxes: nat): (r: int)
    ensures axis >= numAxes ==> r == 0
    ensures axis < numAxes ==> r == axis
    ensures numAxes > 0 && axis >= 0 ==> 0 <= r < numAxes
  {
    if axis >= numAxes then 0 else axis
  }

  // ---------------------------------------------------------------------
  // The e-stop button
  // ---------------------------------------------------------------------

  /** A toggle fires on the tick the enabled button goes from released to
      pressed. */
  predicate RisingEdge(enabled: bool, prev: bool, pressed: bool) {
    enabled && pressed && !prev
  }

  /** The toggles fired by an enabled button over a run of readings, starting
      from a previous reading `prev`. */
  function Toggles(prev: bool, presses: seq<bool>): nat
    decreases |presses|
  {
    if presses == [] then 0
    else (if RisingEdge(true, prev, presses[0]) then 1 else 0) + Toggles(presses[0], presses[1..])
  }

  /** The e-stop flag after a run of readings, each rising edge flipping it. */
  function EstopAfter(estop: bool, prev: bool, presses: seq<bool>): bool
    decreases |presses|
  {
    if presses == [] then estop
    else EstopAfter(if RisingEdge(true, prev, presses[0]) then !estop else estop, presses[0], presses[1..])
  }

  /** Consuming one more reading: the run from the flag and reading after
      it reaches what the run from before it did. */
  lemma PressesStep(presses: seq<bool>, i: nat, estop: bool, prev: bool)
    requires i < |presses|
    ensures var toggled := RisingEdge(true, prev, presses[i]);
      && EstopAfter(estop, prev, presses[i..]) == EstopAfter(estop != toggled, presses[i], presses[i + 1..])
      && Toggles(prev, presses[i..]) == (if toggled then 1 else 0) + Toggles(presses[i], presses[i + 1..])
  {
    assert presses[i..][0] == presses[i];
    assert presses[i..][1..] == presses[i + 1..];
  }

  predicate AllPressed(presses: seq<bool>) {
    forall i :: 0 <= i < |presses| ==> presses[i]
  }

  /** Holding the button down toggles once, on the first tick, and never
      again. */
  lemma {:induction false} HoldingTogglesOnce(prev: bool, presses: seq<bool>)
    requires presses != [] && AllPressed(presses)
    ensures Toggles(prev, presses) == (if prev then 0 else 1)
    decreases |presses|
  {
    if |presses| > 1 {
      HoldingTogglesOnce(true, presses[1..]);
    }
  }

  /** Toggles are separated by releases: over `n` readings there are at most
      `(n + 1) / 2` of them, or `n / 2` when the button was already down. */
  lemma {:induction false} TogglesBound(prev: bool, presses: seq<bool>)
    ensures 2 * Toggles(prev, presses) <= |presses| + (if prev then 0 else 1)
    decreases |presses|
  {
    if presses != [] {
      TogglesBound(presses[0], presses[1..]);
    }
  }

  /** After a run of readings the flag has flipped exactly as often as the
      button rose: it differs from the start iff the toggle count is odd. */
  lemma {:induction false} EstopFollowsParity(estop: bool, prev: bool, presses: seq<bool>)
    ensures EstopAfter(estop, prev, presses) == (estop != (Toggles(prev, presses) % 2 == 1))
    decreases |presses|
  {
    if presses != [] {
      var e := if RisingEdge(true, prev, presses[0]) then !estop else estop;
      EstopFollowsParity(e, presses[0], presses[1..]);
    }
  }

  // ---------------------------------------------------------------------
  // The handler
  // ---------------------------------------------------------------------

  /** The minimum time between two UI broadcasts requested by the joystick
      thread (20 Hz). */
  const BroadcastPeriod: real := 0.05

  /** `control` with one field set, as `state.control.<name> = v` does. */
  function SetField(records: Records, name: string, v: Value): (r: Records)
    requires WellFormed(records) && name in Defaults(Control)
    ensures WellFormed(r)
    ensures r[Control][name] == v
    ensures r == records[Control := records[Control][name := v]]
  {
    records[Control := records[Control][name := v]]
  }

  /** The control outputs the disconnect handler zeroes. */
  function Zeroed(records: Records): (r: Records)
    requires WellFormed(records)
    ensures WellFormed(r)
    ensures r[Control]["joystick_connected"] == Bool(false)
    ensures r[Control]["linear_x"] == Real(0.0) && r[Control]["angular_z"] == Real(0.0)
    ensures r[Control]["raw_speed"] == Real(0.0) && r[Control]["raw_steer"] == Real(0.0)
    ensures r[Control]["estop"] == records[Control]["estop"] && r[Control]["mode"] == records[Control]["mode"]
    ensures r == records[Control := r[Control]]
  {
    var c := records[Control];
    records[Control := c["joystick_connected" := Bool(false)]["linear_x" := Real(0.0)]["angular_z" := Real(0.0)]
                        ["raw_speed" := Real(0.0)]["raw_steer" := Real(0.0)]]
  }

  /** `control.estop` after `_toggle_estop` with a protocol set. */
  function Flipped(records: Records): (r: Records)
    requires WellFormed(records)
    ensures WellFormed(r)
    ensures EstopRequested(r) == !EstopRequested(records)
  {
    SetField(records, "estop", Bool(!EstopRequested(records)))
  }

  /** What a toggle publishes: the new e-stop value, when the put got
      through. */
  function EstopSends(toggled: bool, delivered: bool, active: bool, s: SeqNum): seq<Publication> {
    if toggled && delivered then [Publication(EstopTopic, EstopCommand(active, s))] else []
  }

  /** One tick's input with a device open: the axis and button readings,
      the clock, and whether the e-stop put would get through. */
  datatype Reading = Reading(axes: seq<real>, buttons: seq<bool>, now: real, delivered: bool)

  /** The readings of button `btn` over a run of ticks (released where a
      reading has no such button). */
  function Presses(readings: seq<Reading>, btn: int): (r: seq<bool>)
    ensures |r| == |readings|
    ensures forall i :: 0 <= i < |readings| && 0 <= btn < |readings[i].buttons| ==> r[i] == readings[i].buttons[btn]
  {
    seq(|readings|, i requires 0 <= i < |readings| =>
          if 0 <= btn < |readings[i].buttons| then readings[i].buttons[btn] else false)
  }

  /** The part of the handler's state fixed when a device is opened. */
  datatype DeviceConfig = DeviceConfig(numAxes: nat, numButtons: nat, axisSpeed: int, axisSteer: int,
                                       hasRawSpeed: bool, hasRawSteer: bool, useEstopBtn: bool)

  /** The axis readings one tick needs: every configured index it reads lies
      on the device, and the deadzone division is defined on both control
      axes. */
  predicate Readable(axes: seq<real>, buttons: seq<bool>, axisSpeed: int, axisSteer: int,
                     axisRawSpeed: int, axisRawSteer: int, btnEstop: int,
                     hasRawSpeed: bool, hasRawSteer: bool, useEstopBtn: bool, dz: real)
  {
    && 0 <= axisSpeed < |axes| && 0 <= axisSteer < |axes|
    && (hasRawSpeed ==> 0 <= axisRawSpeed < |axes|)
    && (hasRawSteer ==> 0 <= axisRawSteer < |axes|)
    && (useEstopBtn ==> 0 <= btnEstop < |buttons|)
    && DeadzoneDefined(axes[axisSpeed], dz) && DeadzoneDefined(axes[axisSteer], dz)
  }

  class JoystickHandler {
    const state: SharedState
    var axisSpeed: int
    var axisSteer: int
    const axisRawSpeed: int
    const axisRawSteer: int
    const btnEstop: int
    const maxSpeed: real
    /** `math.radians(max_steer_deg)`, given directly. */
    const maxSteer: real
    const deadzone: real
    const invertSpeed: bool

    /** Whether a device is open (`_joystick is not None`), and its axis and
        button counts. */
    var connected: bool
    var numAxes: nat
    var numButtons: nat

    var prevBtnEstop: bool
    var proto: VehicleProtocol?
    /** Whether an event loop was set with `set_loop`. */
    var hasLoop: bool
    var useEstopBtn: bool
    var hasRawSpeed: bool
    var hasRawSteer: bool
    var lastBroadcast: real

    constructor (state: SharedState, axisSpeed: int, axisSteer: int, axisRawSpeed: int, axisRawSteer: int,
                 btnEstop: int, maxSpeed: real, maxSteer: real, deadzone: real, invertSpeed: bool)
      ensures this.state == state
      ensures this.axisSpeed == axisSpeed && this.axisSteer == axisSteer
      ensures this.axisRawSpeed == axisRawSpeed && this.axisRawSteer == axisRawSteer && this.btnEstop == btnEstop
      ensures this.maxSpeed == maxSpeed && this.maxSteer == maxSteer
      ensures this.deadzone == deadzone && this.invertSpeed == invertSpeed
      ensures !connected && !prevBtnEstop && proto == null && !hasLoop
      ensures !useEstopBtn && !hasRawSpeed && !hasRawSteer && lastBroadcast == 0.0
    {
      this.state := state;
      this.axisSpeed := axisSpeed;
      this.axisSteer := axisSteer;
      this.axisRawSpeed := axisRawSpeed;
      this.axisRawSteer := axisRawSteer;
      this.btnEstop := btnEstop;
      this.maxSpeed := maxSpeed;
      this.maxSteer := maxSteer;
      this.deadzone := deadzone;
      this.invertSpeed := invertSpeed;
      connected := false;
      numAxes, numButtons := 0, 0;
      prevBtnEstop := false;
      proto := null;
      hasLoop := false;
      useEstopBtn, hasRawSpeed, hasRawSteer := false, false, false;
      lastBroadcast := 0.0;
    }

    method SetProto(p: VehicleProtocol?)
      modifies this`proto
      ensures proto == p
    {
      proto := p;
    }

    method SetLoop()
      modifies this`hasLoop
      ensures hasLoop
    {
      hasLoop := true;
    }

    /** `_validate_config`: clamp the two control axes, and enable the raw
        display axes and the e-stop button only when they exist on the
        device. */
    method ValidateConfig(numAxes: nat, numButtons: nat)
      modifies this`axisSpeed, this`axisSteer, this`hasRawSpeed, this`hasRawSteer, this`useEstopBtn
      ensures axisSpeed == ClampAxis(old(axisSpeed), numAxes) && axisSteer == ClampAxis(old(axisSteer), numAxes)
      ensures hasRawSpeed == (axisRawSpeed < numAxes) && hasRawSteer == (axisRawSteer < numAxes)
      ensures useEstopBtn == (btnEstop < numButtons)
    {
      if axisSpeed >= numAxes {
        axisSpeed := 0;
      }
      if axisSteer >= numAxes {
        axisSteer := 0;
      }
      hasRawSpeed := axisRawSpeed < numAxes;
      hasRawSteer := axisRawSteer < numAxes;
      if btnEstop >= numButtons {
        useEstopBtn := false;
      } else {
        useEstopBtn := true;
      }
    }

    /** What the handler knows of the device: its axis and button counts,
        the two control axes, and whether the raw display axes and the
        e-stop button are in use. */
    function Config(): DeviceConfig
      reads this
    {
      DeviceConfig(numAxes, numButtons, axisSpeed, axisSteer, hasRawSpeed, hasRawSteer, useEstopBtn)
    }

    /** The configuration after connecting to a device with `deviceAxes`
        axes and `deviceButtons` buttons (lines 152-158, with
        `_validate_config`, lines 160-194). */
    function ConfigFor(deviceAxes: nat, deviceButtons: nat): (c: DeviceConfig)
      reads this
      ensures c.numAxes == deviceAxes && c.numButtons == deviceButtons
      ensures 0 <= axisSpeed < deviceAxes ==> c.axisSpeed == axisSpeed
      ensures 0 <= axisSteer < deviceAxes ==> c.axisSteer == axisSteer
      ensures deviceAxes > 0 && axisSpeed >= 0 && axisSteer >= 0 ==>
        0 <= c.axisSpeed < deviceAxes && 0 <= c.axisSteer < deviceAxes
    {
      DeviceConfig(deviceAxes, deviceButtons, ClampAxis(axisSpeed, deviceAxes), ClampAxis(axisSteer, deviceAxes),
                   axisRawSpeed < deviceAxes, axisRawSteer < deviceAxes, btnEstop < deviceButtons)
    }

    /** The effect of `_try_connect` with `count` devices present: the
        `joystick_connected` flag set to whether there is one, and on a
        device the configuration checked against its axis and button
        counts; the tick state, the broadcasts and the protocol are left
        alone. */
    twostate predicate TriedConnect(found: bool, deviceAxes: nat, deviceButtons: nat)
      requires old(state.Valid())
      reads this, state, proto
    {
      && connected == (found || old(connected))
      && state.records == SetField(old(state.records), "joystick_connected", Bool(found))
      && Config() == (if found then old(ConfigFor(deviceAxes, deviceButtons)) else old(Config()))
      && state.broadcasts == old(state.broadcasts)
      && prevBtnEstop == old(prevBtnEstop) && lastBroadcast == old(lastBroadcast)
      && proto == old(proto)
      && (proto != null ==> proto.issued == old(proto.issued) && proto.sent == old(proto.sent))
    }

    /** `_try_connect`: with no device, report the joystick as disconnected;
        otherwise open device 0, check the configuration against it and
        report it connected. */
    method TryConnect(count: nat, deviceAxes: nat, deviceButtons: nat)
      requires state.Valid()
      modifies this`connected, this`numAxes, this`numButtons, state`records
      modifies this`axisSpeed, this`axisSteer, this`hasRawSpeed, this`hasRawSteer, this`useEstopBtn
      ensures state.Valid()
      ensures TriedConnect(count > 0, deviceAxes, deviceButtons)
    {
      if count == 0 {
        ReportMissing(deviceAxes, deviceButtons);
      } else {
        Open(deviceAxes, deviceButtons);
      }
    }

    /** `_try_connect` without a device (lines 148-150). */
    method ReportMissing(ghost deviceAxes: nat, ghost deviceButtons: nat)
      requires state.Valid()
      modifies state`records
      ensures state.Valid()
      ensures TriedConnect(false, deviceAxes, deviceButtons)
    {
      state.records := SetField(state.records, "joystick_connected", Bool(false));
    }

    /** `_try_connect` with a device present (lines 152-158). */
    method Open(deviceAxes: nat, deviceButtons: nat)
      requires state.Valid()
      modifies this`connected, this`numAxes, this`numButtons, state`records
      modifies this`axisSpeed, this`axisSteer, this`hasRawSpeed, this`hasRawSteer, this`useEstopBtn
      ensures state.Valid()
      ensures TriedConnect(true, deviceAxes, deviceButtons)
    {
      Configure(deviceAxes, deviceButtons);
      state.records := SetField(state.records, "joystick_connected", Bool(true));
    }

    /** Device 0 opened: its counts recorded and the configuration checked
        against them (lines 152-157). */
    method Configure(deviceAxes: nat, deviceButtons: nat)
      modifies this`connected, this`numAxes, this`numButtons
      modifies this`axisSpeed, this`axisSteer, this`hasRawSpeed, this`hasRawSteer, this`useEstopBtn
      ensures connected && Config() == old(ConfigFor(deviceAxes, deviceButtons))
    {
      connected := true;
      numAxes, numButtons := deviceAxes, deviceButtons;
      ValidateConfig(deviceAxes, deviceButtons);
    }

    /** `_on_disconnect`: forget the device and zero the outputs; the e-stop
        flag and the previous button reading are kept. */
    twostate predicate Dropped()
      requires old(state.Valid())
      reads this, state, proto
    {
      && !connected && state.records == Zeroed(old(state.records))
      && state.broadcasts == old(state.broadcasts)
      && prevBtnEstop == old(prevBtnEstop) && lastBroadcast == old(lastBroadcast)
      && proto == old(proto)
      && (proto != null ==> proto.issued == old(proto.issued) && proto.sent == old(proto.sent))
    }

    method OnDisconnect()
      requires state.Valid()
      modifies this`connected, state`records
      ensures state.Valid()
      ensures Dropped()
      ensures Config() == old(Config())
    {
      connected := false;
      state.records := Zeroed(state.records);
    }

    /** `_toggle_estop`: without a protocol nothing happens; otherwise flip
        `control.estop` and send the new value. */
    method ToggleEstop(delivered: bool)
      requires state.Valid() && (proto != null ==> proto.Valid())
      modifies state`records, proto
      ensures state.Valid()
      ensures proto == null ==> state.records == old(state.records)
      ensures proto != null ==>
        var active := !EstopRequested(old(state.records));
        && state.records == Flipped(old(state.records))
        && proto.Valid() && proto.issued == old(proto.issued) + 1
        && proto.sent == old(proto.sent)
             + (if delivered then [Publication(EstopTopic, EstopCommand(active, old(proto.seqCounter)))] else [])
    {
      if proto == null {
        return;
      }
      var active := !EstopRequested(state.records);
      state.records := SetField(state.records, "estop", Bool(active));
      proto.SendEstop(active, delivered);
    }

    /** The control record after the axis part of a tick (lines 110-126). */
    function AxisOutputs(records: Records, axes: seq<real>): (r: Records)
      requires WellFormed(records)
      requires Readable(axes, [], axisSpeed, axisSteer, axisRawSpeed, axisRawSteer, btnEstop,
                        hasRawSpeed, hasRawSteer, false, deadzone)
      reads this
      ensures WellFormed(r)
      ensures r[Control]["linear_x"] == Real(SpeedCommand(axes[axisSpeed], deadzone, invertSpeed, maxSpeed))
      ensures r[Control]["angular_z"] == Real(SteerCommand(axes[axisSteer], deadzone, maxSteer))
      ensures r[Control]["raw_speed"] == Real(if hasRawSpeed then axes[axisRawSpeed] else 0.0)
      ensures r[Control]["raw_steer"] == Real(if hasRawSteer then axes[axisRawSteer] else 0.0)
      ensures r[Control]["estop"] == records[Control]["estop"] && r[Control]["mode"] == records[Control]["mode"]
      ensures r[Control]["joystick_connected"] == records[Control]["joystick_connected"]
      ensures r == records[Control := r[Control]]
    {
      var c := records[Control];
      records[Control := c["linear_x" := Real(SpeedCommand(axes[axisSpeed], deadzone, invertSpeed, maxSpeed))]
                          ["angular_z" := Real(SteerCommand(axes[axisSteer], deadzone, maxSteer))]
                          ["raw_speed" := Real(if hasRawSpeed then axes[axisRawSpeed] else 0.0)]
                          ["raw_steer" := Real(if hasRawSteer then axes[axisRawSteer] else 0.0)]]
    }

    /** The e-stop part of a tick (lines 128-133): toggle on a rising edge
        of the enabled button, and remember the reading. */
    method EstopButton(buttons: seq<bool>, delivered: bool)
      requires state.Valid() && (proto != null ==> proto.Valid())
      requires useEstopBtn ==> 0 <= btnEstop < |buttons|
      modifies state`records, this`prevBtnEstop, proto
      ensures state.Valid() && (proto != null ==> proto.Valid())
      ensures var toggled := useEstopBtn && RisingEdge(true, old(prevBtnEstop), buttons[btnEstop]) && proto != null;
        state.records == if toggled then Flipped(old(state.records)) else old(state.records)
      ensures prevBtnEstop == if useEstopBtn then buttons[btnEstop] else old(prevBtnEstop)
      ensures var toggled := useEstopBtn && RisingEdge(true, old(prevBtnEstop), buttons[btnEstop]) && proto != null;
        proto != null ==>
          && proto.issued == old(proto.issued) + (if toggled then 1 else 0)
          && proto.sent == old(proto.sent)
               + EstopSends(toggled, delivered, !EstopRequested(old(state.records)), old(proto.seqCounter))
    {
      if useEstopBtn {
        var pressed := buttons[btnEstop];
        if pressed && !prevBtnEstop {
          ToggleEstop(delivered);
        }
        prevBtnEstop := pressed;
      }
    }

    /** The UI broadcast part of a tick (lines 135-139): at most one every
        0.05 s, and only once an event loop is set. */
    method ThrottledBroadcast(now: real)
      modifies state`broadcasts, this`lastBroadcast
      ensures var due := hasLoop && now - old(lastBroadcast) >= BroadcastPeriod;
        && lastBroadcast == (if due then now else old(lastBroadcast))
        && state.broadcasts == old(state.broadcasts) + (if due then [Broadcast(state.SnapshotAt(now), state.subscribers)] else [])
      ensures Config() == old(Config())
    {
      if hasLoop && now - lastBroadcast >= BroadcastPeriod {
        state.BroadcastSync(now);
        lastBroadcast := now;
      }
    }

    /** The control part of a tick with a device open (lines 110-133): the
        four control outputs written; on a rising edge of the enabled button
        with a protocol set, the e-stop flipped and its new value sent; and
        the reading remembered when the button is enabled. */
    twostate predicate Driven(axes: seq<real>, buttons: seq<bool>, delivered: bool)
      requires old(state.Valid())
      requires old(Readable(axes, buttons, axisSpeed, axisSteer, axisRawSpeed, axisRawSteer, btnEstop,
                            hasRawSpeed, hasRawSteer, useEstopBtn, deadzone))
      reads this`prevBtnEstop, this`proto, state`records, proto
    {
      var outputs := old(AxisOutputs(state.records, axes));
      var toggled := old(useEstopBtn) && RisingEdge(true, old(prevBtnEstop), buttons[btnEstop]) && proto != null;
      && state.records == (if toggled then Flipped(outputs) else outputs)
      && EstopRequested(state.records) == (old(EstopRequested(state.records)) != toggled)
      && prevBtnEstop == (if old(useEstopBtn) then buttons[btnEstop] else old(prevBtnEstop))
      && proto == old(proto)
      && (proto != null ==>
            && proto.issued == old(proto.issued) + (if toggled then 1 else 0)
            && proto.sent == old(proto.sent)
                 + EstopSends(toggled, delivered, !EstopRequested(old(state.records)), old(proto.seqCounter)))
    }

    method Drive(axes: seq<real>, buttons: seq<bool>, delivered: bool)
      requires state.Valid() && (proto != null ==> proto.Valid())
      requires Readable(axes, buttons, axisSpeed, axisSteer, axisRawSpeed, axisRawSteer, btnEstop,
                        hasRawSpeed, hasRawSteer, useEstopBtn, deadzone)
      modifies state`records, this`prevBtnEstop, proto
      ensures state.Valid() && (proto != null ==> proto.Valid())
      ensures Driven(axes, buttons, delivered)
      ensures Config() == old(Config())
    {
      var outputs := AxisOutputs(state.records, axes);
      state.records := outputs;
      EstopButton(buttons, delivered);
    }

    /** The effect of one tick with a device open (lines 110-139): the
        control part, then a UI broadcast when an event loop is set and
        0.05 s have passed since the last. */
    twostate predicate Ticked(axes: seq<real>, buttons: seq<bool>, now: real, delivered: bool)
      requires old(state.Valid())
      requires old(Readable(axes, buttons, axisSpeed, axisSteer, axisRawSpeed, axisRawSteer, btnEstop,
                            hasRawSpeed, hasRawSteer, useEstopBtn, deadzone))
      reads this, state, proto
    {
      var due := old(hasLoop) && now - old(lastBroadcast) >= BroadcastPeriod;
      && Driven(axes, buttons, delivered)
      && lastBroadcast == (if due then now else old(lastBroadcast))
      && state.broadcasts == old(state.broadcasts) + (if due then [Broadcast(state.SnapshotAt(now), state.subscribers)] else [])
    }

    /** One pass of the `_run` loop body with a device open (lines 110-139). */
    method Step(axes: seq<real>, buttons: seq<bool>, now: real, delivered: bool)
      requires state.Valid() && (proto != null ==> proto.Valid())
      requires Readable(axes, buttons, axisSpeed, axisSteer, axisRawSpeed, axisRawSteer, btnEstop,
                        hasRawSpeed, hasRawSteer, useEstopBtn, deadzone)
      modifies state`records, state`broadcasts, this`prevBtnEstop, this`lastBroadcast, proto
      ensures state.Valid() && (proto != null ==> proto.Valid())
      ensures Ticked(axes, buttons, now, delivered)
      ensures Config() == old(Config())
    {
      Drive(axes, buttons, delivered);
      ThrottledBroadcast(now);
    }

    /** A run of ticks with the device kept open (the `_run` loop, lines
        90-139, while the pump and the device count keep succeeding). With
        the button enabled and a protocol set, the e-stop flag ends as
        `EstopAfter` of the button readings and one command was issued per
        rising edge; otherwise the flag's truth is left as it was. */
    method RunTicks(readings: seq<Reading>)
      requires state.Valid() && (proto != null ==> proto.Valid())
      requires forall i :: 0 <= i < |readings| ==>
        Readable(readings[i].axes, readings[i].buttons, axisSpeed, axisSteer, axisRawSpeed, axisRawSteer, btnEstop,
                 hasRawSpeed, hasRawSteer, useEstopBtn, deadzone)
      modifies state`records, state`broadcasts, this`prevBtnEstop, this`lastBroadcast, proto
      ensures state.Valid() && (proto != null ==> proto.Valid())
      ensures proto == old(proto)
      ensures useEstopBtn && proto != null ==>
        && EstopRequested(state.records)
             == EstopAfter(old(EstopRequested(state.records)), old(prevBtnEstop), Presses(readings, btnEstop))
        && proto.issued == old(proto.issued) + Toggles(old(prevBtnEstop), Presses(readings, btnEstop))
      ensures !(useEstopBtn && proto != null) ==>
        EstopRequested(state.records) == old(EstopRequested(state.records))
    {
      ghost var presses := if useEstopBtn then Presses(readings, btnEstop) else [];
      ghost var estop0 := EstopRequested(state.records);
      ghost var issued0 := if proto != null then proto.issued else 0;
      ghost var prev0, proto0 := prevBtnEstop, proto;
      var i := 0;
      while i < |readings|
        invariant Running(readings, i, presses, estop0, prev0, issued0, proto0)
      {
        RunOne(readings, i, presses, estop0, prev0, issued0, proto0);
        i := i + 1;
      }
      RunFinished(readings, presses, estop0, prev0, issued0, proto0);
    }

    /** Once every reading is consumed no presses remain, so the flag and
        the issued count are the values the whole run determines. */
    lemma RunFinished(readings: seq<Reading>, presses: seq<bool>, estop0: bool, prev0: bool,
                      issued0: nat, proto0: VehicleProtocol?)
      requires Running(readings, |readings|, presses, estop0, prev0, issued0, proto0)
      ensures useEstopBtn && proto != null ==>
        && EstopRequested(state.records) == EstopAfter(estop0, prev0, presses)
        && proto.issued == issued0 + Toggles(prev0, presses)
      ensures !(useEstopBtn && proto != null) ==> EstopRequested(state.records) == estop0
    {
      if useEstopBtn {
        assert presses[|readings|..] == [];
      }
    }

    /** What `RunTicks` keeps true after `i` readings: the flag and the count
        of issued numbers still reach, through the remaining presses, the
        values the whole run determines from the start (`estop0`, `prev0`,
        `issued0`). */
    ghost predicate Running(readings: seq<Reading>, i: nat, presses: seq<bool>, estop0: bool, prev0: bool,
                            issued0: nat, proto0: VehicleProtocol?)
      reads this, state, proto
    {
      && i <= |readings|
      && (forall j :: 0 <= j < |readings| ==>
            Readable(readings[j].axes, readings[j].buttons, axisSpeed, axisSteer, axisRawSpeed, axisRawSteer, btnEstop,
                     hasRawSpeed, hasRawSteer, useEstopBtn, deadzone))
      && presses == (if useEstopBtn then Presses(readings, btnEstop) else [])
      && state.Valid() && (proto != null ==> proto.Valid())
      && proto == proto0
      && (useEstopBtn && proto != null ==>
            && EstopAfter(estop0, prev0, presses)
                 == EstopAfter(EstopRequested(state.records), prevBtnEstop, presses[i..])
            && issued0 + Toggles(prev0, presses) == proto.issued + Toggles(prevBtnEstop, presses[i..]))
      && (!(useEstopBtn && proto != null) ==> EstopRequested(state.records) == estop0)
    }

    /** One pass of `RunTicks`' loop: the tick for reading `i`. */
    method RunOne(readings: seq<Reading>, i: nat, ghost presses: seq<bool>, ghost estop0: bool, ghost prev0: bool,
                  ghost issued0: nat, ghost proto0: VehicleProtocol?)
      requires i < |readings|
      requires Running(readings, i, presses, estop0, prev0, issued0, proto0)
      modifies state`records, state`broadcasts, this`prevBtnEstop, this`lastBroadcast, proto
      ensures Running(readings, i + 1, presses, estop0, prev0, issued0, proto0)
    {
      var r := readings[i];
      if useEstopBtn {
        PressesStep(presses, i, EstopRequested(state.records), prevBtnEstop);
      }
      TickCounted(r.axes, r.buttons, r.now, r.delivered);
    }

    /** `Step`, seen from the e-stop: the flag's truth flips exactly on a
        toggle, the reading is remembered when the button is enabled, and a
        toggle issues one sequence number. */
    method TickCounted(axes: seq<real>, buttons: seq<bool>, now: real, delivered: bool)
      requires state.Valid() && (proto != null ==> proto.Valid())
      requires Readable(axes, buttons, axisSpeed, axisSteer, axisRawSpeed, axisRawSteer, btnEstop,
                        hasRawSpeed, hasRawSteer, useEstopBtn, deadzone)
      modifies state`records, state`broadcasts, this`prevBtnEstop, this`lastBroadcast, proto
      ensures state.Valid() && (proto != null ==> proto.Valid()) && proto == old(proto)
      ensures var toggled := useEstopBtn && RisingEdge(true, old(prevBtnEstop), buttons[btnEstop]) && proto != null;
        && EstopRequested(state.records) == (old(EstopRequested(state.records)) != toggled)
        && prevBtnEstop == (if useEstopBtn then buttons[btnEstop] else old(prevBtnEstop))
        && (proto != null ==> proto.issued == old(proto.issued) + (if toggled then 1 else 0))
    {
      Step(axes, buttons, now, delivered);
    }

    /** The effect of a `_run` pass with a device open (lines 97-139): a
        failed event pump or a device count of 0 means disconnection,
        otherwise a tick runs with the device kept. */
    twostate predicate Polled(count: nat, pumpFailed: bool, axes: seq<real>, buttons: seq<bool>, now: real, delivered: bool)
      requires old(state.Valid())
      requires !pumpFailed && count > 0 ==>
        old(Readable(axes, buttons, axisSpeed, axisSteer, axisRawSpeed, axisRawSteer, btnEstop,
                     hasRawSpeed, hasRawSteer, useEstopBtn, deadzone))
      reads this, state, proto
    {
      && (pumpFailed || count == 0 ==> Dropped())
      && (!pumpFailed && count > 0 ==> connected == old(connected) && Ticked(axes, buttons, now, delivered))
    }

    method PollConnected(count: nat, pumpFailed: bool, axes: seq<real>, buttons: seq<bool>, now: real, delivered: bool)
      requires state.Valid() && (proto != null ==> proto.Valid())
      requires !pumpFailed && count > 0 ==>
        Readable(axes, buttons, axisSpeed, axisSteer, axisRawSpeed, axisRawSteer, btnEstop,
                 hasRawSpeed, hasRawSteer, useEstopBtn, deadzone)
      modifies this`connected, this`prevBtnEstop, this`lastBroadcast
      modifies state`records, state`broadcasts, proto
      ensures state.Valid() && (proto != null ==> proto.Valid())
      ensures Polled(count, pumpFailed, axes, buttons, now, delivered)
      ensures Config() == old(Config())
    {
      if pumpFailed || count == 0 {
        OnDisconnect();
      } else {
        Step(axes, buttons, now, delivered);
      }
    }

    /** One pass of the `_run` loop (lines 90-139): without a device, try
        to connect; with one, poll it. */
    method PollOnce(count: nat, pumpFailed: bool, deviceAxes: nat, deviceButtons: nat,
                    axes: seq<real>, buttons: seq<bool>, now: real, delivered: bool)
      requires state.Valid() && (proto != null ==> proto.Valid())
      requires connected && !pumpFailed && count > 0 ==>
        Readable(axes, buttons, axisSpeed, axisSteer, axisRawSpeed, axisRawSteer, btnEstop,
                 hasRawSpeed, hasRawSteer, useEstopBtn, deadzone)
      modifies this`connected, this`numAxes, this`numButtons, this`axisSpeed, this`axisSteer
      modifies this`hasRawSpeed, this`hasRawSteer, this`useEstopBtn, this`prevBtnEstop, this`lastBroadcast
      modifies state`records, state`broadcasts, proto
      ensures state.Valid() && (proto != null ==> proto.Valid())
      ensures !old(connected) ==> TriedConnect(count > 0, deviceAxes, deviceButtons)
      ensures old(connected) ==> Config() == old(Config())
      ensures old(connected) ==> Polled(count, pumpFailed, axes, buttons, now, delivered)
    {
      if !connected {
        TryConnect(count, deviceAxes, deviceButtons);
      } else {
        PollConnected(count, pumpFailed, axes, buttons, now, delivered);
      }
    }
  }

  /** After connecting to a device with at least one axis, with
      non-negative configured indices, every index a tick reads is on the
      device; only the deadzone division can still fail. */
  lemma ConnectedConfigReadable(axisSpeed: int, axisSteer: int, axisRawSpeed: int, axisRawSteer: int, btnEstop: int,
                                axes: seq<real>, buttons: seq<bool>, dz: real)
    requires |axes| > 0
    requires axisSpeed >= 0 && axisSteer >= 0 && axisRawSpeed >= 0 && axisRawSteer >= 0 && btnEstop >= 0
    requires Usual(dz)
    ensures Readable(axes, buttons, ClampAxis(axisSpeed, |axes|), ClampAxis(axisSteer, |axes|),
                     axisRawSpeed, axisRawSteer, btnEstop,
                     axisRawSpeed < |axes|, axisRawSteer < |axes|, btnEstop < |buttons|, dz)
  {
  }
}
