/** The station client: the operator station's publisher of heartbeat,
    teleop, e-stop, mode and joystick-presence messages, with one wrapping
    sequence counter, and its ungated periodic send loop. */
module Station {
  import opened JsonValues
  import opened Wire
  import opened Cadence

  const StationHeartbeatTopic: string := "nev/station/heartbeat"
  const StationTeleopTopic: string := "nev/station/teleop"
  const StationEstopTopic: string := "nev/station/estop"
  const StationCmdModeTopic: string := "nev/station/cmd_mode"
  const StationJoystickTopic: string := "nev/station/joystick_connected"

  class StationClient {
    var seqCounter: SeqNum
    /** How many sequence numbers have been handed out, over all kinds. */
    ghost var issued: nat
    /** The publications the transport accepted, in order. */
    var sent: seq<Publication>

    ghost predicate Valid()
      reads this
    {
      seqCounter == Advance(0, issued)
    }

    constructor ()
      ensures Valid() && seqCounter == 0 && issued == 0 && sent == []
    {
      seqCounter := 0;
      issued := 0;
      sent := [];
    }

    /** `_next_seq`: return the counter and advance it modulo 65536. */
    method NextSeq() returns (s: SeqNum)
      requires Valid()
      modifies this`seqCounter, this`issued
      ensures Valid()
      ensures s == old(seqCounter) && s == old(issued) % SeqModulus
      ensures seqCounter == Successor(s) && issued == old(issued) + 1
    {
      s := seqCounter;
      AdvanceIsModular(0, issued);
      seqCounter := Successor(seqCounter);
      issued := issued + 1;
    }

    /** `_zput`: a failed put is caught and logged, never raised. */
    method Put(topic: string, payload: Payload, delivered: bool)
      modifies this`sent
      ensures sent == old(sent) + (if delivered then [Publication(topic, payload)] else [])
    {
      if delivered {
        sent := sent + [Publication(topic, payload)];
      }
    }

    method SendHeartbeat(ts: real, delivered: bool)
      requires Valid()
      modifies this`seqCounter, this`issued, this`sent
      ensures Valid() && issued == old(issued) + 1 && seqCounter == Successor(old(seqCounter))
      ensures sent == old(sent) + (if delivered then [Publication(StationHeartbeatTopic, Heartbeat(ts, old(seqCounter)))] else [])
    {
      var s := NextSeq();
      Put(StationHeartbeatTopic, Heartbeat(ts, s), delivered);
    }

    /** `send_teleop`: the station's control values are floats, on which
        `round` never raises. */
    method SendTeleop(linearX: real, angularZ: real, delivered: bool)
      requires Valid()
      modifies this`seqCounter, this`issued, this`sent
      ensures Valid() && issued == old(issued) + 1 && seqCounter == Successor(old(seqCounter))
      ensures sent == old(sent)
        + (if delivered then [Publication(StationTeleopTopic, Teleop(Real(linearX), Real(angularZ), old(seqCounter)))] else [])
    {
      var s := NextSeq();
      Put(StationTeleopTopic, Teleop(Real(linearX), Real(angularZ), s), delivered);
    }

    method SendEstop(activate: bool, delivered: bool)
      requires Valid()
      modifies this`seqCounter, this`issued, this`sent
      ensures Valid() && issued == old(issued) + 1 && seqCounter == Successor(old(seqCounter))
      ensures sent == old(sent) + (if delivered then [Publication(StationEstopTopic, EstopCommand(activate, old(seqCounter)))] else [])
    {
      var s := NextSeq();
      Put(StationEstopTopic, EstopCommand(activate, s), delivered);
    }

    method SendCmdMode(mode: int, delivered: bool)
      requires Valid()
      modifies this`seqCounter, this`issued, this`sent
      ensures Valid() && issued == old(issued) + 1 && seqCounter == Successor(old(seqCounter))
      ensures sent == old(sent) + (if delivered then [Publication(StationCmdModeTopic, CmdMode(mode, old(seqCounter)))] else [])
    {
      var s := NextSeq();
      Put(StationCmdModeTopic, CmdMode(mode, s), delivered);
    }

    /** `send_joystick_connected`: the one message without a sequence
        number; the counter is left alone. */
    method SendJoystickConnected(connected: bool, delivered: bool)
      modifies this`sent
      ensures sent == old(sent) + (if delivered then [Publication(StationJoystickTopic, JoystickConnected(connected))] else [])
    {
      Put(StationJoystickTopic, JoystickConnected(connected), delivered);
    }
  }

  // ---------------------------------------------------------------------
  // The periodic send loop
  // ---------------------------------------------------------------------

  /** `1 / heartbeat_rate` and `1 / teleop_rate`. */
  datatype StationConfig = StationConfig(hbInterval: real, tcInterval: real)

  /** The loop's `last_hb` and `last_tc`. */
  datatype StationTimers = StationTimers(lastHb: real, lastTc: real)

  /** What one pass of the loop observes: the monotonic and wall clocks,
      the station's control values, and whether each put got through. */
  datatype Tick = Tick(now: real, wallClock: real, linearX: real, angularZ: real, hbDelivered: bool, tcDelivered: bool)

  /** The publications of one pass: a heartbeat when its timer is due, then
      a teleop whenever its timer is due, with no mode or e-stop gate. */
  function TickPublications(cfg: StationConfig, t: StationTimers, k: Tick, s: SeqNum): seq<Publication> {
    var hb := Due(t.lastHb, cfg.hbInterval, k.now);
    var tc := Due(t.lastTc, cfg.tcInterval, k.now);
    var tcSeq := if hb then Successor(s) else s;
    (if hb && k.hbDelivered then [Publication(StationHeartbeatTopic, Heartbeat(k.wallClock, s))] else [])
    + (if tc && k.tcDelivered
       then [Publication(StationTeleopTopic, Teleop(Real(k.linearX), Real(k.angularZ), tcSeq))] else [])
  }

  /** The timers after a pass. */
  function NextTimers(cfg: StationConfig, t: StationTimers, k: Tick): StationTimers {
    StationTimers(Fire(t.lastHb, cfg.hbInterval, k.now), Fire(t.lastTc, cfg.tcInterval, k.now))
  }

  /** The counter after a pass: one step per message sent. */
  function NextCounter(cfg: StationConfig, t: StationTimers, k: Tick, s: SeqNum): SeqNum {
    var s1 := if Due(t.lastHb, cfg.hbInterval, k.now) then Successor(s) else s;
    if Due(t.lastTc, cfg.tcInterval, k.now) then Successor(s1) else s1
  }

  /** The publications of a whole run of passes, from timers `t` and
      counter `s`. */
  function RunPublications(cfg: StationConfig, t: StationTimers, s: SeqNum, ticks: seq<Tick>): seq<Publication>
    decreases |ticks|
  {
    if ticks == [] then []
    else
      var k := ticks[0];
      TickPublications(cfg, t, k, s) + RunPublications(cfg, NextTimers(cfg, t, k), NextCounter(cfg, t, k, s), ticks[1..])
  }

  /** One pass of `run_send_loop`. */
  method StationLoopStep(client: StationClient, cfg: StationConfig, t: StationTimers, k: Tick) returns (next: StationTimers)
    requires client.Valid()
    modifies client`seqCounter, client`issued, client`sent
    ensures client.Valid()
    ensures next == NextTimers(cfg, t, k)
    ensures client.seqCounter == NextCounter(cfg, t, k, old(client.seqCounter))
    ensures client.issued == old(client.issued)
      + (if Due(t.lastHb, cfg.hbInterval, k.now) then 1 else 0)
      + (if Due(t.lastTc, cfg.tcInterval, k.now) then 1 else 0)
    ensures client.sent == old(client.sent) + TickPublications(cfg, t, k, old(client.seqCounter))
  {
    next := t;
    if Due(t.lastHb, cfg.hbInterval, k.now) {
      client.SendHeartbeat(k.wallClock, k.hbDelivered);
      next := next.(lastHb := k.now);
    }
    if Due(t.lastTc, cfg.tcInterval, k.now) {
      client.SendTeleop(k.linearX, k.angularZ, k.tcDelivered);
      next := next.(lastTc := k.now);
    }
  }

  function Nows(ticks: seq<Tick>): (r: seq<real>)
    ensures |r| == |ticks| && forall i :: 0 <= i < |ticks| ==> r[i] == ticks[i].now
  {
    seq(|ticks|, i requires 0 <= i < |ticks| => ticks[i].now)
  }

  /** `run_send_loop` over a finite run of passes, from timers at 0.0: each
      timer ends at its last firing, and the counter has moved once per
      heartbeat firing plus once per teleop firing. */
  method RunSendLoop(client: StationClient, cfg: StationConfig, ticks: seq<Tick>) returns (t: StationTimers)
    requires client.Valid()
    modifies client`seqCounter, client`issued, client`sent
    ensures client.Valid()
    ensures t == StationTimers(LastFired(0.0, cfg.hbInterval, Nows(ticks)), LastFired(0.0, cfg.tcInterval, Nows(ticks)))
    ensures client.issued == old(client.issued)
      + |FireTimes(0.0, cfg.hbInterval, Nows(ticks))| + |FireTimes(0.0, cfg.tcInterval, Nows(ticks))|
    ensures client.sent == old(client.sent) + RunPublications(cfg, StationTimers(0.0, 0.0), old(client.seqCounter), ticks)
  {
    t := StationTimers(0.0, 0.0);
    var i := 0;
    while i < |ticks|
      invariant 0 <= i <= |ticks| && client.Valid()
      invariant t == StationTimers(LastFired(0.0, cfg.hbInterval, Nows(ticks)[..i]),
                                   LastFired(0.0, cfg.tcInterval, Nows(ticks)[..i]))
      invariant client.issued == old(client.issued)
        + |FireTimes(0.0, cfg.hbInterval, Nows(ticks)[..i])| + |FireTimes(0.0, cfg.tcInterval, Nows(ticks)[..i])|
      invariant old(client.sent) + RunPublications(cfg, StationTimers(0.0, 0.0), old(client.seqCounter), ticks)
        == client.sent + RunPublications(cfg, t, client.seqCounter, ticks[i..])
    {
      PrefixStep(0.0, cfg.hbInterval, Nows(ticks), i);
      PrefixStep(0.0, cfg.tcInterval, Nows(ticks), i);
      ghost var t0, s0, sent0 := t, client.seqCounter, client.sent;
      t := StationLoopStep(client, cfg, t, ticks[i]);
      PublicationsAdvance(cfg, t0, s0, ticks, i, sent0);
      i := i + 1;
    }
    assert Nows(ticks)[..i] == Nows(ticks);
  }

  /** One more pass moves its publications from the rest of the run into
      the log. */
  lemma PublicationsAdvance(cfg: StationConfig, t: StationTimers, s: SeqNum, ticks: seq<Tick>, i: nat, sent: seq<Publication>)
    requires i < |ticks|
    ensures sent + RunPublications(cfg, t, s, ticks[i..])
      == (sent + TickPublications(cfg, t, ticks[i], s))
         + RunPublications(cfg, NextTimers(cfg, t, ticks[i]), NextCounter(cfg, t, ticks[i], s), ticks[i + 1..])
  {
    assert ticks[i..][1..] == ticks[i + 1..];
  }

  /** Over any run, heartbeats go out at most once per heartbeat interval
      and teleops at most once per teleop interval. */
  lemma RunIsRateLimited(cfg: StationConfig, ticks: seq<Tick>)
    ensures Spaced(0.0, cfg.hbInterval, FireTimes(0.0, cfg.hbInterval, Nows(ticks)))
    ensures Spaced(0.0, cfg.tcInterval, FireTimes(0.0, cfg.tcInterval, Nows(ticks)))
  {
    FireTimesSpaced(0.0, cfg.hbInterval, Nows(ticks));
    FireTimesSpaced(0.0, cfg.tcInterval, Nows(ticks));
  }
}
