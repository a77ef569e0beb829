/** The two operator commands of the web API that change the store: the
    command mode, accepted only from a fixed set, and the e-stop flag. Both
    forward the new value to the vehicle. */
module WebApi {
  import opened JsonValues
  import opened Wire
  import opened State
  import opened VehicleBridge
  import opened Joystick

  /** The command modes the API accepts. */
  predicate ValidMode(mode: int) {
    mode == -1 || mode == 0 || mode == 1 || mode == 2
  }

  /** `POST /api/cmd_mode`: a mode outside {-1, 0, 1, 2} is refused and
      nothing changes; otherwise `control.mode` is set and sent. */
  method SetCmdMode(state: SharedState, proto: VehicleProtocol, mode: int, delivered: bool) returns (ok: bool)
    requires state.Valid() && proto.Valid()
    modifies state`records, proto`seqCounter, proto`issued, proto`sent
    ensures state.Valid() && proto.Valid()
    ensures ok == ValidMode(mode)
    ensures !ok ==> state.records == old(state.records) && proto.issued == old(proto.issued) && proto.sent == old(proto.sent)
    ensures ok ==>
      && state.records == SetField(old(state.records), "mode", Int(mode))
      && proto.issued == old(proto.issued) + 1
      && proto.sent == old(proto.sent)
           + (if delivered then [Publication(CmdModeTopic, CmdMode(mode, old(proto.seqCounter)))] else [])
  {
    if !ValidMode(mode) {
      return false;
    }
    state.records := SetField(state.records, "mode", Int(mode));
    proto.SendCmdMode(mode, delivered);
    ok := true;
  }

  /** `POST /api/estop`: set `control.estop` and send it. */
  method SetEstop(state: SharedState, proto: VehicleProtocol, active: bool, delivered: bool)
    requires state.Valid() && proto.Valid()
    modifies state`records, proto`seqCounter, proto`issued, proto`sent
    ensures state.Valid() && proto.Valid()
    ensures state.records == SetField(old(state.records), "estop", Bool(active))
    ensures proto.issued == old(proto.issued) + 1
    ensures proto.sent == old(proto.sent)
      + (if delivered then [Publication(EstopTopic, EstopCommand(active, old(proto.seqCounter)))] else [])
  {
    state.records := SetField(state.records, "estop", Bool(active));
    proto.SendEstop(active, delivered);
  }
}
