/** The FCU mode/arming sequencer, as transition functions on values. Times are monotonic milliseconds. */
module SessionProtocol {
  import opened Wrappers

  // The FCU mode names; `Other` is any name the bridge has no use for, "" before the first report.
  datatype FcuMode = Hold | Guided | Manual | Other(name: string)

  datatype Kind = Mode | Arm

  datatype Reason = ConfirmationTimeout | RequestRefused

  // The error text "mode:..." or "arming:...", with the reason behind the colon.
  datatype Error = NoError | Error(kind: Kind, reason: Reason)

  datatype Command = Command(serial: nat, kind: Kind, mode: FcuMode, arm: bool)

  datatype Session = Session(
    wantedMode: FcuMode, mode: FcuMode, error: Error,
    wantedArm: bool, armed: bool, connected: bool, safetyDisarm: bool,
    forceDisarm: bool, modeFailed: bool, armFailed: bool, acked: bool,
    serial: nat, sentAt: int, pending: Option<Command>)

  const INITIAL := Session(Hold, Other(""), NoError, false, false, false, false, false, false, false, false, 0, 0, None)

  const CONFIRMATION_TIMEOUT := 3000

  predicate HasFailed(s: Session) { s.modeFailed || s.armFailed }

  predicate Current(s: Session, serial: nat) { s.pending.Some? && s.pending.value.serial == serial }

  predicate DisarmPending(s: Session) {
    s.pending.Some? && s.pending.value.kind == Arm && !s.pending.value.arm
  }

  predicate Ready(s: Session) {
    s.connected && s.pending.None? && s.mode == s.wantedMode && s.armed == s.wantedArm
  }

  predicate IsDisarm(c: Command) { c.kind == Arm && !c.arm }

  function Demand(s: Session, mode: FcuMode, arm: bool, safety: bool): Session {
    if s.wantedMode == mode && s.wantedArm == arm && s.safetyDisarm == safety then s
    else
      s.(wantedMode := mode, wantedArm := arm, modeFailed := false, armFailed := false, error := NoError,
         // Safety does not wait for an unrelated transaction.
         pending := if safety && !s.safetyDisarm then None else s.pending,
         forceDisarm := s.forceDisarm || (safety && !s.safetyDisarm), safetyDisarm := safety)
  }

  function Settle(s: Session): Session {
    if s.pending.None? || !s.acked then s
    else
      var p := s.pending.value;
      if (if p.kind == Mode then s.mode == p.mode else s.armed == p.arm)
      then s.(pending := None, error := if HasFailed(s) then s.error else NoError)
      else s
  }

  function Fail(s: Session, reason: Reason): Session {
    if s.pending.None? then s
    else
      var p := s.pending.value;
      s.(modeFailed := s.modeFailed || (p.kind == Mode && p.mode == s.wantedMode),
         armFailed := s.armFailed || (p.kind == Arm && p.arm == s.wantedArm),
         error := Error(p.kind, reason),
         pending := None)
  }

  // The state after a report, before a pending command is compared with it.
  function Reported(s: Session, connected: bool, armed: bool, mode: FcuMode): Session {
    var rearmed := s.safetyDisarm && armed && !s.armed;
    s.(pending := if connected then s.pending else None,
       forceDisarm := s.forceDisarm || rearmed,
       connected := connected, armed := armed, mode := mode,
       modeFailed := s.modeFailed && !(connected && mode == s.wantedMode),
       armFailed := s.armFailed && !rearmed && !(connected && armed == s.wantedArm))
  }

  function Observe(s: Session, connected: bool, armed: bool, mode: FcuMode): Session {
    Settle(Reported(s, connected, armed, mode))
  }

  function Tick(s: Session, now: int): Session {
    if s.pending.Some? && now - s.sentAt >= CONFIRMATION_TIMEOUT then Fail(s, ConfirmationTimeout) else s
  }

  // The command the next poll sends, without its serial: at most one.
  function Choice(s: Session, modeService: bool, armService: bool, allowArm: bool): Option<Command> {
    var disarm := Some(Command(0, Arm, s.wantedMode, false));
    if !s.connected || s.pending.Some? then None
    else if s.safetyDisarm && (s.forceDisarm || s.armed) && !s.armFailed then
      if armService then disarm else None
    else if s.mode != s.wantedMode && !s.modeFailed then
      if modeService then Some(Command(0, Mode, s.wantedMode, false))
      // An unavailable mode service cannot obstruct a DISARM.
      else if s.wantedArm || !s.armed || s.armFailed || !armService then None
      else disarm
    else if s.armed != s.wantedArm && !s.armFailed then
      // An activation never passes a failed mode; the end of a session may.
      if (s.wantedArm && (s.mode != s.wantedMode || !allowArm)) || !armService then None
      else Some(Command(0, Arm, s.wantedMode, s.wantedArm))
    else None
  }

  function PollCommand(s: Session, now: int, modeService: bool, armService: bool, allowArm: bool): Option<Command> {
    var choice := Choice(Tick(s, now), modeService, armService, allowArm);
    if choice.None? then None else Some(choice.value.(serial := s.serial + 1))
  }

  function Poll(s: Session, now: int, modeService: bool, armService: bool, allowArm: bool): Session {
    var t := Tick(s, now);
    match PollCommand(s, now, modeService, armService, allowArm)
    case None => t
    case Some(command) =>
      t.(forceDisarm := t.forceDisarm && !(t.safetyDisarm && !t.armFailed),
         serial := command.serial, pending := Some(command), acked := false, sentAt := now)
  }

  function Complete(s: Session, serial: nat, accepted: bool, now: int): Session {
    var t := Tick(s, now);
    if !Current(t, serial) then t
    else if !accepted then Fail(t, RequestRefused)
    else Settle(t.(acked := true))
  }

  /** One external stimulus of the controller. */
  datatype Event =
    | EvDemand(mode: FcuMode, arm: bool, safety: bool)
    | EvObserve(connected: bool, armed: bool, mode: FcuMode)
    | EvTick(at: int)
    | EvPoll(at: int, modeService: bool, armService: bool, allowArm: bool)
    | EvComplete(serial: nat, accepted: bool, at: int)

  /** A command as sent, with the mode observed and the mode wanted at that moment. */
  datatype Sent = Sent(command: Command, observed: FcuMode, wanted: FcuMode)

  function After(s: Session, e: Event): Session {
    match e
    case EvDemand(mode, arm, safety) => Demand(s, mode, arm, safety)
    case EvObserve(connected, armed, mode) => Observe(s, connected, armed, mode)
    case EvTick(at) => Tick(s, at)
    case EvPoll(at, modeService, armService, allowArm) => Poll(s, at, modeService, armService, allowArm)
    case EvComplete(serial, accepted, at) => Complete(s, serial, accepted, at)
  }

  function Emission(s: Session, e: Event): seq<Sent> {
    if !e.EvPoll? then []
    else
      match PollCommand(s, e.at, e.modeService, e.armService, e.allowArm)
      case None => []
      case Some(command) => [Sent(command, s.mode, s.wantedMode)]
  }

  function Run(s: Session, events: seq<Event>): Session
    decreases |events|
  {
    if events == [] then s else Run(After(s, events[0]), events[1..])
  }

  // Everything sent during a run, in order.
  function Emissions(s: Session, events: seq<Event>): seq<Sent>
    decreases |events|
  {
    if events == [] then [] else Emission(s, events[0]) + Emissions(After(s, events[0]), events[1..])
  }
}
