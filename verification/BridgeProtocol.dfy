/** The lock-protected logic of the bridge node: both controllers, the safety record and the callers of the
    `mower_control` service, as transition functions on values. Each function is one piece of a callback that
    holds the mutex; an `Event` is one whole callback. */
module BridgeProtocol {
  import opened Wrappers
  import B = BladeProtocol
  import S = SessionProtocol

  datatype HardwareSafety = SwitchUnknown | Released | Engaged

  /** What is known about emergencies. */
  datatype Safety = Safety(hardware: HardwareSafety, hardwareLatched: bool,
                           serviceActive: bool, serviceLatched: bool, tiltActive: bool, tiltLatched: bool,
                           liftKnown: bool, leftLifted: bool, rightLifted: bool)

  datatype HighLevel = Inactive | Autonomous | Recording | ManualMowing

  datatype Setup = Setup(blade: B.Config, guidedVelocity: bool, mowingEnabled: bool)

  // What a drive function reads from outside: the clock at its start and again later, whether the command
  // transport and the FCU services are there, and whether a send succeeds.
  datatype Env = Env(steady: nat, again: nat, transport: bool, modeService: bool, armService: bool,
                     bladeSends: bool, sessionSends: bool)

  /** Everything that decides whether a blade ON is permitted. */
  datatype Scene = Scene(session: S.Session, safety: Safety, highLevel: HighLevel, bladeTest: bool,
                         fcuConnected: bool, fcuArmed: bool, fcuMode: S.FcuMode,
                         fcuReceipt: int, safetyReceipt: int, bladeSlot: int)

  // Callers are numbered in the order of their calls.
  datatype Start = Start(caller: nat, direction: B.Direction, started: int)

  datatype Reply = Reply(caller: nat, revision: nat, started: int)

  /** An answer, with the blade controller as it was when the answer was given. */
  datatype Answer = Answer(caller: nat, success: bool, blade: B.Blade)

  /** A blade command handed to the transport, with the scene at that instant. */
  datatype Dispatch = Dispatch(command: B.Command, at: int, scene: Scene)

  datatype Bridge = Bridge(
    blade: B.Machine, scene: Scene, starts: seq<Start>, replies: seq<Reply>,
    asked: seq<Option<B.Direction>>, answers: seq<Answer>, dispatches: seq<Dispatch>, orders: seq<S.Command>)

  const QUEUE_LIMIT := 32
  const SERVICE_DEADLINE := 20000
  const FCU_FRESH := 2500
  const SAFETY_FRESH := 3000

  const START := Bridge(
    B.START,
    Scene(S.INITIAL, Safety(SwitchUnknown, false, false, false, false, false, false, false, false),
          Inactive, false, false, false, S.Other(""), -1, -1, 2),
    [], [], [], [], [], [])

  predicate ActiveEmergency(s: Safety) {
    s.hardware == Engaged || s.serviceActive || s.tiltActive || (s.liftKnown && s.leftLifted && s.rightLifted)
  }

  predicate LatchedEmergency(s: Safety) {
    s.hardware == Engaged || s.hardwareLatched || s.serviceLatched || s.tiltLatched
  }

  predicate Emergency(s: Safety) { ActiveEmergency(s) || LatchedEmergency(s) }

  predicate Moving(c: Scene) { c.highLevel != Inactive }

  /** The permission for a blade ON. */
  predicate BladeAllowed(k: Setup, c: Scene, now: int) {
    && S.Ready(c.session) && c.session.wantedArm && k.mowingEnabled && c.fcuConnected && c.fcuArmed
    && c.fcuReceipt >= 0 && now - c.fcuReceipt <= FCU_FRESH
    && c.safetyReceipt >= 0 && now - c.safetyReceipt <= SAFETY_FRESH
    && c.safety.hardware == Released && !Emergency(c.safety) && c.bladeSlot >= 0
  }

  function Blade(k: Setup, s: Bridge, e: B.Event): Bridge {
    s.(blade := B.Step(k.blade, s.blade, e))
  }

  function Demand(s: Bridge, mode: S.FcuMode, arm: bool, safety: bool): Bridge {
    s.(scene := s.scene.(session := S.Demand(s.scene.session, mode, arm, safety)))
  }

  function Tell(s: Bridge, caller: nat, success: bool): Bridge {
    s.(answers := s.answers + [Answer(caller, success, s.blade.blade)])
  }

  // Every waiting start is answered `false`.
  function CancelStarts(s: Bridge): Bridge
    decreases |s.starts|
  {
    if s.starts == [] then s
    else CancelStarts(Tell(s, s.starts[0].caller, false).(starts := s.starts[1..]))
  }

  // The isolated test and the waiting starts are given up, and the blade is forced OFF.
  function Abandon(k: Setup, s: Bridge, at: nat): Bridge {
    Blade(k, CancelStarts(s.(scene := s.scene.(bladeTest := false))), B.EvForceOff(at))
  }

  function EndTest(k: Setup, s: Bridge, at: nat): Bridge {
    if !s.scene.bladeTest || Moving(s.scene) then s
    else Demand(Abandon(k, s, at), S.Hold, false, Emergency(s.scene.safety))
  }

  function Without<T>(xs: seq<T>, i: nat): seq<T>
    requires i < |xs|
  {
    xs[..i] + xs[i + 1..]
  }

  // A start or an ON caller asks the blade controller and waits for it, or is answered at once.
  function Submit(k: Setup, s: Bridge, caller: nat, d: B.Direction, started: int, now: nat, transport: bool): Bridge {
    var result := B.Answer(k.blade, s.blade.blade, d, now);
    var n := Blade(k, s, B.EvRequest(d, now));
    if result == B.Pending && transport && |n.replies| < QUEUE_LIMIT
    then n.(replies := n.replies + [Reply(caller, n.blade.blade.revision, started)])
    else Tell(n, caller, transport && result == B.Confirmed)
  }

  predicate Overdue(now: int, started: int) { now - started > SERVICE_DEADLINE }

  // A start that can no longer begin.
  predicate Hopeless(s: Bridge, start: Start, now: int) {
    || S.HasFailed(s.scene.session) || !s.scene.fcuConnected || Emergency(s.scene.safety)
    || Overdue(now, start.started)
  }

  // Start `i` leaves the queue: it is refused, or submitted to the blade controller.
  function Resolve(k: Setup, s: Bridge, i: nat, now: nat): Bridge
    requires i < |s.starts|
  {
    var start := s.starts[i];
    (if Hopeless(s, start, now) then Tell(s, start.caller, false)
     else Submit(k, s, start.caller, start.direction, start.started, now, true))
      .(starts := Without(s.starts, i))
  }

  // The loop over the waiting starts, from position `i` on.
  function Admit(k: Setup, s: Bridge, i: nat, now: nat): Bridge
    decreases |s.starts| - i
  {
    if i >= |s.starts| then s
    else if Hopeless(s, s.starts[i], now) || S.Ready(s.scene.session) then Admit(k, Resolve(k, s, i, now), i, now)
    else Admit(k, s, i + 1, now)
  }

  predicate Lapsed(s: Bridge, reply: Reply, now: int) {
    reply.revision != s.blade.blade.revision || s.blade.blade.fault || Overdue(now, reply.started)
  }

  // The loop over the waiting replies, from position `i` on.
  function Reap(s: Bridge, i: nat, now: int): Bridge
    decreases |s.replies| - i
  {
    if i >= |s.replies| then s
    else
      var reply := s.replies[i];
      if Lapsed(s, reply, now) || B.Satisfied(s.blade.blade)
      then Reap(Tell(s, reply.caller, !Lapsed(s, reply, now)).(replies := Without(s.replies, i)), i, now)
      else Reap(s, i + 1, now)
  }

  predicate OverdueStart(s: Bridge, now: int) {
    exists i | 0 <= i < |s.starts| :: Overdue(now, s.starts[i].started)
  }

  predicate OverdueReply(s: Bridge, now: int) {
    exists i | 0 <= i < |s.replies| ::
      s.replies[i].revision == s.blade.blade.revision && Overdue(now, s.replies[i].started)
  }

  function EndFailedTest(k: Setup, s: Bridge, e: Env): Bridge {
    if S.HasFailed(s.scene.session) || !s.scene.fcuConnected then EndTest(k, s, e.again) else s
  }

  function Grant(k: Setup, s: Bridge, e: Env): Bridge {
    var permitted := Blade(k, s, B.EvPermit(BladeAllowed(k, s.scene, e.steady), e.steady));
    Blade(k, permitted, B.EvTick(e.steady))
  }

  function EndOverdueTest(k: Setup, s: Bridge, e: Env): Bridge {
    if OverdueStart(s, e.steady) then EndTest(k, s, e.again) else s
  }

  function ExpireService(k: Setup, s: Bridge, e: Env): Bridge {
    if !B.Satisfied(s.blade.blade) && OverdueReply(s, e.steady) then Blade(k, s, B.EvExpire(e.steady)) else s
  }

  function EndIdleTest(k: Setup, s: Bridge, e: Env): Bridge {
    if s.starts == [] && s.blade.blade.requested == B.Off then EndTest(k, s, e.again) else s
  }

  // A command is handed to the transport, which may fail at once.
  function Hand(k: Setup, s: Bridge, command: B.Command, e: Env): Bridge {
    var sent := s.(dispatches := s.dispatches + [Dispatch(command, e.steady, s.scene)]);
    if e.bladeSends then sent else Blade(k, sent, B.EvComplete(command.token, false, e.again))
  }

  function Send(k: Setup, s: Bridge, e: Env): Bridge {
    var command := B.PollCommand(k.blade, s.blade.blade, e.steady);
    if !e.transport then s
    else
      var n := Blade(k, s, B.EvPoll(e.steady));
      if command.None? then n
      else Hand(k, n, command.value, e)
  }

  // The first part of `drive_blade_locked`: permission, timers and the deadline of waiting starts.
  function Review(k: Setup, s: Bridge, e: Env): Bridge {
    EndOverdueTest(k, Grant(k, EndFailedTest(k, s, e), e), e)
  }

  // Everything `drive_blade_locked` does before it polls the blade controller.
  function Prepare(k: Setup, s: Bridge, e: Env): Bridge {
    var admitted := Admit(k, Review(k, s, e), 0, e.steady);
    EndIdleTest(k, Reap(ExpireService(k, admitted, e), 0, e.steady), e)
  }

  function DriveBlade(k: Setup, s: Bridge, e: Env): Bridge {
    Send(k, Prepare(k, s, e), e)
  }

  // The FCU mode the scene calls for: tilt and double lift keep the mode, the other emergencies hold.
  function WantedMode(k: Setup, c: Scene): S.FcuMode {
    if Emergency(c.safety) && !(c.safety.hardware == Engaged || c.safety.serviceActive) then c.fcuMode
    else if Emergency(c.safety) || !Moving(c) then S.Hold
    else if c.highLevel == Autonomous && k.guidedVelocity then S.Guided
    else S.Manual
  }

  function Steer(k: Setup, s: Bridge, now: int): Bridge {
    var emergency := Emergency(s.scene.safety);
    var wanted := Demand(s, WantedMode(k, s.scene), !emergency && (Moving(s.scene) || s.scene.bladeTest), emergency);
    wanted.(scene := wanted.scene.(session := S.Tick(wanted.scene.session, now)))
  }

  // ARM is allowed only while hardware safety is released and there is no emergency.
  predicate ArmAllowed(s: Safety) { !Emergency(s) && s.hardware == Released }

  function NextOrder(c: Scene, e: Env): Option<S.Command> {
    S.PollCommand(c.session, e.steady, e.modeService, e.armService, ArmAllowed(c.safety))
  }

  // The session after the order was handed to the transport, which may refuse it at once.
  function Ordered(c: Scene, e: Env): S.Session {
    var polled := S.Poll(c.session, e.steady, e.modeService, e.armService, ArmAllowed(c.safety));
    if NextOrder(c, e).None? || e.sessionSends then polled
    else S.Complete(polled, NextOrder(c, e).value.serial, false, e.steady)
  }

  function Order(s: Bridge, e: Env): Bridge {
    var sent := if NextOrder(s.scene, e).None? then [] else [NextOrder(s.scene, e).value];
    s.(orders := s.orders + sent, scene := s.scene.(session := Ordered(s.scene, e)))
  }

  function DriveSession(k: Setup, s: Bridge, e: Env): Bridge {
    var steered := Steer(k, s, e.steady);
    Order(if S.HasFailed(steered.scene.session) then EndTest(k, steered, e.again) else steered, e)
  }

  // The session first, then the blade.
  function DriveAll(k: Setup, s: Bridge, e1: Env, e2: Env): Bridge {
    DriveBlade(k, DriveSession(k, s, e1), e2)
  }

  // A `mower_control` call as received.
  datatype Call = Call(enabled: nat, direction: nat, transport: bool, at: nat)

  predicate Malformed(c: Call) { c.enabled > 1 || (c.enabled != 0 && c.direction > 1) }

  function Wish(c: Call): Option<B.Direction> {
    if Malformed(c) then None
    else if c.enabled == 0 then Some(B.Off)
    else if c.direction == 0 then Some(B.Forward)
    else Some(B.Reverse)
  }

  // An OFF ends waiting starts and an isolated test, and brings the permission up to date before the caller is
  // bound to a blade revision.
  function Bind(k: Setup, s: Bridge, c: Call): Bridge {
    var cancelled := CancelStarts(s);
    var calm := cancelled.(scene := cancelled.scene.(bladeTest := false));
    if Moving(calm.scene) then calm
    else
      var idle := Demand(calm, S.Hold, false, Emergency(calm.scene.safety));
      Blade(k, idle, B.EvPermit(BladeAllowed(k, idle.scene, c.at), c.at))
  }

  function CallOff(k: Setup, s: Bridge, caller: nat, c: Call, e1: Env, e2: Env): Bridge {
    var submitted := Submit(k, Bind(k, s, c), caller, B.Off, c.at, c.at, c.transport);
    DriveSession(k, DriveBlade(k, submitted, e1), e2)
  }

  predicate Unfit(k: Setup, s: Bridge, transport: bool) {
    || !transport || !k.mowingEnabled || !s.scene.fcuConnected || Emergency(s.scene.safety)
    || s.scene.safety.hardware != Released || s.blade.blade.fault
  }

  // The caller of an ON finds the session ready.
  function Admitted(k: Setup, s: Bridge, caller: nat, d: B.Direction, c: Call, e: Env): Bridge {
    var permitted := Blade(k, s, B.EvPermit(BladeAllowed(k, s.scene, c.at), c.at));
    DriveBlade(k, Submit(k, permitted, caller, d, c.at, c.at, true), e)
  }

  // The caller of an ON waits for the session, or for the blade, or is refused.
  function Enlist(k: Setup, s: Bridge, caller: nat, d: B.Direction, c: Call, again: nat, e: Env): Bridge {
    if S.HasFailed(s.scene.session) || (!Moving(s.scene) && !s.scene.bladeTest) then
      Tell(EndTest(k, s, again), caller, false)
    else if !S.Ready(s.scene.session) then
      if |s.starts| >= QUEUE_LIMIT then Tell(s, caller, false)
      else s.(starts := s.starts + [Start(caller, d, c.at)])
    else Admitted(k, s, caller, d, c, e)
  }

  // The second half of an ON call: an isolated test is begun if nothing moves.
  function Begin(k: Setup, s: Bridge, caller: nat, d: B.Direction, c: Call, e1: Env, e2: Env): Bridge {
    var testing := if Moving(s.scene) then s else s.(scene := s.scene.(bladeTest := true));
    Enlist(k, DriveSession(k, testing, e1), caller, d, c, e1.again, e2)
  }

  // A start in another direction is cancelled before the controllers are driven for the new caller.
  function Clear(k: Setup, s: Bridge, d: B.Direction, e1: Env, e2: Env): Bridge {
    var alone := if s.starts != [] && s.starts[0].direction != d then CancelStarts(s) else s;
    DriveAll(k, alone, e1, e2)
  }

  function CallOn(k: Setup, s: Bridge, caller: nat, d: B.Direction, c: Call,
                  e1: Env, e2: Env, e3: Env, e4: Env): Bridge
  {
    var driven := Clear(k, s, d, e1, e2);
    if Unfit(k, driven, c.transport) then Tell(driven, caller, false)
    else Begin(k, driven, caller, d, c, e3, e4)
  }

  function MowerControl(k: Setup, s: Bridge, c: Call, e1: Env, e2: Env, e3: Env, e4: Env): Bridge {
    var caller := |s.asked|;
    var heard := s.(asked := s.asked + [Wish(c)]);
    match Wish(c)
    case None => Tell(heard, caller, false)
    case Some(d) =>
      if d == B.Off then CallOff(k, heard, caller, c, e1, e2) else CallOn(k, heard, caller, d, c, e1, e2, e3, e4)
  }

  // Everything is cancelled and a safety DISARM is demanded.
  function Secure(k: Setup, s: Bridge, hold: bool, at: nat): Bridge {
    var neutral := Abandon(k, s, at);
    Demand(neutral, if hold then S.Hold else neutral.scene.fcuMode, false, true)
  }

  function SafetyDisarm(k: Setup, s: Bridge, hold: bool, at: nat, e1: Env, e2: Env): Bridge {
    DriveSession(k, DriveBlade(k, Secure(k, s, hold, at), e1), e2)
  }

  // The scene after the FCU is reported lost.
  function Lost(c: Scene): Scene {
    c.(safety := c.safety.(hardware := SwitchUnknown, hardwareLatched := false, liftKnown := false))
  }

  // The state before the report itself is recorded: link, safety and waiting starts.
  function Relink(k: Setup, s: Bridge, connected: bool, at: nat): Bridge {
    var linked := Blade(k, s, B.EvConnect(connected, at));
    var known := if connected then linked else linked.(scene := Lost(linked.scene));
    if s.scene.fcuConnected && !connected then CancelStarts(known) else known
  }

  function Recorded(s: Bridge, connected: bool, armed: bool, mode: S.FcuMode, at: nat): Bridge {
    s.(scene := s.scene.(
      fcuReceipt := at, fcuConnected := connected, fcuArmed := armed, fcuMode := mode,
      session := S.Observe(s.scene.session, connected, armed, mode)))
  }

  function FcuReport(k: Setup, s: Bridge, connected: bool, armed: bool, mode: S.FcuMode, at: nat,
                     e1: Env, e2: Env): Bridge
  {
    DriveAll(k, Recorded(Relink(k, s, connected, at), connected, armed, mode, at), e1, e2)
  }

  // The end of a movement session stops the blade before the FCU is disarmed.
  function Retire(k: Setup, s: Bridge, at: nat, e: Env): Bridge {
    DriveBlade(k, Abandon(k, s, at), e)
  }

  // A new level is recorded; leaving movement retires the blade.
  function Relevel(k: Setup, s: Bridge, level: HighLevel, at: nat, e: Env): Bridge {
    var known := s.(scene := s.scene.(highLevel := level));
    if Moving(s.scene) && level == Inactive then Retire(k, known, at, e) else known
  }

  function HighLevelReport(k: Setup, s: Bridge, level: HighLevel, at: nat, e1: Env, e2: Env, e3: Env): Bridge {
    DriveAll(k, Relevel(k, s, level, at, e1), e2, e3)
  }

  /** One callback of the node, or one of its separately locked parts. */
  datatype Event =
    | EvTimer(e1: Env, e2: Env)
    | EvVelocity(e1: Env)
    | EvHighLevel(level: HighLevel, at: nat, e1: Env, e2: Env, e3: Env)
    | EvFcu(connected: bool, armed: bool, mode: S.FcuMode, at: nat, e1: Env, e2: Env)
    | EvSwitch(present: bool, enabled: bool, at: nat)
    | EvLift(left: bool, right: bool)
    | EvTilt(active: bool)
    | EvService(active: bool)
    | EvClearLatches
    | EvSafetyDisarm(hold: bool, at: nat, e1: Env, e2: Env)
    | EvBladeReply(token: nat, accepted: bool, at: nat, e1: Env)
    | EvFcuReply(serial: nat, accepted: bool, at: nat, e1: Env, e2: Env)
    | EvTelemetry(source: int, stamp: int, count: int, countValid: bool, valid: bool, rpm: int, at: nat, e1: Env)
    | EvServoOutput(pwm: int, at: nat, e1: Env)
    | EvNeutral(at: nat, e1: Env)
    | EvRemap(slot: int, at: nat, e1: Env)
    | EvMowerControl(call: Call, e1: Env, e2: Env, e3: Env, e4: Env)

  // The callbacks that only update the safety record; nothing is driven under that lock.
  predicate Senses(e: Event) { e.EvSwitch? || e.EvLift? || e.EvTilt? || e.EvService? || e.EvClearLatches? }

  function Sense(c: Scene, e: Event): Scene
    requires Senses(e)
  {
    var was := c.safety;
    match e
    case EvSwitch(present, enabled, at) =>
      if !c.fcuConnected then c
      else c.(safetyReceipt := at,
              safety := if !present then was.(hardware := SwitchUnknown, hardwareLatched := false)
                        else was.(hardware := if enabled then Released else Engaged, hardwareLatched := !enabled))
    case EvLift(left, right) =>
      if !c.fcuConnected then c
      else c.(safety := was.(liftKnown := true, leftLifted := left, rightLifted := right))
    case EvTilt(active) => c.(safety := was.(tiltActive := active, tiltLatched := was.tiltLatched || active))
    case EvService(active) => c.(safety := was.(serviceActive := active, serviceLatched := active))
    case EvClearLatches => c.(safety := was.(serviceLatched := false, tiltLatched := was.tiltLatched && was.tiltActive))
  }

  // The callbacks that tell the blade controller something and then drive it.
  predicate Tells(e: Event) { e.EvBladeReply? || e.EvTelemetry? || e.EvServoOutput? || e.EvNeutral? }

  function Told(e: Event): B.Event
    requires Tells(e)
  {
    match e
    case EvBladeReply(token, accepted, at, _) => B.EvComplete(token, accepted, at)
    case EvTelemetry(source, stamp, count, countValid, valid, rpm, at, _) =>
      B.EvSample(source, stamp, count, countValid, valid, rpm, at)
    case EvServoOutput(pwm, at, _) => B.EvOutput(pwm, at)
    case EvNeutral(at, _) => B.EvForceOff(at)
  }

  function FcuReply(k: Setup, s: Bridge, serial: nat, accepted: bool, at: nat, e1: Env, e2: Env): Bridge {
    var told := s.(scene := s.scene.(session := S.Complete(s.scene.session, serial, accepted, at)));
    DriveAll(k, told, e1, e2)
  }

  function Remap(k: Setup, s: Bridge, slot: int, at: nat, e1: Env): Bridge {
    DriveBlade(k, Blade(k, s.(scene := s.scene.(bladeSlot := slot)), B.EvForceOff(at)), e1)
  }

  // The callbacks that drive both controllers themselves.
  function Driven(k: Setup, s: Bridge, e: Event): Bridge
    requires !Senses(e) && !Tells(e)
  {
    match e
    case EvTimer(e1, e2) => DriveAll(k, s, e1, e2)
    case EvVelocity(e1) => DriveSession(k, s, e1)
    case EvHighLevel(level, at, e1, e2, e3) => HighLevelReport(k, s, level, at, e1, e2, e3)
    case EvFcu(connected, armed, mode, at, e1, e2) => FcuReport(k, s, connected, armed, mode, at, e1, e2)
    case EvSafetyDisarm(hold, at, e1, e2) => SafetyDisarm(k, s, hold, at, e1, e2)
    case EvFcuReply(serial, accepted, at, e1, e2) => FcuReply(k, s, serial, accepted, at, e1, e2)
    case EvRemap(slot, at, e1) => Remap(k, s, slot, at, e1)
    case EvMowerControl(call, e1, e2, e3, e4) => MowerControl(k, s, call, e1, e2, e3, e4)
  }

  function Step(k: Setup, s: Bridge, e: Event): Bridge {
    if Senses(e) then s.(scene := Sense(s.scene, e))
    else if !Tells(e) then Driven(k, s, e)
    // Telemetry and servo outputs count only while the FCU is connected.
    else if (e.EvTelemetry? || e.EvServoOutput?) && !s.scene.fcuConnected then s
    else DriveBlade(k, Blade(k, s, Told(e)), e.e1)
  }

  function Run(k: Setup, s: Bridge, events: seq<Event>): Bridge
    decreases |events|
  {
    if events == [] then s else Run(k, Step(k, s, events[0]), events[1..])
  }
}
