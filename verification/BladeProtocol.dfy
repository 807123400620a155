/** The blade OFF/FORWARD/REVERSE command sequencer, as transition functions on values.
    Times are monotonic milliseconds; tokens and revisions are unbounded naturals. */
module BladeProtocol {
  import opened Wrappers

  datatype Direction = Off | Forward | Reverse | Unknown

  datatype Phase = Idle | Cutting | CuttingReverse | TransitionToOff | WaitStop | Failed

  datatype Result = Rejected | Pending | Confirmed

  datatype Config = Config(channel: int, neutral: int, forward: int, reverse: int,
                           ackTimeout: int, stopTimeout: int, freshness: int, coast: int)

  predicate ValidConfig(c: Config) {
    && 1 <= c.channel <= 32
    && 1000 <= c.neutral <= 2000 && 1000 <= c.forward <= 2000 && 1000 <= c.reverse <= 2000
    && (c.forward < c.neutral < c.reverse || c.reverse < c.neutral < c.forward)
    && c.ackTimeout > 0 && c.stopTimeout > c.coast && c.freshness > 0 && c.coast >= 1000
  }

  datatype Command = Command(token: nat, channel: int, pwm: int, direction: Direction)

  datatype Blade = Blade(
    phase: Phase, requested: Direction, confirmed: Direction,
    connected: bool, allowed: bool, fault: bool, queuedNeutral: bool,
    inFlight: Option<Command>, token: nat, revision: nat,
    sentAt: int, neutralSince: int, waitSince: int,
    stopSince: int, stopSamples: nat,
    sampleSource: int, sampleStamp: int, sampleReceipt: int, sampleCount: int, sampleZero: bool)

  const UINT32 := 0x1_0000_0000

  const INITIAL := Blade(TransitionToOff, Off, Unknown, false, false, false, true,
                         None, 0, 0, 0, 0, 0, -1, 0, -1, 0, -1, 0, false)

  function Pwm(c: Config, d: Direction): int {
    if d == Forward then c.forward else if d == Reverse then c.reverse else c.neutral
  }

  predicate IsOn(d: Direction) { d == Forward || d == Reverse }

  predicate OnInFlight(b: Blade) { b.inFlight.Some? && b.inFlight.value.direction != Off }

  predicate NeutralInFlight(b: Blade) { b.inFlight.Some? && b.inFlight.value.direction == Off }

  predicate Current(b: Blade, token: nat) { b.inFlight.Some? && b.inFlight.value.token == token }

  predicate Satisfied(b: Blade) {
    !b.fault && b.inFlight.None? && !b.queuedNeutral && b.confirmed == b.requested
  }

  predicate Stale(c: Config, b: Blade, now: int) {
    b.sampleReceipt < 0 || now - b.sampleReceipt > c.freshness
  }

  predicate Stopped(c: Config, b: Blade, now: int) {
    && b.sampleZero && b.sampleReceipt >= 0 && now >= b.sampleReceipt
    && now - b.sampleReceipt <= c.freshness && b.stopSince >= 0
    && now - b.stopSince >= c.coast && b.stopSamples >= 5
  }

  function ForceOff(b: Blade, now: int): Blade {
    b.(revision := b.revision + 1, requested := Off, confirmed := Unknown, inFlight := None,
       token := b.token + 1, queuedNeutral := true, fault := false, stopSince := -1, stopSamples := 0,
       neutralSince := now, phase := TransitionToOff)
  }

  function Fail(b: Blade, sendNeutral: bool): Blade {
    var fenced := if OnInFlight(b) then b.(inFlight := None, token := b.token + 1) else b;
    fenced.(revision := b.revision + 1, fault := true, requested := Off, phase := Failed,
            queuedNeutral := b.queuedNeutral || (sendNeutral && !NeutralInFlight(b)))
  }

  function Connect(b: Blade, up: bool, now: int): Blade {
    if up == b.connected then b
    else ForceOff(b.(connected := up, sampleStamp := 0, sampleSource := -1, sampleReceipt := -1), now)
  }

  function Permit(b: Blade, allowed: bool, now: int): Blade {
    (if b.allowed && !allowed then ForceOff(b, now) else b).(allowed := allowed)
  }

  predicate Refuses(c: Config, b: Blade, d: Direction, now: int) {
    || !b.connected || d == Unknown || b.fault
    || (d != Off && (!b.allowed || Stale(c, b, now)))
  }

  function Answer(c: Config, b: Blade, d: Direction, now: int): Result {
    if Refuses(c, b, d, now) then Rejected
    else if d == b.requested && Satisfied(b) then Confirmed
    else Pending
  }

  function Request(c: Config, b: Blade, d: Direction, now: int): Blade {
    if Refuses(c, b, d, now) || d == b.requested then b
    else
      var asked := b.(revision := b.revision + 1, requested := d);
      if d == Off then ForceOff(asked, now)
      else if b.confirmed != Off || b.inFlight.Some? || b.queuedNeutral then
        (if OnInFlight(b) then ForceOff(asked, now) else asked)
          .(requested := d, queuedNeutral := true, phase := TransitionToOff)
      else asked.(phase := WaitStop, waitSince := now)
  }

  function Expire(b: Blade, now: int): Blade {
    ForceOff(b, now).(fault := true, phase := Failed)
  }

  predicate Accepts(b: Blade, source: int, stamp: int, count: int, countValid: bool, valid: bool) {
    && valid && (source == 1 || source == 2) && (source == 2 ==> countValid)
    && stamp > 0 && stamp > b.sampleStamp
    && !(b.sampleSource == source == 2 && count == b.sampleCount)
  }

  // `stop_samples_` is a 32-bit unsigned counter.
  function Sample(c: Config, b: Blade, source: int, stamp: int, count: int,
                  countValid: bool, valid: bool, rpm: int, now: int): Blade
  {
    if !Accepts(b, source, stamp, count, countValid, valid) then b
    else
      var broken := b.sampleSource != source || (b.sampleReceipt >= 0 && now - b.sampleReceipt > c.freshness);
      var still := rpm == 0 && now >= b.neutralSince && b.confirmed == Off;
      var since := if broken then -1 else b.stopSince;
      var seen := if broken then 0 else b.stopSamples;
      b.(sampleSource := source, sampleStamp := stamp, sampleCount := count, sampleReceipt := now,
         sampleZero := rpm == 0,
         stopSince := if !still then -1 else if since < 0 then now else since,
         stopSamples := if still then (seen + 1) % UINT32 else 0)
  }

  function ExpireAck(c: Config, b: Blade, now: int): Blade {
    if b.inFlight.Some? && now - b.sentAt >= c.ackTimeout
    then Fail(b.(inFlight := None), b.inFlight.value.direction != Off) else b
  }

  function ExpireSample(c: Config, b: Blade, now: int): Blade {
    if b.requested != Off && Stale(c, b, now) then Fail(b, true) else b
  }

  function ExpireStop(c: Config, b: Blade, now: int): Blade {
    if b.phase == WaitStop && b.inFlight.None? && now - b.waitSince >= c.stopTimeout then Fail(b, false) else b
  }

  function Tick(c: Config, b: Blade, now: int): Blade {
    ExpireStop(c, ExpireSample(c, ExpireAck(c, b, now), now), now)
  }

  // The direction the next poll sends, `Unknown` when it sends nothing.
  function Target(c: Config, b: Blade, now: int): Direction {
    var t := Tick(c, b, now);
    if t.inFlight.Some? then Unknown
    else if t.queuedNeutral then Off
    else if !t.fault && t.connected && t.allowed && t.requested != Off && t.confirmed == Off
            && Stopped(c, t, now) then t.requested
    else Unknown
  }

  function PollCommand(c: Config, b: Blade, now: int): Option<Command> {
    var d := Target(c, b, now);
    if d == Unknown then None else Some(Command(Tick(c, b, now).token + 1, c.channel, Pwm(c, d), d))
  }

  function Poll(c: Config, b: Blade, now: int): Blade {
    var t := Tick(c, b, now);
    match PollCommand(c, b, now)
    case None => t
    case Some(command) =>
      t.(queuedNeutral := t.queuedNeutral && command.direction != Off,
         token := command.token, inFlight := Some(command), sentAt := now)
  }

  function Complete(b: Blade, token: nat, accepted: bool, now: int): Blade {
    if !Current(b, token) then b
    else
      var d := b.inFlight.value.direction;
      var idle := b.(inFlight := None);
      if !accepted then Fail(idle, d != Off)
      else if d == Off then
        idle.(confirmed := Off, neutralSince := now, stopSince := -1, stopSamples := 0, waitSince := now,
              phase := if b.fault then Failed else if b.requested == Off then Idle else WaitStop)
      else if b.requested == d && !b.queuedNeutral then
        idle.(confirmed := d, phase := if d == Forward then Cutting else CuttingReverse)
      else idle.(confirmed := d)
  }

  function Output(c: Config, b: Blade, pwm: int, now: int): Blade {
    if b.inFlight.Some? || b.queuedNeutral || b.confirmed == Unknown || pwm == Pwm(c, b.confirmed) then b
    else ForceOff(b, now)
  }

  /** One external stimulus of the controller. */
  datatype Event =
    | EvConnect(up: bool, at: nat)
    | EvPermit(allowed: bool, at: nat)
    | EvRequest(direction: Direction, at: nat)
    | EvForceOff(at: nat)
    | EvExpire(at: nat)
    | EvSample(source: int, stamp: int, count: int, countValid: bool, valid: bool, rpm: int, at: nat)
    | EvTick(at: nat)
    | EvPoll(at: nat)
    | EvComplete(token: nat, accepted: bool, at: nat)
    | EvOutput(pwm: int, at: nat)

  /** What an observer of the wire, the acknowledgements and the telemetry records. */
  datatype Entry =
    | Emitted(token: nat, direction: Direction, at: int)
    | Acknowledged(token: nat, direction: Direction, at: int)
    | Sampled(source: int, stamp: int, count: int, zero: bool, at: int)

  /** The controller together with the record of everything observed so far. */
  datatype Machine = Machine(blade: Blade, log: seq<Entry>)

  const START := Machine(INITIAL, [])

  function After(c: Config, b: Blade, e: Event): Blade {
    match e
    case EvConnect(up, at) => Connect(b, up, at)
    case EvPermit(allowed, at) => Permit(b, allowed, at)
    case EvRequest(d, at) => Request(c, b, d, at)
    case EvForceOff(at) => ForceOff(b, at)
    case EvExpire(at) => Expire(b, at)
    case EvSample(source, stamp, count, countValid, valid, rpm, at) =>
      Sample(c, b, source, stamp, count, countValid, valid, rpm, at)
    case EvTick(at) => Tick(c, b, at)
    case EvPoll(at) => Poll(c, b, at)
    case EvComplete(token, accepted, at) => Complete(b, token, accepted, at)
    case EvOutput(pwm, at) => Output(c, b, pwm, at)
  }

  function Noted(c: Config, b: Blade, e: Event): seq<Entry> {
    match e
    case EvSample(source, stamp, count, countValid, valid, rpm, at) =>
      if Accepts(b, source, stamp, count, countValid, valid)
      then [Sampled(source, stamp, count, rpm == 0, at)] else []
    case EvPoll(at) =>
      (match PollCommand(c, b, at)
       case None => []
       case Some(command) => [Emitted(command.token, command.direction, at)])
    case EvComplete(token, accepted, at) =>
      if accepted && Current(b, token) then [Acknowledged(token, b.inFlight.value.direction, at)] else []
    case _ => []
  }

  function Step(c: Config, m: Machine, e: Event): Machine {
    Machine(After(c, m.blade, e), m.log + Noted(c, m.blade, e))
  }

  function Run(c: Config, m: Machine, events: seq<Event>): Machine
    decreases |events|
  {
    if events == [] then m else Run(c, Step(c, m, events[0]), events[1..])
  }
}
