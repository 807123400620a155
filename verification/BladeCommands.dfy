/** What the blade controller puts on the wire and answers, in terms of its configuration and the observable state. */
module BladeCommands {
  import opened Wrappers
  import opened BladeProtocol
  import opened BladeSafety

  /** A command drives the configured channel with the configured value of its direction. */
  predicate WiredAs(c: Config, command: Command) {
    && command.channel == c.channel
    && (command.direction == Off ==> command.pwm == c.neutral)
    && (command.direction == Forward ==> command.pwm == c.forward)
    && (command.direction == Reverse ==> command.pwm == c.reverse)
    && command.direction != Unknown
  }

  lemma PolledIsWired(c: Config, b: Blade, now: nat)
    requires b.requested != Unknown && PollCommand(c, b, now).Some?
    ensures WiredAs(c, PollCommand(c, b, now).value)
  {
    TickRequests(c, b, now);
  }

  lemma TickRequests(c: Config, b: Blade, now: int)
    ensures Tick(c, b, now).requested == b.requested || Tick(c, b, now).requested == Off
  {
    var acked := ExpireAck(c, b, now);
    var sampled := ExpireSample(c, acked, now);
    assert sampled.requested == b.requested || sampled.requested == Off;
  }

  /** In every run, what a poll sends drives the configured channel: the forward, reverse or neutral value for a command
      of that direction, the ON values on opposite sides of neutral. */
  lemma CommandsAreWired(c: Config, events: seq<Event>, now: nat)
    requires ValidConfig(c) && PollCommand(c, Run(c, START, events).blade, now).Some?
    ensures var command := PollCommand(c, Run(c, START, events).blade, now).value;
            && WiredAs(c, command)
            && (command.direction == Forward ==> (command.pwm < c.neutral <==> c.reverse > c.neutral))
            && (command.direction == Reverse ==> (command.pwm < c.neutral <==> c.forward > c.neutral))
  {
    SoundStart(c);
    SoundRun(c, START, events, 0);
    PolledIsWired(c, Run(c, START, events).blade, now);
  }

  /** A servo output forces OFF if and only if something is confirmed, nothing is on its way, and the output is not the
      configured value of the confirmed direction; otherwise it changes nothing. */
  lemma OutputContradicts(c: Config, b: Blade, pwm: int, now: nat)
    ensures var n := After(c, b, EvOutput(pwm, now));
            var contradicts := && b.inFlight.None? && !b.queuedNeutral && b.confirmed != Unknown
                               && (b.confirmed == Off ==> pwm != c.neutral)
                               && (b.confirmed == Forward ==> pwm != c.forward)
                               && (b.confirmed == Reverse ==> pwm != c.reverse);
            if contradicts
            then n.requested == Off && n.confirmed == Unknown && n.queuedNeutral && n.inFlight.None?
            else n == b
  {
  }

  /** Telemetry is fresh: some sample was accepted no longer ago than the configured time. */
  predicate Telemetered(c: Config, b: Blade, now: int) {
    b.sampleReceipt >= 0 && now - b.sampleReceipt <= c.freshness
  }

  /** A request is refused exactly without a link, for an unknown direction, in a fault, or, for an ON, without
      permission or fresh telemetry; and confirmed at once exactly if what is requested is confirmed and nothing is on
      its way. A refused or repeated request changes nothing, any other becomes the requested direction. */
  lemma RequestIsAnswered(c: Config, b: Blade, d: Direction, now: nat)
    ensures var answer, n := Answer(c, b, d, now), After(c, b, EvRequest(d, now));
            && (answer == Rejected <==>
                  || !b.connected || d == Unknown || b.fault
                  || (d != Off && (!b.allowed || !Telemetered(c, b, now))))
            && (answer == Confirmed <==>
                  && answer != Rejected && d == b.requested && b.confirmed == d && b.inFlight.None? && !b.queuedNeutral)
            && (answer == Rejected || d == b.requested ==> n == b)
            && (answer != Rejected ==> n.requested == d)
            && (answer != Rejected && d != b.requested ==> n.revision > b.revision && !Satisfied(n))
  {
  }

  /** The newest command on the wire is an ON, or an ON is requested. */
  predicate Turning(m: Machine) { OnWire(Newest(m.log)) || m.blade.requested != Off }

  /** An OFF request always stops: in every reachable linked state without a fault it is not refused, OFF is requested
      afterwards, and, if the blade was turning or to turn, the next poll sends a neutral, whenever it comes, and leaves
      that neutral newest on the wire. */
  lemma OffStops(c: Config, events: seq<Event>, now: nat, later: nat)
    requires Run(c, START, events).blade.connected && !Run(c, START, events).blade.fault
    ensures var m := Run(c, START, events);
            var n := Step(c, m, EvRequest(Off, now));
            var sent := Step(c, n, EvPoll(later));
            && Answer(c, m.blade, Off, now) != Rejected && n.blade.requested == Off
            && (Turning(m) ==>
                  && PollCommand(c, n.blade, later).Some? && PollCommand(c, n.blade, later).value.direction == Off
                  && PollCommand(c, n.blade, later).value.pwm == c.neutral
                  && Newest(sent.log).Last? && Newest(sent.log).direction == Off)
  {
    var m := Run(c, START, events);
    var n := Step(c, m, EvRequest(Off, now));
    SoundStart(c);
    SoundRun(c, START, events, 0);
    if Turning(m) {
      assert n.blade.queuedNeutral && n.blade.inFlight.None?;
      QueuedIsSent(c, n, later);
    }
  }

  lemma QueuedIsSent(c: Config, m: Machine, now: nat)
    requires m.blade.queuedNeutral && m.blade.inFlight.None?
    ensures var sent := Step(c, m, EvPoll(now));
            && PollCommand(c, m.blade, now).Some? && PollCommand(c, m.blade, now).value.direction == Off
            && PollCommand(c, m.blade, now).value.pwm == c.neutral
            && Newest(sent.log) == Last(PollCommand(c, m.blade, now).value.token, Off)
  {
    TickKeepsQueue(c, m.blade, now);
    Extend(m.log, Noted(c, m.blade, EvPoll(now)));
  }

  lemma TickKeepsQueue(c: Config, b: Blade, now: int)
    requires b.queuedNeutral && b.inFlight.None?
    ensures Tick(c, b, now).queuedNeutral && Tick(c, b, now).inFlight.None?
  {
    var acked := ExpireAck(c, b, now);
    var sampled := ExpireSample(c, acked, now);
    assert sampled.queuedNeutral && sampled.inFlight.None?;
  }

  /** A timer latches a fault exactly when the ACK of the command in flight is overdue, an ON is requested without fresh
      telemetry, or the stop before an ON takes too long; otherwise it changes nothing. */
  lemma TimersFault(c: Config, b: Blade, now: nat)
    requires !b.fault
    ensures var n := After(c, b, EvTick(now));
            var due := || (b.inFlight.Some? && now - b.sentAt >= c.ackTimeout)
                       || (b.requested != Off && !Telemetered(c, b, now))
                       || (b.phase == WaitStop && b.inFlight.None? && now - b.waitSince >= c.stopTimeout);
            && n.fault == due && (!due ==> n == b)
            && (due ==> n.requested == Off && n.phase == Failed && n.revision > b.revision)
  {
    var acked := ExpireAck(c, b, now);
    var sampled := ExpireSample(c, acked, now);
    assert acked.fault ==> sampled == acked;
    assert acked != b <==> b.inFlight.Some? && now - b.sentAt >= c.ackTimeout;
  }

  /** The blade has stood still long enough: the last sample is a zero, fresh and not from the future, and it ends at
      least five samples that span the coast time. */
  predicate StoodStill(c: Config, b: Blade, now: int) {
    && b.sampleZero && 0 <= b.sampleReceipt <= now && now - b.sampleReceipt <= c.freshness
    && 0 <= b.stopSince && now - b.stopSince >= c.coast && b.stopSamples >= 5
  }

  /** A poll before any deadline sends a neutral exactly if one is queued with nothing in flight, and an ON exactly if
      nothing is in flight or queued, the link, the permission, the request and the confirmed OFF are there, and the
      blade has stood still. */
  lemma PollSends(c: Config, b: Blade, now: nat)
    requires Tick(c, b, now) == b
    ensures var command := PollCommand(c, b, now);
            var free := b.inFlight.None? && !b.queuedNeutral;
            && (command.Some? && command.value.direction == Off <==> b.inFlight.None? && b.queuedNeutral)
            && (command.Some? && command.value.direction != Off <==>
                  && free && !b.fault && b.connected && b.allowed && b.confirmed == Off
                  && b.requested != Off && b.requested != Unknown && StoodStill(c, b, now))
            && (command.Some? && command.value.direction != Off ==> command.value.direction == b.requested)
  {
  }

  /** A sample counts exactly if it is valid, of a known source, with its counter where the source has one, later than
      the last and not a repetition of its counter. It continues a standstill exactly if it is a zero after the
      confirmed neutral; another source or a gap beyond the freshness starts the run anew. */
  lemma SampleCounts(c: Config, b: Blade, source: int, stamp: int, count: int, countValid: bool, valid: bool, rpm: int,
                     now: nat)
    ensures var n := After(c, b, EvSample(source, stamp, count, countValid, valid, rpm, now));
            var counts := && valid && (source == 1 || (source == 2 && countValid)) && stamp > 0 && stamp > b.sampleStamp
                          && (source == 2 && b.sampleSource == 2 ==> count != b.sampleCount);
            var still := rpm == 0 && now >= b.neutralSince && b.confirmed == Off;
            var broken := source != b.sampleSource || (b.sampleReceipt >= 0 && now - b.sampleReceipt > c.freshness);
            if !counts then n == b
            else
              && n.sampleSource == source && n.sampleStamp == stamp && n.sampleReceipt == now
              && n.sampleZero == (rpm == 0)
              && (if !still then n.stopSince == -1 && n.stopSamples == 0
                  else
                    && n.stopSince == (if broken || b.stopSince < 0 then now else b.stopSince)
                    && n.stopSamples == ((if broken then 0 else b.stopSamples) + 1) % UINT32)
  {
  }

  /** An ACK counts exactly for the command in flight, which it confirms; a neutral starts the standstill anew. A refusal
      latches a fault, and an ON so refused is followed by a neutral. */
  lemma ReplyCounts(c: Config, b: Blade, token: nat, accepted: bool, now: nat)
    ensures var n := After(c, b, EvComplete(token, accepted, now));
            if b.inFlight.None? || b.inFlight.value.token != token then n == b
            else
              && n.inFlight.None?
              && (accepted ==> n.confirmed == b.inFlight.value.direction && n.fault == b.fault
                               && n.requested == b.requested && n.queuedNeutral == b.queuedNeutral)
              && (accepted && b.inFlight.value.direction == Off ==>
                    n.neutralSince == now && n.waitSince == now && n.stopSince == -1 && n.stopSamples == 0)
              && (!accepted ==> n.fault && n.requested == Off && n.confirmed == b.confirmed
                                && n.queuedNeutral == (b.queuedNeutral || b.inFlight.value.direction != Off))
  {
  }

  /** A change of the link, and the loss of the permission, force OFF; a change also forgets the telemetry. Nothing
      else about the link or the permission touches the blade. */
  lemma LossForcesOff(c: Config, b: Blade, up: bool, allowed: bool, now: nat)
    ensures var n := After(c, b, EvConnect(up, now));
            && n.connected == up && (up == b.connected ==> n == b)
            && (up != b.connected ==>
                  && n.requested == Off && n.confirmed == Unknown && n.queuedNeutral && n.inFlight.None? && !n.fault
                  && n.sampleReceipt == -1 && n.sampleStamp == 0 && n.sampleSource == -1)
    ensures var n := After(c, b, EvPermit(allowed, now));
            && n.allowed == allowed && (!b.allowed || allowed ==> n == b.(allowed := allowed))
            && (b.allowed && !allowed ==>
                  n.requested == Off && n.confirmed == Unknown && n.queuedNeutral && n.inFlight.None? && !n.fault)
  {
  }

  /** The reported phase tells the truth: it is a cutting phase exactly if that direction is confirmed and requested with
      nothing on its way, and failed exactly in a fault; waiting for a stop means a confirmed OFF and a requested ON. */
  predicate PhaseTrue(b: Blade) {
    && (b.phase == Cutting ==> b.confirmed == b.requested == Forward)
    && (b.phase == CuttingReverse ==> b.confirmed == b.requested == Reverse)
    && (b.requested == Forward && Satisfied(b) ==> b.phase == Cutting)
    && (b.requested == Reverse && Satisfied(b) ==> b.phase == CuttingReverse)
    && (b.phase == Cutting || b.phase == CuttingReverse ==> Satisfied(b))
    && (b.phase == Failed <==> b.fault)
    && (b.phase == WaitStop ==> b.confirmed == Off && b.requested != Off)
    && (b.phase == Idle ==> b.confirmed == Off && b.requested == Off)
  }

  lemma TickPhase(c: Config, b: Blade, now: nat)
    requires PhaseTrue(b)
    ensures PhaseTrue(Tick(c, b, now))
  {
    if b.fault {
      var acked := ExpireAck(c, b, now);
      assert PhaseTrue(acked) && acked.fault;
      assert PhaseTrue(ExpireSample(c, acked, now));
    } else {
      TimersFault(c, b, now);
    }
  }

  lemma CompletePhase(c: Config, b: Blade, w: Wire, token: nat, accepted: bool, now: nat)
    requires PhaseTrue(b) && Coherent(b, w)
    ensures PhaseTrue(Complete(b, token, accepted, now))
  {
  }

  lemma PhaseStep(c: Config, b: Blade, w: Wire, e: Event)
    requires PhaseTrue(b) && Coherent(b, w)
    ensures PhaseTrue(After(c, b, e))
  {
    match e
    case EvTick(at) => TickPhase(c, b, at);
    case EvPoll(at) => TickPhase(c, b, at);
    case EvComplete(token, accepted, at) => CompletePhase(c, b, w, token, accepted, at);
    case _ =>
  }

  lemma {:induction false} PhaseRun(c: Config, m: Machine, events: seq<Event>)
    requires PhaseTrue(m.blade) && Sound(c, m, 0)
    ensures PhaseTrue(Run(c, m, events).blade)
    decreases |events|
  {
    if events != [] {
      PhaseStep(c, m.blade, Newest(m.log), events[0]);
      SoundStep(c, m, events[0], 0);
      PhaseRun(c, Step(c, m, events[0]), events[1..]);
    }
  }

  /** In every reachable state the reported phase is true. */
  lemma PhaseAlwaysTrue(c: Config, events: seq<Event>)
    ensures PhaseTrue(Run(c, START, events).blade)
  {
    SoundStart(c);
    PhaseRun(c, START, events);
  }
}
