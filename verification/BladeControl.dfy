/** The blade controller object: the fields of the C++ class, updated in place. Every method is proved
    against the transition it implements; `log` is the ghost record of what was sent, acknowledged and
    accepted. */
module BladeController {
  import opened Wrappers
  import opened BladeProtocol

  // The members of the stop proof and of the newest accepted sample.
  datatype StopRun = StopRun(since: int, samples: nat)

  datatype Timers = Timers(sentAt: int, neutralSince: int, waitSince: int)

  datatype Telemetry = Telemetry(source: int, stamp: int, receipt: int, count: int, zero: bool)

  class BladeControl {
    const config: Config
    var phase: Phase
    var requested: Direction
    var confirmed: Direction
    var connected: bool
    var allowed: bool
    var fault: bool
    var queuedNeutral: bool
    var inFlight: Option<Command>
    var token: nat
    var revision: nat
    var timers: Timers
    var stop: StopRun
    var telemetry: Telemetry
    ghost var log: seq<Entry>

    ghost function State(): Blade
      reads this
    {
      Blade(phase, requested, confirmed, connected, allowed, fault, queuedNeutral, inFlight, token, revision,
            timers.sentAt, timers.neutralSince, timers.waitSince, stop.since, stop.samples,
            telemetry.source, telemetry.stamp, telemetry.receipt, telemetry.count, telemetry.zero)
    }

    ghost function History(): Machine
      reads this
    {
      Machine(State(), log)
    }

    constructor (config: Config)
      requires ValidConfig(config)
      ensures this.config == config && History() == START
    {
      this.config := config;
      phase, requested, confirmed := TransitionToOff, Off, Unknown;
      connected, allowed, fault, queuedNeutral := false, false, false, true;
      inFlight, token, revision := None, 0, 0;
      timers, stop, telemetry := Timers(0, 0, 0), StopRun(-1, 0), Telemetry(-1, 0, -1, 0, false);
      log := [];
    }

    method SetConnection(up: bool, now: nat)
      modifies this
      ensures State() == Connect(old(State()), up, now) && log == old(log)
    {
      if up != connected {
        connected := up;
        telemetry := telemetry.(stamp := 0, source := -1, receipt := -1);
        ForceOff(now);
      }
    }

    method SetPermission(allowed: bool, now: nat)
      modifies this
      ensures State() == Permit(old(State()), allowed, now) && log == old(log)
    {
      if this.allowed && !allowed {
        ForceOff(now);
      }
      this.allowed := allowed;
    }

    method Request(direction: Direction, now: nat) returns (result: Result)
      modifies this
      ensures State() == BladeProtocol.Request(config, old(State()), direction, now) && log == old(log)
      ensures result == Answer(config, old(State()), direction, now)
    {
      if !connected || direction == Unknown
         || (direction != Off && (!allowed || fault || telemetry.receipt < 0
                                  || now - telemetry.receipt > config.freshness)) {
        return Rejected;
      }
      if fault {
        return Rejected;
      }
      if direction == requested {
        return if IsSatisfied() then Confirmed else Pending;
      }
      revision := revision + 1;
      requested := direction;
      if direction == Off {
        ForceOff(now);
      } else if confirmed != Off || inFlight.Some? || queuedNeutral {
        if inFlight.Some? && inFlight.value.direction != Off {
          ForceOff(now);
          requested := direction;
        }
        queuedNeutral := true;
        phase := TransitionToOff;
      } else {
        phase := WaitStop;
        timers := timers.(waitSince := now);
      }
      return Pending;
    }

    // Whatever was requested, confirmed or in flight no longer counts.
    method Withdraw()
      modifies this`revision, this`token, this`requested, this`confirmed, this`inFlight
      ensures State() == old(State()).(revision := old(revision) + 1, token := old(token) + 1, requested := Off,
                                       confirmed := Unknown, inFlight := None)
    {
      revision, token := revision + 1, token + 1;
      requested, confirmed, inFlight := Off, Unknown, None;
    }

    method ForceOff(now: nat)
      modifies this
      ensures State() == BladeProtocol.ForceOff(old(State()), now) && log == old(log)
    {
      Withdraw();
      queuedNeutral, fault, phase := true, false, TransitionToOff;
      stop, timers := StopRun(-1, 0), timers.(neutralSince := now);
    }

    method ServiceTimeout(now: nat)
      modifies this
      ensures State() == Expire(old(State()), now) && log == old(log)
    {
      ForceOff(now);
      fault := true;
      phase := Failed;
    }

    method Sample(source: int, stamp: int, count: int, countValid: bool, valid: bool, rpm: int, now: nat)
      modifies this
      ensures State() == BladeProtocol.Sample(config, old(State()), source, stamp, count, countValid, valid, rpm, now)
      ensures log == old(log) + (if Accepts(old(State()), source, stamp, count, countValid, valid)
                                 then [Sampled(source, stamp, count, rpm == 0, now)] else [])
    {
      if !valid || (source != 1 && source != 2) || (source == 2 && !countValid) || stamp <= 0
         || stamp <= telemetry.stamp
         || (telemetry.source == source && source == 2 && (!countValid || count == telemetry.count)) {
        return;
      }
      var run := stop;
      if telemetry.source != source {
        run := StopRun(-1, 0);
      }
      if telemetry.receipt >= 0 && now - telemetry.receipt > config.freshness {
        run := StopRun(-1, 0);
      }
      telemetry := Telemetry(source, stamp, now, count, rpm == 0);
      if telemetry.zero && now >= timers.neutralSince && confirmed == Off {
        if run.since < 0 {
          run := run.(since := now);
        }
        stop := run.(samples := (run.samples + 1) % UINT32);
      } else {
        stop := StopRun(-1, 0);
      }
      log := log + [Sampled(source, stamp, count, rpm == 0, now)];
    }

    method Tick(now: nat)
      modifies this
      ensures State() == BladeProtocol.Tick(config, old(State()), now) && log == old(log)
    {
      if inFlight.Some? && now - timers.sentAt >= config.ackTimeout {
        var wasOn := inFlight.value.direction != Off;
        inFlight := None;
        Fail(wasOn);
      }
      if requested != Off && (telemetry.receipt < 0 || now - telemetry.receipt > config.freshness) {
        Fail(true);
      }
      if phase == WaitStop && inFlight.None? && now - timers.waitSince >= config.stopTimeout {
        Fail(false);
      }
    }

    method Next(now: nat) returns (command: Option<Command>)
      modifies this
      ensures State() == Poll(config, old(State()), now)
      ensures log == old(log) + (if command.Some? then [Emitted(command.value.token, command.value.direction, now)]
                                 else [])
      ensures command == PollCommand(config, old(State()), now)
    {
      Tick(now);
      if inFlight.Some? {
        return None;
      }
      var target := Unknown;
      if queuedNeutral {
        queuedNeutral := false;
        target := Off;
      } else if !fault && connected && allowed && requested != Off && confirmed == Off
                && IsStopped(now) {
        target := requested;
      }
      if target == Unknown {
        return None;
      }
      token := token + 1;
      command := Some(Command(token, config.channel, Pwm(config, target), target));
      inFlight := command;
      timers := timers.(sentAt := now);
      log := log + [Emitted(token, target, now)];
    }

    method Complete(token: nat, accepted: bool, now: nat)
      modifies this
      ensures State() == BladeProtocol.Complete(old(State()), token, accepted, now)
      ensures log == old(log) + (if accepted && Current(old(State()), token)
                                 then [Acknowledged(token, old(inFlight).value.direction, now)] else [])
    {
      if inFlight.None? || inFlight.value.token != token {
        return;
      }
      var direction := inFlight.value.direction;
      inFlight := None;
      if !accepted {
        Fail(direction != Off);
        return;
      }
      log := log + [Acknowledged(token, direction, now)];
      confirmed := direction;
      if direction == Off {
        timers := timers.(neutralSince := now, waitSince := now);
        stop := StopRun(-1, 0);
        phase := if fault then Failed else if requested == Off then Idle else WaitStop;
      } else if requested == direction && !queuedNeutral {
        phase := if direction == Forward then Cutting else CuttingReverse;
      }
    }

    method ObserveOutput(pwm: int, now: nat)
      modifies this
      ensures State() == Output(config, old(State()), pwm, now) && log == old(log)
    {
      if inFlight.Some? || queuedNeutral || confirmed == Unknown {
        return;
      }
      if pwm != Pwm(config, confirmed) {
        ForceOff(now);
      }
    }

    predicate IsSatisfied()
      reads this
      ensures IsSatisfied() == Satisfied(State())
    {
      !fault && inFlight.None? && !queuedNeutral && confirmed == requested
    }

    predicate IsStopped(now: int)
      reads this
      ensures IsStopped(now) == Stopped(config, State(), now)
    {
      telemetry.zero && telemetry.receipt >= 0 && now >= telemetry.receipt && now - telemetry.receipt <= config.freshness
      && stop.since >= 0 && now - stop.since >= config.coast && stop.samples >= 5
    }

    method Fail(sendNeutral: bool)
      modifies this
      ensures State() == BladeProtocol.Fail(old(State()), sendNeutral) && log == old(log)
    {
      var neutralPending := inFlight.Some? && inFlight.value.direction == Off;
      if inFlight.Some? && !neutralPending {
        inFlight := None;
        token := token + 1;
      }
      revision := revision + 1;
      fault := true;
      requested := Off;
      phase := Failed;
      queuedNeutral := queuedNeutral || (sendNeutral && !neutralPending);
    }
  }
}
