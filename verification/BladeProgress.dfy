/** Token fencing and the bounded resolution of a requested ON. */
module BladeProgress {
  import opened Wrappers
  import opened BladeProtocol
  import opened BladeSafety

  // Tokens on the wire only grow, and none is newer than the counter.
  ghost predicate Fenced(m: Machine) {
    && (forall i | 0 <= i < |m.log| && m.log[i].Emitted? :: m.log[i].token <= m.blade.token)
    && (forall i, j | 0 <= i < j < |m.log| && m.log[i].Emitted? && m.log[j].Emitted? ::
          m.log[i].token < m.log[j].token)
  }

  lemma TokenStep(c: Config, b: Blade, e: Event)
    ensures After(c, b, e).token >= b.token
    ensures e.EvPoll? && PollCommand(c, b, e.at).Some? ==>
              b.token < PollCommand(c, b, e.at).value.token == After(c, b, e).token
    ensures After(c, b, e).inFlight.Some? && After(c, b, e).inFlight != b.inFlight ==>
              After(c, b, e).inFlight.value.token > b.token
  {
    match e
    case EvTick(at) => TickToken(c, b, at);
    case EvPoll(at) => TickToken(c, b, at);
    case EvComplete(_, _, _) =>
    case _ =>
  }

  // `n` has no older token counter than `b`, and no other command in flight.
  predicate TokenKept(b: Blade, n: Blade) {
    n.token >= b.token && (n.inFlight == b.inFlight || n.inFlight == None)
  }

  lemma TickToken(c: Config, b: Blade, now: int)
    ensures TokenKept(b, Tick(c, b, now))
  {
    var acked := ExpireAck(c, b, now);
    assert TokenKept(b, acked);
    var sampled := ExpireSample(c, acked, now);
    assert TokenKept(acked, sampled);
    assert TokenKept(sampled, ExpireStop(c, sampled, now));
  }

  /** Over every run the tokens on the wire strictly increase. */
  lemma {:induction false} TokensIncrease(c: Config, m: Machine, events: seq<Event>)
    requires Fenced(m)
    ensures Fenced(Run(c, m, events))
    decreases |events|
  {
    if events != [] {
      TokenStep(c, m.blade, events[0]);
      TokensIncrease(c, Step(c, m, events[0]), events[1..]);
    }
  }

  /** A reply to a command that is no longer in flight never changes anything, however long the run in
      between and whatever was sent since. */
  lemma {:induction false} RetiredTokenIsInert(c: Config, m: Machine, events: seq<Event>, token: nat,
                                               accepted: bool, at: nat)
    requires token <= m.blade.token && !Current(m.blade, token)
    ensures var n := Run(c, m, events); Step(c, n, EvComplete(token, accepted, at)) == n
    decreases |events|
  {
    if events != [] {
      TokenStep(c, m.blade, events[0]);
      RetiredTokenIsInert(c, Step(c, m, events[0]), events[1..], token, accepted, at);
    }
  }

  /** A latched fault refuses every request and ends exactly at a forced OFF: an explicit one, a connection
      edge, a loss of permission or a contradicting servo output. */
  lemma FaultEndsOnlyByForcedOff(c: Config, b: Blade, e: Event)
    requires b.fault
    ensures e.EvRequest? ==> Answer(c, b, e.direction, e.at) == Rejected && After(c, b, e) == b
    ensures !After(c, b, e).fault <==>
            || e.EvForceOff?
            || (e.EvConnect? && e.up != b.connected)
            || (e.EvPermit? && b.allowed && !e.allowed)
            || (e.EvOutput? && b.inFlight.None? && !b.queuedNeutral && b.confirmed != Unknown
                && e.pwm != Pwm(c, b.confirmed))
  {
    match e
    case EvTick(at) => TickFault(c, b, at);
    case EvPoll(at) => TickFault(c, b, at);
    case _ =>
  }

  lemma TickFault(c: Config, b: Blade, now: int)
    ensures b.fault ==> Tick(c, b, now).fault
  {
    var acked := ExpireAck(c, b, now);
    var sampled := ExpireSample(c, acked, now);
  }

  /** The stimuli that are not new orders: telemetry, timers, polls and replies. */
  predicate Internal(e: Event) { e.EvSample? || e.EvTick? || e.EvPoll? || e.EvComplete? }

  // Ordered events, none later than `gap` after the newest poll.
  predicate Paced(events: seq<Event>, now: int, polled: int, gap: nat)
    decreases |events|
  {
    events == [] ||
    (Internal(events[0]) && now <= events[0].at <= polled + gap
     && Paced(events[1..], events[0].at, if events[0].EvPoll? then events[0].at else polled, gap))
  }

  function EndTime(events: seq<Event>, now: int): int {
    if events == [] then now else events[|events| - 1].at
  }

  /** An accepted ON has been confirmed, or the attempt has latched a fault. */
  predicate Resolved(b: Blade) { b.fault || (b.requested != Off && Satisfied(b)) }

  // The phases of an unresolved ON.
  predicate Awaiting(b: Blade) { b.requested != Off && !Resolved(b) }

  function Max(x: int, y: int): int { if x < y then y else x }

  /** When an unresolved ON is resolved at the latest, seen from the newest poll: each phase adds its own
      timeout and each hand-over to the next poll adds `gap`. */
  function Limit(c: Config, b: Blade, polled: int, gap: nat): int {
    if OnInFlight(b) then Max(b.sentAt + c.ackTimeout, polled)
    else if b.inFlight.Some? && !b.queuedNeutral then
      Max(b.sentAt + c.ackTimeout, polled) + gap + c.stopTimeout + c.ackTimeout
    else if b.inFlight.Some? then
      Max(b.sentAt + c.ackTimeout, polled) + gap + c.ackTimeout + gap + c.stopTimeout + c.ackTimeout
    else if b.queuedNeutral then polled + gap + c.ackTimeout + gap + c.stopTimeout + c.ackTimeout
    else Max(b.waitSince + c.stopTimeout, polled) + c.ackTimeout
  }

  lemma TickKeepsOrFails(c: Config, b: Blade, now: int)
    ensures var t := Tick(c, b, now);
            || (t == b && (b.inFlight.Some? ==> now < b.sentAt + c.ackTimeout)
                && (b.phase == WaitStop && b.inFlight.None? ==> now < b.waitSince + c.stopTimeout))
            || t.fault
  {
    var acked := ExpireAck(c, b, now);
    var sampled := ExpireSample(c, acked, now);
  }

  lemma SampleKeeps(c: Config, b: Blade, e: Event)
    requires e.EvSample?
    ensures var n := After(c, b, e);
            n.inFlight == b.inFlight && n.fault == b.fault && n.requested == b.requested
            && n.confirmed == b.confirmed && n.queuedNeutral == b.queuedNeutral && n.phase == b.phase
            && n.sentAt == b.sentAt && n.waitSince == b.waitSince
  {
  }

  lemma AwaitingStep(c: Config, b: Blade, w: Wire, e: Event, polled: int, gap: nat)
    requires ValidConfig(c) && Coherent(b, w) && Internal(e) && polled <= e.at <= polled + gap
    requires Awaiting(b)
    ensures var n := After(c, b, e);
            || Resolved(n)
            || (Awaiting(n) && Limit(c, n, if e.EvPoll? then e.at else polled, gap) <= Limit(c, b, polled, gap))
  {
    match e
    case EvTick(at) => TickKeepsOrFails(c, b, at);
    case EvPoll(at) => TickKeepsOrFails(c, b, at);
    case EvComplete(_, _, _) =>
    case EvSample(_, _, _, _, _, _, _) => SampleKeeps(c, b, e);
  }

  lemma ResolvedStep(c: Config, b: Blade, w: Wire, e: Event)
    requires Coherent(b, w) && Internal(e) && Resolved(b)
    ensures Resolved(After(c, b, e))
  {
    match e
    case EvTick(at) => TickKeepsOrFails(c, b, at); TickFault(c, b, at);
    case EvPoll(at) => TickKeepsOrFails(c, b, at); TickFault(c, b, at);
    case EvComplete(_, _, _) =>
    case EvSample(_, _, _, _, _, _, _) => SampleKeeps(c, b, e);
  }

  lemma {:induction false} AwaitingRun(c: Config, m: Machine, events: seq<Event>, now: int, polled: int, gap: nat)
    requires ValidConfig(c) && Coherent(m.blade, Newest(m.log)) && (Awaiting(m.blade) || Resolved(m.blade))
    requires polled <= now <= polled + gap && Paced(events, now, polled, gap)
    ensures var b := Run(c, m, events).blade;
            || Resolved(b)
            || (Awaiting(b) && Awaiting(m.blade) && EndTime(events, now) <= Limit(c, m.blade, polled, gap) + gap)
    decreases |events|
  {
    if events != [] {
      var e := events[0];
      CoherentStep(c, m.blade, e, Newest(m.log));
      Extend(m.log, Noted(c, m.blade, e));
      if Resolved(m.blade) {
        ResolvedStep(c, m.blade, Newest(m.log), e);
      } else {
        AwaitingStep(c, m.blade, Newest(m.log), e, polled, gap);
      }
      AwaitingRun(c, Step(c, m, e), events[1..], e.at, if e.EvPoll? then e.at else polled, gap);
    }
  }

  ghost predicate NoLaterThan(events: seq<Event>, now: int) {
    forall i | 0 <= i < |events| :: events[i].at <= now
  }

  lemma TickTimers(c: Config, b: Blade, now: int)
    ensures Tick(c, b, now).sentAt == b.sentAt && Tick(c, b, now).waitSince == b.waitSince
  {
    var acked := ExpireAck(c, b, now);
    assert acked.sentAt == b.sentAt && acked.waitSince == b.waitSince;
    var sampled := ExpireSample(c, acked, now);
    assert sampled.sentAt == b.sentAt && sampled.waitSince == b.waitSince;
  }

  // A timer is only ever set to the time of the event that sets it.
  lemma TimersStep(c: Config, b: Blade, e: Event)
    ensures var n := After(c, b, e);
            (n.sentAt == b.sentAt || n.sentAt == e.at) && (n.waitSince == b.waitSince || n.waitSince == e.at)
  {
    if e.EvTick? || e.EvPoll? { TickTimers(c, b, e.at); }
  }

  lemma {:induction false} TimersInPast(c: Config, m: Machine, events: seq<Event>, now: int)
    requires NoLaterThan(events, now) && m.blade.sentAt <= now && m.blade.waitSince <= now
    ensures var b := Run(c, m, events).blade; b.sentAt <= now && b.waitSince <= now
    decreases |events|
  {
    if events != [] {
      TimersStep(c, m.blade, events[0]);
      TimersInPast(c, Step(c, m, events[0]), events[1..], now);
    }
  }

  /** Bounded resolution: take any reachable state in which an ON is requested but unresolved. While only
      telemetry, polls, timers and replies follow, with polls at most `gap` apart, the request is confirmed or
      faulted after at most three ACK timeouts, one stop timeout and three poll gaps; until then it stays
      requested. */
  lemma OnResolvesInTime(c: Config, history: seq<Event>, now: nat, events: seq<Event>, gap: nat)
    requires ValidConfig(c) && NoLaterThan(history, now) && Paced(events, now, now, gap)
    requires Awaiting(Run(c, START, history).blade)
    ensures var b := Run(c, Run(c, START, history), events).blade;
            || Resolved(b)
            || (Awaiting(b) && EndTime(events, now) <= now + 3 * c.ackTimeout + c.stopTimeout + 3 * gap)
  {
    SoundStart(c);
    SoundRun(c, START, history, 0);
    TimersInPast(c, START, history, now);
    AwaitingRun(c, Run(c, START, history), events, now, now, gap);
  }
}
