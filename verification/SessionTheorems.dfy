/** What the FCU sequencer guarantees over runs: no retry storm, an unobstructed DISARM, convergence. */
module SessionTheorems {
  import opened Wrappers
  import opened SessionProtocol

  function Count(log: seq<Sent>, kind: Kind): nat {
    if log == [] then 0 else (if log[0].command.kind == kind then 1 else 0) + Count(log[1..], kind)
  }

  lemma {:induction false} CountAppend(a: seq<Sent>, b: seq<Sent>, kind: Kind)
    ensures Count(a + b, kind) == Count(a, kind) + Count(b, kind)
  {
    if a == [] {
      assert a + b == b;
    } else {
      assert (a + b)[1..] == a[1..] + b;
      CountAppend(a[1..], b, kind);
    }
  }

  // The demanded triple and the observed FCU state are repeated at most, never changed.
  predicate Steady(s: Session, e: Event) {
    && (e.EvDemand? ==> e.mode == s.wantedMode && e.arm == s.wantedArm && e.safety == s.safetyDisarm)
    && (e.EvObserve? ==> e.connected == s.connected && e.armed == s.armed && e.mode == s.mode)
  }

  ghost predicate SteadyRun(s: Session, events: seq<Event>) {
    forall i | 0 <= i < |events| :: Steady(s, events[i])
  }

  // A safety DISARM is never combined with a wish to be armed.
  predicate Consistent(s: Session) { !(s.wantedArm && s.safetyDisarm) }

  // No further MODE command can be sent while nothing changes.
  predicate ModeSpent(s: Session) {
    !s.connected ||
    (s.mode != s.wantedMode &&
     (s.modeFailed || (s.pending.Some? && s.pending.value.kind == Mode && s.pending.value.mode == s.wantedMode)))
  }

  predicate ArmSpent(s: Session) {
    if !s.connected then true
    else if s.armed == s.wantedArm then !s.forceDisarm
    else s.armFailed || (s.pending.Some? && s.pending.value.kind == Arm && s.pending.value.arm == s.wantedArm)
  }

  function Allowance(spent: bool): nat { if spent then 0 else 1 }

  // `n` keeps the demand and observation of `s`, and whatever was spent stays spent.
  predicate Carries(s: Session, n: Session) {
    && n.wantedMode == s.wantedMode && n.wantedArm == s.wantedArm && n.safetyDisarm == s.safetyDisarm
    && n.connected == s.connected && n.armed == s.armed && n.mode == s.mode
    && (ModeSpent(s) ==> ModeSpent(n)) && (ArmSpent(s) ==> ArmSpent(n))
  }

  lemma TickCarries(s: Session, now: int)
    ensures Carries(s, Tick(s, now)) && Tick(s, now).serial == s.serial
  {
  }

  lemma SettleCarries(s: Session)
    ensures Carries(s, Settle(s))
  {
  }

  lemma ObserveCarries(s: Session)
    ensures Carries(s, Observe(s, s.connected, s.armed, s.mode))
  {
  }

  lemma CompleteCarries(s: Session, serial: nat, accepted: bool, now: int)
    ensures Carries(s, Complete(s, serial, accepted, now))
  {
    var t := Tick(s, now);
    TickCarries(s, now);
    if Current(t, serial) && accepted { SettleCarries(t.(acked := true)); }
  }

  lemma PollSpends(s: Session, now: int, modeService: bool, armService: bool, allowArm: bool)
    ensures var n := Poll(s, now, modeService, armService, allowArm);
            var command := PollCommand(s, now, modeService, armService, allowArm);
            && Carries(s, n)
            && (command.Some? && command.value.kind == Mode ==> !ModeSpent(s) && ModeSpent(n))
            && (command.Some? && command.value.kind == Arm && Consistent(s) ==> !ArmSpent(s) && ArmSpent(n))
  {
    TickCarries(s, now);
  }

  lemma QuietCarries(s: Session, e: Event)
    requires Steady(s, e) && !e.EvPoll?
    ensures Carries(s, After(s, e))
  {
    match e
    case EvDemand(_, _, _) =>
    case EvObserve(_, _, _) => ObserveCarries(s);
    case EvTick(at) => TickCarries(s, at);
    case EvComplete(serial, accepted, at) => CompleteCarries(s, serial, accepted, at);
  }

  lemma SteadyStep(s: Session, e: Event)
    requires Steady(s, e)
    ensures Carries(s, After(s, e))
    ensures Count(Emission(s, e), Mode) + Allowance(ModeSpent(After(s, e))) <= Allowance(ModeSpent(s))
    ensures Consistent(s) ==> Count(Emission(s, e), Arm) + Allowance(ArmSpent(After(s, e))) <= Allowance(ArmSpent(s))
  {
    if e.EvPoll? {
      PollSpends(s, e.at, e.modeService, e.armService, e.allowArm);
    } else {
      QuietCarries(s, e);
    }
  }

  /** No retry storm: while the demand and the observed FCU state stay as they are, at most one MODE is sent and,
      for a consistent demand, at most one ARM/DISARM, whatever the timers, replies, refusals and services do. */
  lemma {:induction false} NoRetryStorm(s: Session, events: seq<Event>)
    requires SteadyRun(s, events)
    ensures Count(Emissions(s, events), Mode) <= Allowance(ModeSpent(s))
    ensures Consistent(s) ==> Count(Emissions(s, events), Arm) <= Allowance(ArmSpent(s))
    decreases |events|
  {
    if events != [] {
      var n := After(s, events[0]);
      SteadyStep(s, events[0]);
      NoRetryStorm(n, events[1..]);
      CountAppend(Emission(s, events[0]), Emissions(n, events[1..]), Mode);
      CountAppend(Emission(s, events[0]), Emissions(n, events[1..]), Arm);
    }
  }

  // The stimuli that neither change the demand, nor lose the FCU, nor offer the arming service.
  predicate Waiting(s: Session, e: Event) {
    match e
    case EvDemand(mode, arm, safety) => mode == s.wantedMode && arm == s.wantedArm && safety == s.safetyDisarm
    case EvObserve(connected, _, _) => connected
    case EvPoll(_, _, armService, _) => !armService
    case _ => true
  }

  ghost predicate WaitingRun(s: Session, events: seq<Event>) {
    forall i | 0 <= i < |events| :: Waiting(s, events[i])
  }

  // A safety DISARM is owed and nothing can delay it.
  predicate Owed(s: Session) {
    s.connected && s.safetyDisarm && s.forceDisarm && !s.armFailed && s.pending.None?
  }

  lemma {:induction false} OwedRun(s: Session, events: seq<Event>)
    requires Owed(s) && WaitingRun(s, events)
    ensures Owed(Run(s, events)) && Emissions(s, events) == []
    decreases |events|
  {
    if events != [] {
      OwedRun(After(s, events[0]), events[1..]);
    }
  }

  /** Preemption: whatever was pending when a connected session turns to safety, nothing else is sent before
      the DISARM, and the first poll that finds the arming service sends it, however the FCU state, the mode
      service, the timers and the replies behaved in between. */
  lemma SafetyPreempts(s: Session, mode: FcuMode, events: seq<Event>, at: int, modeService: bool, allowArm: bool)
    requires s.connected && !s.safetyDisarm
    requires WaitingRun(Demand(s, mode, false, true), events)
    ensures var n := Run(Demand(s, mode, false, true), events);
            var command := PollCommand(n, at, modeService, true, allowArm);
            && Emissions(Demand(s, mode, false, true), events) == []
            && command.Some? && command.value.kind == Arm && !command.value.arm
            && DisarmPending(Poll(n, at, modeService, true, allowArm))
  {
    OwedRun(Demand(s, mode, false, true), events);
  }

  // The session after the FCU has reported carrying out a command.
  function Fulfil(s: Session, c: Command): Session {
    if c.kind == Mode then Observe(s, true, s.armed, c.mode) else Observe(s, true, c.arm, s.mode)
  }

  /** Something that happens while a reply is awaited and changes nothing: a timer before the deadline, a poll, a late
      reply to another command, a repeated demand or report. */
  predicate Uneventful(s: Session, e: Event) {
    match e
    case EvDemand(_, _, _) => Steady(s, e)
    case EvObserve(_, _, _) => Steady(s, e)
    case EvTick(at) => at - s.sentAt < CONFIRMATION_TIMEOUT
    case EvPoll(at, _, _, _) => s.pending.Some? && at - s.sentAt < CONFIRMATION_TIMEOUT
    case EvComplete(serial, _, at) => !Current(s, serial) && at - s.sentAt < CONFIRMATION_TIMEOUT
  }

  ghost predicate AllUneventful(s: Session, events: seq<Event>) {
    forall i | 0 <= i < |events| :: Uneventful(s, events[i])
  }

  lemma {:induction false} UneventfulIsInert(s: Session, events: seq<Event>)
    requires !HasFailed(s) && Settle(s) == s && (!s.connected ==> s.pending.None?) && AllUneventful(s, events)
    ensures Run(s, events) == s && Emissions(s, events) == []
    decreases |events|
  {
    if events != [] {
      assert After(s, events[0]) == s && Emission(s, events[0]) == [];
      UneventfulIsInert(s, events[1..]);
    }
  }

  /** How a cooperative FCU answers a command: it acknowledges and reports it, in either order and with uneventful
      events before and between. */
  datatype Manner = Manner(delay: nat, ackFirst: bool, before: seq<Event>, between: seq<Event>)

  function Half(n: Session, c: Command, now: int, ack: bool): Session {
    if ack then Complete(n, c.serial, true, now) else Fulfil(n, c)
  }

  function Exchange(s: Session, at: int, manner: Manner): Session {
    var n := Poll(s, at, true, true, true);
    match PollCommand(s, at, true, true, true)
    case None => n
    case Some(c) =>
      var first := Half(Run(n, manner.before), c, at + manner.delay, manner.ackFirst);
      Half(Run(first, manner.between), c, at + manner.delay, !manner.ackFirst)
  }

  // The acknowledgement comes in time, and nothing else happens.
  ghost predicate Mannered(s: Session, at: int, manner: Manner) {
    var n := Poll(s, at, true, true, true);
    var command := PollCommand(s, at, true, true, true);
    manner.delay < CONFIRMATION_TIMEOUT &&
    (command.Some? ==>
       && AllUneventful(n, manner.before)
       && AllUneventful(Half(n, command.value, at + manner.delay, manner.ackFirst), manner.between))
  }

  // The commands still to be sent.
  function Needed(s: Session): nat {
    (if s.mode != s.wantedMode then 1 else 0)
    + (if s.armed != s.wantedArm || (s.safetyDisarm && s.forceDisarm) then 1 else 0)
  }

  // `n` has been sent `c` and nothing else happened yet.
  predicate JustSent(n: Session, c: Command) {
    n.pending == Some(c) && !n.acked && !HasFailed(n) && n.connected && (c.kind == Arm && c.arm ==> !n.safetyDisarm)
  }

  // `done` is `n` with `c` carried out.
  predicate CarriedOut(n: Session, c: Command, done: Session) {
    && done.connected && done.pending.None? && !HasFailed(done)
    && done.wantedMode == n.wantedMode && done.wantedArm == n.wantedArm
    && done.safetyDisarm == n.safetyDisarm && done.forceDisarm == n.forceDisarm
    && done.mode == (if c.kind == Mode then c.mode else n.mode)
    && done.armed == (if c.kind == Arm then c.arm else n.armed)
  }

  lemma AckThenReport(n: Session, c: Command, now: int)
    requires JustSent(n, c) && now - n.sentAt < CONFIRMATION_TIMEOUT
    ensures CarriedOut(n, c, Fulfil(Complete(n, c.serial, true, now), c))
  {
    var acked := n.(acked := true);
    assert Complete(n, c.serial, true, now) == Settle(acked);
    if Settle(acked) == acked {
      assert CarriedOut(n, c, Fulfil(acked, c));
    }
  }

  lemma ReportThenAck(n: Session, c: Command, now: int)
    requires JustSent(n, c) && now - n.sentAt < CONFIRMATION_TIMEOUT
    ensures CarriedOut(n, c, Complete(Fulfil(n, c), c.serial, true, now))
  {
    var reported := Fulfil(n, c);
    assert reported.pending == Some(c) && reported.sentAt == n.sentAt;
    assert Complete(reported, c.serial, true, now) == Settle(reported.(acked := true));
  }

  // The first half leaves a state in which uneventful events do nothing.
  lemma HalfIsCalm(n: Session, c: Command, now: int, ack: bool)
    requires JustSent(n, c) && now - n.sentAt < CONFIRMATION_TIMEOUT
    ensures var first := Half(n, c, now, ack);
            !HasFailed(first) && Settle(first) == first && first.connected
  {
    if ack { assert Complete(n, c.serial, true, now) == Settle(n.(acked := true)); }
  }

  lemma ExchangeCarriesOut(n: Session, c: Command, now: int, manner: Manner)
    requires JustSent(n, c) && now - n.sentAt < CONFIRMATION_TIMEOUT
    requires AllUneventful(n, manner.before) && AllUneventful(Half(n, c, now, manner.ackFirst), manner.between)
    ensures var first := Half(Run(n, manner.before), c, now, manner.ackFirst);
            CarriedOut(n, c, Half(Run(first, manner.between), c, now, !manner.ackFirst))
  {
    UneventfulIsInert(n, manner.before);
    HalfIsCalm(n, c, now, manner.ackFirst);
    UneventfulIsInert(Half(n, c, now, manner.ackFirst), manner.between);
    AckThenReport(n, c, now);
    ReportThenAck(n, c, now);
  }

  lemma ExchangeProgress(s: Session, at: int, manner: Manner)
    requires s.connected && s.pending.None? && !HasFailed(s) && Consistent(s) && Mannered(s, at, manner)
    ensures var n := Exchange(s, at, manner);
            var command := PollCommand(s, at, true, true, true);
            && n.connected && n.pending.None? && !HasFailed(n) && Consistent(n)
            && n.wantedMode == s.wantedMode && n.wantedArm == s.wantedArm && n.safetyDisarm == s.safetyDisarm
            && (command.None? <==> Needed(s) == 0)
            && (command.None? ==> Ready(s) && n == s)
            && (command.Some? ==> Needed(n) == Needed(s) - 1)
            && (command.Some? && command.value.arm ==> s.mode == s.wantedMode)
  {
    var command := PollCommand(s, at, true, true, true);
    if command.Some? {
      var n := Poll(s, at, true, true, true);
      ExchangeCarriesOut(n, command.value, at + manner.delay, manner);
    }
  }

  /** Convergence: from a consistent demand with nothing pending or failed, exactly `Needed` exchanges (at most
      two commands) make the session ready, and a ready session sends nothing more. */
  lemma Converges(s: Session, at: seq<int>, manners: seq<Manner>)
    requires |at| == |manners| == 2 && Mannered(s, at[0], manners[0])
    requires Mannered(Exchange(s, at[0], manners[0]), at[1], manners[1])
    requires s.connected && s.pending.None? && !HasFailed(s) && Consistent(s)
    ensures var once := Exchange(s, at[0], manners[0]);
            var twice := Exchange(once, at[1], manners[1]);
            && Needed(s) <= 2
            && (Needed(s) == 0 ==> Ready(s)) && (Needed(s) == 1 ==> Ready(once)) && Ready(twice)
            && twice.mode == s.wantedMode && twice.armed == s.wantedArm
            && forall now: int, m, a, allow :: PollCommand(twice, now, m, a, allow).None?
  {
    ExchangeProgress(s, at[0], manners[0]);
    var once := Exchange(s, at[0], manners[0]);
    ExchangeProgress(once, at[1], manners[1]);
    var twice := Exchange(once, at[1], manners[1]);
    assert Needed(twice) == 0;
  }

  // `n` follows `s` after sending `sent` commands: at most one, which is then the pending one.
  predicate Counts(s: Session, n: Session, sent: nat) {
    && sent <= 1 && n.serial == s.serial + sent
    && (n.pending == s.pending || n.pending == None || (n.pending.Some? && n.pending.value.serial == s.serial + 1))
    && (sent == 0 ==> n.pending == s.pending || n.pending == None)
  }

  lemma TickCounts(s: Session, now: int)
    ensures Counts(s, Tick(s, now), 0)
  {
  }

  lemma CompleteCounts(s: Session, serial: nat, accepted: bool, now: int)
    ensures Counts(s, Complete(s, serial, accepted, now), 0)
  {
    TickCounts(s, now);
  }

  lemma SerialStep(s: Session, e: Event)
    ensures Counts(s, After(s, e), |Emission(s, e)|)
    ensures forall sent | sent in Emission(s, e) :: Orderly(sent, s.serial + 1)
  {
    match e
    case EvTick(at) => TickCounts(s, at);
    case EvComplete(serial, accepted, at) => CompleteCounts(s, serial, accepted, at);
    case EvPoll(at, _, _, _) => TickCounts(s, at);
    case _ =>
  }

  // The i-th command of a run that starts with `serial` commands sent.
  predicate Orderly(sent: Sent, serial: int) {
    && sent.command.serial == serial
    && (sent.command.arm ==> sent.command.kind == Arm && sent.observed == sent.wanted)
  }

  /** Over every run serials count the commands, and ARM is only ever sent while the FCU reports the wanted
      mode. */
  lemma {:induction false} ArmsOnlyInWantedMode(s: Session, events: seq<Event>)
    ensures forall i | 0 <= i < |Emissions(s, events)| :: Orderly(Emissions(s, events)[i], s.serial + 1 + i)
    decreases |events|
  {
    if events != [] {
      var head := Emission(s, events[0]);
      var n := After(s, events[0]);
      SerialStep(s, events[0]);
      var rest := Emissions(n, events[1..]);
      ArmsOnlyInWantedMode(n, events[1..]);
      forall i | 0 <= i < |head + rest| ensures Orderly((head + rest)[i], s.serial + 1 + i) {
        if i >= |head| { assert (head + rest)[i] == rest[i - |head|]; }
      }
    }
  }

  /** A late callback is inert: once a serial is no longer pending, its reply only lets the timer run. */
  lemma {:induction false} RetiredSerialIsInert(s: Session, events: seq<Event>, serial: nat, accepted: bool, at: int)
    requires serial <= s.serial && !Current(s, serial)
    ensures var n := Run(s, events); Complete(n, serial, accepted, at) == Tick(n, at)
    decreases |events|
  {
    if events == [] {
      TickCounts(s, at);
    } else {
      SerialStep(s, events[0]);
      RetiredSerialIsInert(After(s, events[0]), events[1..], serial, accepted, at);
    }
  }
}
