/** The end of a movement session on the node: because every report is followed by a drive, the FCU cannot put off the
    DISARM whatever modes it reports. */
module BridgeEnding {
  import opened Wrappers
  import B = BladeProtocol
  import S = SessionProtocol
  import T = SessionTheorems
  import E = SessionEnding
  import opened BridgeProtocol
  import opened BridgeInvariant
  import opened BridgeSteps
  import opened BridgeTheorems

  /** Nothing moves, no isolated test runs, there is no emergency, and the FCU is connected and still armed. */
  predicate Closed(c: Scene) {
    !Moving(c) && !c.bladeTest && !Emergency(c.safety) && c.fcuConnected && c.fcuArmed
  }

  // A callback after which this is still so; it may report any mode, reply and failure.
  predicate Closing(s: Bridge, e: Event) {
    match e
    case EvHighLevel(level, _, _, _, _) => level == Inactive
    case EvFcu(connected, armed, _, _, _, _) => connected && armed
    case EvMowerControl(call, _, _, _, _) => Wish(call) == None || Wish(call) == Some(B.Off)
    case EvSafetyDisarm(_, _, _, _) => false
    case _ => Senses(e) ==> !Emergency(Sense(s.scene, e).safety)
  }

  // What a callback's drive of the session reads from outside, if it drives the session.
  function SessionEnv(e: Event): Option<Env> {
    match e
    case EvTimer(e1, _) => Some(e1)
    case EvVelocity(e1) => Some(e1)
    case EvHighLevel(_, _, _, e2, _) => Some(e2)
    case EvFcu(_, _, _, _, e1, _) => Some(e1)
    case EvFcuReply(_, _, _, e1, _) => Some(e1)
    case EvMowerControl(call, _, e2, _, _) => if Wish(call) == Some(B.Off) then Some(e2) else None
    case _ => None
  }

  function TimeOf(e: Event, now: int): int { if SessionEnv(e).None? then now else SessionEnv(e).value.steady }

  // Ordered callbacks; the session is driven at most `gap` after its last drive, and finds the arming service.
  predicate ClosingRun(k: Setup, s: Bridge, events: seq<Event>, now: int, gap: nat)
    decreases |events|
  {
    events == [] ||
    (var e := events[0];
     && Closing(s, e) && now <= TimeOf(e, now) <= now + gap
     && (SessionEnv(e).Some? ==> SessionEnv(e).value.armService)
     && ClosingRun(k, Step(k, s, e), events[1..], TimeOf(e, now), gap))
  }

  // The time of the last drive of the session.
  function EndTime(events: seq<Event>, now: int): int
    decreases |events|
  {
    if events == [] then now else EndTime(events[1..], TimeOf(events[0], now))
  }

  /** A DISARM has been ordered on the way from `s` to `n`. */
  ghost predicate Disarmed(s: Bridge, n: Bridge) {
    && |s.orders| <= |n.orders| && n.orders[..|s.orders|] == s.orders
    && exists i :: |s.orders| <= i < |n.orders| && S.IsDisarm(n.orders[i])
  }

  predicate Demanded(x: S.Session) { x.wantedMode == S.Hold && !x.wantedArm && !x.safetyDisarm }

  // The DISARM is not sent yet: a transaction is in flight, or HOLD has failed.
  predicate Held(x: S.Session) {
    && Demanded(x) && E.Ending(x) && !S.DisarmPending(x)
    && (x.pending.Some? || (x.modeFailed && x.mode != S.Hold))
  }

  function Limit(x: S.Session, polled: int, gap: nat): int { E.DisarmLimit(x, polled, gap) }

  // A report or a reply, just before the drive that follows it, brings the DISARM no further away.
  lemma ReportHolds(x: S.Session, mode: S.FcuMode, polled: int, gap: nat)
    requires Held(x)
    ensures var y := S.Observe(x, true, true, mode);
            Demanded(y) && E.Ending(y) && !S.DisarmPending(y) && Limit(y, polled, gap) <= Limit(x, polled, gap)
  {
  }

  lemma ReplyHolds(x: S.Session, serial: nat, accepted: bool, at: int, polled: int, gap: nat)
    requires Held(x)
    ensures var y := S.Complete(x, serial, accepted, at);
            Demanded(y) && E.Ending(y) && !S.DisarmPending(y) && Limit(y, polled, gap) <= Limit(x, polled, gap)
  {
    E.CompleteNearer(x, serial, accepted, at, polled, gap);
  }

  lemma PollHolds(x: S.Session, now: int, mode: bool, allow: bool, polled: int, gap: nat)
    requires Demanded(x) && E.Ending(x) && !S.DisarmPending(x) && polled <= now <= polled + gap
    ensures var command := S.PollCommand(x, now, mode, true, allow);
            || (command.Some? && S.IsDisarm(command.value))
            || (Held(S.Poll(x, now, mode, true, allow))
                && Limit(S.Poll(x, now, mode, true, allow), now, gap) <= Limit(x, polled, gap))
  {
    E.TickNearer(x, now, polled, gap);
  }

  // A HOLD that cannot even be sent has failed at once.
  lemma RefusalHolds(x: S.Session, now: int, mode: bool, allow: bool, polled: int, gap: nat)
    requires Demanded(x) && E.Ending(x) && !S.DisarmPending(x) && polled <= now <= polled + gap
    ensures var command := S.PollCommand(x, now, mode, true, allow);
            command.Some? && !S.IsDisarm(command.value) ==>
              var n := S.Complete(S.Poll(x, now, mode, true, allow), command.value.serial, false, now);
              Held(n) && Limit(n, now, gap) <= Limit(x, polled, gap)
  {
    PollHolds(x, now, mode, allow, polled, gap);
  }

  // One drive of the session.
  lemma DriveHolds(k: Setup, s: Bridge, e: Env, polled: int, gap: nat)
    requires Closed(s.scene) && Demanded(s.scene.session) && E.Ending(s.scene.session)
    requires !S.DisarmPending(s.scene.session) && polled <= e.steady <= polled + gap && e.armService
    ensures var n := DriveSession(k, s, e);
            && Closed(n.scene) && n.orders[..|s.orders|] == s.orders
            && (|| (|n.orders| == |s.orders| + 1 && S.IsDisarm(n.orders[|s.orders|]))
                || (Held(n.scene.session)
                    && Limit(n.scene.session, e.steady, gap) <= Limit(s.scene.session, polled, gap)))
  {
    var steered := Steer(k, s, e.steady);
    var x := steered.scene.session;
    assert x == S.Tick(s.scene.session, e.steady);
    E.TickNearer(s.scene.session, e.steady, polled, gap);
    assert DriveSession(k, s, e) == Order(steered, e);
    PollHolds(x, e.steady, e.modeService, ArmAllowed(steered.scene.safety), polled, gap);
    RefusalHolds(x, e.steady, e.modeService, ArmAllowed(steered.scene.safety), polled, gap);
  }

  // The bridge just before a callback drives the session.
  function Before(k: Setup, s: Bridge, e: Event): Bridge
    requires SessionEnv(e).Some?
  {
    match e
    case EvTimer(_, _) => s
    case EvVelocity(_) => s
    case EvHighLevel(level, at, e1, _, _) => Relevel(k, s, level, at, e1)
    case EvFcu(connected, armed, mode, at, _, _) =>
      Recorded(Relink(k, s, connected, at), connected, armed, mode, at)
    case EvFcuReply(serial, accepted, at, _, _) =>
      s.(scene := s.scene.(session := S.Complete(s.scene.session, serial, accepted, at)))
    case EvMowerControl(call, e1, _, _, _) =>
      DriveBlade(k, Submit(k, Bind(k, s.(asked := s.asked + [Wish(call)]), call), |s.asked|, B.Off, call.at, call.at,
                           call.transport), e1)
  }

  // The session as it is then.
  function Heard(x: S.Session, e: Event): S.Session {
    match e
    case EvFcu(connected, armed, mode, _, _, _) => S.Observe(x, connected, armed, mode)
    case EvFcuReply(serial, accepted, at, _, _) => S.Complete(x, serial, accepted, at)
    case _ => x
  }

  lemma CallLeavesScene(k: Setup, s: Bridge, call: Call, e1: Env, e2: Env, e3: Env, e4: Env)
    requires Closed(s.scene) && Demanded(s.scene.session) && Wish(call) == Some(B.Off)
    ensures var t := Before(k, s, EvMowerControl(call, e1, e2, e3, e4));
            t.scene == s.scene && t.orders == s.orders
  {
    var heard := s.(asked := s.asked + [Wish(call)]);
    CancelLeavesScene(heard);
    var bound := Bind(k, heard, call);
    assert bound.scene == s.scene && bound.orders == s.orders;
    DriveBladeLeavesScene(k, Submit(k, bound, |s.asked|, B.Off, call.at, call.at, call.transport), e1);
  }

  lemma ReportLeavesOrders(k: Setup, s: Bridge, mode: S.FcuMode, at: nat)
    requires Closed(s.scene)
    ensures var t := Recorded(Relink(k, s, true, at), true, true, mode, at);
            && Closed(t.scene) && t.orders == s.orders
            && t.scene.session == S.Observe(s.scene.session, true, true, mode)
  {
  }

  lemma BeforeIsClosed(k: Setup, s: Bridge, e: Event)
    requires Closed(s.scene) && Demanded(s.scene.session) && Closing(s, e) && SessionEnv(e).Some?
    ensures var t := Before(k, s, e);
            Closed(t.scene) && t.orders == s.orders && t.scene.session == Heard(s.scene.session, e)
  {
    match e
    case EvTimer(_, _) =>
    case EvVelocity(_) =>
    case EvHighLevel(_, _, _, _, _) =>
    case EvFcu(_, _, mode, at, _, _) => ReportLeavesOrders(k, s, mode, at);
    case EvFcuReply(_, _, _, _, _) =>
    case EvMowerControl(call, e1, e2, e3, e4) => CallLeavesScene(k, s, call, e1, e2, e3, e4);
  }

  lemma DriveAllIsDrive(k: Setup, s: Bridge, e1: Env, e2: Env)
    requires !DriveSession(k, s, e1).scene.bladeTest
    ensures var n, all := DriveSession(k, s, e1), DriveAll(k, s, e1, e2);
            all.scene == n.scene && all.orders == n.orders
  {
    DriveBladeLeavesScene(k, DriveSession(k, s, e1), e2);
  }

  // The callback drives the session from `t` with `e1`, and then at most the blade.
  predicate Drives(k: Setup, s: Bridge, e: Event, t: Bridge, e1: Env) {
    !DriveSession(k, t, e1).scene.bladeTest ==>
      && Step(k, s, e).scene == DriveSession(k, t, e1).scene
      && Step(k, s, e).orders == DriveSession(k, t, e1).orders
  }

  lemma DrivesAll(k: Setup, s: Bridge, e: Event, t: Bridge, e1: Env, e2: Env)
    requires Step(k, s, e) == DriveAll(k, t, e1, e2)
    ensures Drives(k, s, e, t, e1)
  {
    if !DriveSession(k, t, e1).scene.bladeTest { DriveAllIsDrive(k, t, e1, e2); }
  }

  lemma CallStep(k: Setup, s: Bridge, c: Call, e1: Env, e2: Env, e3: Env, e4: Env)
    ensures Step(k, s, EvMowerControl(c, e1, e2, e3, e4)) == MowerControl(k, s, c, e1, e2, e3, e4)
  {
  }

  lemma LevelStep(k: Setup, s: Bridge, level: HighLevel, at: nat, e1: Env, e2: Env, e3: Env)
    ensures Step(k, s, EvHighLevel(level, at, e1, e2, e3)) == DriveAll(k, Relevel(k, s, level, at, e1), e2, e3)
  {
  }

  lemma ReportStep(k: Setup, s: Bridge, connected: bool, armed: bool, mode: S.FcuMode, at: nat, e1: Env, e2: Env)
    ensures Step(k, s, EvFcu(connected, armed, mode, at, e1, e2))
            == DriveAll(k, Recorded(Relink(k, s, connected, at), connected, armed, mode, at), e1, e2)
  {
  }

  lemma ReplyStep(k: Setup, s: Bridge, serial: nat, accepted: bool, at: nat, e1: Env, e2: Env)
    ensures Step(k, s, EvFcuReply(serial, accepted, at, e1, e2))
            == DriveAll(k, s.(scene := s.scene.(session := S.Complete(s.scene.session, serial, accepted, at))), e1, e2)
  {
  }

  lemma CallDrives(k: Setup, s: Bridge, e: Event)
    requires e.EvMowerControl? && Wish(e.call) == Some(B.Off)
    ensures Drives(k, s, e, Before(k, s, e), e.e2)
  {
    CallStep(k, s, e.call, e.e1, e.e2, e.e3, e.e4);
  }

  lemma LevelDrives(k: Setup, s: Bridge, e: Event)
    requires e.EvHighLevel?
    ensures Drives(k, s, e, Before(k, s, e), e.e2)
  {
    LevelStep(k, s, e.level, e.at, e.e1, e.e2, e.e3);
    DrivesAll(k, s, e, Before(k, s, e), e.e2, e.e3);
  }

  lemma ReportDrives(k: Setup, s: Bridge, e: Event)
    requires e.EvFcu?
    ensures Drives(k, s, e, Before(k, s, e), e.e1)
  {
    ReportStep(k, s, e.connected, e.armed, e.mode, e.at, e.e1, e.e2);
    DrivesAll(k, s, e, Before(k, s, e), e.e1, e.e2);
  }

  lemma ReplyDrives(k: Setup, s: Bridge, e: Event)
    requires e.EvFcuReply?
    ensures Drives(k, s, e, Before(k, s, e), e.e1)
  {
    ReplyStep(k, s, e.serial, e.accepted, e.at, e.e1, e.e2);
    DrivesAll(k, s, e, Before(k, s, e), e.e1, e.e2);
  }

  lemma StepDrives(k: Setup, s: Bridge, e: Event)
    requires SessionEnv(e).Some?
    ensures Drives(k, s, e, Before(k, s, e), SessionEnv(e).value)
  {
    match e
    case EvTimer(e1, e2) => DrivesAll(k, s, e, s, e1, e2);
    case EvVelocity(_) =>
    case EvHighLevel(_, _, _, _, _) => LevelDrives(k, s, e);
    case EvFcu(_, _, _, _, _, _) => ReportDrives(k, s, e);
    case EvFcuReply(_, _, _, _, _) => ReplyDrives(k, s, e);
    case EvMowerControl(_, _, _, _, _) => CallDrives(k, s, e);
  }

  // A callback that does not drive the session leaves it and its orders alone.
  lemma StepIsQuiet(k: Setup, s: Bridge, e: Event)
    requires Closed(s.scene) && Closing(s, e) && SessionEnv(e).None?
    ensures var n := Step(k, s, e);
            Closed(n.scene) && n.orders == s.orders && n.scene.session == s.scene.session
  {
    if Tells(e) {
      DriveBladeLeavesScene(k, Blade(k, s, Told(e)), e.e1);
    } else if e.EvRemap? {
      var mapped := s.(scene := s.scene.(bladeSlot := e.slot));
      DriveBladeLeavesScene(k, Blade(k, mapped, B.EvForceOff(e.at)), e.e1);
    }
  }

  lemma HeardHolds(x: S.Session, e: Event, polled: int, gap: nat)
    requires Held(x) && (e.EvFcu? ==> e.connected && e.armed)
    ensures var y := Heard(x, e);
            Demanded(y) && E.Ending(y) && !S.DisarmPending(y) && Limit(y, polled, gap) <= Limit(x, polled, gap)
  {
    match e
    case EvFcu(_, _, mode, _, _, _) => ReportHolds(x, mode, polled, gap);
    case EvFcuReply(serial, accepted, at, _, _) => ReplyHolds(x, serial, accepted, at, polled, gap);
    case _ =>
  }

  lemma ClosingStep(k: Setup, s: Bridge, e: Event, now: int, gap: nat)
    requires Closed(s.scene) && Held(s.scene.session) && Closing(s, e) && now <= TimeOf(e, now) <= now + gap
    requires SessionEnv(e).Some? ==> SessionEnv(e).value.armService
    ensures var n := Step(k, s, e);
            || Disarmed(s, n)
            || (Closed(n.scene) && Held(n.scene.session)
                && Limit(n.scene.session, TimeOf(e, now), gap) <= Limit(s.scene.session, now, gap))
  {
    if SessionEnv(e).None? {
      StepIsQuiet(k, s, e);
    } else {
      var t := Before(k, s, e);
      BeforeIsClosed(k, s, e);
      HeardHolds(s.scene.session, e, now, gap);
      DriveHolds(k, t, SessionEnv(e).value, now, gap);
      StepDrives(k, s, e);
    }
  }

  /** Some callback of the run orders a DISARM. */
  ghost predicate DisarmsDuring(k: Setup, s: Bridge, events: seq<Event>)
    decreases |events|
  {
    events != [] && (Disarmed(s, Step(k, s, events[0])) || DisarmsDuring(k, Step(k, s, events[0]), events[1..]))
  }

  lemma {:induction false} ClosingDisarms(k: Setup, s: Bridge, events: seq<Event>, now: int, gap: nat)
    requires Closed(s.scene) && Held(s.scene.session) && ClosingRun(k, s, events, now, gap)
    ensures DisarmsDuring(k, s, events) || EndTime(events, now) <= Limit(s.scene.session, now, gap)
    decreases |events|
  {
    if events != [] {
      ClosingStep(k, s, events[0], now, gap);
      if !Disarmed(s, Step(k, s, events[0])) {
        ClosingDisarms(k, Step(k, s, events[0]), events[1..], TimeOf(events[0], now), gap);
      }
    }
  }

  /** The callback ends a session of an armed FCU: the movement level is left, or the timer finds that neither a
      movement nor a blade test goes on. No DISARM has failed or is on its way, and there is no emergency. */
  predicate EndsSession(s: Bridge, e: Event) {
    && !Emergency(s.scene.safety) && s.scene.fcuConnected && s.scene.fcuArmed
    && (s.scene.session.wantedArm || !s.scene.session.armFailed) && !S.DisarmPending(s.scene.session)
    && ((e.EvHighLevel? && e.level == Inactive && Moving(s.scene)) || (e.EvTimer? && Closed(s.scene)))
    && SessionEnv(e).value.armService && s.scene.session.sentAt <= SessionEnv(e).value.steady
  }

  lemma RetireLeavesScene(k: Setup, s: Bridge, at: nat, e: Env)
    ensures var t := Retire(k, s, at, e);
            t.scene == s.scene.(bladeTest := false) && t.orders == s.orders
  {
    CancelLeavesScene(s.(scene := s.scene.(bladeTest := false)));
    DriveBladeLeavesScene(k, Abandon(k, s, at), e);
  }

  lemma EndingHolds(k: Setup, s: Bridge, e: Event, gap: nat)
    requires Linked(s) && EndsSession(s, e)
    ensures var n, now := Step(k, s, e), SessionEnv(e).value.steady;
            || Disarmed(s, n)
            || (Closed(n.scene) && Held(n.scene.session)
                && Limit(n.scene.session, now, gap) <= now + 2 * S.CONFIRMATION_TIMEOUT + 2 * gap)
  {
    var t := Before(k, s, e);
    if e.EvHighLevel? {
      var known := s.(scene := s.scene.(highLevel := Inactive));
      RetireLeavesScene(k, known, e.at, e.e1);
      assert t == Retire(k, known, e.at, e.e1);
    }
    assert Closed(t.scene) && t.orders == s.orders && t.scene.session == s.scene.session;
    EndingDrive(k, t, SessionEnv(e).value, gap);
    StepDrives(k, s, e);
  }

  // The demand for the end, in the session alone.
  lemma EndingDemand(x: S.Session, now: int, gap: nat)
    requires x.connected && x.armed && (x.wantedArm || !x.armFailed) && !S.DisarmPending(x) && x.sentAt <= now
    ensures var y := S.Demand(x, S.Hold, false, false);
            && Demanded(y) && E.Ending(y) && !S.DisarmPending(y)
            && Limit(y, now, gap) <= now + 2 * S.CONFIRMATION_TIMEOUT + 2 * gap
  {
  }

  // The drive that first demands the end.
  lemma EndingDrive(k: Setup, s: Bridge, e: Env, gap: nat)
    requires Closed(s.scene) && e.armService && s.scene.session.connected && s.scene.session.armed
    requires s.scene.session.wantedArm || !s.scene.session.armFailed
    requires !S.DisarmPending(s.scene.session) && s.scene.session.sentAt <= e.steady
    ensures var n := DriveSession(k, s, e);
            && Closed(n.scene) && n.orders[..|s.orders|] == s.orders
            && (|| (|n.orders| == |s.orders| + 1 && S.IsDisarm(n.orders[|s.orders|]))
                || (Held(n.scene.session)
                    && Limit(n.scene.session, e.steady, gap) <= e.steady + 2 * S.CONFIRMATION_TIMEOUT + 2 * gap))
  {
    var x := s.scene.session;
    var demanded := Demand(s, S.Hold, false, false);
    EndingDemand(x, e.steady, gap);
    assert Steer(k, demanded, e.steady) == Steer(k, s, e.steady);
    DriveHolds(k, demanded, e, e.steady, gap);
  }

  /** The end of an ordinary session on the node cannot be obstructed: in every run, whatever modes the FCU reports and
      whatever is refused, lost, unavailable or late, a DISARM is ordered within two confirmation timeouts and two gaps
      between drives, while the FCU stays connected and armed and the arming service is there. */
  lemma NodeEndsInTime(k: Setup, before: seq<Event>, end: Event, events: seq<Event>, gap: nat)
    requires EndsSession(Run(k, START, before), end)
    requires ClosingRun(k, Step(k, Run(k, START, before), end), events, SessionEnv(end).value.steady, gap)
    ensures var s, now := Run(k, START, before), SessionEnv(end).value.steady;
            || DisarmsDuring(k, s, [end] + events)
            || EndTime(events, now) <= now + 2 * S.CONFIRMATION_TIMEOUT + 2 * gap
  {
    StartKeeps(k);
    RunKeeps(k, START, before);
    EndsInTime(k, Run(k, START, before), end, events, gap);
  }

  lemma EndsInTime(k: Setup, s: Bridge, end: Event, events: seq<Event>, gap: nat)
    requires Linked(s) && EndsSession(s, end)
    requires ClosingRun(k, Step(k, s, end), events, SessionEnv(end).value.steady, gap)
    ensures || DisarmsDuring(k, s, [end] + events)
            || EndTime(events, SessionEnv(end).value.steady)
               <= SessionEnv(end).value.steady + 2 * S.CONFIRMATION_TIMEOUT + 2 * gap
  {
    EndingHolds(k, s, end, gap);
    assert ([end] + events)[1..] == events;
    if !Disarmed(s, Step(k, s, end)) {
      ClosingDisarms(k, Step(k, s, end), events, SessionEnv(end).value.steady, gap);
    }
  }
}
