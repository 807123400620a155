/** What the scene makes the bridge demand of the FCU, order, permit and admit, in terms of its observable fields. */
module BridgeDemands {
  import opened Wrappers
  import B = BladeProtocol
  import S = SessionProtocol
  import T = SessionTheorems
  import opened BridgeProtocol
  import opened BridgeInvariant
  import opened BridgeTheorems

  /** Some emergency is active or latched: the safety switch, the service, the tilt, or both wheels off the ground. */
  predicate Alarmed(x: BridgeProtocol.Safety) {
    || x.hardware == Engaged || x.hardwareLatched || x.serviceActive || x.serviceLatched || x.tiltActive || x.tiltLatched
    || (x.liftKnown && x.leftLifted && x.rightLifted)
  }

  /** The emergencies that also hold the vehicle. */
  predicate Holding(x: BridgeProtocol.Safety) { x.hardware == Engaged || x.serviceActive }

  /** The mode a scene calls for: HOLD in a holding emergency and at rest, the present mode in any other emergency,
      GUIDED for an autonomous session of a firmware with guided velocity, and MANUAL for any other movement. */
  predicate CallsFor(k: Setup, c: Scene, mode: S.FcuMode) {
    && (Holding(c.safety) ==> mode == S.Hold)
    && (Alarmed(c.safety) && !Holding(c.safety) ==> mode == c.fcuMode)
    && (!Alarmed(c.safety) && c.highLevel == Inactive ==> mode == S.Hold)
    && (!Alarmed(c.safety) && c.highLevel == Autonomous && k.guidedVelocity ==> mode == S.Guided)
    && (!Alarmed(c.safety) && c.highLevel != Inactive && !(c.highLevel == Autonomous && k.guidedVelocity) ==>
          mode == S.Manual)
  }

  lemma EmergencyIsAlarm(x: BridgeProtocol.Safety)
    ensures Emergency(x) <==> Alarmed(x)
  {
  }

  /** Every drive of the session leaves exactly this demand: safety DISARM in an emergency, armed for a movement or a
      test without one, and the mode the scene calls for; a test that ends in this drive leaves HOLD. */
  lemma DriveDemands(k: Setup, s: Bridge, e: Env)
    ensures var n := DriveSession(k, s, e).scene;
            && n.session.safetyDisarm == Alarmed(s.scene.safety)
            && n.session.wantedArm == (!Alarmed(s.scene.safety) && (s.scene.highLevel != Inactive || n.bladeTest))
            && (n.bladeTest == s.scene.bladeTest ==> CallsFor(k, s.scene, n.session.wantedMode))
            && (n.bladeTest != s.scene.bladeTest ==> !n.bladeTest && n.session.wantedMode == S.Hold)
            && n.safety == s.scene.safety && n.highLevel == s.scene.highLevel && n.fcuMode == s.scene.fcuMode
  {
    SteerDemands(k, s, e.steady);
    var steered := Steer(k, s, e.steady);
    var ended := if S.HasFailed(steered.scene.session) then EndTest(k, steered, e.again) else steered;
    EndTestDemands(k, steered, e.again);
    OrderKeepsDemand(ended.scene, e);
  }

  lemma SteerDemands(k: Setup, s: Bridge, now: int)
    ensures var n := Steer(k, s, now);
            && CallsFor(k, s.scene, n.scene.session.wantedMode)
            && n.scene.session.safetyDisarm == Alarmed(s.scene.safety)
            && n.scene.session.wantedArm
               == (!Alarmed(s.scene.safety) && (s.scene.highLevel != Inactive || s.scene.bladeTest))
            && n == s.(scene := s.scene.(session := n.scene.session))
  {
    EmergencyIsAlarm(s.scene.safety);
  }

  lemma EndTestDemands(k: Setup, s: Bridge, at: nat)
    ensures var n := EndTest(k, s, at);
            && n.orders == s.orders
            && (if s.scene.bladeTest && s.scene.highLevel == Inactive
                then n.scene == s.scene.(bladeTest := false,
                                         session := S.Demand(s.scene.session, S.Hold, false, Alarmed(s.scene.safety)))
                else n == s)
  {
    EmergencyIsAlarm(s.scene.safety);
    CancelLeavesScene(s.(scene := s.scene.(bladeTest := false)));
  }

  predicate SameDemand(x: S.Session, y: S.Session) {
    y.wantedMode == x.wantedMode && y.wantedArm == x.wantedArm && y.safetyDisarm == x.safetyDisarm
  }

  lemma OrderKeepsDemand(c: Scene, e: Env)
    ensures SameDemand(c.session, Ordered(c, e))
  {
    T.PollSpends(c.session, e.steady, e.modeService, e.armService, ArmAllowed(c.safety));
    if NextOrder(c, e).Some? {
      T.CompleteCarries(S.Poll(c.session, e.steady, e.modeService, e.armService, ArmAllowed(c.safety)),
                        NextOrder(c, e).value.serial, false, e.steady);
    }
  }

  /** A drive of the session orders at most one command, over a service that is there: a MODE only for the mode that is
      wanted and not observed, an ARM only in the wanted mode, without any emergency and with the safety switch
      released. */
  lemma OrdersAreSafe(k: Setup, s: Bridge, e: Env)
    ensures var n := DriveSession(k, s, e);
            && |s.orders| <= |n.orders| <= |s.orders| + 1 && n.orders[..|s.orders|] == s.orders
            && (|n.orders| > |s.orders| ==>
                  var order, x := n.orders[|s.orders|], n.scene.session;
                  && (order.kind == S.Mode ==> e.modeService && order.mode == x.wantedMode && x.mode != x.wantedMode)
                  && (order.kind == S.Arm ==> e.armService)
                  && (order.kind == S.Arm && order.arm ==>
                        && !Alarmed(s.scene.safety) && s.scene.safety.hardware == Released
                        && x.wantedArm && x.mode == x.wantedMode && !x.armed && !x.safetyDisarm))
  {
    EmergencyIsAlarm(s.scene.safety);
    var steered := Steer(k, s, e.steady);
    EndTestDemands(k, steered, e.again);
    var ended := if S.HasFailed(steered.scene.session) then EndTest(k, steered, e.again) else steered;
    assert ended.orders == s.orders && ended.scene.safety == s.scene.safety;
    OrderIsSafe(ended.scene, e);
  }

  lemma OrderIsSafe(c: Scene, e: Env)
    requires !(c.session.wantedArm && c.session.safetyDisarm)
    ensures NextOrder(c, e).Some? ==>
              var order, x := NextOrder(c, e).value, Ordered(c, e);
              && (order.kind == S.Mode ==> e.modeService && order.mode == x.wantedMode && x.mode != x.wantedMode)
              && (order.kind == S.Arm ==> e.armService)
              && (order.kind == S.Arm && order.arm ==>
                    && !Emergency(c.safety) && c.safety.hardware == Released
                    && x.wantedArm && x.mode == x.wantedMode && !x.armed && !x.safetyDisarm)
  {
    OrderKeepsDemand(c, e);
  }

  /** Everything that permits a blade ON. */
  predicate Permits(k: Setup, c: Scene, now: int) {
    && c.session.connected && c.session.pending.None? && c.session.mode == c.session.wantedMode
    && c.session.armed && c.session.wantedArm && k.mowingEnabled && c.fcuConnected && c.fcuArmed
    && 0 <= c.fcuReceipt && now - c.fcuReceipt <= 2500 && 0 <= c.safetyReceipt && now - c.safetyReceipt <= 3000
    && c.safety.hardware == Released && !Alarmed(c.safety) && c.bladeSlot >= 0
  }

  lemma PermissionIsAllowance(k: Setup, c: Scene, now: int)
    ensures BladeAllowed(k, c, now) <==> Permits(k, c, now)
  {
    EmergencyIsAlarm(c.safety);
  }

  predicate SamePermission(s: Bridge, n: Bridge) { n.blade.blade.allowed == s.blade.blade.allowed }

  lemma EventKeepsPermission(k: Setup, s: Bridge, e: B.Event)
    requires !e.EvPermit?
    ensures SamePermission(s, Blade(k, s, e))
  {
    RevisionBindsDirection(k.blade, s.blade.blade, e);
  }

  lemma EndTestKeepsPermission(k: Setup, s: Bridge, at: nat)
    ensures SamePermission(s, EndTest(k, s, at))
  {
    CancelKeepsPermission(s.(scene := s.scene.(bladeTest := false)));
  }

  lemma {:induction false} CancelKeepsPermission(s: Bridge)
    ensures CancelStarts(s).blade == s.blade
    decreases |s.starts|
  {
    if s.starts != [] { CancelKeepsPermission(Tell(s, s.starts[0].caller, false).(starts := s.starts[1..])); }
  }

  lemma {:induction false} AdmitKeepsPermission(k: Setup, s: Bridge, i: nat, now: nat)
    ensures SamePermission(s, Admit(k, s, i, now))
    decreases |s.starts| - i
  {
    if i < |s.starts| {
      var start := s.starts[i];
      if Hopeless(s, start, now) || S.Ready(s.scene.session) {
        EventKeepsPermission(k, s, B.EvRequest(start.direction, now));
        AdmitKeepsPermission(k, Resolve(k, s, i, now), i, now);
      } else {
        AdmitKeepsPermission(k, s, i + 1, now);
      }
    }
  }

  lemma {:induction false} ReapKeepsPermission(s: Bridge, i: nat, now: int)
    ensures Reap(s, i, now).blade == s.blade
    decreases |s.replies| - i
  {
    if i < |s.replies| {
      var reply := s.replies[i];
      if Lapsed(s, reply, now) || B.Satisfied(s.blade.blade) {
        ReapKeepsPermission(Tell(s, reply.caller, !Lapsed(s, reply, now)).(replies := Without(s.replies, i)), i, now);
      } else {
        ReapKeepsPermission(s, i + 1, now);
      }
    }
  }

  lemma SendKeepsPermission(k: Setup, s: Bridge, e: Env)
    ensures SamePermission(s, Send(k, s, e))
  {
    EventKeepsPermission(k, s, B.EvPoll(e.steady));
    var command := B.PollCommand(k.blade, s.blade.blade, e.steady);
    if command.Some? {
      var n := Blade(k, s, B.EvPoll(e.steady));
      var sent := n.(dispatches := n.dispatches + [Dispatch(command.value, e.steady, n.scene)]);
      EventKeepsPermission(k, sent, B.EvComplete(command.value.token, false, e.again));
    }
  }

  lemma ReviewPermits(k: Setup, s: Bridge, e: Env)
    ensures Review(k, s, e).blade.blade.allowed <==>
              && Permits(k, s.scene, e.steady)
              && !(s.scene.bladeTest && s.scene.highLevel == Inactive
                   && (s.scene.session.modeFailed || s.scene.session.armFailed))
  {
    var tested := EndFailedTest(k, s, e);
    EndTestDemands(k, s, e.again);
    PermissionIsAllowance(k, tested.scene, e.steady);
    PermissionIsAllowance(k, s.scene, e.steady);
    GrantIsAllowance(k, tested, e);
    EndTestKeepsPermission(k, Grant(k, tested, e), e.again);
  }

  /** A drive of the blade leaves the controller permitted if and only if everything permits an ON, and no isolated test
      ends in it because the session has failed. */
  lemma DrivePermits(k: Setup, s: Bridge, e: Env)
    ensures DriveBlade(k, s, e).blade.blade.allowed <==>
              && Permits(k, s.scene, e.steady)
              && !(s.scene.bladeTest && s.scene.highLevel == Inactive
                   && (s.scene.session.modeFailed || s.scene.session.armFailed))
  {
    ReviewPermits(k, s, e);
    var reviewed := Review(k, s, e);
    AdmitKeepsPermission(k, reviewed, 0, e.steady);
    var admitted := Admit(k, reviewed, 0, e.steady);
    EventKeepsPermission(k, admitted, B.EvExpire(e.steady));
    var expired := ExpireService(k, admitted, e);
    ReapKeepsPermission(expired, 0, e.steady);
    EndTestKeepsPermission(k, Reap(expired, 0, e.steady), e.again);
    SendKeepsPermission(k, Prepare(k, s, e), e);
  }

  lemma GrantIsAllowance(k: Setup, s: Bridge, e: Env)
    ensures Grant(k, s, e).blade.blade.allowed == BladeAllowed(k, s.scene, e.steady)
  {
    EventKeepsPermission(k, Blade(k, s, B.EvPermit(BladeAllowed(k, s.scene, e.steady), e.steady)), B.EvTick(e.steady));
  }

  /** What each report about safety changes, and that it changes nothing else: the switch and the wheels count only while
      the FCU is connected; an engaged switch latches until it is released, a tilt until it is over and the latches are
      cleared, the service until it or the latches are cleared. */
  lemma ReportsOfSafety(k: Setup, s: Bridge, present: bool, enabled: bool, left: bool, right: bool, active: bool, at: nat)
    ensures var was, n := s.scene.safety, Step(k, s, EvSwitch(present, enabled, at));
            if !s.scene.fcuConnected then n == s
            else
              && n.scene.safetyReceipt == at
              && n.scene.safety.hardware == (if !present then SwitchUnknown else if enabled then Released else Engaged)
              && n.scene.safety.hardwareLatched == (present && !enabled)
              && n == s.(scene := s.scene.(safetyReceipt := at, safety := was.(
                   hardware := n.scene.safety.hardware, hardwareLatched := n.scene.safety.hardwareLatched)))
    ensures var was, n := s.scene.safety, Step(k, s, EvLift(left, right));
            n == if !s.scene.fcuConnected then s
                 else s.(scene := s.scene.(safety := was.(liftKnown := true, leftLifted := left, rightLifted := right)))
    ensures var was, n := s.scene.safety, Step(k, s, EvTilt(active));
            n == s.(scene := s.scene.(safety := was.(tiltActive := active, tiltLatched := active || was.tiltLatched)))
    ensures var was, n := s.scene.safety, Step(k, s, EvService(active));
            n == s.(scene := s.scene.(safety := was.(serviceActive := active, serviceLatched := active)))
    ensures var was, n := s.scene.safety, Step(k, s, EvClearLatches);
            n == s.(scene := s.scene.(safety := was.(serviceLatched := false,
                                                     tiltLatched := was.tiltActive && was.tiltLatched)))
  {
  }

  /** A start that cannot begin any more: the session failed, the FCU is gone, an emergency, or 20 s are over. */
  predicate Dismissed(c: Scene, start: Start, now: int) {
    c.session.modeFailed || c.session.armFailed || !c.fcuConnected || Alarmed(c.safety) || now - start.started > 20000
  }

  function Dismissals(starts: seq<Start>, c: Scene, b: B.Blade, now: int): seq<Answer> {
    if starts == [] then []
    else (if Dismissed(c, starts[0], now) then [Answer(starts[0].caller, false, b)] else [])
         + Dismissals(starts[1..], c, b, now)
  }

  function Remaining(starts: seq<Start>, c: Scene, now: int): seq<Start> {
    if starts == [] then []
    else (if Dismissed(c, starts[0], now) then [] else [starts[0]]) + Remaining(starts[1..], c, now)
  }

  lemma StartHead(starts: seq<Start>, i: nat, c: Scene, b: B.Blade, now: int)
    requires i < |starts|
    ensures Dismissals(starts[i..], c, b, now)
            == (if Dismissed(c, starts[i], now) then [Answer(starts[i].caller, false, b)] else [])
               + Dismissals(starts[i + 1..], c, b, now)
    ensures Remaining(starts[i..], c, now)
            == (if Dismissed(c, starts[i], now) then [] else [starts[i]]) + Remaining(starts[i + 1..], c, now)
  {
    assert starts[i..][0] == starts[i] && starts[i..][1..] == starts[i + 1..];
  }

  predicate Unready(x: S.Session) {
    !(x.connected && x.pending.None? && x.mode == x.wantedMode && x.armed == x.wantedArm)
  }

  // The start at position i is dismissed.
  function Dismiss(s: Bridge, i: nat): Bridge
    requires i < |s.starts|
  {
    Tell(s, s.starts[i].caller, false).(starts := Without(s.starts, i))
  }

  lemma StartStep(k: Setup, s: Bridge, i: nat, now: nat)
    requires i < |s.starts| && Unready(s.scene.session)
    ensures Admit(k, s, i, now)
            == if Dismissed(s.scene, s.starts[i], now) then Admit(k, Dismiss(s, i), i, now) else Admit(k, s, i + 1, now)
  {
    EmergencyIsAlarm(s.scene.safety);
  }

  // What a review from position i on makes of the answers and of the starts.
  predicate Reviewed(s: Bridge, i: nat, n: Bridge, now: int)
    requires i <= |s.starts|
  {
    && n.answers == s.answers + Dismissals(s.starts[i..], s.scene, s.blade.blade, now)
    && n.starts == s.starts[..i] + Remaining(s.starts[i..], s.scene, now)
    && n.blade == s.blade && n.scene == s.scene && n.replies == s.replies && n.dispatches == s.dispatches
    && n.orders == s.orders && n.asked == s.asked
  }

  lemma ReviewedDismissal(s: Bridge, i: nat, n: Bridge, now: int)
    requires i < |s.starts| && Dismissed(s.scene, s.starts[i], now) && Reviewed(Dismiss(s, i), i, n, now)
    ensures Reviewed(s, i, n, now)
  {
    StartHead(s.starts, i, s.scene, s.blade.blade, now);
    assert Without(s.starts, i)[..i] == s.starts[..i] && Without(s.starts, i)[i..] == s.starts[i + 1..];
  }

  lemma ReviewedWait(s: Bridge, i: nat, n: Bridge, now: int)
    requires i < |s.starts| && !Dismissed(s.scene, s.starts[i], now) && Reviewed(s, i + 1, n, now)
    ensures Reviewed(s, i, n, now)
  {
    StartHead(s.starts, i, s.scene, s.blade.blade, now);
    assert s.starts[..i + 1] == s.starts[..i] + [s.starts[i]];
  }

  /** While the session is not ready, a review of the waiting starts answers `false` to exactly those that cannot begin
      any more, in order; all others go on waiting, and the blade is not touched. */
  lemma {:induction false} StartsWait(k: Setup, s: Bridge, i: nat, now: nat)
    requires i <= |s.starts| && Unready(s.scene.session)
    ensures Reviewed(s, i, Admit(k, s, i, now), now)
    decreases |s.starts| - i
  {
    if i == |s.starts| {
      assert s.starts[..i] + [] == s.starts && s.answers + [] == s.answers;
    } else {
      StartStep(k, s, i, now);
      if Dismissed(s.scene, s.starts[i], now) {
        StartsWait(k, Dismiss(s, i), i, now);
        ReviewedDismissal(s, i, Admit(k, s, i, now), now);
      } else {
        StartsWait(k, s, i + 1, now);
        ReviewedWait(s, i, Admit(k, s, i, now), now);
      }
    }
  }

  /** Once the session is ready no start waits any longer: each is dismissed, or submitted in its own direction and with
      its own deadline. */
  lemma {:induction false} StartsBegin(k: Setup, s: Bridge, i: nat, now: nat)
    requires i <= |s.starts| && S.Ready(s.scene.session)
    ensures Admit(k, s, i, now).starts == s.starts[..i]
    decreases |s.starts| - i
  {
    if i < |s.starts| {
      var resolved := Resolve(k, s, i, now);
      assert resolved.starts == Without(s.starts, i) && resolved.starts[..i] == s.starts[..i];
      assert resolved.scene.session == s.scene.session;
      StartsBegin(k, resolved, i, now);
    } else {
      assert s.starts[..i] == s.starts;
    }
  }

  lemma FirstStartBegins(k: Setup, s: Bridge, now: nat)
    requires s.starts != [] && S.Ready(s.scene.session)
    ensures var start, rest := s.starts[0], s.starts[1..];
            Admit(k, s, 0, now)
            == Admit(k, (if Dismissed(s.scene, start, now) then Tell(s, start.caller, false)
                         else Submit(k, s, start.caller, start.direction, start.started, now, true)).(starts := rest),
                     0, now)
  {
    EmergencyIsAlarm(s.scene.safety);
    assert Without(s.starts, 0) == s.starts[1..];
  }

  /** An ON call is refused at once exactly if, after waiting starts in another direction were cancelled and both
      controllers driven, something basic is missing; otherwise it begins, with an isolated test if nothing moves. */
  lemma OnCallBegins(k: Setup, s: Bridge, caller: nat, d: B.Direction, c: Call, e1: Env, e2: Env, e3: Env, e4: Env)
    ensures var m := DriveAll(k, if s.starts != [] && s.starts[0].direction != d then CancelStarts(s) else s, e1, e2);
            var refused := || !c.transport || !k.mowingEnabled || !m.scene.fcuConnected || Alarmed(m.scene.safety)
                           || m.scene.safety.hardware != Released || m.blade.blade.fault;
            var testing := m.(scene := m.scene.(bladeTest := m.scene.bladeTest || m.scene.highLevel == Inactive));
            CallOn(k, s, caller, d, c, e1, e2, e3, e4)
            == if refused then m.(answers := m.answers + [Answer(caller, false, m.blade.blade)])
               else Enlist(k, DriveSession(k, testing, e3), caller, d, c, e3.again, e4)
  {
    var m := Clear(k, s, d, e1, e2);
    EmergencyIsAlarm(m.scene.safety);
  }

  /** The caller of an ON is told `false` if the session has failed or neither a movement nor a test goes on; while the
      session is not ready it waits to start, in its own direction and from its own time, unless 32 already do; once it
      is ready its request is submitted under an up-to-date permission, and the blade is driven. */
  lemma OnCallEnlists(k: Setup, s: Bridge, caller: nat, d: B.Direction, c: Call, again: nat, e: Env)
    ensures var n, x := Enlist(k, s, caller, d, c, again, e), s.scene.session;
            if x.modeFailed || x.armFailed || (s.scene.highLevel == Inactive && !s.scene.bladeTest)
            then |n.answers| > |s.answers| && n.answers[|n.answers| - 1].caller == caller
                 && !n.answers[|n.answers| - 1].success && n.replies == s.replies
            else if Unready(x) then
              if |s.starts| >= 32 then n == s.(answers := s.answers + [Answer(caller, false, s.blade.blade)])
              else n == s.(starts := s.starts + [Start(caller, d, c.at)])
            else
              var permitted := Blade(k, s, B.EvPermit(BladeAllowed(k, s.scene, c.at), c.at));
              && n == DriveBlade(k, Submit(k, permitted, caller, d, c.at, c.at, true), e)
              && (permitted.blade.blade.allowed <==> Permits(k, s.scene, c.at))
  {
    PermissionIsAllowance(k, s.scene, c.at);
    CancelAnswers(s.(scene := s.scene.(bladeTest := false)));
  }

  lemma {:induction false} CancelAnswers(s: Bridge)
    ensures |CancelStarts(s).answers| == |s.answers| + |s.starts| && CancelStarts(s).replies == s.replies
    ensures CancelStarts(s).starts == []
    decreases |s.starts|
  {
    if s.starts != [] { CancelAnswers(Tell(s, s.starts[0].caller, false).(starts := s.starts[1..])); }
  }
}
