/** What becomes of a command handed over, of a report of the blade, and of the caller of an OFF. */
module BridgeEffects {
  import opened Wrappers
  import B = BladeProtocol
  import S = SessionProtocol
  import Safety = BladeSafety
  import Wiring = BladeCommands
  import opened BridgeProtocol
  import opened BridgeInvariant
  import opened BridgeSteps
  import opened BridgeTheorems
  import opened BridgeAnswers
  import opened BridgeCalls
  import opened BridgeDemands

  /** An FCU command that could be handed over is pending; one that could not has failed at once as refused, and the
      failure is latched. */
  lemma OrderIsPendingOrFailed(k: Setup, s: Bridge, e: Env)
    ensures var n := DriveSession(k, s, e);
            |n.orders| > |s.orders| ==>
              var order, x := n.orders[|s.orders|], n.scene.session;
              && (e.sessionSends ==> x.pending == Some(order) && x.sentAt == e.steady && !x.acked)
              && (!e.sessionSends ==>
                    && x.pending == None && x.error == S.Error(order.kind, S.RequestRefused)
                    && (order.kind == S.Mode ==> x.modeFailed)
                    && (order.kind == S.Arm && order.arm == x.wantedArm ==> x.armFailed))
  {
    var steered := Steer(k, s, e.steady);
    EndTestDemands(k, steered, e.again);
    var ended := if S.HasFailed(steered.scene.session) then EndTest(k, steered, e.again) else steered;
    assert ended.orders == s.orders;
    OrderOutcome(ended.scene, e);
  }

  lemma OrderOutcome(c: Scene, e: Env)
    ensures NextOrder(c, e).Some? ==>
              var order, x := NextOrder(c, e).value, Ordered(c, e);
              && (e.sessionSends ==> x.pending == Some(order) && x.sentAt == e.steady && !x.acked)
              && (!e.sessionSends ==>
                    && x.pending == None && x.error == S.Error(order.kind, S.RequestRefused)
                    && (order.kind == S.Mode ==> x.modeFailed)
                    && (order.kind == S.Arm && order.arm == x.wantedArm ==> x.armFailed))
  {
  }

  /** A blade command that could be handed over is in flight since the drive; one that could not is a refusal: a fault, and
      for an ON a neutral to follow. */
  lemma DispatchIsInFlightOrFailed(k: Setup, s: Bridge, e: Env)
    ensures var n, b := Send(k, s, e), Send(k, s, e).blade.blade;
            && (!e.transport ==> n == s)
            && (|n.dispatches| > |s.dispatches| ==>
                  var d := n.dispatches[|s.dispatches|];
                  && |n.dispatches| == |s.dispatches| + 1 && d.at == e.steady && d.scene == s.scene
                  && (e.bladeSends ==> b.inFlight == Some(d.command) && b.sentAt == e.steady)
                  && (!e.bladeSends ==> b.inFlight == None && b.fault && b.requested == B.Off
                                        && (d.command.direction != B.Off ==> b.queuedNeutral)))
  {
  }

  /** What is known of the blade reaches its controller and is acted upon: ACKs and requests for neutral always. */
  lemma RepliesReachBlade(k: Setup, s: Bridge, token: nat, accepted: bool, at: nat, e: Env)
    ensures Step(k, s, EvBladeReply(token, accepted, at, e))
            == DriveBlade(k, Blade(k, s, B.EvComplete(token, accepted, at)), e)
  {
  }

  lemma NeutralReachesBlade(k: Setup, s: Bridge, at: nat, e: Env)
    ensures Step(k, s, EvNeutral(at, e)) == DriveBlade(k, Blade(k, s, B.EvForceOff(at)), e)
  {
  }

  /** Telemetry and servo outputs reach it while the FCU is connected, and change nothing otherwise. */
  lemma TelemetryReachesBlade(k: Setup, s: Bridge, source: int, stamp: int, count: int, countValid: bool, valid: bool,
                              rpm: int, at: nat, e: Env)
    ensures Step(k, s, EvTelemetry(source, stamp, count, countValid, valid, rpm, at, e))
            == if !s.scene.fcuConnected then s
               else DriveBlade(k, Blade(k, s, B.EvSample(source, stamp, count, countValid, valid, rpm, at)), e)
  {
  }

  lemma OutputReachesBlade(k: Setup, s: Bridge, pwm: int, at: nat, e: Env)
    ensures Step(k, s, EvServoOutput(pwm, at, e))
            == if !s.scene.fcuConnected then s else DriveBlade(k, Blade(k, s, B.EvOutput(pwm, at)), e)
  {
  }

  /** Before it drives anything, the safety callback has given up test and starts, forced the blade OFF, and demanded
      disarmed for safety: in HOLD if asked to, else in the present mode. */
  lemma SafetySecures(k: Setup, s: Bridge, hold: bool, at: nat, e1: Env, e2: Env)
    ensures var m := Secure(k, s, hold, at);
            && SafetyDisarm(k, s, hold, at, e1, e2) == DriveSession(k, DriveBlade(k, m, e1), e2)
            && m.starts == [] && !m.scene.bladeTest && ForcedOff(m.blade.blade) && m.blade.blade.requested == B.Off
            && m.scene.session.wantedMode == (if hold then S.Hold else s.scene.fcuMode)
            && !m.scene.session.wantedArm && m.scene.session.safetyDisarm
  {
    var quiet := s.(scene := s.scene.(bladeTest := false));
    CancelLeavesBlade(quiet);
    CancelLeavesScene(quiet);
  }

  /** An OFF call at rest, to a linked blade without a fault whose ACK is not overdue, with room and time for everyone. */
  predicate Restful(k: Setup, s: Bridge, call: Call, e: Env) {
    && s.scene.highLevel == Inactive && s.blade.blade.connected && !s.blade.blade.fault && |s.replies| < 32
    && call.enabled == 0 && call.transport && e.steady - call.at <= 20000
    && !(s.blade.blade.inFlight.Some? && e.steady - s.blade.blade.sentAt >= k.blade.ackTimeout)
    && forall i | 0 <= i < |s.replies| :: e.steady - s.replies[i].started <= 20000
  }

  // The caller has been told `true`, or it waits for the current request.
  ghost predicate Served(s: Bridge, n: Bridge, caller: nat) {
    || (exists a :: a in n.answers && a.caller == caller && a.success)
    || (exists r :: r in n.replies && r.caller == caller)
  }

  // OFF is requested without permission, so that no timer and no permission edge is ahead.
  predicate Resting(k: Setup, s: Bridge, e: Env) {
    var b := s.blade.blade;
    && s.starts == [] && !s.scene.bladeTest && b.connected && !b.fault && !b.allowed
    && !(b.inFlight.Some? && e.steady - b.sentAt >= k.blade.ackTimeout)
    && Wiring.PhaseTrue(b)
  }

  lemma BindRests(k: Setup, s: Bridge, c: Call, e: Env, held: multiset<nat>)
    requires Inv(k, s, held) && Restful(k, s, c, e)
    ensures var m := Bind(k, s, c);
            Inv(k, m, held) && Resting(k, m, e) && m.replies == s.replies
  {
    BindKeeps(k, s, c, held);
    CancelLeavesBlade(s);
    CancelAnswers(s);
    var calm := CancelStarts(s);
    var idle := Demand(calm.(scene := calm.scene.(bladeTest := false)), S.Hold, false, Emergency(calm.scene.safety));
    CancelLeavesScene(s);
    assert !BladeAllowed(k, idle.scene, c.at);
  }

  lemma RestIsUndisturbed(k: Setup, s: Bridge, e: Env)
    requires Resting(k, s, e) && s.blade.blade.requested == B.Off
    ensures Undisturbed(k, s, e)
  {
    Wiring.TimersFault(k.blade, s.blade.blade, e.steady);
  }

  lemma SessionKeepsReplies(k: Setup, s: Bridge, e: Env)
    ensures DriveSession(k, s, e).replies == s.replies
  {
    var steered := Steer(k, s, e.steady);
    CancelAnswers(steered.(scene := steered.scene.(bladeTest := false)));
  }

  // The last reply of a resting bridge is served by the drive.
  lemma LastIsServed(k: Setup, s: Bridge, e: Env, j: nat)
    requires Resting(k, s, e) && s.blade.blade.requested == B.Off && j < |s.replies|
    requires s.replies[j].revision == s.blade.blade.revision
    requires forall i | 0 <= i < |s.replies| :: e.steady - s.replies[i].started <= 20000
    ensures Served(s, DriveBlade(k, s, e), s.replies[j].caller)
  {
    RestIsUndisturbed(k, s, e);
    WaitingCallerIsTold(k, s, e, j);
    var n := DriveBlade(k, s, e);
    if a :| a in n.answers[|s.answers|..] && a.caller == s.replies[j].caller && a.success { assert a in n.answers; }
  }

  lemma SubmitRests(k: Setup, s: Bridge, caller: nat, c: Call, e: Env, held: multiset<nat>)
    requires Inv(k, s, held) && Resting(k, s, e) && |s.replies| < 32 && c.transport
    ensures var m := Submit(k, s, caller, B.Off, c.at, c.at, true);
            && m.blade.blade.requested == B.Off && Resting(k, m, e)
            && (|| (|m.answers| > 0 && m.answers[|m.answers| - 1].caller == caller && m.answers[|m.answers| - 1].success)
                || m.replies == s.replies + [Reply(caller, m.blade.blade.revision, c.at)])
  {
    SubmissionIsAnswered(k, s, caller, B.Off, c.at, c.at, true);
    Wiring.RequestIsAnswered(k.blade, s.blade.blade, B.Off, c.at);
    BladeKeeps(k, s, B.EvRequest(B.Off, c.at), held);
    OffRests(k.blade, s.blade.blade, c.at);
  }

  lemma OffRests(c: B.Config, b: B.Blade, now: nat)
    requires b.connected && !b.fault
    ensures var n := B.After(c, b, B.EvRequest(B.Off, now));
            && n.requested == B.Off && n.connected && !n.fault && n.allowed == b.allowed
            && (n.inFlight == b.inFlight || n.inFlight == None) && n.sentAt == b.sentAt
  {
  }

  /** The caller of an OFF at rest is never told `false` on account of its own call: since the permission is brought up to
      date before the caller is bound to a revision, it is told `true` or goes on waiting. */
  lemma OffCallerIsServed(k: Setup, before: seq<Event>, call: Call, e1: Env, e2: Env, e3: Env, e4: Env)
    requires Restful(k, Run(k, START, before), call, e1)
    ensures var s := Run(k, START, before);
            Served(s, Step(k, s, EvMowerControl(call, e1, e2, e3, e4)), |s.asked|)
  {
    StartKeeps(k);
    RunKeeps(k, START, before);
    CallStep(k, Run(k, START, before), call, e1, e2, e3, e4);
    CallIsServed(k, Run(k, START, before), call, e1, e2, e3, e4);
  }

  lemma CallIsServed(k: Setup, s: Bridge, call: Call, e1: Env, e2: Env, e3: Env, e4: Env)
    requires Inv(k, s, multiset{}) && Restful(k, s, call, e1)
    ensures Served(s, MowerControl(k, s, call, e1, e2, e3, e4), |s.asked|)
  {
    var caller, heard, held := |s.asked|, s.(asked := s.asked + [Some(B.Off)]), multiset{|s.asked|};
    HearKeeps(k, s, Some(B.Off));
    BindRests(k, heard, call, e1, held);
    var bound := Bind(k, heard, call);
    SubmitRests(k, bound, caller, call, e1, held);
    var submitted := Submit(k, bound, caller, B.Off, call.at, call.at, true);
    SubmittedIsServed(k, s, submitted, e1, caller);
    SessionServes(k, s, DriveBlade(k, submitted, e1), e2, caller);
    OffCall(k, s, call, e1, e2, e3, e4);
  }

  // Told `true` on submission, or last in the queue: the drive leaves the caller served.
  lemma SubmittedIsServed(k: Setup, s: Bridge, m: Bridge, e: Env, caller: nat)
    requires m.blade.blade.requested == B.Off && Resting(k, m, e)
    requires || (|m.answers| > 0 && m.answers[|m.answers| - 1].caller == caller && m.answers[|m.answers| - 1].success)
             || (&& |m.replies| > 0 && m.replies[|m.replies| - 1].caller == caller
                 && m.replies[|m.replies| - 1].revision == m.blade.blade.revision
                 && forall i | 0 <= i < |m.replies| :: e.steady - m.replies[i].started <= 20000)
    ensures Served(s, DriveBlade(k, m, e), caller)
  {
    var n := DriveBlade(k, m, e);
    if |m.answers| > 0 && m.answers[|m.answers| - 1].caller == caller && m.answers[|m.answers| - 1].success {
      DriveBladeGrows(k, m, e);
      assert n.answers[|m.answers| - 1] == m.answers[|m.answers| - 1] && n.answers[|m.answers| - 1] in n.answers;
    } else {
      LastIsServed(k, m, e, |m.replies| - 1);
    }
  }

  lemma OffCall(k: Setup, s: Bridge, call: Call, e1: Env, e2: Env, e3: Env, e4: Env)
    requires call.enabled == 0
    ensures var heard := s.(asked := s.asked + [Some(B.Off)]);
            MowerControl(k, s, call, e1, e2, e3, e4) == CallOff(k, heard, |s.asked|, call, e1, e2)
  {
  }

  lemma SessionServes(k: Setup, s: Bridge, m: Bridge, e: Env, caller: nat)
    requires Served(s, m, caller)
    ensures Served(s, DriveSession(k, m, e), caller)
  {
    DriveSessionGrows(k, m, e);
    SessionKeepsReplies(k, m, e);
    var n := DriveSession(k, m, e);
    if a :| a in m.answers && a.caller == caller && a.success {
      var i :| 0 <= i < |m.answers| && m.answers[i] == a;
      assert n.answers[i] == a && a in n.answers;
    }
  }
}
