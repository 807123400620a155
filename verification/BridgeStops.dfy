/** What stops the blade and ends a test, whatever else is going on. */
module BridgeStops {
  import opened Wrappers
  import B = BladeProtocol
  import S = SessionProtocol
  import Safety = BladeSafety
  import opened BridgeProtocol
  import opened BridgeInvariant
  import opened BridgeSteps
  import opened BridgeTheorems
  import opened BridgeAnswers
  import opened BridgeCalls
  import opened BridgeDemands

  lemma EventKeepsForced(k: Setup, s: Bridge, e: B.Event)
    requires ForcedOff(s.blade.blade) && !e.EvPoll?
    ensures ForcedOff(Blade(k, s, e).blade.blade)
  {
    RevisionBindsDirection(k.blade, s.blade.blade, e);
  }

  lemma EndTestKeepsForced(k: Setup, s: Bridge, at: nat)
    requires ForcedOff(s.blade.blade)
    ensures ForcedOff(EndTest(k, s, at).blade.blade)
  {
    CancelLeavesBlade(s.(scene := s.scene.(bladeTest := false)));
  }

  lemma {:induction false} AdmitKeepsForced(k: Setup, s: Bridge, i: nat, now: nat)
    requires ForcedOff(s.blade.blade)
    ensures ForcedOff(Admit(k, s, i, now).blade.blade)
    decreases |s.starts| - i
  {
    if i < |s.starts| {
      if Hopeless(s, s.starts[i], now) || S.Ready(s.scene.session) {
        EventKeepsForced(k, s, B.EvRequest(s.starts[i].direction, now));
        AdmitKeepsForced(k, Resolve(k, s, i, now), i, now);
      } else {
        AdmitKeepsForced(k, s, i + 1, now);
      }
    }
  }

  lemma ReviewKeepsForced(k: Setup, s: Bridge, e: Env)
    requires ForcedOff(s.blade.blade)
    ensures ForcedOff(Review(k, s, e).blade.blade)
  {
    EndTestKeepsForced(k, s, e.again);
    var tested := EndFailedTest(k, s, e);
    var permit := B.EvPermit(BladeAllowed(k, tested.scene, e.steady), e.steady);
    EventKeepsForced(k, tested, permit);
    EventKeepsForced(k, Blade(k, tested, permit), B.EvTick(e.steady));
    EndTestKeepsForced(k, Grant(k, tested, e), e.again);
  }

  lemma PrepareKeepsForced(k: Setup, s: Bridge, e: Env)
    requires ForcedOff(s.blade.blade)
    ensures ForcedOff(Prepare(k, s, e).blade.blade)
  {
    ReviewKeepsForced(k, s, e);
    var admitted := Admit(k, Review(k, s, e), 0, e.steady);
    AdmitKeepsForced(k, Review(k, s, e), 0, e.steady);
    EventKeepsForced(k, admitted, B.EvExpire(e.steady));
    var expired := ExpireService(k, admitted, e);
    ReapLeavesBlade(expired, 0, e.steady);
    EndTestKeepsForced(k, Reap(expired, 0, e.steady), e.again);
  }

  // A drive of a blade that was forced OFF leaves a neutral newest on the wire.
  lemma ForcedDriveStops(k: Setup, s: Bridge, e: Env)
    requires Inv(k, s, multiset{}) && ForcedOff(s.blade.blade) && e.transport
    ensures !Safety.OnWire(Safety.Newest(DriveBlade(k, s, e).blade.log))
  {
    PrepareKeepsForced(k, s, e);
    var m := Prepare(k, s, e);
    PollLeavesNoOrphan(k.blade, m.blade.blade, e.steady);
    Safety.Extend(m.blade.log, B.Noted(k.blade, m.blade.blade, B.EvPoll(e.steady)));
    var n := Blade(k, m, B.EvPoll(e.steady));
    var command := B.PollCommand(k.blade, m.blade.blade, e.steady).value;
    CompleteIsOffWire(k, n.(dispatches := n.dispatches + [Dispatch(command, e.steady, n.scene)]), command.token, e.again);
  }

  predicate Quiet(s: Bridge) { !Safety.OnWire(Safety.Newest(s.blade.log)) }

  /** A request for neutral, a new ESC slot of the blade, and a change of the FCU link each leave no ON newest on the wire,
      in every run, when they find the transport. */
  lemma NeutralStops(k: Setup, before: seq<Event>, at: nat, e1: Env)
    requires e1.transport
    ensures Quiet(Step(k, Run(k, START, before), EvNeutral(at, e1)))
  {
    StartKeeps(k);
    RunKeeps(k, START, before);
    NeutralQuiets(k, Run(k, START, before), at, e1);
    NeutralStep(k, Run(k, START, before), at, e1);
  }

  lemma NeutralStep(k: Setup, s: Bridge, at: nat, e1: Env)
    ensures Step(k, s, EvNeutral(at, e1)) == DriveBlade(k, Blade(k, s, B.EvForceOff(at)), e1)
  {
  }

  lemma NeutralQuiets(k: Setup, s: Bridge, at: nat, e1: Env)
    requires Inv(k, s, multiset{}) && e1.transport
    ensures Quiet(DriveBlade(k, Blade(k, s, B.EvForceOff(at)), e1))
  {
    BladeKeeps(k, s, B.EvForceOff(at), multiset{});
    ForcedDriveStops(k, Blade(k, s, B.EvForceOff(at)), e1);
  }

  lemma RemapStops(k: Setup, before: seq<Event>, slot: int, at: nat, e1: Env)
    requires e1.transport
    ensures Quiet(Step(k, Run(k, START, before), EvRemap(slot, at, e1)))
  {
    StartKeeps(k);
    RunKeeps(k, START, before);
    RemapQuiets(k, Run(k, START, before), slot, at, e1);
    RemapStep(k, Run(k, START, before), slot, at, e1);
  }

  lemma RemapStep(k: Setup, s: Bridge, slot: int, at: nat, e1: Env)
    ensures Step(k, s, EvRemap(slot, at, e1)) == Remap(k, s, slot, at, e1)
  {
  }

  lemma RemapQuiets(k: Setup, s: Bridge, slot: int, at: nat, e1: Env)
    requires Inv(k, s, multiset{}) && e1.transport
    ensures Quiet(Remap(k, s, slot, at, e1))
  {
    var mapped := s.(scene := s.scene.(bladeSlot := slot));
    SceneKeeps(k, s, mapped.scene, multiset{});
    BladeKeeps(k, mapped, B.EvForceOff(at), multiset{});
    ForcedDriveStops(k, Blade(k, mapped, B.EvForceOff(at)), e1);
  }

  /** Leaving a movement level stops the blade before anything else: afterwards, in every run, no ON is newest on the wire,
      no start is waiting, no test is running, and nothing but OFF is requested. */
  lemma LeavingStops(k: Setup, before: seq<Event>, at: nat, e1: Env, e2: Env, e3: Env)
    requires Moving(Run(k, START, before).scene) && e3.transport
    ensures var n := Step(k, Run(k, START, before), EvHighLevel(Inactive, at, e1, e2, e3));
            Quiet(n) && n.starts == [] && n.blade.blade.requested == B.Off && !n.scene.bladeTest
  {
    StartKeeps(k);
    RunKeeps(k, START, before);
    LevelStops(k, Run(k, START, before), at, e1, e2, e3);
    LevelStep(k, Run(k, START, before), at, e1, e2, e3);
  }

  lemma LevelStep(k: Setup, s: Bridge, at: nat, e1: Env, e2: Env, e3: Env)
    ensures Step(k, s, EvHighLevel(Inactive, at, e1, e2, e3)) == HighLevelReport(k, s, Inactive, at, e1, e2, e3)
  {
  }

  lemma SendStaysOff(k: Setup, s: Bridge, e: Env)
    requires Stopping(s)
    ensures Stopping(Send(k, s, e))
  {
    OffStays(k.blade, s.blade.blade, B.EvPoll(e.steady));
    var command := B.PollCommand(k.blade, s.blade.blade, e.steady);
    if command.Some? {
      OffStays(k.blade, B.After(k.blade, s.blade.blade, B.EvPoll(e.steady)),
               B.EvComplete(command.value.token, false, e.again));
    }
  }

  lemma DriveStaysOff(k: Setup, s: Bridge, e: Env)
    requires Stopping(s) && !s.scene.bladeTest
    ensures Stopping(DriveBlade(k, s, e)) && DriveBlade(k, s, e).scene == s.scene
  {
    PrepareStops(k, s, e);
    SendStaysOff(k, Prepare(k, s, e), e);
    DriveBladeLeavesScene(k, s, e);
  }

  lemma LevelStops(k: Setup, s: Bridge, at: nat, e1: Env, e2: Env, e3: Env)
    requires Inv(k, s, multiset{}) && Moving(s.scene) && e3.transport
    ensures var n := HighLevelReport(k, s, Inactive, at, e1, e2, e3);
            Quiet(n) && Stopping(n) && !n.scene.bladeTest
  {
    var known := s.(scene := s.scene.(highLevel := Inactive));
    SceneKeeps(k, s, known.scene, multiset{});
    RetireKeeps(k, known, at, e1, multiset{});
    var calm := known.(scene := known.scene.(bladeTest := false));
    CancelLeavesBlade(calm);
    CancelLeavesScene(calm);
    DriveStaysOff(k, Abandon(k, known, at), e1);
    var retired := Retire(k, known, at, e1);
    SessionStaysOff(k, retired, e2);
    DriveSessionKeeps(k, retired, e2, multiset{});
    var steered := DriveSession(k, retired, e2);
    DriveStaysOff(k, steered, e3);
    DriveStops(k, steered, e3, multiset{});
  }

  lemma SessionStaysOff(k: Setup, s: Bridge, e: Env)
    requires Stopping(s) && !s.scene.bladeTest
    ensures Stopping(DriveSession(k, s, e)) && !DriveSession(k, s, e).scene.bladeTest
  {
  }

  /** A change of the link stops the blade: afterwards, in every run, no ON is newest on the wire. */
  lemma LinkChangeStops(k: Setup, before: seq<Event>, connected: bool, armed: bool, mode: S.FcuMode, at: nat,
                        e1: Env, e2: Env)
    requires connected != Run(k, START, before).scene.fcuConnected && e2.transport
    ensures Quiet(FcuReport(k, Run(k, START, before), connected, armed, mode, at, e1, e2))
  {
    var s := Run(k, START, before);
    StartKeeps(k);
    RunKeeps(k, START, before);
    RecordedKeeps(k, s, connected, armed, mode, at, multiset{});
    var recorded := Recorded(Relink(k, s, connected, at), connected, armed, mode, at);
    RelinkForces(k, s, connected, at);
    var steered := DriveSession(k, recorded, e1);
    DriveSessionKeeps(k, recorded, e1, multiset{});
    SessionKeepsForced(k, recorded, e1);
    ForcedDriveStops(k, steered, e2);
  }

  lemma RelinkForces(k: Setup, s: Bridge, connected: bool, at: nat)
    requires Linked(s) && connected != s.scene.fcuConnected
    ensures ForcedOff(Relink(k, s, connected, at).blade.blade)
  {
    var linked := Blade(k, s, B.EvConnect(connected, at));
    CancelLeavesBlade(if connected then linked else linked.(scene := Lost(linked.scene)));
  }

  lemma SessionKeepsForced(k: Setup, s: Bridge, e: Env)
    requires ForcedOff(s.blade.blade)
    ensures ForcedOff(DriveSession(k, s, e).blade.blade)
  {
    EndTestKeepsForced(k, Steer(k, s, e.steady), e.again);
  }

  /** What a report of the FCU records before both controllers are driven: its state and the time; and if the link is gone,
      that nothing is known of the switch and the wheels any more, and every waiting start is answered. */
  lemma ReportRecords(k: Setup, s: Bridge, connected: bool, armed: bool, mode: S.FcuMode, at: nat, e1: Env, e2: Env)
    ensures var t := Recorded(Relink(k, s, connected, at), connected, armed, mode, at);
            && FcuReport(k, s, connected, armed, mode, at, e1, e2) == DriveAll(k, t, e1, e2)
            && t.blade == B.Step(k.blade, s.blade, B.EvConnect(connected, at))
            && t.scene.fcuConnected == connected && t.scene.fcuArmed == armed && t.scene.fcuMode == mode
            && t.scene.fcuReceipt == at
            && t.scene.session == S.Observe(s.scene.session, connected, armed, mode)
            && (connected ==> t.scene.safety == s.scene.safety && t.starts == s.starts && t.answers == s.answers)
            && (!connected ==>
                  && t.scene.safety.hardware == SwitchUnknown && !t.scene.safety.hardwareLatched
                  && !t.scene.safety.liftKnown && t.scene.safety.tiltLatched == s.scene.safety.tiltLatched
                  && t.scene.safety.serviceActive == s.scene.safety.serviceActive)
            && (!connected && s.scene.fcuConnected ==> t.starts == [] && |t.answers| == |s.answers| + |s.starts|)
  {
    var linked := Blade(k, s, B.EvConnect(connected, at));
    var known := if connected then linked else linked.(scene := Lost(linked.scene));
    CancelLeavesBlade(known);
    CancelLeavesScene(known);
    CancelAnswers(known);
  }

  /** The deadline of the service withdraws an ON that has not come about: if, when a drive reviews the replies, one waits
      for the current request longer than 20 s and the blade has not arrived, nothing but OFF is requested afterwards,
      and no ON is newest on the wire. */
  lemma DeadlineWithdraws(k: Setup, before: seq<Event>, e: Env, j: nat)
    requires e.transport
    requires var m := Admit(k, Review(k, Run(k, START, before), e), 0, e.steady);
             && j < |m.replies| && m.replies[j].revision == m.blade.blade.revision
             && e.steady - m.replies[j].started > 20000 && !Arrived(m.blade.blade)
    ensures var n := DriveBlade(k, Run(k, START, before), e); n.blade.blade.requested == B.Off && Quiet(n)
  {
    var s := Run(k, START, before);
    ExpiredStops(k, Admit(k, Review(k, s, e), 0, e.steady), e, j);
    assert DriveBlade(k, s, e) == Finish(k, Admit(k, Review(k, s, e), 0, e.steady), e);
  }

  // What a drive does once the waiting starts have been reviewed.
  function Finish(k: Setup, s: Bridge, e: Env): Bridge {
    Send(k, EndIdleTest(k, Reap(ExpireService(k, s, e), 0, e.steady), e), e)
  }

  lemma ExpiredStops(k: Setup, s: Bridge, e: Env, j: nat)
    requires e.transport && j < |s.replies| && s.replies[j].revision == s.blade.blade.revision
    requires e.steady - s.replies[j].started > 20000 && !Arrived(s.blade.blade)
    ensures Finish(k, s, e).blade.blade.requested == B.Off && Quiet(Finish(k, s, e))
  {
    var expired := ExpireService(k, s, e);
    assert OverdueReply(s, e.steady);
    assert expired.blade.blade.requested == B.Off && ForcedOff(expired.blade.blade);
    ReapLeavesBlade(expired, 0, e.steady);
    var reaped := Reap(expired, 0, e.steady);
    EndTestKeepsForced(k, reaped, e.again);
    CancelLeavesBlade(reaped.(scene := reaped.scene.(bladeTest := false)));
    SendForced(k, EndIdleTest(k, reaped, e), e);
  }

  lemma SendForced(k: Setup, s: Bridge, e: Env)
    requires ForcedOff(s.blade.blade) && s.blade.blade.requested == B.Off && e.transport
    ensures Send(k, s, e).blade.blade.requested == B.Off && Quiet(Send(k, s, e))
  {
    var b := s.blade.blade;
    PollLeavesNoOrphan(k.blade, b, e.steady);
    Safety.Extend(s.blade.log, B.Noted(k.blade, b, B.EvPoll(e.steady)));
    OffStays(k.blade, b, B.EvPoll(e.steady));
    var n := Blade(k, s, B.EvPoll(e.steady));
    var command := B.PollCommand(k.blade, b, e.steady).value;
    OffStays(k.blade, n.blade.blade, B.EvComplete(command.token, false, e.again));
    CompleteIsOffWire(k, n.(dispatches := n.dispatches + [Dispatch(command, e.steady, n.scene)]), command.token, e.again);
  }

  /** An isolated test ends with a drive of the blade that finds the session failed, the FCU gone, a start overdue, or
      nothing waiting and nothing but OFF requested; a test that ends has demanded HOLD and disarmed. */
  lemma DriveEndsTest(k: Setup, s: Bridge, e: Env)
    requires s.scene.bladeTest && s.scene.highLevel == Inactive
    ensures var n, x := DriveBlade(k, s, e), s.scene.session;
            var late := exists i :: 0 <= i < |s.starts| && e.steady - s.starts[i].started > 20000;
            && (x.modeFailed || x.armFailed || !s.scene.fcuConnected || late ==> !n.scene.bladeTest)
            && (n.scene.bladeTest ==> n.starts != [] || n.blade.blade.requested != B.Off || n.blade.blade.fault)
            && (!n.scene.bladeTest ==> n.scene.session.wantedMode == S.Hold && !n.scene.session.wantedArm)
  {
    ReviewEndsTest(k, s, e);
    var reviewed := Review(k, s, e);
    AdmitLeavesScene(k, reviewed, 0, e.steady);
    var expired := ExpireService(k, Admit(k, reviewed, 0, e.steady), e);
    ReapLeavesScene(expired, 0, e.steady);
    EndTestDemands(k, Reap(expired, 0, e.steady), e.again);
    SendFaults(k, Prepare(k, s, e), e);
  }

  lemma ReviewEndsTest(k: Setup, s: Bridge, e: Env)
    requires s.scene.bladeTest && s.scene.highLevel == Inactive
    ensures var n, x := Review(k, s, e), s.scene.session;
            var late := exists i :: 0 <= i < |s.starts| && e.steady - s.starts[i].started > 20000;
            && n.scene.highLevel == Inactive
            && (x.modeFailed || x.armFailed || !s.scene.fcuConnected || late ==> !n.scene.bladeTest)
            && (!n.scene.bladeTest ==> n.scene.session.wantedMode == S.Hold && !n.scene.session.wantedArm)
  {
    var tested := EndFailedTest(k, s, e);
    EndTestDemands(k, s, e.again);
    GrantLeaves(k, tested, e);
    EndTestDemands(k, Grant(k, tested, e), e.again);
  }

  lemma GrantLeaves(k: Setup, s: Bridge, e: Env)
    ensures Grant(k, s, e).scene == s.scene && Grant(k, s, e).starts == s.starts
  {
  }

  lemma SendFaults(k: Setup, s: Bridge, e: Env)
    ensures var n := Send(k, s, e);
            && n.scene == s.scene && n.starts == s.starts
            && (n.blade.blade.requested == s.blade.blade.requested || n.blade.blade.fault)
  {
    var b := s.blade.blade;
    var acked := B.ExpireAck(k.blade, b, e.steady);
    var sampled := B.ExpireSample(k.blade, acked, e.steady);
    assert acked.requested == b.requested || acked.fault;
    assert sampled.requested == acked.requested || sampled.fault;
    assert acked.fault ==> sampled.fault;
    assert B.Tick(k.blade, b, e.steady).requested == b.requested || B.Tick(k.blade, b, e.steady).fault;
  }
}
