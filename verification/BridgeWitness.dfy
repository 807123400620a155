/** The composed bridge does start a blade: a run in which an ON is dispatched, so that the guarantees about
    dispatched ONs speak of something. */
module BridgeWitness {
  import opened Wrappers
  import B = BladeProtocol
  import S = SessionProtocol
  import Safety = BladeSafety
  import opened BridgeProtocol

  const SETUP := Setup(Safety.EXAMPLE, false, true)

  // Everything is available and every send succeeds.
  function Good(at: nat): Env { Env(at, at, true, true, true, true, true) }

  /** Nobody waits, and the controllers and the scene are these. */
  predicate Is(s: Bridge, b: B.Blade, c: Scene) {
    s.starts == [] && s.replies == [] && s.blade.blade == b && s.scene == c && !c.bladeTest
  }

  function Granted(b: B.Blade, c: Scene, at: nat): B.Blade {
    B.Tick(SETUP.blade, B.Permit(b, BladeAllowed(SETUP, c, at), at), at)
  }

  function Driven1(b: B.Blade, c: Scene, at: nat): B.Blade { B.Poll(SETUP.blade, Granted(b, c, at), at) }

  function Steered(c: Scene, at: nat): Scene {
    var emergency := Emergency(c.safety);
    var wanted := S.Demand(c.session, WantedMode(SETUP, c), !emergency && (Moving(c) || c.bladeTest), emergency);
    c.(session := S.Tick(wanted, at))
  }

  function Directed(c: Scene, at: nat): Scene { c.(session := Ordered(Steered(c, at), Good(at))) }

  lemma CalmDrive(s: Bridge, b: B.Blade, c: Scene, at: nat)
    requires Is(s, b, c)
    ensures Is(DriveBlade(SETUP, s, Good(at)), Driven1(b, c, at), c)
  {
    var e := Good(at);
    assert EndFailedTest(SETUP, s, e) == s;
    var granted := Grant(SETUP, s, e);
    assert Is(granted, Granted(b, c, at), c);
    assert Review(SETUP, s, e) == granted;
    assert Admit(SETUP, granted, 0, at) == granted;
    assert ExpireService(SETUP, granted, e) == granted && Reap(granted, 0, at) == granted;
    assert Prepare(SETUP, s, e) == granted;
  }

  lemma CalmSteer(s: Bridge, b: B.Blade, c: Scene, at: nat)
    requires Is(s, b, c)
    ensures Is(DriveSession(SETUP, s, Good(at)), b, Directed(c, at))
  {
    assert Is(Steer(SETUP, s, at), b, Steered(c, at));
  }

  lemma CalmDriveAll(s: Bridge, b: B.Blade, c: Scene, at: nat)
    requires Is(s, b, c)
    ensures Is(DriveAll(SETUP, s, Good(at), Good(at)), Driven1(b, Directed(c, at), at), Directed(c, at))
  {
    CalmSteer(s, b, c, at);
    CalmDrive(DriveSession(SETUP, s, Good(at)), b, Directed(c, at), at);
  }

  function Heard(c: Scene, armed: bool, mode: S.FcuMode, at: nat): Scene {
    c.(fcuReceipt := at, fcuConnected := true, fcuArmed := armed, fcuMode := mode,
       session := S.Observe(c.session, true, armed, mode))
  }

  lemma CalmReport(s: Bridge, b: B.Blade, c: Scene, armed: bool, mode: S.FcuMode, at: nat)
    requires Is(s, b, c)
    ensures var next := Directed(Heard(c, armed, mode, at), at);
            Is(FcuReport(SETUP, s, true, armed, mode, at, Good(at), Good(at)),
               Driven1(B.Connect(b, true, at), next, at), next)
  {
    var linked := Relink(SETUP, s, true, at);
    assert Is(linked, B.Connect(b, true, at), c);
    var recorded := Recorded(linked, true, armed, mode, at);
    assert Is(recorded, B.Connect(b, true, at), Heard(c, armed, mode, at));
    CalmDriveAll(recorded, B.Connect(b, true, at), Heard(c, armed, mode, at), at);
  }

  function Answered(c: Scene, serial: nat, at: nat): Scene {
    c.(session := S.Complete(c.session, serial, true, at))
  }

  lemma CalmFcuReply(s: Bridge, b: B.Blade, c: Scene, serial: nat, at: nat)
    requires Is(s, b, c)
    ensures var next := Directed(Answered(c, serial, at), at);
            Is(FcuReply(SETUP, s, serial, true, at, Good(at), Good(at)), Driven1(b, next, at), next)
  {
    var answered := s.(scene := Answered(c, serial, at));
    CalmDriveAll(answered, b, Answered(c, serial, at), at);
  }

  lemma CalmLevel(s: Bridge, b: B.Blade, c: Scene, at: nat)
    requires Is(s, b, c) && c.highLevel == Inactive
    ensures var next := Directed(c.(highLevel := ManualMowing), at);
            Is(HighLevelReport(SETUP, s, ManualMowing, at, Good(at), Good(at), Good(at)), Driven1(b, next, at), next)
  {
    var relevelled := s.(scene := c.(highLevel := ManualMowing));
    assert Relevel(SETUP, s, ManualMowing, at, Good(at)) == relevelled;
    CalmDriveAll(relevelled, b, c.(highLevel := ManualMowing), at);
  }

  lemma CalmBladeEvent(s: Bridge, b: B.Blade, c: Scene, e: B.Event, at: nat)
    requires Is(s, b, c)
    ensures Is(DriveBlade(SETUP, Blade(SETUP, s, e), Good(at)), Driven1(B.After(SETUP.blade, b, e), c, at), c)
  {
    CalmDrive(Blade(SETUP, s, e), B.After(SETUP.blade, b, e), c, at);
  }

  ghost predicate Reachable(s: Bridge) { exists events: seq<Event> :: s == Run(SETUP, START, events) }

  lemma {:induction false} RunSnoc(s: Bridge, events: seq<Event>, e: Event)
    ensures Run(SETUP, s, events + [e]) == Step(SETUP, Run(SETUP, s, events), e)
    decreases |events|
  {
    if events == [] {
      assert events + [e] == [e];
      assert Run(SETUP, Step(SETUP, s, e), []) == Step(SETUP, s, e);
    } else {
      assert (events + [e])[1..] == events[1..] + [e];
      RunSnoc(Step(SETUP, s, events[0]), events[1..], e);
    }
  }

  lemma Reaches(s: Bridge, e: Event)
    requires Reachable(s)
    ensures Reachable(Step(SETUP, s, e))
  {
    var events: seq<Event> :| s == Run(SETUP, START, events);
    RunSnoc(START, events, e);
  }

  lemma ReportStep(s: Bridge, armed: bool, mode: S.FcuMode, at: nat)
    ensures Step(SETUP, s, EvFcu(true, armed, mode, at, Good(at), Good(at)))
            == FcuReport(SETUP, s, true, armed, mode, at, Good(at), Good(at))
  {
  }

  lemma ReportReaches(s: Bridge, armed: bool, mode: S.FcuMode, at: nat)
    requires Reachable(s)
    ensures Reachable(FcuReport(SETUP, s, true, armed, mode, at, Good(at), Good(at)))
  {
    ReportStep(s, armed, mode, at);
    Reaches(s, EvFcu(true, armed, mode, at, Good(at), Good(at)));
  }

  lemma ReplyStep(s: Bridge, serial: nat, at: nat)
    ensures Step(SETUP, s, EvFcuReply(serial, true, at, Good(at), Good(at)))
            == FcuReply(SETUP, s, serial, true, at, Good(at), Good(at))
  {
  }

  lemma ReplyReaches(s: Bridge, serial: nat, at: nat)
    requires Reachable(s)
    ensures Reachable(FcuReply(SETUP, s, serial, true, at, Good(at), Good(at)))
  {
    ReplyStep(s, serial, at);
    Reaches(s, EvFcuReply(serial, true, at, Good(at), Good(at)));
  }

  lemma MoveStep(s: Bridge, at: nat)
    ensures Step(SETUP, s, EvHighLevel(ManualMowing, at, Good(at), Good(at), Good(at)))
            == HighLevelReport(SETUP, s, ManualMowing, at, Good(at), Good(at), Good(at))
  {
  }

  lemma MoveReaches(s: Bridge, at: nat)
    requires Reachable(s)
    ensures Reachable(HighLevelReport(SETUP, s, ManualMowing, at, Good(at), Good(at), Good(at)))
  {
    MoveStep(s, at);
    Reaches(s, EvHighLevel(ManualMowing, at, Good(at), Good(at), Good(at)));
  }

  lemma AcknowledgeStep(s: Bridge, token: nat, at: nat)
    ensures Step(SETUP, s, EvBladeReply(token, true, at, Good(at)))
            == DriveBlade(SETUP, Blade(SETUP, s, B.EvComplete(token, true, at)), Good(at))
  {
  }

  lemma AcknowledgeReaches(s: Bridge, token: nat, at: nat)
    requires Reachable(s)
    ensures Reachable(DriveBlade(SETUP, Blade(SETUP, s, B.EvComplete(token, true, at)), Good(at)))
  {
    AcknowledgeStep(s, token, at);
    Reaches(s, EvBladeReply(token, true, at, Good(at)));
  }

  // One callback of a reachable calm bridge.
  lemma Report(s: Bridge, b: B.Blade, c: Scene, armed: bool, mode: S.FcuMode, at: nat) returns (t: Bridge)
    requires Reachable(s) && Is(s, b, c)
    ensures var next := Directed(Heard(c, armed, mode, at), at);
            Reachable(t) && Is(t, Driven1(B.Connect(b, true, at), next, at), next)
  {
    CalmReport(s, b, c, armed, mode, at);
    t := FcuReport(SETUP, s, true, armed, mode, at, Good(at), Good(at));
    ReportReaches(s, armed, mode, at);
  }

  lemma Reply(s: Bridge, b: B.Blade, c: Scene, serial: nat, at: nat) returns (t: Bridge)
    requires Reachable(s) && Is(s, b, c)
    ensures var next := Directed(Answered(c, serial, at), at); Reachable(t) && Is(t, Driven1(b, next, at), next)
  {
    CalmFcuReply(s, b, c, serial, at);
    t := FcuReply(SETUP, s, serial, true, at, Good(at), Good(at));
    ReplyReaches(s, serial, at);
  }

  lemma Move(s: Bridge, b: B.Blade, c: Scene, at: nat) returns (t: Bridge)
    requires Reachable(s) && Is(s, b, c) && c.highLevel == Inactive
    ensures var next := Directed(c.(highLevel := ManualMowing), at);
            Reachable(t) && Is(t, Driven1(b, next, at), next)
  {
    CalmLevel(s, b, c, at);
    t := HighLevelReport(SETUP, s, ManualMowing, at, Good(at), Good(at), Good(at));
    MoveReaches(s, at);
  }

  lemma Acknowledge(s: Bridge, b: B.Blade, c: Scene, token: nat, at: nat) returns (t: Bridge)
    requires Reachable(s) && Is(s, b, c)
    ensures Reachable(t) && Is(t, Driven1(B.Complete(b, token, true, at), c, at), c)
  {
    CalmBladeEvent(s, b, c, B.EvComplete(token, true, at), at);
    assert B.After(SETUP.blade, b, B.EvComplete(token, true, at)) == B.Complete(b, token, true, at);
    t := DriveBlade(SETUP, Blade(SETUP, s, B.EvComplete(token, true, at)), Good(at));
    AcknowledgeReaches(s, token, at);
  }

  lemma Sample(s: Bridge, b: B.Blade, c: Scene, stamp: int, at: nat) returns (t: Bridge)
    requires Reachable(s) && Is(s, b, c) && c.fcuConnected
    ensures Reachable(t) && Is(t, Driven1(B.Sample(SETUP.blade, b, 1, stamp, 0, false, true, 0, at), c, at), c)
  {
    CalmBladeEvent(s, b, c, B.EvSample(1, stamp, 0, false, true, 0, at), at);
    t := DriveBlade(SETUP, Blade(SETUP, s, B.EvSample(1, stamp, 0, false, true, 0, at)), Good(at));
    Reaches(s, EvTelemetry(1, stamp, 0, false, true, 0, at, Good(at)));
  }

  // The blade after its neutral was acknowledged at 10 ms, and n standstill samples later.
  const QUIET := B.INITIAL.(phase := B.Idle, confirmed := B.Off, connected := true, queuedNeutral := false, token := 2,
                            revision := 1, neutralSince := 10, waitSince := 10)

  function Standing(n: nat): B.Blade
    requires n > 0
  {
    QUIET.(sampleSource := 1, sampleStamp := n, sampleReceipt := 300 * n, sampleZero := true, stopSince := 300,
           stopSamples := n % B.UINT32)
  }

  const IDLE := S.INITIAL.(mode := S.Hold, connected := true)

  // The scene with a session, a mode and an arming state.
  function Seen(session: S.Session, level: HighLevel, mode: S.FcuMode, armed: bool, at: int): Scene {
    Scene(session, Safety(Released, false, false, false, false, false, false, false, false), level, false, true, armed,
          mode, at, 10, 2)
  }

  const SENT := B.INITIAL.(connected := true, queuedNeutral := false, token := 2, revision := 1,
                           inFlight := Some(B.Command(2, 3, 1500, B.Off)))

  // Linked, with the safety switch not yet heard of.
  const LINKED := Seen(IDLE, Inactive, S.Hold, false, 0).(safety := START.scene.safety, safetyReceipt := -1)

  lemma LinkScene()
    ensures Directed(Heard(START.scene, false, S.Hold, 0), 0) == LINKED
  {
  }

  lemma LinkBlade()
    ensures Driven1(B.Connect(B.INITIAL, true, 0), LINKED, 0) == SENT
    ensures Driven1(B.Complete(SENT, 2, true, 10), LINKED, 10) == QUIET
  {
    var c := B.Connect(B.INITIAL, true, 0);
    assert Granted(c, LINKED, 0) == c;
    var d := B.Complete(SENT, 2, true, 10);
    assert Granted(d, LINKED, 10) == d;
  }

  lemma LinkUp() returns (s: Bridge)
    ensures Reachable(s) && Is(s, QUIET, Seen(IDLE, Inactive, S.Hold, false, 0))
  {
    assert START == Run(SETUP, START, []);
    LinkScene();
    LinkBlade();
    var one := Report(START, B.INITIAL, START.scene, false, S.Hold, 0);
    var two := Acknowledge(one, SENT, LINKED, 2, 10);
    var e3 := EvSwitch(true, true, 10);
    s := Step(SETUP, two, e3);
    Reaches(two, e3);
  }

  lemma StandBlade(b: B.Blade, n: nat)
    requires 0 < n < 10 && b == if n == 1 then QUIET else Standing(n - 1)
    ensures var c, at := Seen(IDLE, Inactive, S.Hold, false, 0), 300 * n;
            Driven1(B.Sample(SETUP.blade, b, 1, n, 0, false, true, 0, at), c, at) == Standing(n)
  {
    var c, at := Seen(IDLE, Inactive, S.Hold, false, 0), 300 * n;
    assert B.Sample(SETUP.blade, b, 1, n, 0, false, true, 0, at) == Standing(n);
    assert Granted(Standing(n), c, at) == Standing(n);
  }

  lemma Stand(s: Bridge, b: B.Blade, n: nat) returns (t: Bridge)
    requires Reachable(s) && 0 < n < 10 && Is(s, b, Seen(IDLE, Inactive, S.Hold, false, 0))
    requires b == if n == 1 then QUIET else Standing(n - 1)
    ensures Reachable(t) && Is(t, Standing(n), Seen(IDLE, Inactive, S.Hold, false, 0))
  {
    StandBlade(b, n);
    t := Sample(s, b, Seen(IDLE, Inactive, S.Hold, false, 0), n, 300 * n);
  }

  lemma StandStill() returns (s: Bridge)
    ensures Reachable(s) && Is(s, Standing(5), Seen(IDLE, Inactive, S.Hold, false, 0))
  {
    s := LinkUp();
    s := Stand(s, QUIET, 1);
    s := Stand(s, Standing(1), 2);
    s := Stand(s, Standing(2), 3);
    s := Stand(s, Standing(3), 4);
    s := Stand(s, Standing(4), 5);
  }

  const WANTED := IDLE.(wantedMode := S.Manual, wantedArm := true)

  const ASKED := WANTED.(serial := 1, sentAt := 1500, pending := Some(S.Command(1, S.Mode, S.Manual, false)))

  const ARMING := WANTED.(mode := S.Manual, serial := 2, sentAt := 1500,
                          pending := Some(S.Command(2, S.Arm, S.Manual, true)))

  const READY := WANTED.(mode := S.Manual, armed := true, acked := true, serial := 2, sentAt := 1500)

  lemma AskMode() returns (s: Bridge)
    ensures Reachable(s) && Is(s, Standing(5), Seen(ASKED, ManualMowing, S.Hold, false, 0))
  {
    var still := StandStill();
    var asking := Seen(ASKED, ManualMowing, S.Hold, false, 0);
    assert Directed(Seen(IDLE, ManualMowing, S.Hold, false, 0), 1500) == asking;
    assert Driven1(Standing(5), asking, 1500) == Standing(5);
    s := Move(still, Standing(5), Seen(IDLE, Inactive, S.Hold, false, 0), 1500);
  }

  lemma AskArm() returns (s: Bridge)
    ensures Reachable(s) && Is(s, Standing(5), Seen(ARMING, ManualMowing, S.Manual, false, 1500))
  {
    var asked := AskMode();
    var reported := Seen(ASKED.(mode := S.Manual), ManualMowing, S.Manual, false, 1500);
    assert Directed(Heard(Seen(ASKED, ManualMowing, S.Hold, false, 0), false, S.Manual, 1500), 1500) == reported;
    var seen := Report(asked, Standing(5), Seen(ASKED, ManualMowing, S.Hold, false, 0), false, S.Manual, 1500);
    StaysStanding(reported);
    var arming := Seen(ARMING, ManualMowing, S.Manual, false, 1500);
    assert Directed(Answered(reported, 1, 1500), 1500) == arming;
    s := Reply(seen, Standing(5), reported, 1, 1500);
    StaysStanding(arming);
  }

  lemma StaysStanding(c: Scene)
    requires !BladeAllowed(SETUP, c, 1500)
    ensures Driven1(Standing(5), c, 1500) == Standing(5) && B.Connect(Standing(5), true, 1500) == Standing(5)
  {
    assert Granted(Standing(5), c, 1500) == Standing(5);
  }

  lemma BecomeReady() returns (s: Bridge)
    ensures Reachable(s) && Is(s, Standing(5).(allowed := true), Seen(READY, ManualMowing, S.Manual, true, 1500))
  {
    var asked := AskArm();
    var arming := Seen(ARMING, ManualMowing, S.Manual, false, 1500);
    var reported := Seen(ARMING.(armed := true), ManualMowing, S.Manual, true, 1500);
    assert Directed(Heard(arming, true, S.Manual, 1500), 1500) == reported;
    var seen := Report(asked, Standing(5), arming, true, S.Manual, 1500);
    StaysStanding(reported);
    var ready := Seen(READY, ManualMowing, S.Manual, true, 1500);
    assert Directed(Answered(reported, 2, 1500), 1500) == ready;
    s := Reply(seen, Standing(5), reported, 2, 1500);
    var permitted := Standing(5).(allowed := true);
    assert Granted(Standing(5), ready, 1500) == permitted;
  }

  const PERMITTED := Standing(5).(allowed := true)

  const MOWING := Seen(READY, ManualMowing, S.Manual, true, 1500)

  const REQUESTED := PERMITTED.(requested := B.Forward, revision := 2, phase := B.WaitStop, waitSince := 1500)

  lemma MowingStays()
    ensures Directed(MOWING, 1500) == MOWING && Driven1(PERMITTED, MOWING, 1500) == PERMITTED
    ensures B.Permit(PERMITTED, BladeAllowed(SETUP, MOWING, 1500), 1500) == PERMITTED
  {
    assert Granted(PERMITTED, MOWING, 1500) == PERMITTED;
  }

  lemma RequestStarts()
    ensures B.Request(SETUP.blade, PERMITTED, B.Forward, 1500) == REQUESTED
    ensures B.Answer(SETUP.blade, PERMITTED, B.Forward, 1500) == B.Pending
    ensures Granted(REQUESTED, MOWING, 1500) == REQUESTED
    ensures var command := B.PollCommand(SETUP.blade, REQUESTED, 1500);
            command.Some? && command.value.direction == B.Forward
  {
  }

  // The caller's request waits for the blade, and the drive sends it.
  lemma RequestIsSent(s: Bridge, caller: nat)
    requires s.starts == [] && s.replies == [BridgeProtocol.Reply(caller, 2, 1500)]
    requires s.blade.blade == REQUESTED && s.scene == MOWING
    ensures SendsOn(DriveBlade(SETUP, s, Good(1500)))
  {
    var e := Good(1500);
    RequestStarts();
    assert EndFailedTest(SETUP, s, e) == s;
    var granted := Grant(SETUP, s, e);
    assert granted.blade.blade == REQUESTED && granted.replies == s.replies && granted.scene == MOWING;
    assert Review(SETUP, s, e) == granted && Admit(SETUP, granted, 0, 1500) == granted;
    assert ExpireService(SETUP, granted, e) == granted;
    assert Reap(granted, 1, 1500) == granted;
    assert Reap(granted, 0, 1500) == granted;
    assert Prepare(SETUP, s, e) == granted;
    assert SendsOn(Send(SETUP, granted, e));
  }

  predicate SendsOn(s: Bridge) {
    |s.dispatches| > 0 && B.IsOn(s.dispatches[|s.dispatches| - 1].command.direction)
  }

  lemma CallerIsAdmitted(s: Bridge, caller: nat, c: Call)
    requires Is(s, PERMITTED, MOWING) && c.at == 1500
    ensures SendsOn(Admitted(SETUP, s, caller, B.Forward, c, Good(1500)))
  {
    MowingStays();
    RequestStarts();
    var permitted := Blade(SETUP, s, B.EvPermit(BladeAllowed(SETUP, MOWING, 1500), 1500));
    assert Is(permitted, PERMITTED, MOWING);
    RequestIsSent(Submit(SETUP, permitted, caller, B.Forward, 1500, 1500, true), caller);
  }

  lemma CallerTurnsOn(s: Bridge, caller: nat, c: Call)
    requires Is(s, PERMITTED, MOWING) && c.at == 1500 && c.transport
    ensures var g := Good(1500); SendsOn(CallOn(SETUP, s, caller, B.Forward, c, g, g, g, g))
  {
    MowingStays();
    var g := Good(1500);
    CalmDriveAll(s, PERMITTED, MOWING, 1500);
    var cleared := Clear(SETUP, s, B.Forward, g, g);
    assert Is(cleared, PERMITTED, MOWING);
    CalmSteer(cleared, PERMITTED, MOWING, 1500);
    CallerIsAdmitted(DriveSession(SETUP, cleared, g), caller, c);
  }

  /** An ON is dispatched in some run of the composed bridge. */
  lemma AnOnIsDispatched()
    ensures exists events: seq<Event> :: SendsOn(Run(SETUP, START, events))
  {
    var s := BecomeReady();
    var g, c := Good(1500), Call(1, 0, true, 1500);
    CallerTurnsOn(s.(asked := s.asked + [Wish(c)]), |s.asked|, c);
    CallStep(s, c);
    Reaches(s, EvMowerControl(c, g, g, g, g));
  }

  lemma CallStep(s: Bridge, c: Call)
    requires Wish(c) == Some(B.Forward)
    ensures var g := Good(1500);
            Step(SETUP, s, EvMowerControl(c, g, g, g, g))
            == CallOn(SETUP, s.(asked := s.asked + [Wish(c)]), |s.asked|, B.Forward, c, g, g, g, g)
  {
  }
}
