/** The lock-protected part of the bridge node as an object that owns both controllers. Every callback is
    proved against its transition; what was asked, answered, dispatched and ordered is ghost history. */
module MavrosBridge {
  import opened Wrappers
  import B = BladeProtocol
  import S = SessionProtocol
  import opened BladeController
  import opened SessionController
  import opened BridgeProtocol

  datatype FcuState = FcuState(connected: bool, armed: bool, mode: S.FcuMode, receipt: int)

  class HardwareBridge {
    const setup: Setup
    const blade: BladeControl
    const session: FcuSessionController
    var safety: Safety
    var highLevel: HighLevel
    var bladeTest: bool
    var fcu: FcuState
    var safetyReceipt: int
    var bladeSlot: int
    var starts: seq<Start>
    var replies: seq<Reply>
    ghost var asked: seq<Option<B.Direction>>
    ghost var answers: seq<Answer>
    ghost var dispatches: seq<Dispatch>
    ghost var orders: seq<S.Command>

    ghost predicate Wired()
    {
      blade.config == setup.blade
    }

    ghost function View(): Scene
      reads this, session
    {
      Scene(session.State(), safety, highLevel, bladeTest, fcu.connected, fcu.armed, fcu.mode, fcu.receipt,
            safetyReceipt, bladeSlot)
    }

    ghost function State(): Bridge
      reads this, blade, session
    {
      Bridge(blade.History(), View(), starts, replies, asked, answers, dispatches, orders)
    }

    constructor (setup: Setup)
      requires B.ValidConfig(setup.blade)
      ensures this.setup == setup && Wired() && fresh(blade) && fresh(session)
      ensures State() == START
    {
      this.setup := setup;
      blade := new BladeControl(setup.blade);
      session := new FcuSessionController();
      safety := Safety(SwitchUnknown, false, false, false, false, false, false, false, false);
      highLevel, bladeTest, fcu := Inactive, false, FcuState(false, false, S.Other(""), -1);
      safetyReceipt, bladeSlot, starts, replies := -1, 2, [], [];
      asked, answers, dispatches, orders := [], [], [], [];
    }

    predicate MotionActive()
      reads this
      ensures MotionActive() == (highLevel != Inactive)
    {
      highLevel == Autonomous || highLevel == Recording || highLevel == ManualMowing
    }

    predicate Allowed(now: int)
      reads this, session
      ensures Allowed(now) == BladeAllowed(setup, View(), now)
    {
      && session.IsReady() && session.wanted.arm && setup.mowingEnabled && fcu.connected && fcu.armed
      && fcu.receipt >= 0 && now - fcu.receipt <= FCU_FRESH
      && safetyReceipt >= 0 && now - safetyReceipt <= SAFETY_FRESH
      && safety.hardware == Released && !ActiveEmergency(safety) && !LatchedEmergency(safety) && bladeSlot >= 0
    }

    method ReplyBlade(caller: nat, success: bool)
      modifies this`answers
      ensures State() == Tell(old(State()), caller, success)
    {
      answers := answers + [Answer(caller, success, blade.State())];
    }

    method CancelPendingStarts()
      modifies this`answers, this`starts
      ensures State() == CancelStarts(old(State()))
    {
      while starts != []
        invariant CancelStarts(State()) == CancelStarts(old(State()))
        decreases |starts|
      {
        ReplyBlade(starts[0].caller, false);
        starts := starts[1..];
      }
    }

    method ForceBladeOff(now: nat)
      requires Wired()
      modifies blade
      ensures State() == Blade(setup, old(State()), B.EvForceOff(now))
    {
      blade.ForceOff(now);
    }

    method PermitBlade(now: nat)
      requires Wired()
      modifies blade
      ensures State() == Blade(setup, old(State()), B.EvPermit(BladeAllowed(setup, old(View()), now), now))
    {
      blade.SetPermission(Allowed(now), now);
    }

    method DemandSession(mode: S.FcuMode, arm: bool, emergency: bool)
      modifies session
      ensures State() == Demand(old(State()), mode, arm, emergency)
    {
      session.Demand(mode, arm, emergency);
    }

    // The isolated test and the waiting starts are given up, and the blade is forced OFF.
    method AbandonStarts(at: nat)
      requires Wired()
      modifies this`bladeTest, this`answers, this`starts, blade
      ensures State() == Abandon(setup, old(State()), at)
    {
      bladeTest := false;
      CancelPendingStarts();
      ForceBladeOff(at);
    }

    method EndFailedBladeTest(at: nat)
      requires Wired()
      modifies this`bladeTest, this`answers, this`starts, blade, session
      ensures State() == EndTest(setup, old(State()), at)
    {
      if !bladeTest || MotionActive() {
        return;
      }
      AbandonStarts(at);
      DemandSession(S.Hold, false, ActiveEmergency(safety) || LatchedEmergency(safety));
    }

    // A start or a caller asks the blade controller, and waits for it or is answered.
    method SubmitRequest(caller: nat, d: B.Direction, started: int, now: nat, transport: bool)
      requires Wired()
      modifies this`answers, this`replies, blade
      ensures State() == Submit(setup, old(State()), caller, d, started, now, transport)
    {
      var result := blade.Request(d, now);
      assert State() == Blade(setup, old(State()), B.EvRequest(d, now));
      if result == B.Pending && transport && |replies| < QUEUE_LIMIT {
        replies := replies + [Reply(caller, blade.revision, started)];
      } else {
        ReplyBlade(caller, transport && result == B.Confirmed);
      }
    }

    // The first loop of `drive_blade_locked`: waiting starts are refused, submitted or kept.
    method AdmitStarts(now: nat)
      requires Wired()
      modifies this`answers, this`starts, this`replies, blade
      ensures State() == Admit(setup, old(State()), 0, now)
    {
      var i := 0;
      while i < |starts|
        invariant 0 <= i <= |starts| && Wired()
        invariant Admit(setup, State(), i, now) == Admit(setup, old(State()), 0, now)
        decreases |starts| - i
      {
        ghost var before := State();
        var start := starts[i];
        var emergency := ActiveEmergency(safety) || LatchedEmergency(safety);
        if session.Failed() || !fcu.connected || emergency || Overdue(now, start.started) {
          ReplyBlade(start.caller, false);
          starts := starts[..i] + starts[i + 1..];
          assert State() == Resolve(setup, before, i, now);
        } else if session.IsReady() {
          SubmitRequest(start.caller, start.direction, start.started, now, true);
          starts := starts[..i] + starts[i + 1..];
          assert State() == Resolve(setup, before, i, now);
        } else {
          i := i + 1;
        }
      }
    }

    // The last loop of `drive_blade_locked`: replies whose outcome is known leave the queue.
    method ReapReplies(now: nat)
      modifies this`answers, this`replies
      ensures State() == Reap(old(State()), 0, now)
    {
      var i := 0;
      while i < |replies|
        invariant 0 <= i <= |replies|
        invariant Reap(State(), i, now) == Reap(old(State()), 0, now)
        decreases |replies| - i
      {
        var reply := replies[i];
        var invalid := reply.revision != blade.revision || blade.fault || Overdue(now, reply.started);
        if invalid || blade.IsSatisfied() {
          ReplyBlade(reply.caller, !invalid);
          replies := replies[..i] + replies[i + 1..];
        } else {
          i := i + 1;
        }
      }
    }

    method SendBlade(e: Env)
      requires Wired()
      modifies this`dispatches, blade
      ensures State() == Send(setup, old(State()), e)
    {
      if !e.transport {
        return;
      }
      var command := blade.Next(e.steady);
      assert blade.History() == B.Step(setup.blade, old(blade.History()), B.EvPoll(e.steady));
      if command.None? {
        return;
      }
      HandCommand(command.value, e);
    }

    // The command goes to the transport; a send that fails at once is a refusal.
    method HandCommand(command: B.Command, e: Env)
      requires Wired()
      modifies this`dispatches, blade
      ensures State() == Hand(setup, old(State()), command, e)
    {
      dispatches := dispatches + [Dispatch(command, e.steady, View())];
      if !e.bladeSends {
        blade.Complete(command.token, false, e.again);
      }
    }

    method ReviewBlade(e: Env)
      requires Wired()
      modifies this`bladeTest, this`answers, this`starts, blade, session
      ensures State() == Review(setup, old(State()), e)
    {
      if session.Failed() || !fcu.connected {
        EndFailedBladeTest(e.again);
      }
      assert State() == EndFailedTest(setup, old(State()), e);
      PermitBlade(e.steady);
      blade.Tick(e.steady);
      assert State() == Grant(setup, EndFailedTest(setup, old(State()), e), e);
      if exists i | 0 <= i < |starts| :: Overdue(e.steady, starts[i].started) {
        EndFailedBladeTest(e.again);
      }
    }

    method ExpireServiceCalls(e: Env)
      requires Wired()
      modifies blade
      ensures State() == ExpireService(setup, old(State()), e)
    {
      if !blade.IsSatisfied()
         && exists i | 0 <= i < |replies| :: replies[i].revision == blade.revision && Overdue(e.steady, replies[i].started) {
        // A failed service deadline must not leave a delayed ON intent alive.
        blade.ServiceTimeout(e.steady);
        assert State() == Blade(setup, old(State()), B.EvExpire(e.steady));
      }
    }

    method EndIdleBladeTest(e: Env)
      requires Wired()
      modifies this`bladeTest, this`answers, this`starts, blade, session
      ensures State() == EndIdleTest(setup, old(State()), e)
    {
      if starts == [] && blade.requested == B.Off {
        EndFailedBladeTest(e.again);
      }
    }

    method DriveBladeLocked(e: Env)
      requires Wired()
      modifies this`bladeTest, this`answers, this`starts, this`replies, this`dispatches, blade, session
      ensures State() == DriveBlade(setup, old(State()), e)
    {
      ReviewBlade(e);
      AdmitStarts(e.steady);
      ExpireServiceCalls(e);
      ReapReplies(e.steady);
      EndIdleBladeTest(e);
      assert State() == Prepare(setup, old(State()), e);
      SendBlade(e);
    }

    method SteerSession(now: nat)
      modifies session
      ensures State() == Steer(setup, old(State()), now)
    {
      var emergency := ActiveEmergency(safety) || LatchedEmergency(safety);
      var movement := MotionActive();
      var holdEmergency := safety.hardware == Engaged || safety.serviceActive;
      var mode := if emergency && !holdEmergency then fcu.mode
                  else if emergency || !movement then S.Hold
                  else if highLevel == Autonomous && setup.guidedVelocity then S.Guided
                  else S.Manual;
      session.Demand(mode, !emergency && (movement || bladeTest), emergency);
      session.Tick(now);
    }

    method DriveSessionLocked(e: Env)
      requires Wired()
      modifies this`bladeTest, this`answers, this`starts, this`orders, blade, session
      ensures State() == DriveSession(setup, old(State()), e)
    {
      SteerSession(e.steady);
      if session.Failed() {
        EndFailedBladeTest(e.again);
      }
      SendOrder(e);
    }

    method SendOrder(e: Env)
      modifies this`orders, session
      ensures State() == Order(old(State()), e)
    {
      var allowArm := !(ActiveEmergency(safety) || LatchedEmergency(safety)) && safety.hardware == Released;
      var command := session.Next(e.steady, e.modeService, e.armService, allowArm);
      assert command == NextOrder(old(View()), e);
      if command.Some? && !e.sessionSends {
        session.Complete(command.value.serial, false, e.steady);
      }
      assert session.State() == Ordered(old(View()), e);
      orders := orders + (if command.Some? then [command.value] else []);
    }

    method DriveAllLocked(e1: Env, e2: Env)
      requires Wired()
      modifies this`bladeTest, this`answers, this`starts, this`replies, this`dispatches, this`orders, blade, session
      ensures State() == DriveAll(setup, old(State()), e1, e2)
    {
      DriveSessionLocked(e1);
      DriveBladeLocked(e2);
    }

    method BindOff(c: Call)
      requires Wired()
      modifies this`bladeTest, this`answers, this`starts, blade, session
      ensures State() == Bind(setup, old(State()), c)
    {
      CancelPendingStarts();
      bladeTest := false;
      if !MotionActive() {
        DemandSession(S.Hold, false, ActiveEmergency(safety) || LatchedEmergency(safety));
        // The permission edge comes before this caller is bound to a blade revision.
        PermitBlade(c.at);
      }
    }

    method CallOffLocked(caller: nat, c: Call, e1: Env, e2: Env)
      requires Wired()
      modifies this, blade, session
      ensures State() == CallOff(setup, old(State()), caller, c, e1, e2)
    {
      BindOff(c);
      SubmitRequest(caller, B.Off, c.at, c.at, c.transport);
      DriveBladeLocked(e1);
      DriveSessionLocked(e2);
    }

    method AdmitCaller(caller: nat, d: B.Direction, c: Call, e: Env)
      requires Wired()
      modifies this, blade, session
      ensures State() == Admitted(setup, old(State()), caller, d, c, e)
    {
      PermitBlade(c.at);
      SubmitRequest(caller, d, c.at, c.at, true);
      DriveBladeLocked(e);
    }

    method EnlistCaller(caller: nat, d: B.Direction, c: Call, again: nat, e: Env)
      requires Wired()
      modifies this, blade, session
      ensures State() == Enlist(setup, old(State()), caller, d, c, again, e)
    {
      if session.Failed() || (!MotionActive() && !bladeTest) {
        EndFailedBladeTest(again);
        ReplyBlade(caller, false);
        return;
      }
      if !session.IsReady() {
        if |starts| >= QUEUE_LIMIT {
          ReplyBlade(caller, false);
        } else {
          starts := starts + [Start(caller, d, c.at)];
        }
        return;
      }
      AdmitCaller(caller, d, c, e);
    }

    method ClearForCaller(d: B.Direction, e1: Env, e2: Env)
      requires Wired()
      modifies this, blade, session
      ensures State() == Clear(setup, old(State()), d, e1, e2)
      ensures asked == old(asked)
    {
      if starts != [] && starts[0].direction != d {
        CancelPendingStarts();
      }
      DriveAllLocked(e1, e2);
    }

    method CallOnLocked(caller: nat, d: B.Direction, c: Call, e1: Env, e2: Env, e3: Env, e4: Env)
      requires Wired()
      modifies this, blade, session
      ensures State() == CallOn(setup, old(State()), caller, d, c, e1, e2, e3, e4)
    {
      ClearForCaller(d, e1, e2);
      if !c.transport || !setup.mowingEnabled || !fcu.connected || ActiveEmergency(safety) || LatchedEmergency(safety)
         || safety.hardware != Released || blade.fault {
        ReplyBlade(caller, false);
        return;
      }
      BeginForCaller(caller, d, c, e3, e4);
    }

    method BeginForCaller(caller: nat, d: B.Direction, c: Call, e1: Env, e2: Env)
      requires Wired()
      modifies this, blade, session
      ensures State() == Begin(setup, old(State()), caller, d, c, e1, e2)
    {
      if !MotionActive() {
        bladeTest := true;
      }
      DriveSessionLocked(e1);
      EnlistCaller(caller, d, c, e1.again, e2);
    }

    // Callers are numbered in the order of their calls.
    method OnMowerControl(caller: nat, c: Call, e1: Env, e2: Env, e3: Env, e4: Env)
      requires Wired() && caller == |asked|
      modifies this, blade, session
      ensures State() == MowerControl(setup, old(State()), c, e1, e2, e3, e4)
    {
      asked := asked + [Wish(c)];
      assert State() == old(State()).(asked := old(asked) + [Wish(c)]);
      if c.enabled > 1 || (c.enabled != 0 && c.direction > 1) {
        ReplyBlade(caller, false);
        return;
      }
      var direction := if c.enabled == 0 then B.Off else if c.direction == 0 then B.Forward else B.Reverse;
      if direction == B.Off {
        CallOffLocked(caller, c, e1, e2);
      } else {
        CallOnLocked(caller, direction, c, e1, e2, e3, e4);
      }
    }

    method SecureAll(hold: bool, at: nat)
      requires Wired()
      modifies this`bladeTest, this`answers, this`starts, blade, session
      ensures State() == Secure(setup, old(State()), hold, at)
    {
      AbandonStarts(at);
      DemandSession(if hold then S.Hold else fcu.mode, false, true);
    }

    // `true` when a DISARM is queued or the FCU is already seen disarmed.
    method RequestSafetyDisarm(hold: bool, at: nat, e1: Env, e2: Env) returns (queued: bool)
      requires Wired()
      modifies this, blade, session
      ensures State() == SafetyDisarm(setup, old(State()), hold, at, e1, e2)
      ensures queued == (S.DisarmPending(session.State()) || (fcu.connected && !fcu.armed))
    {
      SecureAll(hold, at);
      DriveBladeLocked(e1);
      DriveSessionLocked(e2);
      queued := session.IsDisarmPending() || (fcu.connected && !fcu.armed);
    }

    method OnMavrosState(connected: bool, armed: bool, mode: S.FcuMode, at: nat, e1: Env, e2: Env)
      requires Wired()
      modifies this, blade, session
      ensures State() == FcuReport(setup, old(State()), connected, armed, mode, at, e1, e2)
    {
      RelinkFcu(connected, at);
      RecordFcu(connected, armed, mode, at);
      DriveAllLocked(e1, e2);
    }

    method RelinkFcu(connected: bool, at: nat)
      requires Wired()
      modifies this`safety, this`answers, this`starts, blade
      ensures State() == Relink(setup, old(State()), connected, at)
    {
      blade.SetConnection(connected, at);
      assert State() == Blade(setup, old(State()), B.EvConnect(connected, at));
      if !connected {
        safety := safety.(hardware := SwitchUnknown, hardwareLatched := false, liftKnown := false);
      }
      if fcu.connected && !connected {
        CancelPendingStarts();
      }
    }

    method RecordFcu(connected: bool, armed: bool, mode: S.FcuMode, at: nat)
      modifies this`fcu, session
      ensures State() == Recorded(old(State()), connected, armed, mode, at)
    {
      fcu := FcuState(connected, armed, mode, at);
      session.Observe(connected, armed, mode);
    }

    method RetireMotion(at: nat, e: Env)
      requires Wired()
      modifies this`bladeTest, this`answers, this`starts, this`replies, this`dispatches, blade, session
      ensures State() == Retire(setup, old(State()), at, e)
    {
      AbandonStarts(at);
      DriveBladeLocked(e);
    }

    method RecordLevel(level: HighLevel, at: nat, e: Env)
      requires Wired()
      modifies this, blade, session
      ensures State() == Relevel(setup, old(State()), level, at, e)
    {
      var wasMotion := MotionActive();
      highLevel := level;
      if wasMotion && !MotionActive() {
        RetireMotion(at, e);
      }
    }

    method OnHighLevelStatus(level: HighLevel, at: nat, e1: Env, e2: Env, e3: Env)
      requires Wired()
      modifies this, blade, session
      ensures State() == HighLevelReport(setup, old(State()), level, at, e1, e2, e3)
    {
      RecordLevel(level, at, e1);
      DriveAllLocked(e2, e3);
    }

    method OnBladeReply(token: nat, accepted: bool, at: nat, e: Env)
      requires Wired()
      modifies this, blade, session
      ensures State() == DriveBlade(setup, Blade(setup, old(State()), B.EvComplete(token, accepted, at)), e)
    {
      blade.Complete(token, accepted, at);
      assert State() == Blade(setup, old(State()), B.EvComplete(token, accepted, at));
      DriveBladeLocked(e);
    }

    method OnFcuReply(serial: nat, accepted: bool, at: nat, e1: Env, e2: Env)
      requires Wired()
      modifies this, blade, session
      ensures State() == FcuReply(setup, old(State()), serial, accepted, at, e1, e2)
    {
      session.Complete(serial, accepted, at);
      DriveAllLocked(e1, e2);
    }
  }
}
