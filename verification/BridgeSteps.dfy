/** Every piece of every callback keeps the invariant of the composed bridge. */
module BridgeSteps {
  import opened Wrappers
  import B = BladeProtocol
  import S = SessionProtocol
  import Safety = BladeSafety
  import Wiring = BladeCommands
  import T = SessionTheorems
  import opened BridgeProtocol
  import opened BridgeInvariant

  // What the callers' bookkeeping leaves alone.
  predicate SameScene(s: Bridge, n: Bridge) { n.scene == s.scene && n.blade.blade.allowed == s.blade.blade.allowed }

  lemma {:induction false} CancelKeeps(k: Setup, s: Bridge, held: multiset<nat>)
    requires Core(k, s, held)
    ensures var n := CancelStarts(s);
            Core(k, n, held) && n.scene == s.scene && n.blade == s.blade && n.starts == [] && n.asked == s.asked
            && n.orders == s.orders && n.replies == s.replies
    decreases |s.starts|
  {
    if s.starts != [] {
      var caller := s.starts[0].caller;
      var taken := s.(starts := Without(s.starts, 0));
      assert Without(s.starts, 0) == s.starts[1..];
      TakeStart(k, s, 0, held);
      TellKeeps(k, taken, caller, false, held + multiset{caller});
      assert held + multiset{caller} - multiset{caller} == held;
      CancelKeeps(k, Tell(taken, caller, false), held);
    }
  }

  // A demand that never combines ARM with safety.
  lemma DemandKeeps(k: Setup, s: Bridge, mode: S.FcuMode, arm: bool, safety: bool, held: multiset<nat>)
    requires Inv(k, s, held) && !(arm && safety)
    ensures Inv(k, Demand(s, mode, arm, safety), held)
  {
  }

  // The permission computed last still stands, or a neutral goes out first.
  predicate Guarded(k: Setup, s: Bridge, now: int) {
    ForcedOff(s.blade.blade) || (s.blade.blade.allowed ==> BladeAllowed(k, s.scene, now))
  }

  lemma EndTestKeeps(k: Setup, s: Bridge, at: nat, held: multiset<nat>)
    requires Inv(k, s, held)
    ensures var n := EndTest(k, s, at);
            && Inv(k, n, held) && n.asked == s.asked && n.replies == s.replies
            && (n == s || (n.starts == [] && ForcedOff(n.blade.blade)))
            && n.scene.safety == s.scene.safety && n.scene.fcuConnected == s.scene.fcuConnected
  {
    if s.scene.bladeTest && !Moving(s.scene) {
      var calm := s.scene.(bladeTest := false);
      CancelKeeps(k, s.(scene := calm), held);
      var cancelled := CancelStarts(s.(scene := calm));
      BladeKeeps(k, cancelled, B.EvForceOff(at), held);
      DemandKeeps(k, Blade(k, cancelled, B.EvForceOff(at)), S.Hold, false, Emergency(s.scene.safety), held);
    }
  }

  lemma RequestAnswered(c: B.Config, b: B.Blade, d: B.Direction, now: nat)
    ensures B.Answer(c, b, d, now) != B.Rejected ==> B.Request(c, b, d, now).requested == d
    ensures B.Answer(c, b, d, now) == B.Confirmed ==> B.Request(c, b, d, now) == b && B.Satisfied(b)
  {
  }

  lemma SubmitKeeps(k: Setup, s: Bridge, caller: nat, d: B.Direction, started: int, now: nat, transport: bool,
                    held: multiset<nat>)
    requires Inv(k, s, held) && held[caller] > 0 && caller < |s.asked| && s.asked[caller] == Some(d)
    ensures var n := Submit(k, s, caller, d, started, now, transport);
            && Inv(k, n, held - multiset{caller}) && SameScene(s, n) && n.starts == s.starts && n.asked == s.asked
            && (ForcedOff(s.blade.blade) ==> ForcedOff(n.blade.blade))
  {
    RequestAnswered(k.blade, s.blade.blade, d, now);
    var n := Blade(k, s, B.EvRequest(d, now));
    BladeKeeps(k, s, B.EvRequest(d, now), held);
    var result := B.Answer(k.blade, s.blade.blade, d, now);
    if result == B.Pending && transport && |n.replies| < QUEUE_LIMIT {
      PutReply(k, n, Reply(caller, n.blade.blade.revision, started), held);
    } else {
      TellKeeps(k, n, caller, transport && result == B.Confirmed, held);
    }
  }

  lemma ResolveKeeps(k: Setup, s: Bridge, i: nat, now: nat, held: multiset<nat>)
    requires Inv(k, s, held) && i < |s.starts|
    ensures var n := Resolve(k, s, i, now);
            && Inv(k, n, held) && SameScene(s, n) && n.asked == s.asked && n.starts == Without(s.starts, i)
            && (ForcedOff(s.blade.blade) ==> ForcedOff(n.blade.blade))
  {
    var start := s.starts[i];
    var taken := s.(starts := Without(s.starts, i));
    var more := held + multiset{start.caller};
    assert more - multiset{start.caller} == held;
    TakeStart(k, s, i, held);
    assert StartBound(s.asked, start);
    if Hopeless(s, start, now) {
      TellKeeps(k, taken, start.caller, false, more);
      assert Resolve(k, s, i, now) == Tell(taken, start.caller, false);
    } else {
      assert Resolve(k, s, i, now) == Submit(k, taken, start.caller, start.direction, start.started, now, true);
      SubmitKeeps(k, taken, start.caller, start.direction, start.started, now, true, more);
    }
  }

  lemma {:induction false} AdmitKeeps(k: Setup, s: Bridge, i: nat, now: nat, held: multiset<nat>)
    requires Inv(k, s, held)
    ensures var n := Admit(k, s, i, now);
            && Inv(k, n, held) && SameScene(s, n) && n.asked == s.asked
            && (ForcedOff(s.blade.blade) ==> ForcedOff(n.blade.blade))
    decreases |s.starts| - i
  {
    if i < |s.starts| {
      if Hopeless(s, s.starts[i], now) || S.Ready(s.scene.session) {
        ResolveKeeps(k, s, i, now, held);
        AdmitKeeps(k, Resolve(k, s, i, now), i, now, held);
      } else {
        AdmitKeeps(k, s, i + 1, now, held);
      }
    }
  }

  ghost predicate StartsInTime(s: Bridge, n: nat, now: int) {
    forall j | 0 <= j < n && j < |s.starts| :: !Overdue(now, s.starts[j].started)
  }

  lemma {:induction false} AdmitLeavesNoneOverdue(k: Setup, s: Bridge, i: nat, now: nat)
    requires i <= |s.starts| && StartsInTime(s, i, now)
    ensures StartsInTime(Admit(k, s, i, now), |Admit(k, s, i, now).starts|, now)
    decreases |s.starts| - i
  {
    if i < |s.starts| {
      if Hopeless(s, s.starts[i], now) || S.Ready(s.scene.session) {
        AdmitLeavesNoneOverdue(k, Resolve(k, s, i, now), i, now);
      } else {
        AdmitLeavesNoneOverdue(k, s, i + 1, now);
      }
    }
  }

  lemma {:induction false} ReapKeeps(k: Setup, s: Bridge, i: nat, now: int, held: multiset<nat>)
    requires Inv(k, s, held) && i <= |s.replies|
    requires forall j | 0 <= j < i :: !Overdue(now, s.replies[j].started)
    ensures var n := Reap(s, i, now);
            && Inv(k, n, held) && n.scene == s.scene && n.blade == s.blade && n.starts == s.starts
            && n.asked == s.asked
            && (forall j | 0 <= j < |n.replies| :: !Overdue(now, n.replies[j].started))
    decreases |s.replies| - i
  {
    if i < |s.replies| {
      var reply := s.replies[i];
      if Lapsed(s, reply, now) || B.Satisfied(s.blade.blade) {
        var taken := s.(replies := Without(s.replies, i));
        var more := held + multiset{reply.caller};
        assert more - multiset{reply.caller} == held;
        TakeReply(k, s, i, held);
        assert ReplyBound(s.asked, s.blade.blade, reply);
        TellKeeps(k, taken, reply.caller, !Lapsed(s, reply, now), more);
        ReapKeeps(k, Tell(taken, reply.caller, !Lapsed(s, reply, now)), i, now, held);
      } else {
        ReapKeeps(k, s, i + 1, now, held);
      }
    }
  }

  ghost predicate RepliesInTime(s: Bridge, now: int) {
    forall j | 0 <= j < |s.replies| :: !Overdue(now, s.replies[j].started)
  }

  lemma GrantKeeps(k: Setup, s: Bridge, e: Env, held: multiset<nat>)
    requires Inv(k, s, held)
    ensures var n := Grant(k, s, e);
            Inv(k, n, held) && n.scene == s.scene && n.asked == s.asked && Guarded(k, n, e.steady)
  {
    var permit := B.EvPermit(BladeAllowed(k, s.scene, e.steady), e.steady);
    BladeKeeps(k, s, permit, held);
    BladeKeeps(k, Blade(k, s, permit), B.EvTick(e.steady), held);
  }

  lemma ExpireServiceKeeps(k: Setup, s: Bridge, e: Env, held: multiset<nat>)
    requires Inv(k, s, held) && Guarded(k, s, e.steady)
    ensures var n := ExpireService(k, s, e);
            Inv(k, n, held) && n.scene == s.scene && n.asked == s.asked && n.starts == s.starts
            && Guarded(k, n, e.steady)
  {
    BladeKeeps(k, s, B.EvExpire(e.steady), held);
  }

  lemma EndFailedKeeps(k: Setup, s: Bridge, e: Env, held: multiset<nat>)
    requires Inv(k, s, held)
    ensures Inv(k, EndFailedTest(k, s, e), held) && EndFailedTest(k, s, e).asked == s.asked
  {
    EndTestKeeps(k, s, e.again, held);
  }

  lemma EndOverdueKeeps(k: Setup, s: Bridge, e: Env, held: multiset<nat>)
    requires Inv(k, s, held) && Guarded(k, s, e.steady)
    ensures var n := EndOverdueTest(k, s, e); Inv(k, n, held) && n.asked == s.asked && Guarded(k, n, e.steady)
  {
    EndTestKeeps(k, s, e.again, held);
  }

  lemma ReviewKeeps(k: Setup, s: Bridge, e: Env, held: multiset<nat>)
    requires Inv(k, s, held)
    ensures var n := Review(k, s, e); Inv(k, n, held) && n.asked == s.asked && Guarded(k, n, e.steady)
  {
    var tested := EndFailedTest(k, s, e);
    EndFailedKeeps(k, s, e, held);
    GrantKeeps(k, tested, e, held);
    EndOverdueKeeps(k, Grant(k, tested, e), e, held);
  }

  lemma EndIdleKeeps(k: Setup, s: Bridge, e: Env, held: multiset<nat>)
    requires Inv(k, s, held) && Guarded(k, s, e.steady)
    requires StartsInTime(s, |s.starts|, e.steady) && RepliesInTime(s, e.steady)
    ensures var n := EndIdleTest(k, s, e);
            && Inv(k, n, held) && n.asked == s.asked && Guarded(k, n, e.steady)
            && StartsInTime(n, |n.starts|, e.steady) && RepliesInTime(n, e.steady)
  {
    EndTestKeeps(k, s, e.again, held);
  }

  lemma SettleKeeps(k: Setup, s: Bridge, e: Env, held: multiset<nat>)
    requires Inv(k, s, held) && Guarded(k, s, e.steady) && StartsInTime(s, |s.starts|, e.steady)
    ensures var n := EndIdleTest(k, Reap(ExpireService(k, s, e), 0, e.steady), e);
            && Inv(k, n, held) && n.asked == s.asked && Guarded(k, n, e.steady)
            && StartsInTime(n, |n.starts|, e.steady) && RepliesInTime(n, e.steady)
  {
    ExpireServiceKeeps(k, s, e, held);
    var expired := ExpireService(k, s, e);
    ReapKeeps(k, expired, 0, e.steady, held);
    EndIdleKeeps(k, Reap(expired, 0, e.steady), e, held);
  }

  lemma PrepareKeeps(k: Setup, s: Bridge, e: Env, held: multiset<nat>)
    requires Inv(k, s, held)
    ensures var n := Prepare(k, s, e);
            && Inv(k, n, held) && n.asked == s.asked && Guarded(k, n, e.steady)
            && StartsInTime(n, |n.starts|, e.steady) && RepliesInTime(n, e.steady)
  {
    ReviewKeeps(k, s, e, held);
    AdmitKeeps(k, Review(k, s, e), 0, e.steady, held);
    AdmitLeavesNoneOverdue(k, Review(k, s, e), 0, e.steady);
    SettleKeeps(k, Admit(k, Review(k, s, e), 0, e.steady), e, held);
  }

  // An ON goes out only with permission and without a queued neutral.
  lemma TargetNeedsPermission(c: B.Config, b: B.Blade, now: nat)
    ensures B.IsOn(B.Target(c, b, now)) ==> b.allowed && !ForcedOff(b)
  {
    TickAdvances(c, b, now);
  }

  lemma PollKeeps(k: Setup, s: Bridge, e: Env, held: multiset<nat>)
    requires Inv(k, s, held) && Guarded(k, s, e.steady)
    requires B.PollCommand(k.blade, s.blade.blade, e.steady).Some?
    ensures var command := B.PollCommand(k.blade, s.blade.blade, e.steady).value;
            var n := Blade(k, s, B.EvPoll(e.steady));
            Inv(k, n.(dispatches := n.dispatches + [Dispatch(command, e.steady, n.scene)]), held)
  {
    var b := s.blade.blade;
    var command := B.PollCommand(k.blade, b, e.steady).value;
    var n := Blade(k, s, B.EvPoll(e.steady));
    TargetNeedsPermission(k.blade, b, e.steady);
    Safety.SoundStep(k.blade, s.blade, B.EvPoll(e.steady), 0);
    Wiring.PhaseStep(k.blade, b, Safety.Newest(s.blade.log), B.EvPoll(e.steady));
    RevisionBindsDirection(k.blade, b, B.EvPoll(e.steady));
    CommandsAppend(s.blade.log, B.Noted(k.blade, b, B.EvPoll(e.steady)));
    forall i | 0 <= i < |n.replies| ensures ReplyBound(n.asked, n.blade.blade, n.replies[i]) {
      assert ReplyBound(s.asked, b, s.replies[i]);
    }
    Wiring.PolledIsWired(k.blade, b, e.steady);
    DispatchedAppend(s.dispatches, Dispatch(command, e.steady, n.scene));
  }

  lemma DispatchedAppend(xs: seq<Dispatch>, x: Dispatch)
    ensures Dispatched(xs + [x]) == Dispatched(xs) + [(x.command.token, x.command.direction)]
  {
  }

  // A poll without a command is a tick.
  lemma IdlePollKeeps(k: Setup, s: Bridge, now: nat, held: multiset<nat>)
    requires Inv(k, s, held) && B.PollCommand(k.blade, s.blade.blade, now).None?
    ensures Inv(k, Blade(k, s, B.EvPoll(now)), held)
  {
    assert Blade(k, s, B.EvPoll(now)) == Blade(k, s, B.EvTick(now));
    BladeKeeps(k, s, B.EvTick(now), held);
  }

  lemma SendKeeps(k: Setup, s: Bridge, e: Env, held: multiset<nat>)
    requires Inv(k, s, held) && Guarded(k, s, e.steady)
    ensures var n := Send(k, s, e);
            && Inv(k, n, held) && n.asked == s.asked && n.starts == s.starts && n.replies == s.replies
            && n.scene == s.scene && n.orders == s.orders
  {
    var command := B.PollCommand(k.blade, s.blade.blade, e.steady);
    if command.None? {
      IdlePollKeeps(k, s, e.steady, held);
    } else {
      PollKeeps(k, s, e, held);
      var n := Blade(k, s, B.EvPoll(e.steady));
      var sent := n.(dispatches := n.dispatches + [Dispatch(command.value, e.steady, n.scene)]);
      BladeKeeps(k, sent, B.EvComplete(command.value.token, false, e.again), held);
    }
  }

  lemma DriveBladeKeeps(k: Setup, s: Bridge, e: Env, held: multiset<nat>)
    requires Inv(k, s, held)
    ensures var n := DriveBlade(k, s, e);
            && Inv(k, n, held) && n.asked == s.asked
            && StartsInTime(n, |n.starts|, e.steady) && RepliesInTime(n, e.steady)
  {
    PrepareKeeps(k, s, e, held);
    SendKeeps(k, Prepare(k, s, e), e, held);
  }

  lemma SteerKeeps(k: Setup, s: Bridge, now: int, held: multiset<nat>)
    requires Inv(k, s, held)
    ensures var n := Steer(k, s, now);
            Inv(k, n, held) && n.asked == s.asked && n.starts == s.starts && n.replies == s.replies
  {
    var emergency := Emergency(s.scene.safety);
    var arm := !emergency && (Moving(s.scene) || s.scene.bladeTest);
    DemandKeeps(k, s, WantedMode(k, s.scene), arm, emergency, held);
    T.TickCarries(Demand(s, WantedMode(k, s.scene), arm, emergency).scene.session, now);
  }

  lemma OrderKeeps(k: Setup, s: Bridge, e: Env, held: multiset<nat>)
    requires Inv(k, s, held)
    ensures var n := Order(s, e);
            Inv(k, n, held) && n.asked == s.asked && n.starts == s.starts && n.replies == s.replies
  {
    var c := s.scene;
    T.PollSpends(c.session, e.steady, e.modeService, e.armService, ArmAllowed(c.safety));
    if NextOrder(c, e).Some? {
      T.CompleteCarries(S.Poll(c.session, e.steady, e.modeService, e.armService, ArmAllowed(c.safety)),
                        NextOrder(c, e).value.serial, false, e.steady);
    }
  }

  lemma DriveSessionKeeps(k: Setup, s: Bridge, e: Env, held: multiset<nat>)
    requires Inv(k, s, held)
    ensures Inv(k, DriveSession(k, s, e), held) && DriveSession(k, s, e).asked == s.asked
  {
    SteerKeeps(k, s, e.steady, held);
    var steered := Steer(k, s, e.steady);
    EndTestKeeps(k, steered, e.again, held);
    OrderKeeps(k, if S.HasFailed(steered.scene.session) then EndTest(k, steered, e.again) else steered, e, held);
  }

  lemma DriveAllKeeps(k: Setup, s: Bridge, e1: Env, e2: Env, held: multiset<nat>)
    requires Inv(k, s, held)
    ensures Inv(k, DriveAll(k, s, e1, e2), held) && DriveAll(k, s, e1, e2).asked == s.asked
  {
    DriveSessionKeeps(k, s, e1, held);
    DriveBladeKeeps(k, DriveSession(k, s, e1), e2, held);
  }

  // A change of the scene that touches neither the session nor the FCU observation.
  lemma SceneKeeps(k: Setup, s: Bridge, c: Scene, held: multiset<nat>)
    requires Inv(k, s, held) && c.session == s.scene.session && c.fcuConnected == s.scene.fcuConnected
    requires c.fcuArmed == s.scene.fcuArmed && c.fcuMode == s.scene.fcuMode
    ensures Inv(k, s.(scene := c), held)
  {
  }

  lemma BindKeeps(k: Setup, s: Bridge, c: Call, held: multiset<nat>)
    requires Inv(k, s, held)
    ensures Inv(k, Bind(k, s, c), held) && Bind(k, s, c).asked == s.asked
  {
    CancelKeeps(k, s, held);
    var cancelled := CancelStarts(s);
    var calm := cancelled.(scene := cancelled.scene.(bladeTest := false));
    SceneKeeps(k, cancelled, calm.scene, held);
    DemandKeeps(k, calm, S.Hold, false, Emergency(calm.scene.safety), held);
    var idle := Demand(calm, S.Hold, false, Emergency(calm.scene.safety));
    BladeKeeps(k, idle, B.EvPermit(BladeAllowed(k, idle.scene, c.at), c.at), held);
  }

  lemma CallOffKeeps(k: Setup, s: Bridge, caller: nat, c: Call, e1: Env, e2: Env, held: multiset<nat>)
    requires Inv(k, s, held) && held[caller] > 0 && caller < |s.asked| && s.asked[caller] == Some(B.Off)
    ensures Inv(k, CallOff(k, s, caller, c, e1, e2), held - multiset{caller})
  {
    BindKeeps(k, s, c, held);
    SubmitKeeps(k, Bind(k, s, c), caller, B.Off, c.at, c.at, c.transport, held);
    var submitted := Submit(k, Bind(k, s, c), caller, B.Off, c.at, c.at, c.transport);
    DriveBladeKeeps(k, submitted, e1, held - multiset{caller});
    DriveSessionKeeps(k, DriveBlade(k, submitted, e1), e2, held - multiset{caller});
  }

  lemma EnlistKeeps(k: Setup, s: Bridge, caller: nat, d: B.Direction, c: Call, again: nat, e: Env,
                    held: multiset<nat>)
    requires Inv(k, s, held) && held[caller] > 0 && caller < |s.asked| && s.asked[caller] == Some(d) && B.IsOn(d)
    ensures Inv(k, Enlist(k, s, caller, d, c, again, e), held - multiset{caller})
  {
    if S.HasFailed(s.scene.session) || (!Moving(s.scene) && !s.scene.bladeTest) {
      EndTestKeeps(k, s, again, held);
      TellKeeps(k, EndTest(k, s, again), caller, false, held);
    } else if !S.Ready(s.scene.session) {
      if |s.starts| >= QUEUE_LIMIT {
        TellKeeps(k, s, caller, false, held);
      } else {
        PutStart(k, s, Start(caller, d, c.at), held);
      }
    } else {
      var permit := B.EvPermit(BladeAllowed(k, s.scene, c.at), c.at);
      BladeKeeps(k, s, permit, held);
      SubmitKeeps(k, Blade(k, s, permit), caller, d, c.at, c.at, true, held);
      DriveBladeKeeps(k, Submit(k, Blade(k, s, permit), caller, d, c.at, c.at, true), e, held - multiset{caller});
    }
  }

  lemma BeginKeeps(k: Setup, s: Bridge, caller: nat, d: B.Direction, c: Call, e1: Env, e2: Env, held: multiset<nat>)
    requires Inv(k, s, held) && held[caller] > 0 && caller < |s.asked| && s.asked[caller] == Some(d) && B.IsOn(d)
    ensures Inv(k, Begin(k, s, caller, d, c, e1, e2), held - multiset{caller})
  {
    var testing := if Moving(s.scene) then s else s.(scene := s.scene.(bladeTest := true));
    SceneKeeps(k, s, testing.scene, held);
    DriveSessionKeeps(k, testing, e1, held);
    EnlistKeeps(k, DriveSession(k, testing, e1), caller, d, c, e1.again, e2, held);
  }

  lemma ClearKeeps(k: Setup, s: Bridge, d: B.Direction, e1: Env, e2: Env, held: multiset<nat>)
    requires Inv(k, s, held)
    ensures Inv(k, Clear(k, s, d, e1, e2), held) && Clear(k, s, d, e1, e2).asked == s.asked
  {
    CancelKeeps(k, s, held);
    var alone := if s.starts != [] && s.starts[0].direction != d then CancelStarts(s) else s;
    DriveAllKeeps(k, alone, e1, e2, held);
  }

  lemma CallOnKeeps(k: Setup, s: Bridge, caller: nat, d: B.Direction, c: Call, e1: Env, e2: Env, e3: Env, e4: Env,
                    held: multiset<nat>)
    requires Inv(k, s, held) && held[caller] > 0 && caller < |s.asked| && s.asked[caller] == Some(d) && B.IsOn(d)
    ensures Inv(k, CallOn(k, s, caller, d, c, e1, e2, e3, e4), held - multiset{caller})
  {
    ClearKeeps(k, s, d, e1, e2, held);
    var driven := Clear(k, s, d, e1, e2);
    if Unfit(k, driven, c.transport) {
      TellKeeps(k, driven, caller, false, held);
    } else {
      BeginKeeps(k, driven, caller, d, c, e3, e4, held);
    }
  }

  // A new call is held by the callback that received it.
  lemma HearKeeps(k: Setup, s: Bridge, wish: Option<B.Direction>)
    requires Inv(k, s, multiset{})
    ensures Inv(k, s.(asked := s.asked + [wish]), multiset{|s.asked|})
  {
    var n := s.(asked := s.asked + [wish]);
    assert Everyone(|n.asked|) == Everyone(|s.asked|) + [|s.asked|];
  }

  lemma MowerControlKeeps(k: Setup, s: Bridge, c: Call, e1: Env, e2: Env, e3: Env, e4: Env)
    requires Inv(k, s, multiset{})
    ensures Inv(k, MowerControl(k, s, c, e1, e2, e3, e4), multiset{})
  {
    var caller := |s.asked|;
    var heard := s.(asked := s.asked + [Wish(c)]);
    var held := multiset{caller};
    assert held - multiset{caller} == multiset{};
    HearKeeps(k, s, Wish(c));
    match Wish(c)
    case None => TellKeeps(k, heard, caller, false, held);
    case Some(d) =>
      if d == B.Off {
        CallOffKeeps(k, heard, caller, c, e1, e2, held);
      } else {
        CallOnKeeps(k, heard, caller, d, c, e1, e2, e3, e4, held);
      }
  }

  lemma SecureKeeps(k: Setup, s: Bridge, hold: bool, at: nat, held: multiset<nat>)
    requires Inv(k, s, held)
    ensures Inv(k, Secure(k, s, hold, at), held)
  {
    var calm := s.(scene := s.scene.(bladeTest := false));
    SceneKeeps(k, s, calm.scene, held);
    CancelKeeps(k, calm, held);
    BladeKeeps(k, CancelStarts(calm), B.EvForceOff(at), held);
    var neutral := Blade(k, CancelStarts(calm), B.EvForceOff(at));
    DemandKeeps(k, neutral, if hold then S.Hold else neutral.scene.fcuMode, false, true, held);
  }

  lemma SafetyDisarmKeeps(k: Setup, s: Bridge, hold: bool, at: nat, e1: Env, e2: Env, held: multiset<nat>)
    requires Inv(k, s, held)
    ensures Inv(k, SafetyDisarm(k, s, hold, at, e1, e2), held)
  {
    SecureKeeps(k, s, hold, at, held);
    DriveBladeKeeps(k, Secure(k, s, hold, at), e1, held);
    DriveSessionKeeps(k, DriveBlade(k, Secure(k, s, hold, at), e1), e2, held);
  }

  lemma RecordedKeeps(k: Setup, s: Bridge, connected: bool, armed: bool, mode: S.FcuMode, at: nat, held: multiset<nat>)
    requires Inv(k, s, held)
    ensures Inv(k, Recorded(Relink(k, s, connected, at), connected, armed, mode, at), held)
  {
    var linked := Blade(k, s, B.EvConnect(connected, at));
    BladeKeeps(k, s, B.EvConnect(connected, at), held);
    var known := if connected then linked else linked.(scene := Lost(linked.scene));
    assert Core(k, known, held);
    CancelKeeps(k, known, held);
    assert Linked(Recorded(Relink(k, s, connected, at), connected, armed, mode, at));
  }

  lemma FcuReportKeeps(k: Setup, s: Bridge, connected: bool, armed: bool, mode: S.FcuMode, at: nat,
                       e1: Env, e2: Env, held: multiset<nat>)
    requires Inv(k, s, held)
    ensures Inv(k, FcuReport(k, s, connected, armed, mode, at, e1, e2), held)
  {
    RecordedKeeps(k, s, connected, armed, mode, at, held);
    DriveAllKeeps(k, Recorded(Relink(k, s, connected, at), connected, armed, mode, at), e1, e2, held);
  }

  lemma RetireKeeps(k: Setup, s: Bridge, at: nat, e: Env, held: multiset<nat>)
    requires Inv(k, s, held)
    ensures Inv(k, Retire(k, s, at, e), held)
  {
    var calm := s.(scene := s.scene.(bladeTest := false));
    SceneKeeps(k, s, calm.scene, held);
    CancelKeeps(k, calm, held);
    DirectKeeps(k, CancelStarts(calm), B.EvForceOff(at), e, held);
  }

  lemma HighLevelReportKeeps(k: Setup, s: Bridge, level: HighLevel, at: nat, e1: Env, e2: Env, e3: Env,
                             held: multiset<nat>)
    requires Inv(k, s, held)
    ensures Inv(k, HighLevelReport(k, s, level, at, e1, e2, e3), held)
  {
    var known := s.(scene := s.scene.(highLevel := level));
    SceneKeeps(k, s, known.scene, held);
    RetireKeeps(k, known, at, e1, held);
    DriveAllKeeps(k, Relevel(k, s, level, at, e1), e2, e3, held);
  }

  lemma DirectKeeps(k: Setup, s: Bridge, b: B.Event, e1: Env, held: multiset<nat>)
    requires Inv(k, s, held) && !b.EvPoll? && !b.EvConnect?
    ensures Inv(k, DriveBlade(k, Blade(k, s, b), e1), held)
  {
    BladeKeeps(k, s, b, held);
    DriveBladeKeeps(k, Blade(k, s, b), e1, held);
  }

  lemma FcuReplyKeeps(k: Setup, s: Bridge, serial: nat, accepted: bool, at: nat, e1: Env, e2: Env,
                      held: multiset<nat>)
    requires Inv(k, s, held)
    ensures Inv(k, FcuReply(k, s, serial, accepted, at, e1, e2), held)
  {
    T.CompleteCarries(s.scene.session, serial, accepted, at);
    var told := s.(scene := s.scene.(session := S.Complete(s.scene.session, serial, accepted, at)));
    DriveAllKeeps(k, told, e1, e2, held);
  }

  lemma RemapKeeps(k: Setup, s: Bridge, slot: int, at: nat, e1: Env, held: multiset<nat>)
    requires Inv(k, s, held)
    ensures Inv(k, Remap(k, s, slot, at, e1), held)
  {
    var mapped := s.(scene := s.scene.(bladeSlot := slot));
    SceneKeeps(k, s, mapped.scene, held);
    DirectKeeps(k, mapped, B.EvForceOff(at), e1, held);
  }

  lemma DrivenKeeps(k: Setup, s: Bridge, e: Event)
    requires Inv(k, s, multiset{}) && !Senses(e) && !Tells(e)
    ensures Inv(k, Driven(k, s, e), multiset{})
  {
    var none: multiset<nat> := multiset{};
    if e.EvTimer? {
      DriveAllKeeps(k, s, e.e1, e.e2, none);
    } else if e.EvVelocity? {
      DriveSessionKeeps(k, s, e.e1, none);
    } else if e.EvHighLevel? {
      HighLevelReportKeeps(k, s, e.level, e.at, e.e1, e.e2, e.e3, none);
    } else if e.EvFcu? {
      FcuReportKeeps(k, s, e.connected, e.armed, e.mode, e.at, e.e1, e.e2, none);
    } else if e.EvSafetyDisarm? {
      SafetyDisarmKeeps(k, s, e.hold, e.at, e.e1, e.e2, none);
    } else if e.EvFcuReply? {
      FcuReplyKeeps(k, s, e.serial, e.accepted, e.at, e.e1, e.e2, none);
    } else if e.EvRemap? {
      RemapKeeps(k, s, e.slot, e.at, e.e1, none);
    } else {
      MowerControlKeeps(k, s, e.call, e.e1, e.e2, e.e3, e.e4);
    }
  }

  lemma StepKeeps(k: Setup, s: Bridge, e: Event)
    requires Inv(k, s, multiset{})
    ensures Inv(k, Step(k, s, e), multiset{})
  {
    if Senses(e) {
      SceneKeeps(k, s, Sense(s.scene, e), multiset{});
    } else if Tells(e) {
      DirectKeeps(k, s, Told(e), e.e1, multiset{});
    } else {
      DrivenKeeps(k, s, e);
    }
  }

  lemma StartKeeps(k: Setup)
    ensures Inv(k, START, multiset{})
  {
    Safety.SoundStart(k.blade);
  }

  lemma {:induction false} RunKeeps(k: Setup, s: Bridge, events: seq<Event>)
    requires Inv(k, s, multiset{})
    ensures Inv(k, Run(k, s, events), multiset{})
    decreases |events|
  {
    if events != [] {
      StepKeeps(k, s, events[0]);
      RunKeeps(k, Step(k, s, events[0]), events[1..]);
    }
  }
}
