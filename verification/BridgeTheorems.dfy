/** What the composed bridge guarantees in every run, whatever the order of its callbacks, the replies, the
    service availability and the clock readings. */
module BridgeTheorems {
  import opened Wrappers
  import B = BladeProtocol
  import S = SessionProtocol
  import Safety = BladeSafety
  import T = SessionTheorems
  import opened BridgeProtocol
  import opened BridgeInvariant
  import opened BridgeSteps

  /** At the instant any blade ON is dispatched, the session is ready with ARM requested, the FCU was last seen
      connected and armed at most 2500 ms ago, hardware safety is released on an observation at most 3000 ms
      old, no emergency is active or latched, and mowing is enabled. The dispatches are exactly the commands
      on the wire of the blade controller, and each ON among them is preceded by its proof of a real stop. */
  lemma OnDispatchedOnlyWhenPermitted(k: Setup, events: seq<Event>, i: nat)
    requires i < |Run(k, START, events).dispatches|
    requires B.IsOn(Run(k, START, events).dispatches[i].command.direction)
    ensures var d := Run(k, START, events).dispatches[i];
            var c := d.scene;
            && c.session.wantedArm && c.session.armed && c.session.connected
            && c.session.pending.None? && c.session.mode == c.session.wantedMode
            && c.fcuConnected && c.fcuArmed && 0 <= c.fcuReceipt && d.at - c.fcuReceipt <= 2500
            && c.safety.hardware == Released && 0 <= c.safetyReceipt && d.at - c.safetyReceipt <= 3000
            && !c.safety.hardwareLatched && !c.safety.serviceActive && !c.safety.serviceLatched
            && !c.safety.tiltActive && !c.safety.tiltLatched
            && !(c.safety.liftKnown && c.safety.leftLifted && c.safety.rightLifted)
            && k.mowingEnabled && c.bladeSlot >= 0
    ensures var s := Run(k, START, events);
            Commands(s.blade.log) == Dispatched(s.dispatches) && Safety.EveryOnProven(k.blade, s.blade.log, 0)
  {
    StartKeeps(k);
    RunKeeps(k, START, events);
  }

  /** Every command handed to the transport, in every run, drives the configured channel with the configured value of its
      direction. */
  lemma DispatchesAreWired(k: Setup, events: seq<Event>, i: nat)
    requires i < |Run(k, START, events).dispatches|
    ensures var command := Run(k, START, events).dispatches[i].command;
            && command.channel == k.blade.channel
            && (command.direction == B.Off || command.direction == B.Forward || command.direction == B.Reverse)
            && (command.direction == B.Off ==> command.pwm == k.blade.neutral)
            && (command.direction == B.Forward ==> command.pwm == k.blade.forward)
            && (command.direction == B.Reverse ==> command.pwm == k.blade.reverse)
  {
    StartKeeps(k);
    RunKeeps(k, START, events);
  }

  // After a poll nothing waits to be neutralised: a queued neutral has been sent.
  lemma PollLeavesNoOrphan(c: B.Config, b: B.Blade, now: nat)
    ensures !ForcedOff(B.Poll(c, b, now))
    ensures B.Poll(c, b, now).allowed == b.allowed
    ensures ForcedOff(b) ==> B.Target(c, b, now) == B.Off
  {
    TickAdvances(c, b, now);
  }

  // A refused send puts nothing on the wire and gives no permission.
  lemma CompleteIsOffWire(k: Setup, s: Bridge, token: nat, at: nat)
    ensures var n := Blade(k, s, B.EvComplete(token, false, at));
            n.blade.log == s.blade.log && n.blade.blade.allowed == s.blade.blade.allowed
  {
    CompleteAdvances(s.blade.blade, token, false, at);
  }

  lemma SendLeavesPermitted(k: Setup, s: Bridge, e: Env, held: multiset<nat>)
    requires Inv(k, s, held) && Guarded(k, s, e.steady) && e.transport
    ensures Safety.OnWire(Safety.Newest(Send(k, s, e).blade.log)) ==> BladeAllowed(k, s.scene, e.steady)
  {
    var b := s.blade.blade;
    var n := Blade(k, s, B.EvPoll(e.steady));
    TargetNeedsPermission(k.blade, b, e.steady);
    PollLeavesNoOrphan(k.blade, b, e.steady);
    Safety.SoundStep(k.blade, s.blade, B.EvPoll(e.steady), 0);
    Safety.Extend(s.blade.log, B.Noted(k.blade, b, B.EvPoll(e.steady)));
    var command := B.PollCommand(k.blade, b, e.steady);
    if command.Some? {
      CompleteIsOffWire(k, n.(dispatches := n.dispatches + [Dispatch(command.value, e.steady, n.scene)]),
                        command.value.token, e.again);
    }
    if ForcedOff(b) {
      assert Safety.Newest(n.blade.log).direction == B.Off;
    } else if Safety.OnWire(Safety.Newest(n.blade.log)) {
      assert n.blade.blade.allowed;
    }
  }

  /** Fail-safe: after every drive that finds the transport, an ON is the newest command on the wire only if at
      this very instant everything still permits it; otherwise the drive has replaced it. So the loss of any
      condition (a silent or disarmed FCU, stale or engaged hardware safety, an emergency, an ended session)
      is answered by a neutral at the next drive. */
  lemma OutstandingOnIsPermitted(k: Setup, events: seq<Event>, e: Env)
    requires e.transport
    ensures var n := DriveBlade(k, Run(k, START, events), e);
            Safety.OnWire(Safety.Newest(n.blade.log)) ==> BladeAllowed(k, n.scene, e.steady)
  {
    StartKeeps(k);
    RunKeeps(k, START, events);
    DriveIsPermitted(k, Run(k, START, events), e);
  }

  lemma DriveIsPermitted(k: Setup, s: Bridge, e: Env)
    requires Inv(k, s, multiset{}) && e.transport
    ensures var n := DriveBlade(k, s, e);
            Safety.OnWire(Safety.Newest(n.blade.log)) ==> BladeAllowed(k, n.scene, e.steady)
  {
    PrepareKeeps(k, s, e, multiset{});
    SendKeeps(k, Prepare(k, s, e), e, multiset{});
    SendLeavesPermitted(k, Prepare(k, s, e), e, multiset{});
  }

  lemma {:induction false} EveryoneOnce(n: nat, caller: nat)
    ensures multiset(Everyone(n))[caller] == if caller < n then 1 else 0
  {
    if n != 0 {
      EveryoneOnce(n - 1, caller);
      assert Everyone(n) == Everyone(n - 1) + [n - 1];
    }
  }

  /** Every `mower_control` call is answered at most once, and until then waits in exactly one queue. */
  lemma EveryCallerExactlyOnce(k: Setup, events: seq<Event>, caller: nat)
    ensures var s := Run(k, START, events);
            && multiset(Answered(s.answers))[caller] + multiset(Starting(s.starts))[caller]
               + multiset(Waiting(s.replies))[caller] == (if caller < |s.asked| then 1 else 0)
            && |s.starts| <= 32 && |s.replies| <= 32
  {
    StartKeeps(k);
    RunKeeps(k, START, events);
    EveryoneOnce(|Run(k, START, events).asked|, caller);
  }

  /** No caller waits longer than 20 s: after every drive the queues hold nothing older. */
  lemma NoCallerOverdue(k: Setup, events: seq<Event>, e: Env)
    ensures var n := DriveBlade(k, Run(k, START, events), e);
            && (forall i | 0 <= i < |n.starts| :: e.steady - n.starts[i].started <= 20000)
            && (forall i | 0 <= i < |n.replies| :: e.steady - n.replies[i].started <= 20000)
  {
    StartKeeps(k);
    RunKeeps(k, START, events);
    DriveBladeKeeps(k, Run(k, START, events), e, multiset{});
  }

  /** A `true` answer is true: when it was given, the confirmed direction was the caller's own, with no fault,
      nothing in flight and no neutral queued. */
  lemma TrueMeansConfirmed(k: Setup, events: seq<Event>, i: nat)
    requires i < |Run(k, START, events).answers| && Run(k, START, events).answers[i].success
    ensures var s := Run(k, START, events);
            var a := s.answers[i];
            && a.caller < |s.asked| && s.asked[a.caller] == Some(a.blade.confirmed)
            && !a.blade.fault && a.blade.inFlight.None? && !a.blade.queuedNeutral
            && a.blade.requested == a.blade.confirmed
  {
    StartKeeps(k);
    RunKeeps(k, START, events);
    assert Truthful(Run(k, START, events).asked, Run(k, START, events).answers[i]);
  }

  /** The bridge never demands ARM together with a safety DISARM, so its session never retries in a storm:
      while demand and observation stay as they are, any further session events send at most one MODE and one
      ARM/DISARM. */
  lemma BridgeSessionNeverStorms(k: Setup, events: seq<Event>, more: seq<S.Event>)
    requires T.SteadyRun(Run(k, START, events).scene.session, more)
    ensures var s := Run(k, START, events).scene.session;
            T.Count(S.Emissions(s, more), S.Mode) <= 1 && T.Count(S.Emissions(s, more), S.Arm) <= 1
  {
    StartKeeps(k);
    RunKeeps(k, START, events);
    T.NoRetryStorm(Run(k, START, events).scene.session, more);
  }

  // Without an isolated test `drive_blade_locked` changes neither the scene nor the orders to the FCU.
  lemma {:induction false} AdmitLeavesScene(k: Setup, s: Bridge, i: nat, now: nat)
    ensures Admit(k, s, i, now).scene == s.scene && Admit(k, s, i, now).orders == s.orders
    decreases |s.starts| - i
  {
    if i < |s.starts| {
      if Hopeless(s, s.starts[i], now) || S.Ready(s.scene.session) {
        AdmitLeavesScene(k, Resolve(k, s, i, now), i, now);
      } else {
        AdmitLeavesScene(k, s, i + 1, now);
      }
    }
  }

  lemma {:induction false} ReapLeavesScene(s: Bridge, i: nat, now: int)
    ensures Reap(s, i, now).scene == s.scene && Reap(s, i, now).orders == s.orders
    decreases |s.replies| - i
  {
    if i < |s.replies| {
      var reply := s.replies[i];
      if Lapsed(s, reply, now) || B.Satisfied(s.blade.blade) {
        ReapLeavesScene(Tell(s, reply.caller, !Lapsed(s, reply, now)).(replies := Without(s.replies, i)), i, now);
      } else {
        ReapLeavesScene(s, i + 1, now);
      }
    }
  }

  lemma DriveBladeLeavesScene(k: Setup, s: Bridge, e: Env)
    requires !s.scene.bladeTest
    ensures DriveBlade(k, s, e).scene == s.scene && DriveBlade(k, s, e).orders == s.orders
  {
    var reviewed := Review(k, s, e);
    assert reviewed.scene == s.scene && reviewed.orders == s.orders;
    AdmitLeavesScene(k, reviewed, 0, e.steady);
    var expired := ExpireService(k, Admit(k, reviewed, 0, e.steady), e);
    ReapLeavesScene(expired, 0, e.steady);
    assert Prepare(k, s, e).scene == s.scene && Prepare(k, s, e).orders == s.orders;
  }

  lemma {:induction false} CancelLeavesScene(s: Bridge)
    ensures CancelStarts(s).scene == s.scene && CancelStarts(s).orders == s.orders
    decreases |s.starts|
  {
    if s.starts != [] {
      CancelLeavesScene(Tell(s, s.starts[0].caller, false).(starts := s.starts[1..]));
    }
  }

  /** Where a demanded safety DISARM can be: on its way, refused, behind another transaction that is still in flight,
      or carried out. */
  predicate Accounted(x: S.Session) {
    S.DisarmPending(x) || x.armFailed || x.pending.Some? || (!x.armed && !x.forceDisarm)
  }

  predicate SentDisarm(s: Bridge, n: Bridge) {
    |n.orders| == |s.orders| + 1 && S.IsDisarm(n.orders[|s.orders|]) && S.DisarmPending(n.scene.session)
  }

  // The next drive of the session orders the DISARM that the emergency calls for, unless it is accounted for.
  lemma CalledForIsOrdered(k: Setup, s: Bridge, e: Env)
    requires s.scene.session.safetyDisarm && s.scene.session.connected && Emergency(s.scene.safety)
    requires !s.scene.bladeTest && e.armService && e.sessionSends
    ensures var n := DriveSession(k, s, e);
            && n.blade == s.blade
            && (SentDisarm(s, n) || Accounted(n.scene.session))
            && (T.Owed(s.scene.session) ==> SentDisarm(s, n))
  {
    var steered := Steer(k, s, e.steady);
    assert steered.scene.session.safetyDisarm && !steered.scene.bladeTest;
    assert DriveSession(k, s, e) == Order(steered, e);
  }

  /** An emergency on a connected FCU: the callback that reports it leaves no ON as the newest command on the wire. If
      safety was not demanded before, it dispatches the DISARM before any other FCU command; if another callback
      was first to demand it, the DISARM is sent now or accounted for. */
  lemma EmergencyDisarmsAtOnce(k: Setup, events: seq<Event>, hold: bool, at: nat, e1: Env, e2: Env)
    requires var c := Run(k, START, events).scene; Emergency(c.safety) && c.fcuConnected
    requires e1.transport && e2.armService && e2.sessionSends
    ensures var s := Run(k, START, events);
            var n := SafetyDisarm(k, s, hold, at, e1, e2);
            && !Safety.OnWire(Safety.Newest(n.blade.log))
            && (SentDisarm(s, n) || (s.scene.session.safetyDisarm && Accounted(n.scene.session)))
  {
    StartKeeps(k);
    RunKeeps(k, START, events);
    EmergencyDisarms(k, Run(k, START, events), hold, at, e1, e2);
  }

  lemma EmergencyDisarms(k: Setup, s: Bridge, hold: bool, at: nat, e1: Env, e2: Env)
    requires Inv(k, s, multiset{}) && Emergency(s.scene.safety) && s.scene.fcuConnected
    requires e1.transport && e2.armService && e2.sessionSends
    ensures var n := SafetyDisarm(k, s, hold, at, e1, e2);
            && !Safety.OnWire(Safety.Newest(n.blade.log))
            && (SentDisarm(s, n) || (s.scene.session.safetyDisarm && Accounted(n.scene.session)))
  {
    SecureKeeps(k, s, hold, at, multiset{});
    CancelLeavesScene(s.(scene := s.scene.(bladeTest := false)));
    var safe := Secure(k, s, hold, at);
    assert safe.orders == s.orders && (!s.scene.session.safetyDisarm ==> T.Owed(safe.scene.session));
    DriveBladeLeavesScene(k, safe, e1);
    DriveIsPermitted(k, safe, e1);
    CalledForIsOrdered(k, DriveBlade(k, safe, e1), e2);
  }
}
