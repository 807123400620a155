/** From the fields of a `mower_control` call to what is requested, waits, is sent and is confirmed. */
module BridgeCalls {
  import opened Wrappers
  import B = BladeProtocol
  import S = SessionProtocol
  import Safety = BladeSafety
  import Wiring = BladeCommands
  import opened BridgeProtocol
  import opened BridgeInvariant
  import opened BridgeSteps
  import opened BridgeTheorems

  /** What a call asks for: nothing if a field is out of range, OFF if not enabled, else FORWARD for direction 0 and
      REVERSE for direction 1. */
  predicate Asks(call: Call, wish: Option<B.Direction>) {
    && (wish == Some(B.Off) <==> call.enabled == 0)
    && (wish == Some(B.Forward) <==> call.enabled == 1 && call.direction == 0)
    && (wish == Some(B.Reverse) <==> call.enabled == 1 && call.direction == 1)
    && (wish == None <==> call.enabled > 1 || (call.enabled == 1 && call.direction > 1))
  }

  predicate Prefix<T(==)>(xs: seq<T>, ys: seq<T>) { |xs| <= |ys| && ys[..|xs|] == xs }

  /** What was heard stays as it is, and what was answered, dispatched and ordered is only added to. */
  predicate Grows(s: Bridge, n: Bridge) {
    && n.asked == s.asked && Prefix(s.answers, n.answers) && Prefix(s.dispatches, n.dispatches)
    && Prefix(s.orders, n.orders)
  }

  lemma GrowsOn(s: Bridge, m: Bridge, n: Bridge)
    requires Grows(s, m) && Grows(m, n)
    ensures Grows(s, n)
  {
    assert n.answers[..|s.answers|] == m.answers[..|s.answers|];
    assert n.dispatches[..|s.dispatches|] == m.dispatches[..|s.dispatches|];
    assert n.orders[..|s.orders|] == m.orders[..|s.orders|];
  }

  lemma {:induction false} CancelGrows(s: Bridge)
    ensures Grows(s, CancelStarts(s))
    decreases |s.starts|
  {
    if s.starts != [] {
      var told := Tell(s, s.starts[0].caller, false).(starts := s.starts[1..]);
      CancelGrows(told);
      GrowsOn(s, told, CancelStarts(told));
    }
  }

  lemma EndTestGrows(k: Setup, s: Bridge, at: nat)
    ensures Grows(s, EndTest(k, s, at)) && Grows(s, Abandon(k, s, at))
  {
    CancelGrows(s.(scene := s.scene.(bladeTest := false)));
  }

  lemma ResolveGrows(k: Setup, s: Bridge, i: nat, now: nat)
    requires i < |s.starts|
    ensures Grows(s, Resolve(k, s, i, now))
  {
  }

  lemma {:induction false} AdmitGrows(k: Setup, s: Bridge, i: nat, now: nat)
    ensures Grows(s, Admit(k, s, i, now))
    decreases |s.starts| - i
  {
    if i < |s.starts| {
      if Hopeless(s, s.starts[i], now) || S.Ready(s.scene.session) {
        ResolveGrows(k, s, i, now);
        AdmitGrows(k, Resolve(k, s, i, now), i, now);
        GrowsOn(s, Resolve(k, s, i, now), Admit(k, s, i, now));
      } else {
        AdmitGrows(k, s, i + 1, now);
      }
    }
  }

  lemma {:induction false} ReapGrows(s: Bridge, i: nat, now: int)
    ensures Grows(s, Reap(s, i, now))
    decreases |s.replies| - i
  {
    if i < |s.replies| {
      var reply := s.replies[i];
      if Lapsed(s, reply, now) || B.Satisfied(s.blade.blade) {
        var told := Tell(s, reply.caller, !Lapsed(s, reply, now)).(replies := Without(s.replies, i));
        ReapGrows(told, i, now);
        GrowsOn(s, told, Reap(told, i, now));
      } else {
        ReapGrows(s, i + 1, now);
      }
    }
  }

  lemma ReviewGrows(k: Setup, s: Bridge, e: Env)
    ensures Grows(s, Review(k, s, e))
  {
    var tested := EndFailedTest(k, s, e);
    EndTestGrows(k, s, e.again);
    var granted := Grant(k, tested, e);
    EndTestGrows(k, granted, e.again);
    GrowsOn(s, tested, granted);
    GrowsOn(s, granted, Review(k, s, e));
  }

  lemma DriveBladeGrows(k: Setup, s: Bridge, e: Env)
    ensures Grows(s, DriveBlade(k, s, e))
  {
    var reviewed := Review(k, s, e);
    ReviewGrows(k, s, e);
    var admitted := Admit(k, reviewed, 0, e.steady);
    AdmitGrows(k, reviewed, 0, e.steady);
    GrowsOn(s, reviewed, admitted);
    var expired := ExpireService(k, admitted, e);
    GrowsOn(s, admitted, expired);
    var reaped := Reap(expired, 0, e.steady);
    ReapGrows(expired, 0, e.steady);
    GrowsOn(s, expired, reaped);
    EndTestGrows(k, reaped, e.again);
    GrowsOn(s, reaped, Prepare(k, s, e));
    SendGrows(k, Prepare(k, s, e), e);
    GrowsOn(s, Prepare(k, s, e), DriveBlade(k, s, e));
  }

  lemma SendGrows(k: Setup, s: Bridge, e: Env)
    ensures Grows(s, Send(k, s, e))
  {
  }

  lemma DriveSessionGrows(k: Setup, s: Bridge, e: Env)
    ensures Grows(s, DriveSession(k, s, e))
  {
    var steered := Steer(k, s, e.steady);
    EndTestGrows(k, steered, e.again);
    var ended := if S.HasFailed(steered.scene.session) then EndTest(k, steered, e.again) else steered;
    GrowsOn(s, steered, ended);
    GrowsOn(s, ended, Order(ended, e));
  }

  lemma DriveAllGrows(k: Setup, s: Bridge, e1: Env, e2: Env)
    ensures Grows(s, DriveAll(k, s, e1, e2))
  {
    DriveSessionGrows(k, s, e1);
    DriveBladeGrows(k, DriveSession(k, s, e1), e2);
    GrowsOn(s, DriveSession(k, s, e1), DriveAll(k, s, e1, e2));
  }

  lemma CallOffGrows(k: Setup, s: Bridge, caller: nat, c: Call, e1: Env, e2: Env)
    ensures Grows(s, CallOff(k, s, caller, c, e1, e2))
  {
    CancelGrows(s);
    var bound := Bind(k, s, c);
    GrowsOn(s, CancelStarts(s), bound);
    var submitted := Submit(k, bound, caller, B.Off, c.at, c.at, c.transport);
    GrowsOn(s, bound, submitted);
    DriveBladeGrows(k, submitted, e1);
    GrowsOn(s, submitted, DriveBlade(k, submitted, e1));
    DriveSessionGrows(k, DriveBlade(k, submitted, e1), e2);
    GrowsOn(s, DriveBlade(k, submitted, e1), CallOff(k, s, caller, c, e1, e2));
  }

  lemma AdmittedGrows(k: Setup, s: Bridge, caller: nat, d: B.Direction, c: Call, e: Env)
    ensures Grows(s, Admitted(k, s, caller, d, c, e))
  {
    var permitted := Blade(k, s, B.EvPermit(BladeAllowed(k, s.scene, c.at), c.at));
    var submitted := Submit(k, permitted, caller, d, c.at, c.at, true);
    GrowsOn(s, permitted, submitted);
    DriveBladeGrows(k, submitted, e);
    GrowsOn(s, submitted, Admitted(k, s, caller, d, c, e));
  }

  lemma EnlistGrows(k: Setup, s: Bridge, caller: nat, d: B.Direction, c: Call, again: nat, e: Env)
    ensures Grows(s, Enlist(k, s, caller, d, c, again, e))
  {
    EndTestGrows(k, s, again);
    GrowsOn(s, EndTest(k, s, again), Tell(EndTest(k, s, again), caller, false));
    AdmittedGrows(k, s, caller, d, c, e);
  }

  lemma ClearGrows(k: Setup, s: Bridge, d: B.Direction, e1: Env, e2: Env)
    ensures Grows(s, Clear(k, s, d, e1, e2))
  {
    CancelGrows(s);
    var alone := if s.starts != [] && s.starts[0].direction != d then CancelStarts(s) else s;
    DriveAllGrows(k, alone, e1, e2);
    GrowsOn(s, alone, Clear(k, s, d, e1, e2));
  }

  lemma BeginGrows(k: Setup, s: Bridge, caller: nat, d: B.Direction, c: Call, e1: Env, e2: Env)
    ensures Grows(s, Begin(k, s, caller, d, c, e1, e2))
  {
    var testing := if Moving(s.scene) then s else s.(scene := s.scene.(bladeTest := true));
    var driven := DriveSession(k, testing, e1);
    DriveSessionGrows(k, testing, e1);
    GrowsOn(s, testing, driven);
    EnlistGrows(k, driven, caller, d, c, e1.again, e2);
    GrowsOn(s, driven, Begin(k, s, caller, d, c, e1, e2));
  }

  lemma CallOnGrows(k: Setup, s: Bridge, caller: nat, d: B.Direction, c: Call, e1: Env, e2: Env, e3: Env, e4: Env)
    ensures Grows(s, CallOn(k, s, caller, d, c, e1, e2, e3, e4))
  {
    var cleared := Clear(k, s, d, e1, e2);
    ClearGrows(k, s, d, e1, e2);
    BeginGrows(k, cleared, caller, d, c, e3, e4);
    GrowsOn(s, cleared, CallOn(k, s, caller, d, c, e1, e2, e3, e4));
  }

  lemma CallGrows(k: Setup, s: Bridge, call: Call, e1: Env, e2: Env, e3: Env, e4: Env)
    ensures Grows(s.(asked := s.asked + [Wish(call)]), MowerControl(k, s, call, e1, e2, e3, e4))
  {
    var heard := s.(asked := s.asked + [Wish(call)]);
    match Wish(call)
    case None =>
    case Some(d) =>
      if d == B.Off {
        CallOffGrows(k, heard, |s.asked|, call, e1, e2);
      } else {
        CallOnGrows(k, heard, |s.asked|, d, call, e1, e2, e3, e4);
      }
  }

  lemma SecureGrows(k: Setup, s: Bridge, hold: bool, at: nat, e1: Env, e2: Env)
    ensures Grows(s, SafetyDisarm(k, s, hold, at, e1, e2))
  {
    EndTestGrows(k, s, at);
    var safe := Secure(k, s, hold, at);
    GrowsOn(s, Abandon(k, s, at), safe);
    DriveBladeGrows(k, safe, e1);
    GrowsOn(s, safe, DriveBlade(k, safe, e1));
    DriveSessionGrows(k, DriveBlade(k, safe, e1), e2);
    GrowsOn(s, DriveBlade(k, safe, e1), SafetyDisarm(k, s, hold, at, e1, e2));
  }

  lemma ReportGrows(k: Setup, s: Bridge, connected: bool, armed: bool, mode: S.FcuMode, at: nat, e1: Env, e2: Env)
    ensures Grows(s, FcuReport(k, s, connected, armed, mode, at, e1, e2))
  {
    var linked := Blade(k, s, B.EvConnect(connected, at));
    var known := if connected then linked else linked.(scene := Lost(linked.scene));
    CancelGrows(known);
    var relinked := Relink(k, s, connected, at);
    GrowsOn(s, known, relinked);
    var recorded := Recorded(relinked, connected, armed, mode, at);
    GrowsOn(s, relinked, recorded);
    DriveAllGrows(k, recorded, e1, e2);
    GrowsOn(s, recorded, FcuReport(k, s, connected, armed, mode, at, e1, e2));
  }

  lemma LevelGrows(k: Setup, s: Bridge, level: HighLevel, at: nat, e1: Env, e2: Env, e3: Env)
    ensures Grows(s, HighLevelReport(k, s, level, at, e1, e2, e3))
  {
    var known := s.(scene := s.scene.(highLevel := level));
    EndTestGrows(k, known, at);
    DriveBladeGrows(k, Abandon(k, known, at), e1);
    GrowsOn(known, Abandon(k, known, at), Retire(k, known, at, e1));
    var relevelled := Relevel(k, s, level, at, e1);
    GrowsOn(s, known, relevelled);
    DriveAllGrows(k, relevelled, e2, e3);
    GrowsOn(s, relevelled, HighLevelReport(k, s, level, at, e1, e2, e3));
  }

  lemma BladeEventGrows(k: Setup, s: Bridge, e: B.Event, e1: Env)
    ensures Grows(s, DriveBlade(k, Blade(k, s, e), e1))
  {
    DriveBladeGrows(k, Blade(k, s, e), e1);
    GrowsOn(s, Blade(k, s, e), DriveBlade(k, Blade(k, s, e), e1));
  }

  lemma FcuReplyGrows(k: Setup, s: Bridge, serial: nat, accepted: bool, at: nat, e1: Env, e2: Env)
    ensures Grows(s, FcuReply(k, s, serial, accepted, at, e1, e2))
  {
    var told := s.(scene := s.scene.(session := S.Complete(s.scene.session, serial, accepted, at)));
    DriveAllGrows(k, told, e1, e2);
    GrowsOn(s, told, FcuReply(k, s, serial, accepted, at, e1, e2));
  }

  lemma RemapGrows(k: Setup, s: Bridge, slot: int, at: nat, e1: Env)
    ensures Grows(s, Remap(k, s, slot, at, e1))
  {
    var mapped := s.(scene := s.scene.(bladeSlot := slot));
    BladeEventGrows(k, mapped, B.EvForceOff(at), e1);
    GrowsOn(s, mapped, Remap(k, s, slot, at, e1));
  }

  // The bridge after the callback has heard a call, if it is one.
  function HeardBy(s: Bridge, e: Event): Bridge {
    if e.EvMowerControl? then s.(asked := s.asked + [Wish(e.call)]) else s
  }

  lemma ReportStepGrows(k: Setup, s: Bridge, e: Event)
    requires e.EvFcu? || e.EvHighLevel? || e.EvFcuReply?
    ensures Grows(s, Driven(k, s, e))
  {
    match e
    case EvHighLevel(level, at, e1, e2, e3) => LevelGrows(k, s, level, at, e1, e2, e3);
    case EvFcu(connected, armed, mode, at, e1, e2) => ReportGrows(k, s, connected, armed, mode, at, e1, e2);
    case EvFcuReply(serial, accepted, at, e1, e2) => FcuReplyGrows(k, s, serial, accepted, at, e1, e2);
  }

  lemma OrderStepGrows(k: Setup, s: Bridge, e: Event)
    requires e.EvTimer? || e.EvVelocity? || e.EvSafetyDisarm? || e.EvRemap?
    ensures Grows(s, Driven(k, s, e))
  {
    match e
    case EvTimer(e1, e2) => DriveAllGrows(k, s, e1, e2);
    case EvVelocity(e1) => DriveSessionGrows(k, s, e1);
    case EvSafetyDisarm(hold, at, e1, e2) => SecureGrows(k, s, hold, at, e1, e2);
    case EvRemap(slot, at, e1) => RemapGrows(k, s, slot, at, e1);
  }

  lemma DrivenGrows(k: Setup, s: Bridge, e: Event)
    requires !Senses(e) && !Tells(e)
    ensures Grows(HeardBy(s, e), Driven(k, s, e))
  {
    if e.EvMowerControl? {
      CallGrows(k, s, e.call, e.e1, e.e2, e.e3, e.e4);
    } else if e.EvFcu? || e.EvHighLevel? || e.EvFcuReply? {
      ReportStepGrows(k, s, e);
    } else {
      OrderStepGrows(k, s, e);
    }
  }

  lemma StepGrows(k: Setup, s: Bridge, e: Event)
    ensures Grows(HeardBy(s, e), Step(k, s, e))
  {
    if Tells(e) {
      BladeEventGrows(k, s, Told(e), e.e1);
    } else if !Senses(e) {
      DrivenGrows(k, s, e);
    }
  }

  /** The record of one state is a prefix of the record of a later one. */
  predicate Continues(s: Bridge, n: Bridge) {
    && Prefix(s.asked, n.asked) && Prefix(s.answers, n.answers) && Prefix(s.dispatches, n.dispatches)
    && Prefix(s.orders, n.orders)
  }

  lemma ContinuesOn(s: Bridge, m: Bridge, n: Bridge)
    requires Continues(s, m) && Continues(m, n)
    ensures Continues(s, n)
  {
    assert n.asked[..|s.asked|] == m.asked[..|s.asked|];
    assert n.answers[..|s.answers|] == m.answers[..|s.answers|];
    assert n.dispatches[..|s.dispatches|] == m.dispatches[..|s.dispatches|];
    assert n.orders[..|s.orders|] == m.orders[..|s.orders|];
  }

  /** No run ever takes back what was heard, answered, dispatched or ordered. */
  lemma {:induction false} RunContinues(k: Setup, s: Bridge, events: seq<Event>)
    ensures Continues(s, Run(k, s, events))
    decreases |events|
  {
    if events != [] {
      var n := Step(k, s, events[0]);
      StepGrows(k, s, events[0]);
      assert Continues(s, n);
      RunContinues(k, n, events[1..]);
      ContinuesOn(s, n, Run(k, s, events));
    }
  }

  lemma {:induction false} RunJoin(k: Setup, s: Bridge, a: seq<Event>, b: seq<Event>)
    ensures Run(k, s, a + b) == Run(k, Run(k, s, a), b)
    decreases |a|
  {
    if a == [] {
      assert a + b == b;
    } else {
      assert (a + b)[1..] == a[1..] + b;
      RunJoin(k, Step(k, s, a[0]), a[1..], b);
    }
  }

  /** The direction a call gets is the direction it asked for: whenever in any run a caller is told `true`, its call was
      in range and the blade was confirmed OFF for `enabled` 0, FORWARD for direction 0 and REVERSE for direction 1. */
  lemma CallerGetsItsDirection(k: Setup, before: seq<Event>, call: Event, after: seq<Event>, i: nat)
    requires call.EvMowerControl? && i < |Run(k, START, before + [call] + after).answers|
    requires var a := Run(k, START, before + [call] + after).answers[i];
             a.success && a.caller == |Run(k, START, before).asked|
    ensures var confirmed := Run(k, START, before + [call] + after).answers[i].blade.confirmed;
            && call.call.enabled <= 1 && (call.call.enabled == 1 ==> call.call.direction <= 1)
            && (call.call.enabled == 0 ==> confirmed == B.Off)
            && (call.call.enabled == 1 && call.call.direction == 0 ==> confirmed == B.Forward)
            && (call.call.enabled == 1 && call.call.direction == 1 ==> confirmed == B.Reverse)
  {
    var s := Run(k, START, before);
    var heard := Step(k, s, call);
    RunJoin(k, START, before, [call]);
    assert Run(k, s, [call]) == heard;
    RunJoin(k, START, before + [call], after);
    StepGrows(k, s, call);
    RunContinues(k, heard, after);
    var n := Run(k, heard, after);
    assert heard.asked[|s.asked|] == Wish(call.call) && n.asked[..|heard.asked|][|s.asked|] == heard.asked[|s.asked|];
    TrueMeansConfirmed(k, before + [call] + after, i);
  }

  /** A call out of range is refused at once, and changes nothing else. */
  lemma MalformedIsRefused(k: Setup, s: Bridge, call: Call, e1: Env, e2: Env, e3: Env, e4: Env)
    requires call.enabled > 1 || (call.enabled == 1 && call.direction > 1)
    ensures MowerControl(k, s, call, e1, e2, e3, e4)
            == s.(asked := s.asked + [None], answers := s.answers + [Answer(|s.asked|, false, s.blade.blade)])
  {
  }

  lemma OffStays(c: B.Config, b: B.Blade, e: B.Event)
    requires b.requested == B.Off && !e.EvRequest?
    ensures B.After(c, b, e).requested == B.Off
  {
    if e.EvTick? || e.EvPoll? { Wiring.TickRequests(c, b, e.at); }
  }

  // Nothing waits to start and OFF is requested.
  predicate Stopping(s: Bridge) { s.starts == [] && s.blade.blade.requested == B.Off }

  lemma EndTestStops(k: Setup, s: Bridge, at: nat)
    requires Stopping(s)
    ensures Stopping(EndTest(k, s, at))
  {
    assert CancelStarts(s.(scene := s.scene.(bladeTest := false))).starts == [];
  }

  lemma PrepareStops(k: Setup, s: Bridge, e: Env)
    requires Stopping(s)
    ensures Stopping(Prepare(k, s, e))
  {
    var tested := EndFailedTest(k, s, e);
    EndTestStops(k, s, e.again);
    GrantStops(k, tested, e);
    EndTestStops(k, Grant(k, tested, e), e.again);
    var reviewed := Review(k, s, e);
    assert Admit(k, reviewed, 0, e.steady) == reviewed;
    var expired := ExpireService(k, reviewed, e);
    ReapLeavesBlade(expired, 0, e.steady);
    EndTestStops(k, Reap(expired, 0, e.steady), e.again);
  }

  lemma GrantStops(k: Setup, s: Bridge, e: Env)
    requires Stopping(s)
    ensures Stopping(Grant(k, s, e))
  {
    var permit := B.EvPermit(BladeAllowed(k, s.scene, e.steady), e.steady);
    OffStays(k.blade, s.blade.blade, permit);
    OffStays(k.blade, B.After(k.blade, s.blade.blade, permit), B.EvTick(e.steady));
  }

  lemma {:induction false} ReapLeavesBlade(s: Bridge, i: nat, now: int)
    ensures Reap(s, i, now).blade == s.blade && Reap(s, i, now).starts == s.starts
    decreases |s.replies| - i
  {
    if i < |s.replies| {
      var reply := s.replies[i];
      if Lapsed(s, reply, now) || B.Satisfied(s.blade.blade) {
        ReapLeavesBlade(Tell(s, reply.caller, !Lapsed(s, reply, now)).(replies := Without(s.replies, i)), i, now);
      } else {
        ReapLeavesBlade(s, i + 1, now);
      }
    }
  }

  // Sending while OFF is requested leaves no ON newest on the wire.
  lemma SendStops(k: Setup, s: Bridge, e: Env)
    requires Safety.Sound(k.blade, s.blade, 0) && Stopping(s) && e.transport
    ensures !Safety.OnWire(Safety.Newest(Send(k, s, e).blade.log))
  {
    var b, poll := s.blade.blade, B.EvPoll(e.steady);
    var n := Blade(k, s, poll);
    Safety.SoundStep(k.blade, s.blade, poll, 0);
    OffStays(k.blade, b, poll);
    PollLeavesNoOrphan(k.blade, b, e.steady);
    var command := B.PollCommand(k.blade, b, e.steady);
    if command.Some? {
      var sent := n.(dispatches := n.dispatches + [Dispatch(command.value, e.steady, n.scene)]);
      CompleteIsOffWire(k, sent, command.value.token, e.again);
    }
    assert !Safety.OnWire(Safety.Newest(n.blade.log));
  }

  lemma DriveStops(k: Setup, s: Bridge, e: Env, held: multiset<nat>)
    requires Inv(k, s, held) && Stopping(s) && e.transport
    ensures !Safety.OnWire(Safety.Newest(DriveBlade(k, s, e).blade.log))
  {
    PrepareKeeps(k, s, e, held);
    PrepareStops(k, s, e);
    SendStops(k, Prepare(k, s, e), e);
  }

  lemma SessionLeavesWire(k: Setup, s: Bridge, e: Env)
    ensures DriveSession(k, s, e).blade.log == s.blade.log
  {
    var steered := Steer(k, s, e.steady);
    CancelLeavesBlade(steered.(scene := steered.scene.(bladeTest := false)));
  }

  lemma {:induction false} CancelLeavesBlade(s: Bridge)
    ensures CancelStarts(s).blade == s.blade && CancelStarts(s).starts == []
    decreases |s.starts|
  {
    if s.starts != [] { CancelLeavesBlade(Tell(s, s.starts[0].caller, false).(starts := s.starts[1..])); }
  }

  lemma SubmitStops(k: Setup, s: Bridge, caller: nat, c: Call)
    requires Safety.Sound(k.blade, s.blade, 0) && s.starts == []
    ensures Stopping(Submit(k, s, caller, B.Off, c.at, c.at, c.transport))
  {
  }

  // A stopped bridge without a test stays so through both drives.
  lemma DrivesKeepStopped(k: Setup, s: Bridge, e1: Env, e2: Env)
    requires Stopping(s) && !s.scene.bladeTest
    ensures var n := DriveSession(k, DriveBlade(k, s, e1), e2); n.starts == [] && !n.scene.bladeTest
  {
    PrepareStops(k, s, e1);
    DriveBladeLeavesScene(k, s, e1);
    assert DriveBlade(k, s, e1).starts == Prepare(k, s, e1).starts;
  }

  /** An OFF call stops the blade, whatever the state: after every OFF call that finds the transport, in every run, no ON
      is the newest command on the wire, no start is waiting and no test is running. */
  lemma OffCallStops(k: Setup, before: seq<Event>, call: Call, e1: Env, e2: Env, e3: Env, e4: Env)
    requires call.enabled == 0 && e1.transport
    ensures Stopped(Step(k, Run(k, START, before), EvMowerControl(call, e1, e2, e3, e4)))
  {
    StartKeeps(k);
    RunKeeps(k, START, before);
    CallStops(k, Run(k, START, before), call, e1, e2, e3, e4);
    CallStep(k, Run(k, START, before), call, e1, e2, e3, e4);
  }

  predicate Stopped(s: Bridge) {
    !Safety.OnWire(Safety.Newest(s.blade.log)) && s.starts == [] && !s.scene.bladeTest
  }

  lemma CallStep(k: Setup, s: Bridge, c: Call, e1: Env, e2: Env, e3: Env, e4: Env)
    ensures Step(k, s, EvMowerControl(c, e1, e2, e3, e4)) == MowerControl(k, s, c, e1, e2, e3, e4)
  {
  }

  lemma CallStops(k: Setup, s: Bridge, call: Call, e1: Env, e2: Env, e3: Env, e4: Env)
    requires Inv(k, s, multiset{}) && call.enabled == 0 && e1.transport
    ensures Stopped(MowerControl(k, s, call, e1, e2, e3, e4))
  {
    var caller, heard, held := |s.asked|, s.(asked := s.asked + [Some(B.Off)]), multiset{|s.asked|};
    HearKeeps(k, s, Some(B.Off));
    BindKeeps(k, heard, call, held);
    BindStops(k, heard, call);
    var bound := Bind(k, heard, call);
    SubmitKeeps(k, bound, caller, B.Off, call.at, call.at, call.transport, held);
    SubmitStops(k, bound, caller, call);
    var submitted := Submit(k, bound, caller, B.Off, call.at, call.at, call.transport);
    DriveStops(k, submitted, e1, held - multiset{caller});
    DrivesKeepStopped(k, submitted, e1, e2);
    SessionLeavesWire(k, DriveBlade(k, submitted, e1), e2);
    assert MowerControl(k, s, call, e1, e2, e3, e4) == CallOff(k, heard, caller, call, e1, e2);
  }

  lemma BindStops(k: Setup, s: Bridge, c: Call)
    ensures Bind(k, s, c).starts == [] && !Bind(k, s, c).scene.bladeTest
  {
    CancelLeavesBlade(s);
  }
}
