/** What the callers of `mower_control` are told, in terms of their calls and of the observable blade state. */
module BridgeAnswers {
  import opened Wrappers
  import B = BladeProtocol
  import S = SessionProtocol
  import Safety = BladeSafety
  import Wiring = BladeCommands
  import opened BridgeProtocol
  import opened BridgeInvariant
  import opened BridgeSteps

  /** The blade is where it is wanted: nothing in flight or queued, confirmed as requested, and no fault. */
  predicate Arrived(b: B.Blade) {
    b.inFlight.None? && !b.queuedNeutral && b.confirmed == b.requested && !b.fault
  }

  /** The caller still waits for this very request, in time and without a fault. */
  predicate Entitled(b: B.Blade, reply: Reply, now: int) {
    reply.revision == b.revision && !b.fault && now - reply.started <= 20000
  }

  /** The answers that a review of the waiting replies owes, in order. */
  function Verdicts(replies: seq<Reply>, b: B.Blade, now: int): seq<Answer> {
    if replies == [] then []
    else
      (if Entitled(b, replies[0], now) && !Arrived(b) then []
       else [Answer(replies[0].caller, Entitled(b, replies[0], now) && Arrived(b), b)])
      + Verdicts(replies[1..], b, now)
  }

  /** The replies that go on waiting. */
  function StillWaiting(replies: seq<Reply>, b: B.Blade, now: int): seq<Reply> {
    if replies == [] then []
    else
      (if Entitled(b, replies[0], now) && !Arrived(b) then [replies[0]] else [])
      + StillWaiting(replies[1..], b, now)
  }

  lemma ReviewHead(replies: seq<Reply>, i: nat, b: B.Blade, now: int)
    requires i < |replies|
    ensures var reply, rest := replies[i], replies[i + 1..];
            && Verdicts(replies[i..], b, now)
               == (if Entitled(b, reply, now) && !Arrived(b) then []
                   else [Answer(reply.caller, Entitled(b, reply, now) && Arrived(b), b)]) + Verdicts(rest, b, now)
            && StillWaiting(replies[i..], b, now)
               == (if Entitled(b, reply, now) && !Arrived(b) then [reply] else []) + StillWaiting(rest, b, now)
  {
    assert replies[i..][0] == replies[i] && replies[i..][1..] == replies[i + 1..];
  }

  // The reply at position i is answered.
  function Settle(s: Bridge, i: nat, now: int): Bridge
    requires i < |s.replies|
  {
    var b, reply := s.blade.blade, s.replies[i];
    Tell(s, reply.caller, Entitled(b, reply, now) && Arrived(b)).(replies := Without(s.replies, i))
  }

  predicate Waits(s: Bridge, i: nat, now: int)
    requires i < |s.replies|
  {
    Entitled(s.blade.blade, s.replies[i], now) && !Arrived(s.blade.blade)
  }

  lemma ReapStep(s: Bridge, i: nat, now: int)
    requires i < |s.replies|
    ensures Reap(s, i, now) == if Waits(s, i, now) then Reap(s, i + 1, now) else Reap(Settle(s, i, now), i, now)
  {
  }

  // What a review from position i on makes of the answers and of the replies.
  predicate ReviewedFrom(s: Bridge, i: nat, n: Bridge, now: int)
    requires i <= |s.replies|
  {
    && n.answers == s.answers + Verdicts(s.replies[i..], s.blade.blade, now)
    && n.replies == s.replies[..i] + StillWaiting(s.replies[i..], s.blade.blade, now)
    && n.blade == s.blade && n.starts == s.starts && n.scene == s.scene
  }

  lemma ReviewWaits(s: Bridge, i: nat, n: Bridge, now: int)
    requires i < |s.replies| && Waits(s, i, now) && ReviewedFrom(s, i + 1, n, now)
    ensures ReviewedFrom(s, i, n, now)
  {
    var before, reply := s.replies[..i], s.replies[i];
    var rest := StillWaiting(s.replies[i + 1..], s.blade.blade, now);
    ReviewHead(s.replies, i, s.blade.blade, now);
    assert s.replies[..i + 1] == before + [reply];
    assert before + [reply] + rest == before + ([reply] + rest);
  }

  lemma ReviewSettles(s: Bridge, i: nat, n: Bridge, now: int)
    requires i < |s.replies| && !Waits(s, i, now) && ReviewedFrom(Settle(s, i, now), i, n, now)
    ensures ReviewedFrom(s, i, n, now)
  {
    ReviewHead(s.replies, i, s.blade.blade, now);
    assert Without(s.replies, i)[..i] == s.replies[..i] && Without(s.replies, i)[i..] == s.replies[i + 1..];
  }

  lemma {:induction false} ReapIsReview(s: Bridge, i: nat, now: int)
    requires i <= |s.replies|
    ensures ReviewedFrom(s, i, Reap(s, i, now), now)
    decreases |s.replies| - i
  {
    if i == |s.replies| {
      assert s.answers + [] == s.answers && s.replies[..i] + [] == s.replies;
    } else {
      ReapStep(s, i, now);
      if Waits(s, i, now) {
        ReapIsReview(s, i + 1, now);
        ReviewWaits(s, i, Reap(s, i, now), now);
      } else {
        ReapIsReview(Settle(s, i, now), i, now);
        ReviewSettles(s, i, Reap(s, i, now), now);
      }
    }
  }

  /** The bridge at the moment a drive reviews the waiting replies: permission, timers, waiting starts and the deadline of
      the service have been dealt with. */
  function Reviewed(k: Setup, s: Bridge, e: Env): Bridge {
    ExpireService(k, Admit(k, Review(k, s, e), 0, e.steady), e)
  }

  /** A drive of the blade answers `true` to exactly the waiting callers whose request is the current one, in time and
      without a fault, once the blade has arrived; it answers `false` to exactly those whose request was superseded,
      faulted or is overdue; all others go on waiting. */
  lemma DriveAnswers(k: Setup, s: Bridge, e: Env)
    ensures var m, n := Reviewed(k, s, e), DriveBlade(k, s, e);
            && n.answers == m.answers + Verdicts(m.replies, m.blade.blade, e.steady)
            && n.replies == StillWaiting(m.replies, m.blade.blade, e.steady)
  {
    var m := Reviewed(k, s, e);
    ReapIsReview(m, 0, e.steady);
    assert m.replies[0..] == m.replies;
    var reaped := Reap(m, 0, e.steady);
    IdleEndAnswersNobody(k, reaped, e);
    SendAnswersNobody(k, EndIdleTest(k, reaped, e), e);
  }

  lemma IdleEndAnswersNobody(k: Setup, s: Bridge, e: Env)
    ensures EndIdleTest(k, s, e).answers == s.answers && EndIdleTest(k, s, e).replies == s.replies
  {
    if s.starts == [] {
      var quiet := s.(scene := s.scene.(bladeTest := false));
      assert CancelStarts(quiet) == quiet;
    }
  }

  lemma SendAnswersNobody(k: Setup, s: Bridge, e: Env)
    ensures Send(k, s, e).answers == s.answers && Send(k, s, e).replies == s.replies
  {
  }

  lemma {:induction false} VerdictOf(replies: seq<Reply>, b: B.Blade, now: int, j: nat)
    requires j < |replies|
    ensures if Entitled(b, replies[j], now) && !Arrived(b) then replies[j] in StillWaiting(replies, b, now)
            else Answer(replies[j].caller, Entitled(b, replies[j], now) && Arrived(b), b) in Verdicts(replies, b, now)
    decreases j
  {
    if j > 0 { VerdictOf(replies[1..], b, now, j - 1); }
  }

  // Nothing intervenes before the replies are reviewed: no start waits, no test fails, no permission is lost and no
  // deadline of the controller is due.
  predicate Undisturbed(k: Setup, s: Bridge, e: Env) {
    && s.starts == [] && !s.scene.bladeTest
    && (s.blade.blade.allowed ==> BladeAllowed(k, s.scene, e.steady))
    && B.Tick(k.blade, s.blade.blade, e.steady) == s.blade.blade
  }

  lemma TickIgnoresPermission(c: B.Config, b: B.Blade, allowed: bool, now: int)
    requires B.Tick(c, b, now) == b
    ensures B.Tick(c, b.(allowed := allowed), now) == b.(allowed := allowed)
  {
    var p := b.(allowed := allowed);
    assert B.ExpireAck(c, b, now) == b && B.ExpireAck(c, p, now) == p by { TickStages(c, b, now); }
    TickStages(c, b, now);
  }

  // A tick that changes nothing changes nothing at any stage.
  lemma TickStages(c: B.Config, b: B.Blade, now: int)
    requires B.Tick(c, b, now) == b
    ensures !(b.inFlight.Some? && now - b.sentAt >= c.ackTimeout)
    ensures B.ExpireSample(c, b, now) == b && B.ExpireStop(c, b, now) == b
    ensures !(b.requested != B.Off && B.Stale(c, b, now))
    ensures !(b.phase == B.WaitStop && b.inFlight.None? && now - b.waitSince >= c.stopTimeout)
  {
    var acked := B.ExpireAck(c, b, now);
    var sampled := B.ExpireSample(c, acked, now);
    assert acked.revision >= b.revision && sampled.revision >= acked.revision;
    assert B.ExpireStop(c, sampled, now).revision >= sampled.revision;
  }

  /** When nothing intervenes, a drive tells a waiting caller `true` if and only if its request is the current one, in
      time and without a fault, and the controller has nothing in flight or queued and confirmed what is requested. */
  lemma WaitingCallerIsTold(k: Setup, s: Bridge, e: Env, j: nat)
    requires j < |s.replies| && Undisturbed(k, s, e)
    requires Arrived(s.blade.blade) || forall i | 0 <= i < |s.replies| :: e.steady - s.replies[i].started <= 20000
    ensures var n, b, r := DriveBlade(k, s, e), s.blade.blade, s.replies[j];
            var entitled := r.revision == b.revision && !b.fault && e.steady - r.started <= 20000;
            var arrived := b.inFlight.None? && !b.queuedNeutral && b.confirmed == b.requested && !b.fault;
            && |n.answers| >= |s.answers| && n.answers[..|s.answers|] == s.answers
            && (entitled && arrived ==> exists a :: a in n.answers[|s.answers|..] && a.caller == r.caller && a.success)
            && (!entitled ==> exists a :: a in n.answers[|s.answers|..] && a.caller == r.caller && !a.success)
            && (entitled && !arrived ==> r in n.replies)
            && (forall a | a in n.answers[|s.answers|..] :: a.success ==> arrived)
  {
    var b, r := s.blade.blade, s.replies[j];
    var permitted := b.(allowed := BladeAllowed(k, s.scene, e.steady));
    TickIgnoresPermission(k.blade, b, BladeAllowed(k, s.scene, e.steady), e.steady);
    var m := s.(blade := s.blade.(blade := permitted));
    GrantIsPermission(k, s, e);
    assert Review(k, s, e) == m && Admit(k, m, 0, e.steady) == m;
    assert Reviewed(k, s, e) == m;
    DriveAnswers(k, s, e);
    VerdictOf(s.replies, permitted, e.steady, j);
    VerdictsAgree(s.replies, permitted, e.steady);
    var n := DriveBlade(k, s, e);
    assert n.answers[|s.answers|..] == Verdicts(s.replies, permitted, e.steady);
    var verdict := Answer(r.caller, Entitled(permitted, r, e.steady) && Arrived(permitted), permitted);
    assert Entitled(permitted, r, e.steady) == Entitled(b, r, e.steady) && Arrived(permitted) == Arrived(b);
  }

  lemma GrantIsPermission(k: Setup, s: Bridge, e: Env)
    requires s.blade.blade.allowed ==> BladeAllowed(k, s.scene, e.steady)
    requires B.Tick(k.blade, s.blade.blade, e.steady) == s.blade.blade
    ensures Grant(k, s, e)
            == s.(blade := s.blade.(blade := s.blade.blade.(allowed := BladeAllowed(k, s.scene, e.steady))))
  {
    TickIgnoresPermission(k.blade, s.blade.blade, BladeAllowed(k, s.scene, e.steady), e.steady);
    assert s.blade.log + [] == s.blade.log;
  }

  lemma {:induction false} VerdictsAgree(replies: seq<Reply>, b: B.Blade, now: int)
    ensures forall a | a in Verdicts(replies, b, now) :: a.success ==> Arrived(b)
    decreases |replies|
  {
    if replies != [] { VerdictsAgree(replies[1..], b, now); }
  }

  /** A request that reaches the controller is answered at once exactly if it is refused, if nothing is left to do, or if
      it cannot wait: `true` if and only if the transport is there and the blade has arrived at the very direction
      asked for. Otherwise the caller waits under the revision its request has got. */
  lemma SubmissionIsAnswered(k: Setup, s: Bridge, caller: nat, d: B.Direction, started: int, now: nat, transport: bool)
    ensures var n, b := Submit(k, s, caller, d, started, now, transport), s.blade.blade;
            var accepted := && b.connected && d != B.Unknown && !b.fault
                            && (d != B.Off ==> b.allowed && b.sampleReceipt >= 0
                                               && now - b.sampleReceipt <= k.blade.freshness);
            var there := accepted && d == b.requested && Arrived(b);
            if accepted && !there && transport && |s.replies| < 32
            then n.answers == s.answers && n.replies == s.replies + [Reply(caller, n.blade.blade.revision, started)]
            else n.replies == s.replies
                 && |n.answers| == |s.answers| + 1 && n.answers[..|s.answers|] == s.answers
                 && n.answers[|s.answers|].caller == caller
                 && n.answers[|s.answers|].success == (transport && there)
  {
    Wiring.RequestIsAnswered(k.blade, s.blade.blade, d, now);
  }
}
