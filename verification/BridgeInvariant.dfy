/** The invariant of the composed bridge and the proof that every piece of every callback keeps it. */
module BridgeInvariant {
  import opened Wrappers
  import B = BladeProtocol
  import S = SessionProtocol
  import Safety = BladeSafety
  import Wiring = BladeCommands
  import T = SessionTheorems
  import opened BridgeProtocol

  function Answered(xs: seq<Answer>): seq<nat> {
    seq(|xs|, i requires 0 <= i < |xs| => xs[i].caller)
  }

  function Starting(xs: seq<Start>): seq<nat> {
    seq(|xs|, i requires 0 <= i < |xs| => xs[i].caller)
  }

  function Waiting(xs: seq<Reply>): seq<nat> {
    seq(|xs|, i requires 0 <= i < |xs| => xs[i].caller)
  }

  function Everyone(n: nat): seq<nat> {
    seq(n, i => i)
  }

  /** Conservation: every caller that was ever heard is answered, starting, waiting for a reply or held by the
      current callback, each exactly once. */
  ghost predicate Conserved(s: Bridge, held: multiset<nat>) {
    multiset(Everyone(|s.asked|)) ==
      multiset(Answered(s.answers)) + multiset(Starting(s.starts)) + multiset(Waiting(s.replies)) + held
  }

  predicate StartBound(asked: seq<Option<B.Direction>>, start: Start) {
    start.caller < |asked| && asked[start.caller] == Some(start.direction) && B.IsOn(start.direction)
  }

  // A reply that still carries the current revision waits for the caller's own direction.
  predicate ReplyBound(asked: seq<Option<B.Direction>>, b: B.Blade, reply: Reply) {
    && reply.caller < |asked| && reply.revision <= b.revision
    && (reply.revision == b.revision ==> asked[reply.caller] == Some(b.requested))
  }

  /** `true` means: at that moment the blade is confirmed in the caller's own direction, nothing is in flight
      or queued, and there is no fault. */
  predicate Truthful(asked: seq<Option<B.Direction>>, answer: Answer) {
    answer.success ==>
      && answer.caller < |asked|
      && B.Satisfied(answer.blade)
      && asked[answer.caller] == Some(answer.blade.confirmed)
  }

  ghost predicate Queues(s: Bridge) {
    && |s.starts| <= QUEUE_LIMIT && |s.replies| <= QUEUE_LIMIT
    && (forall i | 0 <= i < |s.starts| :: StartBound(s.asked, s.starts[i]))
    && (forall i | 0 <= i < |s.replies| :: ReplyBound(s.asked, s.blade.blade, s.replies[i]))
    && (forall i | 0 <= i < |s.answers| :: Truthful(s.asked, s.answers[i]))
  }

  // The commands on the wire of the blade controller, in order.
  function Commands(log: seq<B.Entry>): seq<(nat, B.Direction)> {
    if log == [] then []
    else
      var last := log[|log| - 1];
      Commands(log[..|log| - 1]) + (if last.Emitted? then [(last.token, last.direction)] else [])
  }

  function Dispatched(xs: seq<Dispatch>): seq<(nat, B.Direction)> {
    seq(|xs|, i requires 0 <= i < |xs| => (xs[i].command.token, xs[i].command.direction))
  }

  // Every command on the wire was dispatched as configured, every ON among them in a scene that permitted it.
  ghost predicate Permitted(k: Setup, s: Bridge) {
    && Commands(s.blade.log) == Dispatched(s.dispatches)
    && (forall i | 0 <= i < |s.dispatches| :: Wiring.WiredAs(k.blade, s.dispatches[i].command))
    && (forall i | 0 <= i < |s.dispatches| && B.IsOn(s.dispatches[i].command.direction) ::
          BladeAllowed(k, s.dispatches[i].scene, s.dispatches[i].at))
  }

  ghost predicate Core(k: Setup, s: Bridge, held: multiset<nat>) {
    Safety.Sound(k.blade, s.blade, 0) && Wiring.PhaseTrue(s.blade.blade) && Conserved(s, held) && Queues(s) && Permitted(k, s)
  }

  // Both controllers see the same FCU, and ARM is never demanded together with a safety DISARM.
  predicate Linked(s: Bridge) {
    && s.scene.session.connected == s.scene.fcuConnected == s.blade.blade.connected
    && s.scene.session.armed == s.scene.fcuArmed && s.scene.session.mode == s.scene.fcuMode
    && T.Consistent(s.scene.session)
  }

  ghost predicate Inv(k: Setup, s: Bridge, held: multiset<nat>) {
    Core(k, s, held) && Linked(s)
  }

  // Either the revision moved on or the requested direction is still the same.
  predicate Advances(b: B.Blade, n: B.Blade) {
    n.revision > b.revision || (n.revision == b.revision && n.requested == b.requested)
  }

  predicate SamePermits(b: B.Blade, n: B.Blade) { n.connected == b.connected && n.allowed == b.allowed }

  // A neutral is queued with nothing in flight: whatever else happens, the next poll sends it.
  predicate ForcedOff(b: B.Blade) { b.queuedNeutral && b.inFlight.None? }

  lemma TickAdvances(c: B.Config, b: B.Blade, now: int)
    ensures Advances(b, B.Tick(c, b, now)) && SamePermits(b, B.Tick(c, b, now))
    ensures ForcedOff(b) ==> ForcedOff(B.Tick(c, b, now))
  {
    var acked := B.ExpireAck(c, b, now);
    assert Advances(b, acked) && SamePermits(b, acked) && (ForcedOff(b) ==> ForcedOff(acked));
    var sampled := B.ExpireSample(c, acked, now);
    assert Advances(acked, sampled) && SamePermits(acked, sampled) && (ForcedOff(acked) ==> ForcedOff(sampled));
  }

  lemma RequestAdvances(c: B.Config, b: B.Blade, d: B.Direction, now: int)
    ensures Advances(b, B.Request(c, b, d, now)) && SamePermits(b, B.Request(c, b, d, now))
    ensures ForcedOff(b) ==> ForcedOff(B.Request(c, b, d, now))
  {
  }

  lemma SampleAdvances(c: B.Config, b: B.Blade, e: B.Event)
    requires e.EvSample?
    ensures Advances(b, B.After(c, b, e)) && SamePermits(b, B.After(c, b, e))
    ensures ForcedOff(b) ==> ForcedOff(B.After(c, b, e))
  {
  }

  lemma CompleteAdvances(b: B.Blade, token: nat, accepted: bool, now: int)
    ensures Advances(b, B.Complete(b, token, accepted, now)) && SamePermits(b, B.Complete(b, token, accepted, now))
    ensures ForcedOff(b) ==> ForcedOff(B.Complete(b, token, accepted, now))
  {
  }

  /** Equal revision implies equal requested direction: every event advances the revision or keeps the
      direction. Only connection and permission events touch those two flags, and only a poll discharges a
      queued neutral. */
  lemma RevisionBindsDirection(c: B.Config, b: B.Blade, e: B.Event)
    ensures Advances(b, B.After(c, b, e))
    ensures e.EvConnect? || e.EvPermit? || SamePermits(b, B.After(c, b, e))
    ensures e.EvConnect? ==> B.After(c, b, e).allowed == b.allowed
    ensures e.EvPermit? ==> B.After(c, b, e).connected == b.connected
    ensures !e.EvPoll? && ForcedOff(b) ==> ForcedOff(B.After(c, b, e))
  {
    match e
    case EvTick(at) => TickAdvances(c, b, at);
    case EvPoll(at) => TickAdvances(c, b, at);
    case EvRequest(d, at) => RequestAdvances(c, b, d, at);
    case EvSample(_, _, _, _, _, _, _) => SampleAdvances(c, b, e);
    case EvComplete(token, accepted, at) => CompleteAdvances(b, token, accepted, at);
    case _ =>
  }

  lemma CommandsAppend(log: seq<B.Entry>, more: seq<B.Entry>)
    requires |more| <= 1
    ensures Commands(log + more) ==
            Commands(log) + (if more != [] && more[0].Emitted? then [(more[0].token, more[0].direction)] else [])
  {
    if more == [] { assert log + more == log; } else { assert (log + more)[..|log|] == log; }
  }

  // A blade event other than a poll leaves callers and dispatches alone.
  lemma BladeKeeps(k: Setup, s: Bridge, e: B.Event, held: multiset<nat>)
    requires Core(k, s, held) && !e.EvPoll?
    ensures Core(k, Blade(k, s, e), held)
    ensures !e.EvConnect? && Linked(s) ==> Linked(Blade(k, s, e))
    ensures !e.EvPermit? ==> Blade(k, s, e).blade.blade.allowed == s.blade.blade.allowed
    ensures ForcedOff(s.blade.blade) ==> ForcedOff(Blade(k, s, e).blade.blade)
  {
    var n := Blade(k, s, e);
    Safety.SoundStep(k.blade, s.blade, e, 0);
    Wiring.PhaseStep(k.blade, s.blade.blade, Safety.Newest(s.blade.log), e);
    RevisionBindsDirection(k.blade, s.blade.blade, e);
    CommandsAppend(s.blade.log, B.Noted(k.blade, s.blade.blade, e));
    forall i | 0 <= i < |n.replies| ensures ReplyBound(n.asked, n.blade.blade, n.replies[i]) {
      assert ReplyBound(s.asked, s.blade.blade, s.replies[i]);
    }
  }

  lemma SplitAt<T>(xs: seq<T>, i: nat)
    requires i < |xs|
    ensures multiset(xs) == multiset(xs[..i] + xs[i + 1..]) + multiset{xs[i]}
  {
    assert xs == xs[..i] + [xs[i]] + xs[i + 1..];
  }

  lemma AnsweredAppend(xs: seq<Answer>, x: Answer)
    ensures multiset(Answered(xs + [x])) == multiset(Answered(xs)) + multiset{x.caller}
  {
    assert Answered(xs + [x]) == Answered(xs) + [x.caller];
  }

  lemma StartingAppend(xs: seq<Start>, x: Start)
    ensures multiset(Starting(xs + [x])) == multiset(Starting(xs)) + multiset{x.caller}
  {
    assert Starting(xs + [x]) == Starting(xs) + [x.caller];
  }

  lemma StartingWithout(xs: seq<Start>, i: nat)
    requires i < |xs|
    ensures multiset(Starting(xs)) == multiset(Starting(Without(xs, i))) + multiset{xs[i].caller}
  {
    SplitAt(Starting(xs), i);
    assert Starting(Without(xs, i)) == Starting(xs)[..i] + Starting(xs)[i + 1..];
  }

  lemma WaitingAppend(xs: seq<Reply>, x: Reply)
    ensures multiset(Waiting(xs + [x])) == multiset(Waiting(xs)) + multiset{x.caller}
  {
    assert Waiting(xs + [x]) == Waiting(xs) + [x.caller];
  }

  lemma WaitingWithout(xs: seq<Reply>, i: nat)
    requires i < |xs|
    ensures multiset(Waiting(xs)) == multiset(Waiting(Without(xs, i))) + multiset{xs[i].caller}
  {
    SplitAt(Waiting(xs), i);
    assert Waiting(Without(xs, i)) == Waiting(xs)[..i] + Waiting(xs)[i + 1..];
  }

  // A truthful answer to a held caller.
  lemma TellKeeps(k: Setup, s: Bridge, caller: nat, success: bool, held: multiset<nat>)
    requires Core(k, s, held) && held[caller] > 0
    requires success ==> caller < |s.asked| && B.Satisfied(s.blade.blade)
                         && s.asked[caller] == Some(s.blade.blade.requested)
    ensures Core(k, Tell(s, caller, success), held - multiset{caller})
  {
    AnsweredAppend(s.answers, Answer(caller, success, s.blade.blade));
  }

  // Taking a start out of the queue hands its caller to the callback.
  lemma TakeStart(k: Setup, s: Bridge, i: nat, held: multiset<nat>)
    requires Core(k, s, held) && i < |s.starts|
    ensures Core(k, s.(starts := Without(s.starts, i)), held + multiset{s.starts[i].caller})
  {
    StartingWithout(s.starts, i);
  }

  lemma TakeReply(k: Setup, s: Bridge, i: nat, held: multiset<nat>)
    requires Core(k, s, held) && i < |s.replies|
    ensures Core(k, s.(replies := Without(s.replies, i)), held + multiset{s.replies[i].caller})
  {
    WaitingWithout(s.replies, i);
  }

  lemma PutReply(k: Setup, s: Bridge, reply: Reply, held: multiset<nat>)
    requires Core(k, s, held) && held[reply.caller] > 0 && |s.replies| < QUEUE_LIMIT
    requires ReplyBound(s.asked, s.blade.blade, reply)
    ensures Core(k, s.(replies := s.replies + [reply]), held - multiset{reply.caller})
  {
    WaitingAppend(s.replies, reply);
  }

  lemma PutStart(k: Setup, s: Bridge, start: Start, held: multiset<nat>)
    requires Core(k, s, held) && held[start.caller] > 0 && |s.starts| < QUEUE_LIMIT && StartBound(s.asked, start)
    ensures Core(k, s.(starts := s.starts + [start]), held - multiset{start.caller})
  {
    StartingAppend(s.starts, start);
  }
}
