/** Safety of the blade protocol over every run. None of these theorems assumes an ordered clock. */
module BladeSafety {
  import opened Wrappers
  import opened BladeProtocol

  datatype Wire = Silent | Last(token: nat, direction: Direction)

  // The newest command on the wire.
  function Newest(log: seq<Entry>): Wire {
    if log == [] then Silent
    else if log[|log| - 1].Emitted? then Last(log[|log| - 1].token, log[|log| - 1].direction)
    else Newest(log[..|log| - 1])
  }

  predicate OnWire(w: Wire) { w.Last? && IsOn(w.direction) }

  predicate OnEntry(e: Entry) { e.Emitted? && IsOn(e.direction) }

  // The accepted telemetry samples of a record, in order.
  function Samples(log: seq<Entry>): seq<Entry> {
    if log == [] then []
    else Samples(log[..|log| - 1]) + (if log[|log| - 1].Sampled? then [log[|log| - 1]] else [])
  }

  ghost predicate NoOnSince(log: seq<Entry>, k: nat) {
    forall i | k <= i < |log| :: !OnEntry(log[i])
  }

  // Consecutive samples of a standstill: zero rpm, one source, new identities, no receipt gap.
  predicate Follows(c: Config, a: Entry, b: Entry)
    requires a.Sampled? && b.Sampled?
  {
    && a.source == b.source && a.stamp < b.stamp
    && (b.source == 2 ==> a.count != b.count)
    && b.at - a.at <= c.freshness
  }

  ghost predicate Standstill(c: Config, run: seq<Entry>, since: int) {
    && (forall i | 0 <= i < |run| :: run[i].Sampled? && run[i].zero && run[i].at >= since)
    && (forall i | 0 < i < |run| :: Follows(c, run[i - 1], run[i]))
  }

  /** At time `now` the record proves a real stop: a neutral sent at `sent` (not before entry `base`, and
      after every earlier ON) was acknowledged at `ack`, and the accepted samples from entry `first` on,
      all of them later than that ACK, are at least five zero-speed observations that span the coast time
      and are still fresh. */
  ghost predicate Proof(c: Config, log: seq<Entry>, now: int, base: nat, sent: nat, ack: nat, first: nat) {
    && base <= sent < ack < first <= |log|
    && log[sent].Emitted? && log[sent].direction == Off
    && log[ack].Acknowledged? && log[ack].direction == Off && log[ack].token == log[sent].token
    && NoOnSince(log, sent)
    && (var run := Samples(log[first..]);
        && |run| >= 5
        && Standstill(c, run, log[ack].at)
        && run[0].at + c.coast <= now
        && run[|run| - 1].at <= now <= run[|run| - 1].at + c.freshness)
  }

  ghost predicate StopProven(c: Config, log: seq<Entry>, now: int, base: nat) {
    exists sent: nat, ack: nat, first: nat :: Proof(c, log, now, base, sent, ack, first)
  }

  // Every ON recorded from entry `base` on was preceded by its own stop proof.
  ghost predicate EveryOnProven(c: Config, log: seq<Entry>, base: nat) {
    forall i | base <= i < |log| && OnEntry(log[i]) :: StopProven(c, log[..i], log[i].at, base)
  }

  /** The facts about the controller's own fields that every event keeps. An in-flight command is the
      newest one; an ON that is newest on the wire is in flight, about to be neutralised by the very next
      poll, or both confirmed and requested. */
  predicate Coherent(b: Blade, w: Wire) {
    && b.requested != Unknown
    && (b.inFlight.Some? ==>
          w == Last(b.token, b.inFlight.value.direction) && b.inFlight.value.token == b.token
          && b.inFlight.value.direction != Unknown)
    && (b.requested != Off ==> !b.fault && b.connected && b.allowed)
    && (OnInFlight(b) ==> b.requested == b.inFlight.value.direction && b.confirmed == Off && !b.queuedNeutral)
    && (b.phase == WaitStop ==> b.confirmed == Off)
    && (if b.stopSince < 0 then b.stopSamples == 0 else b.sampleReceipt >= 0)
    && (b.requested != Off && !b.queuedNeutral && b.inFlight.None? ==>
          b.confirmed == b.requested || b.phase == WaitStop)
    && (OnWire(w) ==> OnInFlight(b) || Neutralising(b) || Running(b, w.direction))
  }

  predicate Neutralising(b: Blade) { b.queuedNeutral && b.inFlight.None? }

  predicate Running(b: Blade, d: Direction) { b.confirmed == b.requested == d && Satisfied(b) }

  lemma ForceOffCoherent(b: Blade, w: Wire, now: int)
    ensures Coherent(ForceOff(b, now), w)
  {
  }

  lemma FailCoherent(b: Blade, w: Wire, sendNeutral: bool)
    requires b.inFlight.Some? ==> w == Last(b.token, b.inFlight.value.direction) && b.inFlight.value.token == b.token
                                  && b.inFlight.value.direction != Unknown
    requires OnWire(w) ==> sendNeutral || Neutralising(b)
    requires if b.stopSince < 0 then b.stopSamples == 0 else b.sampleReceipt >= 0
    ensures Coherent(Fail(b, sendNeutral), w)
  {
  }

  lemma TickCoherent(c: Config, b: Blade, w: Wire, now: int)
    requires Coherent(b, w)
    ensures Coherent(Tick(c, b, now), w)
  {
    var acked := ExpireAck(c, b, now);
    assert Coherent(acked, w) by {
      if acked != b { FailCoherent(b.(inFlight := None), w, b.inFlight.value.direction != Off); }
    }
    var sampled := ExpireSample(c, acked, now);
    assert Coherent(sampled, w) by {
      if sampled != acked { FailCoherent(acked, w, true); }
    }
    if ExpireStop(c, sampled, now) != sampled { FailCoherent(sampled, w, false); }
  }

  lemma RequestCoherent(c: Config, b: Blade, w: Wire, d: Direction, now: int)
    requires Coherent(b, w)
    ensures Coherent(Request(c, b, d, now), w)
  {
  }

  lemma CompleteCoherent(b: Blade, w: Wire, token: nat, accepted: bool, now: int)
    requires Coherent(b, w)
    ensures Coherent(Complete(b, token, accepted, now), w)
  {
    if Current(b, token) && !accepted {
      FailCoherent(b.(inFlight := None), w, b.inFlight.value.direction != Off);
    }
  }

  lemma PollCoherent(c: Config, b: Blade, w: Wire, now: int)
    requires Coherent(b, w)
    ensures var command := PollCommand(c, b, now);
            Coherent(Poll(c, b, now), if command.None? then w else Last(command.value.token, command.value.direction))
  {
    TickCoherent(c, b, w, now);
  }

  // Only a poll puts a command on the wire.
  function Sent(c: Config, b: Blade, e: Event, w: Wire): Wire {
    if e.EvPoll? && PollCommand(c, b, e.at).Some?
    then Last(PollCommand(c, b, e.at).value.token, PollCommand(c, b, e.at).value.direction) else w
  }

  lemma ExpireCoherent(b: Blade, w: Wire, now: int)
    ensures Coherent(Expire(b, now), w)
  {
  }

  lemma OutputCoherent(c: Config, b: Blade, w: Wire, pwm: int, now: int)
    requires Coherent(b, w)
    ensures Coherent(Output(c, b, pwm, now), w)
  {
    ForceOffCoherent(b, w, now);
  }

  lemma LinkCoherent(b: Blade, w: Wire, up: bool, allowed: bool, now: int)
    requires Coherent(b, w)
    ensures Coherent(Connect(b, up, now), w) && Coherent(Permit(b, allowed, now), w)
  {
  }

  lemma SampleCoherent(c: Config, b: Blade, w: Wire, e: Event)
    requires Coherent(b, w) && e.EvSample?
    ensures Coherent(Sample(c, b, e.source, e.stamp, e.count, e.countValid, e.valid, e.rpm, e.at), w)
  {
  }

  lemma CoherentStep(c: Config, b: Blade, e: Event, w: Wire)
    requires Coherent(b, w)
    ensures Coherent(After(c, b, e), Sent(c, b, e, w))
  {
    if e.EvPoll? {
      PollCoherent(c, b, w, e.at);
    } else if e.EvRequest? {
      RequestCoherent(c, b, w, e.direction, e.at);
    } else if e.EvTick? {
      TickCoherent(c, b, w, e.at);
    } else if e.EvComplete? {
      CompleteCoherent(b, w, e.token, e.accepted, e.at);
    } else if e.EvSample? {
      SampleCoherent(c, b, w, e);
    } else if e.EvConnect? {
      LinkCoherent(b, w, e.up, b.allowed, e.at);
    } else if e.EvPermit? {
      LinkCoherent(b, w, b.connected, e.allowed, e.at);
    } else if e.EvOutput? {
      OutputCoherent(c, b, w, e.pwm, e.at);
    } else if e.EvExpire? {
      ExpireCoherent(b, w, e.at);
    } else {
      ForceOffCoherent(b, w, e.at);
    }
  }

  lemma Extend(log: seq<Entry>, more: seq<Entry>)
    requires |more| <= 1
    ensures Samples(log + more) == Samples(log) + (if more != [] && more[0].Sampled? then more else [])
    ensures Newest(log + more) ==
            if more != [] && more[0].Emitted? then Last(more[0].token, more[0].direction) else Newest(log)
  {
    if more == [] {
      assert log + more == log;
    } else {
      assert (log + more)[..|log|] == log;
    }
  }

  /** Where in the record the pieces of the current stop proof are. */
  datatype Witness = Witness(sent: nat, neutral: nat, ack: nat, first: nat)

  ghost predicate SentNeutral(log: seq<Entry>, token: nat, base: nat, sent: nat) {
    base <= sent < |log| && log[sent].Emitted? && log[sent].direction == Off && log[sent].token == token
    && NoOnSince(log, sent)
  }

  ghost predicate AckedNeutral(log: seq<Entry>, base: nat, neutral: nat, ack: nat) {
    neutral < ack < |log| && log[ack].Acknowledged? && log[ack].direction == Off
    && SentNeutral(log, log[ack].token, base, neutral)
  }

  ghost predicate StillSince(c: Config, b: Blade, log: seq<Entry>, since: int, first: nat)
    requires first <= |log|
  {
    var run := Samples(log[first..]);
    && |run| >= 1 && |run| >= b.stopSamples
    && Standstill(c, run, since)
    && run[0].at == b.stopSince
    && run[|run| - 1] == Sampled(b.sampleSource, b.sampleStamp, b.sampleCount, true, b.sampleReceipt)
  }

  // Without a fault, the neutral in flight, the confirmed Off and the standstill are all on record.
  ghost predicate Backed(c: Config, m: Machine, base: nat, w: Witness) {
    !m.blade.fault ==>
      && (NeutralInFlight(m.blade) ==> SentNeutral(m.log, m.blade.inFlight.value.token, base, w.sent))
      && (m.blade.confirmed == Off && !OnInFlight(m.blade) ==>
            && AckedNeutral(m.log, base, w.neutral, w.ack)
            && m.blade.neutralSince == m.log[w.ack].at
            && (m.blade.stopSince >= 0 ==>
                  && w.ack < w.first <= |m.log|
                  && StillSince(c, m.blade, m.log, m.blade.neutralSince, w.first)))
  }

  // A change that keeps the evidence, voids it or latches a fault.
  predicate Tame(b: Blade, b': Blade) {
    || b'.fault
    || (b'.confirmed == Unknown && b'.inFlight.None?)
    || (b'.fault == b.fault && b'.inFlight == b.inFlight && b'.confirmed == b.confirmed
        && b'.neutralSince == b.neutralSince && b'.stopSince == b.stopSince && b'.stopSamples == b.stopSamples
        && b'.sampleSource == b.sampleSource && b'.sampleStamp == b.sampleStamp
        && b'.sampleCount == b.sampleCount && b'.sampleReceipt == b.sampleReceipt)
  }

  lemma TickTame(c: Config, b: Blade, now: int)
    ensures Tame(b, Tick(c, b, now))
    ensures Tick(c, b, now).sampleZero == b.sampleZero && Tick(c, b, now).token >= b.token
  {
    var acked := ExpireAck(c, b, now);
    var sampled := ExpireSample(c, acked, now);
  }

  lemma BackedQuiet(c: Config, m: Machine, b': Blade, base: nat, w: Witness)
    requires Backed(c, m, base, w) && Tame(m.blade, b')
    ensures Backed(c, Machine(b', m.log), base, w)
  {
  }

  lemma StandstillGrows(c: Config, run: seq<Entry>, entry: Entry, since: int)
    requires Standstill(c, run, since) && entry.Sampled? && entry.zero && entry.at >= since
    requires run != [] ==> Follows(c, run[|run| - 1], entry)
    ensures Standstill(c, run + [entry], since)
  {
    var grown := run + [entry];
    forall i | 0 < i < |grown| ensures Follows(c, grown[i - 1], grown[i]) {
    }
  }

  // The accepted sample `e` starts a new standstill instead of extending the current one.
  predicate Restarts(c: Config, b: Blade, e: Event)
    requires e.EvSample?
  {
    b.sampleSource != e.source || e.at - b.sampleReceipt > c.freshness || b.stopSince < 0
  }

  lemma StandstillStarts(c: Config, b: Blade, log: seq<Entry>, entry: Entry, since: int)
    requires entry.Sampled? && entry.zero && entry.at >= since
    requires b.stopSamples == 1 && b.stopSince == entry.at
    requires entry == Sampled(b.sampleSource, b.sampleStamp, b.sampleCount, true, b.sampleReceipt)
    ensures StillSince(c, b, log + [entry], since, |log|)
  {
    assert (log + [entry])[|log|..] == [] + [entry];
    Extend([], [entry]);
    StandstillGrows(c, [], entry, since);
  }

  lemma StandstillExtends(c: Config, b: Blade, b': Blade, log: seq<Entry>, entry: Entry, since: int, first: nat)
    requires first <= |log| && StillSince(c, b, log, since, first)
    requires entry.Sampled? && entry.zero && entry.at >= since
    requires b'.stopSamples <= b.stopSamples + 1 && b'.stopSince == b.stopSince
    requires entry == Sampled(b'.sampleSource, b'.sampleStamp, b'.sampleCount, true, b'.sampleReceipt)
    requires Follows(c, Sampled(b.sampleSource, b.sampleStamp, b.sampleCount, true, b.sampleReceipt), entry)
    ensures StillSince(c, b', log + [entry], since, first)
  {
    assert (log + [entry])[first..] == log[first..] + [entry];
    Extend(log[first..], [entry]);
    StandstillGrows(c, Samples(log[first..]), entry, since);
  }

  lemma BackedSample(c: Config, m: Machine, e: Event, base: nat, w: Witness) returns (w': Witness)
    requires e.EvSample? && Accepts(m.blade, e.source, e.stamp, e.count, e.countValid, e.valid)
    requires Coherent(m.blade, Newest(m.log)) && Backed(c, m, base, w)
    ensures Backed(c, Step(c, m, e), base, w')
  {
    var b, n := m.blade, After(c, m.blade, e);
    var entry := Sampled(e.source, e.stamp, e.count, e.rpm == 0, e.at);
    w' := if Restarts(c, b, e) then w.(first := |m.log|) else w;
    if !n.fault && n.confirmed == Off && !OnInFlight(n) && n.stopSince >= 0 {
      if Restarts(c, b, e) {
        StandstillStarts(c, n, m.log, entry, b.neutralSince);
      } else {
        StandstillExtends(c, b, n, m.log, entry, b.neutralSince, w.first);
      }
    }
  }

  lemma BackedAppend(c: Config, m: Machine, b': Blade, entry: Entry, base: nat, w: Witness)
    requires Backed(c, m, base, w) && Tame(m.blade, b') && !entry.Sampled? && !OnEntry(entry)
    ensures Backed(c, Machine(b', m.log + [entry]), base, w)
  {
    BackedQuiet(c, m, b', base, w);
    var log := m.log + [entry];
    if !b'.fault && b'.confirmed == Off && !OnInFlight(b') && b'.stopSince >= 0 {
      assert log[w.first..] == m.log[w.first..] + [entry];
      Extend(m.log[w.first..], [entry]);
    }
  }

  lemma OnIsProven(c: Config, m: Machine, now: nat, base: nat, w: Witness)
    requires Coherent(m.blade, Newest(m.log)) && Backed(c, m, base, w)
    requires IsOn(Target(c, m.blade, now))
    ensures StopProven(c, m.log, now, base)
  {
    TickTame(c, m.blade, now);
    BackedQuiet(c, m, Tick(c, m.blade, now), base, w);
    assert Proof(c, m.log, now, base, w.neutral, w.ack, w.first);
  }

  lemma BackedPoll(c: Config, m: Machine, now: nat, base: nat, w: Witness) returns (w': Witness)
    requires Coherent(m.blade, Newest(m.log)) && Backed(c, m, base, w) && base <= |m.log|
    ensures Backed(c, Step(c, m, EvPoll(now)), base, w')
  {
    var t := Tick(c, m.blade, now);
    TickTame(c, m.blade, now);
    w' := w;
    var command := PollCommand(c, m.blade, now);
    if command == None {
      assert m.log + [] == m.log;
      BackedQuiet(c, m, t, base, w);
    } else if command.value.direction == Off {
      w' := w.(sent := |m.log|);
      BackedAppend(c, m, t, Emitted(command.value.token, Off, now), base, w);
    }
  }

  lemma BackedComplete(c: Config, m: Machine, token: nat, at: nat, base: nat, w: Witness) returns (w': Witness)
    requires Coherent(m.blade, Newest(m.log)) && Backed(c, m, base, w) && Current(m.blade, token)
    ensures Backed(c, Step(c, m, EvComplete(token, true, at)), base, w')
  {
    w' := w;
    if NeutralInFlight(m.blade) {
      w' := w.(neutral := w.sent, ack := |m.log|);
    }
  }

  // Whatever adds nothing to the record is tame.
  lemma QuietIsTame(c: Config, b: Blade, e: Event)
    requires !e.EvPoll? && Noted(c, b, e) == []
    ensures Tame(b, After(c, b, e))
  {
    if e.EvTick? {
      TickTame(c, b, e.at);
    } else if e.EvRequest? {
      RequestTame(c, b, e.direction, e.at);
    } else if e.EvComplete? {
      CompleteTame(b, e.token, e.at);
    }
  }

  lemma RequestTame(c: Config, b: Blade, d: Direction, now: int)
    ensures Tame(b, Request(c, b, d, now))
  {
  }

  lemma CompleteTame(b: Blade, token: nat, now: int)
    ensures Tame(b, Complete(b, token, false, now))
  {
  }

  lemma BackedStep(c: Config, m: Machine, e: Event, base: nat, w: Witness) returns (w': Witness)
    requires Coherent(m.blade, Newest(m.log)) && Backed(c, m, base, w) && base <= |m.log|
    ensures Backed(c, Step(c, m, e), base, w')
  {
    if e.EvPoll? {
      w' := BackedPoll(c, m, e.at, base, w);
    } else if Noted(c, m.blade, e) == [] {
      w' := w;
      QuietIsTame(c, m.blade, e);
      assert m.log + [] == m.log;
      BackedQuiet(c, m, After(c, m.blade, e), base, w);
    } else if e.EvSample? {
      w' := BackedSample(c, m, e, base, w);
    } else {
      w' := BackedComplete(c, m, e.token, e.at, base, w);
    }
  }

  lemma EveryOnStep(c: Config, m: Machine, e: Event, base: nat, w: Witness)
    requires Coherent(m.blade, Newest(m.log)) && Backed(c, m, base, w) && base <= |m.log|
    requires EveryOnProven(c, m.log, base)
    ensures EveryOnProven(c, Step(c, m, e).log, base)
  {
    var log := Step(c, m, e).log;
    forall i | base <= i < |log| && OnEntry(log[i])
      ensures StopProven(c, log[..i], log[i].at, base)
    {
      if i < |m.log| {
        assert log[..i] == m.log[..i];
      } else {
        assert log[..i] == m.log;
        OnIsProven(c, m, e.at, base, w);
      }
    }
  }

  // The invariant of every run.
  ghost predicate Sound(c: Config, m: Machine, base: nat) {
    && base <= |m.log|
    && Coherent(m.blade, Newest(m.log))
    && EveryOnProven(c, m.log, base)
    && exists w: Witness :: Backed(c, m, base, w)
  }

  lemma WireStep(c: Config, m: Machine, e: Event)
    ensures Newest(Step(c, m, e).log) == Sent(c, m.blade, e, Newest(m.log))
  {
    Extend(m.log, Noted(c, m.blade, e));
  }

  lemma SoundStep(c: Config, m: Machine, e: Event, base: nat)
    requires Sound(c, m, base)
    ensures Sound(c, Step(c, m, e), base)
  {
    var w: Witness :| Backed(c, m, base, w);
    WireStep(c, m, e);
    CoherentStep(c, m.blade, e, Newest(m.log));
    EveryOnStep(c, m, e, base, w);
    var w' := BackedStep(c, m, e, base, w);
    assert Backed(c, Step(c, m, e), base, w');
  }

  lemma {:induction false} SoundRun(c: Config, m: Machine, events: seq<Event>, base: nat)
    requires Sound(c, m, base)
    ensures Sound(c, Run(c, m, events), base)
    decreases |events|
  {
    if events != [] {
      SoundStep(c, m, events[0], base);
      SoundRun(c, Step(c, m, events[0]), events[1..], base);
    }
  }

  lemma SoundStart(c: Config)
    ensures Sound(c, START, 0)
  {
    assert Backed(c, START, 0, Witness(0, 0, 0, 0));
  }

  /** Over every run, each ON on the wire was preceded by its own proof of a real stop. */
  lemma OnNeedsRealStop(c: Config, events: seq<Event>, i: nat)
    requires i < |Run(c, START, events).log| && OnEntry(Run(c, START, events).log[i])
    ensures var log := Run(c, START, events).log; StopProven(c, log[..i], log[i].at, 0)
  {
    SoundStart(c);
    SoundRun(c, START, events, 0);
  }

  /** Hence two ONs, in particular a Forward and a Reverse, never follow each other on the wire: an
      acknowledged neutral lies between them. */
  lemma NeutralBetweenOns(c: Config, events: seq<Event>, i: nat, j: nat)
    requires i < j < |Run(c, START, events).log|
    requires OnEntry(Run(c, START, events).log[i]) && OnEntry(Run(c, START, events).log[j])
    ensures var log := Run(c, START, events).log;
            exists sent, ack :: i < sent < ack < j && log[sent].Emitted? && log[sent].direction == Off
                                && log[ack].Acknowledged? && log[ack].token == log[sent].token
  {
    var log := Run(c, START, events).log;
    OnNeedsRealStop(c, events, j);
    var sent: nat, ack: nat, first: nat :| Proof(c, log[..j], log[j].at, 0, sent, ack, first);
    assert log[..j][i] == log[i];
    assert log[..j][sent] == log[sent] && log[..j][ack] == log[ack];
  }

  /** In every reachable state an ON that is the newest command on the wire is still in flight, or the very
      next poll replaces it by a neutral whatever the time, or it is the confirmed and requested direction. */
  lemma NoOrphanedOn(c: Config, events: seq<Event>, now: nat)
    requires OnWire(Newest(Run(c, START, events).log))
    ensures var m := Run(c, START, events);
            || (OnInFlight(m.blade) && m.blade.inFlight.value.direction == Newest(m.log).direction
                && m.blade.requested == Newest(m.log).direction && m.blade.connected && m.blade.allowed)
            || Target(c, m.blade, now) == Off
            || (Running(m.blade, Newest(m.log).direction) && m.blade.connected && m.blade.allowed)
  {
    SoundStart(c);
    SoundRun(c, START, events, 0);
  }

  /** A fault latches: whatever follows, an ON appears on the wire only behind a neutral that was itself sent
      after the fault, acknowledged, and followed by a full stop proof. */
  lemma FaultNeedsNewProof(c: Config, before: seq<Event>, after: seq<Event>, i: nat)
    requires Run(c, START, before).blade.fault
    requires |Run(c, START, before).log| <= i < |Run(c, Run(c, START, before), after).log|
    requires OnEntry(Run(c, Run(c, START, before), after).log[i])
    ensures var faulted := Run(c, START, before);
            var log := Run(c, faulted, after).log;
            StopProven(c, log[..i], log[i].at, |faulted.log|)
  {
    var m := Run(c, START, before);
    SoundStart(c);
    SoundRun(c, START, before, 0);
    assert Backed(c, m, |m.log|, Witness(0, 0, 0, 0));
    SoundRun(c, m, after, |m.log|);
  }

  const EXAMPLE := Config(3, 1500, 1450, 1550, 3000, 15000, 1000, 1000)

  function Standing(stamp: int, at: nat): Event { EvSample(1, stamp, 0, false, true, 0, at) }

  // Linked and permitted, with a neutral acknowledged at 10 ms.
  function Quieted(): Machine {
    Machine(INITIAL.(phase := Idle, confirmed := Off, connected := true, allowed := true, queuedNeutral := false,
                     token := 2, revision := 1, sampleReceipt := -1, sampleStamp := 0, neutralSince := 10,
                     waitSince := 10),
            [Emitted(2, Off, 0), Acknowledged(2, Off, 10)])
  }

  lemma QuietedIsReached()
    ensures Run(EXAMPLE, START, [EvConnect(true, 0), EvPermit(true, 0), EvPoll(0), EvComplete(2, true, 10)]) == Quieted()
  {
    var events := [EvConnect(true, 0), EvPermit(true, 0), EvPoll(0), EvComplete(2, true, 10)];
    var one := Step(EXAMPLE, START, events[0]);
    var two := Step(EXAMPLE, one, events[1]);
    var three := Step(EXAMPLE, two, events[2]);
    assert three.log == [Emitted(2, Off, 0)];
    assert Step(EXAMPLE, three, events[3]) == Quieted();
    assert events[1..][1..][1..] == [events[3]] && events[1..][1..] == [events[2], events[3]];
    assert Run(EXAMPLE, three, [events[3]]) == Quieted();
    assert Run(EXAMPLE, two, [events[2], events[3]]) == Quieted();
  }

  predicate Stands(m: Machine, n: nat, at: int) {
    && m.blade == Quieted().blade.(sampleSource := 1, sampleStamp := n, sampleReceipt := at, sampleZero := true,
                                   stopSince := 300, stopSamples := n)
  }

  lemma StandsLonger(m: Machine, n: nat, at: nat)
    requires n > 0 && Stands(m, n, at) && n < 10
    ensures Stands(Step(EXAMPLE, m, Standing(n + 1, at + 300)), n + 1, at + 300)
  {
  }

  /** The stop proof can be met: a run in which an ON is sent. */
  lemma AnOnIsReachable()
    ensures exists events: seq<Event> :: OnWire(Newest(Run(EXAMPLE, START, events).log))
  {
    TurnsOn([EvConnect(true, 0), EvPermit(true, 0), EvPoll(0), EvComplete(2, true, 10)],
            [Standing(1, 300), Standing(2, 600), Standing(3, 900), Standing(4, 1200), Standing(5, 1500)],
            [EvRequest(Forward, 1500), EvPoll(1500)]);
  }

  lemma TurnsOn(quiet: seq<Event>, still: seq<Event>, go: seq<Event>)
    requires quiet == [EvConnect(true, 0), EvPermit(true, 0), EvPoll(0), EvComplete(2, true, 10)]
    requires still == [Standing(1, 300), Standing(2, 600), Standing(3, 900), Standing(4, 1200), Standing(5, 1500)]
    requires go == [EvRequest(Forward, 1500), EvPoll(1500)]
    ensures OnWire(Newest(Run(EXAMPLE, START, quiet + still + go).log))
  {
    QuietedIsReached();
    StandstillIsReached(still);
    GoesOn(Run(EXAMPLE, Quieted(), still));
    RunJoin(EXAMPLE, START, quiet, still);
    RunJoin(EXAMPLE, START, quiet + still, go);
  }

  lemma StandstillIsReached(still: seq<Event>)
    requires still == [Standing(1, 300), Standing(2, 600), Standing(3, 900), Standing(4, 1200), Standing(5, 1500)]
    ensures Stands(Run(EXAMPLE, Quieted(), still), 5, 1500)
  {
    var one := Step(EXAMPLE, Quieted(), still[0]);
    assert Stands(one, 1, 300);
    var two := Step(EXAMPLE, one, still[1]);
    StandsLonger(one, 1, 300);
    var three := Step(EXAMPLE, two, still[2]);
    StandsLonger(two, 2, 600);
    var four := Step(EXAMPLE, three, still[3]);
    StandsLonger(three, 3, 900);
    StandsLonger(four, 4, 1200);
    assert still[1..] == [still[1], still[2], still[3], still[4]] && still[1..][1..] == [still[2], still[3], still[4]];
    assert Run(EXAMPLE, four, [still[4]]) == Step(EXAMPLE, four, still[4]);
    assert [still[3], still[4]][1..] == [still[4]] && [still[2], still[3], still[4]][1..] == [still[3], still[4]];
    assert Run(EXAMPLE, three, [still[3], still[4]]) == Step(EXAMPLE, four, still[4]);
    assert Run(EXAMPLE, two, [still[2], still[3], still[4]]) == Step(EXAMPLE, four, still[4]);
    assert Run(EXAMPLE, one, still[1..]) == Step(EXAMPLE, four, still[4]);
  }

  lemma GoesOn(m: Machine)
    requires Stands(m, 5, 1500)
    ensures OnWire(Newest(Run(EXAMPLE, m, [EvRequest(Forward, 1500), EvPoll(1500)]).log))
  {
    var events := [EvRequest(Forward, 1500), EvPoll(1500)];
    var asked := Step(EXAMPLE, m, events[0]);
    assert Target(EXAMPLE, asked.blade, 1500) == Forward;
    assert events[1..] == [events[1]];
    assert Run(EXAMPLE, asked, [events[1]]) == Step(EXAMPLE, asked, events[1]);
  }

  lemma {:induction false} RunJoin(c: Config, m: Machine, a: seq<Event>, b: seq<Event>)
    ensures Run(c, m, a + b) == Run(c, Run(c, m, a), b)
    decreases |a|
  {
    if a == [] {
      assert a + b == b;
    } else {
      assert (a + b)[1..] == a[1..] + b;
      RunJoin(c, Step(c, m, a[0]), a[1..], b);
    }
  }
}
