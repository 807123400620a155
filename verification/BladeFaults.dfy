/** What a fault says about the neutral: which faults leave one queued, in flight or acknowledged, and which do not. */
module BladeFaults {
  import opened Wrappers
  import opened BladeProtocol
  import opened BladeSafety

  /** A neutral is about to be sent or is on the wire. */
  predicate Outstanding(b: Blade) { b.queuedNeutral || NeutralInFlight(b) }

  /** The event refuses the command in flight, or finds its ACK overdue. */
  predicate Lapses(c: Config, b: Blade, e: Event) {
    b.inFlight.Some? &&
    (|| (e.EvComplete? && Current(b, e.token) && !e.accepted)
     || ((e.EvTick? || e.EvPoll?) && e.at - b.sentAt >= c.ackTimeout))
  }

  /** The neutral that was to bring the first confirmed OFF lapses, and no other is queued. It is not retried. */
  predicate LosesNeutral(c: Config, b: Blade, e: Event) {
    NeutralInFlight(b) && !b.queuedNeutral && b.confirmed != Off && Lapses(c, b, e)
  }

  lemma TickFaults(c: Config, b: Blade, now: nat)
    requires !b.fault && (b.phase == WaitStop ==> b.confirmed == Off)
    ensures var t := Tick(c, b, now);
            t.fault ==>
              && ((Outstanding(t) || t.confirmed == Off) <==> !LosesNeutral(c, b, EvTick(now)))
              && (!Outstanding(t) ==> !OnInFlight(b) && t.confirmed == b.confirmed && t.inFlight.None?)
  {
    var acked := ExpireAck(c, b, now);
    var sampled := ExpireSample(c, acked, now);
    assert acked.fault ==> sampled == acked && Tick(c, b, now) == acked;
  }

  lemma PollFaults(c: Config, b: Blade, now: nat)
    requires !b.fault && (b.phase == WaitStop ==> b.confirmed == Off) && Poll(c, b, now).fault
    ensures var n := Poll(c, b, now);
            && ((Outstanding(n) || n.confirmed == Off) <==> !LosesNeutral(c, b, EvPoll(now)))
            && (!Outstanding(n) ==> !OnInFlight(b) && n.confirmed == b.confirmed && n.inFlight.None?)
  {
    TickFaults(c, b, now);
  }

  lemma StepFaults(c: Config, b: Blade, e: Event)
    requires !b.fault && (b.phase == WaitStop ==> b.confirmed == Off) && After(c, b, e).fault
    ensures var n := After(c, b, e);
            && ((Outstanding(n) || n.confirmed == Off) <==> !LosesNeutral(c, b, e))
            && (!Outstanding(n) ==> !OnInFlight(b) && n.confirmed == b.confirmed && n.inFlight.None?)
  {
    match e
    case EvTick(at) => TickFaults(c, b, at);
    case EvPoll(at) => PollFaults(c, b, at);
    case _ =>
  }

  /** In every run, the event that latches a fault leaves a neutral queued, in flight or confirmed if and only if it is
      not the lapse of the one neutral that was to bring the first confirmed OFF. With nothing outstanding and OFF
      confirmed, an acknowledged neutral is on record with no ON after it. */
  lemma FaultNeutral(c: Config, events: seq<Event>, e: Event)
    requires !Run(c, START, events).blade.fault && Step(c, Run(c, START, events), e).blade.fault
    ensures var m, n := Run(c, START, events), Step(c, Run(c, START, events), e);
            && ((Outstanding(n.blade) || n.blade.confirmed == Off) <==> !LosesNeutral(c, m.blade, e))
            && (!Outstanding(n.blade) && n.blade.confirmed == Off ==>
                  exists neutral, ack :: AckedNeutral(m.log, 0, neutral, ack) && NoOnSince(n.log, neutral))
  {
    var m := Run(c, START, events);
    var n := Step(c, m, e);
    SoundStart(c);
    SoundRun(c, START, events, 0);
    StepFaults(c, m.blade, e);
    if !Outstanding(n.blade) && n.blade.confirmed == Off {
      var w: Witness :| Backed(c, m, 0, w);
      assert AckedNeutral(m.log, 0, w.neutral, w.ack);
      FaultSendsNoOn(c, m.blade, e);
      assert NoOnSince(n.log, w.neutral);
    }
  }

  lemma FaultSendsNoOn(c: Config, b: Blade, e: Event)
    requires After(c, b, e).fault
    ensures forall entry | entry in Noted(c, b, e) :: !OnEntry(entry)
  {
  }

  /** The exception is reachable: the first neutral is refused, and the fault leaves nothing on its way. */
  lemma NeutralCanBeLost()
    ensures var m := Run(EXAMPLE, START, [EvConnect(true, 0), EvPoll(0), EvComplete(2, false, 10)]);
            m.blade.fault && !Outstanding(m.blade) && m.blade.confirmed != Off
  {
    var events := [EvConnect(true, 0), EvPoll(0), EvComplete(2, false, 10)];
    var one := Step(EXAMPLE, START, events[0]);
    var two := Step(EXAMPLE, one, events[1]);
    assert events[1..][1..] == [events[2]];
    assert Run(EXAMPLE, two, [events[2]]) == Step(EXAMPLE, two, events[2]);
  }
}
