/** The corrective DISARM: an FCU that is seen arming while safety wants it disarmed. */
module SessionCorrection {
  import opened Wrappers
  import opened SessionProtocol
  import opened SessionTheorems
  import opened SessionEnding

  // Safety stays demanded and the FCU connected; it may report any arming state and mode.
  predicate Guarding(s: Session, e: Event) {
    match e
    case EvDemand(mode, arm, safety) => mode == s.wantedMode && arm == s.wantedArm && safety == s.safetyDisarm
    case EvObserve(connected, _, _) => connected
    case _ => true
  }

  // Ordered events, none later than `gap` after the newest poll with the arming service.
  predicate GuardedRun(s: Session, events: seq<Event>, now: int, polled: int, gap: nat)
    decreases |events|
  {
    events == [] ||
    (var at := TimeOf(events[0], now);
     && Guarding(s, events[0]) && now <= at <= polled + gap
     && GuardedRun(After(s, events[0]), events[1..], at, PolledAt(events[0], polled), gap))
  }

  // A corrective DISARM is owed; at most an unrelated transaction is in its way.
  predicate Owing(s: Session) {
    s.connected && s.safetyDisarm && !s.wantedArm && s.forceDisarm && !s.armFailed && !DisarmPending(s)
  }

  function OwedBy(s: Session, polled: int, gap: nat): int {
    (if s.pending.None? then polled else Max(s.sentAt + CONFIRMATION_TIMEOUT, polled)) + gap
  }

  lemma TickOwes(s: Session, now: int, polled: int, gap: nat)
    requires Owing(s)
    ensures Owing(Tick(s, now)) && OwedBy(Tick(s, now), polled, gap) <= OwedBy(s, polled, gap)
  {
  }

  lemma OwingStep(s: Session, e: Event, now: int, polled: int, gap: nat)
    requires Owing(s) && Guarding(s, e) && polled <= now <= TimeOf(e, now) <= polled + gap
    ensures || (Emission(s, e) != [] && IsDisarm(Emission(s, e)[0].command))
            || (Owing(After(s, e)) && OwedBy(After(s, e), PolledAt(e, polled), gap) <= OwedBy(s, polled, gap))
  {
    match e
    case EvDemand(_, _, _) =>
    case EvObserve(_, _, _) =>
    case EvTick(at) => TickOwes(s, at, polled, gap);
    case EvComplete(_, _, at) => TickOwes(s, at, polled, gap);
    case EvPoll(at, _, _, _) => TickOwes(s, at, polled, gap);
  }

  lemma {:induction false} OwingDisarms(s: Session, events: seq<Event>, now: int, polled: int, gap: nat)
    requires Owing(s) && polled <= now <= polled + gap && GuardedRun(s, events, now, polled, gap)
    ensures HasDisarm(Emissions(s, events)) || EndTime(events, now) <= OwedBy(s, polled, gap)
    decreases |events|
  {
    if events != [] {
      var e := events[0];
      OwingStep(s, e, now, polled, gap);
      SomeDisarm(Emission(s, e), Emissions(After(s, e), events[1..]));
      if Emission(s, e) != [] && IsDisarm(Emission(s, e)[0].command) {
        assert HasDisarm(Emission(s, e));
      } else {
        OwingDisarms(After(s, e), events[1..], TimeOf(e, now), PolledAt(e, polled), gap);
      }
    }
  }

  /** The FCU is about to be seen arming against a safety demand. */
  predicate Rearming(s: Session) { s.safetyDisarm && !s.wantedArm && !s.armed }

  /** In time: from the report on, whatever else happens while safety is demanded and the FCU connected. */
  ghost predicate Corrected(s: Session, mode: FcuMode) {
    forall events: seq<Event>, now: int, gap: nat |
      s.sentAt <= now && GuardedRun(Observe(s, true, true, mode), events, now, now, gap) ::
        || HasDisarm(Emissions(Observe(s, true, true, mode), events))
        || EndTime(events, now) <= now + CONFIRMATION_TIMEOUT + gap
  }

  // A failed DISARM is latched: nothing is sent while the FCU stays armed.
  predicate Latched(s: Session) {
    s.connected && s.safetyDisarm && !s.wantedArm && s.armed && s.armFailed && s.pending.None? && s.mode == s.wantedMode
  }

  function Polls(now: int, n: nat): seq<Event>
    decreases n
  {
    if n == 0 then [] else [EvPoll(now + 1, true, true, true)] + Polls(now + 1, n - 1)
  }

  lemma {:induction false} LatchedPolls(s: Session, now: int, n: nat)
    requires Latched(s)
    ensures var events := Polls(now, n);
            GuardedRun(s, events, now, now, 1) && Emissions(s, events) == [] && EndTime(events, now) == now + n
    decreases n
  {
    if n != 0 {
      var e := EvPoll(now + 1, true, true, true);
      assert After(s, e) == s && Emission(s, e) == [];
      LatchedPolls(s, now + 1, n - 1);
      assert Polls(now, n)[1..] == Polls(now + 1, n - 1);
    }
  }

  lemma RefusedIsLatched(s: Session)
    requires Rearming(s) && DisarmPending(s)
    ensures var seen := Observe(s, true, true, s.wantedMode);
            && seen.pending == s.pending && seen.sentAt == s.sentAt
            && Latched(After(seen, EvComplete(s.pending.value.serial, false, s.sentAt)))
  {
  }

  /** A safety DISARM corrects an FCU that is seen arming, within one confirmation timeout and one poll gap and whatever
      else was pending, if and only if no DISARM is pending at that moment: one that is pending may still be refused,
      and then the failure is latched while the FCU stays armed. */
  lemma CorrectedExactly(s: Session)
    requires Rearming(s)
    ensures (forall mode :: Corrected(s, mode)) <==> !DisarmPending(s)
  {
    if DisarmPending(s) {
      var seen := Observe(s, true, true, s.wantedMode);
      var refusal := EvComplete(s.pending.value.serial, false, s.sentAt);
      var latched, n := After(seen, refusal), CONFIRMATION_TIMEOUT + 2;
      RefusedIsLatched(s);
      LatchedPolls(latched, s.sentAt, n);
      var events := [refusal] + Polls(s.sentAt, n);
      assert events[1..] == Polls(s.sentAt, n);
      assert GuardedRun(seen, events, s.sentAt, s.sentAt, 1);
      assert Emissions(seen, events) == [] && EndTime(events, s.sentAt) == s.sentAt + n;
      assert !Corrected(s, s.wantedMode);
    } else {
      forall mode ensures Corrected(s, mode) { CorrectsInTime(s, mode); }
    }
  }

  lemma CorrectsInTime(s: Session, mode: FcuMode)
    requires Rearming(s) && !DisarmPending(s)
    ensures Corrected(s, mode)
  {
    var seen := Observe(s, true, true, mode);
    assert Owing(seen) && seen.sentAt == s.sentAt;
    forall events: seq<Event>, now: int, gap: nat | s.sentAt <= now && GuardedRun(seen, events, now, now, gap)
      ensures HasDisarm(Emissions(seen, events)) || EndTime(events, now) <= now + CONFIRMATION_TIMEOUT + gap
    {
      OwingDisarms(seen, events, now, now, gap);
    }
  }

  /** Such a moment is reached: an FCU arms while the DISARM of a new safety demand is on its way. */
  lemma PendingAtEdgeIsReachable()
    ensures var s := Run(INITIAL, [EvObserve(true, false, Hold), EvDemand(Hold, false, true),
                                   EvPoll(0, true, true, true)]);
            Rearming(s) && DisarmPending(s)
  {
    var events := [EvObserve(true, false, Hold), EvDemand(Hold, false, true), EvPoll(0, true, true, true)];
    var two := After(After(INITIAL, events[0]), events[1]);
    assert events[1..][1..] == [events[2]];
    assert Run(two, [events[2]]) == After(two, events[2]);
  }
}
