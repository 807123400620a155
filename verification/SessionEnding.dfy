/** The end of a session: how long an FCU that reports its mode at will can put off the DISARM. */
module SessionEnding {
  import opened Wrappers
  import opened SessionProtocol
  import opened SessionTheorems

  /** The end of an ordinary session: disarmed is wanted, without urgency, and the FCU is still armed. */
  predicate Ending(s: Session) {
    !s.wantedArm && !s.safetyDisarm && s.connected && s.armed && !s.armFailed
  }

  // The demand stays, and the FCU stays connected and armed; it may report any mode.
  predicate Closing(s: Session, e: Event) {
    match e
    case EvDemand(mode, arm, safety) => mode == s.wantedMode && arm == s.wantedArm && safety == s.safetyDisarm
    case EvObserve(connected, armed, _) => connected && armed
    case _ => true
  }

  /** The report leaves the wanted mode. */
  predicate Departs(s: Session, e: Event) { e.EvObserve? && s.mode == s.wantedMode && e.mode != s.wantedMode }

  /** How often the reports of a run leave the wanted mode. */
  function Departures(s: Session, events: seq<Event>): nat
    decreases |events|
  {
    if events == [] then 0 else (if Departs(s, events[0]) then 1 else 0) + Departures(After(s, events[0]), events[1..])
  }

  function TimeOf(e: Event, now: int): int {
    match e
    case EvTick(at) => at
    case EvPoll(at, _, _, _) => at
    case EvComplete(_, _, at) => at
    case _ => now
  }

  // The newest poll that found the arming service.
  function PolledAt(e: Event, polled: int): int { if e.EvPoll? && e.armService then e.at else polled }

  // Ordered events of a closing session, none later than `gap` after the newest poll with the arming service.
  predicate ClosingRun(s: Session, events: seq<Event>, now: int, polled: int, gap: nat)
    decreases |events|
  {
    events == [] ||
    (var at := TimeOf(events[0], now);
     && Closing(s, events[0]) && now <= at <= polled + gap
     && ClosingRun(After(s, events[0]), events[1..], at, PolledAt(events[0], polled), gap))
  }

  function EndTime(events: seq<Event>, now: int): int
    decreases |events|
  {
    if events == [] then now else EndTime(events[1..], TimeOf(events[0], now))
  }

  ghost predicate HasDisarm(log: seq<Sent>) {
    exists i :: 0 <= i < |log| && IsDisarm(log[i].command)
  }

  predicate ModeOwed(s: Session) { s.mode != s.wantedMode && !s.modeFailed }

  predicate ModeInFlight(s: Session) {
    s.pending.Some? && s.pending.value.kind == Mode && s.pending.value.mode == s.wantedMode
  }

  function Max(x: int, y: int): int { if x < y then y else x }

  /** When the DISARM is sent at the latest if the FCU never again leaves the wanted mode, seen from the newest poll
      with the arming service: an older transaction, then HOLD. */
  function DisarmLimit(s: Session, polled: int, gap: nat): int {
    if s.pending.None? then polled + gap + (if ModeOwed(s) then CONFIRMATION_TIMEOUT + gap else 0)
    else
      Max(s.sentAt + CONFIRMATION_TIMEOUT, polled) + gap
      + (if ModeInFlight(s) then 0 else CONFIRMATION_TIMEOUT + gap)
  }

  // No DISARM was sent on the way from `s` to `n`, and it is due no later than `extra` beyond.
  predicate Nearer(s: Session, n: Session, polled: int, next: int, gap: nat, extra: nat) {
    Ending(n) && !DisarmPending(n) && DisarmLimit(n, next, gap) <= DisarmLimit(s, polled, gap) + extra
  }

  lemma TickNearer(s: Session, now: int, polled: int, gap: nat)
    requires Ending(s) && !DisarmPending(s)
    ensures Nearer(s, Tick(s, now), polled, polled, gap, 0)
  {
  }

  lemma CompleteNearer(s: Session, serial: nat, accepted: bool, now: int, polled: int, gap: nat)
    requires Ending(s) && !DisarmPending(s)
    ensures Nearer(s, Complete(s, serial, accepted, now), polled, polled, gap, 0)
  {
    TickNearer(s, now, polled, gap);
  }

  lemma ObserveNearer(s: Session, mode: FcuMode, polled: int, gap: nat)
    requires Ending(s) && !DisarmPending(s)
    ensures Nearer(s, Observe(s, true, true, mode), polled, polled, gap,
                   if Departs(s, EvObserve(true, true, mode)) then CONFIRMATION_TIMEOUT + gap else 0)
  {
  }

  lemma PollNearer(s: Session, e: Event, polled: int, gap: nat)
    requires Ending(s) && !DisarmPending(s) && e.EvPoll? && polled <= e.at <= polled + gap
    ensures var command := PollCommand(s, e.at, e.modeService, e.armService, e.allowArm);
            || (command.Some? && IsDisarm(command.value))
            || Nearer(s, After(s, e), polled, PolledAt(e, polled), gap, 0)
  {
  }

  lemma ClosingStep(s: Session, e: Event, now: int, polled: int, gap: nat)
    requires Ending(s) && Closing(s, e) && !DisarmPending(s) && polled <= now <= TimeOf(e, now) <= polled + gap
    ensures || (Emission(s, e) != [] && IsDisarm(Emission(s, e)[0].command))
            || Nearer(s, After(s, e), polled, PolledAt(e, polled), gap,
                      if Departs(s, e) then CONFIRMATION_TIMEOUT + gap else 0)
  {
    match e
    case EvDemand(_, _, _) =>
    case EvObserve(_, _, mode) => ObserveNearer(s, mode, polled, gap);
    case EvTick(at) => TickNearer(s, at, polled, gap);
    case EvComplete(serial, accepted, at) => CompleteNearer(s, serial, accepted, at, polled, gap);
    case EvPoll(_, _, _, _) => PollNearer(s, e, polled, gap);
  }

  // `n` departures cost a confirmation timeout and a poll gap each.
  function Delay(n: nat, gap: nat): nat { n * (CONFIRMATION_TIMEOUT + gap) }

  lemma DelayGrows(n: nat, gap: nat)
    ensures Delay(n + 1, gap) == Delay(n, gap) + CONFIRMATION_TIMEOUT + gap
  {
  }

  lemma SomeDisarm(head: seq<Sent>, rest: seq<Sent>)
    ensures HasDisarm(head + rest) <==> HasDisarm(head) || HasDisarm(rest)
  {
    if HasDisarm(head) {
      var i :| 0 <= i < |head| && IsDisarm(head[i].command);
      assert (head + rest)[i] == head[i];
    }
    if HasDisarm(rest) {
      var i :| 0 <= i < |rest| && IsDisarm(rest[i].command);
      assert (head + rest)[|head| + i] == rest[i];
    }
  }

  lemma {:induction false} ClosingDisarms(s: Session, events: seq<Event>, now: int, polled: int, gap: nat)
    requires Ending(s) && !DisarmPending(s) && polled <= now <= polled + gap
    requires ClosingRun(s, events, now, polled, gap)
    ensures || HasDisarm(Emissions(s, events))
            || EndTime(events, now) <= DisarmLimit(s, polled, gap) + Delay(Departures(s, events), gap)
    decreases |events|
  {
    if events != [] {
      var e := events[0];
      var n, rest := After(s, e), events[1..];
      ClosingStep(s, e, now, polled, gap);
      SomeDisarm(Emission(s, e), Emissions(n, rest));
      if Emission(s, e) != [] && IsDisarm(Emission(s, e)[0].command) {
        assert HasDisarm(Emission(s, e));
      } else {
        ClosingDisarms(n, rest, TimeOf(e, now), PolledAt(e, polled), gap);
        DelayGrows(Departures(n, rest), gap);
      }
    }
  }

  /** The end of an ordinary session: an older transaction and a refused, unconfirmed or unavailable HOLD delay the
      DISARM by at most one confirmation timeout and one poll gap each, and so does every departure of the FCU from
      HOLD, whatever else it reports. */
  lemma EndingDisarmsInTime(s: Session, events: seq<Event>, now: int, gap: nat)
    requires Ending(s) && s.sentAt <= now && ClosingRun(s, events, now, now, gap)
    ensures || DisarmPending(s) || HasDisarm(Emissions(s, events))
            || EndTime(events, now) <= now + Delay(2 + Departures(s, events), gap)
  {
    if !DisarmPending(s) {
      ClosingDisarms(s, events, now, now, gap);
      DelayGrows(Departures(s, events), gap);
      DelayGrows(Departures(s, events) + 1, gap);
    }
  }

  ghost predicate Closes(s: Session, events: seq<Event>)
    decreases |events|
  {
    events == [] || (Closing(s, events[0]) && Closes(After(s, events[0]), events[1..]))
  }

  // HOLD can be sent once more without a departure.
  predicate HoldDue(s: Session) { ModeOwed(s) && !ModeInFlight(s) }

  lemma TickHolds(s: Session, at: int)
    ensures var n := Tick(s, at);
            n.connected == s.connected && n.wantedMode == s.wantedMode && (HoldDue(n) ==> HoldDue(s))
  {
  }

  lemma CompleteHolds(s: Session, serial: nat, accepted: bool, at: int)
    ensures var n := Complete(s, serial, accepted, at);
            n.connected == s.connected && n.wantedMode == s.wantedMode && (HoldDue(n) ==> HoldDue(s))
  {
    TickHolds(s, at);
  }

  lemma HoldSpends(s: Session, e: Event)
    requires Closing(s, e) && s.connected
    ensures var n := After(s, e);
            && n.connected && n.wantedMode == s.wantedMode
            && Count(Emission(s, e), Mode) + (if HoldDue(n) then 1 else 0)
               <= (if HoldDue(s) then 1 else 0) + (if Departs(s, e) then 1 else 0)
  {
    match e
    case EvDemand(_, _, _) =>
    case EvObserve(_, _, _) =>
    case EvTick(at) => TickHolds(s, at);
    case EvComplete(serial, accepted, at) => CompleteHolds(s, serial, accepted, at);
    case EvPoll(at, _, _, _) => TickHolds(s, at);
  }

  lemma {:induction false} HoldsNeedDepartures(s: Session, events: seq<Event>)
    requires Closes(s, events) && s.connected
    ensures Count(Emissions(s, events), Mode) <= (if HoldDue(s) then 1 else 0) + Departures(s, events)
    decreases |events|
  {
    if events != [] {
      var n := After(s, events[0]);
      HoldSpends(s, events[0]);
      HoldsNeedDepartures(n, events[1..]);
      CountAppend(Emission(s, events[0]), Emissions(n, events[1..]), Mode);
    }
  }

  // HOLD is sent; each time it is confirmed, the FCU leaves it again before the next poll.
  function Evasions(mode: FcuMode, wanted: FcuMode, serial: nat, now: int, n: nat): seq<Event>
    decreases n
  {
    if n == 0 then [EvPoll(now, true, true, true)]
    else
      [EvPoll(now, true, true, true), EvComplete(serial + 1, true, now + 1), EvObserve(true, true, wanted),
       EvObserve(true, true, mode)] + Evasions(mode, wanted, serial + 1, now + 1, n - 1)
  }

  // One round from a state in which HOLD is owed and nothing pending leads back to such a state.
  lemma EvasionRound(s: Session, now: int)
    requires Ending(s) && s.pending.None? && ModeOwed(s)
    ensures var sent := After(s, EvPoll(now, true, true, true));
            var acked := After(sent, EvComplete(s.serial + 1, true, now + 1));
            var held := After(acked, EvObserve(true, true, s.wantedMode));
            var left := After(held, EvObserve(true, true, s.mode));
            && Emission(s, EvPoll(now, true, true, true)) != []
            && Emission(s, EvPoll(now, true, true, true))[0].command.kind == Mode
            && acked.mode == sent.mode == s.mode && held.mode == s.wantedMode
            && acked.wantedMode == sent.wantedMode == held.wantedMode == s.wantedMode
            && Ending(left) && left.pending.None? && ModeOwed(left)
            && left.serial == s.serial + 1 && left.mode == s.mode && left.wantedMode == s.wantedMode
            && left.sentAt == now && !left.wantedArm
  {
  }

  // What one event adds to a run.
  lemma Unfold(s: Session, e: Event, rest: seq<Event>, now: int, polled: int, gap: nat)
    ensures var events, n, at := [e] + rest, After(s, e), TimeOf(e, now);
            && (Closes(s, events) <==> Closing(s, e) && Closes(n, rest))
            && (ClosingRun(s, events, now, polled, gap) <==>
                  && Closing(s, e) && now <= at <= polled + gap
                  && ClosingRun(n, rest, at, PolledAt(e, polled), gap))
            && EndTime(events, now) == EndTime(rest, at)
            && Departures(s, events) == (if Departs(s, e) then 1 else 0) + Departures(n, rest)
            && Emissions(s, events) == Emission(s, e) + Emissions(n, rest)
  {
    assert ([e] + rest)[1..] == rest;
  }

  /** A closing run in which HOLD is sent n + 1 times, n times left again, and no DISARM is sent. */
  ghost predicate Evades(s: Session, events: seq<Event>, now: int, polled: int, gap: nat, n: nat) {
    && Closes(s, events) && ClosingRun(s, events, now, polled, gap) && EndTime(events, now) == now + n
    && Departures(s, events) == n && !HasDisarm(Emissions(s, events)) && Count(Emissions(s, events), Mode) == n + 1
  }

  lemma {:induction false} EvasionsEvade(s: Session, now: int, polled: int, gap: nat, n: nat)
    requires Ending(s) && s.pending.None? && ModeOwed(s) && polled <= now <= polled + gap && gap > 0
    ensures Evades(s, Evasions(s.mode, s.wantedMode, s.serial, now, n), now, polled, gap, n)
    decreases n
  {
    EvasionRound(s, now);
    var poll := EvPoll(now, true, true, true);
    if n == 0 {
      assert [poll] == [poll] + [];
      Unfold(s, poll, [], now, polled, gap);
    } else {
      EvasionsJoin(s, now, polled, gap, n);
    }
  }

  lemma {:induction false} EvasionsJoin(s: Session, now: int, polled: int, gap: nat, n: nat)
    requires Ending(s) && s.pending.None? && ModeOwed(s) && polled <= now <= polled + gap && gap > 0 && n > 0
    ensures Evades(s, Evasions(s.mode, s.wantedMode, s.serial, now, n), now, polled, gap, n)
    decreases n, 0
  {
    EvasionRound(s, now);
    var e0 := EvPoll(now, true, true, true);
    var sent, rest := After(s, e0), Evasions(s.mode, s.wantedMode, s.serial + 1, now + 1, n - 1);
    var e1 := EvComplete(s.serial + 1, true, now + 1);
    var e2, e3 := EvObserve(true, true, s.wantedMode), EvObserve(true, true, s.mode);
    var left := After(After(After(sent, e1), e2), e3);
    EvasionsEvade(left, now + 1, now, gap, n - 1);
    Confirmed(sent, s.serial + 1, s.mode, rest, now, gap);
    var tail := [e1] + ([e2] + ([e3] + rest));
    Unfold(s, e0, tail, now, polled, gap);
    assert [e0, e1, e2, e3] + rest == [e0] + tail;
    CountAppend(Emission(s, e0), Emissions(left, rest), Mode);
    SomeDisarm(Emission(s, e0), Emissions(left, rest));
  }

  // HOLD is confirmed by ACK and report, and left again.
  lemma Confirmed(s: Session, serial: nat, mode: FcuMode, rest: seq<Event>, now: int, gap: nat)
    requires var acked := After(s, EvComplete(serial, true, now + 1));
             acked.mode != acked.wantedMode && acked.wantedMode == s.wantedMode && gap > 0
    requires var held := After(After(s, EvComplete(serial, true, now + 1)), EvObserve(true, true, s.wantedMode));
             held.mode == held.wantedMode == s.wantedMode && mode != s.wantedMode
    ensures var e1 := EvComplete(serial, true, now + 1);
            var e2, e3 := EvObserve(true, true, s.wantedMode), EvObserve(true, true, mode);
            var left := After(After(After(s, e1), e2), e3);
            var events := [e1] + ([e2] + ([e3] + rest));
            && (Closes(s, events) <==> Closes(left, rest))
            && (ClosingRun(s, events, now, now, gap) <==> ClosingRun(left, rest, now + 1, now, gap))
            && EndTime(events, now) == EndTime(rest, now + 1)
            && Departures(s, events) == 1 + Departures(left, rest)
            && Emissions(s, events) == Emissions(left, rest)
  {
    var e1 := EvComplete(serial, true, now + 1);
    var e2, e3 := EvObserve(true, true, s.wantedMode), EvObserve(true, true, mode);
    var acked := After(s, e1);
    var held := After(acked, e2);
    var left := After(held, e3);
    Unfold(held, e3, rest, now + 1, now, gap);
    Unfold(acked, e2, [e3] + rest, now + 1, now, gap);
    Unfold(s, e1, [e2] + ([e3] + rest), now, now, gap);
  }

  // The refusal of whatever is pending.
  function Refusal(s: Session, now: int): Event {
    EvComplete(if s.pending.Some? then s.pending.value.serial else 0, false, now)
  }

  lemma RefusalFrees(s: Session, now: int)
    requires Ending(s) && !DisarmPending(s)
    ensures var free := After(s, Refusal(s, now));
            && Ending(free) && free.pending.None? && free.mode == s.mode && free.wantedMode == s.wantedMode
            && (HoldDue(s) ==> ModeOwed(free))
  {
  }

  lemma ReopenHold(s: Session, mode: FcuMode)
    requires Ending(s) && s.pending.None? && mode != s.wantedMode
    ensures var held := After(s, EvObserve(true, true, s.wantedMode));
            var left := After(held, EvObserve(true, true, mode));
            && held.mode == held.wantedMode == s.wantedMode && left.wantedMode == s.wantedMode
            && Ending(left) && left.pending.None? && ModeOwed(left)
  {
  }

  /** A closing run that sends n HOLDs with `departures` departures and no DISARM, and ends at `end`. */
  ghost predicate Draws(s: Session, events: seq<Event>, now: int, gap: nat, n: nat, departures: nat, end: int) {
    && Closes(s, events) && ClosingRun(s, events, now, now, gap) && EndTime(events, now) == end
    && Departures(s, events) == departures && !HasDisarm(Emissions(s, events)) && Count(Emissions(s, events), Mode) == n
  }

  lemma DrawsDue(s: Session, now: int, gap: nat, n: nat) returns (events: seq<Event>)
    requires Ending(s) && !DisarmPending(s) && HoldDue(s) && gap > 0
    ensures Draws(s, events, now, gap, n + 1, n, now + n)
  {
    var refusal := Refusal(s, now);
    var free := After(s, refusal);
    RefusalFrees(s, now);
    var rest := Evasions(free.mode, free.wantedMode, free.serial, now, n);
    EvasionsEvade(free, now, now, gap, n);
    Unfold(s, refusal, rest, now, now, gap);
    events := [refusal] + rest;
    assert Emissions(s, events) == Emissions(free, rest);
  }

  lemma DrawsAnyway(s: Session, now: int, gap: nat, n: nat) returns (events: seq<Event>)
    requires Ending(s) && !DisarmPending(s) && gap > 0
    ensures Draws(s, events, now, gap, n + 1, n + 1, now + n)
  {
    var other := if s.wantedMode == Hold then Manual else Hold;
    var refusal, hold, leave := Refusal(s, now), EvObserve(true, true, s.wantedMode), EvObserve(true, true, other);
    var free := After(s, refusal);
    RefusalFrees(s, now);
    ReopenHold(free, other);
    var held := After(free, hold);
    var left := After(held, leave);
    var rest := Evasions(left.mode, left.wantedMode, left.serial, now, n);
    EvasionsEvade(left, now, now, gap, n);
    Unfold(held, leave, rest, now, now, gap);
    Unfold(free, hold, [leave] + rest, now, now, gap);
    Unfold(s, refusal, [hold] + ([leave] + rest), now, now, gap);
    events := [refusal] + ([hold] + ([leave] + rest));
    assert Emissions(s, events) == Emissions(left, rest);
  }

  /** A closing run without a DISARM sends at least n HOLDs in at most so many departures. */
  ghost predicate Delays(s: Session, events: seq<Event>, n: nat, departures: nat) {
    && Closes(s, events) && !HasDisarm(Emissions(s, events)) && Departures(s, events) <= departures
    && Count(Emissions(s, events), Mode) >= n
  }

  /** How many HOLDs the end of a session can draw without a DISARM: exactly as many as the FCU departs from the wanted
      mode, and one more if a HOLD is due. */
  lemma HoldsExactly(s: Session, n: nat, departures: nat)
    requires Ending(s) && !DisarmPending(s)
    ensures (exists events: seq<Event> :: Delays(s, events, n, departures))
            <==> n <= departures + (if HoldDue(s) then 1 else 0)
  {
    if n <= departures + (if HoldDue(s) then 1 else 0) {
      var events: seq<Event> := [];
      if n > 0 && HoldDue(s) {
        events := DrawsDue(s, 0, 1, n - 1);
      } else if n > 0 {
        events := DrawsAnyway(s, 0, 1, n - 1);
      }
      assert Delays(s, events, n, departures);
    }
    forall events: seq<Event> | Delays(s, events, n, departures)
      ensures n <= departures + (if HoldDue(s) then 1 else 0)
    {
      HoldsNeedDepartures(s, events);
    }
  }

  /** A closing run without a DISARM, with at most `cap` departures if a cap is given, ends no later than `limit`. */
  ghost predicate EndsBy(s: Session, now: int, gap: nat, cap: Option<nat>, limit: int) {
    forall events: seq<Event> |
      && ClosingRun(s, events, now, now, gap) && !HasDisarm(Emissions(s, events))
      && (cap.Some? ==> Departures(s, events) <= cap.value) :: EndTime(events, now) <= limit
  }

  lemma DelayMonotone(m: nat, n: nat, gap: nat)
    requires m <= n
    ensures Delay(m, gap) <= Delay(n, gap)
  {
  }

  /** The time to the DISARM of an ordinary end is bounded if and only if the departures of the FCU from the wanted
      mode are: an FCU that leaves HOLD after every confirmation puts the DISARM off for ever. */
  lemma BoundedExactly(s: Session, now: int, gap: nat, cap: Option<nat>)
    requires Ending(s) && !DisarmPending(s) && s.sentAt <= now && gap > 0
    ensures (exists limit :: EndsBy(s, now, gap, cap, limit)) <==> cap.Some?
  {
    if cap.Some? {
      var limit := now + Delay(2 + cap.value, gap);
      forall events: seq<Event> | && ClosingRun(s, events, now, now, gap) && !HasDisarm(Emissions(s, events))
                                  && Departures(s, events) <= cap.value
        ensures EndTime(events, now) <= limit
      {
        EndingDisarmsInTime(s, events, now, gap);
        DelayMonotone(2 + Departures(s, events), 2 + cap.value, gap);
      }
      assert EndsBy(s, now, gap, cap, limit);
    } else {
      forall limit: int ensures !EndsBy(s, now, gap, cap, limit) {
        var events := DrawsAnyway(s, now, gap, if limit >= now then limit - now + 1 else 0);
        assert EndTime(events, now) > limit;
      }
    }
  }
}
