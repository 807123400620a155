/** When an FCU session storms: exactly for an armed FCU that is demanded armed and, for safety, disarmed. */
module SessionStorms {
  import opened Wrappers
  import opened SessionProtocol
  import opened SessionTheorems

  /** The contradiction that no failure ever settles. */
  predicate Boundless(s: Session) { s.connected && s.armed && s.wantedArm && s.safetyDisarm }

  // A repeated report forgets a failure, a poll sends the DISARM, and it is refused.
  function Rounds(mode: FcuMode, serial: nat, n: nat): seq<Event>
    decreases n
  {
    if n == 0 then []
    else [EvObserve(true, true, mode), EvPoll(0, true, true, true), EvComplete(serial + 1, false, 0)]
         + Rounds(mode, serial + 1, n - 1)
  }

  lemma RoundReturns(s: Session)
    requires Boundless(s) && s.pending.None?
    ensures var heard := After(s, EvObserve(true, true, s.mode));
            var sent := After(heard, EvPoll(0, true, true, true));
            var refused := After(sent, EvComplete(s.serial + 1, false, 0));
            && Emission(heard, EvPoll(0, true, true, true)) != []
            && Emission(heard, EvPoll(0, true, true, true))[0].command.kind == Arm
            && Boundless(refused) && refused.pending.None? && refused.serial == s.serial + 1 && refused.mode == s.mode
            && Carries(s, heard) && Carries(heard, sent) && Carries(sent, refused)
  {
  }

  lemma {:induction false} RoundsStorm(s: Session, n: nat)
    requires Boundless(s) && s.pending.None?
    ensures SteadyRun(s, Rounds(s.mode, s.serial, n))
    ensures Count(Emissions(s, Rounds(s.mode, s.serial, n)), Arm) == n
    decreases n
  {
    if n != 0 {
      var events, rest := Rounds(s.mode, s.serial, n), Rounds(s.mode, s.serial + 1, n - 1);
      var refused := After(After(After(s, events[0]), events[1]), events[2]);
      RoundReturns(s);
      RoundsStorm(refused, n - 1);
      RoundSends(s, rest);
      forall i | 0 <= i < |events| ensures Steady(s, events[i]) {
        if i >= 3 { assert events[i] == rest[i - 3] && Steady(refused, rest[i - 3]); }
      }
    }
  }

  // A round sends one DISARM, and then the rest follows.
  lemma RoundSends(s: Session, rest: seq<Event>)
    requires Boundless(s) && s.pending.None?
    ensures var events := [EvObserve(true, true, s.mode), EvPoll(0, true, true, true),
                           EvComplete(s.serial + 1, false, 0)] + rest;
            var refused := After(After(After(s, events[0]), events[1]), events[2]);
            Count(Emissions(s, events), Arm) == 1 + Count(Emissions(refused, rest), Arm)
  {
    RoundReturns(s);
    var e0, e1, e2 := EvObserve(true, true, s.mode), EvPoll(0, true, true, true), EvComplete(s.serial + 1, false, 0);
    var heard := After(s, e0);
    var sent := After(heard, e1);
    var refused := After(sent, e2);
    SendsFirst(sent, e2, rest);
    SendsFirst(heard, e1, [e2] + rest);
    SendsFirst(s, e0, [e1] + ([e2] + rest));
    assert [e0, e1, e2] + rest == [e0] + ([e1] + ([e2] + rest));
    assert Emissions(sent, [e2] + rest) == Emissions(refused, rest);
    assert Emissions(s, [e0, e1, e2] + rest) == Emission(heard, e1) + Emissions(refused, rest);
    CountAppend(Emission(heard, e1), Emissions(refused, rest), Arm);
    var sentOne := Emission(heard, e1);
    assert sentOne == [sentOne[0]] && Count(sentOne, Arm) == 1;
  }

  lemma SendsFirst(s: Session, e: Event, rest: seq<Event>)
    ensures Emissions(s, [e] + rest) == Emission(s, e) + Emissions(After(s, e), rest)
  {
    assert ([e] + rest)[1..] == rest;
  }

  /** A steady run sends at least n ARM/DISARM. */
  ghost predicate CanSend(s: Session, n: nat) {
    exists events: seq<Event> :: SteadyRun(s, events) && Count(Emissions(s, events), Arm) >= n
  }

  lemma BoundlessSends(s: Session, n: nat)
    requires Boundless(s)
    ensures CanSend(s, n)
  {
    // A confirmation timeout clears whatever is pending.
    var late := EvTick(s.sentAt + CONFIRMATION_TIMEOUT);
    var free := After(s, late);
    var rounds := Rounds(free.mode, free.serial, n);
    RoundsStorm(free, n);
    var events := [late] + rounds;
    assert events[1..] == rounds;
    forall i | 0 <= i < |events| ensures Steady(s, events[i]) {
      if i >= 1 { assert events[i] == rounds[i - 1] && Steady(free, rounds[i - 1]); }
    }
    assert Emissions(s, events) == Emissions(free, rounds);
  }

  // What a contradictory demand can still send to a disarmed FCU: the owed DISARM, and one ARM.
  function Rest(s: Session): nat { (if s.forceDisarm then 1 else 0) + Allowance(ArmSpent(s)) }

  lemma RestStep(s: Session, e: Event)
    requires Steady(s, e) && s.connected && !s.armed && s.wantedArm && s.safetyDisarm
    ensures Count(Emission(s, e), Arm) + Rest(After(s, e)) <= Rest(s)
  {
    SteadyStep(s, e);
    if e.EvPoll? { TickCarries(s, e.at); }
  }

  lemma {:induction false} RestBounds(s: Session, events: seq<Event>)
    requires SteadyRun(s, events) && s.connected && !s.armed && s.wantedArm && s.safetyDisarm
    ensures Count(Emissions(s, events), Arm) <= Rest(s)
    decreases |events|
  {
    if events != [] {
      var n := After(s, events[0]);
      SteadyStep(s, events[0]);
      RestStep(s, events[0]);
      RestBounds(n, events[1..]);
      CountAppend(Emission(s, events[0]), Emissions(n, events[1..]), Arm);
    }
  }

  lemma {:induction false} SilentUnlinked(s: Session, events: seq<Event>)
    requires SteadyRun(s, events) && !s.connected
    ensures Emissions(s, events) == []
    decreases |events|
  {
    if events != [] {
      SteadyStep(s, events[0]);
      SilentUnlinked(After(s, events[0]), events[1..]);
    }
  }

  /** The boundary of the storm: steady runs send any number of ARM/DISARM if and only if the connected FCU is armed
      and demanded both armed and, for safety, disarmed; whatever is pending or has failed. Otherwise they send at
      most two, at most one if the demand is consistent. */
  lemma StormsExactly(s: Session)
    ensures (forall n: nat :: CanSend(s, n)) <==> Boundless(s)
    ensures !Boundless(s) ==> !CanSend(s, 3) && (Consistent(s) ==> !CanSend(s, 2))
  {
    if Boundless(s) {
      forall n: nat ensures CanSend(s, n) { BoundlessSends(s, n); }
    } else {
      forall events: seq<Event> | SteadyRun(s, events)
        ensures Count(Emissions(s, events), Arm) <= if Consistent(s) then 1 else 2
      {
        if !s.connected {
          SilentUnlinked(s, events);
        } else if Consistent(s) {
          NoRetryStorm(s, events);
        } else {
          RestBounds(s, events);
        }
      }
      assert !CanSend(s, 3);
    }
  }

  /** Two public calls lead there. */
  lemma ContradictionIsReachable()
    ensures Boundless(Run(INITIAL, [EvObserve(true, true, Hold), EvDemand(Hold, true, true)]))
  {
    var events := [EvObserve(true, true, Hold), EvDemand(Hold, true, true)];
    assert Run(INITIAL, events) == After(After(INITIAL, events[0]), events[1]);
  }
}
