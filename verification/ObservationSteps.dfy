/** Every call of the observation engine keeps its invariant. */
module ObservationSteps {
  import opened Wrappers
  import M = MotorTickProtocol
  import opened WheelTickProtocol
  import opened ObservationProtocol
  import opened ObservationInvariant

  // Storing samples only moves them forward.
  ghost predicate Grown(s: Engine, t: Engine) {
    && t == s.(status := t.status, ticks := t.ticks, ownerStamp := t.ownerStamp)
    && t.ticks.epoch == s.ticks.epoch
    && (forall slot | 0 <= slot < SLOTS :: Later(s.status[slot], t.status[slot]))
  }

  predicate Later(was: Slot, now: Slot) { was.time <= now.time && was.stamp <= now.stamp && (was.seen ==> now.seen) }

  ghost predicate Storable(c: Config, s: Engine, p: StatusPacket, receipt: int, i: nat)
    requires StatusWellFormed(p)
  {
    && Slots(c, s) && c.timeout > 0 && s.component == Some(p.component) && s.lastReceipt == receipt > 0
    && (forall slot | p.index + i <= slot < p.index + 4 :: s.status[slot].seen ==> s.status[slot].time <= p.time)
  }

  lemma StoreSlotFrame(c: Config, s: Engine, p: StatusPacket, receipt: int, i: nat)
    requires StatusWellFormed(p) && TimeValid(p.time) && i < 4
    ensures var t := StoreSlot(c, s, p, receipt, i);
            && t == s.(status := t.status, ticks := t.ticks, ownerStamp := t.ownerStamp)
            && t.ticks.epoch == s.ticks.epoch
            && forall slot | 0 <= slot < SLOTS && slot != p.index + i :: t.status[slot] == s.status[slot]
  {
  }

  lemma StoreSlotTimed(c: Config, s: Engine, p: StatusPacket, receipt: int, i: nat)
    requires StatusWellFormed(p) && TimeValid(p.time) && i < 4 && Storable(c, s, p, receipt, i)
    ensures var t := StoreSlot(c, s, p, receipt, i);
            && Unmixed(t) && Timed(t) && Grown(s, t)
            && forall slot | 0 <= slot < SLOTS && slot != p.index + i :: t.status[slot] == s.status[slot]
  {
    var t := StoreSlot(c, s, p, receipt, i);
    StoreSlotFrame(c, s, p, receipt, i);
    var was, now := s.status[p.index + i], t.status[p.index + i];
    assert Later(was, now) && (now.seen ==> now.time > 0 && (now.origin == p.component || now.origin == was.origin));
  }

  lemma ObserveFollows(timeout: int, was: Slot, wheel: M.Wheel, next: Slot)
    requires Follows(was, wheel) && timeout > 0 && next.seen && next.time > 0 && next.stamp > 0
    requires was.seen ==> was.time < next.time && was.stamp <= next.stamp
    ensures Follows(next, M.ObserveWheel(timeout, wheel, next.reading.rpm as real, next.time * 1000, next.stamp))
  {
  }

  lemma StoreSlotTracked(c: Config, s: Engine, p: StatusPacket, receipt: int, i: nat)
    requires StatusWellFormed(p) && TimeValid(p.time) && i < 4 && Storable(c, s, p, receipt, i)
    ensures Tracked(c, StoreSlot(c, s, p, receipt, i))
  {
    if CommonMapping(c) {
      var next := Slot(true, p.time, receipt, true, p.readings[i], p.component);
      var was := s.status[p.index + i];
      if was.seen && p.time == was.time {
      } else if p.index + i == c.leftSlot {
        ObserveFollows(c.timeout, was, s.ticks.wheels[0], next);
      } else if p.index + i == c.rightSlot {
        ObserveFollows(c.timeout, was, s.ticks.wheels[1], next);
      }
    }
  }

  lemma {:induction false} StoreKeeps(c: Config, s: Engine, p: StatusPacket, receipt: int, i: nat)
    requires StatusWellFormed(p) && TimeValid(p.time) && i <= 4 && Storable(c, s, p, receipt, i)
    ensures Slots(c, Store(c, s, p, receipt, i)) && Grown(s, Store(c, s, p, receipt, i))
    decreases 4 - i
  {
    if i < 4 {
      var t := StoreSlot(c, s, p, receipt, i);
      StoreSlotTimed(c, s, p, receipt, i);
      StoreSlotTracked(c, s, p, receipt, i);
      StoreKeeps(c, t, p, receipt, i + 1);
    }
  }

  lemma LeaseKeeps(c: Config, s: Engine, component: nat)
    requires Inv(c, s)
    ensures Inv(c, TakeLease(s, component))
  {
    ResetCommonKeeps(c, s);
  }

  // The engine in which the packet's samples are stored.
  function Current(s: Engine, p: StatusPacket): Engine
    requires StatusWellFormed(p)
  {
    var leased := TakeLease(s, p.component);
    if Rewinds(leased, p) then Rewound(leased, p.component) else leased
  }

  lemma CurrentKeeps(c: Config, s: Engine, p: StatusPacket, receipt: int)
    requires Inv(c, s) && StatusWellFormed(p) && c.timeout > 0 && s.lastReceipt == receipt > 0
    ensures Inv(c, Current(s, p)) && Storable(c, Current(s, p), p, receipt, 0)
  {
    var leased := TakeLease(s, p.component);
    LeaseKeeps(c, s, p.component);
    if Rewinds(leased, p) { ResetCommonKeeps(c, leased); }
  }

  lemma PairStored(c: Config, s: Engine, p: StatusPacket, receipt: int)
    requires Inv(c, s) && StatusWellFormed(p) && TimeValid(p.time) && c.timeout > 0 && s.lastReceipt == receipt > 0
    ensures var stored, leased := Store(c, Current(s, p), p, receipt, 0), TakeLease(s, p.component);
            && Inv(c, stored) && stored.lastReceipt == receipt
            && (if Rewinds(leased, p) then stored.baselineNeeded && stored.ticks.epoch > s.ticks.epoch
                else Below(c, stored, TimeOf(leased, c.leftSlot), TimeOf(leased, c.rightSlot)))
            && Grown(Current(s, p), stored)
  {
    var leased, current := TakeLease(s, p.component), Current(s, p);
    LeaseKeeps(c, s, p.component);
    CurrentKeeps(c, s, p, receipt);
    StoreKeeps(c, current, p, receipt, 0);
    var stored := Store(c, current, p, receipt, 0);
    GrownPairs(c, current, stored);
    if CommonMapping(c) && !Rewinds(leased, p) {
      assert Later(current.status[c.leftSlot], stored.status[c.leftSlot]);
      assert Later(current.status[c.rightSlot], stored.status[c.rightSlot]);
    }
  }

  lemma GrownPairs(c: Config, s: Engine, t: Engine)
    requires Floored(c, s) && Pairing(c, s) && Spanning(c, s) && Grown(s, t) && Timed(s)
    ensures Floored(c, t) && Pairing(c, t) && Spanning(c, t)
  {
    if CommonMapping(c) {
      assert Later(s.status[c.leftSlot], t.status[c.leftSlot]);
      assert Later(s.status[c.rightSlot], t.status[c.rightSlot]);
    }
  }

  // What storing and selecting leave: the invariant, or a rewound epoch whose baseline the pair is about to set.
  lemma StoredKeeps(c: Config, s: Engine, p: StatusPacket, receipt: int)
    requires Inv(c, s) && StatusWellFormed(p) && TimeValid(p.time) && c.timeout > 0 && s.lastReceipt == receipt > 0
    ensures var t := StatusStored(c, s, p, receipt);
            && Slots(c, t) && Pairing(c, t) && Spanning(c, t) && t.lastReceipt == receipt
            && (Floored(c, t) || (t.baselineNeeded && t.coreSample == 0
                              && t.active == EscStatus && CommonAvailable(c, t, receipt)))
            && (t.ticks.epoch == s.ticks.epoch ==> Floored(c, t))
  {
    var leased := TakeLease(s, p.component);
    PairStored(c, s, p, receipt);
    var stored := Store(c, Current(s, p), p, receipt, 0);
    var left, right := TimeOf(leased, c.leftSlot), TimeOf(leased, c.rightSlot);
    SelectFrame(c, stored, receipt, true, left, right);
    SelectFloors(c, stored, receipt, true, left, right);
    SelectKeeps(c, stored, receipt, true, left, right);
    SelectSpans(c, stored, receipt, true, left, right);
    assert StatusStored(c, s, p, receipt) == Select(c, stored, receipt, true, left, right);
  }

  lemma PairSample(c: Config, s: Engine, receipt: int)
    requires Slots(c, s) && PairObservation(c, s, receipt).Some?
    ensures var o := PairObservation(c, s, receipt).value;
            && o.sample == Max(s.status[c.leftSlot].time, s.status[c.rightSlot].time) * 1000
            && o.receipt == Max(s.status[c.leftSlot].stamp, s.status[c.rightSlot].stamp)
  {
  }

  lemma PublishKeeps(c: Config, s: Engine, receipt: int)
    requires Slots(c, s) && Pairing(c, s) && Spanning(c, s)
    requires Floored(c, s) || (s.baselineNeeded && s.coreSample == 0
                               && s.active == EscStatus && CommonAvailable(c, s, receipt))
    ensures Inv(c, PublishPair(c, s, receipt))
  {
    if PairObservation(c, s, receipt).Some? { PairSample(c, s, receipt); }
    var t := PublishPair(c, s, receipt);
    assert Unmixed(t) && Timed(t) && Tracked(c, t);
  }

  lemma StatusKeeps(c: Config, s: Engine, p: StatusPacket, receipt: int)
    requires Inv(c, s) && c.timeout > 0
    ensures Inv(c, CommonStatus(c, s, p, receipt))
  {
    if StatusHeard(c, s, p, receipt) {
      var timed := ReceiveClock(s, receipt);
      ClockKeeps(c, s, receipt);
      if !LeaseRefused(c, timed, p.component, receipt) {
        StoredKeeps(c, timed, p, receipt);
        PublishKeeps(c, StatusStored(c, timed, p, receipt), receipt);
      }
    }
  }

  lemma StoreInfoSlotKeeps(c: Config, s: Engine, p: InfoPacket, receipt: int, rewinds: bool, i: nat)
    requires InfoWellFormed(p) && TimeValid(p.time) && i < 4 && Inv(c, s) && s.component == Some(p.component)
    ensures var t := StoreInfoSlot(s, p, receipt, rewinds, i);
            Inv(c, t) && t == s.(info := t.info)
  {
    var t := StoreInfoSlot(s, p, receipt, rewinds, i);
    assert t == s.(info := t.info);
    assert forall slot | 0 <= slot < SLOTS && slot != p.index + i :: t.info[slot] == s.info[slot];
    assert Unmixed(t);
  }

  lemma {:induction false} StoreInfoKeeps(c: Config, s: Engine, p: InfoPacket, receipt: int, rewinds: bool, i: nat)
    requires InfoWellFormed(p) && TimeValid(p.time) && i <= 4 && Inv(c, s) && s.component == Some(p.component)
    ensures var t := StoreInfo(s, p, receipt, rewinds, i);
            Inv(c, t) && t == s.(info := t.info)
    decreases 4 - i
  {
    if i < 4 {
      StoreInfoSlotKeeps(c, s, p, receipt, rewinds, i);
      StoreInfoKeeps(c, StoreInfoSlot(s, p, receipt, rewinds, i), p, receipt, rewinds, i + 1);
    }
  }

  lemma NominateKeeps(c: Config, s: Engine, component: nat)
    requires Inv(c, s)
    ensures Inv(c, Nominate(s, component)) && Nominate(s, component).component == Some(component)
  {
    ResetCommonKeeps(c, s);
  }

  lemma TruncateKeeps(c: Config, s: Engine, count: nat)
    requires Inv(c, s)
    ensures Inv(c, Truncate(s, count))
  {
    var t := Truncate(s, count);
    assert Unmixed(t) && Timed(t);
  }

  lemma InfoKeeps(c: Config, s: Engine, p: InfoPacket, receipt: int)
    requires Inv(c, s)
    ensures Inv(c, CommonInfo(c, s, p, receipt))
  {
    if s.connected && receipt > 0 && TimeValid(p.time) && InfoWellFormed(p) {
      var timed := ReceiveClock(s, receipt);
      ClockKeeps(c, s, receipt);
      if !InfoRefused(c, timed, p.component) {
        var named := Nominate(timed, p.component);
        NominateKeeps(c, timed, p.component);
        if MetadataRewinds(named, p) {
          StoreInfoKeeps(c, named, p, receipt, true, 0);
        } else {
          TruncateKeeps(c, named, p.count);
          StoreInfoKeeps(c, Truncate(named, p.count), p, receipt, false, 0);
        }
        ReselectKeeps(c, InfoStored(named, p, receipt), receipt);
      }
    }
  }

  lemma DropKeeps(c: Config, s: Engine, receipt: int)
    requires Slots(c, s) && Floored(c, s) && Pairing(c, s) && s.lastReceipt >= 0
    requires s.active != WheelDistance ==> s.baseline.None?
    ensures Inv(c, DropDistance(c, s, receipt))
  {
    var dropped := s.(distance := s.distance.(valid := false), baseline := None);
    assert Unmixed(dropped) && Timed(dropped) && Tracked(c, dropped);
    SelectFloors(c, dropped, receipt, false, 0, 0);
    SelectKeeps(c, dropped, receipt, false, 0, 0);
    SelectSpans(c, dropped, receipt, false, 0, 0);
  }

  // A stored measurement, before it is compared with the baseline.
  ghost predicate Based(c: Config, s: Engine, next: Distance) {
    && Slots(c, s) && Floored(c, s) && Pairing(c, s)
    && s.distance == next && s.distanceOwner.Some?
    && (s.active != WheelDistance ==> s.baseline.None?)
    && (s.active == WheelDistance ==>
          && s.connected && Uses(c, OnlyDistance) && WheelConfigured(c)
          && s.coreSample <= next.time * 1000 && s.coreReceipt <= s.lastReceipt)
  }

  lemma AcceptKeeps(c: Config, s: Engine, next: Distance, component: nat, receipt: int)
    requires Inv(c, s) && s.lastReceipt == receipt == next.receipt && receipt > 0 && next.valid && next.time > 0
    ensures var t := AcceptDistance(c, s, next, component, receipt);
            Based(c, t, next) && t.lastReceipt == receipt
  {
    ResetDistanceKeeps(c, s);
    var t := AcceptDistance(c, s, next, component, receipt);
    assert t == s.(distance := next, distanceOwner := Some(component), baseline := t.baseline,
                   active := t.active, coreSample := t.coreSample, coreReceipt := t.coreReceipt);
    assert Unmixed(t) && Timed(t) && Tracked(c, t) && Floored(c, t) && Pairing(c, t);
  }

  lemma StoredBased(c: Config, s: Engine, next: Distance, component: nat, receipt: int)
    requires Inv(c, s) && s.lastReceipt == receipt == next.receipt && receipt > 0 && next.valid && next.time > 0
    ensures Based(c, DistanceStored(c, s, next, component, receipt), next)
    ensures DistanceStored(c, s, next, component, receipt).lastReceipt == receipt
  {
    AcceptKeeps(c, s, next, component, receipt);
    var stored := AcceptDistance(c, s, next, component, receipt);
    SelectFrame(c, stored, receipt, false, 0, 0);
    SelectFloors(c, stored, receipt, false, 0, 0);
    SelectKeeps(c, stored, receipt, false, 0, 0);
  }

  lemma PublishDistanceKeeps(c: Config, s: Engine, next: Distance, receipt: int)
    requires Based(c, s, next) && next.valid && next.time > 0 && s.lastReceipt == receipt == next.receipt && receipt > 0
    ensures Inv(c, PublishDistance(c, s, next, receipt))
  {
    if s.active == WheelDistance && s.baseline.Some? && Spans(c, s.baseline.value, next)
       && !Plausible(c, Velocity(s.baseline.value, next)) {
      DropKeeps(c, s, receipt);
    } else {
      var t := PublishDistance(c, s, next, receipt);
      assert Unmixed(t) && Timed(t) && Tracked(c, t);
    }
  }

  lemma TakenKeeps(c: Config, s: Engine, p: DistancePacket, receipt: int)
    requires Inv(c, s) && s.lastReceipt == receipt > 0
    ensures Inv(c, TakenDistance(c, s, p, receipt))
  {
    if !DistanceGood(c, p) {
      DropKeeps(c, s, receipt);
    } else if Repeats(s, p) {
      DropKeeps(c, s, receipt);
    } else {
      var next := Measured(c, p, receipt);
      StoredBased(c, s, next, p.component, receipt);
      PublishDistanceKeeps(c, DistanceStored(c, s, next, p.component, receipt), next, receipt);
    }
  }

  lemma DistanceKeeps(c: Config, s: Engine, p: DistancePacket, receipt: int)
    requires Inv(c, s)
    ensures Inv(c, WheelDistancePacket(c, s, p, receipt))
  {
    if s.connected && receipt > 0 {
      ClockKeeps(c, s, receipt);
      var timed := ReceiveClock(s, receipt);
      var taken := TakeDistance(c, timed, p.component, receipt);
      ResetDistanceKeeps(c, timed);
      if taken.Some? { TakenKeeps(c, taken.value, p, receipt); }
    }
  }

  lemma HearKeeps(c: Config, s: Engine, finite: bool, motion: Option<Motion>)
    requires Inv(c, s)
    ensures Inv(c, HearLegacy(c, s, finite, motion))
  {
    var t := HearLegacy(c, s, finite, motion);
    assert Unmixed(t) && Timed(t);
  }

  lemma ReceivedKeeps(c: Config, s: Engine, o: Option<Observation>)
    requires Inv(c, s) && s.active == Legacy
    ensures Inv(c, Received(s, o))
  {
    var t := Received(s, o);
    assert Unmixed(t) && Timed(t);
  }

  lemma LegacyKeeps(c: Config, s: Engine, finite: bool, motion: Option<Motion>, receipt: int)
    requires Inv(c, s)
    ensures Inv(c, LegacyRpm(c, s, finite, motion, receipt))
  {
    if s.connected && receipt > 0 {
      ClockKeeps(c, s, receipt);
      var timed := ReceiveClock(s, receipt);
      HearKeeps(c, timed, finite, motion);
      ReselectKeeps(c, HearLegacy(c, timed, finite, motion), receipt);
      var stored := LegacyStored(c, s, finite, motion, receipt);
      if LegacyOutput(c, s, finite, motion, receipt).Some? {
        ReceivedKeeps(c, stored, LegacyOutput(c, s, finite, motion, receipt));
      }
    }
  }

  lemma ConnectionKeeps(c: Config, s: Engine, connected: bool)
    requires Inv(c, s)
    ensures Inv(c, ResetAll(s).(connected := connected))
  {
    ResetAllKeeps(c, s);
    var t := ResetAll(s).(connected := connected);
    assert Unmixed(t) && Timed(t);
  }

  lemma StepKeeps(c: Config, s: Engine, e: Event)
    requires Inv(c, s) && c.timeout > 0
    ensures Inv(c, Step(c, s, e))
  {
    match e
    case EvConnection(connected) => ConnectionKeeps(c, s, connected);
    case EvPoll(now) =>
      ClockKeeps(c, s, now);
      ReselectKeeps(c, ReceiveClock(s, now), now);
    case EvStatus(p, receipt) => StatusKeeps(c, s, p, receipt);
    case EvInfo(p, receipt) => InfoKeeps(c, s, p, receipt);
    case EvDistance(p, receipt) => DistanceKeeps(c, s, p, receipt);
    case EvLegacyRpm(finite, motion, receipt) => LegacyKeeps(c, s, finite, motion, receipt);
    case EvLegacyCounters(receipt) => ClockKeeps(c, s, receipt);
  }

  lemma StartKeeps(c: Config)
    ensures Inv(c, Start())
  {
    assert forall slot | 0 <= slot < SLOTS :: Start().status[slot] == FRESH_SLOT && Start().info[slot] == FRESH_INFO;
  }

  lemma {:induction false} RunKeeps(c: Config, events: seq<Event>)
    requires c.timeout > 0
    ensures Inv(c, Run(c, Start(), events))
    decreases |events|
  {
    if events == [] {
      StartKeeps(c);
    } else {
      var earlier, e := events[..|events| - 1], events[|events| - 1];
      RunKeeps(c, earlier);
      StepKeeps(c, Run(c, Start(), earlier), e);
    }
  }
}
