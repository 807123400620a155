/** What the COMMON pair publishes: each stored sample at most once, and none that was cached when another
    source was left. */
module ObservationTheorems {
  import opened Wrappers
  import M = MotorTickProtocol
  import opened WheelTickProtocol
  import opened ObservationProtocol
  import opened ObservationInvariant
  import opened ObservationSteps

  /** Within a COMMON epoch the floors only rise, and epochs never come back. */
  predicate Advances(s: Engine, t: Engine) {
    || s.ticks.epoch < t.ticks.epoch
    || (s.ticks.epoch == t.ticks.epoch && s.publishedLeft <= t.publishedLeft && s.publishedRight <= t.publishedRight)
  }

  lemma ClockAdvances(s: Engine, receipt: int)
    ensures Advances(s, ReceiveClock(s, receipt))
  {
  }

  lemma ReselectAdvances(c: Config, s: Engine, now: int)
    requires Floored(c, s)
    ensures Advances(s, Reselect(c, s, now)) && Floored(c, Reselect(c, s, now))
  {
    SelectFrame(c, s, now, false, 0, 0);
    SelectFloors(c, s, now, false, 0, 0);
  }

  lemma StoredAdvances(c: Config, s: Engine, p: StatusPacket, receipt: int)
    requires Inv(c, s) && StatusWellFormed(p) && TimeValid(p.time) && c.timeout > 0 && s.lastReceipt == receipt > 0
    ensures Advances(s, StatusStored(c, s, p, receipt))
  {
    var leased, current := TakeLease(s, p.component), Current(s, p);
    PairStored(c, s, p, receipt);
    var stored := Store(c, current, p, receipt, 0);
    SelectFrame(c, stored, receipt, true, TimeOf(leased, c.leftSlot), TimeOf(leased, c.rightSlot));
    if current.ticks.epoch == s.ticks.epoch {
      assert current == leased && leased.status == s.status;
    }
  }

  lemma PublishAdvances(c: Config, s: Engine, receipt: int)
    ensures var t := PublishPair(c, s, receipt);
            t == Floors(s, t.publishedLeft, t.publishedRight)
                   .(coreSample := t.coreSample, coreReceipt := t.coreReceipt, baselineNeeded := t.baselineNeeded)
    ensures Floored(c, s) ==> Advances(s, PublishPair(c, s, receipt))
  {
  }

  lemma StatusAdvances(c: Config, s: Engine, p: StatusPacket, receipt: int)
    requires Inv(c, s) && c.timeout > 0
    ensures Advances(s, CommonStatus(c, s, p, receipt))
  {
    if StatusHeard(c, s, p, receipt) {
      var timed := ReceiveClock(s, receipt);
      ClockKeeps(c, s, receipt);
      if !LeaseRefused(c, timed, p.component, receipt) {
        StoredKeeps(c, timed, p, receipt);
        StoredAdvances(c, timed, p, receipt);
        PublishAdvances(c, StatusStored(c, timed, p, receipt), receipt);
      }
    }
  }

  lemma {:induction false} StoreInfoFrame(s: Engine, p: InfoPacket, receipt: int, rewinds: bool, i: nat)
    requires InfoWellFormed(p) && TimeValid(p.time) && i <= 4
    ensures var t := StoreInfo(s, p, receipt, rewinds, i); t == s.(info := t.info)
    decreases 4 - i
  {
    if i < 4 { StoreInfoFrame(StoreInfoSlot(s, p, receipt, rewinds, i), p, receipt, rewinds, i + 1); }
  }

  // Metadata changes the COMMON status of an epoch only by truncation.
  lemma InfoFrame(s: Engine, p: InfoPacket, receipt: int)
    requires InfoWellFormed(p) && TimeValid(p.time)
    ensures var t := InfoStored(s, p, receipt);
            && t == s.(info := t.info, count := t.count, status := t.status)
            && forall slot | 0 <= slot < SLOTS :: t.status[slot].time == s.status[slot].time
  {
    StoreInfoFrame(s, p, receipt, true, 0);
    StoreInfoFrame(Truncate(s, p.count), p, receipt, false, 0);
  }

  lemma NamedAdvances(c: Config, s: Engine, p: InfoPacket, receipt: int)
    requires InfoWellFormed(p) && TimeValid(p.time) && Floored(c, s)
    ensures Advances(s, Reselect(c, InfoStored(s, p, receipt), receipt))
  {
    InfoFrame(s, p, receipt);
    ReselectAdvances(c, InfoStored(s, p, receipt), receipt);
  }

  lemma InfoAdvances(c: Config, s: Engine, p: InfoPacket, receipt: int)
    requires Inv(c, s)
    ensures Advances(s, CommonInfo(c, s, p, receipt))
  {
    if s.connected && receipt > 0 && TimeValid(p.time) && InfoWellFormed(p) {
      var timed := ReceiveClock(s, receipt);
      ClockKeeps(c, s, receipt);
      var named := Nominate(timed, p.component);
      NominateKeeps(c, timed, p.component);
      NamedAdvances(c, named, p, receipt);
    }
  }

  lemma DropAdvances(c: Config, s: Engine, receipt: int)
    requires Floored(c, s)
    ensures Advances(s, DropDistance(c, s, receipt))
  {
    ReselectAdvances(c, s.(distance := s.distance.(valid := false), baseline := None), receipt);
  }

  lemma ResetDistanceFrame(s: Engine)
    ensures var t := ResetDistance(s);
            t == s.(distance := t.distance, distanceOwner := t.distanceOwner, baseline := t.baseline,
                    active := t.active, coreSample := t.coreSample, coreReceipt := t.coreReceipt)
  {
  }

  lemma AcceptFrame(c: Config, s: Engine, next: Distance, component: nat, receipt: int)
    ensures var t := AcceptDistance(c, s, next, component, receipt);
            t == s.(distance := next, distanceOwner := Some(component), baseline := t.baseline,
                    active := t.active, coreSample := t.coreSample, coreReceipt := t.coreReceipt)
  {
    ResetDistanceFrame(s);
  }

  lemma AcceptAdvances(c: Config, s: Engine, next: Distance, component: nat, receipt: int)
    requires Floored(c, s)
    ensures var t := DistanceStored(c, s, next, component, receipt);
            Advances(s, t) && Floored(c, t)
  {
    AcceptFrame(c, s, next, component, receipt);
    ReselectAdvances(c, AcceptDistance(c, s, next, component, receipt), receipt);
  }

  lemma MeasureAdvances(c: Config, s: Engine, next: Distance, receipt: int)
    requires Floored(c, s)
    ensures Advances(s, PublishDistance(c, s, next, receipt))
  {
    DropAdvances(c, s, receipt);
  }

  lemma TakenAdvances(c: Config, s: Engine, p: DistancePacket, receipt: int)
    requires Floored(c, s)
    ensures Advances(s, TakenDistance(c, s, p, receipt))
  {
    DropAdvances(c, s, receipt);
    if DistanceGood(c, p) && !Repeats(s, p) {
      var next := Measured(c, p, receipt);
      AcceptAdvances(c, s, next, p.component, receipt);
      MeasureAdvances(c, DistanceStored(c, s, next, p.component, receipt), next, receipt);
    }
  }

  lemma DistanceAdvances(c: Config, s: Engine, p: DistancePacket, receipt: int)
    requires Inv(c, s)
    ensures Advances(s, WheelDistancePacket(c, s, p, receipt))
  {
    if s.connected && receipt > 0 {
      ClockKeeps(c, s, receipt);
      var timed := ReceiveClock(s, receipt);
      var taken := TakeDistance(c, timed, p.component, receipt);
      ResetDistanceKeeps(c, timed);
      if taken.Some? { TakenAdvances(c, taken.value, p, receipt); }
    }
  }

  lemma LegacyAdvances(c: Config, s: Engine, finite: bool, motion: Option<Motion>, receipt: int)
    requires Inv(c, s)
    ensures Advances(s, LegacyRpm(c, s, finite, motion, receipt))
  {
    if s.connected && receipt > 0 {
      ClockKeeps(c, s, receipt);
      var heard := HearLegacy(c, ReceiveClock(s, receipt), finite, motion);
      ReselectAdvances(c, heard, receipt);
    }
  }

  lemma StepAdvances(c: Config, s: Engine, e: Event)
    requires Inv(c, s) && c.timeout > 0
    ensures Advances(s, Step(c, s, e))
  {
    match e
    case EvConnection(connected) =>
    case EvPoll(now) =>
      ClockKeeps(c, s, now);
      ReselectAdvances(c, ReceiveClock(s, now), now);
    case EvStatus(p, receipt) => StatusAdvances(c, s, p, receipt);
    case EvInfo(p, receipt) => InfoAdvances(c, s, p, receipt);
    case EvDistance(p, receipt) => DistanceAdvances(c, s, p, receipt);
    case EvLegacyRpm(finite, motion, receipt) => LegacyAdvances(c, s, finite, motion, receipt);
    case EvLegacyCounters(receipt) =>
  }

  lemma {:induction false} RunAdvances(c: Config, s: Engine, events: seq<Event>)
    requires Inv(c, s) && c.timeout > 0
    ensures Inv(c, Run(c, s, events)) && Advances(s, Run(c, s, events))
    decreases |events|
  {
    if events != [] {
      var earlier, e := events[..|events| - 1], events[|events| - 1];
      RunAdvances(c, s, earlier);
      StepKeeps(c, Run(c, s, earlier), e);
      StepAdvances(c, Run(c, s, earlier), e);
    }
  }

  predicate PublishesPair(c: Config, s: Engine, e: Event) { e.EvStatus? && Output(c, s, e).Some? }

  // What a publication finds: both samples above the floors it met; they become the floors it leaves.
  lemma PublicationRaisesFloors(c: Config, s: Engine, e: Event)
    requires Inv(c, s) && c.timeout > 0 && PublishesPair(c, s, e)
    ensures var t := Step(c, s, e);
            && CommonMapping(c)
            && t.publishedLeft == TimeOf(t, c.leftSlot) && t.publishedRight == TimeOf(t, c.rightSlot)
            && (t.ticks.epoch == s.ticks.epoch ==>
                  s.publishedLeft < t.publishedLeft && s.publishedRight < t.publishedRight)
  {
    var p, receipt := e.status, e.receipt;
    var timed := ReceiveClock(s, receipt);
    ClockKeeps(c, s, receipt);
    StoredKeeps(c, timed, p, receipt);
    StoredAdvances(c, timed, p, receipt);
  }

  /** No sample is published twice: of two publications in one COMMON epoch, the later one uses newer samples
      of both wheels. */
  lemma NoSampleTwice(c: Config, before: seq<Event>, first: Event, between: seq<Event>, second: Event)
    requires c.timeout > 0
    requires PublishesPair(c, Run(c, Start(), before), first)
    requires var middle := Run(c, Step(c, Run(c, Start(), before), first), between);
             PublishesPair(c, middle, second)
             && Step(c, middle, second).ticks.epoch == Step(c, Run(c, Start(), before), first).ticks.epoch
    ensures var earlier := Step(c, Run(c, Start(), before), first);
            var now := Step(c, Run(c, earlier, between), second);
            && TimeOf(earlier, c.leftSlot) < TimeOf(now, c.leftSlot)
            && TimeOf(earlier, c.rightSlot) < TimeOf(now, c.rightSlot)
  {
    var s := Run(c, Start(), before);
    RunKeeps(c, before);
    StepKeeps(c, s, first);
    PublicationRaisesFloors(c, s, first);
    var earlier := Step(c, s, first);
    RunAdvances(c, earlier, between);
    var middle := Run(c, earlier, between);
    StepAdvances(c, middle, second);
    PublicationRaisesFloors(c, middle, second);
  }

  function Speed(c: Config, slot: Slot): real
    requires c.ticksPerMeter > 0.0
  {
    slot.reading.rpm as real / 60.0 / c.ticksPerMeter
  }

  predicate DescribesPair(c: Config, s: Engine, o: Observation)
    requires CommonMapping(c) && c.ticksPerMeter > 0.0 && c.trackWidth > 0.0
  {
    var left, right := s.status[c.leftSlot], s.status[c.rightSlot];
    && o.linear == (Speed(c, left) + Speed(c, right)) / 2.0
    && o.angular == (Speed(c, right) - Speed(c, left)) / c.trackWidth
    && o.sample == Max(left.time, right.time) * 1000 && o.receipt == Max(left.stamp, right.stamp)
  }

  lemma PairSpeeds(c: Config, s: Engine, receipt: int)
    requires Slots(c, s) && PairObservation(c, s, receipt).Some?
    ensures CommonMapping(c) && c.ticksPerMeter > 0.0 && c.trackWidth > 0.0
    ensures DescribesPair(c, s, PairObservation(c, s, receipt).value)
  {
    PairSample(c, s, receipt);
    var left, right := s.status[c.leftSlot], s.status[c.rightSlot];
    assert Follows(left, s.ticks.wheels[0]) && Follows(right, s.ticks.wheels[1]);
    var m := PairMotion(c, s).value;
    assert m.left == Speed(c, left) && m.right == Speed(c, right);
  }

  lemma PairPublished(c: Config, s: Engine, receipt: int)
    requires Slots(c, s) && PairObservation(c, s, receipt).Some?
    ensures CommonMapping(c) && c.ticksPerMeter > 0.0 && c.trackWidth > 0.0
    ensures var t := PublishPair(c, s, receipt);
            && t.active == EscStatus && t.component == s.component && CommonAvailable(c, t, receipt)
            && s.component == Some(t.status[c.leftSlot].origin) == Some(t.status[c.rightSlot].origin)
            && DescribesPair(c, t, PairObservation(c, s, receipt).value)
  {
    PairSpeeds(c, s, receipt);
  }

  /** What a publication says: the mean and the difference of the two wheel speeds of the very samples stored in
      the mapped slots, which are fresh, valid, in count, of one component and within the skew bound. */
  lemma PublicationDescribesThePair(c: Config, before: seq<Event>, e: Event)
    requires c.timeout > 0 && PublishesPair(c, Run(c, Start(), before), e)
    ensures var t := Step(c, Run(c, Start(), before), e);
            var o := Output(c, Run(c, Start(), before), e).value;
            && CommonMapping(c) && c.ticksPerMeter > 0.0 && c.trackWidth > 0.0
            && t.active == EscStatus && CommonAvailable(c, t, e.receipt)
            && t.status[c.leftSlot].origin == t.status[c.rightSlot].origin == e.status.component
            && DescribesPair(c, t, o)
  {
    var s := Run(c, Start(), before);
    RunKeeps(c, before);
    var timed := ReceiveClock(s, e.receipt);
    ClockKeeps(c, s, e.receipt);
    StoredKeeps(c, timed, e.status, e.receipt);
    StoredOwner(c, timed, e.status, e.receipt);
    var stored := StatusStored(c, timed, e.status, e.receipt);
    PairPublished(c, stored, e.receipt);
  }

  lemma StoredOwner(c: Config, s: Engine, p: StatusPacket, receipt: int)
    requires Inv(c, s) && StatusWellFormed(p) && TimeValid(p.time) && c.timeout > 0 && s.lastReceipt == receipt > 0
    ensures var t := StatusStored(c, s, p, receipt);
            t.component == Some(p.component) && t.owner
            && t.ownerStamp == Store(c, Current(s, p), p, receipt, 0).ownerStamp
  {
    PairStored(c, s, p, receipt);
    var leased, stored := TakeLease(s, p.component), Store(c, Current(s, p), p, receipt, 0);
    SelectFrame(c, stored, receipt, true, TimeOf(leased, c.leftSlot), TimeOf(leased, c.rightSlot));
  }

  /** A due pair is always published: neither the integrator nor the odometry equation can withhold it. */
  lemma DuePairIsPublished(c: Config, before: seq<Event>, e: Event)
    requires c.timeout > 0 && e.EvStatus? && StatusHeard(c, Run(c, Start(), before), e.status, e.receipt)
    ensures var timed := ReceiveClock(Run(c, Start(), before), e.receipt);
            Output(c, Run(c, Start(), before), e).Some? <==>
              && !LeaseRefused(c, timed, e.status.component, e.receipt) && c.ticksPerMeter > 0.0
              && PairDue(c, StatusStored(c, timed, e.status, e.receipt), e.receipt)
  {
    var s := Run(c, Start(), before);
    RunKeeps(c, before);
    var timed := ReceiveClock(s, e.receipt);
    ClockKeeps(c, s, e.receipt);
    StoredKeeps(c, timed, e.status, e.receipt);
    var t := StatusStored(c, timed, e.status, e.receipt);
    if PairDue(c, t, e.receipt) && c.ticksPerMeter > 0.0 {
      var left, right := t.status[c.leftSlot], t.status[c.rightSlot];
      assert Follows(left, t.ticks.wheels[0]) && Follows(right, t.ticks.wheels[1]);
      assert PairMotion(c, t).value.sample == Max(left.time, right.time) * 1000;
      assert PairMotion(c, t).value.receipt == Max(left.stamp, right.stamp);
    }
  }
}
