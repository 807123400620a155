/** Cached COMMON samples when another source is left: they are fenced off from publication, except after one
    kind of wheel-distance packet. */
module ObservationFencing {
  import opened Wrappers
  import M = MotorTickProtocol
  import opened WheelTickProtocol
  import opened ObservationProtocol
  import opened ObservationInvariant
  import opened ObservationSteps
  import opened ObservationTheorems

  /** The samples cached in s lie at or below the floors of t. */
  predicate Fenced(c: Config, s: Engine, t: Engine)
    requires CommonMapping(c)
  {
    s.status[c.leftSlot].time <= t.publishedLeft && s.status[c.rightSlot].time <= t.publishedRight
  }

  predicate Foreign(s: Engine) { s.active == WheelDistance || s.active == Legacy }

  predicate OtherReady(c: Config, s: Engine, now: int) {
    || (Uses(c, OnlyEsc) && CommonAvailable(c, s, now))
    || (Uses(c, OnlyLegacy) && c.legacyEnabled && s.legacyReceipt.Some? && Fresh(c, s.legacyReceipt.value, now))
  }

  /** A malformed wheel-distance packet of another component, once the active distance is stale and while no
      other source is ready: the source is dropped before the selection, which then sees no change. */
  predicate UnfencedExit(c: Config, s: Engine, e: Event) {
    && e.EvDistance? && s.connected && e.receipt > 0 && e.receipt >= s.lastReceipt && s.active == WheelDistance
    && (c.distanceComponent < 0 || e.distance.component == c.distanceComponent)
    && s.distanceOwner != Some(e.distance.component) && !Fresh(c, s.distance.receipt, e.receipt)
    && !DistanceGood(c, e.distance)
    && !OtherReady(c, s, e.receipt)
  }

  lemma SelectFences(c: Config, s: Engine, now: int, update: bool, left: nat, right: nat)
    requires CommonMapping(c) && Foreign(s)
    ensures var t := Select(c, s, now, update, left, right);
            t.active != s.active ==>
              || Fenced(c, s, t)
              || (update && t.active == EscStatus && t.publishedLeft == left && t.publishedRight == right)
  {
    SelectFrame(c, s, now, update, left, right);
  }

  // A selection out of no source fences what it selects.
  lemma SelectEnters(c: Config, s: Engine, now: int)
    requires CommonMapping(c) && s.active == NoSource
    ensures var t := Reselect(c, s, now);
            if t.active == NoSource then t == s else Fenced(c, s, t)
  {
    SelectFrame(c, s, now, false, 0, 0);
  }

  lemma StatusFences(c: Config, s: Engine, p: StatusPacket, receipt: int)
    requires Inv(c, s) && c.timeout > 0 && CommonMapping(c) && Foreign(s)
    ensures var t := CommonStatus(c, s, p, receipt);
            t.active != s.active && t.ticks.epoch == s.ticks.epoch ==> Fenced(c, s, t)
  {
    if StatusHeard(c, s, p, receipt) {
      var timed := ReceiveClock(s, receipt);
      ClockKeeps(c, s, receipt);
      if !LeaseRefused(c, timed, p.component, receipt) && CommonStatus(c, s, p, receipt).ticks.epoch == s.ticks.epoch {
        PublishAdvances(c, StatusStored(c, timed, p, receipt), receipt);
        StoredKeeps(c, timed, p, receipt);
        StoredAdvances(c, timed, p, receipt);
        StoredFences(c, timed, p, receipt);
      }
    }
  }

  lemma StoredFences(c: Config, s: Engine, p: StatusPacket, receipt: int)
    requires Inv(c, s) && StatusWellFormed(p) && TimeValid(p.time) && c.timeout > 0 && s.lastReceipt == receipt > 0
    requires CommonMapping(c) && Foreign(s) && StatusStored(c, s, p, receipt).ticks.epoch == s.ticks.epoch
    ensures StatusStored(c, s, p, receipt).active != s.active ==> Fenced(c, s, StatusStored(c, s, p, receipt))
  {
    var leased, current := TakeLease(s, p.component), Current(s, p);
    PairStored(c, s, p, receipt);
    var stored := Store(c, current, p, receipt, 0);
    var left, right := TimeOf(leased, c.leftSlot), TimeOf(leased, c.rightSlot);
    SelectFrame(c, stored, receipt, true, left, right);
    assert current == leased && leased.status == s.status;
    SelectFences(c, stored, receipt, true, left, right);
  }

  lemma InfoFences(c: Config, s: Engine, p: InfoPacket, receipt: int)
    requires Inv(c, s) && CommonMapping(c) && Foreign(s)
    ensures var t := CommonInfo(c, s, p, receipt);
            t.active != s.active && t.ticks.epoch == s.ticks.epoch ==> Fenced(c, s, t)
  {
    var t := CommonInfo(c, s, p, receipt);
    if t.active != s.active && t.ticks.epoch == s.ticks.epoch {
      var named := Nominate(ReceiveClock(s, receipt), p.component);
      InfoFrame(named, p, receipt);
      SelectFrame(c, InfoStored(named, p, receipt), receipt, false, 0, 0);
      SelectFences(c, InfoStored(named, p, receipt), receipt, false, 0, 0);
    }
  }

  lemma LegacyFences(c: Config, s: Engine, finite: bool, motion: Option<Motion>, receipt: int)
    requires CommonMapping(c) && Foreign(s)
    ensures var t := LegacyRpm(c, s, finite, motion, receipt);
            t.active != s.active && t.ticks.epoch == s.ticks.epoch ==> Fenced(c, s, t)
  {
    var heard := HearLegacy(c, ReceiveClock(s, receipt), finite, motion);
    if heard.ticks.epoch == s.ticks.epoch {
      SelectFrame(c, heard, receipt, false, 0, 0);
      SelectFences(c, heard, receipt, false, 0, 0);
    }
  }

  lemma DropFences(c: Config, s: Engine, receipt: int)
    requires CommonMapping(c) && Foreign(s)
    ensures var t := DropDistance(c, s, receipt);
            t.active != WheelDistance && (t.active != s.active ==> Fenced(c, s, t))
  {
    var dropped := s.(distance := s.distance.(valid := false), baseline := None);
    SelectFrame(c, dropped, receipt, false, 0, 0);
    SelectFences(c, dropped, receipt, false, 0, 0);
  }

  // An accepted measurement keeps an active distance source active.
  lemma StoredStays(c: Config, s: Engine, next: Distance, component: nat, receipt: int)
    requires s.connected && Uses(c, OnlyDistance) && WheelConfigured(c) && c.timeout > 0
    requires next.valid && next.receipt == receipt > 0
    ensures var t := DistanceStored(c, s, next, component, receipt);
            && t.active == WheelDistance
            && (s.active != WheelDistance ==> t.baseline == Some(next))
  {
    AcceptFrame(c, s, next, component, receipt);
    SelectFrame(c, AcceptDistance(c, s, next, component, receipt), receipt, false, 0, 0);
  }

  lemma StoredDistanceFences(c: Config, s: Engine, next: Distance, component: nat, receipt: int)
    requires Spanning(c, s) && CommonMapping(c) && Foreign(s) && c.timeout > 0
    requires next.valid && next.receipt == receipt > 0
    ensures var t := DistanceStored(c, s, next, component, receipt);
            t.status == s.status && (t.active == s.active || Fenced(c, s, t))
  {
    AcceptFrame(c, s, next, component, receipt);
    var accepted := AcceptDistance(c, s, next, component, receipt);
    SelectFrame(c, accepted, receipt, false, 0, 0);
    if s.active == WheelDistance {
      StoredStays(c, s, next, component, receipt);
    } else {
      SelectFences(c, accepted, receipt, false, 0, 0);
    }
  }

  lemma MeasureFences(c: Config, s: Engine, next: Distance, receipt: int)
    requires CommonMapping(c)
    ensures var t := PublishDistance(c, s, next, receipt);
            t.active != s.active ==> Fenced(c, s, t)
  {
    if s.active == WheelDistance { DropFences(c, s, receipt); }
  }

  lemma TakenFences(c: Config, s: Engine, p: DistancePacket, receipt: int)
    requires Inv(c, s) && CommonMapping(c) && Foreign(s) && c.timeout > 0 && receipt > 0
    ensures var t := TakenDistance(c, s, p, receipt);
            t.active != s.active ==> Fenced(c, s, t)
  {
    DropFences(c, s, receipt);
    if DistanceGood(c, p) && !Repeats(s, p) {
      var next := Measured(c, p, receipt);
      var stored := DistanceStored(c, s, next, p.component, receipt);
      StoredDistanceFences(c, s, next, p.component, receipt);
      AcceptAdvances(c, s, next, p.component, receipt);
      MeasureFences(c, stored, next, receipt);
      MeasureAdvances(c, stored, next, receipt);
    }
  }

  // Dropping what is already reset: the selection starts from no source.
  lemma ResetDropFences(c: Config, s: Engine, receipt: int)
    requires CommonMapping(c) && s.active == WheelDistance && s.connected && WheelConfigured(c)
    ensures var t := DropDistance(c, ResetDistance(s), receipt);
            && t.active != WheelDistance
            && (if OtherReady(c, s, receipt) then Fenced(c, s, t)
                else t.publishedLeft == s.publishedLeft && t.publishedRight == s.publishedRight)
  {
    var reset := ResetDistance(s);
    var dropped := reset.(distance := reset.distance.(valid := false), baseline := None);
    assert CommonAvailable(c, dropped, receipt) == CommonAvailable(c, s, receipt);
    SelectFrame(c, dropped, receipt, false, 0, 0);
  }

  lemma ResetTakenFences(c: Config, s: Engine, p: DistancePacket, receipt: int)
    requires CommonMapping(c) && s.active == WheelDistance && Spanning(c, s) && c.timeout > 0 && receipt > 0
    ensures var t := TakenDistance(c, ResetDistance(s), p, receipt);
            && (t.active != WheelDistance <==> !DistanceGood(c, p))
            && (t.active != WheelDistance ==>
                  if OtherReady(c, s, receipt) then Fenced(c, s, t)
                  else t.publishedLeft == s.publishedLeft && t.publishedRight == s.publishedRight)
  {
    ResetDropFences(c, s, receipt);
    if DistanceGood(c, p) { StoredStays(c, ResetDistance(s), Measured(c, p, receipt), p.component, receipt); }
  }

  lemma TimedDistanceFences(c: Config, s: Engine, p: DistancePacket, receipt: int)
    requires Inv(c, s) && CommonMapping(c) && Foreign(s) && c.timeout > 0 && s.connected && s.lastReceipt == receipt > 0
    requires TakeDistance(c, s, p.component, receipt).Some?
    ensures var t := TakenDistance(c, TakeDistance(c, s, p.component, receipt).value, p, receipt);
            t.active != s.active ==>
              (Fenced(c, s, t) <==> !UnfencedExit(c, s, EvDistance(p, receipt)) || Fenced(c, s, s))
  {
    var taken := TakeDistance(c, s, p.component, receipt).value;
    if s.active == WheelDistance && taken == ResetDistance(s) {
      ResetTakenFences(c, s, p, receipt);
    } else {
      ResetDistanceKeeps(c, s);
      TakenFences(c, taken, p, receipt);
    }
  }

  lemma DistanceFences(c: Config, s: Engine, p: DistancePacket, receipt: int)
    requires Inv(c, s) && CommonMapping(c) && Foreign(s) && c.timeout > 0
    ensures var t := WheelDistancePacket(c, s, p, receipt);
            t.active != s.active && t.ticks.epoch == s.ticks.epoch ==>
              (Fenced(c, s, t) <==> !UnfencedExit(c, s, EvDistance(p, receipt)) || Fenced(c, s, s))
  {
    if s.connected && receipt > 0 {
      ClockKeeps(c, s, receipt);
      var timed := ReceiveClock(s, receipt);
      if timed.ticks.epoch == s.ticks.epoch && TakeDistance(c, timed, p.component, receipt).Some? {
        TimedDistanceFences(c, timed, p, receipt);
      }
    }
  }

  /** When a source other than COMMON is left, the cached COMMON samples are fenced off exactly if the packet is
      not of the one kind named, or there was nothing newer than the floors to fence. */
  lemma LeavingFences(c: Config, s: Engine, e: Event)
    requires Inv(c, s) && CommonMapping(c) && Foreign(s) && c.timeout > 0
    requires Step(c, s, e).active != s.active && Step(c, s, e).ticks.epoch == s.ticks.epoch
    ensures Fenced(c, s, Step(c, s, e)) <==> !UnfencedExit(c, s, e) || Fenced(c, s, s)
  {
    match e
    case EvConnection(connected) =>
    case EvPoll(now) =>
      SelectFences(c, ReceiveClock(s, now), now, false, 0, 0);
    case EvStatus(p, receipt) => StatusFences(c, s, p, receipt);
    case EvInfo(p, receipt) => InfoFences(c, s, p, receipt);
    case EvDistance(p, receipt) => DistanceFences(c, s, p, receipt);
    case EvLegacyRpm(finite, motion, receipt) => LegacyFences(c, s, finite, motion, receipt);
    case EvLegacyCounters(receipt) =>
  }

  /** In every run: after a fenced exit, an ESC observation of the same COMMON epoch uses two samples newer than
      those cached when the other source was left. */
  lemma PublishedAfterLeaving(c: Config, before: seq<Event>, leaving: Event, between: seq<Event>, e: Event)
    requires c.timeout > 0 && CommonMapping(c)
    requires var s := Run(c, Start(), before);
             Foreign(s) && Step(c, s, leaving).active != s.active && !UnfencedExit(c, s, leaving)
    requires var s := Run(c, Start(), before);
             var middle := Run(c, Step(c, s, leaving), between);
             PublishesPair(c, middle, e) && Step(c, middle, e).ticks.epoch == s.ticks.epoch
    ensures var s := Run(c, Start(), before);
            var t := Step(c, Run(c, Step(c, s, leaving), between), e);
            && TimeOf(s, c.leftSlot) < TimeOf(t, c.leftSlot)
            && TimeOf(s, c.rightSlot) < TimeOf(t, c.rightSlot)
  {
    var s := Run(c, Start(), before);
    RunKeeps(c, before);
    StepKeeps(c, s, leaving);
    StepAdvances(c, s, leaving);
    var left := Step(c, s, leaving);
    RunAdvances(c, left, between);
    var middle := Run(c, left, between);
    StepAdvances(c, middle, e);
    LeavingFences(c, s, leaving);
    PublicationRaisesFloors(c, middle, e);
  }

  const EXAMPLE := Config(Auto, 0, 4, 1.0, 1.0, 0, 1, 1000000000, false, -1, -1, 0.25, 10.0)

  function Zeros(): seq<real> { seq(16, _ => 0.0) }

  function FourReadings(): seq<Reading> { seq(4, _ => Reading(60, None, None)) }

  function StatusAt(index: nat, time: int, receipt: int): Event {
    EvStatus(StatusPacket(index, time, FourReadings(), 3), receipt)
  }

  function DistanceAt(time: int, finite: bool, component: nat, receipt: int): Event {
    EvDistance(DistancePacket(time, 2, Zeros(), finite, component), receipt)
  }

  // Distance is active; the left COMMON sample, 2 s, is cached.
  function Cached(): Engine {
    var connected := ResetAll(Start()).(connected := true);
    var distance := Distance(0.0, 0.0, 1000, 1000000000, true);
    connected.(distance := distance, distanceOwner := Some(1), active := WheelDistance, baseline := Some(distance),
               lastReceipt := 1000000000)
  }

  lemma CachedIsReached()
    ensures Step(EXAMPLE, Step(EXAMPLE, Start(), EvConnection(true)), DistanceAt(1000, true, 1, 1000000000)) == Cached()
  {
  }

  // A COMMON sample may be stored while it is not published.
  predicate Holding(s: Engine, slot: nat, time: nat, stamp: int) {
    slot < SLOTS && s.status[slot] == Slot(true, time, stamp, true, Reading(60, None, None), 3)
  }

  predicate Ours(s: Engine) {
    && s.connected && s.component == Some(3) && s.owner && s.count == None && !s.baselineNeeded
    && s.publishedLeft == 0 && s.publishedRight == 0 && s.legacyReceipt == None
  }

  lemma StoreFour(s: Engine, index: nat, time: nat, receipt: int)
    requires index == 0 || index == 4
    requires TimeValid(time) && receipt > 0 && s.count == None
    requires forall slot | index <= slot < index + 4 :: !s.status[slot].seen
    requires !s.ticks.wheels[if index == 0 then 0 else 1].valid
    ensures var t := Store(EXAMPLE, s, StatusPacket(index, time, FourReadings(), 3), receipt, 0);
            && t == s.(status := t.status, ticks := t.ticks, ownerStamp := receipt)
            && Holding(t, index, time, receipt)
            && (forall slot | 0 <= slot < SLOTS && !(index <= slot < index + 4) :: t.status[slot] == s.status[slot])
            && t.ticks.epoch == s.ticks.epoch
            && (var w := if index == 0 then 0 else 1;
                && t.ticks.wheels[w].valid && t.ticks.wheels[w].receipt == receipt
                && t.ticks.wheels[1 - w] == s.ticks.wheels[1 - w])
  {
    var p := StatusPacket(index, time, FourReadings(), 3);
    var one := StoreSlot(EXAMPLE, s, p, receipt, 0);
    var two := StoreSlot(EXAMPLE, one, p, receipt, 1);
    var three := StoreSlot(EXAMPLE, two, p, receipt, 2);
    var four := StoreSlot(EXAMPLE, three, p, receipt, 3);
    assert Store(EXAMPLE, four, p, receipt, 4) == four;
    assert Store(EXAMPLE, three, p, receipt, 3) == four;
    assert Store(EXAMPLE, two, p, receipt, 2) == four;
    assert Store(EXAMPLE, one, p, receipt, 1) == four;
  }

  lemma StatusIsCached()
    ensures var s := Step(EXAMPLE, Cached(), StatusAt(0, 2000000, 1500000000));
            && Ours(s) && Holding(s, 0, 2000000, 1500000000) && s.active == WheelDistance
            && s.lastReceipt == 1500000000 && s.distance == Cached().distance && s.distanceOwner == Some(1)
            && (forall slot | 4 <= slot < SLOTS :: !s.status[slot].seen)
            && s.ticks.wheels[0].valid && s.ticks.wheels[0].receipt == 1500000000 && !s.ticks.wheels[1].valid
  {
    var leased := TakeLease(ReceiveClock(Cached(), 1500000000), 3);
    var p := StatusPacket(0, 2000000, FourReadings(), 3);
    StoreFour(leased, 0, 2000000, 1500000000);
    var stored := Store(EXAMPLE, leased, p, 1500000000, 0);
    assert !Rewinds(leased, p) && Choice(EXAMPLE, stored, 1500000000) == WheelDistance;
    assert StatusStored(EXAMPLE, ReceiveClock(Cached(), 1500000000), p, 1500000000) == stored;
  }

  // The unfenced exit: a malformed packet of component 2 after the distance of component 1 went stale.
  lemma ExitOverlooksCache(s: Engine)
    requires Ours(s) && Holding(s, 0, 2000000, 1500000000) && s.active == WheelDistance
    requires s.lastReceipt == 1500000000 && s.distance == Cached().distance && s.distanceOwner == Some(1)
    requires forall slot | 4 <= slot < SLOTS :: !s.status[slot].seen
    ensures var e := DistanceAt(1000, false, 2, 2200000000);
            var t := Step(EXAMPLE, s, e);
            && UnfencedExit(EXAMPLE, s, e)
            && Ours(t) && t.active == NoSource && t.lastReceipt == 2200000000
            && t.status == s.status && t.ticks == s.ticks && !t.distance.valid && t.coreSample == 0
  {
  }

  lemma CachePublished(s: Engine)
    requires Ours(s) && Holding(s, 0, 2000000, 1500000000) && s.active == NoSource && s.lastReceipt == 2200000000
    requires !s.distance.valid
    requires forall slot | 4 <= slot < SLOTS :: !s.status[slot].seen
    requires s.ticks.wheels[0].valid && s.ticks.wheels[0].receipt == 1500000000 && !s.ticks.wheels[1].valid
    requires s.coreSample == 0
    ensures var e := StatusAt(4, 2100000, 2300000000);
            PublishesPair(EXAMPLE, s, e)
            && TimeOf(Step(EXAMPLE, s, e), 0) == 2000000 && Step(EXAMPLE, s, e).ticks.epoch == s.ticks.epoch
  {
    var leased := TakeLease(ReceiveClock(s, 2300000000), 3);
    StoreFour(leased, 4, 2100000, 2300000000);
  }

  predicate PublishesCached(c: Config, s: Engine, leaving: Event, e: Event) {
    var t := Step(c, s, leaving);
    && Foreign(s) && UnfencedExit(c, s, leaving) && t.active != s.active
    && PublishesPair(c, t, e) && Step(c, t, e).ticks.epoch == s.ticks.epoch
    && TimeOf(Step(c, t, e), c.leftSlot) == TimeOf(s, c.leftSlot)
  }

  lemma CachedIsPublished(s: Engine, leaving: Event, e: Event)
    requires s == Step(EXAMPLE, Cached(), StatusAt(0, 2000000, 1500000000))
    requires leaving == DistanceAt(1000, false, 2, 2200000000) && e == StatusAt(4, 2100000, 2300000000)
    ensures PublishesCached(EXAMPLE, s, leaving, e)
  {
    StatusIsCached();
    ExitOverlooksCache(s);
    CachePublished(Step(EXAMPLE, s, leaving));
  }

  lemma CachedRun(first: Event, second: Event, third: Event)
    requires first == EvConnection(true) && second == DistanceAt(1000, true, 1, 1000000000)
    ensures Run(EXAMPLE, Start(), [first, second, third]) == Step(EXAMPLE, Cached(), third)
  {
    CachedIsReached();
    RunThree(EXAMPLE, Start(), first, second, third);
  }

  /** The unfenced exit happens in a run: five events after the start, an ESC observation uses the left sample that
      was already cached when the distance source was left. */
  lemma CachedSamplePublished()
    ensures exists before: seq<Event>, leaving: Event, e: Event ::
              PublishesCached(EXAMPLE, Run(EXAMPLE, Start(), before), leaving, e)
  {
    Witness(EvConnection(true), DistanceAt(1000, true, 1, 1000000000), StatusAt(0, 2000000, 1500000000),
            DistanceAt(1000, false, 2, 2200000000), StatusAt(4, 2100000, 2300000000));
  }

  lemma Witness(first: Event, second: Event, third: Event, leaving: Event, e: Event)
    requires first == EvConnection(true) && second == DistanceAt(1000, true, 1, 1000000000)
    requires third == StatusAt(0, 2000000, 1500000000)
    requires leaving == DistanceAt(1000, false, 2, 2200000000) && e == StatusAt(4, 2100000, 2300000000)
    ensures PublishesCached(EXAMPLE, Run(EXAMPLE, Start(), [first, second, third]), leaving, e)
  {
    CachedRun(first, second, third);
    CachedIsPublished(Step(EXAMPLE, Cached(), third), leaving, e);
  }

  lemma RunThree(c: Config, s: Engine, first: Event, second: Event, third: Event)
    ensures Run(c, s, [first, second, third]) == Step(c, Step(c, Step(c, s, first), second), third)
  {
    assert [first, second, third][..2] == [first, second] && [first, second][..1] == [first] && [first][..0] == [];
    assert Run(c, s, [first]) == Step(c, s, first);
    assert Run(c, s, [first, second]) == Step(c, Step(c, s, first), second);
  }
}
