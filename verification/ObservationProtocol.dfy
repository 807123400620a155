/** The wheel observation engine as transition functions on values: COMMON ESC status and metadata, wheel
    distance, the legacy source and the selector between them. Sample times are microseconds of the producer,
    receipts and stamps are nanoseconds of the receiver; measured values are exact reals. */
module ObservationProtocol {
  import opened Wrappers
  import M = MotorTickProtocol
  import opened WheelTickProtocol

  datatype Mode = Auto | OnlyDistance | OnlyEsc | OnlyLegacy

  datatype Config = Config(mode: Mode, leftSlot: int, rightSlot: int, trackWidth: real, ticksPerMeter: real,
                           leftWheel: int, rightWheel: int, timeout: int, legacyEnabled: bool,
                           distanceComponent: int, escComponent: int, maxSkew: real, maxSpeed: real)

  const SLOTS := 64
  const MAX_TIME := 9223372036854775

  predicate ValidConfig(c: Config) {
    && -1 <= c.leftSlot < SLOTS && -1 <= c.rightSlot < SLOTS && !(c.leftSlot >= 0 && c.leftSlot == c.rightSlot)
    && c.ticksPerMeter >= 0.0 && c.trackWidth >= 0.0
    && -1 <= c.leftWheel < 16 && -1 <= c.rightWheel < 16 && !(c.leftWheel >= 0 && c.leftWheel == c.rightWheel)
    && -1 <= c.distanceComponent <= 255 && -1 <= c.escComponent <= 255
    && c.timeout > 0 && 0.0 < c.maxSkew <= c.timeout as real / 1000000000.0 && c.maxSpeed > 0.0
  }

  /** One ESC measurement; an absent voltage or current was not finite. */
  datatype Reading = Reading(rpm: int, voltage: Option<real>, current: Option<real>)

  // `origin` records the component a slot was filled by; no branch reads it.
  datatype Slot = Slot(seen: bool, time: nat, stamp: int, valid: bool, reading: Reading, origin: nat)

  datatype Metadata = Metadata(temperature: int, failureFlags: int, errorCount: int)

  datatype InfoSlot = InfoSlot(seen: bool, time: nat, stamp: int, valid: bool, metadata: Metadata, origin: nat)

  datatype Distance = Distance(left: real, right: real, time: nat, receipt: int, valid: bool)

  datatype Motion = Motion(left: real, right: real, sample: int, receipt: int)

  /** A published wheel observation. */
  datatype Observation = Observation(sample: int, receipt: int, linear: real, angular: real)

  type StatusTable = slots: seq<Slot> | |slots| == SLOTS witness seq(SLOTS, _ => FRESH_SLOT)

  type InfoTable = slots: seq<InfoSlot> | |slots| == SLOTS witness seq(SLOTS, _ => FRESH_INFO)

  datatype Engine = Engine(
    status: StatusTable, info: InfoTable, count: Option<nat>, component: Option<nat>,
    owner: bool, ownerStamp: int, publishedLeft: nat, publishedRight: nat, baselineNeeded: bool,
    ticks: M.Integrator, distance: Distance, distanceOwner: Option<nat>, baseline: Option<Distance>,
    legacyReceipt: Option<int>, active: Source, coreSample: int, coreReceipt: int,
    lastReceipt: int, connected: bool)

  const FRESH_SLOT := Slot(false, 0, 0, false, Reading(0, Some(0.0), Some(0.0)), 0)
  const FRESH_INFO := InfoSlot(false, 0, 0, false, Metadata(0, 0, 0), 0)
  const NO_DISTANCE := Distance(0.0, 0.0, 0, 0, false)

  function FreshStatus(): StatusTable { seq(SLOTS, _ => FRESH_SLOT) }

  function FreshInfo(): InfoTable { seq(SLOTS, _ => FRESH_INFO) }

  function Start(): Engine {
    Engine(FreshStatus(), FreshInfo(), None, None, false, 0, 0, 0, false, M.START,
           NO_DISTANCE, None, None, None, NoSource, 0, 0, 0, false)
  }

  predicate TimeValid(us: int) { 0 < us <= MAX_TIME }

  predicate Fresh(c: Config, stamp: int, now: int) { stamp > 0 && now >= stamp && now - stamp <= c.timeout }

  predicate CommonMapping(c: Config) {
    0 <= c.leftSlot < SLOTS && 0 <= c.rightSlot < SLOTS && c.leftSlot != c.rightSlot
  }

  predicate DistanceMapping(c: Config, count: nat) {
    2 <= count <= 16 && 0 <= c.leftWheel < count && 0 <= c.rightWheel < count && c.leftWheel != c.rightWheel
  }

  predicate LegacyMapping(c: Config) {
    0 <= c.leftSlot < 12 && 0 <= c.rightSlot < 12 && c.leftSlot != c.rightSlot && c.timeout > 0
  }

  predicate Uses(c: Config, mode: Mode) { c.mode == Auto || c.mode == mode }

  predicate WheelConfigured(c: Config) {
    c.trackWidth > 0.0 &&
    (|| (Uses(c, OnlyDistance) && DistanceMapping(c, 16))
     || (Uses(c, OnlyEsc) && CommonMapping(c) && c.ticksPerMeter > 0.0)
     || (Uses(c, OnlyLegacy) && c.legacyEnabled && LegacyMapping(c) && c.ticksPerMeter > 0.0))
  }

  function ResetCore(s: Engine): Engine { s.(coreSample := 0, coreReceipt := 0) }

  // A new COMMON epoch; the integrator counts the epochs.
  function ResetCommon(s: Engine): Engine {
    var cleared := s.(status := FreshStatus(), info := FreshInfo(), count := None, component := None,
                      ticks := M.Reset(s.ticks), ownerStamp := 0, owner := false,
                      publishedLeft := 0, publishedRight := 0, baselineNeeded := false);
    if s.active == EscStatus then ResetCore(cleared).(active := NoSource) else cleared
  }

  function ResetDistance(s: Engine): Engine {
    var cleared := s.(distance := NO_DISTANCE, distanceOwner := None, baseline := None);
    if s.active == WheelDistance then ResetCore(cleared).(active := NoSource) else cleared
  }

  function ResetAll(s: Engine): Engine {
    ResetCore(ResetDistance(ResetCommon(s))).(legacyReceipt := None, active := NoSource, lastReceipt := 0)
  }

  function ReceiveClock(s: Engine, receipt: int): Engine {
    (if receipt < s.lastReceipt then ResetAll(s) else s).(lastReceipt := receipt)
  }

  predicate InCount(s: Engine, slot: int) { s.count.None? || slot < s.count.value }

  function TimeOf(s: Engine, slot: int): nat {
    if 0 <= slot < |s.status| then s.status[slot].time else 0
  }

  function Difference(a: nat, b: nat): nat { if a < b then b - a else a - b }

  /** Both mapped slots hold fresh, valid samples in count, no further apart than the skew bound. */
  predicate CommonAvailable(c: Config, s: Engine, now: int)
  {
    CommonMapping(c) &&
    (var l, r := s.status[c.leftSlot], s.status[c.rightSlot];
     && l.seen && r.seen && l.valid && r.valid && Fresh(c, l.stamp, now) && Fresh(c, r.stamp, now)
     && InCount(s, c.leftSlot) && InCount(s, c.rightSlot)
     && Difference(l.time, r.time) as real / 1000000.0 <= c.maxSkew)
  }

  function Choice(c: Config, s: Engine, now: int): Source
  {
    if !s.connected || !WheelConfigured(c) then NoSource
    else if Uses(c, OnlyDistance) && s.distance.valid && Fresh(c, s.distance.receipt, now) then WheelDistance
    else if Uses(c, OnlyEsc) && CommonAvailable(c, s, now) then EscStatus
    else if Uses(c, OnlyLegacy) && c.legacyEnabled && s.legacyReceipt.Some? && Fresh(c, s.legacyReceipt.value, now)
      then Legacy
    else NoSource
  }

  function Floors(s: Engine, left: nat, right: nat): Engine { s.(publishedLeft := left, publishedRight := right) }

  // The per-wheel floors after a change of source: cached COMMON samples are fenced, except that a mere gap of
  // the COMMON pair keeps its pending wheel.
  function Fence(c: Config, s: Engine, next: Source, update: bool, previousLeft: nat, previousRight: nat): Engine
  {
    if !CommonMapping(c) then s
    else if (next != EscStatus && (next != NoSource || s.active != EscStatus)) || (next == EscStatus && !update) then
      Floors(s, s.status[c.leftSlot].time, s.status[c.rightSlot].time)
    else if next == EscStatus && s.active != NoSource then Floors(s, previousLeft, previousRight)
    else s
  }

  function Select(c: Config, s: Engine, now: int, update: bool, previousLeft: nat, previousRight: nat): Engine
  {
    var next := Choice(c, s, now);
    if next == s.active then s
    else
      Fence(c, ResetCore(s), next, update, previousLeft, previousRight)
        .(baseline := if next == WheelDistance then Some(s.distance) else None, active := next)
  }

  function Reselect(c: Config, s: Engine, now: int): Engine
  {
    Select(c, s, now, false, 0, 0)
  }

  // The differential-drive equation, guarded by the times of the previous observation.
  function Receive(c: Config, s: Engine, m: Motion): Option<Observation> {
    if c.trackWidth <= 0.0 || m.sample <= s.coreSample || m.receipt <= 0 || m.receipt < s.coreReceipt then None
    else Some(Observation(m.sample, m.receipt, (m.left + m.right) / 2.0, (m.right - m.left) / c.trackWidth))
  }

  function Received(s: Engine, o: Option<Observation>): Engine {
    if o.None? then s else s.(coreSample := o.value.sample, coreReceipt := o.value.receipt)
  }

  datatype StatusPacket = StatusPacket(index: nat, time: int, readings: seq<Reading>, component: nat)

  predicate StatusWellFormed(p: StatusPacket) { p.index <= 60 && p.index % 4 == 0 && |p.readings| == 4 }

  // STATUS takes the lease, and may take it over once it is stale.
  predicate LeaseRefused(c: Config, s: Engine, component: nat, receipt: int) {
    || (c.escComponent >= 0 && component != c.escComponent)
    || (s.component.Some? && s.component.value != component && s.owner && Fresh(c, s.ownerStamp, receipt))
  }

  function TakeLease(s: Engine, component: nat): Engine {
    (if s.component.Some? && s.component.value != component then ResetCommon(s) else s)
      .(component := Some(component), owner := true)
  }

  // A sample older than a stored one starts a new epoch of the producer.
  predicate Rewinds(s: Engine, p: StatusPacket)
    requires StatusWellFormed(p)
  {
    exists slot | p.index <= slot < p.index + 4 :: s.status[slot].seen && p.time < s.status[slot].time
  }

  function Rewound(s: Engine, component: nat): Engine {
    ResetCommon(s).(component := Some(component), owner := true, baselineNeeded := true)
  }

  // The integrator's wheel that a slot feeds, if any.
  function Wheel(c: Config, slot: nat): Option<nat> {
    if slot == c.leftSlot then Some(0) else if slot == c.rightSlot then Some(1) else None
  }

  function StoreSlot(c: Config, s: Engine, p: StatusPacket, receipt: int, i: nat): Engine
    requires StatusWellFormed(p) && TimeValid(p.time) && i < 4
  {
    var slot := p.index + i;
    var was := s.status[slot];
    var wheel := Wheel(c, slot);
    if !InCount(s, slot) then s
    else if was.seen && p.time == was.time then
      // A repeated time with another content invalidates the sample.
      if was.reading == p.readings[i] then s
      else s.(status := s.status[slot := was.(valid := false)],
              ticks := if wheel.Some? then M.Invalidate(s.ticks, wheel.value) else s.ticks)
    else
      s.(status := s.status[slot := Slot(true, p.time, receipt, true, p.readings[i], p.component)],
         ownerStamp := receipt,
         ticks := if wheel.Some?
                  then M.Observe(c.timeout, s.ticks, wheel.value, p.readings[i].rpm as real, p.time * 1000, receipt)
                  else s.ticks)
  }

  function Store(c: Config, s: Engine, p: StatusPacket, receipt: int, i: nat): Engine
    requires StatusWellFormed(p) && TimeValid(p.time) && i <= 4
    decreases 4 - i
  {
    if i == 4 then s else Store(c, StoreSlot(c, s, p, receipt, i), p, receipt, i + 1)
  }

  // The pair both wheels of the integrator describe now.
  function PairMotion(c: Config, s: Engine): Option<Motion>
  {
    var l, r := s.ticks.wheels[0], s.ticks.wheels[1];
    if c.ticksPerMeter <= 0.0 || !l.valid || !r.valid then None
    else Some(Motion(l.rate / c.ticksPerMeter, r.rate / c.ticksPerMeter,
                     if l.sample < r.sample then r.sample else l.sample,
                     if l.receipt < r.receipt then r.receipt else l.receipt))
  }

  // The pair is newer than the floors on both wheels, and no epoch baseline is due.
  predicate PairDue(c: Config, s: Engine, receipt: int)
  {
    && s.active == EscStatus && CommonAvailable(c, s, receipt) && !s.baselineNeeded
    && s.status[c.leftSlot].time > s.publishedLeft && s.status[c.rightSlot].time > s.publishedRight
  }

  function PairObservation(c: Config, s: Engine, receipt: int): Option<Observation>
  {
    if !PairDue(c, s, receipt) || PairMotion(c, s).None? then None else Receive(c, s, PairMotion(c, s).value)
  }

  function PublishPair(c: Config, s: Engine, receipt: int): Engine
  {
    var o := PairObservation(c, s, receipt);
    if s.active == EscStatus && CommonAvailable(c, s, receipt) && s.baselineNeeded then
      Floors(s, s.status[c.leftSlot].time, s.status[c.rightSlot].time).(baselineNeeded := false)
    else if o.Some? then Floors(Received(s, o), s.status[c.leftSlot].time, s.status[c.rightSlot].time)
    else s
  }

  // A STATUS packet that is looked at: well formed, in time, and with the lease.
  predicate StatusHeard(c: Config, s: Engine, p: StatusPacket, receipt: int) {
    s.connected && receipt > 0 && TimeValid(p.time) && StatusWellFormed(p)
  }

  // The engine after a STATUS packet was stored and the source selected.
  function StatusStored(c: Config, s: Engine, p: StatusPacket, receipt: int): Engine
    requires StatusWellFormed(p) && TimeValid(p.time)
  {
    var leased := TakeLease(s, p.component);
    var current := if Rewinds(leased, p) then Rewound(leased, p.component) else leased;
    Select(c, Store(c, current, p, receipt, 0), receipt, true, TimeOf(leased, c.leftSlot), TimeOf(leased, c.rightSlot))
  }

  function CommonStatus(c: Config, s: Engine, p: StatusPacket, receipt: int): Engine
  {
    if !StatusHeard(c, s, p, receipt) then s
    else
      var timed := ReceiveClock(s, receipt);
      if LeaseRefused(c, timed, p.component, receipt) then timed
      else PublishPair(c, StatusStored(c, timed, p, receipt), receipt)
  }

  function StatusOutput(c: Config, s: Engine, p: StatusPacket, receipt: int): Option<Observation>
  {
    if !StatusHeard(c, s, p, receipt) then None
    else
      var timed := ReceiveClock(s, receipt);
      if LeaseRefused(c, timed, p.component, receipt) then None
      else PairObservation(c, StatusStored(c, timed, p, receipt), receipt)
  }

  datatype InfoPacket = InfoPacket(index: nat, count: nat, time: int, entries: seq<Metadata>, component: nat)

  predicate InfoWellFormed(p: InfoPacket) {
    && p.index <= 60 && p.index % 4 == 0 && p.count <= SLOTS && |p.entries| == 4
    && (if p.count == 0 then p.index == 0 else p.index < p.count)
  }

  // Metadata can neither acquire nor take over a STATUS lease.
  predicate InfoRefused(c: Config, s: Engine, component: nat) {
    || (c.escComponent >= 0 && component != c.escComponent)
    || (s.component.Some? && s.component.value != component && s.owner)
  }

  function Nominate(s: Engine, component: nat): Engine {
    (if s.component.Some? && s.component.value != component then ResetCommon(s) else s).(component := Some(component))
  }

  predicate MetadataRewinds(s: Engine, p: InfoPacket)
    requires InfoWellFormed(p)
  {
    exists slot | p.index <= slot < p.index + 4 && slot < p.count :: s.info[slot].seen && p.time < s.info[slot].time
  }

  function StoreInfoSlot(s: Engine, p: InfoPacket, receipt: int, rewinds: bool, i: nat): Engine
    requires InfoWellFormed(p) && TimeValid(p.time) && i < 4
  {
    var slot := p.index + i;
    var was := s.info[slot];
    if slot >= p.count then s
    else if rewinds then s.(info := s.info[slot := InfoSlot(true, p.time, 0, false, p.entries[i], p.component)])
    else if was.seen && p.time == was.time then
      s.(info := s.info[slot := was.(valid := was.valid && was.metadata == p.entries[i])])
    else s.(info := s.info[slot := InfoSlot(true, p.time, receipt, true, p.entries[i], p.component)])
  }

  function StoreInfo(s: Engine, p: InfoPacket, receipt: int, rewinds: bool, i: nat): Engine
    requires InfoWellFormed(p) && TimeValid(p.time) && i <= 4
    decreases 4 - i
  {
    if i == 4 then s else StoreInfo(StoreInfoSlot(s, p, receipt, rewinds, i), p, receipt, rewinds, i + 1)
  }

  // Slots outside the announced count lose their validity.
  function Truncate(s: Engine, count: nat): Engine
  {
    s.(count := Some(count),
       status := seq(SLOTS, i requires 0 <= i < SLOTS =>
                       if i >= count then s.status[i].(valid := false) else s.status[i]),
       info := seq(SLOTS, i requires 0 <= i < SLOTS => if i >= count then s.info[i].(seen := false) else s.info[i]))
  }

  function InfoStored(s: Engine, p: InfoPacket, receipt: int): Engine
    requires InfoWellFormed(p) && TimeValid(p.time)
  {
    if MetadataRewinds(s, p) then StoreInfo(s, p, receipt, true, 0)
    else StoreInfo(Truncate(s, p.count), p, receipt, false, 0)
  }

  function CommonInfo(c: Config, s: Engine, p: InfoPacket, receipt: int): Engine
  {
    if !s.connected || receipt <= 0 || !TimeValid(p.time) || !InfoWellFormed(p) then s
    else
      var timed := ReceiveClock(s, receipt);
      if InfoRefused(c, timed, p.component) then timed
      else Reselect(c, InfoStored(Nominate(timed, p.component), p, receipt), receipt)
  }

  datatype DistancePacket = DistancePacket(time: int, count: nat, distances: seq<real>, finite: bool, component: nat)

  // A component may take over the distance once the previous one is stale.
  function TakeDistance(c: Config, s: Engine, component: nat, receipt: int): Option<Engine> {
    if c.distanceComponent >= 0 && component != c.distanceComponent then None
    else if s.distanceOwner.Some? && s.distanceOwner.value != component then
      if s.distance.valid && Fresh(c, s.distance.receipt, receipt) then None else Some(ResetDistance(s))
    else Some(s)
  }

  predicate DistanceGood(c: Config, p: DistancePacket) {
    TimeValid(p.time) && DistanceMapping(c, p.count) && p.finite && |p.distances| == 16
  }

  function Measured(c: Config, p: DistancePacket, receipt: int): Distance
    requires DistanceGood(c, p)
  {
    Distance(p.distances[c.leftWheel], p.distances[c.rightWheel], p.time, receipt, true)
  }

  function DropDistance(c: Config, s: Engine, receipt: int): Engine
  {
    Reselect(c, s.(distance := s.distance.(valid := false), baseline := None), receipt)
  }

  function AcceptDistance(c: Config, s: Engine, next: Distance, component: nat, receipt: int): Engine
  {
    var current := if s.distance.valid && next.time < s.distance.time then ResetDistance(s) else s;
    (if Fresh(c, current.distance.receipt, receipt) then current else current.(baseline := None))
      .(distance := next, distanceOwner := Some(component))
  }

  // The engine with a new good measurement, and the source selected.
  function DistanceStored(c: Config, s: Engine, next: Distance, component: nat, receipt: int): Engine
  {
    Reselect(c, AcceptDistance(c, s, next, component, receipt), receipt)
  }

  function Elapsed(a: Distance, b: Distance): real { (b.time - a.time) as real / 1000000.0 }

  predicate Spans(c: Config, from: Distance, to: Distance) {
    from.time < to.time && from.receipt <= to.receipt && to.time - from.time <= c.timeout / 1000
  }

  function Velocity(from: Distance, to: Distance): Motion
    requires from.time < to.time
  {
    Motion((to.left - from.left) / Elapsed(from, to), (to.right - from.right) / Elapsed(from, to),
           to.time * 1000, to.receipt)
  }

  predicate Plausible(c: Config, m: Motion) { Abs(m.left) <= c.maxSpeed && Abs(m.right) <= c.maxSpeed }

  // What a stored measurement publishes, and the engine afterwards.
  function DistanceObservation(c: Config, s: Engine, next: Distance): Option<Observation> {
    if s.active != WheelDistance || s.baseline.None? || !Spans(c, s.baseline.value, next) then None
    else
      var m := Velocity(s.baseline.value, next);
      if Plausible(c, m) then Receive(c, s, m) else None
  }

  function PublishDistance(c: Config, s: Engine, next: Distance, receipt: int): Engine
  {
    if s.active != WheelDistance then s
    else if s.baseline.Some? && Spans(c, s.baseline.value, next) && !Plausible(c, Velocity(s.baseline.value, next)) then
      DropDistance(c, s, receipt)
    else Received(s, DistanceObservation(c, s, next)).(baseline := Some(next))
  }

  predicate Repeats(s: Engine, p: DistancePacket) { s.distance.valid && p.time == s.distance.time }

  function TakenDistance(c: Config, s: Engine, p: DistancePacket, receipt: int): Engine
  {
    if !DistanceGood(c, p) then DropDistance(c, s, receipt)
    else
      var next := Measured(c, p, receipt);
      if Repeats(s, p) then
        if next.left == s.distance.left && next.right == s.distance.right then s else DropDistance(c, s, receipt)
      else PublishDistance(c, DistanceStored(c, s, next, p.component, receipt), next, receipt)
  }

  function WheelDistancePacket(c: Config, s: Engine, p: DistancePacket, receipt: int): Engine
  {
    if !s.connected || receipt <= 0 then s
    else
      var timed := ReceiveClock(s, receipt);
      var taken := TakeDistance(c, timed, p.component, receipt);
      if taken.None? then timed else TakenDistance(c, taken.value, p, receipt)
  }

  function DistanceOutput(c: Config, s: Engine, p: DistancePacket, receipt: int): Option<Observation>
  {
    if !s.connected || receipt <= 0 then None
    else
      var taken := TakeDistance(c, ReceiveClock(s, receipt), p.component, receipt);
      if taken.None? || !DistanceGood(c, p) || Repeats(taken.value, p) then None
      else
        var next := Measured(c, p, receipt);
        DistanceObservation(c, DistanceStored(c, taken.value, next, p.component, receipt), next)
  }

  // The legacy adapter's verdict on an RPM message is an input: nothing, or a motion of both wheels.
  function HearLegacy(c: Config, s: Engine, finite: bool, motion: Option<Motion>): Engine
  {
    s.(legacyReceipt := if !finite then None
                        else if motion.Some? && c.legacyEnabled then Some(motion.value.receipt)
                        else s.legacyReceipt)
  }

  function LegacyStored(c: Config, s: Engine, finite: bool, motion: Option<Motion>, receipt: int): Engine
  {
    Reselect(c, HearLegacy(c, ReceiveClock(s, receipt), finite, motion), receipt)
  }

  function LegacyOutput(c: Config, s: Engine, finite: bool, motion: Option<Motion>, receipt: int): Option<Observation>
  {
    if !s.connected || receipt <= 0 || !finite || motion.None? || !c.legacyEnabled then None
    else
      var stored := LegacyStored(c, s, finite, motion, receipt);
      if stored.active == Legacy then Receive(c, stored, motion.value) else None
  }

  function LegacyRpm(c: Config, s: Engine, finite: bool, motion: Option<Motion>, receipt: int): Engine
  {
    if !s.connected || receipt <= 0 then s
    else Received(LegacyStored(c, s, finite, motion, receipt), LegacyOutput(c, s, finite, motion, receipt))
  }

  datatype Event =
    | EvConnection(connected: bool)
    | EvPoll(now: int)
    | EvStatus(status: StatusPacket, receipt: int)
    | EvInfo(info: InfoPacket, receipt: int)
    | EvDistance(distance: DistancePacket, receipt: int)
    | EvLegacyRpm(finite: bool, motion: Option<Motion>, receipt: int)
    | EvLegacyCounters(receipt: int)

  function Step(c: Config, s: Engine, e: Event): Engine
  {
    match e
    case EvConnection(connected) => ResetAll(s).(connected := connected)
    case EvPoll(now) => Reselect(c, ReceiveClock(s, now), now)
    case EvStatus(p, receipt) => CommonStatus(c, s, p, receipt)
    case EvInfo(p, receipt) => CommonInfo(c, s, p, receipt)
    case EvDistance(p, receipt) => WheelDistancePacket(c, s, p, receipt)
    case EvLegacyRpm(finite, motion, receipt) => LegacyRpm(c, s, finite, motion, receipt)
    case EvLegacyCounters(receipt) => if s.connected && receipt > 0 then ReceiveClock(s, receipt) else s
  }

  // The observation an event publishes, if any.
  function Output(c: Config, s: Engine, e: Event): Option<Observation>
  {
    match e
    case EvStatus(p, receipt) => StatusOutput(c, s, p, receipt)
    case EvDistance(p, receipt) => DistanceOutput(c, s, p, receipt)
    case EvLegacyRpm(finite, motion, receipt) => LegacyOutput(c, s, finite, motion, receipt)
    case _ => None
  }

  /** The state after a run of events. */
  function Run(c: Config, s: Engine, events: seq<Event>): Engine
    decreases |events|
  {
    if events == [] then s
    else Step(c, Run(c, s, events[..|events| - 1]), events[|events| - 1])
  }
}
