/** The observation engine object: two slot tables, an integrator and the selector, updated in place. */
module WheelObservation {
  import opened Wrappers
  import M = MotorTickProtocol
  import opened MotorTicks
  import opened WheelTickProtocol
  import opened ObservationProtocol
  import P = ObservationProtocol

  /** Ownership, epoch baseline and floors of the COMMON source. */
  datatype Common = Common(count: Option<nat>, component: Option<nat>, owner: bool, ownerStamp: int,
                           left: nat, right: nat, baselineNeeded: bool)

  datatype Encoders = Encoders(distance: Distance, owner: Option<nat>, baseline: Option<Distance>)

  /** The times of the last published observation. */
  datatype Core = Core(sample: int, receipt: int)

  const NO_COMMON := Common(None, None, false, 0, 0, 0, false)
  const NO_ENCODERS := Encoders(NO_DISTANCE, None, None)

  class ObservationEngine {
    const config: Config
    const status: array<Slot>
    const info: array<InfoSlot>
    const ticks: MotorTickIntegrator
    var common: Common
    var encoders: Encoders
    var legacyReceipt: Option<int>
    var active: Source
    var core: Core
    var lastReceipt: int
    var connected: bool

    ghost predicate Valid()
      reads ticks
    {
      && status.Length == SLOTS && info.Length == SLOTS && ValidConfig(config)
      && ticks.Valid() && ticks.timeout == config.timeout
    }

    ghost function State(): Engine
      requires Valid()
      reads this, status, info, ticks, ticks.wheels
    {
      Engine(status[..], info[..], common.count, common.component, common.owner, common.ownerStamp,
             common.left, common.right, common.baselineNeeded, ticks.State(), encoders.distance, encoders.owner,
             encoders.baseline, legacyReceipt, active, core.sample, core.receipt, lastReceipt, connected)
    }

    constructor (config: Config)
      requires ValidConfig(config)
      ensures Valid() && this.config == config && State() == Start()
      ensures fresh(status) && fresh(info) && fresh(ticks) && fresh(ticks.wheels)
    {
      this.config := config;
      status := new Slot[SLOTS](_ => FRESH_SLOT);
      info := new InfoSlot[SLOTS](_ => FRESH_INFO);
      ticks := new MotorTickIntegrator(config.timeout);
      common, encoders, legacyReceipt, active, core := NO_COMMON, NO_ENCODERS, None, NoSource, Core(0, 0);
      lastReceipt, connected := 0, false;
    }

    method ResetCommon()
      requires Valid()
      modifies this, status, info, ticks, ticks.wheels
      ensures Valid() && State() == P.ResetCommon(old(State()))
    {
      forall i | 0 <= i < status.Length { status[i] := FRESH_SLOT; }
      forall i | 0 <= i < info.Length { info[i] := FRESH_INFO; }
      assert status[..] == FreshStatus() && info[..] == FreshInfo();
      ticks.ResetAll();
      common := NO_COMMON;
      if active == EscStatus {
        core := Core(0, 0);
        active := NoSource;
      }
    }

    method ResetDistance()
      requires Valid()
      modifies this
      ensures State() == P.ResetDistance(old(State()))
    {
      encoders := NO_ENCODERS;
      if active == WheelDistance {
        core := Core(0, 0);
        active := NoSource;
      }
    }

    method ResetAll()
      requires Valid()
      modifies this, status, info, ticks, ticks.wheels
      ensures Valid() && State() == P.ResetAll(old(State()))
    {
      ResetCommon();
      ResetDistance();
      core := Core(0, 0);
      legacyReceipt := None;
      active := NoSource;
      lastReceipt := 0;
    }

    method ReceiveClock(receipt: int)
      requires Valid()
      modifies this, status, info, ticks, ticks.wheels
      ensures Valid() && State() == P.ReceiveClock(old(State()), receipt)
    {
      if receipt < lastReceipt {
        ResetAll();
      }
      lastReceipt := receipt;
    }

    method Connection(isConnected: bool)
      requires Valid()
      modifies this, status, info, ticks, ticks.wheels
      ensures Valid() && State() == P.ResetAll(old(State())).(connected := isConnected)
    {
      ResetAll();
      connected := isConnected;
    }

    method CommonReady(now: int) returns (ready: bool)
      requires Valid()
      ensures ready == CommonAvailable(config, State(), now)
    {
      if !CommonMapping(config) {
        return false;
      }
      var l, r := status[config.leftSlot], status[config.rightSlot];
      if !l.seen || !r.seen || !l.valid || !r.valid || !Fresh(config, l.stamp, now) || !Fresh(config, r.stamp, now) {
        return false;
      }
      if common.count.Some? && (config.leftSlot >= common.count.value || config.rightSlot >= common.count.value) {
        return false;
      }
      return Difference(l.time, r.time) as real / 1000000.0 <= config.maxSkew;
    }

    method Choose(now: int) returns (next: Source)
      requires Valid()
      ensures next == Choice(config, State(), now)
    {
      next := NoSource;
      if connected && WheelConfigured(config) {
        var ready := CommonReady(now);
        if Uses(config, OnlyDistance) && encoders.distance.valid && Fresh(config, encoders.distance.receipt, now) {
          next := WheelDistance;
        } else if Uses(config, OnlyEsc) && ready {
          next := EscStatus;
        } else if Uses(config, OnlyLegacy) && config.legacyEnabled && legacyReceipt.Some?
                  && Fresh(config, legacyReceipt.value, now) {
          next := Legacy;
        }
      }
    }

    method Select(now: int, update: bool, previousLeft: nat, previousRight: nat)
      requires Valid()
      modifies this
      ensures State() == P.Select(config, old(State()), now, update, previousLeft, previousRight)
    {
      var next := Choose(now);
      if next != active {
        core := Core(0, 0);
        if CommonMapping(config) {
          if (next != EscStatus && (next != NoSource || active != EscStatus)) || (next == EscStatus && !update) {
            common := common.(left := status[config.leftSlot].time, right := status[config.rightSlot].time);
          } else if next == EscStatus && active != NoSource {
            common := common.(left := previousLeft, right := previousRight);
          }
        }
        encoders := encoders.(baseline := if next == WheelDistance then Some(encoders.distance) else None);
        active := next;
      }
    }

    method Poll(now: int)
      requires Valid()
      modifies this, status, info, ticks, ticks.wheels
      ensures Valid() && State() == Reselect(config, P.ReceiveClock(old(State()), now), now)
    {
      ReceiveClock(now);
      Select(now, false, 0, 0);
    }
  
    // The lease of a STATUS packet: refused, kept, taken or taken over.
    method AcceptStatus(component: nat, receipt: int) returns (accepted: bool)
      requires Valid()
      modifies this, status, info, ticks, ticks.wheels
      ensures Valid() && accepted == !LeaseRefused(config, old(State()), component, receipt)
      ensures State() == if accepted then TakeLease(old(State()), component) else old(State())
    {
      if config.escComponent >= 0 && component != config.escComponent {
        return false;
      }
      if common.component.Some? && common.component.value != component {
        if common.owner && Fresh(config, common.ownerStamp, receipt) {
          return false;
        }
        ResetCommon();
      }
      common := common.(component := Some(component), owner := true);
      return true;
    }

    method AcceptInfo(component: nat) returns (accepted: bool)
      requires Valid()
      modifies this, status, info, ticks, ticks.wheels
      ensures Valid() && accepted == !InfoRefused(config, old(State()), component)
      ensures State() == if accepted then Nominate(old(State()), component) else old(State())
    {
      if config.escComponent >= 0 && component != config.escComponent {
        return false;
      }
      if common.component.Some? && common.component.value != component {
        if common.owner {
          return false;
        }
        ResetCommon();
      }
      common := common.(component := Some(component));
      return true;
    }

    // A repeated time with another content.
    method Contradict(slot: nat)
      requires Valid() && slot < SLOTS
      modifies status, ticks.wheels
      ensures Valid()
      ensures var s, wheel := old(State()), P.Wheel(config, slot);
              State() == s.(status := s.status[slot := s.status[slot].(valid := false)],
                            ticks := if wheel.Some? then M.Invalidate(s.ticks, wheel.value) else s.ticks)
    {
      status[slot] := status[slot].(valid := false);
      if slot == config.leftSlot {
        ticks.InvalidateWheel(0);
      }
      if slot == config.rightSlot {
        ticks.InvalidateWheel(1);
      }
    }

    // The integrator's wheel behind a slot observes the new sample.
    method FeedWheel(slot: nat, rpm: int, time: int, receipt: int)
      requires Valid()
      modifies ticks.wheels
      ensures Valid()
      ensures var s, wheel := old(State()), P.Wheel(config, slot);
              State() ==
              s.(ticks := if wheel.Some?
                          then M.Observe(config.timeout, s.ticks, wheel.value, rpm as real, time * 1000, receipt)
                          else s.ticks)
    {
      if slot == config.leftSlot {
        var accepted := ticks.Observe(0, rpm as real, time * 1000, receipt);
      }
      if slot == config.rightSlot {
        var accepted := ticks.Observe(1, rpm as real, time * 1000, receipt);
      }
    }

    method StoreSample(p: StatusPacket, receipt: int, i: nat)
      requires Valid() && StatusWellFormed(p) && TimeValid(p.time) && i < 4
      modifies this, status, ticks.wheels
      ensures Valid() && State() == StoreSlot(config, old(State()), p, receipt, i)
    {
      var slot := p.index + i;
      if common.count.Some? && slot >= common.count.value {
        return;
      }
      var was := status[slot];
      if was.seen && p.time == was.time {
        if was.reading != p.readings[i] {
          Contradict(slot);
        }
        return;
      }
      status[slot] := Slot(true, p.time, receipt, true, p.readings[i], p.component);
      common := common.(ownerStamp := receipt);
      FeedWheel(slot, p.readings[i].rpm, p.time, receipt);
    }

    method StoreSamples(p: StatusPacket, receipt: int)
      requires Valid() && StatusWellFormed(p) && TimeValid(p.time)
      modifies this, status, ticks.wheels
      ensures Valid() && State() == Store(config, old(State()), p, receipt, 0)
    {
      var i := 0;
      while i < 4
        invariant 0 <= i <= 4 && Valid()
        invariant Store(config, State(), p, receipt, i) == Store(config, old(State()), p, receipt, 0)
      {
        StoreSample(p, receipt, i);
        i := i + 1;
      }
    }

    // A sample older than a stored one starts a new epoch.
    method CheckRewind(p: StatusPacket)
      requires Valid() && StatusWellFormed(p)
      modifies this, status, info, ticks, ticks.wheels
      ensures Valid()
      ensures State() == if Rewinds(old(State()), p) then Rewound(old(State()), p.component) else old(State())
    {
      var i := 0;
      while i < 4
        invariant 0 <= i <= 4 && Valid() && State() == old(State())
        invariant forall slot | p.index <= slot < p.index + i ::
                    !(old(State()).status[slot].seen && p.time < old(State()).status[slot].time)
      {
        var was := status[p.index + i];
        assert was == State().status[p.index + i];
        if was.seen && p.time < was.time {
          ResetCommon();
          common := common.(component := Some(p.component), owner := true, baselineNeeded := true);
          return;
        }
        i := i + 1;
      }
    }

    method MotionOfPair() returns (motion: Option<Motion>)
      requires Valid()
      ensures motion == PairMotion(config, State())
    {
      var l, r := ticks.wheels[0], ticks.wheels[1];
      if config.ticksPerMeter <= 0.0 || !l.valid || !r.valid {
        return None;
      }
      return Some(Motion(l.rate / config.ticksPerMeter, r.rate / config.ticksPerMeter,
                         if l.sample < r.sample then r.sample else l.sample,
                         if l.receipt < r.receipt then r.receipt else l.receipt));
    }

    // The odometry equation, if the motion is newer than the last one published.
    method ReceiveMotion(m: Motion) returns (o: Option<Observation>)
      requires Valid()
      modifies this
      ensures o == Receive(config, old(State()), m) && State() == Received(old(State()), o)
    {
      if config.trackWidth <= 0.0 || m.sample <= core.sample || m.receipt <= 0 || m.receipt < core.receipt {
        return None;
      }
      core := Core(m.sample, m.receipt);
      return Some(Observation(m.sample, m.receipt, (m.left + m.right) / 2.0, (m.right - m.left) / config.trackWidth));
    }

    method PublishPair(receipt: int) returns (o: Option<Observation>)
      requires Valid()
      modifies this
      ensures o == PairObservation(config, old(State()), receipt)
      ensures State() == P.PublishPair(config, old(State()), receipt)
    {
      var ready := CommonReady(receipt);
      if active != EscStatus || !ready {
        return None;
      }
      var left, right := status[config.leftSlot], status[config.rightSlot];
      if common.baselineNeeded {
        common := common.(baselineNeeded := false, left := left.time, right := right.time);
        return None;
      }
      if left.time <= common.left || right.time <= common.right {
        return None;
      }
      var motion := MotionOfPair();
      if motion.None? {
        return None;
      }
      o := ReceiveMotion(motion.value);
      if o.Some? {
        common := common.(left := left.time, right := right.time);
      }
    }

    method SlotTime(slot: int) returns (time: nat)
      requires Valid()
      ensures time == TimeOf(State(), slot)
    {
      if slot < 0 || slot >= status.Length {
        return 0;
      }
      return status[slot].time;
    }

    // The stages between the lease and the publication.
    method StoreAndSelect(p: StatusPacket, receipt: int)
      requires Valid() && StatusWellFormed(p) && TimeValid(p.time)
      modifies this, status, info, ticks, ticks.wheels
      ensures Valid()
      ensures forall s: Engine | old(State()) == TakeLease(s, p.component) ::
                State() == StatusStored(config, s, p, receipt)
    {
      var previousLeft := SlotTime(config.leftSlot);
      var previousRight := SlotTime(config.rightSlot);
      CheckRewind(p);
      StoreSamples(p, receipt);
      Select(receipt, true, previousLeft, previousRight);
    }

    method CommonStatus(p: StatusPacket, receipt: int) returns (o: Option<Observation>)
      requires Valid()
      modifies this, status, info, ticks, ticks.wheels
      ensures Valid() && o == StatusOutput(config, old(State()), p, receipt)
      ensures State() == P.CommonStatus(config, old(State()), p, receipt)
    {
      if !connected || receipt <= 0 || !TimeValid(p.time) || !StatusWellFormed(p) {
        return None;
      }
      ReceiveClock(receipt);
      var accepted := AcceptStatus(p.component, receipt);
      if !accepted {
        return None;
      }
      StoreAndSelect(p, receipt);
      o := PublishPair(receipt);
    }
  
    method StoreEntry(p: InfoPacket, receipt: int, rewinds: bool, i: nat)
      requires Valid() && InfoWellFormed(p) && TimeValid(p.time) && i < 4 && p.index + i < p.count
      modifies info
      ensures Valid() && State() == StoreInfoSlot(old(State()), p, receipt, rewinds, i)
    {
      var was := info[p.index + i];
      if rewinds {
        info[p.index + i] := InfoSlot(true, p.time, 0, false, p.entries[i], p.component);
      } else if was.seen && p.time == was.time {
        if was.metadata != p.entries[i] {
          info[p.index + i] := was.(valid := false);
        }
      } else {
        info[p.index + i] := InfoSlot(true, p.time, receipt, true, p.entries[i], p.component);
      }
    }

    method StoreInformation(p: InfoPacket, receipt: int, rewinds: bool)
      requires Valid() && InfoWellFormed(p) && TimeValid(p.time)
      modifies info
      ensures Valid() && State() == StoreInfo(old(State()), p, receipt, rewinds, 0)
    {
      var i := 0;
      while i < 4 && p.index + i < p.count
        invariant 0 <= i <= 4 && Valid()
        invariant StoreInfo(State(), p, receipt, rewinds, i) == StoreInfo(old(State()), p, receipt, rewinds, 0)
      {
        StoreEntry(p, receipt, rewinds, i);
        i := i + 1;
      }
      BeyondCount(State(), p, receipt, rewinds, i);
    }

    method InfoRewinds(p: InfoPacket) returns (rewinds: bool)
      requires Valid() && InfoWellFormed(p)
      ensures rewinds == MetadataRewinds(State(), p)
    {
      rewinds := false;
      var i := 0;
      while i < 4 && p.index + i < p.count
        invariant 0 <= i <= 4
        invariant rewinds <==> exists slot | p.index <= slot < p.index + i && slot < p.count ::
                                 State().info[slot].seen && p.time < State().info[slot].time
      {
        var was := info[p.index + i];
        assert was == State().info[p.index + i];
        if was.seen && p.time < was.time {
          rewinds := true;
        }
        i := i + 1;
      }
    }

    method TruncateSlots(count: nat)
      requires Valid() && count <= SLOTS
      modifies this, status, info
      ensures Valid() && State() == Truncate(old(State()), count)
    {
      common := common.(count := Some(count));
      var slot := count;
      while slot < status.Length
        invariant count <= slot <= SLOTS && Valid()
        invariant forall i | 0 <= i < SLOTS ::
                    && status[i] == (if count <= i < slot then old(status[i]).(valid := false) else old(status[i]))
                    && info[i] == (if count <= i < slot then old(info[i]).(seen := false) else old(info[i]))
        invariant common == old(common).(count := Some(count)) && encoders == old(encoders) && active == old(active)
        invariant legacyReceipt == old(legacyReceipt) && core == old(core) && lastReceipt == old(lastReceipt)
        invariant connected == old(connected)
      {
        status[slot] := status[slot].(valid := false);
        info[slot] := info[slot].(seen := false);
        slot := slot + 1;
      }
      assert status[..] == Truncate(old(State()), count).status;
      assert info[..] == Truncate(old(State()), count).info;
    }

    method CommonInfo(p: InfoPacket, receipt: int)
      requires Valid()
      modifies this, status, info, ticks, ticks.wheels
      ensures Valid() && State() == P.CommonInfo(config, old(State()), p, receipt)
    {
      if !connected || receipt <= 0 || !TimeValid(p.time) || !InfoWellFormed(p) {
        return;
      }
      ReceiveClock(receipt);
      var accepted := AcceptInfo(p.component);
      if !accepted {
        return;
      }
      var rewinds := InfoRewinds(p);
      if !rewinds {
        TruncateSlots(p.count);
      }
      StoreInformation(p, receipt, rewinds);
      Select(receipt, false, 0, 0);
    }

    method LegacyRpm(finite: bool, motion: Option<Motion>, receipt: int) returns (o: Option<Observation>)
      requires Valid()
      modifies this, status, info, ticks, ticks.wheels
      ensures Valid() && o == LegacyOutput(config, old(State()), finite, motion, receipt)
      ensures State() == P.LegacyRpm(config, old(State()), finite, motion, receipt)
    {
      if !connected || receipt <= 0 {
        return None;
      }
      ReceiveClock(receipt);
      if !finite {
        legacyReceipt := None;
        Select(receipt, false, 0, 0);
        return None;
      }
      if motion.Some? && config.legacyEnabled {
        legacyReceipt := Some(motion.value.receipt);
      }
      Select(receipt, false, 0, 0);
      if active == Legacy && motion.Some? && config.legacyEnabled {
        o := ReceiveMotion(motion.value);
      } else {
        o := None;
      }
    }

    method LegacyCounters(receipt: int)
      requires Valid()
      modifies this, status, info, ticks, ticks.wheels
      ensures Valid()
      ensures State() == if old(connected) && receipt > 0 then P.ReceiveClock(old(State()), receipt) else old(State())
    {
      if connected && receipt > 0 {
        ReceiveClock(receipt);
      }
    }

    method DropDistance(receipt: int)
      requires Valid()
      modifies this
      ensures State() == P.DropDistance(config, old(State()), receipt)
    {
      encoders := encoders.(distance := encoders.distance.(valid := false), baseline := None);
      Select(receipt, false, 0, 0);
    }

    method StoreDistance(next: Distance, component: nat, receipt: int)
      requires Valid()
      modifies this
      ensures State() == DistanceStored(config, old(State()), next, component, receipt)
    {
      if encoders.distance.valid && next.time < encoders.distance.time {
        ResetDistance();
      }
      if !Fresh(config, encoders.distance.receipt, receipt) {
        encoders := encoders.(baseline := None);
      }
      encoders := encoders.(distance := next, owner := Some(component));
      Select(receipt, false, 0, 0);
    }

    method PublishDistance(next: Distance, receipt: int) returns (o: Option<Observation>)
      requires Valid() && next.receipt == receipt
      modifies this
      ensures o == DistanceObservation(config, old(State()), next)
      ensures State() == P.PublishDistance(config, old(State()), next, receipt)
    {
      if active != WheelDistance {
        return None;
      }
      var baseline := encoders.baseline;
      encoders := encoders.(baseline := Some(next));
      if baseline.None? || !Spans(config, baseline.value, next) {
        return None;
      }
      var dt := Elapsed(baseline.value, next);
      var left, right := (next.left - baseline.value.left) / dt, (next.right - baseline.value.right) / dt;
      if Abs(left) > config.maxSpeed || Abs(right) > config.maxSpeed {
        DropDistance(receipt);
        return None;
      }
      o := ReceiveMotion(Motion(left, right, next.time * 1000, receipt));
    }

    // One component owns a live distance; another may take over once it is stale.
    method AcceptDistanceFrom(component: nat, receipt: int) returns (accepted: bool)
      requires Valid()
      modifies this
      ensures var taken := TakeDistance(config, old(State()), component, receipt);
              accepted == taken.Some? && State() == if accepted then taken.value else old(State())
    {
      if config.distanceComponent >= 0 && component != config.distanceComponent {
        return false;
      }
      if encoders.owner.Some? && encoders.owner.value != component {
        if encoders.distance.valid && Fresh(config, encoders.distance.receipt, receipt) {
          return false;
        }
        ResetDistance();
      }
      return true;
    }

    method TakePacket(p: DistancePacket, receipt: int) returns (o: Option<Observation>)
      requires Valid()
      modifies this
      ensures State() == TakenDistance(config, old(State()), p, receipt)
      ensures o == if !DistanceGood(config, p) || Repeats(old(State()), p) then None
                   else var next := Measured(config, p, receipt);
                        var stored := DistanceStored(config, old(State()), next, p.component, receipt);
                        DistanceObservation(config, stored, next)
    {
      if !DistanceGood(config, p) {
        DropDistance(receipt);
        return None;
      }
      var next := Measured(config, p, receipt);
      if encoders.distance.valid && p.time == encoders.distance.time {
        if next.left != encoders.distance.left || next.right != encoders.distance.right {
          DropDistance(receipt);
        }
        return None;
      }
      StoreDistance(next, p.component, receipt);
      o := PublishDistance(next, receipt);
    }

    method WheelDistancePacket(p: DistancePacket, receipt: int) returns (o: Option<Observation>)
      requires Valid()
      modifies this, status, info, ticks, ticks.wheels
      ensures Valid() && o == DistanceOutput(config, old(State()), p, receipt)
      ensures State() == P.WheelDistancePacket(config, old(State()), p, receipt)
    {
      if !connected || receipt <= 0 {
        return None;
      }
      ReceiveClock(receipt);
      var accepted := AcceptDistanceFrom(p.component, receipt);
      if !accepted {
        return None;
      }
      o := TakePacket(p, receipt);
    }
  }

  lemma BeyondCount(s: Engine, p: InfoPacket, receipt: int, rewinds: bool, i: nat)
    requires InfoWellFormed(p) && TimeValid(p.time) && i <= 4 && (i < 4 ==> p.index + i >= p.count)
    ensures StoreInfo(s, p, receipt, rewinds, i) == s
    decreases 4 - i
  {
    if i < 4 { BeyondCount(s, p, receipt, rewinds, i + 1); }
  }
}
