/** What the observation engine stores, selects and publishes, in terms of the fields of packets and slots. */
module ObservationFields {
  import opened Wrappers
  import M = MotorTickProtocol
  import opened WheelTickProtocol
  import opened ObservationProtocol
  import opened ObservationInvariant
  import opened ObservationSteps
  import opened ObservationTheorems

  /** A time stamp in nanoseconds that is set, not in the future and no older than the timeout. */
  predicate Recent(c: Config, stamp: int, now: int) { 0 < stamp <= now <= stamp + c.timeout }

  /** A slot that counts now: filled, not contradicted, recent, and within the announced number of slots if there is one. */
  predicate Usable(c: Config, s: Engine, slot: int, now: int) {
    && 0 <= slot < 64 && s.status[slot].seen && s.status[slot].valid && Recent(c, s.status[slot].stamp, now)
    && (s.count.Some? ==> slot < s.count.value)
  }

  /** Both wheels are mapped to usable slots of their own, whose samples are at most `maxSkew` seconds apart. */
  predicate Paired(c: Config, s: Engine, now: int) {
    && Usable(c, s, c.leftSlot, now) && Usable(c, s, c.rightSlot, now) && c.leftSlot != c.rightSlot
    && (s.status[c.leftSlot].time - s.status[c.rightSlot].time) as real <= c.maxSkew * 1000000.0
    && (s.status[c.rightSlot].time - s.status[c.leftSlot].time) as real <= c.maxSkew * 1000000.0
  }

  lemma AvailableIsPaired(c: Config, s: Engine, now: int)
    ensures CommonAvailable(c, s, now) <==> Paired(c, s, now)
  {
  }

  /** A STATUS packet publishes exactly if it is admissible, the lease is granted, and after it was stored COMMON is the
      source, the wheels are paired, each by a sample newer than the last published one, no epoch baseline is due and
      the geometry is known. */
  lemma PublishesPaired(c: Config, before: seq<Event>, p: StatusPacket, receipt: int)
    requires c.timeout > 0
    ensures var s, e := Run(c, Start(), before), EvStatus(p, receipt);
            Output(c, s, e).Some? <==>
              && s.connected && receipt > 0 && 0 < p.time <= 9223372036854775
              && p.index <= 60 && p.index % 4 == 0 && |p.readings| == 4
              && (c.escComponent < 0 || p.component == c.escComponent)
              && (var timed := ReceiveClock(s, receipt);
                  && !(timed.component.Some? && timed.component.value != p.component && timed.owner
                       && Recent(c, timed.ownerStamp, receipt))
                  && (var t := StatusStored(c, timed, p, receipt);
                      && t.active == EscStatus && Paired(c, t, receipt) && !t.baselineNeeded
                      && t.publishedLeft < t.status[c.leftSlot].time && t.publishedRight < t.status[c.rightSlot].time
                      && c.ticksPerMeter > 0.0))
  {
    var s, e := Run(c, Start(), before), EvStatus(p, receipt);
    if StatusHeard(c, s, p, receipt) {
      DuePairIsPublished(c, before, e);
      AvailableIsPaired(c, StatusStored(c, ReceiveClock(s, receipt), p, receipt), receipt);
    }
  }

  /** What is published is paired at that moment. */
  lemma PublishedIsPaired(c: Config, before: seq<Event>, e: Event)
    requires c.timeout > 0 && PublishesPair(c, Run(c, Start(), before), e)
    ensures Paired(c, Step(c, Run(c, Start(), before), e), e.receipt)
  {
    PublicationDescribesThePair(c, before, e);
    AvailableIsPaired(c, Step(c, Run(c, Start(), before), e), e.receipt);
  }

  /** The configuration can measure wheels from some source at all. */
  predicate Measures(c: Config) {
    c.trackWidth > 0.0 &&
    (|| ((c.mode == Auto || c.mode == OnlyDistance)
         && 0 <= c.leftWheel < 16 && 0 <= c.rightWheel < 16 && c.leftWheel != c.rightWheel)
     || ((c.mode == Auto || c.mode == OnlyEsc) && c.ticksPerMeter > 0.0
         && 0 <= c.leftSlot < 64 && 0 <= c.rightSlot < 64 && c.leftSlot != c.rightSlot)
     || ((c.mode == Auto || c.mode == OnlyLegacy) && c.legacyEnabled && c.ticksPerMeter > 0.0 && c.timeout > 0
         && 0 <= c.leftSlot < 12 && 0 <= c.rightSlot < 12 && c.leftSlot != c.rightSlot))
  }

  /** The source that is due: wheel distance before the ESC pair before the legacy source, each only if its mode allows it
      and its data are recent, and none without a link or a measuring configuration. */
  predicate Due(c: Config, s: Engine, now: int, source: Source) {
    var distance := (c.mode == Auto || c.mode == OnlyDistance) && s.distance.valid && Recent(c, s.distance.receipt, now);
    var esc := (c.mode == Auto || c.mode == OnlyEsc) && Paired(c, s, now);
    var legacy := (c.mode == Auto || c.mode == OnlyLegacy) && c.legacyEnabled
                  && s.legacyReceipt.Some? && Recent(c, s.legacyReceipt.value, now);
    if !s.connected || !Measures(c) then source == NoSource
    else if distance then source == WheelDistance
    else if esc then source == EscStatus
    else if legacy then source == Legacy
    else source == NoSource
  }

  lemma ChoiceIsDue(c: Config, s: Engine, now: int)
    ensures Due(c, s, now, Choice(c, s, now))
  {
    AvailableIsPaired(c, s, now);
  }

  /** After a poll the active source is the one that is due; a change of source forgets the last observation, and entering
      wheel distance takes the last packet as its baseline. */
  lemma PollSelectsDue(c: Config, s: Engine, now: int)
    requires now >= s.lastReceipt
    ensures var t := Step(c, s, EvPoll(now));
            && Due(c, s, now, t.active) && t.lastReceipt == now
            && t.status == s.status && t.distance == s.distance && t.ticks == s.ticks && t.legacyReceipt == s.legacyReceipt
            && (t.active == s.active ==> t == s.(lastReceipt := now))
            && (t.active != s.active ==>
                  && t.coreSample == 0 && t.coreReceipt == 0
                  && t.baseline == (if t.active == WheelDistance then Some(s.distance) else None))
  {
    var timed := s.(lastReceipt := now);
    ChoiceIsDue(c, timed, now);
    assert Due(c, timed, now, Choice(c, timed, now)) ==> Due(c, s, now, Choice(c, timed, now));
    SelectFrame(c, timed, now, false, 0, 0);
  }

  // What storing from the i-th entry of a packet makes of a slot.
  predicate Stored(s: Engine, t: Engine, p: StatusPacket, receipt: int, i: nat, slot: nat)
    requires StatusWellFormed(p) && slot < 64 && p.time > 0
  {
    var was, now := s.status[slot], t.status[slot];
    if slot < p.index + i || slot >= p.index + 4 || (s.count.Some? && slot >= s.count.value) then now == was
    else
      var reading := p.readings[slot - p.index];
      if was.seen && was.time == p.time then now == was.(valid := was.valid && was.reading == reading)
      else now == Slot(true, p.time, receipt, true, reading, p.component)
  }

  lemma {:induction false} StoreFills(c: Config, s: Engine, p: StatusPacket, receipt: int, i: nat, slot: nat)
    requires StatusWellFormed(p) && TimeValid(p.time) && i <= 4 && slot < 64
    ensures Stored(s, Store(c, s, p, receipt, i), p, receipt, i, slot)
    decreases 4 - i
  {
    if i < 4 {
      var one := StoreSlot(c, s, p, receipt, i);
      StoreSlotFrame(c, s, p, receipt, i);
      StoreFills(c, one, p, receipt, i + 1, slot);
    }
  }

  /** A STATUS packet of the owner, in time and not older than what is stored, fills exactly its own slots within the
      announced number: each with its own entry, time and receipt, except that a repetition changes nothing and a
      contradicted repetition becomes invalid. */
  lemma StatusFillsSlots(c: Config, s: Engine, p: StatusPacket, receipt: int, slot: nat)
    requires slot < 64 && StatusHeard(c, s, p, receipt) && receipt >= s.lastReceipt
    requires (c.escComponent < 0 || p.component == c.escComponent) && s.component == Some(p.component)
    requires forall i | p.index <= i < p.index + 4 && s.status[i].seen :: p.time >= s.status[i].time
    ensures Stored(s, CommonStatus(c, s, p, receipt), p, receipt, 0, slot)
  {
    var timed := s.(lastReceipt := receipt);
    var leased := TakeLease(timed, p.component);
    assert ReceiveClock(s, receipt) == timed && !LeaseRefused(c, timed, p.component, receipt);
    assert leased == timed.(owner := true) && !Rewinds(leased, p);
    StoreFills(c, leased, p, receipt, 0, slot);
    var stored := Store(c, leased, p, receipt, 0);
    var left, right := TimeOf(leased, c.leftSlot), TimeOf(leased, c.rightSlot);
    SelectFrame(c, stored, receipt, true, left, right);
    PublishAdvances(c, Select(c, stored, receipt, true, left, right), receipt);
  }

  /** A metadata packet that is not older than what is stored announces the number of slots: those beyond it lose their
      status, all others keep it; an older one changes no status. */
  lemma MetadataAnnounces(s: Engine, p: InfoPacket, receipt: int, slot: nat)
    requires slot < 64 && InfoWellFormed(p) && TimeValid(p.time)
    ensures var t := InfoStored(s, p, receipt);
            var older := exists i | p.index <= i < p.index + 4 && i < p.count :: s.info[i].seen && p.time < s.info[i].time;
            && t.count == (if older then s.count else Some(p.count))
            && t.status[slot] == (if !older && slot >= p.count then s.status[slot].(valid := false) else s.status[slot])
  {
    StoreInfoFrame(s, p, receipt, true, 0);
    StoreInfoFrame(Truncate(s, p.count), p, receipt, false, 0);
  }

  /** A legacy observation is the mean and the difference of the two speeds of its motion, published only while legacy is
      the source that is due. */
  lemma LegacyPublishes(c: Config, s: Engine, motion: Motion, receipt: int)
    requires s.connected && receipt > 0 && receipt >= s.lastReceipt && c.legacyEnabled
    ensures var o := LegacyOutput(c, s, true, Some(motion), receipt);
            o.Some? ==>
              && Due(c, s.(legacyReceipt := Some(motion.receipt)), receipt, Legacy)
              && o.value.linear == (motion.left + motion.right) / 2.0 && c.trackWidth > 0.0
              && o.value.angular == (motion.right - motion.left) / c.trackWidth
              && o.value.sample == motion.sample && o.value.receipt == motion.receipt
  {
    var heard := HearLegacy(c, s.(lastReceipt := receipt), true, Some(motion));
    ChoiceIsDue(c, heard, receipt);
    SelectFrame(c, heard, receipt, false, 0, 0);
    assert Due(c, heard, receipt, Legacy) ==> Due(c, s.(legacyReceipt := Some(motion.receipt)), receipt, Legacy);
  }

  /** A wheel-distance packet with the lease and in time: a malformed one, and one that repeats a time with other distances,
      end the validity of the distance, its baseline and its being the source; a mere repetition changes nothing; any
      other becomes the distance of its component, wheel by wheel, or is found too fast and ends it. */
  lemma DistanceIsTaken(c: Config, s: Engine, p: DistancePacket, receipt: int)
    requires c.timeout > 0 && s.lastReceipt == receipt > 0
    ensures var t := TakenDistance(c, s, p, receipt);
            var formed := && 0 < p.time <= 9223372036854775 && 2 <= p.count <= 16 && p.finite && |p.distances| == 16
                          && 0 <= c.leftWheel < p.count && 0 <= c.rightWheel < p.count && c.leftWheel != c.rightWheel;
            if !formed then Ended(t)
            else
              var left, right := p.distances[c.leftWheel], p.distances[c.rightWheel];
              if s.distance.valid && p.time == s.distance.time then
                if left == s.distance.left && right == s.distance.right then t == s else Ended(t)
              else
                && t.distanceOwner == Some(p.component)
                && t.distance.left == left && t.distance.right == right && t.distance.time == p.time
                && t.distance.receipt == receipt && (t.distance.valid || Ended(t))
  {
    DropEnds(c, s, receipt);
    if DistanceGood(c, p) && !Repeats(s, p) {
      var next := Measured(c, p, receipt);
      AcceptFrame(c, s, next, p.component, receipt);
      SelectFrame(c, AcceptDistance(c, s, next, p.component, receipt), receipt, false, 0, 0);
      DropEnds(c, DistanceStored(c, s, next, p.component, receipt), receipt);
    }
  }

  /** The distance is no longer valid, and not the source. */
  predicate Ended(s: Engine) { !s.distance.valid && s.active != WheelDistance && s.baseline == None }

  lemma DropEnds(c: Config, s: Engine, receipt: int)
    ensures var t := DropDistance(c, s, receipt);
            && Ended(t) && t.distanceOwner == s.distanceOwner && t.distance == s.distance.(valid := false)
  {
    SelectFrame(c, s.(distance := s.distance.(valid := false), baseline := None), receipt, false, 0, 0);
  }
}
