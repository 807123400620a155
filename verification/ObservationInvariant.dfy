/** What holds of the observation engine at the exit of every call, in every reachable state. */
module ObservationInvariant {
  import opened Wrappers
  import M = MotorTickProtocol
  import opened WheelTickProtocol
  import opened ObservationProtocol

  /** Every slot that was ever filled came from the one component recorded now. */
  ghost predicate Unmixed(s: Engine) {
    && (forall slot | 0 <= slot < SLOTS && s.status[slot].seen :: s.component == Some(s.status[slot].origin))
    && (forall slot | 0 <= slot < SLOTS && s.info[slot].seen :: s.component == Some(s.info[slot].origin))
    && (s.owner ==> s.component.Some?)
  }

  ghost predicate Timed(s: Engine) {
    forall slot | 0 <= slot < SLOTS ::
      var was := s.status[slot];
      if was.seen then was.time > 0 && 0 < was.stamp <= s.lastReceipt else was.time == 0 && was.stamp == 0 && !was.valid
  }

  /** The integrator's wheel describes the very sample its slot holds. */
  predicate Follows(slot: Slot, wheel: M.Wheel) {
    && (slot.seen ==> && wheel.sample == slot.time * 1000 && wheel.receipt == slot.stamp
                      && wheel.rate == slot.reading.rpm as real / 60.0 && (slot.valid ==> wheel.valid))
    && (!slot.seen ==> !wheel.valid)
  }

  predicate Tracked(c: Config, s: Engine) {
    CommonMapping(c) ==>
      Follows(s.status[c.leftSlot], s.ticks.wheels[0]) && Follows(s.status[c.rightSlot], s.ticks.wheels[1])
  }

  /** No floor lies above the sample stored behind it. */
  predicate Floored(c: Config, s: Engine) {
    CommonMapping(c) ==>
      s.publishedLeft <= s.status[c.leftSlot].time && s.publishedRight <= s.status[c.rightSlot].time
  }

  function Max(a: int, b: int): int { if a < b then b else a }

  predicate Pairing(c: Config, s: Engine) {
    s.active == EscStatus ==>
      && s.connected && Uses(c, OnlyEsc) && WheelConfigured(c) && CommonMapping(c)
      && s.coreSample <= Max(s.publishedLeft, s.publishedRight) * 1000
      && s.coreReceipt <= Max(s.status[c.leftSlot].stamp, s.status[c.rightSlot].stamp)
  }

  /** While the distance source is active its baseline is the last accepted packet. */
  predicate Spanning(c: Config, s: Engine) {
    && (s.distance.valid ==> s.distanceOwner.Some? && s.distance.time > 0 && 0 < s.distance.receipt <= s.lastReceipt)
    && (s.active != WheelDistance ==> s.baseline.None?)
    && (s.active == WheelDistance ==>
          && s.connected && Uses(c, OnlyDistance) && WheelConfigured(c)
          && s.distance.valid && s.baseline == Some(s.distance)
          && s.coreSample <= s.distance.time * 1000 && s.coreReceipt <= s.lastReceipt)
  }

  ghost predicate Inv(c: Config, s: Engine) {
    Unmixed(s) && Timed(s) && Tracked(c, s) && Floored(c, s) && Pairing(c, s) && Spanning(c, s)
  }

  // All but the distance source and the floors: what the stages of one call keep.
  ghost predicate Slots(c: Config, s: Engine) { Unmixed(s) && Timed(s) && Tracked(c, s) }

  lemma ResetCommonKeeps(c: Config, s: Engine)
    requires Inv(c, s)
    ensures var t := ResetCommon(s);
            Inv(c, t) && t.ticks.epoch == s.ticks.epoch + 1 && forall slot | 0 <= slot < SLOTS :: !t.status[slot].seen
  {
  }

  lemma ResetDistanceKeeps(c: Config, s: Engine)
    requires Inv(c, s)
    ensures Inv(c, ResetDistance(s))
  {
  }

  lemma ResetAllKeeps(c: Config, s: Engine)
    requires Inv(c, s)
    ensures Inv(c, ResetAll(s)) && ResetAll(s).active == NoSource && ResetAll(s).ticks.epoch == s.ticks.epoch + 1
    ensures var t := ResetAll(s);
            && !t.owner && t.ownerStamp == 0 && !t.distance.valid && t.component == None
            && (forall slot | 0 <= slot < SLOTS :: !t.status[slot].seen)
            && (forall slot | 0 <= slot < SLOTS :: !t.info[slot].seen)
  {
    ResetCommonKeeps(c, s);
    ResetDistanceKeeps(c, ResetCommon(s));
  }

  lemma ClockKeeps(c: Config, s: Engine, receipt: int)
    requires Inv(c, s)
    ensures Inv(c, ReceiveClock(s, receipt)) && ReceiveClock(s, receipt).lastReceipt == receipt
  {
    if receipt < s.lastReceipt { ResetAllKeeps(c, s); }
  }

  lemma FenceFrame(c: Config, s: Engine, next: Source, update: bool, previousLeft: nat, previousRight: nat)
    ensures var t := Fence(c, s, next, update, previousLeft, previousRight);
            t == Floors(s, t.publishedLeft, t.publishedRight)
  {
  }

  // What a selection leaves alone.
  lemma SelectFrame(c: Config, s: Engine, now: int, update: bool, previousLeft: nat, previousRight: nat)
    ensures var t := Select(c, s, now, update, previousLeft, previousRight);
            t == s.(coreSample := t.coreSample, coreReceipt := t.coreReceipt, publishedLeft := t.publishedLeft,
                    publishedRight := t.publishedRight, baseline := t.baseline, active := Choice(c, s, now))
    ensures var t := Select(c, s, now, update, previousLeft, previousRight);
            if t.active == s.active then t == s else t.coreSample == 0 && t.coreReceipt == 0
  {
    FenceFrame(c, ResetCore(s), Choice(c, s, now), update, previousLeft, previousRight);
  }

  predicate Below(c: Config, s: Engine, left: nat, right: nat) {
    CommonMapping(c) ==> left <= s.status[c.leftSlot].time && right <= s.status[c.rightSlot].time
  }

  lemma SelectFloors(c: Config, s: Engine, now: int, update: bool, previousLeft: nat, previousRight: nat)
    requires Floored(c, s) && (update && !s.baselineNeeded ==> Below(c, s, previousLeft, previousRight))
    ensures var t := Select(c, s, now, update, previousLeft, previousRight);
            && (Floored(c, t) || (update && t.baselineNeeded && t.coreSample == 0
                                  && t.active == EscStatus && CommonAvailable(c, t, now)))
            && (Below(c, s, previousLeft, previousRight) ==> Floored(c, t))
  {
    SelectFrame(c, s, now, update, previousLeft, previousRight);
  }

  // A choice of source establishes what being active needs.
  lemma SelectKeeps(c: Config, s: Engine, now: int, update: bool, previousLeft: nat, previousRight: nat)
    requires Slots(c, s) && Pairing(c, s)
    ensures var t := Select(c, s, now, update, previousLeft, previousRight);
            Slots(c, t) && Pairing(c, t)
  {
    SelectFrame(c, s, now, update, previousLeft, previousRight);
    var t := Select(c, s, now, update, previousLeft, previousRight);
    assert Timed(t) && Unmixed(t);
  }

  // A selection leaves a dropped distance, and makes an accepted one the baseline.
  lemma SelectSpans(c: Config, s: Engine, now: int, update: bool, previousLeft: nat, previousRight: nat)
    requires (s.distance.valid ==>
                s.distanceOwner.Some? && s.distance.time > 0 && 0 < s.distance.receipt <= s.lastReceipt)
    requires (s.active != WheelDistance ==> s.baseline.None?)
             && (s.active == WheelDistance && s.distance.valid ==> Spanning(c, s))
    ensures Spanning(c, Select(c, s, now, update, previousLeft, previousRight))
  {
    SelectFrame(c, s, now, update, previousLeft, previousRight);
  }

  lemma ReselectKeeps(c: Config, s: Engine, now: int)
    requires Inv(c, s)
    ensures Inv(c, Reselect(c, s, now))
  {
    SelectFloors(c, s, now, false, 0, 0);
    SelectKeeps(c, s, now, false, 0, 0);
    SelectSpans(c, s, now, false, 0, 0);
  }
}
