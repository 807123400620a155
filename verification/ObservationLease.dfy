/** Who owns the COMMON status: components never mix, and exactly when a lease changes hands or is renewed. */
module ObservationLease {
  import opened Wrappers
  import M = MotorTickProtocol
  import opened WheelTickProtocol
  import opened ObservationProtocol
  import opened ObservationInvariant
  import opened ObservationSteps
  import opened ObservationTheorems

  predicate Allowed(c: Config, component: nat) { c.escComponent < 0 || component == c.escComponent }

  predicate Regresses(s: Engine, e: Event) {
    match e
    case EvConnection(_) => false
    case EvPoll(now) => now < s.lastReceipt
    case EvStatus(p, receipt) =>
      s.connected && receipt > 0 && TimeValid(p.time) && StatusWellFormed(p) && receipt < s.lastReceipt
    case EvInfo(p, receipt) =>
      s.connected && receipt > 0 && TimeValid(p.time) && InfoWellFormed(p) && receipt < s.lastReceipt
    case EvDistance(_, receipt) => s.connected && 0 < receipt < s.lastReceipt
    case EvLegacyRpm(_, _, receipt) => s.connected && 0 < receipt < s.lastReceipt
    case EvLegacyCounters(receipt) => s.connected && 0 < receipt < s.lastReceipt
  }

  /** A STATUS packet of another component finds the owner without a new sample for the timeout. */
  predicate TakesOver(c: Config, s: Engine, e: Event) {
    && e.EvStatus? && StatusHeard(c, s, e.status, e.receipt) && e.receipt >= s.lastReceipt
    && Allowed(c, e.status.component) && s.component != Some(e.status.component) && !Fresh(c, s.ownerStamp, e.receipt)
  }

  predicate Reacquires(c: Config, s: Engine, e: Event) {
    && e.EvStatus? && Allowed(c, e.status.component) && s.component == Some(e.status.component)
  }

  predicate Holds(s: Engine, component: Option<nat>) { s.owner && s.component == component }

  lemma StatusLease(c: Config, s: Engine, p: StatusPacket, receipt: int)
    requires Inv(c, s) && c.timeout > 0 && StatusHeard(c, s, p, receipt)
    ensures var timed, t := ReceiveClock(s, receipt), CommonStatus(c, s, p, receipt);
            if LeaseRefused(c, timed, p.component, receipt) then t == timed else Holds(t, Some(p.component))
  {
    var timed := ReceiveClock(s, receipt);
    ClockKeeps(c, s, receipt);
    if !LeaseRefused(c, timed, p.component, receipt) {
      StoredOwner(c, timed, p, receipt);
      PublishAdvances(c, StatusStored(c, timed, p, receipt), receipt);
    }
  }

  lemma InfoLease(c: Config, s: Engine, p: InfoPacket, receipt: int)
    ensures var t := CommonInfo(c, s, p, receipt);
            if Regresses(s, EvInfo(p, receipt)) then !t.owner
            else
              && t.owner == s.owner
              && (s.owner ==> t.ownerStamp == s.ownerStamp && (s.component.Some? ==> t.component == s.component))
  {
    if s.connected && receipt > 0 && TimeValid(p.time) && InfoWellFormed(p) {
      var timed := ReceiveClock(s, receipt);
      var named := Nominate(timed, p.component);
      InfoFrame(named, p, receipt);
      SelectFrame(c, InfoStored(named, p, receipt), receipt, false, 0, 0);
    }
  }

  // The fields of a lease.
  predicate SameLease(s: Engine, t: Engine) {
    t.owner == s.owner && t.component == s.component && t.ownerStamp == s.ownerStamp && t.status == s.status
  }

  lemma ReselectLease(c: Config, s: Engine, now: int)
    ensures SameLease(s, Reselect(c, s, now))
  {
    SelectFrame(c, s, now, false, 0, 0);
  }

  lemma TakenLease(c: Config, s: Engine, p: DistancePacket, receipt: int)
    ensures SameLease(s, TakenDistance(c, s, p, receipt))
  {
    ReselectLease(c, s.(distance := s.distance.(valid := false), baseline := None), receipt);
    if DistanceGood(c, p) && !Repeats(s, p) {
      var next := Measured(c, p, receipt);
      AcceptFrame(c, s, next, p.component, receipt);
      ReselectLease(c, AcceptDistance(c, s, next, p.component, receipt), receipt);
      var stored := DistanceStored(c, s, next, p.component, receipt);
      ReselectLease(c, stored.(distance := stored.distance.(valid := false), baseline := None), receipt);
    }
  }

  lemma DistanceLease(c: Config, s: Engine, p: DistancePacket, receipt: int)
    ensures var t := WheelDistancePacket(c, s, p, receipt);
            if s.connected && 0 < receipt < s.lastReceipt then !t.owner else SameLease(s, t)
  {
    var timed := ReceiveClock(s, receipt);
    var taken := TakeDistance(c, timed, p.component, receipt);
    if taken.Some? { TakenLease(c, taken.value, p, receipt); }
  }

  lemma OtherLease(c: Config, s: Engine, e: Event)
    requires !e.EvStatus? && !e.EvInfo? && !e.EvConnection?
    ensures var t := Step(c, s, e);
            if Regresses(s, e) then !t.owner else SameLease(s, t)
  {
    match e
    case EvPoll(now) => ReselectLease(c, ReceiveClock(s, now), now);
    case EvDistance(p, receipt) => DistanceLease(c, s, p, receipt);
    case EvLegacyRpm(finite, motion, receipt) =>
      ReselectLease(c, HearLegacy(c, ReceiveClock(s, receipt), finite, motion), receipt);
    case EvLegacyCounters(receipt) =>
  }

  /** A lease is lost exactly by a new connection, a clock that runs backwards, or a takeover; and only a STATUS
      packet acquires one. */
  lemma LeaseChangesHands(c: Config, before: seq<Event>, e: Event)
    requires c.timeout > 0
    ensures var s := Run(c, Start(), before);
            var t := Step(c, s, e);
            && (s.owner ==> (!Holds(t, s.component) <==>
                               || e.EvConnection? || TakesOver(c, s, e) || (Regresses(s, e) && !Reacquires(c, s, e))))
            && (TakesOver(c, s, e) ==> Holds(t, Some(e.status.component)))
            && (t.owner && !s.owner ==> e.EvStatus? && t.component == Some(e.status.component))
  {
    RunKeeps(c, before);
    StepLease(c, Run(c, Start(), before), e);
  }

  lemma StepLease(c: Config, s: Engine, e: Event)
    requires Inv(c, s) && c.timeout > 0
    ensures var t := Step(c, s, e);
            && (s.owner ==> (!Holds(t, s.component) <==>
                               || e.EvConnection? || TakesOver(c, s, e) || (Regresses(s, e) && !Reacquires(c, s, e))))
            && (TakesOver(c, s, e) ==> Holds(t, Some(e.status.component)))
            && (t.owner && !s.owner ==> e.EvStatus? && t.component == Some(e.status.component))
  {
    if e.EvConnection? {
    } else if e.EvStatus? {
      if StatusHeard(c, s, e.status, e.receipt) { StatusLease(c, s, e.status, e.receipt); }
    } else if e.EvInfo? {
      InfoLease(c, s, e.info, e.receipt);
    } else {
      OtherLease(c, s, e);
    }
  }

  /** In every reachable state all seen status and metadata slots were filled by one component, the one recorded. */
  lemma ComponentsNeverMix(c: Config, events: seq<Event>)
    requires c.timeout > 0
    ensures var s := Run(c, Start(), events);
            && (forall i, j | 0 <= i < SLOTS && 0 <= j < SLOTS && s.status[i].seen && s.status[j].seen ::
                  s.status[i].origin == s.status[j].origin)
            && (forall i, j | 0 <= i < SLOTS && 0 <= j < SLOTS && s.status[i].seen && s.info[j].seen ::
                  s.status[i].origin == s.info[j].origin)
            && (s.owner ==> forall i | 0 <= i < SLOTS && s.info[i].seen :: Some(s.info[i].origin) == s.component)
  {
    RunKeeps(c, events);
  }

  /** Some slot of the packet takes a sample that is not the one it holds. */
  predicate NewSample(s: Engine, p: StatusPacket, i: nat)
    requires StatusWellFormed(p)
  {
    exists slot | p.index + i <= slot < p.index + 4 ::
      InCount(s, slot) && !(s.status[slot].seen && s.status[slot].time == p.time)
  }

  lemma {:induction false} StoreRenews(c: Config, s: Engine, p: StatusPacket, receipt: int, i: nat)
    requires StatusWellFormed(p) && TimeValid(p.time) && i <= 4
    ensures var t := Store(c, s, p, receipt, i);
            t.ownerStamp == if NewSample(s, p, i) then receipt else s.ownerStamp
    decreases 4 - i
  {
    if i < 4 {
      var t := StoreSlot(c, s, p, receipt, i);
      assert forall slot | p.index + i + 1 <= slot < p.index + 4 :: t.status[slot] == s.status[slot];
      assert NewSample(s, p, i + 1) == NewSample(t, p, i + 1);
      StoreRenews(c, t, p, receipt, i + 1);
    }
  }

  /** The owner's packet brings something new: a sample that is not a repetition, or an older one that starts a new
      epoch, or the first after a clock that ran backwards. */
  predicate Renews(s: Engine, p: StatusPacket, receipt: int)
    requires StatusWellFormed(p)
  {
    NewSample(s, p, 0) || Rewinds(s, p) || receipt < s.lastReceipt
  }

  /** While the owner keeps the lease it is renewed by exactly one thing: a STATUS packet of the owner that brings
      something new. */
  lemma OnlyNewSamplesRenew(c: Config, before: seq<Event>, e: Event)
    requires c.timeout > 0
    requires var s := Run(c, Start(), before); s.owner && Holds(Step(c, s, e), s.component)
    ensures var s := Run(c, Start(), before);
            Step(c, s, e).ownerStamp ==
            if && e.EvStatus? && StatusHeard(c, s, e.status, e.receipt)
               && Some(e.status.component) == s.component && Allowed(c, e.status.component)
               && Renews(s, e.status, e.receipt)
            then e.receipt else s.ownerStamp
  {
    var s := Run(c, Start(), before);
    RunKeeps(c, before);
    StepLease(c, s, e);
    if e.EvStatus? {
      if StatusHeard(c, s, e.status, e.receipt) { OwnerRenews(c, s, e.status, e.receipt); }
    } else if e.EvInfo? {
      InfoLease(c, s, e.info, e.receipt);
    } else if !e.EvConnection? {
      OtherLease(c, s, e);
    }
  }

  // An engine without samples takes any first one.
  lemma EmptyTakesNew(s: Engine, p: StatusPacket)
    requires StatusWellFormed(p) && s.count == None && forall slot | 0 <= slot < SLOTS :: !s.status[slot].seen
    ensures NewSample(s, p, 0) && !Rewinds(s, p)
  {
    assert InCount(s, p.index) && !s.status[p.index].seen;
  }

  lemma CurrentRenews(c: Config, s: Engine, p: StatusPacket, receipt: int)
    requires Inv(c, s) && StatusWellFormed(p) && s.owner && s.component == Some(p.component)
    ensures var current := Current(ReceiveClock(s, receipt), p);
            NewSample(current, p, 0) == Renews(s, p, receipt)
            && (!Renews(s, p, receipt) ==> current.ownerStamp == s.ownerStamp)
  {
    var timed := ReceiveClock(s, receipt);
    var leased, current := TakeLease(timed, p.component), Current(timed, p);
    if receipt < s.lastReceipt {
      ResetAllKeeps(c, s);
      EmptyTakesNew(leased, p);
    } else {
      assert leased.status == s.status && leased.count == s.count;
      assert Rewinds(leased, p) == Rewinds(s, p) && NewSample(leased, p, 0) == NewSample(s, p, 0);
      if Rewinds(s, p) { EmptyTakesNew(current, p); }
    }
  }

  lemma OwnerRenews(c: Config, s: Engine, p: StatusPacket, receipt: int)
    requires Inv(c, s) && c.timeout > 0 && StatusHeard(c, s, p, receipt) && s.owner
    requires Holds(CommonStatus(c, s, p, receipt), s.component)
    ensures CommonStatus(c, s, p, receipt).ownerStamp ==
            if Some(p.component) == s.component && Allowed(c, p.component) && Renews(s, p, receipt) then receipt
            else s.ownerStamp
  {
    var timed := ReceiveClock(s, receipt);
    ClockKeeps(c, s, receipt);
    StatusLease(c, s, p, receipt);
    if LeaseRefused(c, timed, p.component, receipt) {
      if receipt < s.lastReceipt { ResetAllKeeps(c, s); }
    } else {
      StoredOwner(c, timed, p, receipt);
      PublishAdvances(c, StatusStored(c, timed, p, receipt), receipt);
      CurrentRenews(c, s, p, receipt);
      StoreRenews(c, Current(timed, p), p, receipt, 0);
    }
  }
}
