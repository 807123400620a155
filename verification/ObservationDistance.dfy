/** What wheel distance publishes: velocities over consecutive packets of one component that add up to the
    distance travelled. */
module ObservationDistance {
  import opened Wrappers
  import opened WheelTickProtocol
  import opened ObservationProtocol
  import opened ObservationInvariant
  import opened ObservationSteps
  import opened ObservationTheorems
  import opened ObservationFencing

  /** Seconds between two measurements with times in microseconds. */
  function Seconds(from: Distance, to: Distance): real { (to.time - from.time) as real / 1000000.0 }

  predicate PublishesDistance(c: Config, s: Engine, e: Event) { e.EvDistance? && Output(c, s, e).Some? }

  /** The next packet of the active component, in time and at a plausible speed. */
  predicate NextPacket(c: Config, s: Engine, p: DistancePacket, receipt: int) {
    && s.connected && receipt > 0 && receipt >= s.lastReceipt && s.active == WheelDistance
    && (c.distanceComponent < 0 || p.component == c.distanceComponent) && s.distanceOwner == Some(p.component)
    && DistanceGood(c, p) && Fresh(c, s.distance.receipt, receipt)
    && s.distance.time < p.time && p.time - s.distance.time <= c.timeout / 1000
    && Plausible(c, Velocity(s.distance, Measured(c, p, receipt)))
  }

  // Without a reset the packet is stored behind the old baseline; with one there is nothing to measure against.
  lemma StoredBaseline(c: Config, s: Engine, next: Distance, component: nat, receipt: int)
    requires Spanning(c, s) && c.timeout > 0 && next.valid && next.receipt == receipt > 0
    requires s.lastReceipt == receipt && !(s.distance.valid && next.time == s.distance.time)
    ensures var t := DistanceStored(c, s, next, component, receipt);
            if s.active == WheelDistance && next.time > s.distance.time && Fresh(c, s.distance.receipt, receipt)
            then t.active == WheelDistance && t.baseline == s.baseline
                 && t.coreSample == s.coreSample && t.coreReceipt == s.coreReceipt
            else t.baseline == None || t.baseline == Some(next)
  {
    AcceptFrame(c, s, next, component, receipt);
    SelectFrame(c, AcceptDistance(c, s, next, component, receipt), receipt, false, 0, 0);
    if s.active == WheelDistance { StoredStays(c, s, next, component, receipt); }
  }

  lemma TakenPublishes(c: Config, s: Engine, p: DistancePacket, receipt: int)
    requires Inv(c, s) && c.timeout > 0 && DistanceGood(c, p) && !Repeats(s, p) && s.lastReceipt == receipt > 0
    requires s.active == WheelDistance ==> s.connected
    ensures var next := Measured(c, p, receipt);
            DistanceObservation(c, DistanceStored(c, s, next, p.component, receipt), next).Some? <==>
            && s.active == WheelDistance && Fresh(c, s.distance.receipt, receipt) && s.distance.time < p.time
            && p.time - s.distance.time <= c.timeout / 1000 && Plausible(c, Velocity(s.distance, next))
  {
    StoredBaseline(c, s, Measured(c, p, receipt), p.component, receipt);
  }

  /** A wheel-distance observation is published for exactly the next packet of the active component. */
  lemma DistancePublishesExactly(c: Config, before: seq<Event>, p: DistancePacket, receipt: int)
    requires c.timeout > 0
    ensures var s := Run(c, Start(), before);
            PublishesDistance(c, s, EvDistance(p, receipt)) <==> NextPacket(c, s, p, receipt)
  {
    RunKeeps(c, before);
    StepPublishes(c, Run(c, Start(), before), p, receipt);
  }

  lemma StepPublishes(c: Config, s: Engine, p: DistancePacket, receipt: int)
    requires Inv(c, s) && c.timeout > 0
    ensures DistanceOutput(c, s, p, receipt).Some? <==> NextPacket(c, s, p, receipt)
  {
    if s.connected && receipt > 0 {
      var timed := ReceiveClock(s, receipt);
      ClockKeeps(c, s, receipt);
      var taken := TakeDistance(c, timed, p.component, receipt);
      if taken.Some? && DistanceGood(c, p) && !Repeats(taken.value, p) {
        ResetDistanceKeeps(c, timed);
        TakenPublishes(c, taken.value, p, receipt);
      }
    }
  }

  /** What is published: the two packets' mean and differential velocity. */
  lemma StepSpans(c: Config, s: Engine, p: DistancePacket, receipt: int)
    requires Inv(c, s) && c.timeout > 0 && NextPacket(c, s, p, receipt)
    ensures var t, next := WheelDistancePacket(c, s, p, receipt), Measured(c, p, receipt);
            && t.distance == next && t.baseline == Some(next) && t.active == WheelDistance
            && DistanceOutput(c, s, p, receipt) == Receive(c, s.(lastReceipt := receipt), Velocity(s.distance, next))
  {
    StepPublishes(c, s, p, receipt);
    var timed, next := ReceiveClock(s, receipt), Measured(c, p, receipt);
    ClockKeeps(c, s, receipt);
    StoredBaseline(c, timed, next, p.component, receipt);
    AcceptFrame(c, timed, next, p.component, receipt);
    SelectFrame(c, AcceptDistance(c, timed, next, p.component, receipt), receipt, false, 0, 0);
  }

  lemma Undo(x: real, d: real)
    requires d > 0.0
    ensures x / d * d == x
  {
  }

  predicate Quiet(s: Engine, t: Engine) { t.distance == s.distance && t.baseline == s.baseline }

  /** Every event publishes a distance observation or leaves the distance alone. */
  predicate Unbroken(c: Config, s: Engine, events: seq<Event>)
    decreases |events|
  {
    events == [] ||
    (var earlier, e := events[..|events| - 1], events[|events| - 1];
     && Unbroken(c, s, earlier)
     && (PublishesDistance(c, Run(c, s, earlier), e) || Quiet(Run(c, s, earlier), Run(c, s, events))))
  }

  // The published speeds times the interval they span.
  function Ahead(o: Observation, from: Distance, to: Distance): real { o.linear * Seconds(from, to) }

  function Turn(o: Observation, from: Distance, to: Distance): real { o.angular * Seconds(from, to) }

  function StepForward(c: Config, s: Engine, e: Event): real {
    if PublishesDistance(c, s, e) then Ahead(Output(c, s, e).value, s.distance, Step(c, s, e).distance) else 0.0
  }

  function StepTurned(c: Config, s: Engine, e: Event): real {
    if PublishesDistance(c, s, e) then Turn(Output(c, s, e).value, s.distance, Step(c, s, e).distance) else 0.0
  }

  function Forward(c: Config, s: Engine, events: seq<Event>): real
    decreases |events|
  {
    if events == [] then 0.0
    else var earlier := events[..|events| - 1];
         Forward(c, s, earlier) + StepForward(c, Run(c, s, earlier), events[|events| - 1])
  }

  function Turned(c: Config, s: Engine, events: seq<Event>): real
    decreases |events|
  {
    if events == [] then 0.0
    else var earlier := events[..|events| - 1];
         Turned(c, s, earlier) + StepTurned(c, Run(c, s, earlier), events[|events| - 1])
  }

  lemma Distribute(a: real, b: real, k: real)
    ensures (a + b) * k == a * k + b * k
  {
  }

  lemma Regroup(a: real, b: real, k: real)
    ensures a * b * k == a * k * b
  {
  }

  // The algebra of one interval: velocities l and r over it, displacements dl and dr.
  lemma Covers(l: real, r: real, dl: real, dr: real, linear: real, angular: real, track: real, dt: real)
    requires l * dt == dl && r * dt == dr && linear == (l + r) / 2.0 && angular * track == r - l
    ensures Displaces(linear, angular, track, dt, dl, dr)
    ensures linear - angular * track / 2.0 == l && linear + angular * track / 2.0 == r
  {
    Distribute(l / 2.0, r / 2.0, dt);
    Distribute(r, -l, dt);
    Regroup(angular, dt, track);
  }

  /** Each published observation spans two packets of one component, in order, no longer apart than the timeout, at
      no more than the speed limit; and its velocities times that interval are the wheels' displacements. */
  lemma ObservationSpans(c: Config, before: seq<Event>, e: Event)
    requires c.timeout > 0 && PublishesDistance(c, Run(c, Start(), before), e)
    ensures SpansStep(c, Run(c, Start(), before), e)
  {
    RunKeeps(c, before);
    StepCovers(c, Run(c, Start(), before), e);
  }

  /** A measurement is what a packet says of the two configured wheels. */
  predicate Carries(c: Config, p: DistancePacket, receipt: int, d: Distance) {
    && |p.distances| == 16 && 0 <= c.leftWheel < p.count <= 16 && 0 <= c.rightWheel < p.count
    && d.left == p.distances[c.leftWheel] && d.right == p.distances[c.rightWheel]
    && d.time == p.time && d.receipt == receipt && d.valid
  }

  predicate SpansStep(c: Config, s: Engine, e: Event)
    requires PublishesDistance(c, s, e)
  {
    var t, o := Step(c, s, e), Output(c, s, e).value;
    && s.active == t.active == WheelDistance && s.distance.valid && s.distanceOwner == Some(e.distance.component)
    && Carries(c, e.distance, e.receipt, t.distance)
    && SpansMotion(c, s.distance, t.distance, o)
  }

  lemma ReceiveTurns(c: Config, s: Engine, m: Motion)
    requires Receive(c, s, m).Some?
    ensures var o := Receive(c, s, m).value;
            c.trackWidth > 0.0 && o.linear == (m.left + m.right) / 2.0 && o.angular * c.trackWidth == m.right - m.left
  {
    Undo(m.right - m.left, c.trackWidth);
  }

  lemma StepCovers(c: Config, s: Engine, e: Event)
    requires Inv(c, s) && c.timeout > 0 && PublishesDistance(c, s, e)
    ensures SpansStep(c, s, e)
  {
    StepPublishes(c, s, e.distance, e.receipt);
    NextSpans(c, s, e.distance, e.receipt);
    StepSpans(c, s, e.distance, e.receipt);
  }

  lemma NextSpans(c: Config, s: Engine, p: DistancePacket, receipt: int)
    requires Inv(c, s) && c.timeout > 0 && NextPacket(c, s, p, receipt)
    ensures DistanceOutput(c, s, p, receipt).Some?
    ensures SpansMotion(c, s.distance, Measured(c, p, receipt), DistanceOutput(c, s, p, receipt).value)
  {
    StepPublishes(c, s, p, receipt);
    StepSpans(c, s, p, receipt);
    VelocitySpans(c, s.(lastReceipt := receipt), Measured(c, p, receipt));
  }

  lemma VelocitySpans(c: Config, s: Engine, next: Distance)
    requires c.timeout > 0 && s.distance.time < next.time && next.time - s.distance.time <= c.timeout / 1000
    requires var m := Velocity(s.distance, next); Plausible(c, m) && Receive(c, s, m).Some?
    ensures SpansMotion(c, s.distance, next, Receive(c, s, Velocity(s.distance, next)).value)
  {
    var m := Velocity(s.distance, next);
    VelocityCovers(s.distance, next);
    ReceiveTurns(c, s, m);
    MotionSpans(c, s.distance, next, m, Receive(c, s, m).value);
  }

  predicate SpansMotion(c: Config, from: Distance, to: Distance, o: Observation) {
    && 0.0 < Seconds(from, to) && Seconds(from, to) * 1000000000.0 <= c.timeout as real && c.trackWidth > 0.0
    && Abs(o.linear - o.angular * c.trackWidth / 2.0) <= c.maxSpeed
    && Abs(o.linear + o.angular * c.trackWidth / 2.0) <= c.maxSpeed
    && Displaces(o.linear, o.angular, c.trackWidth, Seconds(from, to), to.left - from.left, to.right - from.right)
  }

  // A speed and a turn rate over a time, and the displacements of the wheels.
  predicate Displaces(linear: real, angular: real, track: real, dt: real, left: real, right: real) {
    linear * dt == (left + right) / 2.0 && angular * dt * track == right - left
  }

  lemma VelocityCovers(from: Distance, to: Distance)
    requires from.time < to.time
    ensures var m, dt := Velocity(from, to), Seconds(from, to);
            dt > 0.0 && m.left * dt == to.left - from.left && m.right * dt == to.right - from.right
  {
    var dt := Seconds(from, to);
    Undo(to.left - from.left, dt);
    Undo(to.right - from.right, dt);
  }

  lemma MotionSpans(c: Config, from: Distance, to: Distance, m: Motion, o: Observation)
    requires c.trackWidth > 0.0 && c.timeout > 0
    requires from.time < to.time && to.time - from.time <= c.timeout / 1000 && Plausible(c, m)
    requires m.left * Seconds(from, to) == to.left - from.left && m.right * Seconds(from, to) == to.right - from.right
    requires o.linear == (m.left + m.right) / 2.0 && o.angular * c.trackWidth == m.right - m.left
    ensures SpansMotion(c, from, to, o)
  {
    TimeoutBounds(c, from, to);
    Covers(m.left, m.right, to.left - from.left, to.right - from.right, o.linear, o.angular, c.trackWidth,
           Seconds(from, to));
  }

  lemma TimeoutBounds(c: Config, from: Distance, to: Distance)
    requires c.timeout > 0 && to.time - from.time <= c.timeout / 1000
    ensures Seconds(from, to) * 1000000000.0 <= c.timeout as real
  {
    assert 1000 * (to.time - from.time) <= c.timeout;
  }

  /** A speed-time sum and a turn-time sum account for the displacement of both wheels. */
  predicate Accounts(c: Config, from: Distance, to: Distance, forward: real, turned: real) {
    && to.left - from.left == forward - turned * c.trackWidth / 2.0
    && to.right - from.right == forward + turned * c.trackWidth / 2.0
  }

  lemma MotionAccounts(c: Config, from: Distance, to: Distance, o: Observation)
    requires SpansMotion(c, from, to, o)
    ensures Accounts(c, from, to, Ahead(o, from, to), Turn(o, from, to))
  {
  }

  lemma StepConserves(c: Config, s: Engine, e: Event)
    requires Inv(c, s) && c.timeout > 0
    requires PublishesDistance(c, s, e) || Quiet(s, Step(c, s, e))
    ensures Accounts(c, s.distance, Step(c, s, e).distance, StepForward(c, s, e), StepTurned(c, s, e))
  {
    if PublishesDistance(c, s, e) {
      StepCovers(c, s, e);
      MotionAccounts(c, s.distance, Step(c, s, e).distance, Output(c, s, e).value);
    }
  }

  lemma Joined(c: Config, from: Distance, middle: Distance, to: Distance, f: real, g: real, t: real, u: real)
    requires Accounts(c, from, middle, f, t) && Accounts(c, middle, to, g, u)
    ensures Accounts(c, from, to, f + g, t + u)
  {
    Distribute(t, u, c.trackWidth);
  }

  lemma Extends(c: Config, from: Distance, s: Engine, e: Event, forward: real, turned: real)
    requires Inv(c, s) && c.timeout > 0 && Accounts(c, from, s.distance, forward, turned)
    requires PublishesDistance(c, s, e) || Quiet(s, Step(c, s, e))
    ensures Accounts(c, from, Step(c, s, e).distance, forward + StepForward(c, s, e), turned + StepTurned(c, s, e))
  {
    StepConserves(c, s, e);
    Joined(c, from, s.distance, Step(c, s, e).distance, forward, StepForward(c, s, e), turned, StepTurned(c, s, e));
  }

  /** Conservation: over any unbroken stretch of a run, the published speeds times their intervals add up to the
      distance between its ends, for each wheel. */
  lemma {:induction false} DistanceConserved(c: Config, s: Engine, events: seq<Event>)
    requires Inv(c, s) && c.timeout > 0 && Unbroken(c, s, events)
    ensures Accounts(c, s.distance, Run(c, s, events).distance, Forward(c, s, events), Turned(c, s, events))
    decreases |events|
  {
    if events != [] {
      var earlier, e := events[..|events| - 1], events[|events| - 1];
      DistanceConserved(c, s, earlier);
      RunAdvances(c, s, earlier);
      var middle := Run(c, s, earlier);
      assert Run(c, s, events) == Step(c, middle, e);
      assert PublishesDistance(c, middle, e) || Quiet(middle, Step(c, middle, e));
      Extends(c, s.distance, middle, e, Forward(c, s, earlier), Turned(c, s, earlier));
      assert Forward(c, s, events) == Forward(c, s, earlier) + StepForward(c, middle, e);
      assert Turned(c, s, events) == Turned(c, s, earlier) + StepTurned(c, middle, e);
    }
  }

  /** The packet continues the active distance: of its component, allowed, well formed for the two configured wheels,
      recent, later by no more than the timeout, and with no wheel having moved faster than the limit. */
  predicate Continues(c: Config, s: Engine, p: DistancePacket, receipt: int) {
    && s.connected && receipt > 0 && receipt >= s.lastReceipt && s.active == WheelDistance
    && (c.distanceComponent < 0 || p.component == c.distanceComponent) && s.distanceOwner == Some(p.component)
    && 0 < p.time <= 9223372036854775 && 2 <= p.count <= 16 && p.finite && |p.distances| == 16
    && 0 <= c.leftWheel < p.count && 0 <= c.rightWheel < p.count && c.leftWheel != c.rightWheel
    && 0 < s.distance.receipt <= receipt <= s.distance.receipt + c.timeout
    && 0 < p.time - s.distance.time <= c.timeout / 1000
    && WithinSpeed(c, s.distance, Distance(p.distances[c.leftWheel], p.distances[c.rightWheel], p.time, receipt, true))
  }

  lemma SpeedIsDisplacement(x: real, dt: real, limit: real)
    requires dt > 0.0
    ensures Abs(x / dt) <= limit <==> -(limit * dt) <= x <= limit * dt
  {
    var v := x / dt;
    Undo(x, dt);
    if v <= limit { Ordered(v, limit, dt); }
    if v > limit { Strictly(limit, v, dt); }
    if -limit <= v { Ordered(-limit, v, dt); }
    if -limit > v { Strictly(v, -limit, dt); }
    assert (-limit) * dt == -(limit * dt);
  }

  lemma Ordered(a: real, b: real, k: real)
    requires a <= b && k > 0.0
    ensures a * k <= b * k
  {
  }

  lemma Strictly(a: real, b: real, k: real)
    requires a < b && k > 0.0
    ensures a * k < b * k
  {
  }

  lemma NextContinues(c: Config, s: Engine, p: DistancePacket, receipt: int)
    ensures NextPacket(c, s, p, receipt) <==> Continues(c, s, p, receipt)
  {
    if DistanceGood(c, p) && s.distance.time < p.time { PlausibleIsDisplacement(c, s.distance, Measured(c, p, receipt)); }
  }

  // No wheel has moved faster than the limit.
  predicate WithinSpeed(c: Config, from: Distance, to: Distance) {
    var limit := c.maxSpeed * Seconds(from, to);
    -limit <= to.left - from.left <= limit && -limit <= to.right - from.right <= limit
  }

  lemma PlausibleIsDisplacement(c: Config, from: Distance, to: Distance)
    requires from.time < to.time
    ensures Plausible(c, Velocity(from, to)) <==> WithinSpeed(c, from, to)
  {
    SpeedIsDisplacement(to.left - from.left, Seconds(from, to), c.maxSpeed);
    SpeedIsDisplacement(to.right - from.right, Seconds(from, to), c.maxSpeed);
  }

  /** A wheel-distance observation is published if and only if the packet continues the active distance. */
  lemma PublishesContinuing(c: Config, before: seq<Event>, p: DistancePacket, receipt: int)
    requires c.timeout > 0
    ensures PublishesDistance(c, Run(c, Start(), before), EvDistance(p, receipt))
            <==> Continues(c, Run(c, Start(), before), p, receipt)
  {
    DistancePublishesExactly(c, before, p, receipt);
    NextContinues(c, Run(c, Start(), before), p, receipt);
  }

  /** The sums account for the difference of the distances that two packets report, wheel by wheel. */
  predicate PacketsAccount(c: Config, p: DistancePacket, q: DistancePacket, forward: real, turned: real) {
    && |p.distances| == |q.distances| == 16 && 0 <= c.leftWheel < 16 && 0 <= c.rightWheel < 16
    && q.distances[c.leftWheel] - p.distances[c.leftWheel] == forward - turned * c.trackWidth / 2.0
    && q.distances[c.rightWheel] - p.distances[c.rightWheel] == forward + turned * c.trackWidth / 2.0
  }

  lemma CarriedAccount(c: Config, p: DistancePacket, q: DistancePacket, a: Distance, b: Distance, pr: int, qr: int,
                       forward: real, turned: real)
    requires Carries(c, p, pr, a) && Carries(c, q, qr, b) && Accounts(c, a, b, forward, turned)
    ensures PacketsAccount(c, p, q, forward, turned)
  {
  }

  lemma PublishedCarries(c: Config, s: Engine, e: Event)
    requires Inv(c, s) && c.timeout > 0 && PublishesDistance(c, s, e)
    ensures Inv(c, Step(c, s, e)) && Carries(c, e.distance, e.receipt, Step(c, s, e).distance)
  {
    StepKeeps(c, s, e);
    StepCovers(c, s, e);
  }

  lemma RunSnoc(c: Config, s: Engine, events: seq<Event>, e: Event)
    ensures Run(c, s, events + [e]) == Step(c, Run(c, s, events), e)
  {
    assert (events + [e])[..|events + [e]| - 1] == events;
  }

  /** From packet to packet: over an unbroken stretch in any run, from one publishing packet to another, the published
      speeds times the seconds they span add up to the difference of the distances the two packets report for the left
      wheel and for the right wheel. */
  lemma PacketsConserve(c: Config, before: seq<Event>, first: Event, between: seq<Event>, last: Event)
    requires c.timeout > 0 && PublishesDistance(c, Run(c, Start(), before), first)
    requires Unbroken(c, Step(c, Run(c, Start(), before), first), between + [last])
    requires PublishesDistance(c, Run(c, Step(c, Run(c, Start(), before), first), between), last)
    ensures var s := Step(c, Run(c, Start(), before), first);
            PacketsAccount(c, first.distance, last.distance, Forward(c, s, between + [last]), Turned(c, s, between + [last]))
  {
    RunKeeps(c, before);
    PublishedCarries(c, Run(c, Start(), before), first);
    StretchAccounts(c, Step(c, Run(c, Start(), before), first), first, between, last);
  }

  lemma StretchAccounts(c: Config, s: Engine, first: Event, between: seq<Event>, last: Event)
    requires Inv(c, s) && c.timeout > 0 && Unbroken(c, s, between + [last])
    requires first.EvDistance? && Carries(c, first.distance, first.receipt, s.distance)
    requires PublishesDistance(c, Run(c, s, between), last)
    ensures PacketsAccount(c, first.distance, last.distance, Forward(c, s, between + [last]), Turned(c, s, between + [last]))
  {
    RunAdvances(c, s, between);
    PublishedCarries(c, Run(c, s, between), last);
    RunSnoc(c, s, between, last);
    DistanceConserved(c, s, between + [last]);
    CarriedAccount(c, first.distance, last.distance, s.distance, Run(c, s, between + [last]).distance,
                   first.receipt, last.receipt, Forward(c, s, between + [last]), Turned(c, s, between + [last]));
  }
}
