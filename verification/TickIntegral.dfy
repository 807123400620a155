/** What the ticks of a wheel are: the integral of its speed. */
module TickIntegral {
  import opened Wrappers
  import M = MotorTickProtocol
  import opened WheelTickProtocol
  import opened WheelTravel
  import opened TravelPipeline

  /** Seconds between two sample times in nanoseconds. */
  function Seconds(from: int, to: int): real { (to - from) as real / 1000000000.0 }

  /** The observation is accepted: positive times, and later than a valid predecessor. */
  predicate Accepted(timeout: int, was: M.Wheel, sample: int, receipt: int) {
    timeout > 0 && sample > 0 && receipt > 0 && (was.valid ==> sample > was.sample && receipt >= was.receipt)
  }

  /** It continues the stretch: the predecessor is valid, and neither clock has advanced beyond the timeout. */
  predicate Continues(timeout: int, was: M.Wheel, sample: int, receipt: int) {
    was.valid && sample - was.sample <= timeout && receipt - was.receipt <= timeout
  }

  /** An accepted observation that continues a stretch adds the mean of the two speeds, in revolutions per second, times
      the seconds in between, which lies between the two speeds times that interval; one that does not continues
      nothing and begins a new segment; one that is not accepted changes nothing. */
  lemma ObservationIntegrates(timeout: int, g: M.Integrator, wheel: nat, rpm: real, sample: int, receipt: int)
    requires wheel < 2
    ensures var was, n := g.wheels[wheel], M.Observe(timeout, g, wheel, rpm, sample, receipt);
            var now := n.wheels[wheel];
            && n.epoch == g.epoch && n.wheels[1 - wheel] == g.wheels[1 - wheel]
            && (!Accepted(timeout, was, sample, receipt) ==> now == was)
            && (Accepted(timeout, was, sample, receipt) ==>
                  && now.valid && now.sample == sample && now.receipt == receipt
                  && now.rpm == rpm && now.rate * 60.0 == rpm
                  && (if Continues(timeout, was, sample, receipt)
                      then now.segment == was.segment
                           && Integrates(was.rpm, rpm, was.sample, sample, now.ticks - was.ticks)
                      else now.segment == was.segment + 1 && now.ticks == was.ticks))
  {
    var was := g.wheels[wheel];
    if Accepted(timeout, was, sample, receipt) && Continues(timeout, was, sample, receipt) {
      MeanIntegrates(was.rpm, rpm, was.sample, sample);
    }
  }

  /** Revolutions turned from one speed in rpm to another. */
  predicate Integrates(from: real, to: real, start: int, end: int, turned: real) {
    && turned == (from / 60.0 + to / 60.0) / 2.0 * Seconds(start, end)
    && (if from <= to then from / 60.0 * Seconds(start, end) <= turned <= to / 60.0 * Seconds(start, end)
        else to / 60.0 * Seconds(start, end) <= turned <= from / 60.0 * Seconds(start, end))
  }

  lemma Scale(a: real, b: real, t: real)
    requires a <= b && t >= 0.0
    ensures a * t <= b * t
  {
  }

  lemma MeanIntegrates(from: real, to: real, start: int, end: int)
    requires start <= end
    ensures Integrates(from, to, start, end, (from / 120.0 + to / 120.0) * ((end - start) as real / 1000000000.0))
  {
    var t := Seconds(start, end);
    var mean := (from / 60.0 + to / 60.0) / 2.0;
    assert mean == from / 120.0 + to / 120.0;
    if from <= to {
      Scale(from / 60.0, mean, t);
      Scale(mean, to / 60.0, t);
    } else {
      Scale(to / 60.0, mean, t);
      Scale(mean, from / 60.0, t);
    }
  }

  function Motor(s: Pipeline, wheel: nat): M.Wheel
    requires wheel < 2
  {
    s.motor.wheels[wheel]
  }

  // A wheel that has lost its validity regains it only in a new segment or epoch.
  lemma {:induction false} ValidityNeedsNewSegment(timeout: int, s: Pipeline, events: seq<Event>, wheel: nat)
    requires Valid(s) && wheel < 2 && !Motor(s, wheel).valid && Motor(Run(timeout, s, events), wheel).valid
    ensures !SameStretch(s, Run(timeout, s, events), wheel)
    decreases |events|
  {
    if events != [] {
      StepValid(timeout, s, events[0]);
      var n := Step(timeout, s, events[0]);
      StretchesAdvance(timeout, n, events[1..], wheel);
      if !Motor(n, wheel).valid { ValidityNeedsNewSegment(timeout, n, events[1..], wheel); }
    }
  }

  /** All speeds observed for a wheel lie between two bounds in rpm. */
  ghost predicate SpeedsWithin(events: seq<Event>, wheel: nat, low: real, high: real) {
    forall i | 0 <= i < |events| && events[i].EvObserve? && events[i].wheel == wheel :: low <= events[i].rpm <= high
  }

  /** Turned from one sample to another at between `low` and `high` rpm. */
  predicate TurnedWithin(from: M.Wheel, to: M.Wheel, low: real, high: real) {
    var t := Seconds(from.sample, to.sample);
    low / 60.0 * t <= to.ticks - from.ticks <= high / 60.0 * t
  }

  lemma StepTurnsWithin(timeout: int, s: Pipeline, e: Event, wheel: nat, low: real, high: real)
    requires Valid(s) && wheel < 2 && Motor(s, wheel).valid && low <= Motor(s, wheel).rpm <= high
    requires e.EvObserve? && e.wheel == wheel ==> low <= e.rpm <= high
    requires Motor(Step(timeout, s, e), wheel).valid && SameMotor(s, Step(timeout, s, e), wheel)
    ensures var from, to := Motor(s, wheel), Motor(Step(timeout, s, e), wheel);
            low <= to.rpm <= high && TurnedWithin(from, to, low, high)
  {
    var from, to := Motor(s, wheel), Motor(Step(timeout, s, e), wheel);
    if e.EvObserve? && e.wheel == wheel {
      ObservationIntegrates(timeout, s.motor, wheel, e.rpm, e.sample, e.receipt);
      if to != from {
        var t := Seconds(from.sample, to.sample);
        Scale(low / 60.0, from.rpm / 60.0, t);
        Scale(low / 60.0, to.rpm / 60.0, t);
        Scale(from.rpm / 60.0, high / 60.0, t);
        Scale(to.rpm / 60.0, high / 60.0, t);
      } else {
        assert Seconds(from.sample, to.sample) == 0.0;
      }
    } else {
      assert to == from && Seconds(from.sample, to.sample) == 0.0;
    }
  }

  predicate SameMotor(s: Pipeline, n: Pipeline, wheel: nat)
    requires wheel < 2
  {
    s.motor.epoch == n.motor.epoch && Motor(s, wheel).segment == Motor(n, wheel).segment
  }

  lemma TurnedOn(a: M.Wheel, b: M.Wheel, c: M.Wheel, low: real, high: real)
    requires TurnedWithin(a, b, low, high) && TurnedWithin(b, c, low, high)
    ensures TurnedWithin(a, c, low, high)
  {
    var t, u := Seconds(a.sample, b.sample), Seconds(b.sample, c.sample);
    assert Seconds(a.sample, c.sample) == t + u;
    assert low / 60.0 * (t + u) == low / 60.0 * t + low / 60.0 * u;
    assert high / 60.0 * (t + u) == high / 60.0 * t + high / 60.0 * u;
  }

  lemma {:induction false} StretchTurnsWithin(timeout: int, s: Pipeline, events: seq<Event>, wheel: nat, low: real,
                                              high: real)
    requires Valid(s) && wheel < 2 && Motor(s, wheel).valid && low <= Motor(s, wheel).rpm <= high
    requires SpeedsWithin(events, wheel, low, high)
    requires var n := Run(timeout, s, events); Motor(n, wheel).valid && SameStretch(s, n, wheel)
    ensures TurnedWithin(Motor(s, wheel), Motor(Run(timeout, s, events), wheel), low, high)
    decreases |events|
  {
    if events == [] {
      assert Seconds(Motor(s, wheel).sample, Motor(s, wheel).sample) == 0.0;
    } else {
      var e, rest := events[0], events[1..];
      StepValid(timeout, s, e);
      var n := Step(timeout, s, e);
      StretchesAdvance(timeout, s, [e], wheel);
      assert Run(timeout, s, [e]) == n;
      StretchesAdvance(timeout, n, rest, wheel);
      assert SameMotor(s, n, wheel);
      if !Motor(n, wheel).valid { ValidityNeedsNewSegment(timeout, n, rest, wheel); }
      StepTurnsWithin(timeout, s, e, wheel, low, high);
      StretchTurnsWithin(timeout, n, rest, wheel, low, high);
      TurnedOn(Motor(s, wheel), Motor(n, wheel), Motor(Run(timeout, s, events), wheel), low, high);
    }
  }

  lemma PerMinute(rpm: real, seconds: real)
    ensures rpm / 60.0 * seconds == rpm * (seconds / 60.0)
  {
  }

  /** Turned between two valid moments at between `low` and `high` revolutions per minute. */
  predicate TurnedPerMinute(from: M.Wheel, to: M.Wheel, low: real, high: real) {
    var minutes := Seconds(from.sample, to.sample) / 60.0;
    && low * minutes <= to.ticks - from.ticks <= high * minutes
    && (low == high ==> to.ticks - from.ticks == low * minutes)
  }

  lemma PerMinuteBounds(from: M.Wheel, to: M.Wheel, low: real, high: real)
    requires TurnedWithin(from, to, low, high)
    ensures TurnedPerMinute(from, to, low, high)
  {
    PerMinute(low, Seconds(from.sample, to.sample));
    PerMinute(high, Seconds(from.sample, to.sample));
  }

  /** The ticks are the integral of the speed: between two valid moments of one stretch in any run, with every speed in
      between of that wheel from `low` to `high` rpm, the wheel turns between `low` and `high` revolutions per minute of
      the time between the two samples; at constant speed, exactly so. The travel that the projector may count is just
      this. */
  lemma TicksIntegrateSpeed(timeout: int, s: Pipeline, events: seq<Event>, wheel: nat, low: real, high: real)
    requires Valid(s) && wheel < 2 && Motor(s, wheel).valid && low <= Motor(s, wheel).rpm <= high
    requires SpeedsWithin(events, wheel, low, high)
    requires var n := Run(timeout, s, events); Motor(n, wheel).valid && SameStretch(s, n, wheel)
    ensures var from, to := Motor(s, wheel), Motor(Run(timeout, s, events), wheel);
            && TurnedPerMinute(from, to, low, high)
            && TotalMoved(timeout, s, events, wheel) == to.ticks - from.ticks
  {
    StretchTurnsWithin(timeout, s, events, wheel, low, high);
    SegmentNamesOneStretch(timeout, s, events, wheel);
    PerMinuteBounds(Motor(s, wheel), Motor(Run(timeout, s, events), wheel), low, high);
  }
}
