/** One integrator feeding one projector, under any interleaving of observations, invalidations, resets and
    projections. */
module TravelPipeline {
  import opened Wrappers
  import M = MotorTickProtocol
  import opened WheelTickProtocol
  import opened WheelTravel

  datatype Pipeline = Pipeline(motor: M.Integrator, wheels: Projector)

  /** A projection may see a wheel masked as invalid: a stale receipt, a conflicting sample, a missing slot. */
  datatype Event =
    | EvObserve(wheel: nat, rpm: real, sample: int, receipt: int)
    | EvInvalidate(wheel: nat)
    | EvReset
    | EvResetReferences
    | EvProject(source: Source, left: bool, right: bool)

  const START := Pipeline(M.START, WheelTickProtocol.START)

  predicate Valid(s: Pipeline) { SaneProjector(s.wheels) && s.wheels.epoch <= s.motor.epoch }

  function Masked(t: M.TickState, left: bool, right: bool): M.TickState {
    t.(left := t.left.(valid := t.left.valid && left), right := t.right.(valid := t.right.valid && right))
  }

  function Step(timeout: int, s: Pipeline, e: Event): Pipeline
    requires Valid(s)
  {
    match e
    case EvObserve(wheel, rpm, sample, receipt) =>
      s.(motor := M.Observe(timeout, s.motor, wheel, rpm, sample, receipt))
    case EvInvalidate(wheel) => s.(motor := M.Invalidate(s.motor, wheel))
    case EvReset => s.(motor := M.Reset(s.motor))
    case EvResetReferences => s.(motor := M.ResetReferences(s.motor))
    case EvProject(source, left, right) =>
      s.(wheels := Project(s.wheels, source, Masked(M.Ticks(s.motor), left, right)))
  }

  lemma StepValid(timeout: int, s: Pipeline, e: Event)
    requires Valid(s)
    ensures Valid(Step(timeout, s, e))
  {
    if e.EvProject? { ProjectSane(s.wheels, e.source, Masked(M.Ticks(s.motor), e.left, e.right)); }
  }

  function Run(timeout: int, s: Pipeline, events: seq<Event>): (n: Pipeline)
    requires Valid(s)
    ensures Valid(n)
    decreases |events|
  {
    if events == [] then s
    else StepValid(timeout, s, events[0]); Run(timeout, Step(timeout, s, events[0]), events[1..])
  }

  // The revolutions an event integrates for a wheel, with their sign.
  function Moved(timeout: int, s: Pipeline, e: Event, wheel: nat): real
    requires Valid(s) && wheel < 2
  {
    if e.EvObserve? && e.wheel == wheel then M.Travel(timeout, s.motor.wheels[wheel], e.rpm, e.sample, e.receipt)
    else 0.0
  }

  function Side(p: Projector, wheel: nat): Wheel { if wheel == 0 then p.left else p.right }

  // The counts an event adds to a wheel.
  function Counted(s: Pipeline, e: Event, wheel: nat): int
    requires Valid(s) && wheel < 2
  {
    if !e.EvProject? then 0
    else
      var t := Masked(M.Ticks(s.motor), e.left, e.right);
      if Ignores(e.source, t) then 0
      else Gain(Side(Follow(s.wheels, e.source, t), wheel), if wheel == 0 then t.left else t.right)
  }

  function TotalVariation(timeout: int, s: Pipeline, events: seq<Event>, wheel: nat): real
    requires Valid(s) && wheel < 2
    decreases |events|
  {
    if events == [] then 0.0
    else
      StepValid(timeout, s, events[0]);
      Abs(Moved(timeout, s, events[0], wheel))
      + TotalVariation(timeout, Step(timeout, s, events[0]), events[1..], wheel)
  }

  function TotalMoved(timeout: int, s: Pipeline, events: seq<Event>, wheel: nat): real
    requires Valid(s) && wheel < 2
    decreases |events|
  {
    if events == [] then 0.0
    else
      StepValid(timeout, s, events[0]);
      Moved(timeout, s, events[0], wheel) + TotalMoved(timeout, Step(timeout, s, events[0]), events[1..], wheel)
  }

  function TotalCounted(timeout: int, s: Pipeline, events: seq<Event>, wheel: nat): int
    requires Valid(s) && wheel < 2
    decreases |events|
  {
    if events == [] then 0
    else
      StepValid(timeout, s, events[0]);
      Counted(s, events[0], wheel) + TotalCounted(timeout, Step(timeout, s, events[0]), events[1..], wheel)
  }

  /** Counts not yet published but already integrated: what the projector may still add. */
  function Credit(s: Pipeline, wheel: nat): real
    requires Valid(s) && wheel < 2
  {
    var w := Side(s.wheels, wheel);
    if w.valid && s.wheels.epoch == s.motor.epoch
    then COUNTS * Abs(s.motor.wheels[wheel].ticks - w.ticks) + w.fraction else 0.0
  }

  lemma ProjectSpendsCredit(s: Pipeline, e: Event, wheel: nat)
    requires Valid(s) && wheel < 2 && e.EvProject? && Valid(Step(0, s, e))
    ensures Counted(s, e, wheel) as real + Credit(Step(0, s, e), wheel) <= Credit(s, wheel)
  {
    var t := Masked(M.Ticks(s.motor), e.left, e.right);
    if !Ignores(e.source, t) {
      var w := Side(Follow(s.wheels, e.source, t), wheel);
      var seen := if wheel == 0 then t.left else t.right;
      ProjectWheelSane(w, seen);
      assert seen.ticks == s.motor.wheels[wheel].ticks;
      assert Side(Step(0, s, e).wheels, wheel) == ProjectWheel(w, seen);
    }
  }

  lemma CreditStep(timeout: int, s: Pipeline, e: Event, wheel: nat)
    requires Valid(s) && wheel < 2 && Valid(Step(timeout, s, e))
    ensures Counted(s, e, wheel) as real + Credit(Step(timeout, s, e), wheel)
            <= COUNTS * Abs(Moved(timeout, s, e, wheel)) + Credit(s, wheel)
  {
    if e.EvProject? {
      ProjectSpendsCredit(s, e, wheel);
    }
  }

  lemma {:induction false} CreditRun(timeout: int, s: Pipeline, events: seq<Event>, wheel: nat)
    requires Valid(s) && wheel < 2
    ensures TotalCounted(timeout, s, events, wheel) as real + Credit(Run(timeout, s, events), wheel)
            <= COUNTS * TotalVariation(timeout, s, events, wheel) + Credit(s, wheel)
    decreases |events|
  {
    if events != [] {
      StepValid(timeout, s, events[0]);
      CreditStep(timeout, s, events[0], wheel);
      CreditRun(timeout, Step(timeout, s, events[0]), events[1..], wheel);
    }
  }

  /** Travel is never invented: over any run of one integrator and one projector, the counts added for a wheel
      are at most a thousand per revolution of the total variation that its contiguous observations
      integrated, whatever resets, invalidations, gaps, sources and masks lie in between. */
  lemma TravelIsNeverInvented(timeout: int, events: seq<Event>, wheel: nat)
    requires wheel < 2
    ensures TotalCounted(timeout, START, events, wheel) as real
            <= COUNTS * TotalVariation(timeout, START, events, wheel)
  {
    CreditRun(timeout, START, events, wheel);
    var w := Side(Run(timeout, START, events).wheels, wheel);
    assert Credit(Run(timeout, START, events), wheel) >= 0.0;
  }

  // Lexicographic order of (epoch, segment).
  predicate NoEarlier(s: Pipeline, n: Pipeline, wheel: nat)
    requires Valid(s) && Valid(n) && wheel < 2
  {
    s.motor.epoch < n.motor.epoch
    || (s.motor.epoch == n.motor.epoch && s.motor.wheels[wheel].segment <= n.motor.wheels[wheel].segment)
  }

  predicate SameStretch(s: Pipeline, n: Pipeline, wheel: nat)
    requires Valid(s) && Valid(n) && wheel < 2
  {
    s.motor.epoch == n.motor.epoch && s.motor.wheels[wheel].segment == n.motor.wheels[wheel].segment
  }

  // Every accepted observation of the wheel continues the stretch of the one before.
  predicate Unbroken(timeout: int, s: Pipeline, events: seq<Event>, wheel: nat)
    requires Valid(s) && wheel < 2
    decreases |events|
  {
    events == [] ||
    (var e := events[0];
     var w := s.motor.wheels[wheel];
     StepValid(timeout, s, e);
     && !e.EvReset?
     && (e.EvObserve? && e.wheel == wheel && M.Accepts(timeout, w, e.sample, e.receipt) ==>
           M.Contiguous(timeout, w, e.sample, e.receipt))
     && Unbroken(timeout, Step(timeout, s, e), events[1..], wheel))
  }

  lemma {:induction false} StretchesAdvance(timeout: int, s: Pipeline, events: seq<Event>, wheel: nat)
    requires Valid(s) && wheel < 2
    ensures NoEarlier(s, Run(timeout, s, events), wheel)
    decreases |events|
  {
    if events != [] {
      StepValid(timeout, s, events[0]);
      StretchesAdvance(timeout, Step(timeout, s, events[0]), events[1..], wheel);
    }
  }

  /** The pair (epoch, segment) names one contiguous stretch: two moments of a run carry the same pair exactly
      when no reset and no gap lies between them, and then the ticks differ by the integral of the
      observations in between. */
  lemma {:induction false} SegmentNamesOneStretch(timeout: int, s: Pipeline, events: seq<Event>, wheel: nat)
    requires Valid(s) && wheel < 2
    ensures SameStretch(s, Run(timeout, s, events), wheel) <==> Unbroken(timeout, s, events, wheel)
    ensures SameStretch(s, Run(timeout, s, events), wheel) ==>
              Run(timeout, s, events).motor.wheels[wheel].ticks
              == s.motor.wheels[wheel].ticks + TotalMoved(timeout, s, events, wheel)
    decreases |events|
  {
    if events != [] {
      var n := Step(timeout, s, events[0]);
      StepValid(timeout, s, events[0]);
      StretchesAdvance(timeout, n, events[1..], wheel);
      SegmentNamesOneStretch(timeout, n, events[1..], wheel);
    }
  }
}
