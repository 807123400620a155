/** Trapezoidal integration of motor speed per wheel. One tick is one motor revolution; times are
    nanoseconds; ticks, speeds and rates are exact reals. */
module MotorTickProtocol {
  datatype Wheel = Wheel(ticks: real, rpm: real, rate: real, sample: int, receipt: int, valid: bool, segment: nat)

  type WheelPair = wheels: seq<Wheel> | |wheels| == 2 witness [FRESH_WHEEL, FRESH_WHEEL]

  /** Two wheels, left and right, and the number of resets so far. */
  datatype Integrator = Integrator(epoch: nat, wheels: WheelPair)

  const FRESH_WHEEL := Wheel(0.0, 0.0, 0.0, 0, 0, false, 0)

  const START := Integrator(0, [FRESH_WHEEL, FRESH_WHEEL])

  /** What the projector is given about one wheel, and about both. */
  datatype WheelTicks = WheelTicks(ticks: real, sample: int, receipt: int, valid: bool, segment: nat)

  datatype TickState = TickState(epoch: nat, left: WheelTicks, right: WheelTicks)

  predicate Accepts(timeout: int, was: Wheel, sample: int, receipt: int)
  {
    sample > 0 && receipt > 0 && timeout > 0 && !(was.valid && (sample <= was.sample || receipt < was.receipt))
  }

  // The observation continues the stretch of the previous one.
  predicate Contiguous(timeout: int, was: Wheel, sample: int, receipt: int) {
    was.valid && sample - was.sample <= timeout && receipt - was.receipt <= timeout
  }

  // Revolutions between two contiguous observations: mean rate times measurement interval.
  function Trapezoid(was: Wheel, rpm: real, sample: int): real {
    (was.rpm / 120.0 + rpm / 120.0) * ((sample - was.sample) as real / 1000000000.0)
  }

  function Travel(timeout: int, was: Wheel, rpm: real, sample: int, receipt: int): real {
    if Accepts(timeout, was, sample, receipt) && Contiguous(timeout, was, sample, receipt)
    then Trapezoid(was, rpm, sample) else 0.0
  }

  function ObserveWheel(timeout: int, was: Wheel, rpm: real, sample: int, receipt: int): Wheel {
    if !Accepts(timeout, was, sample, receipt) then was
    else Wheel(was.ticks + Travel(timeout, was, rpm, sample, receipt), rpm, rpm / 60.0, sample, receipt, true,
               was.segment + (if Contiguous(timeout, was, sample, receipt) then 0 else 1))
  }

  function Observe(timeout: int, g: Integrator, wheel: nat, rpm: real, sample: int, receipt: int): Integrator {
    if wheel >= 2 then g
    else g.(wheels := g.wheels[wheel := ObserveWheel(timeout, g.wheels[wheel], rpm, sample, receipt)])
  }

  function Reset(g: Integrator): Integrator {
    Integrator(g.epoch + 1, [FRESH_WHEEL, FRESH_WHEEL])
  }

  function Invalidate(g: Integrator, wheel: nat): Integrator {
    if wheel >= 2 then g else g.(wheels := g.wheels[wheel := g.wheels[wheel].(valid := false)])
  }

  function Unreferenced(w: Wheel): Wheel { w.(valid := false, sample := 0, receipt := 0) }

  function ResetReferences(g: Integrator): Integrator {
    g.(wheels := [Unreferenced(g.wheels[0]), Unreferenced(g.wheels[1])])
  }

  function Seen(w: Wheel): WheelTicks { WheelTicks(w.ticks, w.sample, w.receipt, w.valid, w.segment) }

  function Ticks(g: Integrator): TickState {
    TickState(g.epoch, Seen(g.wheels[0]), Seen(g.wheels[1]))
  }
}
