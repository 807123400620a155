/** Projection of fractional motor revolutions onto an unsigned 32-bit magnitude and a direction. */
module WheelTickProtocol {
  import opened Wrappers
  import M = MotorTickProtocol

  datatype Source = NoSource | WheelDistance | EscStatus | Legacy

  datatype Wheel = Wheel(valid: bool, segment: nat, sample: int, ticks: real, fraction: real, count: nat, forward: bool)

  datatype Projector = Projector(source: Source, epoch: nat, left: Wheel, right: Wheel)

  datatype Projection = Projection(leftValid: bool, rightValid: bool, leftCount: nat, rightCount: nat,
                                   leftForward: bool, rightForward: bool)

  const UINT32 := 0x1_0000_0000
  const INT32_MAX := 2147483647.0
  const COUNTS := 1000.0

  const FRESH_WHEEL := Wheel(false, 0, 0, 0.0, 0.0, 0, true)

  const START := Projector(NoSource, 0, FRESH_WHEEL, FRESH_WHEEL)

  function Abs(x: real): real { if x < 0.0 then -x else x }

  // The ticks turn against the last direction.
  predicate Flips(w: Wheel, ticks: real) {
    (ticks > w.ticks && !w.forward) || (ticks < w.ticks && w.forward)
  }

  // The fractional counts before the whole ones are taken off; a flip forgets the old fraction.
  function Carried(w: Wheel, ticks: real): real {
    (if Flips(w, ticks) then 0.0 else w.fraction) + Abs(ticks - w.ticks) * COUNTS
  }

  predicate Rebaselines(w: Wheel, t: M.WheelTicks) { t.valid && (!w.valid || w.segment != t.segment) }

  // The observation is newer and its change fits a signed 32-bit count.
  predicate Counts(w: Wheel, t: M.WheelTicks) {
    t.valid && !Rebaselines(w, t) && t.sample > w.sample && Abs(t.ticks - w.ticks) * COUNTS <= INT32_MAX
  }

  // Whole counts added by an observation.
  function Gain(w: Wheel, t: M.WheelTicks): int {
    if Counts(w, t) then Carried(w, t.ticks).Floor else 0
  }

  predicate Publishes(w: Wheel, t: M.WheelTicks) { Rebaselines(w, t) || Counts(w, t) }

  function ProjectWheel(w: Wheel, t: M.WheelTicks): Wheel
    requires w.fraction >= 0.0
  {
    if !t.valid then w.(valid := false)
    else if Rebaselines(w, t) then
      w.(valid := true, segment := t.segment, ticks := t.ticks, sample := t.sample, fraction := 0.0)
    else if t.sample <= w.sample then w
    else if !Counts(w, t) then w.(valid := false, sample := t.sample, ticks := t.ticks)
    else
      w.(sample := t.sample, ticks := t.ticks,
         forward := if t.ticks > w.ticks then true else if t.ticks < w.ticks then false else w.forward,
         fraction := Carried(w, t.ticks) - Gain(w, t) as real,
         count := (w.count + Gain(w, t)) % UINT32)
  }

  predicate Sane(w: Wheel) { 0.0 <= w.fraction < 1.0 && w.count < UINT32 }

  predicate SaneProjector(p: Projector) { Sane(p.left) && Sane(p.right) }

  function Unreferenced(w: Wheel): Wheel { w.(valid := false, fraction := 0.0) }

  predicate Ignores(source: Source, t: M.TickState) {
    (source != EscStatus && source != Legacy) || (!t.left.valid && !t.right.valid)
  }

  // The projector after noticing a new source or epoch.
  function Follow(p: Projector, source: Source, t: M.TickState): Projector {
    if p.source == source && p.epoch == t.epoch then p
    else Projector(source, t.epoch, Unreferenced(p.left), Unreferenced(p.right))
  }

  function Project(p: Projector, source: Source, t: M.TickState): Projector
    requires SaneProjector(p)
  {
    if Ignores(source, t) then p.(left := p.left.(valid := false), right := p.right.(valid := false))
    else
      var q := Follow(p, source, t);
      q.(left := ProjectWheel(q.left, t.left), right := ProjectWheel(q.right, t.right))
  }

  function Published(p: Projector, source: Source, t: M.TickState): Option<Projection>
    requires SaneProjector(p)
  {
    var q := Follow(p, source, t);
    if Ignores(source, t) || (!Publishes(q.left, t.left) && !Publishes(q.right, t.right)) then None
    else
      var n := Project(p, source, t);
      Some(Projection(n.left.valid, n.right.valid, n.left.count, n.right.count, n.left.forward, n.right.forward))
  }
}
