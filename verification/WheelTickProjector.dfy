/** The projector object and its two wheels, updated in place. */
module WheelTickProjection {
  import opened Wrappers
  import M = MotorTickProtocol
  import opened WheelTickProtocol
  import opened WheelTravel

  class ProjectedWheel {
    var valid: bool
    var segment: nat
    var sample: int
    var ticks: real
    var fraction: real
    var count: nat
    var forward: bool

    ghost function State(): Wheel
      reads this
    {
      Wheel(valid, segment, sample, ticks, fraction, count, forward)
    }

    constructor ()
      ensures State() == FRESH_WHEEL
    {
      valid, segment, sample, ticks, fraction, count, forward := false, 0, 0, 0.0, 0.0, 0, true;
    }

    method Project(t: M.WheelTicks) returns (published: bool)
      requires Sane(State())
      modifies this
      ensures State() == ProjectWheel(old(State()), t) && Sane(State())
      ensures published == Publishes(old(State()), t)
    {
      ProjectWheelSane(State(), t);
      if !t.valid {
        valid := false;
        return false;
      }
      if !valid || segment != t.segment {
        valid := true;
        segment := t.segment;
        ticks := t.ticks;
        sample := t.sample;
        fraction := 0.0;
        return true;
      }
      if t.sample <= sample {
        return false;
      }
      sample := t.sample;
      var delta := t.ticks - ticks;
      ticks := t.ticks;
      if Abs(delta) * COUNTS > INT32_MAX {
        valid := false;
        return false;
      }
      if (delta > 0.0 && !forward) || (delta < 0.0 && forward) {
        fraction := 0.0;
      }
      if delta > 0.0 {
        forward := true;
      } else if delta < 0.0 {
        forward := false;
      }
      fraction := fraction + Abs(delta) * COUNTS;
      var whole := fraction.Floor;
      assert whole == Gain(old(State()), t);
      count := (count + whole) % UINT32;
      fraction := fraction - whole as real;
      return true;
    }
  }

  class WheelTickProjector {
    var source: Source
    var epoch: nat
    const left: ProjectedWheel
    const right: ProjectedWheel

    ghost function State(): Projector
      reads this, left, right
    {
      Projector(source, epoch, left.State(), right.State())
    }

    ghost predicate Valid()
      reads this, left, right
    {
      left != right && SaneProjector(State())
    }

    constructor ()
      ensures Valid() && fresh(left) && fresh(right) && State() == START
    {
      source, epoch := NoSource, 0;
      left := new ProjectedWheel();
      right := new ProjectedWheel();
    }

    method ResetReferences()
      requires Valid()
      modifies left, right
      ensures Valid()
      ensures State() == old(State()).(left := Unreferenced(old(left.State())),
                                       right := Unreferenced(old(right.State())))
    {
      left.valid := false;
      right.valid := false;
      left.fraction := 0.0;
      right.fraction := 0.0;
    }

    // A new source or epoch loses the references.
    method Notice(source: Source, t: M.TickState)
      requires Valid()
      modifies this, left, right
      ensures Valid() && State() == Follow(old(State()), source, t)
    {
      if this.source != source || epoch != t.epoch {
        this.source := source;
        epoch := t.epoch;
        ResetReferences();
      }
    }

    method ProjectTicks(source: Source, t: M.TickState) returns (projection: Option<Projection>)
      requires Valid()
      modifies this, left, right
      ensures Valid() && State() == Project(old(State()), source, t)
      ensures projection == Published(old(State()), source, t)
    {
      if (source != EscStatus && source != Legacy) || (!t.left.valid && !t.right.valid) {
        left.valid := false;
        right.valid := false;
        return None;
      }
      Notice(source, t);
      var leftNew := left.Project(t.left);
      var rightNew := right.Project(t.right);
      if !leftNew && !rightNew {
        return None;
      }
      return Some(Projection(left.valid, right.valid, left.count, right.count, left.forward, right.forward));
    }
  }
}
