/** The integrator object: a fixed buffer of two wheels, updated in place. */
module MotorTicks {
  import opened MotorTickProtocol

  class MotorTickIntegrator {
    const timeout: int
    const wheels: array<Wheel>
    var epoch: nat

    ghost predicate Valid()
      reads this
    {
      wheels.Length == 2
    }

    ghost function State(): Integrator
      requires Valid()
      reads this, wheels
    {
      Integrator(epoch, wheels[..])
    }

    constructor (timeout: int)
      ensures Valid() && fresh(wheels) && this.timeout == timeout && State() == START
    {
      this.timeout := timeout;
      wheels := new Wheel[2](_ => FRESH_WHEEL);
      epoch := 0;
    }

    method Observe(wheel: nat, rpm: real, sample: int, receipt: int) returns (accepted: bool)
      requires Valid()
      modifies wheels
      ensures State() == MotorTickProtocol.Observe(timeout, old(State()), wheel, rpm, sample, receipt)
      ensures accepted == (wheel < 2 && Accepts(timeout, old(State()).wheels[wheel], sample, receipt))
    {
      if wheel >= wheels.Length || sample <= 0 || receipt <= 0 || timeout <= 0 {
        return false;
      }
      var was := wheels[wheel];
      if was.valid && (sample <= was.sample || receipt < was.receipt) {
        return false;
      }
      var ticks := was.ticks;
      var contiguous := was.valid && sample - was.sample <= timeout && receipt - was.receipt <= timeout;
      if contiguous {
        var averageRate := was.rpm / 120.0 + rpm / 120.0;
        ticks := ticks + averageRate * ((sample - was.sample) as real / 1000000000.0);
      }
      wheels[wheel] := Wheel(ticks, rpm, rpm / 60.0, sample, receipt, true,
                             was.segment + (if contiguous then 0 else 1));
      assert wheels[wheel] == ObserveWheel(timeout, was, rpm, sample, receipt);
      return true;
    }

    method ResetAll()
      requires Valid()
      modifies this, wheels
      ensures State() == Reset(old(State()))
    {
      wheels[0] := FRESH_WHEEL;
      wheels[1] := FRESH_WHEEL;
      epoch := epoch + 1;
      assert wheels[..] == [FRESH_WHEEL, FRESH_WHEEL];
    }

    method InvalidateWheel(wheel: nat)
      requires Valid()
      modifies wheels
      ensures State() == Invalidate(old(State()), wheel)
    {
      if wheel < wheels.Length {
        wheels[wheel] := wheels[wheel].(valid := false);
      }
    }

    method ForgetReferences()
      requires Valid()
      modifies wheels
      ensures State() == ResetReferences(old(State()))
    {
      var i := 0;
      while i < wheels.Length
        invariant 0 <= i <= wheels.Length
        invariant forall j | 0 <= j < i :: wheels[j] == Unreferenced(old(wheels[j]))
        invariant forall j | i <= j < wheels.Length :: wheels[j] == old(wheels[j])
      {
        wheels[i] := wheels[i].(valid := false, sample := 0, receipt := 0);
        i := i + 1;
      }
      assert wheels[..] == [wheels[0], wheels[1]];
    }

    method Snapshot() returns (t: TickState)
      requires Valid()
      ensures t == Ticks(State())
    {
      var left, right := wheels[0], wheels[1];
      t := TickState(epoch, Seen(left), Seen(right));
    }
  }
}
