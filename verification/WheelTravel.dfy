/** Error bounds of the projection, and the end-to-end bound on the counted travel. */
module WheelTravel {
  import opened Wrappers
  import M = MotorTickProtocol
  import opened WheelTickProtocol

  lemma FloorBounds(x: real)
    requires x >= 0.0
    ensures 0 <= x.Floor && x.Floor as real <= x < x.Floor as real + 1.0
  {
  }

  /** The fractional part stays in [0, 1), whole counts fit 32 bits, and the published count is the sum modulo
      2^32. */
  lemma ProjectWheelSane(w: Wheel, t: M.WheelTicks)
    requires Sane(w)
    ensures Sane(ProjectWheel(w, t))
    ensures 0 <= Gain(w, t) < UINT32
    ensures ProjectWheel(w, t).count == (w.count + Gain(w, t)) % UINT32
  {
    if Counts(w, t) { FloorBounds(Carried(w, t.ticks)); }
  }

  lemma ProjectSane(p: Projector, source: Source, t: M.TickState)
    requires SaneProjector(p)
    ensures SaneProjector(Project(p, source, t))
  {
    var q := Follow(p, source, t);
    ProjectWheelSane(q.left, t.left);
    ProjectWheelSane(q.right, t.right);
  }

  // A wheel follows a list of observations that all count.
  ghost predicate AllCount(w: Wheel, ts: seq<M.WheelTicks>)
    requires Sane(w)
    decreases |ts|
  {
    ts == [] ||
    (Counts(w, ts[0])
     && (ProjectWheelSane(w, ts[0]); AllCount(ProjectWheel(w, ts[0]), ts[1..])))
  }

  function Follows(w: Wheel, ts: seq<M.WheelTicks>): Wheel
    requires Sane(w)
    decreases |ts|
  {
    if ts == [] then w else ProjectWheelSane(w, ts[0]); Follows(ProjectWheel(w, ts[0]), ts[1..])
  }

  function Gained(w: Wheel, ts: seq<M.WheelTicks>): int
    requires Sane(w)
    decreases |ts|
  {
    if ts == [] then 0 else ProjectWheelSane(w, ts[0]); Gain(w, ts[0]) + Gained(ProjectWheel(w, ts[0]), ts[1..])
  }

  // The path length of the observed ticks, and the number of direction flips along it.
  function Path(from: real, ts: seq<M.WheelTicks>): real
    decreases |ts|
  {
    if ts == [] then 0.0 else Abs(ts[0].ticks - from) + Path(ts[0].ticks, ts[1..])
  }

  function FlipCount(w: Wheel, ts: seq<M.WheelTicks>): nat
    requires Sane(w)
    decreases |ts|
  {
    if ts == [] then 0
    else
      ProjectWheelSane(w, ts[0]);
      (if Flips(w, ts[0].ticks) then 1 else 0) + FlipCount(ProjectWheel(w, ts[0]), ts[1..])
  }

  // What one observation loses: the old fraction at a flip, and nothing else.
  lemma StepLoss(w: Wheel, t: M.WheelTicks)
    requires Sane(w) && Counts(w, t)
    ensures var n := ProjectWheel(w, t);
            && COUNTS * Abs(t.ticks - w.ticks) + w.fraction - Gain(w, t) as real - n.fraction
               == (if Flips(w, t.ticks) then w.fraction else 0.0)
            && n.ticks == t.ticks && n.count == (w.count + Gain(w, t)) % UINT32
  {
  }

  lemma SumsModulo(a: int, b: int, c: int)
    ensures ((a + b) % UINT32 + c) % UINT32 == (a + (b + c)) % UINT32
  {
    assert a + (b + c) == (a + b) % UINT32 + c + (a + b) / UINT32 * UINT32;
  }

  lemma {:induction false} QuantisationLoss(w: Wheel, ts: seq<M.WheelTicks>)
    requires Sane(w) && AllCount(w, ts)
    ensures var n := Follows(w, ts);
            var lost := COUNTS * Path(w.ticks, ts) + w.fraction - Gained(w, ts) as real - n.fraction;
            && Sane(n) && 0.0 <= lost
            && (if FlipCount(w, ts) == 0 then lost == 0.0 else lost < FlipCount(w, ts) as real)
            && n.count == (w.count + Gained(w, ts)) % UINT32
    decreases |ts|
  {
    if ts != [] {
      ProjectWheelSane(w, ts[0]);
      StepLoss(w, ts[0]);
      var next, rest := ProjectWheel(w, ts[0]), ts[1..];
      QuantisationLoss(next, rest);
      SumsModulo(w.count, Gain(w, ts[0]), Gained(next, rest));
      assert Gained(w, ts) == Gain(w, ts[0]) + Gained(next, rest);
    }
  }

  lemma {:induction false} OneWay(w: Wheel, ts: seq<M.WheelTicks>)
    requires Sane(w) && AllCount(w, ts) && FlipCount(w, ts) == 0
    ensures var net := Follows(w, ts).ticks - w.ticks;
            && Path(w.ticks, ts) == Abs(net) && (if w.forward then net >= 0.0 else net <= 0.0)
    decreases |ts|
  {
    if ts != [] {
      ProjectWheelSane(w, ts[0]);
      OneWay(ProjectWheel(w, ts[0]), ts[1..]);
    }
  }

  /** The quantisation bound between rebaselines: with F flips of direction, the counts added never exceed a
      thousand counts per revolution of the path travelled and fall short of it by less than F + 1. Without a
      flip they are exactly the floor of the net travel. */
  lemma QuantisationBound(w: Wheel, ts: seq<M.WheelTicks>)
    requires Sane(w) && w.fraction == 0.0 && AllCount(w, ts)
    ensures var short := COUNTS * Path(w.ticks, ts) - Gained(w, ts) as real;
            0.0 <= short < FlipCount(w, ts) as real + 1.0
    ensures FlipCount(w, ts) == 0 ==>
              Gained(w, ts) == (COUNTS * Abs(Follows(w, ts).ticks - w.ticks)).Floor
    ensures Follows(w, ts).count == (w.count + Gained(w, ts)) % UINT32
  {
    QuantisationLoss(w, ts);
    if FlipCount(w, ts) == 0 {
      OneWay(w, ts);
      FloorBounds(COUNTS * Path(w.ticks, ts));
    }
  }
}
