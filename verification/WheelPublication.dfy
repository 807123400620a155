/** What the projector publishes, wheel by wheel, in terms of its last reference and of the new ticks. */
module WheelPublication {
  import opened Wrappers
  import M = MotorTickProtocol
  import opened WheelTickProtocol
  import opened WheelTravel

  /** Thousandths of a revolution between the last reference and the new ticks. */
  function Thousandths(w: Wheel, t: M.WheelTicks): real {
    (if t.ticks < w.ticks then w.ticks - t.ticks else t.ticks - w.ticks) * 1000.0
  }

  /** The ticks start a new reference: the wheel has none, or they belong to another segment. */
  predicate Anchors(w: Wheel, referenced: bool, t: M.WheelTicks) {
    t.valid && (!(w.valid && referenced) || w.segment != t.segment)
  }

  /** The ticks move the wheel: valid, of the referenced segment, newer, and by no more than a signed 32-bit count. */
  predicate Moves(w: Wheel, referenced: bool, t: M.WheelTicks) {
    && t.valid && w.valid && referenced && w.segment == t.segment && t.sample > w.sample
    && Thousandths(w, t) <= 2147483647.0
  }

  /** The direction after the ticks. */
  predicate Heads(w: Wheel, t: M.WheelTicks, forward: bool) {
    && (t.ticks > w.ticks ==> forward) && (t.ticks < w.ticks ==> !forward) && (t.ticks == w.ticks ==> forward == w.forward)
  }

  /** The published count and direction of a wheel: advanced by the whole thousandths of its travel, with the fraction
      left over from the same direction, when its ticks move it; otherwise as before. */
  predicate CountsTravel(w: Wheel, referenced: bool, t: M.WheelTicks, count: nat, forward: bool) {
    if Moves(w, referenced, t) then
      && Heads(w, t, forward)
      && count == (w.count + (Thousandths(w, t) + (if forward == w.forward then w.fraction else 0.0)).Floor) % 0x1_0000_0000
    else count == w.count && forward == w.forward
  }

  lemma WheelCounts(w: Wheel, t: M.WheelTicks)
    requires Sane(w)
    ensures var n := ProjectWheel(w, t);
            && CountsTravel(w, true, t, n.count, n.forward)
            && (Publishes(w, t) <==> Anchors(w, true, t) || Moves(w, true, t))
            && (t.valid && (Publishes(w, t) || t.sample <= w.sample) <==> n.valid)
  {
    if Moves(w, true, t) { FloorBounds(Carried(w, t.ticks)); }
  }

  /** A projection is published exactly for an ESC or legacy source when the ticks of some wheel anchor or move it. The
      left and the right count and direction are each those of their own wheel, advanced by the travel of that wheel
      alone; a new source or epoch keeps the counts and loses the references. */
  lemma PublishesTravel(p: Projector, source: Source, t: M.TickState)
    requires SaneProjector(p)
    ensures var x, referenced := Published(p, source, t), p.source == source && p.epoch == t.epoch;
            && (x.Some? <==>
                  && (source == EscStatus || source == Legacy)
                  && (Anchors(p.left, referenced, t.left) || Moves(p.left, referenced, t.left)
                      || Anchors(p.right, referenced, t.right) || Moves(p.right, referenced, t.right)))
            && (x.Some? ==>
                  && CountsTravel(p.left, referenced, t.left, x.value.leftCount, x.value.leftForward)
                  && CountsTravel(p.right, referenced, t.right, x.value.rightCount, x.value.rightForward))
            && (x.Some? ==>
                  && (x.value.leftValid ==> t.left.valid) && (x.value.rightValid ==> t.right.valid)
                  && (Moves(p.left, referenced, t.left) ==> x.value.leftValid)
                  && (Moves(p.right, referenced, t.right) ==> x.value.rightValid))
  {
    var q := Follow(p, source, t);
    WheelCounts(q.left, t.left);
    WheelCounts(q.right, t.right);
  }
}
