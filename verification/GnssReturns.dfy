/** When a receiver can have a stamp delivered that does not rise above what it delivered before: exactly when it has
    returned after a replacement. */
module GnssReturns {
  import opened Wrappers
  import opened GnssProtocol
  import opened GnssTheorems

  /** An identity joins a source and an incarnation, and delivered stamps are positive. */
  ghost predicate Shaped(s: Adapter) {
    && (s.identity == "" || exists i :: 0 <= i < |s.identity| && s.identity[i] == '/')
    && s.lastFix >= 0 && forall i | 0 <= i < |s.past.log| :: s.past.log[i].stamp > 0
  }

  /** Within the tenure of `s`, deliveries on the way to `t` lie above the last one before. */
  ghost predicate Above(s: Adapter, t: Adapter) {
    && (t.past.tenure == s.past.tenure ==> t.lastFix >= s.lastFix && t.identity == s.identity)
    && forall i | |s.past.log| <= i < |t.past.log| ::
         t.past.log[i].tenure == s.past.tenure ==>
           t.past.log[i].stamp > s.lastFix && t.past.log[i].identity == s.identity
  }

  lemma {:induction false} TakeShapes(timeout: int, s: Adapter, now: int)
    requires Shaped(s)
    ensures var t := TakeFixes(timeout, s, now); Shaped(t) && Above(s, t) && t.past.tenure == s.past.tenure
    decreases |s.pending|
  {
    if Due(s, now) {
      TakeExtends(timeout, TakeOne(timeout, s, now), now);
      TakeShapes(timeout, TakeOne(timeout, s, now), now);
    }
  }

  lemma StatusShapes(timeout: int, s: Adapter, m: Status, now: int)
    requires Shaped(s)
    ensures Shaped(ObserveStatus(timeout, s, m, now)) && Above(s, ObserveStatus(timeout, s, m, now))
  {
    assert Identity(m)[|m.source|] == '/';
  }

  lemma StepShapes(timeout: int, s: Adapter, e: Event)
    requires Shaped(s)
    ensures Shaped(Step(timeout, s, e)) && Above(s, Step(timeout, s, e))
  {
    match e
    case EvStatus(m, now) => StatusShapes(timeout, s, m, now);
    case EvTake(now) => TakeShapes(timeout, s, now);
    case _ =>
  }

  lemma {:induction false} RunShapes(timeout: int, s: Adapter, events: seq<Event>)
    requires Inv(timeout, s) && Shaped(s)
    ensures var t := Run(timeout, s, events); Inv(timeout, t) && Shaped(t) && Extends(s, t) && Above(s, t)
    decreases |events|
  {
    if events != [] {
      var earlier, e := events[..|events| - 1], events[|events| - 1];
      var middle := Run(timeout, s, earlier);
      RunShapes(timeout, s, earlier);
      StepKeeps(timeout, middle, e);
      StepExtends(timeout, middle, e);
      StepShapes(timeout, middle, e);
    }
  }

  /** The later of two deliveries of the current identity does not rise above the earlier. */
  predicate Falls(s: Adapter, i: int, j: int) {
    && 0 <= i < j < |s.past.log| && s.past.log[i].identity == s.past.log[j].identity == s.identity
    && s.past.log[j].stamp <= s.past.log[i].stamp
  }

  /** Some continuation without a replacement delivers a stamp of the current identity at or below an earlier one. */
  ghost predicate CanFall(timeout: int, s: Adapter) {
    exists more: seq<Event>, i, j ::
      && Run(timeout, s, more).past.tenure == s.past.tenure && j >= |s.past.log|
      && Falls(Run(timeout, s, more), i, j)
  }

  /** The identity has delivered a stamp above its last one of this tenure. */
  ghost predicate Ahead(s: Adapter) {
    exists i :: 0 <= i < |s.past.log| && s.past.log[i].identity == s.identity && s.past.log[i].stamp > s.lastFix
  }

  lemma NewOnesRise(timeout: int, s: Adapter, t: Adapter, i: int, j: int)
    requires Inv(timeout, t) && Extends(s, t) && t.past.tenure == s.past.tenure && 0 <= i < j < |t.past.log|
    ensures i >= |s.past.log| ==> t.past.log[i].stamp < t.past.log[j].stamp
  {
    assert Before(t.past.log[i], t.past.log[j]) && SoundRecord(timeout, t, t.past.log[j]);
  }

  lemma FallNeedsAhead(timeout: int, s: Adapter, more: seq<Event>, i: int, j: int)
    requires Inv(timeout, s) && Shaped(s) && Run(timeout, s, more).past.tenure == s.past.tenure
    requires j >= |s.past.log| && Falls(Run(timeout, s, more), i, j)
    ensures Ahead(s)
  {
    var t := Run(timeout, s, more);
    RunShapes(timeout, s, more);
    assert SoundRecord(timeout, t, t.past.log[j]);
    assert t.past.log[j].tenure == s.past.tenure && t.past.log[j].stamp > s.lastFix;
    NewOnesRise(timeout, s, t, i, j);
    assert s.past.log[i] == t.past.log[i];
  }

  lemma DroppedAndQueued(timeout: int, s: Adapter, m: Status, fix: Fix)
    requires Identity(m) == s.identity && m.sequence == s.sequence + 1 && !m.valid
    ensures var t := ObserveFix(ObserveStatus(timeout, s, m, 0), fix, 0);
            && t.identity == s.identity && t.sequence == s.sequence + 1 && t.lastFix == s.lastFix && t.accepted == []
            && t.pending == [Pending(fix, 0, s.arrivals)] && t.past.log == s.past.log && t.past.tenure == s.past.tenure
  {
  }

  lemma AnnouncedAndTaken(timeout: int, s: Adapter, m: Status, fix: Fix, arrival: nat)
    requires timeout >= 0 && s.pending == [Pending(fix, 0, arrival)] && s.accepted == [] && !fix.noFix
    requires Identity(m) == s.identity && m.sequence > s.sequence && m.valid && m.stamp == fix.stamp > s.lastFix
    ensures var t := TakeFixes(timeout, ObserveStatus(timeout, s, m, DELIVERY_WAIT), DELIVERY_WAIT);
            && t.identity == s.identity && t.past.tenure == s.past.tenure && |t.past.log| == |s.past.log| + 1
            && t.past.log[..|s.past.log|] == s.past.log
            && t.past.log[|s.past.log|].stamp == fix.stamp && t.past.log[|s.past.log|].identity == s.identity
  {
    var told := ObserveStatus(timeout, s, m, DELIVERY_WAIT);
    assert told.accepted == [m.stamp] && told.pending == s.pending;
    assert Due(told, DELIVERY_WAIT) && Deliverable(timeout, told, fix, DELIVERY_WAIT);
    var t := TakeOne(timeout, told, DELIVERY_WAIT);
    assert TakeFixes(timeout, t, DELIVERY_WAIT) == t;
  }

  lemma RunFour(timeout: int, s: Adapter, a: Event, b: Event, c: Event, d: Event)
    ensures Run(timeout, s, [a, b, c, d])
            == Step(timeout, Step(timeout, Step(timeout, Step(timeout, s, a), b), c), d)
  {
    assert [a, b, c, d][..3] == [a, b, c] && [a, b, c][..2] == [a, b] && [a, b][..1] == [a] && [a][..0] == [];
    assert Run(timeout, s, [a]) == Step(timeout, s, a);
    assert Run(timeout, s, [a, b]) == Step(timeout, Step(timeout, s, a), b);
    assert Run(timeout, s, [a, b, c]) == Step(timeout, Step(timeout, Step(timeout, s, a), b), c);
  }

  lemma AheadFalls(timeout: int, s: Adapter, i: int)
    requires Shaped(s) && timeout >= 0 && 0 <= i < |s.past.log| && s.identity != ""
    requires s.past.log[i].identity == s.identity && s.past.log[i].stamp > s.lastFix
    ensures CanFall(timeout, s)
  {
    var k :| 0 <= k < |s.identity| && s.identity[k] == '/';
    assert s.identity == s.identity[..k] + "/" + s.identity[k + 1..];
    DeliversAgain(timeout, s, s.identity[..k], s.identity[k + 1..], s.past.log[i].stamp);
    var more :| Redelivers(timeout, s, more, s.past.log[i].stamp);
    assert Falls(Run(timeout, s, more), i, |s.past.log|);
  }

  ghost predicate Redelivers(timeout: int, s: Adapter, more: seq<Event>, stamp: int) {
    var t := Run(timeout, s, more);
    && t.identity == s.identity && t.past.tenure == s.past.tenure && |t.past.log| == |s.past.log| + 1
    && t.past.log[..|s.past.log|] == s.past.log
    && t.past.log[|s.past.log|].stamp == stamp && t.past.log[|s.past.log|].identity == s.identity
  }

  // The waiting fixes are dropped, a fix waits, its stamp is announced, and it is taken.
  lemma DeliversAgain(timeout: int, s: Adapter, source: string, incarnation: string, stamp: int)
    requires timeout >= 0 && s.identity == source + "/" + incarnation && stamp > s.lastFix
    ensures exists more: seq<Event> :: Redelivers(timeout, s, more, stamp)
  {
    var fix := Fix(stamp, 0.0, 0.0, 0.0, false);
    var first := Status(source, incarnation, s.sequence + 1, stamp, false);
    var second := Status(source, incarnation, s.sequence + 2, stamp, true);
    DroppedAndQueued(timeout, s, first, fix);
    var queued := ObserveFix(ObserveStatus(timeout, s, first, 0), fix, 0);
    AnnouncedAndTaken(timeout, queued, second, fix, s.arrivals);
    RunFour(timeout, s, EvStatus(first, 0), EvFix(fix, 0), EvStatus(second, DELIVERY_WAIT), EvTake(DELIVERY_WAIT));
    assert Redelivers(timeout, s, [EvStatus(first, 0), EvFix(fix, 0), EvStatus(second, DELIVERY_WAIT),
                                   EvTake(DELIVERY_WAIT)], stamp);
  }

  /** In every reachable state, the identity can come to deliver a stamp at or below an earlier one of its own, without
      a further replacement, if and only if it has already delivered a stamp above the last one of this tenure. */
  lemma FallsExactly(timeout: int, events: seq<Event>)
    requires timeout >= 0
    ensures var s := Run(timeout, START, events); CanFall(timeout, s) <==> Ahead(s)
  {
    var s := Run(timeout, START, events);
    RunShapes(timeout, START, events);
    if more: seq<Event>, i, j :| && Run(timeout, s, more).past.tenure == s.past.tenure && j >= |s.past.log|
                                 && Falls(Run(timeout, s, more), i, j) {
      FallNeedsAhead(timeout, s, more, i, j);
    }
    if i :| 0 <= i < |s.past.log| && s.past.log[i].identity == s.identity && s.past.log[i].stamp > s.lastFix {
      AheadFalls(timeout, s, i);
    }
  }

  /** What can be checked before a status that changes the identity is taken in: stamps may fall in the new tenure if
      and only if the identity has had a delivery in some earlier one. */
  lemma ReturnFallsExactly(timeout: int, events: seq<Event>, m: Status, now: int)
    requires timeout >= 0 && Identity(m) != Run(timeout, START, events).identity
    ensures var s := Run(timeout, START, events);
            CanFall(timeout, Step(timeout, s, EvStatus(m, now)))
            <==> exists i :: 0 <= i < |s.past.log| && s.past.log[i].identity == Identity(m)
  {
    var s, more := Run(timeout, START, events), events + [EvStatus(m, now)];
    RunShapes(timeout, START, events);
    assert more[..|more| - 1] == events;
    FallsExactly(timeout, more);
    ReturnResets(timeout, s, m, now);
  }

  lemma ReturnResets(timeout: int, s: Adapter, m: Status, now: int)
    requires Identity(m) != s.identity
    ensures var t := ObserveStatus(timeout, s, m, now);
            t.lastFix == 0 && t.past.log == s.past.log && t.identity == Identity(m)
  {
  }
}
