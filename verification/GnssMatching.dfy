/** What a delivered GNSS fix and its height are, in terms of the fields of the messages. */
module GnssMatching {
  import opened Wrappers
  import opened GnssProtocol
  import opened GnssTheorems

  // How far an integer is from a number.
  function Miss(x: real, n: int): real { if x < n as real then n as real - x else x - n as real }

  /** The integer is the nearest to the number, and no other is as near. */
  ghost predicate RoundsTo(x: real, n: int) {
    forall m: int | m != n :: Miss(x, n) < Miss(x, m)
  }

  predicate WithinHalf(x: real, n: int) { n as real - 0.5 < x < n as real + 0.5 }

  lemma RoundingIsHalf(x: real, n: int)
    ensures RoundsTo(x, n) <==> WithinHalf(x, n)
  {
    if RoundsTo(x, n) {
      assert Miss(x, n) < Miss(x, n + 1) && Miss(x, n) < Miss(x, n - 1);
    }
    if WithinHalf(x, n) {
      forall m: int | m != n ensures Miss(x, n) < Miss(x, m) {
        assert m >= n + 1 || m <= n - 1;
        assert m as real >= n as real + 1.0 || m as real <= n as real - 1.0;
      }
    }
  }

  /** The sample was received within 20 ms of the fix, and its latitude, longitude and height above sea level are those of
      the fix rounded to 1e-7 degrees and to millimetres. */
  ghost predicate Near(fix: Fix, a: Sample) {
    && fix.stamp - 20000000 <= a.receipt <= fix.stamp + 20000000
    && RoundsTo(fix.latitude * 10000000.0, a.latitude) && RoundsTo(fix.longitude * 10000000.0, a.longitude)
    && RoundsTo(fix.altitude * 1000.0, a.msl)
  }

  lemma NearIsCorrelated(fix: Fix, a: Sample)
    ensures Near(fix, a) <==> Correlates(fix, a)
  {
    RoundingIsHalf(fix.latitude * 10000000.0, a.latitude);
    RoundingIsHalf(fix.longitude * 10000000.0, a.longitude);
    RoundingIsHalf(fix.altitude * 1000.0, a.msl);
    HalfUnit(fix.latitude, a.latitude, 10000000.0);
    HalfUnit(fix.longitude, a.longitude, 10000000.0);
    HalfUnit(fix.altitude, a.msl, 1000.0);
  }

  lemma HalfUnit(x: real, n: int, unit: real)
    requires unit == 10000000.0 || unit == 1000.0
    ensures WithinHalf(x * unit, n) <==> Gap(x, n as real / unit) < 0.5 / unit
  {
  }

  /** Exactly one queued sample is near the fix: the k-th. */
  ghost predicate OnlyNear(fix: Fix, queue: seq<Altitude>, k: int) {
    && 0 <= k < |queue| && Near(fix, queue[k].sample)
    && forall j | 0 <= j < |queue| && j != k :: !Near(fix, queue[j].sample)
  }

  lemma OnlyNearIsUnique(fix: Fix, queue: seq<Altitude>, k: int)
    ensures OnlyNear(fix, queue, k) <==> UniqueMatch(fix, queue, k)
  {
    forall j | 0 <= j < |queue| ensures Near(fix, queue[j].sample) <==> Correlates(fix, queue[j].sample) {
      NearIsCorrelated(fix, queue[j].sample);
    }
  }

  /** The state delivers a fix: a new position no older than the timeout, a valid status, the fix's stamp announced and
      later than the last delivered one, and a fix to speak of. */
  predicate Delivers(timeout: int, s: Adapter, fix: Fix, now: int) {
    && s.sequence != 0 && s.positionReceipt.Some?
    && s.positionReceipt.value <= now <= s.positionReceipt.value + timeout
    && s.valid && fix.stamp in s.accepted && fix.stamp > s.lastFix && !fix.noFix
  }

  /** The oldest fix is taken exactly when it has waited 100 ms. It is delivered exactly if the state delivers it: with the
      ellipsoid height of the one sample near it, which is consumed, or, with none or several near, without a height. */
  lemma OldestFixIsTaken(timeout: int, s: Adapter, now: int)
    requires s.pending != []
    ensures var p, next := s.pending[0], if Due(s, now) then TakeOne(timeout, s, now) else s;
            if now - p.receipt < 100000000 then TakeFixes(timeout, s, now) == s && Output(timeout, s, now) == []
            else
              && TakeFixes(timeout, s, now) == TakeFixes(timeout, next, now) && next.pending == s.pending[1..]
              && (if !Delivers(timeout, s, p.fix, now) then
                    Output(timeout, s, now) == Output(timeout, next, now) && next.altitudes == s.altitudes
                  else
                    && next.lastFix == p.fix.stamp
                    && exists h :: && Output(timeout, s, now) == [Delivered(p.fix, h)] + Output(timeout, next, now)
                                   && HeightOf(s, next, p.fix, h))
  {
    if Due(s, now) && Delivers(timeout, s, s.pending[0].fix, now) {
      var fix, next := s.pending[0].fix, TakeOne(timeout, s, now);
      HeightIsNear(s, fix);
      if HasMatch(fix, s.altitudes) { OnlyNearIsUnique(fix, s.altitudes, MatchIndex(fix, s.altitudes)); }
      assert HeightOf(s, next, fix, Height(s, fix));
      assert Output(timeout, s, now) == [Delivered(fix, Height(s, fix))] + Output(timeout, next, now);
    }
  }

  /** The height a fix is delivered with, and what is left of the altitude queue. */
  ghost predicate HeightOf(s: Adapter, n: Adapter, fix: Fix, height: Option<real>) {
    if exists k :: OnlyNear(fix, s.altitudes, k) then
      exists k :: && OnlyNear(fix, s.altitudes, k) && height == s.altitudes[k].sample.ellipsoid
                  && n.altitudes == s.altitudes[..k] + s.altitudes[k + 1..]
    else height == None && n.altitudes == s.altitudes
  }

  lemma HeightIsNear(s: Adapter, fix: Fix)
    ensures HasMatch(fix, s.altitudes) <==> exists k :: OnlyNear(fix, s.altitudes, k)
  {
    forall k | 0 <= k < |s.altitudes| ensures OnlyNear(fix, s.altitudes, k) <==> UniqueMatch(fix, s.altitudes, k) {
      OnlyNearIsUnique(fix, s.altitudes, k);
    }
  }

  /** For example: a fix at 48.1 north, 11.5 east and 500 m gets the 547.2 m of a sample of that place. */
  lemma SampleGivesHeight(s: Adapter, k: nat)
    requires k < |s.altitudes| && s.altitudes[k].sample == Sample(5, 481000000, 115000000, 500000, Some(547.2))
    requires forall j | 0 <= j < |s.altitudes| && j != k :: s.altitudes[j].sample.receipt > 30000000
    ensures Height(s, Fix(5, 48.1, 11.5, 500.0, false)) == Some(547.2)
  {
    var fix := Fix(5, 48.1, 11.5, 500.0, false);
    assert Correlates(fix, s.altitudes[k].sample);
    assert UniqueMatch(fix, s.altitudes, k);
  }

  /** A status is valid exactly if it maps to a valid fix, does not roll back the sequence of its identity, carries a
      position at all, and its position is new or no older than the timeout. A status that is not valid drops the waiting
      fixes and announcements, unless it rolls back, which drops nothing. */
  lemma StatusIsValid(timeout: int, s: Adapter, m: Status, now: int)
    requires timeout > 0
    ensures var n, same := ObserveStatus(timeout, s, m, now), m.source + "/" + m.incarnation == s.identity;
            var back := same && m.sequence < s.sequence;
            var renews := if same then m.sequence > s.sequence else m.sequence > 0;
            && (n.valid <==>
                  && m.valid && !back && m.sequence > 0
                  && (renews || (s.positionReceipt.Some?
                              && s.positionReceipt.value <= now <= s.positionReceipt.value + timeout)))
            && (renews ==> n.positionReceipt == Some(now) && n.sequence == m.sequence)
            && (same && !renews ==> n.positionReceipt == s.positionReceipt && n.sequence == s.sequence)
            && (back ==> n.pending == s.pending && n.altitudes == s.altitudes && n.accepted == s.accepted)
            && (!back && !n.valid ==> n.pending == [] && n.accepted == [])
            && (n.valid && renews ==> |n.accepted| > 0 && n.accepted[|n.accepted| - 1] == m.stamp)
            && (n.valid && same ==> n.pending == s.pending && n.altitudes == s.altitudes)
            && (!same && s.identity != "" ==> n.pending == [] && n.altitudes == [])
  {
  }

  /** A status is withdrawn exactly when it is valid and its position older than the timeout; the queues go with it. */
  lemma WithdrawalClears(timeout: int, s: Adapter, now: int)
    ensures var n := Expire(timeout, s, now);
            var lapsed := s.sequence == 0 || s.positionReceipt.None? || now < s.positionReceipt.value
                        || now > s.positionReceipt.value + timeout;
            n == if s.valid && lapsed then s.(valid := false, pending := [], altitudes := []) else s
  {
  }

  /** The queues keep the 32 newest. */
  lemma QueuesForgetOldest(s: Adapter, a: Sample, fix: Fix, now: int)
    requires |s.altitudes| <= 32 && |s.pending| <= 32
    ensures var q, n := s.altitudes, ObserveAltitude(s, a).altitudes;
            n == (if |q| == 32 then q[1..] else q) + [Altitude(a, s.arrivals)]
    ensures var q, n := s.pending, ObserveFix(s, fix, now).pending;
            n == (if |q| == 32 then q[1..] else q) + [Pending(fix, now, s.arrivals)]
  {
  }
}
