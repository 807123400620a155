/** What holds of every delivered GNSS fix, over every run of the adapter. */
module GnssTheorems {
  import opened Wrappers
  import opened GnssProtocol

  /** Queues are bounded, in order of arrival, and hold nothing from before the identity was replaced. */
  ghost predicate Queued(s: Adapter) {
    && |s.pending| <= QUEUE_LIMIT && |s.altitudes| <= QUEUE_LIMIT && |s.accepted| <= QUEUE_LIMIT
    && s.past.since <= s.arrivals
    && (forall i | 0 <= i < |s.pending| :: s.past.since <= s.pending[i].arrival < s.arrivals)
    && (forall i | 0 <= i < |s.altitudes| :: s.past.since <= s.altitudes[i].arrival < s.arrivals)
    && (forall i, j | 0 <= i < j < |s.pending| :: s.pending[i].arrival < s.pending[j].arrival)
    && (forall i, j | 0 <= i < j < |s.altitudes| :: s.altitudes[i].arrival < s.altitudes[j].arrival)
  }

  /** Only stamps the current identity announced are accepted. */
  ghost predicate Announced(s: Adapter) {
    && (forall i | 0 <= i < |s.accepted| :: Announcement(s.past.tenure, s.accepted[i]) in s.past.announced)
    && (s.identity == "" ==> s.past.tenure == 0 && s.past.log == [] && s.accepted == [] && s.sequence == 0)
  }

  /** A delivery used a fix, and possibly a height, queued since the identity was replaced; its stamp was announced by
      that identity; and a new position was no older than the timeout. */
  predicate SoundRecord(timeout: int, s: Adapter, r: Record) {
    && Announcement(r.tenure, r.stamp) in s.past.announced && r.tenure <= s.past.tenure
    && r.since <= r.fix < s.arrivals && (r.altitude.Some? ==> r.since <= r.altitude.value < s.arrivals)
    && 0 <= r.at - r.basis <= timeout
    && (r.tenure == s.past.tenure ==> r.identity == s.identity && r.stamp <= s.lastFix && r.since == s.past.since)
  }

  ghost predicate Sound(timeout: int, s: Adapter) {
    forall i | 0 <= i < |s.past.log| :: SoundRecord(timeout, s, s.past.log[i])
  }

  /** Deliveries keep the order of arrival, and within a tenure of an identity the stamps rise. */
  predicate Before(a: Record, b: Record) {
    a.fix < b.fix && a.tenure <= b.tenure && (a.tenure == b.tenure ==> a.stamp < b.stamp)
  }

  ghost predicate Ordered(s: Adapter) {
    && (forall i, j | 0 <= i < j < |s.past.log| :: Before(s.past.log[i], s.past.log[j]))
    && (forall i, j | 0 <= i < |s.past.log| && 0 <= j < |s.pending| :: s.past.log[i].fix < s.pending[j].arrival)
  }

  /** No altitude sample is used twice, or used and still queued. */
  ghost predicate Consumed(s: Adapter) {
    && (forall i, j | 0 <= i < j < |s.past.log| ::
          s.past.log[i].altitude.Some? ==> s.past.log[i].altitude != s.past.log[j].altitude)
    && (forall i, j | 0 <= i < |s.past.log| && 0 <= j < |s.altitudes| ::
          s.past.log[i].altitude != Some(s.altitudes[j].arrival))
  }

  ghost predicate Inv(timeout: int, s: Adapter) {
    Queued(s) && Announced(s) && Sound(timeout, s) && Ordered(s) && Consumed(s)
  }

  lemma IdentifyKeeps(timeout: int, s: Adapter, m: Status)
    requires Inv(timeout, s)
    ensures Inv(timeout, Identify(s, m)) && Identify(s, m).identity != ""
  {
    assert |Identity(m)| > 0;
    var t := Identify(s, m);
    assert t.past.log == s.past.log && t.past.announced == s.past.announced;
    assert forall i | 0 <= i < |t.past.log| :: SoundRecord(timeout, s, t.past.log[i]);
  }

  lemma AnnounceKeeps(timeout: int, s: Adapter, m: Status, now: int)
    requires Inv(timeout, s) && s.identity != ""
    ensures Inv(timeout, Announce(s, m, now))
  {
    var t := Announce(s, m, now);
    assert forall i | 0 <= i < |t.past.log| :: SoundRecord(timeout, s, t.past.log[i]);
  }

  lemma JudgeKeeps(timeout: int, s: Adapter, m: Status, now: int)
    requires Inv(timeout, s)
    ensures Inv(timeout, Judge(timeout, s, m, now))
  {
    var t := Judge(timeout, s, m, now);
    assert forall i | 0 <= i < |t.past.log| :: SoundRecord(timeout, s, t.past.log[i]);
  }

  lemma RollBackKeeps(timeout: int, s: Adapter)
    requires Inv(timeout, s)
    ensures Inv(timeout, s.(valid := false))
  {
    assert forall i | 0 <= i < |s.past.log| :: SoundRecord(timeout, s, s.past.log[i]);
  }

  lemma StatusKeeps(timeout: int, s: Adapter, m: Status, now: int)
    requires Inv(timeout, s)
    ensures Inv(timeout, ObserveStatus(timeout, s, m, now))
  {
    var known := Identify(s, m);
    IdentifyKeeps(timeout, s, m);
    AnnounceKeeps(timeout, known, m, now);
    JudgeKeeps(timeout, Announce(known, m, now), m, now);
    RollBackKeeps(timeout, known);
  }

  lemma ExpireKeeps(timeout: int, s: Adapter, now: int)
    requires Inv(timeout, s)
    ensures Inv(timeout, Expire(timeout, s, now))
  {
    var t := Expire(timeout, s, now);
    assert forall i | 0 <= i < |t.past.log| :: SoundRecord(timeout, s, t.past.log[i]);
  }

  lemma AltitudeKeeps(timeout: int, s: Adapter, a: Sample)
    requires Inv(timeout, s)
    ensures Inv(timeout, ObserveAltitude(s, a))
  {
    var t := ObserveAltitude(s, a);
    assert forall i | 0 <= i < |t.past.log| :: SoundRecord(timeout, s, t.past.log[i]);
  }

  lemma FixKeeps(timeout: int, s: Adapter, fix: Fix, now: int)
    requires Inv(timeout, s)
    ensures Inv(timeout, ObserveFix(s, fix, now))
  {
    var t := ObserveFix(s, fix, now);
    assert forall i | 0 <= i < |t.past.log| :: SoundRecord(timeout, s, t.past.log[i]);
  }

  lemma TakeOneQueued(timeout: int, s: Adapter, now: int)
    requires Inv(timeout, s) && Due(s, now)
    ensures Queued(TakeOne(timeout, s, now)) && Announced(TakeOne(timeout, s, now))
  {
  }

  lemma TakeOneSound(timeout: int, s: Adapter, now: int)
    requires Inv(timeout, s) && Due(s, now)
    ensures Sound(timeout, TakeOne(timeout, s, now))
  {
    var t := TakeOne(timeout, s, now);
    forall i | 0 <= i < |t.past.log| ensures SoundRecord(timeout, t, t.past.log[i]) {
      if i < |s.past.log| { assert SoundRecord(timeout, s, s.past.log[i]); }
    }
  }

  lemma TakeOneOrdered(timeout: int, s: Adapter, now: int)
    requires Inv(timeout, s) && Due(s, now)
    ensures Ordered(TakeOne(timeout, s, now))
  {
    forall i | 0 <= i < |s.past.log| ensures SoundRecord(timeout, s, s.past.log[i]) {}
  }

  lemma TakeOneConsumed(timeout: int, s: Adapter, now: int)
    requires Inv(timeout, s) && Due(s, now)
    ensures Consumed(TakeOne(timeout, s, now))
  {
  }

  lemma {:induction false} TakeKeeps(timeout: int, s: Adapter, now: int)
    requires Inv(timeout, s)
    ensures Inv(timeout, TakeFixes(timeout, s, now))
    decreases |s.pending|
  {
    if Due(s, now) {
      TakeOneQueued(timeout, s, now);
      TakeOneSound(timeout, s, now);
      TakeOneOrdered(timeout, s, now);
      TakeOneConsumed(timeout, s, now);
      TakeKeeps(timeout, TakeOne(timeout, s, now), now);
    }
  }

  lemma StepKeeps(timeout: int, s: Adapter, e: Event)
    requires Inv(timeout, s)
    ensures Inv(timeout, Step(timeout, s, e))
  {
    match e
    case EvStatus(m, now) => StatusKeeps(timeout, s, m, now);
    case EvExpire(now) => ExpireKeeps(timeout, s, now);
    case EvAltitude(a) => AltitudeKeeps(timeout, s, a);
    case EvFix(fix, now) => FixKeeps(timeout, s, fix, now);
    case EvTake(now) => TakeKeeps(timeout, s, now);
  }

  lemma {:induction false} RunKeeps(timeout: int, s: Adapter, events: seq<Event>)
    requires Inv(timeout, s)
    ensures Inv(timeout, Run(timeout, s, events))
    decreases |events|
  {
    if events != [] {
      RunKeeps(timeout, s, events[..|events| - 1]);
      StepKeeps(timeout, Run(timeout, s, events[..|events| - 1]), events[|events| - 1]);
    }
  }

  /** In every run, each delivery was announced by the identity of its tenure, rests on messages queued since that
      identity was in place, and on a new position no older than the timeout; within a tenure stamps strictly rise,
      deliveries follow the order of arrival, and no altitude sample serves twice. */
  lemma DeliveriesAreSound(timeout: int, events: seq<Event>)
    ensures var s := Run(timeout, START, events);
            && (forall i | 0 <= i < |s.past.log| :: SoundRecord(timeout, s, s.past.log[i]))
            && (forall i, j | 0 <= i < j < |s.past.log| :: Before(s.past.log[i], s.past.log[j]))
            && (forall i, j | 0 <= i < j < |s.past.log| && s.past.log[i].altitude.Some? ::
                  s.past.log[i].altitude != s.past.log[j].altitude)
  {
    RunKeeps(timeout, START, events);
  }

  /** What was remembered stays, and what is added belongs to the present tenure or a later one. */
  ghost predicate Extends(s: Adapter, t: Adapter) {
    && |s.past.log| <= |t.past.log| && s.past.since <= t.past.since && s.past.tenure <= t.past.tenure
    && (forall i | 0 <= i < |s.past.log| :: t.past.log[i] == s.past.log[i])
    && (forall i | |s.past.log| <= i < |t.past.log| ::
          s.past.since <= t.past.log[i].since && s.past.tenure <= t.past.log[i].tenure)
  }

  lemma {:induction false} TakeExtends(timeout: int, s: Adapter, now: int)
    ensures Extends(s, TakeFixes(timeout, s, now))
    decreases |s.pending|
  {
    if Due(s, now) { TakeExtends(timeout, TakeOne(timeout, s, now), now); }
  }

  lemma StepExtends(timeout: int, s: Adapter, e: Event)
    requires Inv(timeout, s)
    ensures Extends(s, Step(timeout, s, e))
  {
    if e.EvTake? { TakeExtends(timeout, s, e.now); }
  }

  lemma {:induction false} RunExtends(timeout: int, s: Adapter, events: seq<Event>)
    requires Inv(timeout, s)
    ensures Inv(timeout, Run(timeout, s, events)) && Extends(s, Run(timeout, s, events))
    decreases |events|
  {
    if events != [] {
      RunExtends(timeout, s, events[..|events| - 1]);
      StepKeeps(timeout, Run(timeout, s, events[..|events| - 1]), events[|events| - 1]);
      StepExtends(timeout, Run(timeout, s, events[..|events| - 1]), events[|events| - 1]);
    }
  }

  lemma AddedSince(timeout: int, s: Adapter, t: Adapter)
    requires Extends(s, t) && Inv(timeout, t)
    ensures forall i | |s.past.log| <= i < |t.past.log| ::
              && t.past.log[i].fix >= s.past.since && t.past.log[i].tenure >= s.past.tenure
              && (t.past.log[i].altitude.Some? ==> t.past.log[i].altitude.value >= s.past.since)
  {
    forall i | |s.past.log| <= i < |t.past.log| ensures SoundRecord(timeout, t, t.past.log[i]) {}
  }

  lemma ReplacementBegins(timeout: int, s: Adapter, m: Status, now: int)
    requires s.identity != "" && Identity(m) != s.identity
    ensures var t := ObserveStatus(timeout, s, m, now);
            t.past.log == s.past.log && t.past.since == s.arrivals && t.past.tenure == s.past.tenure + 1
  {
  }

  /** No delivered fix crosses an incarnation: whatever is delivered after a status replaced the identity was queued,
      fix and height alike, after that status. */
  lemma NothingCrossesIncarnations(timeout: int, before: seq<Event>, m: Status, now: int, after: seq<Event>)
    requires var s := Run(timeout, START, before); s.identity != "" && Identity(m) != s.identity
    ensures var s := Run(timeout, START, before);
            var t := Run(timeout, Step(timeout, s, EvStatus(m, now)), after);
            forall i | |s.past.log| <= i < |t.past.log| ::
              && t.past.log[i].fix >= s.arrivals && t.past.log[i].tenure > s.past.tenure
              && (t.past.log[i].altitude.Some? ==> t.past.log[i].altitude.value >= s.arrivals)
  {
    var s := Run(timeout, START, before);
    var replaced := Step(timeout, s, EvStatus(m, now));
    RunKeeps(timeout, START, before);
    StepKeeps(timeout, s, EvStatus(m, now));
    RunExtends(timeout, replaced, after);
    var t := Run(timeout, replaced, after);
    ReplacementBegins(timeout, s, m, now);
    AddedSince(timeout, replaced, t);
  }

  /** A status of the current identity that repeats or lowers the sequence. */
  predicate Repeats(s: Adapter, e: Event) {
    e.EvStatus? ==> Identity(e.status) == s.identity && e.status.sequence <= s.sequence
  }

  ghost predicate OnlyRepeats(timeout: int, s: Adapter, events: seq<Event>)
    decreases |events|
  {
    events == [] || (OnlyRepeats(timeout, s, events[..|events| - 1])
                     && Repeats(Run(timeout, s, events[..|events| - 1]), events[|events| - 1]))
  }

  lemma {:induction false} TakeKeepsBasis(timeout: int, s: Adapter, now: int)
    ensures var t := TakeFixes(timeout, s, now);
            && t.positionReceipt == s.positionReceipt && t.sequence == s.sequence && t.identity == s.identity
            && (!Fresh(timeout, s, now) ==> t.past == s.past && Output(timeout, s, now) == [])
    decreases |s.pending|
  {
    if Due(s, now) { TakeKeepsBasis(timeout, TakeOne(timeout, s, now), now); }
  }

  lemma {:induction false} RepeatsKeepBasis(timeout: int, s: Adapter, events: seq<Event>)
    requires OnlyRepeats(timeout, s, events)
    ensures var t := Run(timeout, s, events);
            t.positionReceipt == s.positionReceipt && t.sequence == s.sequence && t.identity == s.identity
    decreases |events|
  {
    if events != [] {
      var earlier, e := events[..|events| - 1], events[|events| - 1];
      RepeatsKeepBasis(timeout, s, earlier);
      if e.EvTake? { TakeKeepsBasis(timeout, Run(timeout, s, earlier), e.now); }
    }
  }

  /** Repeated statuses extend nothing: once the timeout has passed since the last new position, no run of
      repetitions, fixes and altitudes leads to a delivery or a valid status. */
  lemma RepetitionNeverRefreshes(timeout: int, s: Adapter, events: seq<Event>, now: int)
    requires s.positionReceipt.Some? && now - s.positionReceipt.value > timeout && OnlyRepeats(timeout, s, events)
    ensures var t := Run(timeout, s, events);
            && Output(timeout, t, now) == [] && TakeFixes(timeout, t, now).past == t.past
            && !Expire(timeout, t, now).valid
            && forall m: Status | Repeats(t, EvStatus(m, now)) :: !ObserveStatus(timeout, t, m, now).valid
  {
    RepeatsKeepBasis(timeout, s, events);
    TakeKeepsBasis(timeout, Run(timeout, s, events), now);
  }

  /** A delivered height is the ellipsoid height of the one queued sample that describes the fix; with none or
      several, or without an ellipsoid height there, it is unavailable. */
  lemma HeightOnlyFromUniqueMatch(timeout: int, s: Adapter, now: int, h: real)
    requires Due(s, now) && Deliverable(timeout, s, s.pending[0].fix, now)
    ensures var fix := s.pending[0].fix;
            && |DeliveredOne(timeout, s, now)| == 1 && DeliveredOne(timeout, s, now)[0].fix == fix
            && (DeliveredOne(timeout, s, now)[0].height == Some(h) <==>
                  exists k :: 0 <= k < |s.altitudes| && s.altitudes[k].sample.ellipsoid == Some(h)
                              && UniqueMatch(fix, s.altitudes, k))
  {
    var fix := s.pending[0].fix;
    if k :| 0 <= k < |s.altitudes| && UniqueMatch(fix, s.altitudes, k) { assert MatchIndex(fix, s.altitudes) == k; }
  }

  /** Taking leaves no fix due, and what it delivers is what it records, in order. */
  lemma {:induction false} TakingIsComplete(timeout: int, s: Adapter, now: int)
    ensures var t, out := TakeFixes(timeout, s, now), Output(timeout, s, now);
            && !Due(t, now)
            && |t.past.log| == |s.past.log| + |out|
            && (forall i | 0 <= i < |out| :: Describes(t.past.log[|s.past.log| + i], out[i], now))
    decreases |s.pending|
  {
    if Due(s, now) {
      var next := TakeOne(timeout, s, now);
      TakingIsComplete(timeout, next, now);
      TakeExtends(timeout, next, now);
      var t, out, rest := TakeFixes(timeout, s, now), Output(timeout, s, now), Output(timeout, next, now);
      var first := DeliveredOne(timeout, s, now);
      assert |next.past.log| == |s.past.log| + |first|;
      forall i | 0 <= i < |out| ensures Describes(t.past.log[|s.past.log| + i], out[i], now) {
        if i >= |first| {
          assert out[i] == rest[i - |first|];
          assert Describes(t.past.log[|next.past.log| + (i - |first|)], rest[i - |first|], now);
        }
      }
    }
  }

  predicate Describes(r: Record, d: Delivered, now: int) {
    r.stamp == d.fix.stamp && r.at == now && (d.height.Some? ==> r.altitude.Some?)
  }

  const TIMEOUT := 3000000000

  // One position of a receiver, its fix, and the fix's delivery.
  function Round(source: string, at: int): seq<Event> {
    [EvStatus(Status(source, "1", 1, 5, true), at), EvFix(Fix(5, 0.0, 0.0, 0.0, false), at), EvTake(at + DELIVERY_WAIT)]
  }

  lemma RoundStatus(s: Adapter, m: Status, at: int)
    requires s.pending == [] && s.identity != Identity(m) && (s.identity == "" ==> s.accepted == [])
    requires m.sequence == 1 && m.valid
    ensures var t := ObserveStatus(TIMEOUT, s, m, at);
            && t.identity == Identity(m) && t.pending == [] && t.accepted == [m.stamp] && t.valid && t.lastFix == 0
            && t.sequence == 1 && t.positionReceipt == Some(at) && t.past.log == s.past.log
  {
  }

  lemma RoundTake(s: Adapter, p: Pending, now: int)
    requires s.pending == [p] && p.fix.stamp == 5 && !p.fix.noFix && now - p.receipt == DELIVERY_WAIT
    requires s.accepted == [5] && s.valid && s.lastFix == 0 && s.sequence == 1 && s.positionReceipt == Some(p.receipt)
    ensures var t := TakeFixes(TIMEOUT, s, now);
            && t.identity == s.identity && t.pending == [] && |t.past.log| == |s.past.log| + 1
            && t.past.log[..|s.past.log|] == s.past.log
            && t.past.log[|s.past.log|].stamp == 5 && t.past.log[|s.past.log|].identity == s.identity
  {
    var t := TakeOne(TIMEOUT, s, now);
    assert TakeFixes(TIMEOUT, t, now) == t;
  }

  // What a round of the receiver `name` leaves behind a state with the record `log`.
  predicate Rounded(t: Adapter, name: string, log: seq<Record>) {
    && t.identity == name && t.pending == [] && |t.past.log| == |log| + 1 && t.past.log[..|log|] == log
    && t.past.log[|log|].stamp == 5 && t.past.log[|log|].identity == name
  }

  lemma RoundSteps(s: Adapter, m: Status, fix: Fix, at: int)
    requires s.pending == [] && s.identity != Identity(m) && (s.identity == "" ==> s.accepted == [])
    requires m.sequence == 1 && m.valid && m.stamp == 5 && fix.stamp == 5 && !fix.noFix
    ensures var t := ObserveFix(ObserveStatus(TIMEOUT, s, m, at), fix, at);
            Rounded(TakeFixes(TIMEOUT, t, at + DELIVERY_WAIT), Identity(m), s.past.log)
  {
    RoundStatus(s, m, at);
    var one := ObserveStatus(TIMEOUT, s, m, at);
    RoundTake(ObserveFix(one, fix, at), Pending(fix, at, one.arrivals), at + DELIVERY_WAIT);
  }

  lemma RunRound(s: Adapter, source: string, at: int)
    requires s.pending == [] && s.identity != source + "/1" && (s.identity == "" ==> s.accepted == [])
    ensures Rounded(Run(TIMEOUT, s, Round(source, at)), source + "/1", s.past.log)
  {
    var m, fix := Status(source, "1", 1, 5, true), Fix(5, 0.0, 0.0, 0.0, false);
    assert Identity(m) == source + "/1";
    RoundSteps(s, m, fix, at);
    RunThree(s, EvStatus(m, at), EvFix(fix, at), EvTake(at + DELIVERY_WAIT));
  }

  lemma RunThree(s: Adapter, a: Event, b: Event, c: Event)
    ensures Run(TIMEOUT, s, [a, b, c]) == Step(TIMEOUT, Step(TIMEOUT, Step(TIMEOUT, s, a), b), c)
  {
    assert [a, b, c][..2] == [a, b] && [a, b][..1] == [a] && [a][..0] == [];
    assert Run(TIMEOUT, s, [a]) == Step(TIMEOUT, s, a);
    assert Run(TIMEOUT, s, [a, b]) == Step(TIMEOUT, Step(TIMEOUT, s, a), b);
  }

  lemma {:induction false} RunAppend(timeout: int, s: Adapter, a: seq<Event>, b: seq<Event>)
    ensures Run(timeout, s, a + b) == Run(timeout, Run(timeout, s, a), b)
    decreases |b|
  {
    if b == [] {
      assert a + b == a;
    } else {
      assert (a + b)[..|a + b| - 1] == a + b[..|b| - 1];
      RunAppend(timeout, s, a, b[..|b| - 1]);
    }
  }

  /** The order of stamps is a matter of tenures: a receiver that is replaced and comes back may announce, and have
      delivered, a stamp it had delivered before. */
  lemma StampsRepeatAcrossTenures()
    ensures exists events: seq<Event> ::
              var log := Run(TIMEOUT, START, events).past.log;
              |log| == 3 && log[0].identity == log[2].identity && log[0].stamp == log[2].stamp
  {
    Returns(Round("A", 1), Round("B", 200000000), Round("A", 400000000));
  }

  lemma Returns(a: seq<Event>, b: seq<Event>, c: seq<Event>)
    requires a == Round("A", 1) && b == Round("B", 200000000) && c == Round("A", 400000000)
    ensures var log := Run(TIMEOUT, START, a + b + c).past.log;
            |log| == 3 && log[0].identity == log[2].identity && log[0].stamp == log[2].stamp
  {
    assert ("A" + "/1")[0] == 'A' && ("B" + "/1")[0] == 'B';
    RunAppend(TIMEOUT, START, a, b);
    RunAppend(TIMEOUT, START, a + b, c);
    var once := Run(TIMEOUT, START, a);
    var twice := Run(TIMEOUT, once, b);
    RunRound(START, "A", 1);
    RunRound(once, "B", 200000000);
    RunRound(twice, "A", 400000000);
    var thrice := Run(TIMEOUT, twice, c);
    assert thrice.past.log[0] == twice.past.log[0] == once.past.log[0];
  }
}
