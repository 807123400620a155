/** The GNSS adapter: position statuses of one receiver identity, raw fixes waiting for delivery, and raw altitude
    samples to be matched with them. Stamps and times are nanoseconds, angles degrees, heights metres. */
module GnssProtocol {
  import opened Wrappers

  const QUEUE_LIMIT := 32
  const PAIR_TOLERANCE := 20000000
  const DELIVERY_WAIT := 100000000

  /** A position status: who sent it, its observation sequence and stamp, and whether it maps to a valid fix. */
  datatype Status = Status(source: string, incarnation: string, sequence: nat, stamp: int, valid: bool)

  datatype Fix = Fix(stamp: int, latitude: real, longitude: real, altitude: real, noFix: bool)

  datatype Sample = Sample(receipt: int, latitude: int, longitude: int, msl: int, ellipsoid: Option<real>)

  // The arrival number tells equal messages apart; no branch reads it.
  datatype Pending = Pending(fix: Fix, receipt: int, arrival: nat)

  datatype Altitude = Altitude(sample: Sample, arrival: nat)

  /** A delivered fix: its height is the ellipsoid's, or unavailable. */
  datatype Delivered = Delivered(fix: Fix, height: Option<real>)

  /** What the proofs remember about a delivery: the tenure of an identity it fell in, the arrivals it used, when it
      was made and the new position it was based on. */
  datatype Record = Record(identity: string, tenure: nat, since: nat, stamp: int, fix: nat, altitude: Option<nat>,
                           at: int, basis: int)

  datatype Announcement = Announcement(tenure: nat, stamp: int)

  datatype History = History(tenure: nat, since: nat, announced: set<Announcement>, log: seq<Record>)

  datatype Adapter = Adapter(
    identity: string, sequence: nat, positionReceipt: Option<int>, lastFix: int, valid: bool,
    accepted: seq<int>, altitudes: seq<Altitude>, pending: seq<Pending>, arrivals: nat, past: History)

  const START := Adapter("", 0, None, 0, false, [], [], [], 0, History(0, 0, {}, []))

  function Identity(m: Status): string { m.source + "/" + m.incarnation }

  predicate Fresh(timeout: int, s: Adapter, now: int) {
    && s.sequence != 0 && s.positionReceipt.Some? && now >= s.positionReceipt.value
    && now - s.positionReceipt.value <= timeout
  }

  // A bounded queue forgets its oldest element.
  function Push<T>(queue: seq<T>, x: T): (r: seq<T>)
    ensures |queue| <= QUEUE_LIMIT ==> 0 < |r| <= QUEUE_LIMIT && r[|r| - 1] == x
  {
    if |queue| + 1 > QUEUE_LIMIT then (queue + [x])[1..] else queue + [x]
  }

  /** A new identity begins a tenure; a replaced one leaves nothing queued. */
  function Identify(s: Adapter, m: Status): Adapter {
    if Identity(m) == s.identity then s
    else
      (if s.identity == "" then s else s.(pending := [], altitudes := [], accepted := []))
        .(identity := Identity(m), sequence := 0, positionReceipt := None, lastFix := 0,
          past := s.past.(tenure := s.past.tenure + 1,
                          since := if s.identity == "" then s.past.since else s.arrivals))
  }

  function Announce(s: Adapter, m: Status, now: int): Adapter {
    if m.sequence == s.sequence then s
    else s.(sequence := m.sequence, positionReceipt := Some(now), accepted := Push(s.accepted, m.stamp),
            past := s.past.(announced := s.past.announced + {Announcement(s.past.tenure, m.stamp)}))
  }

  function Judge(timeout: int, s: Adapter, m: Status, now: int): Adapter {
    if m.valid && Fresh(timeout, s, now) then s.(valid := true) else s.(valid := false, accepted := [], pending := [])
  }

  function ObserveStatus(timeout: int, s: Adapter, m: Status, now: int): Adapter {
    var known := Identify(s, m);
    if m.sequence < known.sequence then known.(valid := false)
    else Judge(timeout, Announce(known, m, now), m, now)
  }

  function Expire(timeout: int, s: Adapter, now: int): Adapter {
    if !Fresh(timeout, s, now) && s.valid then s.(valid := false, pending := [], altitudes := []) else s
  }

  function ObserveAltitude(s: Adapter, a: Sample): Adapter {
    s.(altitudes := Push(s.altitudes, Altitude(a, s.arrivals)), arrivals := s.arrivals + 1)
  }

  function ObserveFix(s: Adapter, fix: Fix, now: int): Adapter {
    s.(pending := Push(s.pending, Pending(fix, now, s.arrivals)), arrivals := s.arrivals + 1)
  }

  function Gap(a: real, b: real): real { if a < b then b - a else a - b }

  function Apart(a: int, b: int): int { if a < b then b - a else a - b }

  /** A sample describes the dispatch of a fix: near in time, and the same position to rounding. */
  predicate Correlates(fix: Fix, a: Sample) {
    && Apart(a.receipt, fix.stamp) <= PAIR_TOLERANCE
    && Gap(fix.latitude, a.latitude as real / 10000000.0) < 0.00000005
    && Gap(fix.longitude, a.longitude as real / 10000000.0) < 0.00000005
    && Gap(fix.altitude, a.msl as real / 1000.0) < 0.0005
  }

  /** The k-th sample, and no other, describes the fix. */
  predicate UniqueMatch(fix: Fix, queue: seq<Altitude>, k: int) {
    && 0 <= k < |queue| && Correlates(fix, queue[k].sample)
    && forall j | 0 <= j < |queue| && Correlates(fix, queue[j].sample) :: j == k
  }

  predicate HasMatch(fix: Fix, queue: seq<Altitude>) {
    exists k | 0 <= k < |queue| :: UniqueMatch(fix, queue, k)
  }

  function MatchIndex(fix: Fix, queue: seq<Altitude>): (k: int)
    requires HasMatch(fix, queue)
    ensures UniqueMatch(fix, queue, k)
  {
    var k :| 0 <= k < |queue| && UniqueMatch(fix, queue, k);
    k
  }

  function Without<T>(queue: seq<T>, k: nat): seq<T>
    requires k < |queue|
  {
    queue[..k] + queue[k + 1..]
  }

  predicate Deliverable(timeout: int, s: Adapter, fix: Fix, now: int) {
    Fresh(timeout, s, now) && s.valid && fix.stamp in s.accepted && fix.stamp > s.lastFix && !fix.noFix
  }

  predicate Due(s: Adapter, now: int) { s.pending != [] && now - s.pending[0].receipt >= DELIVERY_WAIT }

  function Recorded(s: Adapter, p: Pending, altitude: Option<nat>, now: int): Adapter
    requires s.positionReceipt.Some?
  {
    s.(past := s.past.(log := s.past.log + [Record(s.identity, s.past.tenure, s.past.since, p.fix.stamp, p.arrival,
                                                   altitude, now, s.positionReceipt.value)]))
  }

  /** The first waiting fix leaves the queue: delivered with a uniquely matched height, or without, or dropped. */
  function TakeOne(timeout: int, s: Adapter, now: int): Adapter
    requires Due(s, now)
  {
    var p := s.pending[0];
    var rest := s.(pending := s.pending[1..]);
    if !Deliverable(timeout, s, p.fix, now) then rest
    else if HasMatch(p.fix, s.altitudes) then
      var k := MatchIndex(p.fix, s.altitudes);
      Recorded(rest.(lastFix := p.fix.stamp, altitudes := Without(s.altitudes, k)), p,
               Some(s.altitudes[k].arrival), now)
    else Recorded(rest.(lastFix := p.fix.stamp), p, None, now)
  }

  function Height(s: Adapter, fix: Fix): Option<real> {
    if HasMatch(fix, s.altitudes) then s.altitudes[MatchIndex(fix, s.altitudes)].sample.ellipsoid else None
  }

  function DeliveredOne(timeout: int, s: Adapter, now: int): seq<Delivered>
    requires Due(s, now)
  {
    var fix := s.pending[0].fix;
    if Deliverable(timeout, s, fix, now) then [Delivered(fix, Height(s, fix))] else []
  }

  function TakeFixes(timeout: int, s: Adapter, now: int): Adapter
    decreases |s.pending|
  {
    if Due(s, now) then TakeFixes(timeout, TakeOne(timeout, s, now), now) else s
  }

  function Output(timeout: int, s: Adapter, now: int): seq<Delivered>
    decreases |s.pending|
  {
    if Due(s, now) then DeliveredOne(timeout, s, now) + Output(timeout, TakeOne(timeout, s, now), now) else []
  }

  datatype Event =
    | EvStatus(status: Status, now: int)
    | EvExpire(now: int)
    | EvAltitude(sample: Sample)
    | EvFix(fix: Fix, now: int)
    | EvTake(now: int)

  function Step(timeout: int, s: Adapter, e: Event): Adapter {
    match e
    case EvStatus(m, now) => ObserveStatus(timeout, s, m, now)
    case EvExpire(now) => Expire(timeout, s, now)
    case EvAltitude(a) => ObserveAltitude(s, a)
    case EvFix(fix, now) => ObserveFix(s, fix, now)
    case EvTake(now) => TakeFixes(timeout, s, now)
  }

  function Run(timeout: int, s: Adapter, events: seq<Event>): Adapter
    decreases |events|
  {
    if events == [] then s
    else Step(timeout, Run(timeout, s, events[..|events| - 1]), events[|events| - 1])
  }
}
