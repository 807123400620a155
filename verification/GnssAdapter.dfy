/** The adapter object: bounded queues, the current identity and the last new position, updated in place. */
module GnssStates {
  import opened Wrappers
  import opened GnssProtocol
  import G = GnssProtocol

  class AdapterState {
    const timeout: int
    var identity: string
    var sequence: nat
    var positionReceipt: Option<int>
    var lastFix: int
    var valid: bool
    var accepted: seq<int>
    var altitudes: seq<Altitude>
    var pending: seq<Pending>
    var arrivals: nat
    ghost var past: History

    ghost function State(): Adapter
      reads this
    {
      Adapter(identity, sequence, positionReceipt, lastFix, valid, accepted, altitudes, pending, arrivals, past)
    }

    constructor (timeout: int)
      requires timeout > 0
      ensures this.timeout == timeout && State() == START
    {
      this.timeout := timeout;
      identity, sequence, positionReceipt, lastFix, valid := "", 0, None, 0, false;
      accepted, altitudes, pending, arrivals, past := [], [], [], 0, START.past;
    }

    method IsFresh(now: int) returns (r: bool)
      ensures r == Fresh(timeout, State(), now)
    {
      r := sequence != 0 && positionReceipt.Some? && now >= positionReceipt.value
           && now - positionReceipt.value <= timeout;
    }

    method Replace(m: Status)
      modifies this
      ensures State() == Identify(old(State()), m)
    {
      var next := m.source + "/" + m.incarnation;
      if next != identity {
        if identity != "" {
          pending, altitudes, accepted := [], [], [];
          past := past.(since := arrivals);
        }
        identity, sequence, positionReceipt, lastFix := next, 0, None, 0;
        past := past.(tenure := past.tenure + 1);
      }
    }

    method ObserveStatus(m: Status, now: int) returns (isValid: bool)
      modifies this
      ensures State() == G.ObserveStatus(timeout, old(State()), m, now) && isValid == valid
    {
      Replace(m);
      if m.sequence < sequence {
        valid := false;
        return false;
      }
      if m.sequence != sequence {
        sequence, positionReceipt := m.sequence, Some(now);
        accepted := accepted + [m.stamp];
        if |accepted| > QUEUE_LIMIT {
          accepted := accepted[1..];
        }
        past := past.(announced := past.announced + {Announcement(past.tenure, m.stamp)});
      }
      var isFresh := IsFresh(now);
      valid := m.valid && isFresh;
      if !valid {
        accepted, pending := [], [];
      }
      return valid;
    }

    // A valid status that is no longer fresh is withdrawn.
    method Expire(now: int) returns (withdrawn: bool)
      modifies this
      ensures State() == G.Expire(timeout, old(State()), now) && withdrawn == (old(valid) && !valid)
    {
      var isFresh := IsFresh(now);
      withdrawn := !isFresh && valid;
      if withdrawn {
        valid, pending, altitudes := false, [], [];
      }
    }

    method ObserveAltitude(a: Sample)
      modifies this
      ensures State() == G.ObserveAltitude(old(State()), a)
    {
      altitudes := altitudes + [Altitude(a, arrivals)];
      if |altitudes| > QUEUE_LIMIT {
        altitudes := altitudes[1..];
      }
      arrivals := arrivals + 1;
    }

    method ObserveFix(fix: Fix, now: int)
      modifies this
      ensures State() == G.ObserveFix(old(State()), fix, now)
    {
      pending := pending + [Pending(fix, now, arrivals)];
      if |pending| > QUEUE_LIMIT {
        pending := pending[1..];
      }
      arrivals := arrivals + 1;
    }

    // How many samples describe the fix, and the last that does.
    method CountMatches(fix: Fix) returns (matches: nat, last: nat)
      ensures matches == 1 <==> HasMatch(fix, altitudes)
      ensures matches == 1 ==> UniqueMatch(fix, altitudes, last)
    {
      matches, last := 0, 0;
      ghost var first := 0;
      for i := 0 to |altitudes|
        invariant matches > 0 ==> 0 <= first <= last < i
        invariant matches > 0 ==> Correlates(fix, altitudes[first].sample) && Correlates(fix, altitudes[last].sample)
        invariant matches == 1 <==> matches > 0 && first == last
        invariant forall j | 0 <= j < i && Correlates(fix, altitudes[j].sample) :: matches > 0 && first <= j <= last
      {
        if Correlates(fix, altitudes[i].sample) {
          if matches == 0 { first := i; }
          last := i;
          matches := matches + 1;
        }
      }
      if matches == 1 { assert UniqueMatch(fix, altitudes, last); }
    }

    method Deliver(p: Pending, now: int) returns (height: Option<real>)
      requires positionReceipt.Some?
      modifies this
      ensures height == Height(old(State()), p.fix)
      ensures State() == if HasMatch(p.fix, old(altitudes)) then
                           var k := MatchIndex(p.fix, old(altitudes));
                           Recorded(old(State()).(lastFix := p.fix.stamp, altitudes := Without(old(altitudes), k)), p,
                                    Some(old(altitudes)[k].arrival), now)
                         else Recorded(old(State()).(lastFix := p.fix.stamp), p, None, now)
    {
      var matches, last := CountMatches(p.fix);
      height := None;
      ghost var used: Option<nat> := None;
      if matches == 1 {
        height := altitudes[last].sample.ellipsoid;
        used := Some(altitudes[last].arrival);
        altitudes := altitudes[..last] + altitudes[last + 1..];
      }
      lastFix := p.fix.stamp;
      past := past.(log := past.log + [Record(identity, past.tenure, past.since, p.fix.stamp, p.arrival, used, now,
                                              positionReceipt.value)]);
    }

    method TakeFirst(now: int) returns (taken: seq<Delivered>)
      requires Due(State(), now)
      modifies this
      ensures State() == TakeOne(timeout, old(State()), now) && taken == DeliveredOne(timeout, old(State()), now)
    {
      var p := pending[0];
      pending := pending[1..];
      taken := [];
      var isFresh := IsFresh(now);
      if isFresh && valid && p.fix.stamp in accepted && p.fix.stamp > lastFix && !p.fix.noFix {
        var height := Deliver(p, now);
        taken := [Delivered(p.fix, height)];
      }
    }

    method TakeFixes(now: int) returns (output: seq<Delivered>)
      modifies this
      ensures State() == G.TakeFixes(timeout, old(State()), now) && output == Output(timeout, old(State()), now)
    {
      output := [];
      while pending != [] && now - pending[0].receipt >= DELIVERY_WAIT
        invariant G.TakeFixes(timeout, State(), now) == G.TakeFixes(timeout, old(State()), now)
        invariant output + Output(timeout, State(), now) == Output(timeout, old(State()), now)
        decreases |pending|
      {
        var taken := TakeFirst(now);
        output := output + taken;
      }
    }
  }
}
