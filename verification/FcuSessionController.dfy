/** The FCU session controller object: the fields of the C++ class, updated in place. */
module SessionController {
  import opened Wrappers
  import opened SessionProtocol

  // The demanded triple, the observed FCU state and the latched failures.
  datatype Wanted = Wanted(mode: FcuMode, arm: bool, safety: bool)

  datatype Fcu = Fcu(connected: bool, armed: bool, mode: FcuMode)

  datatype Failures = Failures(mode: bool, arm: bool)

  class FcuSessionController {
    var wanted: Wanted
    var fcu: Fcu
    var failures: Failures
    var error: Error
    var forceDisarm: bool
    var acked: bool
    var serial: nat
    var sentAt: int
    var pending: Option<Command>

    ghost function State(): Session
      reads this
    {
      Session(wanted.mode, fcu.mode, error, wanted.arm, fcu.armed, fcu.connected, wanted.safety, forceDisarm,
              failures.mode, failures.arm, acked, serial, sentAt, pending)
    }

    constructor ()
      ensures State() == INITIAL
    {
      wanted, fcu, failures := Wanted(Hold, false, false), Fcu(false, false, Other("")), Failures(false, false);
      error, forceDisarm, acked, serial, sentAt, pending := NoError, false, false, 0, 0, None;
    }

    predicate IsReady()
      reads this
      ensures IsReady() == Ready(State())
    {
      fcu.connected && pending.None? && fcu.mode == wanted.mode && fcu.armed == wanted.arm
    }

    predicate Failed()
      reads this
      ensures Failed() == HasFailed(State())
    {
      failures.mode || failures.arm
    }

    predicate IsDisarmPending()
      reads this
      ensures IsDisarmPending() == DisarmPending(State())
    {
      pending.Some? && pending.value.kind == Arm && !pending.value.arm
    }

    predicate IsCurrent(serial: nat)
      reads this
      ensures IsCurrent(serial) == Current(State(), serial)
    {
      pending.Some? && pending.value.serial == serial
    }

    method Demand(mode: FcuMode, arm: bool, safety: bool)
      modifies this
      ensures State() == SessionProtocol.Demand(old(State()), mode, arm, safety)
    {
      if wanted == Wanted(mode, arm, safety) {
        return;
      }
      if safety && !wanted.safety {
        pending := None;
        forceDisarm := true;
      }
      wanted := Wanted(mode, arm, safety);
      failures := Failures(false, false);
      error := NoError;
    }

    method Observe(connected: bool, armed: bool, mode: FcuMode)
      modifies this
      ensures State() == SessionProtocol.Observe(old(State()), connected, armed, mode)
    {
      if !connected {
        pending := None;
      }
      var latched := failures;
      if wanted.safety && armed && !fcu.armed {
        forceDisarm := true;
        latched := latched.(arm := false);
      }
      fcu := Fcu(connected, armed, mode);
      // A late confirmation fulfils the current target; a mismatching state keeps the failure.
      if connected && mode == wanted.mode {
        latched := latched.(mode := false);
      }
      if connected && armed == wanted.arm {
        latched := latched.(arm := false);
      }
      failures := latched;
      assert State() == Reported(old(State()), connected, armed, mode);
      Settle();
    }

    method Tick(now: int)
      modifies this
      ensures State() == SessionProtocol.Tick(old(State()), now)
    {
      if pending.Some? && now - sentAt >= CONFIRMATION_TIMEOUT {
        Fail(ConfirmationTimeout);
      }
    }

    method Next(now: int, modeService: bool, armService: bool, allowArm: bool) returns (sent: Option<Command>)
      modifies this
      ensures State() == Poll(old(State()), now, modeService, armService, allowArm)
      ensures sent == PollCommand(old(State()), now, modeService, armService, allowArm)
    {
      Tick(now);
      if !fcu.connected || pending.Some? {
        return None;
      }
      sent := Choose(modeService, armService, allowArm);
      if sent.Some? {
        serial := serial + 1;
        sent := Some(sent.value.(serial := serial));
        pending := sent;
        acked := false;
        sentAt := now;
      }
    }

    // The branches of `next` that pick the command; a chosen safety DISARM discharges `forceDisarm`.
    method Choose(modeService: bool, armService: bool, allowArm: bool) returns (choice: Option<Command>)
      requires fcu.connected && pending.None?
      modifies this`forceDisarm
      ensures choice == Choice(old(State()), modeService, armService, allowArm)
      ensures forceDisarm == (old(forceDisarm) && !(choice.Some? && wanted.safety && !failures.arm))
    {
      if wanted.safety && (forceDisarm || fcu.armed) && !failures.arm {
        if !armService {
          return None;
        }
        forceDisarm := false;
        return Some(Command(0, Arm, wanted.mode, false));
      } else if fcu.mode != wanted.mode && !failures.mode {
        if modeService {
          return Some(Command(0, Mode, wanted.mode, false));
        }
        if wanted.arm || !fcu.armed || failures.arm || !armService {
          return None;
        }
        return Some(Command(0, Arm, wanted.mode, false));
      } else if fcu.armed != wanted.arm && !failures.arm {
        if (wanted.arm && (fcu.mode != wanted.mode || !allowArm)) || !armService {
          return None;
        }
        return Some(Command(0, Arm, wanted.mode, wanted.arm));
      }
      return None;
    }

    method Complete(serial: nat, accepted: bool, now: int)
      modifies this
      ensures State() == SessionProtocol.Complete(old(State()), serial, accepted, now)
    {
      Tick(now);
      if !IsCurrent(serial) {
        return;
      }
      if !accepted {
        Fail(RequestRefused);
        return;
      }
      acked := true;
      Settle();
    }

    method Settle()
      modifies this
      ensures State() == SessionProtocol.Settle(old(State()))
    {
      if pending.None? || !acked {
        return;
      }
      var confirmed := if pending.value.kind == Mode then fcu.mode == pending.value.mode else fcu.armed == pending.value.arm;
      if confirmed {
        pending := None;
        if !Failed() {
          error := NoError;
        }
      }
    }

    method Fail(reason: Reason)
      modifies this
      ensures State() == SessionProtocol.Fail(old(State()), reason)
    {
      if pending.None? {
        return;
      }
      var isMode := pending.value.kind == Mode;
      if isMode && pending.value.mode == wanted.mode {
        failures := failures.(mode := true);
      } else if !isMode && pending.value.arm == wanted.arm {
        failures := failures.(arm := true);
      }
      error := Error(pending.value.kind, reason);
      pending := None;
    }
  }
}
