/** Which command the FCU session sends, and what a reply, a report and a timeout change, in terms of its fields. */
module SessionCommands {
  import opened Wrappers
  import opened SessionProtocol

  /** A transaction is overdue. */
  predicate Overdue(s: Session, now: int) { s.pending.Some? && now - s.sentAt >= 3000 }

  /** Safety wants the FCU disarmed now: it is armed, or one DISARM is owed anyway, and none has failed. */
  predicate Urgent(s: Session) { s.safetyDisarm && (s.armed || s.forceDisarm) && !s.armFailed }

  /** Before any timeout, a poll of a linked session with nothing pending sends: a MODE exactly if nothing is urgent, the
      mode is not the wanted one and has not failed, and the mode service is there; an ARM exactly if nothing is urgent,
      armed is wanted, not observed and has not failed, in the wanted mode, with leave to arm; a DISARM exactly if it is
      urgent, or if disarmed is wanted, not observed and has not failed and the mode is settled, failed or beyond reach;
      the last two only over the arming service. */
  lemma PollSends(s: Session, now: int, modeService: bool, armService: bool, allowArm: bool)
    requires !Overdue(s, now)
    ensures var sent := PollCommand(s, now, modeService, armService, allowArm);
            var free := s.connected && s.pending.None?;
            && (sent.Some? && sent.value.kind == Mode <==>
                  free && !Urgent(s) && s.mode != s.wantedMode && !s.modeFailed && modeService)
            && (sent.Some? && sent.value.kind == Arm && sent.value.arm <==>
                  && free && !Urgent(s) && s.wantedArm && !s.armed && !s.armFailed
                  && s.mode == s.wantedMode && allowArm && armService)
            && (sent.Some? && sent.value.kind == Arm && !sent.value.arm <==>
                  && free && armService
                  && (Urgent(s) || (&& !s.wantedArm && s.armed && !s.armFailed
                                    && (s.mode == s.wantedMode || s.modeFailed || !modeService))))
            && (sent.Some? ==> sent.value.mode == s.wantedMode && sent.value.serial == s.serial + 1)
  {
  }

  /** What a poll sends is pending from then on under the next serial, and takes care of an owed DISARM. */
  lemma SentIsPending(s: Session, now: int, modeService: bool, armService: bool, allowArm: bool)
    requires !Overdue(s, now)
    ensures var sent, n := PollCommand(s, now, modeService, armService, allowArm),
                           Poll(s, now, modeService, armService, allowArm);
            && (sent.None? ==> n == s)
            && (sent.Some? ==> && n.pending == sent && !n.acked && n.sentAt == now && n.serial == s.serial + 1
                               && n.forceDisarm == (s.forceDisarm && !Urgent(s))
                               && n.modeFailed == s.modeFailed && n.armFailed == s.armFailed)
  {
  }

  /** The failure of a command: it is latched if its target is still the wanted one, and named by its kind. */
  predicate FailedBy(s: Session, n: Session, reason: Reason)
    requires s.pending.Some?
  {
    var c := s.pending.value;
    && n.pending.None? && n.error == Error(c.kind, reason)
    && n.modeFailed == (s.modeFailed || (c.kind == Mode && c.mode == s.wantedMode))
    && n.armFailed == (s.armFailed || (c.kind == Arm && c.arm == s.wantedArm))
    && n.serial == s.serial && n.wantedMode == s.wantedMode && n.wantedArm == s.wantedArm
  }

  /** A transaction fails by its timeout exactly when it is overdue. */
  lemma TimeoutFails(s: Session, now: int)
    ensures if Overdue(s, now) then FailedBy(s, Tick(s, now), ConfirmationTimeout) else Tick(s, now) == s
  {
  }

  /** In time, a transaction fails by a refusal exactly of its own serial. An acceptance of it counts, and ends it at once
      if the FCU has already reported the target; any other reply changes nothing. */
  lemma ReplySettles(s: Session, serial: nat, accepted: bool, now: int)
    ensures var n, mine := Complete(s, serial, accepted, now), s.pending.Some? && s.pending.value.serial == serial;
            && (Overdue(s, now) ==> n == Tick(s, now))
            && (!Overdue(s, now) && !mine ==> n == s)
            && (!Overdue(s, now) && mine && !accepted ==> FailedBy(s, n, RequestRefused))
            && (!Overdue(s, now) && mine && accepted ==>
                  && n.acked && n.pending == (if Reached(s, s.pending.value) then None else s.pending)
                  && n.modeFailed == s.modeFailed && n.armFailed == s.armFailed)
  {
    TimeoutFails(s, now);
  }

  /** The FCU has reported what the command is to bring about. */
  predicate Reached(s: Session, c: Command) {
    (c.kind == Mode ==> s.mode == c.mode) && (c.kind == Arm ==> s.armed == c.arm)
  }

  /** A report is recorded as it is. It drops what is pending if the link is lost, and ends an acknowledged command it
      confirms; it forgets a failure whose target it shows; and arming against a safety demand makes one DISARM owed,
      whatever has failed before. */
  lemma ReportSettles(s: Session, connected: bool, armed: bool, mode: FcuMode)
    ensures var n, against := Observe(s, connected, armed, mode), s.safetyDisarm && armed && !s.armed;
            && n.connected == connected && n.armed == armed && n.mode == mode
            && n.pending == (if !connected || (s.pending.Some? && s.acked && Reached(n, s.pending.value)) then None
                             else s.pending)
            && n.forceDisarm == (s.forceDisarm || against)
            && n.modeFailed == (s.modeFailed && !(connected && mode == s.wantedMode))
            && n.armFailed == (s.armFailed && !against && !(connected && armed == s.wantedArm))
            && n.wantedMode == s.wantedMode && n.wantedArm == s.wantedArm && n.safetyDisarm == s.safetyDisarm
  {
  }

  /** A demand that changes anything forgets the failures; a rising safety drops what is pending and owes a DISARM; a
      repeated demand changes nothing. */
  lemma DemandRenews(s: Session, mode: FcuMode, arm: bool, safety: bool)
    ensures var n, rises := Demand(s, mode, arm, safety), safety && !s.safetyDisarm;
            if s.wantedMode == mode && s.wantedArm == arm && s.safetyDisarm == safety then n == s
            else
              && n.wantedMode == mode && n.wantedArm == arm && n.safetyDisarm == safety
              && !n.modeFailed && !n.armFailed && n.error == NoError
              && n.pending == (if rises then None else s.pending) && n.forceDisarm == (s.forceDisarm || rises)
              && n.mode == s.mode && n.armed == s.armed && n.connected == s.connected
  {
  }
}
