/** When each use case succeeds, what exactly it leaves behind and publishes, and which error it gives otherwise, said
    of stored rows and without the functions that decide. */
module CallRules {
  import opened Base
  import opened Messages
  import opened Associates
  import opened Assignments
  import opened UseCases
  import opened SerialRuns

  /** A row written over the stored one. */
  function Rewritten(a: Account, s: Shift): Account
    requires a.shift.Some?
  {
    a.(shift := Some(ShiftRow(s, a.shift.value.version + 1)))
  }

  /** The call succeeds, leaving `b` and publishing `es`. */
  predicate Leaves(r: Result<Effect, Error>, b: Account, es: seq<DomainEvent>) { r == Ok(Effect(b, es)) }

  /** Starting always succeeds: a new row, or a fresh shift over the stored one, whatever it was. */
  lemma StartRule(a: Account, who: string, certs: set<string>, max: Time, now: Time)
    ensures Leaves(Finish(a, who, Start(certs), a, max, now),
                   a.(shift := Some(ShiftRow(Shift(certs, false, 0, false),
                                             if a.shift == None then 1 else a.shift.value.version + 1))),
                   [ShiftStarted(now, who, certs)])
  {
  }

  /** Every other call needs a shift. */
  lemma NotFoundRule(a: Account, who: string, op: Op, max: Time, now: Time)
    requires a.shift == None && !op.Start?
    ensures Finish(a, who, op, a, max, now) == Err(NotFound)
  {
  }

  /** A certification is refused after the end, and added otherwise. */
  lemma CertifyRule(a: Account, who: string, cert: string, max: Time, now: Time)
    requires a.shift.Some?
    ensures var s, r := a.shift.value.shift, Finish(a, who, Certify(cert), a, max, now);
            if s.ended then r == Err(Refused(ShiftOver))
            else
              Leaves(r, Rewritten(a, Shift(s.certs + {cert}, s.onBreak, s.hours, false)), [Certified(now, who, cert)])
  {
  }

  /** A break starts on a shift that has neither ended nor a break going on. */
  lemma StartBreakRule(a: Account, who: string, max: Time, now: Time)
    requires a.shift.Some?
    ensures var s, r := a.shift.value.shift, Finish(a, who, StartBreak, a, max, now);
            if s.ended then r == Err(Refused(ShiftOver))
            else if s.onBreak then r == Err(Refused(AlreadyOnBreak))
            else Leaves(r, Rewritten(a, Shift(s.certs, true, s.hours, false)), [BreakStarted(now, who)])
  {
  }

  /** A break ends on a shift that has not ended and has one going on. */
  lemma EndBreakRule(a: Account, who: string, max: Time, now: Time)
    requires a.shift.Some?
    ensures var s, r := a.shift.value.shift, Finish(a, who, EndBreak, a, max, now);
            if s.ended then r == Err(Refused(ShiftOver))
            else if !s.onBreak then r == Err(Refused(NotOnBreak))
            else Leaves(r, Rewritten(a, Shift(s.certs, false, s.hours, false)), [BreakEnded(now, who)])
  {
  }

  /** The assignment row with `active` on it, and one closed interval more in the history. */
  function Reassigned(a: Account, active: Option<Interval>, closed: Interval): Account
    requires a.row.Some?
  {
    a.(row := Some(ActiveRow(active, a.row.value.version + 1)), history := a.history + [closed])
  }

  predicate Active(a: Account) { a.row.Some? && a.row.value.active.Some? }

  /** The interval that is active would, with its time up to now, exceed the maximum. */
  predicate TooLong(a: Account, max: Time, now: Time)
    requires a.shift.Some? && Active(a)
  {
    a.shift.value.shift.hours + (now - a.row.value.active.value.start) > max
  }

  /** Ending succeeds unless the active interval exceeds the maximum: it closes that interval now and logs its time. */
  lemma EndRule(a: Account, who: string, max: Time, now: Time)
    requires Tidy(a) && a.shift.Some?
    ensures var s, r := a.shift.value.shift, Finish(a, who, End, a, max, now);
            var es := if s.ended then [] else [ShiftEnded(now, who)];
            if !Active(a) then Leaves(r, Rewritten(a, Shift(s.certs, s.onBreak, s.hours, true)), es)
            else if TooLong(a, max, now) then r == Err(Refused(MaxHoursExceeded))
            else
              var i := a.row.value.active.value;
              Leaves(r, Reassigned(Rewritten(a, Shift(s.certs, s.onBreak, s.hours + (now - i.start), true)),
                                   None, Interval(i.path, i.start, Some(now))), es)
  {
  }

  /** An assignment is refused after the end, on a break, without the certification, and when it would close an interval
      that exceeds the maximum, in this order; otherwise the active interval, if any, is closed now and its time logged,
      the new one starts now, and the event says which of the two it was. */
  lemma AssignRule(a: Account, who: string, path: string, max: Time, now: Time)
    requires Tidy(a) && a.shift.Some?
    ensures var s, r := a.shift.value.shift, Finish(a, who, Assign(path), a, max, now);
            var next := Some(Interval(path, now, None));
            if s.ended then r == Err(Refused(ShiftOver))
            else if s.onBreak then r == Err(Refused(OnBreak))
            else if path !in s.certs then r == Err(CertificationRequired)
            else if !Active(a) then
              Leaves(r, a.(row := Some(ActiveRow(next, if a.row == None then 1 else a.row.value.version + 1))),
                     [LaborAssigned(now, who, path)])
            else if TooLong(a, max, now) then r == Err(Refused(MaxHoursExceeded))
            else
              var i := a.row.value.active.value;
              Leaves(r, Reassigned(Rewritten(a, s.(hours := s.hours + (now - i.start))), next,
                                   Interval(i.path, i.start, Some(now))),
                     [LaborReassigned(now, who, i.path, path)])
  {
  }

  // ---- Guarded saves ----

  /** A shift is inserted at version 1, replaces the version it was loaded at, or conflicts. */
  lemma ShiftSaveRule(stored: Option<ShiftRow>, asked: ShiftRow)
    ensures SaveShift(stored, asked) ==
              if stored == None then Ok(ShiftRow(asked.shift, 1))
              else if stored.value.version != asked.version then Err(ConcurrentModification)
              else Ok(ShiftRow(asked.shift, stored.value.version + 1))
  {
  }

  /** So does an assignment, with its whole history; an interval in the history that is still open is refused. */
  lemma AssignmentSaveRule(a: Account, la: Assignment, version: nat)
    requires la.active.Some? ==> la.active.value.end == None
    ensures SaveAssignment(a, la, version) ==
              if a.row.Some? && a.row.value.version != version then Err(ConcurrentModification)
              else if exists i :: 0 <= i < |la.history| && la.history[i].end == None then Err(NullViolation)
              else
                Ok(Account(a.shift, Some(ActiveRow(la.active, if a.row == None then 1 else a.row.value.version + 1)),
                           la.history))
  {
  }
}
