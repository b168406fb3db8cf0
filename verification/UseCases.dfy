/** The associate use cases: what each decides from what it loaded, and what its transaction then does.

    Every table involved is keyed by the associate, so an associate's rows are kept together as one `Account`. */
module UseCases {
  import opened Base
  import opened Messages
  import opened Associates
  import opened Assignments

  datatype ShiftRow = ShiftRow(shift: Shift, version: nat)

  datatype ActiveRow = ActiveRow(active: Option<Interval>, version: nat)

  /** The associate_shift row, the labor_assignment row and its history rows, stored or as read. */
  datatype Account = Account(shift: Option<ShiftRow>, row: Option<ActiveRow>, history: seq<Interval>)

  const Blank := Account(None, None, [])

  datatype Op = Start(certs: set<string>) | Certify(cert: string) | StartBreak | EndBreak | Assign(path: string) | End

  datatype Error =
    | NotFound | CertificationRequired | Refused(why: ShiftError)
    | ConcurrentModification | NullViolation | StoreFailure

  /** What a use case asks of its transaction: guarded saves, each with the version it expects, and events. */
  datatype Tx = Tx(shift: Option<ShiftRow>, assignment: Option<(Assignment, nat)>, events: seq<DomainEvent>)

  // ---- Deciding ----

  /** The assignment as loaded, or a fresh one: both come with the version their save will expect. */
  function LoadedAssignment(seen: Account): (Assignment, nat) {
    if seen.row == None then (Unassigned, 1)
    else (Assignment(seen.row.value.active, seen.history), seen.row.value.version)
  }

  /** Load, change, save, publish: the shape of the use cases that touch only the shift. */
  function Changed(r: Result<Shift, ShiftError>, version: nat, e: DomainEvent): Result<Tx, Error> {
    match r
    case Ok(s) => Ok(Tx(Some(ShiftRow(s, version)), None, [e]))
    case Err(x) => Err(Refused(x))
  }

  function DecideStart(who: string, certs: set<string>, seen: Account, now: Time): Tx {
    Tx(Some(ShiftRow(NewShift(certs), if seen.shift.Some? then seen.shift.value.version else 1)), None,
       [ShiftStarted(now, who, certs)])
  }

  function DecideAssign(who: string, path: string, seen: Account, max: Time, now: Time): Result<Tx, Error>
    requires seen.shift.Some?
  {
    var (s, v) := (seen.shift.value.shift, seen.shift.value.version);
    var (la, lv) := LoadedAssignment(seen);
    if s.CanBeAssigned().Some? then Err(Refused(s.CanBeAssigned().value))
    else if path !in s.certs then Err(CertificationRequired)
    else
      var moved, e := Moved(la, path, now), MoveEvent(la, who, path, now);
      if |moved.history| == |la.history| then Ok(Tx(None, Some((moved, lv)), [e]))
      else
        match s.LogHours(Hours(moved.history[|moved.history| - 1], now), max)
        case Err(x) => Err(Refused(x))
        case Ok(logged) => Ok(Tx(Some(ShiftRow(logged, v)), Some((moved, lv)), [e]))
  }

  function DecideEnd(who: string, seen: Account, max: Time, now: Time): Result<Tx, Error>
    requires seen.shift.Some?
  {
    var (s, v) := (seen.shift.value.shift, seen.shift.value.version);
    var (la, lv) := LoadedAssignment(seen);
    var events := if s.ended then [] else [ShiftEnded(now, who)];
    if la.active == None then Ok(Tx(Some(ShiftRow(s.EndShift(), v)), None, events))
    else
      match s.LogHours(Hours(la.active.value, now), max)
      case Err(x) => Err(Refused(x))
      case Ok(logged) => Ok(Tx(Some(ShiftRow(logged.EndShift(), v)), Some((Closed(la, now), lv)), events))
  }

  function Decide(who: string, op: Op, seen: Account, max: Time, now: Time): Result<Tx, Error> {
    if op.Start? then Ok(DecideStart(who, op.certs, seen, now))
    else if seen.shift == None then Err(NotFound)
    else
      var s, v := seen.shift.value.shift, seen.shift.value.version;
      match op
      case Certify(cert) => Changed(s.Certify(cert), v, Certified(now, who, cert))
      case StartBreak => Changed(s.StartBreak(), v, BreakStarted(now, who))
      case EndBreak => Changed(s.EndBreak(), v, BreakEnded(now, who))
      case Assign(path) => DecideAssign(who, path, seen, max, now)
      case End => DecideEnd(who, seen, max, now)
  }

  // ---- Committing ----

  predicate AllClosed(h: seq<Interval>) { forall i :: 0 <= i < |h| ==> h[i].end.Some? }

  /** The path and start columns; an active interval has no end column. */
  function Columns(active: Option<Interval>): Option<Interval> {
    if active.Some? then Some(active.value.(end := None)) else None
  }

  function SaveShift(stored: Option<ShiftRow>, asked: ShiftRow): Result<ShiftRow, Error> {
    if stored == None then Ok(asked.(version := 1))
    else if stored.value.version == asked.version then Ok(asked.(version := asked.version + 1))
    else Err(ConcurrentModification)
  }

  function SaveAssignment(a: Account, la: Assignment, version: nat): Result<Account, Error> {
    if a.row.Some? && a.row.value.version != version then Err(ConcurrentModification)
    else if !AllClosed(la.history) then Err(NullViolation)
    else
      Ok(a.(row := Some(ActiveRow(Columns(la.active), if a.row.Some? then version + 1 else 1)), history := la.history))
  }

  /** All of a transaction's saves, or none. */
  function Commit(a: Account, tx: Tx): Result<Account, Error> {
    match if tx.shift.Some? then SaveShift(a.shift, tx.shift.value) else Ok(ShiftRow(NewShift({}), 0))
    case Err(x) => Err(x)
    case Ok(row) =>
      var a' := if tx.shift.Some? then a.(shift := Some(row)) else a;
      if tx.assignment.Some? then SaveAssignment(a', tx.assignment.value.0, tx.assignment.value.1) else Ok(a')
  }

  // ---- A whole call, from what it saw to what it leaves ----

  datatype Effect = Effect(account: Account, events: seq<DomainEvent>)

  function Finish(a: Account, who: string, op: Op, seen: Account, max: Time, now: Time): Result<Effect, Error> {
    match Decide(who, op, seen, max, now)
    case Err(x) => Err(x)
    case Ok(tx) =>
      match Commit(a, tx)
      case Err(x) => Err(x)
      case Ok(a') => Ok(Effect(a', tx.events))
  }
}
