/** The use cases as they run: load, change the aggregates, then save and publish in one unit of work. */
module Services {
  import opened Base
  import opened Messages
  import opened Associates
  import opened Assignments
  import opened UseCases
  import opened SerialRuns
  import opened Repositories

  /** The outcome of one request: what `Exec` says, or nothing at all when the call is refused or the store breaks. */
  twostate predicate Served(db: Database, k: Call, max: Time, broken: bool, new err: Option<Error>)
    reads db
  {
    var w := old(db.committed);
    && db.tx == None
    && match Finish(At(w, k.who), k.who, k.op, At(w, k.who), max, k.now)
       case Err(x) => err == Some(x) && db.committed == w
       case Ok(_) =>
         if broken then err == Some(StoreFailure) && db.committed == w
         else err == None && db.committed == Exec(max, w, k)
  }

  /** A unit of work: all saves and the publish, or nothing. */
  twostate predicate Committed(db: Database, who: string, new tx: Tx, broken: bool, new err: Option<Error>)
    reads db
  {
    var w := old(db.committed);
    && db.tx == None
    && match Commit(At(w, who), tx)
       case Err(x) => err == Some(x) && db.committed == w
       case Ok(b) =>
         if broken then err == Some(StoreFailure) && db.committed == w
         else err == None && db.committed == World(w.accounts[who := b], w.published + tx.events)
  }

  /** Every use case holds the repositories over one database; `broken` says that the publish of this call fails. */
  class Workforce {
    const db: Database
    const associates: AssociateRepo
    const assignments: AssignmentRepo
    const max: Time

    constructor (db: Database, max: Time)
      ensures this.db == db && this.max == max && Wired()
    {
      this.db, this.max := db, max;
      associates := new AssociateRepo(db);
      assignments := new AssignmentRepo(db);
    }

    predicate Wired() { associates.db == db && assignments.db == db }

    /** The unit of work of the use cases that save only the shift. */
    method SaveAndPublish(shift: AssociateShift, broken: bool) returns (err: Option<Error>)
      requires Wired() && db.tx == None
      modifies db, shift
      ensures Committed(db, shift.associate,
                        Tx(Some(ShiftRow(old(shift.Value()), old(shift.version))), None, old(shift.events)),
                        broken, err)
    {
      var joined := db.BeginOrJoin();
      err := associates.Save(shift);
      if err == None {
        var events := shift.PullEvents();
        err := db.Publish(events, broken);
      }
      if err.Some? { db.Rollback(joined); } else { db.Commit(joined); }
    }

    method StartAssociateShift(who: string, certs: set<string>, now: Time, broken: bool) returns (err: Option<Error>)
      requires Wired() && db.tx == None
      modifies db
      ensures Served(db, Call(who, Start(certs), now), max, broken, err)
    {
      var shift := new AssociateShift(who, certs, now);
      var existing := associates.FindByID(who);
      if existing.Ok? { shift.version := existing.value.version; }
      err := SaveAndPublish(shift, broken);
    }

    method CertifyAssociate(who: string, cert: string, now: Time, broken: bool) returns (err: Option<Error>)
      requires Wired() && db.tx == None
      modifies db
      ensures Served(db, Call(who, Certify(cert), now), max, broken, err)
    {
      var found := associates.FindByID(who);
      if found.Err? { return Some(found.error); }
      var refused := found.value.Certify(cert, now);
      if refused.Some? { return Some(Refused(refused.value)); }
      err := SaveAndPublish(found.value, broken);
    }

    method StartBreakOf(who: string, now: Time, broken: bool) returns (err: Option<Error>)
      requires Wired() && db.tx == None
      modifies db
      ensures Served(db, Call(who, Op.StartBreak, now), max, broken, err)
    {
      var found := associates.FindByID(who);
      if found.Err? { return Some(found.error); }
      var refused := found.value.StartBreak(now);
      if refused.Some? { return Some(Refused(refused.value)); }
      err := SaveAndPublish(found.value, broken);
    }

    method EndBreakOf(who: string, now: Time, broken: bool) returns (err: Option<Error>)
      requires Wired() && db.tx == None
      modifies db
      ensures Served(db, Call(who, Op.EndBreak, now), max, broken, err)
    {
      var found := associates.FindByID(who);
      if found.Err? { return Some(found.error); }
      var refused := found.value.EndBreak(now);
      if refused.Some? { return Some(Refused(refused.value)); }
      err := SaveAndPublish(found.value, broken);
    }

    /** The assignment of an associate, or a fresh one. */
    method LoadAssignment(who: string) returns (la: LaborAssignment)
      requires Wired()
      ensures fresh(la) && la.associate == who && la.events == []
      ensures (la.Value(), la.version) == LoadedAssignment(At(db.Current(), who))
    {
      var found := assignments.FindByAssociateID(who, db.committed);
      if found.Ok? { la := found.value; } else { la := new LaborAssignment(who); }
    }

    /** The unit of work of an assignment: the shift first, when hours were logged, then the assignment. */
    method SaveAssigned(shift: AssociateShift, shiftChanged: bool, la: LaborAssignment, broken: bool)
      returns (err: Option<Error>)
      requires Wired() && db.tx == None && shift.associate == la.associate
      modifies db, la
      ensures Committed(db, la.associate,
                        Tx(if shiftChanged then Some(ShiftRow(shift.Value(), shift.version)) else None,
                           Some((old(la.Value()), old(la.version))), old(la.events)),
                        broken, err)
    {
      var joined := db.BeginOrJoin();
      if shiftChanged { err := associates.Save(shift); } else { err := None; }
      if err == None { err := assignments.Save(la); }
      if err == None {
        var events := la.PullEvents();
        err := db.Publish(events, broken);
      }
      if err.Some? { db.Rollback(joined); } else { db.Commit(joined); }
    }

    /** The unit of work of an ending: the assignment first, when it was closed, then the shift. */
    method SaveEnded(shift: AssociateShift, la: Option<LaborAssignment>, broken: bool) returns (err: Option<Error>)
      requires Wired() && db.tx == None && (la.Some? ==> shift.associate == la.value.associate)
      requires var row := At(db.committed, shift.associate).shift; row.Some? && row.value.version == shift.version
      modifies db, shift
      ensures Committed(db, shift.associate,
                        Tx(Some(ShiftRow(old(shift.Value()), old(shift.version))),
                           if la.Some? then Some((old(la.value.Value()), old(la.value.version))) else None,
                           old(shift.events)),
                        broken, err)
    {
      var joined := db.BeginOrJoin();
      if la.Some? { err := assignments.Save(la.value); } else { err := None; }
      if err == None { err := associates.Save(shift); }
      if err == None {
        var events := shift.PullEvents();
        err := db.Publish(events, broken);
      }
      if err.Some? { db.Rollback(joined); } else { db.Commit(joined); }
    }

    method AssignLabor(who: string, path: string, now: Time, broken: bool) returns (err: Option<Error>)
      requires Wired() && db.tx == None
      modifies db
      ensures Served(db, Call(who, Assign(path), now), max, broken, err)
    {
      var found := associates.FindByID(who);
      if found.Err? { return Some(found.error); }
      var shift := found.value;
      var barred := shift.Value().CanBeAssigned();
      if barred.Some? { return Some(Refused(barred.value)); }
      var la := LoadAssignment(who);
      var priorLength := |la.history|;
      var ok := la.Assign(path, path in shift.certifications, now);
      if !ok { return Some(CertificationRequired); }
      var shiftChanged := false;
      if |la.history| > priorLength {
        var refused := shift.LogHours(Hours(la.history[|la.history| - 1], now), max);
        if refused.Some? { return Some(Refused(refused.value)); }
        shiftChanged := true;
      }
      err := SaveAssigned(shift, shiftChanged, la, broken);
    }

    method EndAssociateShift(who: string, now: Time, broken: bool) returns (err: Option<Error>)
      requires Wired() && db.tx == None
      modifies db
      ensures Served(db, Call(who, End, now), max, broken, err)
    {
      var found := associates.FindByID(who);
      if found.Err? { return Some(found.error); }
      var shift := found.value;
      var loaded := assignments.FindByAssociateID(who, db.committed);
      var assignmentChanged := false;
      if loaded.Ok? {
        var closed := loaded.value.EndActive(now);
        if closed.Some? {
          var refused := shift.LogHours(Hours(closed.value, now), max);
          if refused.Some? { return Some(Refused(refused.value)); }
          assignmentChanged := true;
        }
      }
      shift.EndShift(now);
      err := SaveEnded(shift, if assignmentChanged then Some(loaded.value) else None, broken);
    }
  }
}
