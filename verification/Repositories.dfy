/** The tables behind a transaction that can be joined, and the two repositories over them. */
module Repositories {
  import opened Base
  import opened Messages
  import opened Associates
  import opened Assignments
  import opened UseCases
  import opened SerialRuns
  import Concurrency

  function Put(w: World, who: string, a: Account): World { w.(accounts := w.accounts[who := a]) }

  /** The committed tables, and the view of the transaction that is open, if one is. */
  class Database {
    var committed: World
    var tx: Option<World>

    constructor ()
      ensures committed == Init && tx == None
    {
      committed, tx := Init, None;
    }

    /** What a statement sees: the open transaction if there is one, the committed tables otherwise. */
    function Current(): World
      reads this
    {
      if tx.Some? then tx.value else committed
    }

    method Write(w: World)
      modifies this
      ensures Current() == w && tx.Some? == old(tx.Some?)
      ensures tx.Some? ==> committed == old(committed)
    {
      if tx.Some? { tx := Some(w); } else { committed := w; }
    }

    /** Opens a transaction, or joins the one that is open. */
    method BeginOrJoin() returns (joined: bool)
      modifies `tx
      ensures joined == old(tx).Some? && tx == Some(old(Current()))
    {
      joined := tx.Some?;
      if !joined { tx := Some(committed); }
    }

    /** Only the one who opened the transaction commits it. */
    method Commit(joined: bool)
      requires tx.Some?
      modifies this
      ensures if joined then committed == old(committed) && tx == old(tx)
              else committed == old(tx.value) && tx == None
    {
      if !joined { committed, tx := tx.value, None; }
    }

    method Rollback(joined: bool)
      requires tx.Some?
      modifies `tx
      ensures tx == if joined then old(tx) else None
    {
      if !joined { tx := None; }
    }

    /** The outbox insert of a publish, which may fail. */
    method Publish(events: seq<DomainEvent>, fails: bool) returns (err: Option<Error>)
      modifies this
      ensures tx.Some? == old(tx.Some?) && (tx.Some? ==> committed == old(committed))
      ensures fails ==> err == Some(StoreFailure) && Current() == old(Current())
      ensures !fails ==> err == None && Current() == old(Current()).(published := old(Current()).published + events)
    {
      if fails { return Some(StoreFailure); }
      Write(Current().(published := Current().published + events));
      return None;
    }
  }

  class AssociateRepo {
    const db: Database

    constructor (db: Database)
      ensures this.db == db
    {
      this.db := db;
    }

    /** Insert at version 1, or update under the version the aggregate was loaded at. */
    method Save(a: AssociateShift) returns (err: Option<Error>)
      modifies db
      ensures db.tx.Some? == old(db.tx.Some?) && (db.tx.Some? ==> db.committed == old(db.committed))
      ensures var w := old(db.Current()); var stored := At(w, a.associate);
              match SaveShift(stored.shift, ShiftRow(a.Value(), a.version))
              case Ok(row) => err == None && db.Current() == Put(w, a.associate, stored.(shift := Some(row)))
              case Err(x) => err == Some(x) && db.Current() == w
    {
      var w := db.Current();
      var stored := At(w, a.associate);
      var rowsAffected := 1;
      if stored.shift == None {
        db.Write(Put(w, a.associate, stored.(shift := Some(ShiftRow(a.Value(), 1)))));
      } else if stored.shift.value.version == a.version {
        db.Write(Put(w, a.associate, stored.(shift := Some(ShiftRow(a.Value(), stored.shift.value.version + 1)))));
      } else {
        rowsAffected := 0;
      }
      return if rowsAffected == 0 then Some(ConcurrentModification) else None;
    }

    method FindByID(who: string) returns (r: Result<AssociateShift, Error>)
      ensures r.Err? <==> At(db.Current(), who).shift == None
      ensures r.Err? ==> r.error == NotFound
      ensures r.Ok? ==> fresh(r.value) && r.value.associate == who && r.value.events == []
                        && Some(ShiftRow(r.value.Value(), r.value.version)) == At(db.Current(), who).shift
    {
      var row := At(db.Current(), who).shift;
      if row == None { return Err(NotFound); }
      var a := new AssociateShift.Rehydrate(who, row.value.shift, row.value.version);
      return Ok(a);
    }
  }

  /** The associates whose active assignment is on the given path. */
  function ActiveOn(accounts: map<string, Account>, path: string): set<string> {
    set who | who in accounts && Concurrency.HasActive(accounts[who])
              && accounts[who].row.value.active.value.path == path
  }

  class AssignmentRepo {
    const db: Database

    constructor (db: Database)
      ensures this.db == db
    {
      this.db := db;
    }

    /** Guarded upsert, then the history deleted and inserted again row by row, all in one transaction.  On its own a
        failed save leaves nothing behind; inside a unit of work that is up to the rollback of the unit. */
    method Save(la: LaborAssignment) returns (err: Option<Error>)
      modifies db
      ensures db.tx.Some? == old(db.tx.Some?)
      ensures old(db.tx.Some?) || err.Some? ==> db.committed == old(db.committed)
      ensures match SaveAssignment(At(old(db.Current()), la.associate), la.Value(), la.version)
              case Ok(a) => err == None && db.Current() == Put(old(db.Current()), la.associate, a)
              case Err(x) => err == Some(x)
    {
      var joined := db.BeginOrJoin();
      var w := db.Current();
      var stored := At(w, la.associate);
      if stored.row.Some? && stored.row.value.version != la.version {
        db.Rollback(joined);
        return Some(ConcurrentModification);
      }
      var version := if stored.row.Some? then stored.row.value.version + 1 else 1;
      var a := Account(stored.shift, Some(ActiveRow(Columns(la.active), version)), []);
      db.Write(Put(w, la.associate, a));
      for n := 0 to |la.history|
        invariant db.tx == Some(Put(w, la.associate, a.(history := la.history[..n])))
        invariant db.committed == old(db.committed) && AllClosed(la.history[..n])
      {
        if la.history[n].end == None {
          db.Rollback(joined);
          return Some(NullViolation);
        }
        var row := At(db.Current(), la.associate);
        db.Write(Put(db.Current(), la.associate, row.(history := row.history + [la.history[n]])));
        assert la.history[..n + 1] == la.history[..n] + [la.history[n]];
        assert db.Current().accounts == Put(w, la.associate, a.(history := la.history[..n + 1])).accounts;
      }
      assert la.history[..|la.history|] == la.history;
      db.Commit(joined);
      return None;
    }

    /** What a second query sees: the open transaction's view, or what others have committed meanwhile. */
    function Later(between: World): World
      reads db
    {
      if db.tx.Some? then db.Current() else between
    }

    /** Two queries: the row, then its history, in between which others may have left `between` committed. */
    method FindByAssociateID(who: string, between: World) returns (r: Result<LaborAssignment, Error>)
      ensures r.Err? <==> At(db.Current(), who).row == None
      ensures r.Err? ==> r.error == NotFound
      ensures r.Ok? ==> fresh(r.value) && r.value.associate == who && r.value.events == []
                        && At(db.Current(), who).row == Some(ActiveRow(r.value.active, r.value.version))
                        && r.value.history == At(Later(between), who).history
    {
      var row := At(db.Current(), who).row;
      if row == None { return Err(NotFound); }
      var stored := At(Later(between), who).history;
      var history: seq<Interval> := [];
      for n := 0 to |stored|
        invariant history == stored[..n]
      {
        history := history + [stored[n]];
      }
      assert stored[..|stored|] == stored;
      var la := new LaborAssignment.Rehydrate(who, row.value.active, history, row.value.version);
      return Ok(la);
    }

    method CountActiveByPath(path: string) returns (count: nat)
      ensures count == |ActiveOn(db.Current().accounts, path)|
    {
      var accounts := db.Current().accounts;
      var ids := accounts.Keys;
      ghost var found := ActiveOn(accounts, path);
      count := 0;
      assert found * ids == found;
      while ids != {}
        invariant ids <= accounts.Keys && count + |found * ids| == |found|
        decreases |ids|
      {
        var who :| who in ids;
        if Concurrency.HasActive(accounts[who]) && accounts[who].row.value.active.value.path == path {
          assert found * ids == found * (ids - {who}) + {who};
          count := count + 1;
        } else {
          assert found * ids == found * (ids - {who});
        }
        ids := ids - {who};
      }
    }
  }

  // ---- Headcounts ----

  function Headcount(accounts: map<string, Account>, paths: seq<string>): nat {
    if paths == [] then 0 else Headcount(accounts, paths[..|paths| - 1]) + |ActiveOn(accounts, paths[|paths| - 1])|
  }

  function ActiveAnywhere(accounts: map<string, Account>): set<string> {
    set who | who in accounts && Concurrency.HasActive(accounts[who])
  }

  function ActiveWithin(accounts: map<string, Account>, paths: seq<string>): set<string> {
    set who | who in ActiveAnywhere(accounts) && accounts[who].row.value.active.value.path in paths
  }

  lemma {:induction false} HeadcountWithin(accounts: map<string, Account>, paths: seq<string>)
    requires Distinct(paths)
    ensures Headcount(accounts, paths) == |ActiveWithin(accounts, paths)|
  {
    if paths == [] {
      assert ActiveWithin(accounts, paths) == {};
    } else {
      var front, last := paths[..|paths| - 1], paths[|paths| - 1];
      HeadcountWithin(accounts, front);
      assert paths == front + [last];
      assert ActiveWithin(accounts, paths) == ActiveWithin(accounts, front) + ActiveOn(accounts, last);
      assert ActiveWithin(accounts, front) !! ActiveOn(accounts, last);
    }
  }

  /** Summed over any list of paths that names every path in use once, the counts make up the active associates. */
  lemma HeadcountsAddUp(accounts: map<string, Account>, paths: seq<string>)
    requires Distinct(paths)
    requires forall who :: who in ActiveAnywhere(accounts) ==> accounts[who].row.value.active.value.path in paths
    ensures Headcount(accounts, paths) == |ActiveAnywhere(accounts)|
  {
    HeadcountWithin(accounts, paths);
    assert ActiveWithin(accounts, paths) == ActiveAnywhere(accounts);
  }
}
