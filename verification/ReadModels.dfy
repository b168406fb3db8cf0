/** The two stores of the rollup, one in memory and one transactional, and why they stay in step. */
module ReadModels {
  import opened Base
  import opened Projection
  import opened BreakAccounting

  datatype ReportRow = ReportRow(
    key: RowKey, shiftsStarted: int, shiftsEnded: int, breaks: int, averageSeconds: real,
    certifications: int, assignments: int, reassignments: int, understaffed: int)

  function Shown(k: RowKey, a: Acc): ReportRow {
    ReportRow(k, a.shiftsStarted, a.shiftsEnded, a.breaks, AverageSeconds(a),
              a.certifications, a.assignments, a.reassignments, a.understaffed)
  }

  datatype Query = Query(from: Time, to: Time, path: string)

  /** `from` is inclusive, `to` exclusive, and the empty path filters nothing. */
  predicate Selected(q: Query, k: RowKey) {
    q.from <= k.bucket < q.to && (q.path == "" || k.path == q.path)
  }

  /** The report of a query: one row per selected key. */
  function Report(rows: map<RowKey, Acc>, q: Query): set<ReportRow> {
    set k | k in rows && Selected(q, k) :: Shown(k, rows[k])
  }

  /** A line of the report: the key lies in the window and on the path asked for, and every column shows its own counter
      of that key's row. */
  predicate IsLine(rows: map<RowKey, Acc>, q: Query, r: ReportRow) {
    && r.key in rows && q.from <= r.key.bucket && r.key.bucket < q.to && (q.path == "" || r.key.path == q.path)
    && var a := rows[r.key];
       && r.shiftsStarted == a.shiftsStarted && r.shiftsEnded == a.shiftsEnded && r.breaks == a.breaks
       && IsMean(r.averageSeconds, a.breakNanos, a.breaksWithDuration)
       && r.certifications == a.certifications && r.assignments == a.assignments
       && r.reassignments == a.reassignments && r.understaffed == a.understaffed
  }

  lemma ReportLines(rows: map<RowKey, Acc>, q: Query, r: ReportRow)
    ensures r in Report(rows, q) <==> IsLine(rows, q, r)
  {
    if r.key in rows { MeanIs(r.averageSeconds, rows[r.key].breakNanos, rows[r.key].breaksWithDuration); }
    if IsLine(rows, q, r) { assert r == Shown(r.key, rows[r.key]); }
  }

  /** The in-memory store. */
  class MemoryStore {
    var seen: set<string>
    var rows: map<RowKey, Acc>
    var breaks: map<string, Time>
    var latest: Time

    constructor ()
      ensures Contents() == Empty
    {
      seen, rows, breaks, latest := {}, map[], map[], 0;
    }

    function Contents(): Store
      reads this
    {
      Store(seen, rows, breaks, latest)
    }

    /** Mark the event seen and advance the watermark, unless it is a duplicate. */
    method FirstApply(id: string, at: Time) returns (first: bool)
      modifies `seen, `latest
      ensures first <==> id !in old(seen)
      ensures first ==> seen == old(seen) + {id} && latest == Later(old(latest), at)
      ensures !first ==> Contents() == old(Contents())
    {
      if id in seen { return false; }
      seen := seen + {id};
      if at > latest { latest := at; }
      return true;
    }

    /** The six counter-only events. */
    method ApplyCounter(e: Event)
      requires !IsBreak(e)
      modifies this
      ensures Contents() == Apply(old(Contents()), e)
    {
      var first := FirstApply(e.id, e.at);
      if !first { return; }
      var k := RowOf(e);
      var r := if k in rows then rows[k] else Zero;
      match e.kind {
        case ShiftStart => r := r.(shiftsStarted := r.shiftsStarted + 1);
        case ShiftEnd => r := r.(shiftsEnded := r.shiftsEnded + 1);
        case Certification => r := r.(certifications := r.certifications + 1);
        case Assignment => r := r.(assignments := r.assignments + 1);
        case Reassignment => r := r.(reassignments := r.reassignments + 1);
        case Understaffing => r := r.(understaffed := r.understaffed + 1);
      }
      rows := rows[k := r];
    }

    method ApplyBreakStarted(id: string, associate: string, at: Time)
      modifies this
      ensures Contents() == Apply(old(Contents()), Event(id, BreakStart, associate, at))
    {
      var first := FirstApply(id, at);
      if !first { return; }
      var k := RowKey("", Bucket(at));
      var r := if k in rows then rows[k] else Zero;
      rows := rows[k := r.(breaks := r.breaks + 1)];
      breaks := breaks[associate := at];
    }

    method ApplyBreakEnded(id: string, associate: string, at: Time)
      modifies this
      ensures Contents() == Apply(old(Contents()), Event(id, BreakEnd, associate, at))
    {
      var first := FirstApply(id, at);
      if !first { return; }
      if associate in breaks {
        var started := breaks[associate];
        var k := RowKey("", Bucket(started));
        var r := if k in rows then rows[k] else Zero;
        rows := rows[k := r.(breakNanos := r.breakNanos + (at - started),
                             breaksWithDuration := r.breaksWithDuration + 1)];
        breaks := breaks - {associate};
      } else {
        assert breaks - {associate} == breaks;
      }
    }

    /** One row per selected key, in no particular order. */
    method Query(q: Query) returns (out: seq<ReportRow>)
      ensures (set r | r in out) == Report(rows, q)
      ensures forall r :: r in out <==> IsLine(rows, q, r)
      ensures forall i, j :: 0 <= i < j < |out| ==> out[i].key != out[j].key
    {
      out := [];
      var left := rows.Keys;
      while left != {}
        invariant left <= rows.Keys
        invariant forall r :: r in out <==>
                    exists k :: k in rows && k !in left && Selected(q, k) && r == Shown(k, rows[k])
        invariant forall r :: r in out ==> r.key !in left
        invariant forall i, j :: 0 <= i < j < |out| ==> out[i].key != out[j].key
        decreases left
      {
        var k :| k in left;
        left := left - {k};
        if Selected(q, k) {
          assert forall i :: 0 <= i < |out| ==> out[i] in out;
          out := out + [Shown(k, rows[k])];
        }
      }
      forall r ensures r in out <==> IsLine(rows, q, r) { ReportLines(rows, q, r); }
    }
  }

  // ---- The transactional store ----

  /** The tables of the analytical database: claimed event ids with their time, rollup, pending breaks. */
  datatype Tables = Tables(processed: map<string, Time>, rollup: map<RowKey, Acc>, pending: map<string, Time>)

  /** How an attempt ends: committed, committed though the caller saw an error, or rolled back. */
  datatype Outcome = Landed | LandedUnreported | RolledBack

  /** The committed effect of one event: claim the id, then add a delta to one rollup row. */
  function PgApply(t: Tables, e: Event): Tables {
    if e.id in t.processed then t
    else Tables(t.processed[e.id := e.at], AddGain(t.rollup, Gain(t.pending, e)), NextBreaks(t.pending, e))
  }

  /** Postgres implementation of the projection; every call is one transaction. */
  class PostgresProjection {
    var processed: map<string, Time>
    var rollup: map<RowKey, Acc>
    var pending: map<string, Time>

    constructor ()
      ensures Contents() == Tables(map[], map[], map[])
    {
      processed, rollup, pending := map[], map[], map[];
    }

    function Contents(): Tables
      reads this
    {
      Tables(processed, rollup, pending)
    }

    /** Additive upsert of one rollup row, on the transaction's copy. */
    method UpsertRollup(rows: map<RowKey, Acc>, path: string, at: Time, delta: Acc) returns (r: map<RowKey, Acc>)
      ensures r == Bump(rows, RowKey(path, Bucket(at)), delta)
    {
      var k := RowKey(path, Bucket(at));
      if k in rows { r := rows[k := Add(rows[k], delta)]; }
      else {
        r := rows[k := delta];
        assert Add(Zero, delta) == delta;
      }
    }

    method Commit(t: Tables, outcome: Outcome)
      modifies this
      ensures Contents() == if outcome == RolledBack then old(Contents()) else t
    {
      if outcome != RolledBack { processed, rollup, pending := t.processed, t.rollup, t.pending; }
    }

    /** The six counter-only events: claim, then upsert. */
    method ApplyRollup(e: Event, outcome: Outcome)
      requires !IsBreak(e)
      modifies this
      ensures Contents() == if outcome == RolledBack then old(Contents()) else PgApply(old(Contents()), e)
    {
      if e.id in processed { return; }
      var rows := UpsertRollup(rollup, RowOf(e).path, e.at, Delta(e.kind));
      Commit(Tables(processed[e.id := e.at], rows, pending), outcome);
    }

    method ApplyBreakStarted(id: string, associate: string, at: Time, outcome: Outcome)
      modifies this
      ensures Contents() == if outcome == RolledBack then old(Contents())
                            else PgApply(old(Contents()), Event(id, BreakStart, associate, at))
    {
      if id in processed { return; }
      var rows := UpsertRollup(rollup, "", at, Zero.(breaks := 1));
      Commit(Tables(processed[id := at], rows, pending[associate := at]), outcome);
    }

    method ApplyBreakEnded(id: string, associate: string, at: Time, outcome: Outcome)
      modifies this
      ensures Contents() == if outcome == RolledBack then old(Contents())
                            else PgApply(old(Contents()), Event(id, BreakEnd, associate, at))
    {
      if id in processed { return; }
      if associate !in pending {
        assert pending - {associate} == pending;
        Commit(Tables(processed[id := at], rollup, pending), outcome);
        return;
      }
      var started := pending[associate];
      var rows := UpsertRollup(rollup, "", started, Zero.(breakNanos := at - started, breaksWithDuration := 1));
      Commit(Tables(processed[id := at], rows, pending - {associate}), outcome);
    }
  }

  /** One call and the outcomes of its attempts. */
  datatype Call = Call(event: Event, attempts: seq<Outcome>)

  function PgCall(t: Tables, c: Call): Tables
    decreases |c.attempts|
  {
    if c.attempts == [] then t
    else PgCall(if c.attempts[0] == RolledBack then t else PgApply(t, c.event), c.(attempts := c.attempts[1..]))
  }

  function PgRun(t: Tables, cs: seq<Call>): Tables
    decreases |cs|
  {
    if cs == [] then t else PgRun(PgCall(t, cs[0]), cs[1..])
  }

  /** A call is retried until an attempt lands. */
  predicate Lands(c: Call) { Landed in c.attempts || LandedUnreported in c.attempts }

  function Events(cs: seq<Call>): seq<Event> { Map(cs, (c: Call) => c.event) }

  /** Same rows, pending breaks and applied ids, and the watermark is the latest claimed time. */
  ghost predicate InStep(t: Tables, s: Store) {
    && t.rollup == s.rows && t.pending == s.breaks && t.processed.Keys == s.seen
    && (forall id :: id in t.processed ==> t.processed[id] <= s.latest)
    && (s.latest != 0 ==> exists id :: id in t.processed && t.processed[id] == s.latest)
    && 0 <= s.latest
  }

  lemma PgApplyInStep(t: Tables, s: Store, e: Event)
    requires InStep(t, s)
    ensures InStep(PgApply(t, e), Apply(s, e))
  {
    var t', s' := PgApply(t, e), Apply(s, e);
    if e.id !in s.seen {
      assert t'.processed.Keys == t.processed.Keys + {e.id};
      assert forall id :: id in t.processed ==> t'.processed[id] == t.processed[id];
      if s'.latest != 0 && s'.latest != s.latest { assert t'.processed[e.id] == s'.latest; }
    }
  }

  /** Repeating an event changes nothing, however many attempts landed. */
  lemma {:induction false} RetriesAreIdempotent(t: Tables, c: Call)
    ensures PgCall(t, c) == if Lands(c) then PgApply(t, c.event) else t
    decreases |c.attempts|
  {
    if c.attempts != [] {
      var rest := c.(attempts := c.attempts[1..]);
      RetriesAreIdempotent(if c.attempts[0] == RolledBack then t else PgApply(t, c.event), rest);
      assert Lands(c) <==> c.attempts[0] != RolledBack || Lands(rest) by {
        assert c.attempts == [c.attempts[0]] + rest.attempts;
      }
    }
  }

  /** For every sequence of calls with duplicates and rolled-back attempts that are retried, the two stores agree. */
  lemma {:induction false} StoresStayInStep(t: Tables, s: Store, cs: seq<Call>)
    requires InStep(t, s) && forall c :: c in cs ==> Lands(c)
    ensures InStep(PgRun(t, cs), Fold(s, Events(cs)))
    decreases |cs|
  {
    if cs != [] {
      var c := cs[0];
      RetriesAreIdempotent(t, c);
      PgApplyInStep(t, s, c.event);
      StoresStayInStep(PgCall(t, c), Apply(s, c.event), cs[1..]);
      assert Events(cs)[1..] == Events(cs[1..]);
    }
  }

  /** So every query window agrees. */
  lemma ReportsAgree(cs: seq<Call>, q: Query)
    requires forall c :: c in cs ==> Lands(c)
    ensures Report(PgRun(Tables(map[], map[], map[]), cs).rollup, q) == Report(Fold(Empty, Events(cs)).rows, q)
  {
    StoresStayInStep(Tables(map[], map[], map[]), Empty, cs);
  }
}
