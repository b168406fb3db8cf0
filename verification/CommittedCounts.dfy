/** End to end in numbers: every counter of the rollup is a number of committed domain events. */
module CommittedCounts {
  import opened Base
  import opened Messages
  import opened Encoders
  import opened Projection
  import opened HourlyCounts
  import opened EndToEnd
  import Outbox
  import OutboxOrder

  /** The domain events of kind `c` that concern path `p` in hour `b`; a reassignment concerns the path it leads to. */
  predicate Concerns(e: DomainEvent, c: Kind, p: string, b: Time) {
    InHour(e.at, b)
    && match c
       case ShiftStart => e.ShiftStarted? && p == ""
       case ShiftEnd => e.ShiftEnded? && p == ""
       case BreakStart => e.BreakStarted? && p == ""
       case BreakEnd => e.BreakEnded? && p == ""
       case Certification => e.Certified? && p == ""
       case Assignment => e.LaborAssigned? && e.path == p
       case Reassignment => e.LaborReassigned? && e.toPath == p
       case Understaffing => e.PathUnderstaffed? && e.path == p
  }

  /** The row carries the fact of such an event. */
  ghost predicate Tells(t: map<nat, Outbox.Row>, id: nat, c: Kind, p: string, b: Time) {
    id in t && t[id].msg.topic == Analytics && exists e :: t[id].msg.body == FactOf(e) && Concerns(e, c, p, b)
  }

  ghost function Telling(t: map<nat, Outbox.Row>, ids: seq<nat>, c: Kind, p: string, b: Time): set<nat> {
    set id | id in ids && Tells(t, id, c, p, b)
  }

  /** The domain event behind a fact, the certifications of a start aside. */
  function Source(at: Time, d: Data): DomainEvent {
    match d
    case StartedData(a) => ShiftStarted(at, a, {})
    case EndedData(a) => ShiftEnded(at, a)
    case BreakStartedData(a) => BreakStarted(at, a)
    case BreakEndedData(a) => BreakEnded(at, a)
    case CertifiedData(a, cert) => Certified(at, a, cert)
    case AssignedData(a, path) => LaborAssigned(at, a, path)
    case ReassignedData(a, fromPath, toPath) => LaborReassigned(at, a, fromPath, toPath)
    case UnderstaffedData(path, planned, active) => PathUnderstaffed(at, path, planned, active)
    case ProposedData(building, path, heads, rate) => ShiftPlanProposed(at, building, path, heads, rate)
    case CommittedData(building, shift) => ShiftPlanCommitted(at, building, shift)
  }

  lemma SourceIsSource(at: Time, d: Data)
    ensures FactOf(Source(at, d)) == Fact(at, d)
  {
  }

  /** Facts of one body concern the same. */
  lemma SameFactSameConcern(e: DomainEvent, f: DomainEvent, c: Kind, p: string, b: Time)
    requires FactOf(e) == FactOf(f)
    ensures Concerns(e, c, p, b) <==> Concerns(f, c, p, b)
  {
  }

  lemma SourceBelongs(m: Message, c: Kind, p: string, b: Time)
    requires m.body.Fact?
    ensures Concerns(Source(m.body.at, m.body.data), c, p, b)
            <==> Decode(m).Projecting? && Belongs(Decode(m).event, c, p, b)
  {
  }

  /** A row tells of such an event exactly when the event it projects belongs there. */
  lemma TellsBelongs(t: map<nat, Outbox.Row>, id: nat, c: Kind, p: string, b: Time)
    ensures Tells(t, id, c, p, b) <==> ProjectingRow(t, id) && Belongs(RowEvent(t, id), c, p, b)
  {
    if id in t && t[id].msg.body.Fact? {
      var m := t[id].msg;
      var e := Source(m.body.at, m.body.data);
      SourceIsSource(m.body.at, m.body.data);
      SourceBelongs(m, c, p, b);
      forall f | m.body == FactOf(f) ensures Concerns(f, c, p, b) <==> Concerns(e, c, p, b) {
        SameFactSameConcern(e, f, c, p, b);
      }
    }
  }

  lemma TellingSnoc(t: map<nat, Outbox.Row>, front: seq<nat>, last: nat, c: Kind, p: string, b: Time)
    requires last !in front
    ensures |Telling(t, front + [last], c, p, b)|
            == |Telling(t, front, c, p, b)| + if Tells(t, last, c, p, b) then 1 else 0
  {
    var was, now := Telling(t, front, c, p, b), Telling(t, front + [last], c, p, b);
    assert last !in was;
    if Tells(t, last, c, p, b) { assert now == was + {last}; } else { assert now == was; }
  }

  lemma CountSnoc(es: seq<Event>, e: Event, c: Kind, p: string, b: Time)
    ensures Count(es + [e], c, p, b) == Count(es, c, p, b) + if Belongs(e, c, p, b) then 1 else 0
  {
    assert (es + [e])[..|es|] == es;
  }

  lemma EventsSnoc(t: map<nat, Outbox.Row>, front: seq<nat>, last: nat)
    requires forall id :: id in front + [last] ==> ProjectingRow(t, id)
    ensures EventsOf(t, front + [last]) == EventsOf(t, front) + [RowEvent(t, last)]
  {
    assert last in front + [last] && forall id :: id in front ==> id in front + [last];
  }

  /** Counting the events of rows is counting rows. */
  lemma {:induction false} CountIsRows(t: map<nat, Outbox.Row>, ids: seq<nat>, c: Kind, p: string, b: Time)
    requires Increasing(ids) && forall id :: id in ids ==> ProjectingRow(t, id)
    ensures Count(EventsOf(t, ids), c, p, b) == |Telling(t, ids, c, p, b)|
  {
    if ids != [] {
      var front, last := ids[..|ids| - 1], ids[|ids| - 1];
      assert ids == front + [last];
      assert last in ids && last !in front;
      CountIsRows(t, front, c, p, b);
      EventsSnoc(t, front, last);
      CountSnoc(EventsOf(t, front), RowEvent(t, last), c, p, b);
      TellsBelongs(t, last, c, p, b);
      TellingSnoc(t, front, last, c, p, b);
    }
  }

  /** The committed rows that tell of such events. */
  ghost function CommittedRows(t: map<nat, Outbox.Row>, c: Kind, p: string, b: Time): set<nat> {
    set id | id in t && Tells(t, id, c, p, b)
  }

  lemma TellingAll(t: map<nat, Outbox.Row>, rows: seq<nat>, c: Kind, p: string, b: Time)
    requires forall id :: id in rows <==> ProjectingRow(t, id)
    ensures Telling(t, rows, c, p, b) == CommittedRows(t, c, p, b)
  {
    forall id ensures Tells(t, id, c, p, b) ==> id in rows { TellsBelongs(t, id, c, p, b); }
  }

  lemma AllRowsCount(t: map<nat, Outbox.Row>, rows: seq<nat>, c: Kind, p: string, b: Time)
    requires Outbox.UniqueIds(t) && Increasing(rows) && c != BreakEnd
    requires forall id :: id in rows <==> ProjectingRow(t, id)
    ensures Counter(Get(Fold(Empty, EventsOf(t, rows)).rows, RowKey(p, b)), c) == |CommittedRows(t, c, p, b)|
  {
    assert Distinct(rows);
    RowIdsUnique(t, rows);
    CountersAreCounts(EventsOf(t, rows), c, p, b);
    CountIsRows(t, rows, c, p, b);
    TellingAll(t, rows, c, p, b);
  }

  /** With one relay and clean handovers, once the outbox is drained and the consumers have caught up: each counter of
      path `p` and hour `b` is the number of committed rows that carry the fact of a domain event of its kind about that
      path in that hour, whatever crashed or was sent again. */
  lemma CountersAreCommitted(route: string -> nat, steps: seq<Step>, c: Kind, p: string, b: Time)
    requires Legal(route, Init, steps) && CleanRun(route, Init, steps) && c != BreakEnd
    requires var w := Run(route, Init, steps);
             OutboxOrder.AllPublished(w.outbox) && w.proj.dlq == [] && CaughtUp(route, w.proj)
    ensures var w := Run(route, Init, steps);
            Counter(Get(w.proj.store.rows, RowKey(p, b)), c) == |CommittedRows(w.outbox.table, c, p, b)|
  {
    EndToEndOneRelay(route, steps);
    RunKeepsOutbox(route, Init, steps);
    var t := Run(route, Init, steps).outbox.table;
    AllRowsCount(t, Ascending(set id | id in t && ProjectingRow(t, id)), c, p, b);
  }
}
