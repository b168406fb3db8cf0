/** Outbox, relays, broker and projectors together: the rollup is the fold of the outbox, each event once. */
module EndToEnd {
  import opened Base
  import opened Messages
  import opened Encoders
  import opened Projection
  import Outbox
  import OutboxOrder
  import Projector
  import ProjectorOrder

  /** The relays with their outbox, and the consumers with their read model; the broker's log is in both. */
  datatype World = World(outbox: Outbox.State, proj: Projector.State)

  datatype Step = Relay(b: Outbox.Step) | Project(c: Projector.Step)

  const Init := World(Outbox.Init, Projector.Init)

  /** The rollup depends on order only between the break events of one associate. */
  const Breaks := Outbox.BreakStreams

  /** Rows come from the encoders, so break events are keyed by their associate. */
  predicate FromEncoders(b: Outbox.Step) {
    b.Enqueue? ==> forall id :: id in b.rows ==> WellKeyed(b.rows[id])
  }

  ghost predicate Enabled(route: string -> nat, w: World, a: Step) {
    match a
    case Relay(b) => Outbox.Enabled(w.outbox, b) && FromEncoders(b)
    case Project(c) => Projector.Enabled(route, w.proj, c) && !c.Receive?
  }

  /** The row a relay step hands to the broker, if any. */
  function Sends(s: Outbox.State, b: Outbox.Step): Option<nat> {
    if (b.SendOk? || (b.SendFail? && b.delivered)) && Outbox.At(s, b.r, Outbox.Sending) then
      Some(s.passes[b.r].batch[s.passes[b.r].pos])
    else None
  }

  function Receive(w: World, sent: Option<nat>): Projector.State {
    if sent.Some? && sent.value in w.outbox.table then
      w.proj.(log := w.proj.log + [w.outbox.table[sent.value].msg])
    else w.proj
  }

  function Next(route: string -> nat, w: World, a: Step): World
    requires Enabled(route, w, a)
  {
    match a
    case Relay(b) => World(Outbox.Apply(w.outbox, b), Receive(w, Sends(w.outbox, b)))
    case Project(c) => w.(proj := Projector.Next(route, w.proj, c))
  }

  ghost predicate Legal(route: string -> nat, w: World, steps: seq<Step>)
    decreases |steps|
  {
    steps == [] || (Enabled(route, w, steps[0]) && Legal(route, Next(route, w, steps[0]), steps[1..]))
  }

  ghost function Run(route: string -> nat, w: World, steps: seq<Step>): World
    requires Legal(route, w, steps)
    decreases |steps|
  {
    if steps == [] then w else Run(route, Next(route, w, steps[0]), steps[1..])
  }

  /** Break rows become visible in order and the relays' claims skip none; no consumer is stopped between a recorded
      mark and the end of that handling; and fetches are safe. */
  ghost predicate Good(route: string -> nat, w: World, a: Step) {
    match a
    case Relay(b) => OutboxOrder.InOrder(Breaks, w.outbox, b)
    case Project(c) => Projector.Gentle(w.proj, c) && ProjectorOrder.Safe(route, w.proj, c)
  }

  ghost predicate GoodRun(route: string -> nat, w: World, steps: seq<Step>)
    requires Legal(route, w, steps)
    decreases |steps|
  {
    steps == [] || (Good(route, w, steps[0]) && GoodRun(route, Next(route, w, steps[0]), steps[1..]))
  }

  // ---- The invariant ----

  /** The projectors' log is what the relays delivered. */
  ghost predicate Coupled(w: World) {
    && |w.proj.log| == |w.outbox.log|
    && (forall g :: 0 <= g < |w.outbox.log| ==> w.outbox.log[g] in w.outbox.table)
    && (forall g :: 0 <= g < |w.outbox.log| ==> w.proj.log[g] == w.outbox.table[w.outbox.log[g]].msg)
  }

  ghost predicate RowsKeyed(t: map<nat, Outbox.Row>) { forall id :: id in t ==> WellKeyed(t[id].msg) }

  ghost predicate ProjInv(route: string -> nat, s: Projector.State) {
    ProjectorOrder.OrderInv(route, s) && Projector.Complete(route, s) && Projector.NothingGone(s)
  }

  ghost predicate Inv(route: string -> nat, w: World) {
    OutboxOrder.OrderInv(Breaks, w.outbox) && ProjInv(route, w.proj) && Coupled(w) && RowsKeyed(w.outbox.table)
  }

  lemma ProjectKeepsInv(route: string -> nat, s: Projector.State, c: Projector.Step)
    requires ProjInv(route, s) && Projector.Enabled(route, s, c)
    requires Projector.Gentle(s, c) && ProjectorOrder.Safe(route, s, c)
    ensures ProjInv(route, Projector.Next(route, s, c))
  {
    ProjectorOrder.StepKeepsOrder(route, s, c);
    Projector.StepKeepsComplete(route, s, c);
    Projector.GentleStep(route, s, c);
  }

  lemma SendsIsLog(s: Outbox.State, b: Outbox.Step)
    requires Outbox.Enabled(s, b)
    ensures Outbox.Apply(s, b).log == if Sends(s, b).Some? then s.log + [Sends(s, b).value] else s.log
  {
  }

  lemma SentRowKnown(s: Outbox.State, b: Outbox.Step)
    requires Outbox.Inv(s) && Outbox.Enabled(s, b) && Sends(s, b).Some?
    ensures Sends(s, b).value in s.table
  {
    assert Outbox.Pending(s, s.passes[b.r].batch[s.passes[b.r].pos]);
  }

  lemma RelayKeepsCoupled(w: World, b: Outbox.Step)
    requires Outbox.Inv(w.outbox) && Coupled(w) && Outbox.Enabled(w.outbox, b)
    ensures Coupled(World(Outbox.Apply(w.outbox, b), Receive(w, Sends(w.outbox, b))))
  {
    var s, t := w.outbox, Outbox.Apply(w.outbox, b);
    SendsIsLog(s, b);
    Outbox.StepKeepsInv(s, b);
    if Sends(s, b).Some? { SentRowKnown(s, b); }
    forall g | 0 <= g < |s.log| ensures s.log[g] in t.table && t.table[s.log[g]].msg == s.table[s.log[g]].msg {
      assert s.log[g] in s.log;
    }
  }

  lemma ReceiveKeepsInv(route: string -> nat, s: Projector.State, m: Message)
    requires ProjInv(route, s)
    ensures ProjInv(route, s.(log := s.log + [m]))
  {
    ProjectKeepsInv(route, s, Projector.Receive(m));
  }

  lemma RelayKeepsKeys(s: Outbox.State, b: Outbox.Step)
    requires Outbox.Inv(s) && RowsKeyed(s.table) && Outbox.Enabled(s, b) && FromEncoders(b)
    ensures RowsKeyed(Outbox.Apply(s, b).table)
  {
    Outbox.StepKeepsInv(s, b);
    var t := Outbox.Apply(s, b).table;
    if b.Commit? {
      forall id | id in s.passes[b.r].writes ensures id in s.table { assert Outbox.Pending(s, id); }
    }
    forall id | id in t ensures WellKeyed(t[id].msg) {
      if id in s.table { assert WellKeyed(s.table[id].msg); }
    }
  }

  lemma RelayKeepsInv(route: string -> nat, w: World, b: Outbox.Step)
    requires Inv(route, w) && Enabled(route, w, Relay(b)) && Good(route, w, Relay(b))
    ensures Inv(route, Next(route, w, Relay(b)))
  {
    OutboxOrder.StepKeepsOrder(Breaks, w.outbox, b);
    RelayKeepsCoupled(w, b);
    RelayKeepsKeys(w.outbox, b);
    if Sends(w.outbox, b).Some? {
      SentRowKnown(w.outbox, b);
      ReceiveKeepsInv(route, w.proj, w.outbox.table[Sends(w.outbox, b).value].msg);
    }
  }

  /** The consumers leave the broker's log alone. */
  lemma LogStays(route: string -> nat, s: Projector.State, c: Projector.Step)
    requires Projector.Enabled(route, s, c) && !c.Receive?
    ensures Projector.Next(route, s, c).log == s.log
  {
  }

  lemma StepKeepsInv(route: string -> nat, w: World, a: Step)
    requires Inv(route, w) && Enabled(route, w, a) && Good(route, w, a)
    ensures Inv(route, Next(route, w, a))
  {
    match a
    case Relay(b) => RelayKeepsInv(route, w, b);
    case Project(c) =>
      ProjectKeepsInv(route, w.proj, c);
      LogStays(route, w.proj, c);
  }

  lemma {:induction false} RunKeepsInv(route: string -> nat, w: World, steps: seq<Step>)
    requires Inv(route, w) && Legal(route, w, steps) && GoodRun(route, w, steps)
    ensures Inv(route, Run(route, w, steps))
    decreases |steps|
  {
    if steps != [] {
      StepKeepsInv(route, w, steps[0]);
      RunKeepsInv(route, Next(route, w, steps[0]), steps[1..]);
    }
  }

  lemma InitInv(route: string -> nat)
    ensures Inv(route, Init)
  {
    Projector.InitInv(route);
  }

  // ---- The rollup, from the outbox alone ----

  predicate ProjectingRow(t: map<nat, Outbox.Row>, id: nat) {
    id in t && t[id].msg.topic == Analytics && Decode(t[id].msg).Projecting?
  }

  /** The projecting event an outbox row stands for. */
  function RowEvent(t: map<nat, Outbox.Row>, id: nat): Event
    requires ProjectingRow(t, id)
  {
    Decode(t[id].msg).event
  }

  /** The events of the given rows, in outbox order. */
  function EventsOf(t: map<nat, Outbox.Row>, ids: seq<nat>): (es: seq<Event>)
    requires forall id :: id in ids ==> ProjectingRow(t, id)
    ensures |es| == |ids| && forall i :: 0 <= i < |ids| ==> es[i] == RowEvent(t, ids[i])
  {
    seq(|ids|, i requires 0 <= i < |ids| => RowEvent(t, ids[i]))
  }

  /** The rows behind the applied events, in the order of application. */
  function AppliedRows(w: World): seq<nat>
    requires forall i :: 0 <= i < |w.proj.applied| ==> w.proj.applied[i] < |w.outbox.log|
    ensures |AppliedRows(w)| == |w.proj.applied|
    ensures forall i :: 0 <= i < |w.proj.applied| ==> AppliedRows(w)[i] == w.outbox.log[w.proj.applied[i]]
  {
    seq(|w.proj.applied|, i requires 0 <= i < |w.proj.applied| => w.outbox.log[w.proj.applied[i]])
  }

  predicate BreakRow(t: map<nat, Outbox.Row>, id: nat, a: string) {
    ProjectingRow(t, id) && BreakOf(RowEvent(t, id), a)
  }

  /** The rows that carry an associate's break events. */
  function BreakRows(t: map<nat, Outbox.Row>, ids: seq<nat>, a: string): (r: seq<nat>)
    ensures forall id :: id in r <==> id in ids && BreakRow(t, id, a)
  {
    Filter(ids, id => BreakRow(t, id, a))
  }

  /** A row's events, filtered by associate, come from the rows, filtered. */
  lemma {:induction false} BreaksOfRows(t: map<nat, Outbox.Row>, ids: seq<nat>, a: string)
    requires forall id :: id in ids ==> ProjectingRow(t, id)
    ensures BreaksOf(EventsOf(t, ids), a) == EventsOf(t, BreakRows(t, ids, a))
  {
    if ids != [] {
      var n := |ids| - 1;
      var front, id := ids[..n], ids[n];
      BreaksOfRows(t, front, a);
      assert EventsOf(t, ids) == EventsOf(t, front) + [RowEvent(t, id)];
      BreaksSnoc(EventsOf(t, front), RowEvent(t, id), a);
      assert BreakRows(t, ids, a) == BreakRows(t, front, a) + if BreakRow(t, id, a) then [id] else [];
    }
  }

  lemma BreaksSnoc(es: seq<Event>, e: Event, a: string)
    ensures BreaksOf(es + [e], a) == BreaksOf(es, a) + if BreakOf(e, a) then [e] else []
  {
    assert (es + [e])[..|es|] == es;
  }

  lemma {:induction false} SameMultiset(a: seq<Event>, b: seq<Event>)
    requires UniqueIds(a) && UniqueIds(b) && forall e :: e in a <==> e in b
    ensures multiset(a) == multiset(b)
  {
    UniqueOnce(a);
    UniqueOnce(b);
    forall e ensures multiset(a)[e] == multiset(b)[e] {}
  }

  lemma {:induction false} UniqueOnce(a: seq<Event>)
    requires UniqueIds(a)
    ensures forall e :: multiset(a)[e] == if e in a then 1 else 0
  {
    if a != [] {
      var n := |a| - 1;
      UniqueOnce(a[..n]);
      assert a == a[..n] + [a[n]];
    }
  }

  /** Rows in any order that respects the break events of each stream fold like the same rows in outbox order. */
  lemma StreamOrderSuffices(t: map<nat, Outbox.Row>, rows: seq<nat>, asc: seq<nat>)
    requires Outbox.UniqueIds(t) && RowsKeyed(t)
    requires (forall id :: id in rows <==> id in asc) && forall id :: id in rows ==> ProjectingRow(t, id)
    requires Distinct(rows) && Increasing(asc)
    requires forall i, j :: 0 <= i < j < |rows| ==> !Outbox.Precedes(Breaks, t, rows[j], rows[i])
    ensures Fold(Empty, EventsOf(t, rows)) == Fold(Empty, EventsOf(t, asc))
  {
    var es, fs := EventsOf(t, rows), EventsOf(t, asc);
    RowIdsUnique(t, rows);
    RowIdsUnique(t, asc);
    SameElements(t, rows, asc);
    SameMultiset(es, fs);
    forall a ensures BreaksOf(es, a) == BreaksOf(fs, a) { SameBreaks(t, rows, asc, a); }
    TraceEquivalence(Empty, es, fs);
  }

  lemma RowIdsUnique(t: map<nat, Outbox.Row>, ids: seq<nat>)
    requires Outbox.UniqueIds(t) && Distinct(ids) && forall id :: id in ids ==> ProjectingRow(t, id)
    ensures UniqueIds(EventsOf(t, ids))
  {
    forall i, j | 0 <= i < j < |ids| ensures RowEvent(t, ids[i]).id != RowEvent(t, ids[j]).id {
      assert ids[i] in ids && ids[j] in ids;
    }
  }

  lemma SameElements(t: map<nat, Outbox.Row>, a: seq<nat>, b: seq<nat>)
    requires (forall id :: id in a <==> id in b) && forall id :: id in a ==> ProjectingRow(t, id)
    ensures forall e :: e in EventsOf(t, a) <==> e in EventsOf(t, b)
  {
    forall e | e in EventsOf(t, a) ensures e in EventsOf(t, b) {
      var i :| 0 <= i < |a| && EventsOf(t, a)[i] == e;
      assert a[i] in b;
      var j :| 0 <= j < |b| && b[j] == a[i];
      assert EventsOf(t, b)[j] == e;
    }
    forall e | e in EventsOf(t, b) ensures e in EventsOf(t, a) {
      var i :| 0 <= i < |b| && EventsOf(t, b)[i] == e;
      assert b[i] in a;
      var j :| 0 <= j < |a| && a[j] == b[i];
      assert EventsOf(t, a)[j] == e;
    }
  }

  lemma SameBreaks(t: map<nat, Outbox.Row>, rows: seq<nat>, asc: seq<nat>, a: string)
    requires RowsKeyed(t) && (forall id :: id in rows <==> id in asc) && Increasing(asc) && Distinct(rows)
    requires forall id :: id in rows ==> ProjectingRow(t, id)
    requires forall i, j :: 0 <= i < j < |rows| ==> !Outbox.Precedes(Breaks, t, rows[j], rows[i])
    ensures BreaksOf(EventsOf(t, rows), a) == BreaksOf(EventsOf(t, asc), a)
  {
    var p := (id: nat) => BreakRow(t, id, a);
    BreaksOfRows(t, rows, a);
    BreaksOfRows(t, asc, a);
    forall i, j | 0 <= i < j < |rows| && p(rows[i]) && p(rows[j]) ensures rows[i] < rows[j] {
      BreaksShareStream(t[rows[i]].msg, t[rows[j]].msg);
      assert !Outbox.Precedes(Breaks, t, rows[j], rows[i]);
    }
    FilterIncreasing(rows, p);
    FilterIncreasing(asc, p);
    IncreasingIsUnique(Filter(rows, p), Filter(asc, p));
  }

  /** Rows are applied once each, break rows in stream order. */
  lemma AppliedRowsOrdered(route: string -> nat, w: World)
    requires Inv(route, w)
    ensures forall i :: 0 <= i < |w.proj.applied| ==> w.proj.applied[i] < |w.outbox.log|
    ensures var rows := AppliedRows(w);
            && (forall id :: id in rows ==> ProjectingRow(w.outbox.table, id))
            && Distinct(rows)
            && (forall i, j :: 0 <= i < j < |rows| ==> !Outbox.Precedes(Breaks, w.outbox.table, rows[j], rows[i]))
            && EventsOf(w.outbox.table, rows) == Projector.EventsAt(w.proj, w.proj.applied)
  {
    forall i | 0 <= i < |w.proj.applied|
      ensures w.proj.applied[i] < |w.outbox.log| && ProjectingRow(w.outbox.table, w.outbox.log[w.proj.applied[i]])
    {
      assert w.proj.applied[i] in w.proj.applied;
    }
    var rows, es := AppliedRows(w), Projector.EventsAt(w.proj, w.proj.applied);
    forall i | 0 <= i < |rows| ensures RowEvent(w.outbox.table, rows[i]) == es[i] {}
    forall i, j | 0 <= i < j < |rows| ensures rows[i] != rows[j] { assert es[i].id != es[j].id; }
    forall i, j | 0 <= i < j < |rows| ensures !Outbox.Precedes(Breaks, w.outbox.table, rows[j], rows[i]) {
      AppliedOutOfOrder(route, w, i, j);
    }
  }

  /** An id is applied once: what is applied j-th was not applied before. */
  lemma NotBefore(s: Projector.State, i: nat, j: nat)
    requires Projector.AtMostOnce(s) && i < j < |s.applied|
    ensures Projector.Projects(s, s.applied[j])
    ensures !ProjectorOrder.AppliedBefore(s, i, Projector.EventAt(s, s.applied[j]).id)
  {
    var es := Projector.EventsAt(s, s.applied);
    assert s.applied[j] in s.applied;
    forall k | 0 <= k < i ensures s.applied[k] in s.applied && Projector.EventAt(s, s.applied[k]).id != es[j].id {
      assert es[k].id != es[j].id && s.applied[k] in s.applied;
    }
  }

  /** An earlier delivery of the row behind `gj`, in the stream of the i-th applied message, counts as earlier there. */
  lemma EarlierDelivery(route: string -> nat, w: World, i: nat, gj: nat, g: nat)
    requires Coupled(w) && i < |w.proj.applied| && g < w.proj.applied[i] < |w.outbox.log| && gj < |w.outbox.log|
    requires Projector.Projects(w.proj, gj) && w.outbox.log[g] == w.outbox.log[gj]
    requires Outbox.SameStream(w.proj.log[gj], w.proj.log[w.proj.applied[i]]) && w.proj.log[gj].topic == Analytics
    ensures ProjectorOrder.Earlier(route, w.proj, i, g)
    ensures Projector.EventAt(w.proj, g) == Projector.EventAt(w.proj, gj)
  {
    assert w.proj.log[g] == w.proj.log[gj];
  }

  lemma AppliedOutOfOrder(route: string -> nat, w: World, i: nat, j: nat)
    requires Inv(route, w) && i < j < |w.proj.applied|
    requires w.proj.applied[i] < |w.outbox.log| && w.proj.applied[j] < |w.outbox.log|
    ensures var x, y := w.outbox.log[w.proj.applied[j]], w.outbox.log[w.proj.applied[i]];
            !Outbox.Precedes(Breaks, w.outbox.table, x, y)
  {
    var s, gi, gj := w.proj, w.proj.applied[i], w.proj.applied[j];
    var x, y := w.outbox.log[gj], w.outbox.log[gi];
    NotBefore(s, i, j);
    if Outbox.Related(Breaks, w.outbox.table[x].msg, w.outbox.table[y].msg) {
      forall g | 0 <= g < gi ensures w.outbox.log[g] != x {
        if w.outbox.log[g] == x { EarlierDelivery(route, w, i, gj, g); }
      }
      assert x !in w.outbox.log[..gi];
    }
  }

  /** Everything delivered on the analytics topic is below its partition's committed offset, and no consumer is in the
      middle of an event. */
  ghost predicate CaughtUp(route: string -> nat, s: Projector.State) {
    && (forall g :: 0 <= g < |s.log| && s.log[g].topic == Analytics ==> g < Projector.Offset(s, route(s.log[g].key)))
    && forall c :: c in s.hands ==> !Projector.InWindow(s.hands[c])
  }

  /** The projecting rows the relays have delivered at least once. */
  ghost function DeliveredRows(s: Outbox.State): set<nat> {
    set id | id in s.table && ProjectingRow(s.table, id) && id in s.log
  }

  /** At any moment, the read model is the fold, in outbox order, of the rows applied so far. */
  lemma StoreIsFold(route: string -> nat, w: World, asc: seq<nat>)
    requires Inv(route, w)
    requires forall i :: 0 <= i < |w.proj.applied| ==> w.proj.applied[i] < |w.outbox.log|
    requires Increasing(asc) && forall id :: id in asc <==> id in AppliedRows(w)
    ensures forall id :: id in asc ==> ProjectingRow(w.outbox.table, id)
    ensures w.proj.store == Fold(Empty, EventsOf(w.outbox.table, asc))
  {
    AppliedRowsOrdered(route, w);
    StreamOrderSuffices(w.outbox.table, AppliedRows(w), asc);
  }

  lemma SameIdSameRow(w: World, g: nat, h: nat)
    requires Coupled(w) && Outbox.UniqueIds(w.outbox.table)
    requires Projector.Projects(w.proj, g) && Projector.Projects(w.proj, h)
    requires Projector.EventAt(w.proj, g).id == Projector.EventAt(w.proj, h).id
    ensures w.outbox.log[g] == w.outbox.log[h] && w.proj.log[g] == w.proj.log[h]
  {
  }

  lemma DeliveredIsApplied(route: string -> nat, w: World, g: nat)
    requires Inv(route, w) && w.proj.dlq == [] && CaughtUp(route, w.proj)
    requires forall i :: 0 <= i < |w.proj.applied| ==> w.proj.applied[i] < |w.outbox.log|
    requires g < |w.outbox.log| && ProjectingRow(w.outbox.table, w.outbox.log[g])
    ensures w.outbox.log[g] in AppliedRows(w)
  {
    var s := w.proj;
    var part, id := route(s.log[g].key), Projector.EventAt(s, g).id;
    assert Projector.Past(route, s, part, Projector.Offset(s, part), None);
    assert Projector.Answered(s, g) && !Projector.Gone(s, id) && !Projector.UnderWay(s, id) && !Projector.Dead(s, id);
    ProjectorOrder.SeenWasApplied(s, id);
    var i :| 0 <= i < |s.applied| && Projector.Projects(s, s.applied[i]) && Projector.EventAt(s, s.applied[i]).id == id;
    SameIdSameRow(w, s.applied[i], g);
    assert AppliedRows(w)[i] == w.outbox.log[g];
  }

  /** When the consumers have caught up, the rows applied are the rows delivered. */
  lemma CaughtUpApplied(route: string -> nat, w: World)
    requires Inv(route, w) && w.proj.dlq == [] && CaughtUp(route, w.proj)
    requires forall i :: 0 <= i < |w.proj.applied| ==> w.proj.applied[i] < |w.outbox.log|
    ensures forall id :: id in AppliedRows(w) <==> id in DeliveredRows(w.outbox)
  {
    AppliedRowsOrdered(route, w);
    forall id | id in DeliveredRows(w.outbox) ensures id in AppliedRows(w) {
      var g :| 0 <= g < |w.outbox.log| && w.outbox.log[g] == id;
      DeliveredIsApplied(route, w, g);
    }
    forall id | id in AppliedRows(w) ensures id in w.outbox.log {
      var i :| 0 <= i < |AppliedRows(w)| && AppliedRows(w)[i] == id;
      assert w.outbox.log[w.proj.applied[i]] == id;
    }
  }

  /** End to end: for every interleaving of use cases, any number of relays and of consumers, crashes, resends,
      redeliveries, rebalances and partitions in which break rows become visible in order and claims skip none, no
      consumer is stopped inside its window, fetches are safe, and nothing is dead-lettered: once the consumers have
      caught up, the rollup is the fold of the delivered projecting rows, each once, in outbox order. */
  lemma EndToEndTheorem(route: string -> nat, steps: seq<Step>)
    requires Legal(route, Init, steps) && GoodRun(route, Init, steps)
    requires var w := Run(route, Init, steps); w.proj.dlq == [] && CaughtUp(route, w.proj)
    ensures var w := Run(route, Init, steps);
            var rows := Ascending(DeliveredRows(w.outbox));
            w.proj.store == Fold(Empty, EventsOf(w.outbox.table, rows))
  {
    InitInv(route);
    RunKeepsInv(route, Init, steps);
    var w := Run(route, Init, steps);
    AppliedRowsOrdered(route, w);
    CaughtUpApplied(route, w);
    StoreIsFold(route, w, Ascending(DeliveredRows(w.outbox)));
  }

  lemma {:induction false} RunKeepsOutbox(route: string -> nat, w: World, steps: seq<Step>)
    requires Outbox.Inv(w.outbox) && Legal(route, w, steps)
    ensures Outbox.Inv(Run(route, w, steps).outbox)
    decreases |steps|
  {
    if steps != [] {
      if steps[0].Relay? { Outbox.StepKeepsInv(w.outbox, steps[0].b); }
      RunKeepsOutbox(route, Next(route, w, steps[0]), steps[1..]);
    }
  }

  /** Once the relays have drained the outbox, the rows delivered are all the committed projecting rows. */
  lemma DrainedDeliversAll(route: string -> nat, steps: seq<Step>)
    requires Legal(route, Init, steps) && OutboxOrder.AllPublished(Run(route, Init, steps).outbox)
    ensures var s := Run(route, Init, steps).outbox;
            DeliveredRows(s) == set id | id in s.table && ProjectingRow(s.table, id)
  {
    RunKeepsOutbox(route, Init, steps);
  }

  // ---- One relay, and partitions handed over cleanly ----

  /** A single relay never claims while its own pass is alive, and no consumer fetches from a partition while another is
      between the mark and the end of the handling of one of its messages. */
  ghost predicate CleanStep(w: World, a: Step) {
    match a
    case Relay(b) =>
      && (b.Claim? ==> w.outbox.passes == map[])
      && (b.Enqueue? ==> OutboxOrder.VisibleInOrder(Breaks, w.outbox, b.rows))
    case Project(c) => Projector.Gentle(w.proj, c) && (c.Fetch? ==> !ProjectorOrder.Occupied(w.proj, c.part))
  }

  ghost predicate CleanRun(route: string -> nat, w: World, steps: seq<Step>)
    requires Legal(route, w, steps)
    decreases |steps|
  {
    steps == [] || (CleanStep(w, steps[0]) && CleanRun(route, Next(route, w, steps[0]), steps[1..]))
  }

  lemma CleanStepIsGood(route: string -> nat, w: World, a: Step)
    requires Inv(route, w) && w.proj.dlq == [] && Enabled(route, w, a) && CleanStep(w, a)
    ensures Good(route, w, a)
  {
    if a.Relay? {
      if a.b.Claim? { OutboxOrder.LoneClaimUnskipped(Breaks, w.outbox, a.b.batch, a.b.limit); }
    } else if a.c.Fetch? {
      forall g: nat, h: nat | Projector.Projects(w.proj, g) && Projector.Projects(w.proj, h)
                              && Projector.EventAt(w.proj, g).id == Projector.EventAt(w.proj, h).id
        ensures route(w.proj.log[g].key) == route(w.proj.log[h].key)
      {
        SameIdSameRow(w, g, h);
      }
      ProjectorOrder.UnoccupiedIsSafe(route, w.proj, a.c.c, a.c.part, a.c.at);
    }
  }

  lemma {:induction false} DeadLettersStay(route: string -> nat, w: World, steps: seq<Step>)
    requires Legal(route, w, steps)
    ensures w.proj.dlq <= Run(route, w, steps).proj.dlq
    decreases |steps|
  {
    if steps != [] {
      var a := steps[0];
      if a.Project? { Projector.StepGrows(route, w.proj, a.c); }
      DeadLettersStay(route, Next(route, w, a), steps[1..]);
    }
  }

  lemma {:induction false} CleanRunIsGood(route: string -> nat, w: World, steps: seq<Step>)
    requires Inv(route, w) && Legal(route, w, steps) && CleanRun(route, w, steps) && Run(route, w, steps).proj.dlq == []
    ensures GoodRun(route, w, steps)
    decreases |steps|
  {
    if steps != [] {
      DeadLettersStay(route, w, steps);
      CleanStepIsGood(route, w, steps[0]);
      StepKeepsInv(route, w, steps[0]);
      CleanRunIsGood(route, Next(route, w, steps[0]), steps[1..]);
    }
  }

  /** End to end with one relay and any number of consumers between which partitions are handed over cleanly: once the
      outbox is drained and the consumers have caught up, the rollup is the fold of every committed projecting event,
      each exactly once, in outbox order, whatever crashed or was sent again. */
  lemma EndToEndOneRelay(route: string -> nat, steps: seq<Step>)
    requires Legal(route, Init, steps) && CleanRun(route, Init, steps)
    requires var w := Run(route, Init, steps);
             OutboxOrder.AllPublished(w.outbox) && w.proj.dlq == [] && CaughtUp(route, w.proj)
    ensures var w := Run(route, Init, steps);
            var rows := Ascending(set id | id in w.outbox.table && ProjectingRow(w.outbox.table, id));
            w.proj.store == Fold(Empty, EventsOf(w.outbox.table, rows))
  {
    InitInv(route);
    CleanRunIsGood(route, Init, steps);
    EndToEndTheorem(route, steps);
    DrainedDeliversAll(route, steps);
  }
}
