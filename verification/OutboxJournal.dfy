/** The journal read from the outbox table itself: the table in id order holds the rows of every committed publish, in
    order, whatever the relays do to it. */
module OutboxJournal {
  import opened Base
  import opened Messages
  import opened Outbox
  import Encoders
  import OutboxOrder
  import SerialRuns
  import WireJournal

  /** The bodies of the analytics messages. */
  function FactBodies(ms: seq<Message>): seq<Body> {
    if ms == [] then []
    else
      FactBodies(ms[..|ms| - 1]) + if ms[|ms| - 1].topic == Analytics then [ms[|ms| - 1].body] else []
  }

  /** What a reader of these rows, in this order, sees. */
  function ReadRows(t: map<nat, Row>, ids: seq<nat>): seq<Body>
    requires forall id :: id in ids ==> id in t
  {
    FactBodies(OutboxOrder.Bodies(t, ids))
  }

  /** These are the ids of the table, in order. */
  ghost predicate Lists(t: map<nat, Row>, ids: seq<nat>) { Increasing(ids) && forall id :: id in ids <==> id in t }

  lemma {:induction false} FactBodiesConcat(ms: seq<Message>, ns: seq<Message>)
    ensures FactBodies(ms + ns) == FactBodies(ms) + FactBodies(ns)
  {
    if ns == [] {
      assert ms + ns == ms;
    } else {
      assert (ms + ns)[..|ms + ns| - 1] == ms + ns[..|ns| - 1];
      FactBodiesConcat(ms, ns[..|ns| - 1]);
    }
  }

  lemma {:induction false} NoFacts(ms: seq<Message>, lines: seq<(DomainEvent, PathPlan)>)
    requires Encoders.AreLines(ms, lines)
    ensures FactBodies(ms) == []
  {
    if ms != [] { NoFacts(ms[..|ms| - 1], lines[..|ms| - 1]); }
  }

  lemma {:induction false} OnlyFacts(ms: seq<Message>, es: seq<DomainEvent>)
    requires Encoders.AreFacts(ms, es)
    ensures FactBodies(ms) == WireJournal.Bodies(es)
  {
    if ms != [] {
      var n := |ms| - 1;
      OnlyFacts(ms[..n], es[..n]);
      assert ms[n] == Encoders.FactMessage(es[n], ms[n].id);
      assert WireJournal.Bodies(es) == WireJournal.Bodies(es[..n]) + [FactOf(es[n])];
    }
  }

  /** The analytics rows of one publish are the facts of its events, in order. */
  lemma PublishedFacts(ms: seq<Message>, plans: Encoders.Plans, es: seq<DomainEvent>)
    requires Encoders.ArePublished(ms, plans, es)
    ensures FactBodies(ms) == WireJournal.Bodies(es)
  {
    var k := |Encoders.Lines(plans, es)|;
    assert ms == ms[..k] + ms[k..];
    FactBodiesConcat(ms[..k], ms[k..]);
    NoFacts(ms[..k], Encoders.Lines(plans, es));
    OnlyFacts(ms[k..], es);
  }

  // ---- Publishes and relays ----

  /** The rows of one publish, numbered after everything that is visible, as they are when calls do not overlap. */
  ghost predicate IsPublish(s: State, rows: map<nat, Message>, plans: Encoders.Plans, es: seq<DomainEvent>,
                            ids: seq<nat>, ms: seq<Message>)
  {
    && |ids| == |ms| && Increasing(ids) && rows == Encoders.Rows(ids, ms) && Encoders.ArePublished(ms, plans, es)
    && forall x, id :: x in s.table && id in ids ==> x < id
  }

  /** The step publishes these events, or is a relay's and publishes none. */
  ghost predicate StepCarries(s: State, a: Step, es: seq<DomainEvent>) {
    if a.Enqueue? then exists plans, ids, ms :: IsPublish(s, a.rows, plans, es, ids, ms) else es == []
  }

  /** The run commits publishes of these events, one after the other, whatever relays do in between. */
  ghost predicate Carries(s: State, steps: seq<Step>, es: seq<DomainEvent>)
    requires Legal(s, steps)
    decreases |steps|
  {
    if steps == [] then es == []
    else
      exists k: nat ::
        k <= |es| && StepCarries(s, steps[0], es[..k]) && Carries(Apply(s, steps[0]), steps[1..], es[k..])
  }

  lemma ReadRowsFrame(t: map<nat, Row>, u: map<nat, Row>, ids: seq<nat>)
    requires forall id :: id in ids ==> id in t && id in u && u[id].msg == t[id].msg
    ensures ReadRows(u, ids) == ReadRows(t, ids)
  {
    forall i | 0 <= i < |ids| ensures u[ids[i]].msg == t[ids[i]].msg { assert ids[i] in ids; }
    assert OutboxOrder.Bodies(u, ids) == OutboxOrder.Bodies(t, ids);
  }

  lemma ReadRowsConcat(t: map<nat, Row>, a: seq<nat>, b: seq<nat>)
    requires forall id :: id in a || id in b ==> id in t
    ensures ReadRows(t, a + b) == ReadRows(t, a) + ReadRows(t, b)
  {
    assert OutboxOrder.Bodies(t, a + b) == OutboxOrder.Bodies(t, a) + OutboxOrder.Bodies(t, b);
    FactBodiesConcat(OutboxOrder.Bodies(t, a), OutboxOrder.Bodies(t, b));
  }

  lemma ListExtends(before: seq<nat>, ids: seq<nat>)
    requires Increasing(before) && Increasing(ids) && forall x, id :: x in before && id in ids ==> x < id
    ensures Increasing(before + ids)
  {
    forall i, j | 0 <= i < |before| && 0 <= j < |ids| ensures before[i] < ids[j] {
      assert before[i] in before && ids[j] in ids;
    }
  }

  /** More rows, numbered later, are read after the others. */
  lemma TableExtends(t: map<nat, Row>, u: map<nat, Row>, before: seq<nat>, ids: seq<nat>, ms: seq<Message>)
    requires |ids| == |ms| && (forall id :: id in before ==> id in t && id in u && u[id].msg == t[id].msg)
    requires forall id :: id in ids ==> id in u
    requires forall i :: 0 <= i < |ids| ==> u[ids[i]].msg == ms[i]
    ensures forall id :: id in before + ids ==> id in u
    ensures ReadRows(u, before + ids) == ReadRows(t, before) + FactBodies(ms)
  {
    ReadRowsConcat(u, before, ids);
    ReadRowsFrame(t, u, before);
    assert OutboxOrder.Bodies(u, ids) == ms;
  }

  lemma EnqueueExtends(s: State, rows: map<nat, Message>, before: seq<nat>, ids: seq<nat>, ms: seq<Message>)
    requires Lists(s.table, before) && |ids| == |ms| && Increasing(ids) && rows == Encoders.Rows(ids, ms)
    requires forall x, id :: x in s.table && id in ids ==> x < id
    ensures var t := Apply(s, Enqueue(rows)).table;
            Lists(t, before + ids) && ReadRows(t, before + ids) == ReadRows(s.table, before) + FactBodies(ms)
  {
    var t := Apply(s, Enqueue(rows)).table;
    forall i | 0 <= i < |ids| ensures ids[i] in t && t[ids[i]].msg == ms[i] {
      assert ids[i] in ids && ids[i] in rows;
    }
    ListExtends(before, ids);
    TableExtends(s.table, t, before, ids, ms);
  }

  lemma KeysAfter(s: State, a: Step)
    requires Inv(s) && Enabled(s, a) && !a.Enqueue?
    ensures Apply(s, a).table.Keys == s.table.Keys
  {
    if a.Commit? { assert PassInv(s, s.passes[a.r]); }
  }

  /** Relays leave the journal alone; a publish appends to it. */
  lemma StepExtends(s: State, a: Step, es: seq<DomainEvent>, before: seq<nat>) returns (after: seq<nat>)
    requires Inv(s) && Enabled(s, a) && StepCarries(s, a, es) && Lists(s.table, before)
    ensures var t := Apply(s, a).table;
            Lists(t, after) && ReadRows(t, after) == ReadRows(s.table, before) + WireJournal.Bodies(es)
  {
    if a.Enqueue? {
      var plans, ids, ms :| IsPublish(s, a.rows, plans, es, ids, ms);
      EnqueueExtends(s, a.rows, before, ids, ms);
      PublishedFacts(ms, plans, es);
      after := before + ids;
    } else {
      KeysAfter(s, a);
      StepKeepsInv(s, a);
      ReadRowsFrame(s.table, Apply(s, a).table, before);
      after := before;
    }
  }

  lemma BodiesSplit(es: seq<DomainEvent>, k: nat)
    requires k <= |es|
    ensures WireJournal.Bodies(es) == WireJournal.Bodies(es[..k]) + WireJournal.Bodies(es[k..])
  {
    assert es == es[..k] + es[k..];
    MapConcat(es[..k], es[k..], FactOf);
  }

  lemma Regroup<T>(a: seq<T>, x: seq<T>, y: seq<T>)
    ensures (a + x) + y == a + (x + y)
  {
  }

  lemma RunStep(s: State, steps: seq<Step>)
    requires Legal(s, steps) && steps != []
    ensures Enabled(s, steps[0]) && Legal(Apply(s, steps[0]), steps[1..])
    ensures Run(s, steps) == Run(Apply(s, steps[0]), steps[1..])
  {
  }

  /** The first step of a run and the events it publishes. */
  lemma FirstStep(s: State, steps: seq<Step>, es: seq<DomainEvent>, before: seq<nat>) returns (k: nat, after: seq<nat>)
    requires Inv(s) && Legal(s, steps) && Carries(s, steps, es) && steps != [] && Lists(s.table, before)
    ensures var t := Apply(s, steps[0]);
            && k <= |es| && Inv(t) && Carries(t, steps[1..], es[k..]) && Lists(t.table, after)
            && ReadRows(t.table, after) == ReadRows(s.table, before) + WireJournal.Bodies(es[..k])
  {
    k :| k <= |es| && StepCarries(s, steps[0], es[..k]) && Carries(Apply(s, steps[0]), steps[1..], es[k..]);
    after := StepExtends(s, steps[0], es[..k], before);
    StepKeepsInv(s, steps[0]);
  }

  /** In every run that carries these events, with any number of relays, the table read in id order has grown by exactly
      their facts. */
  lemma {:induction false} JournalGrows(s: State, steps: seq<Step>, es: seq<DomainEvent>, before: seq<nat>)
    returns (after: seq<nat>)
    requires Inv(s) && Legal(s, steps) && Carries(s, steps, es) && Lists(s.table, before)
    ensures var t := Run(s, steps).table;
            Lists(t, after) && ReadRows(t, after) == ReadRows(s.table, before) + WireJournal.Bodies(es)
    decreases |steps|
  {
    if steps == [] {
      after := before;
    } else {
      var k, middle := FirstStep(s, steps, es, before);
      RunStep(s, steps);
      var t := Apply(s, steps[0]);
      after := JournalGrows(t, steps[1..], es[k..], middle);
      BodiesSplit(es, k);
      Regroup(ReadRows(s.table, before), WireJournal.Bodies(es[..k]), WireJournal.Bodies(es[k..]));
    }
  }

  lemma SameList(t: map<nat, Row>, a: seq<nat>, b: seq<nat>)
    requires Lists(t, a) && Lists(t, b)
    ensures a == b
  {
    IncreasingIsUnique(a, b);
  }

  lemma NothingRead(t: map<nat, Row>, rest: seq<Body>)
    ensures ReadRows(t, []) + rest == rest
  {
    assert OutboxOrder.Bodies(t, []) == [];
  }

  lemma TableReads(s: State, steps: seq<Step>, es: seq<DomainEvent>, ids: seq<nat>)
    requires Inv(s) && Lists(s.table, []) && Legal(s, steps) && Carries(s, steps, es) && Lists(Run(s, steps).table, ids)
    ensures ReadRows(Run(s, steps).table, ids) == WireJournal.Bodies(es)
  {
    var after := JournalGrows(s, steps, es, []);
    SameList(Run(s, steps).table, ids, after);
    NothingRead(s.table, WireJournal.Bodies(es));
  }

  /** The outbox table is the journal: read in id order after every serial run of calls, whatever the relays did
      meanwhile, it rebuilds all but the certifications, and those exactly when each one that was given at the last
      start has also been certified since. */
  lemma OutboxIsTheJournal(max: Time, calls: seq<SerialRuns.Call>, who: string, steps: seq<Step>, ids: seq<nat>)
    requires Legal(Init, steps) && Carries(Init, steps, SerialRuns.Run(max, SerialRuns.Init, calls).published)
    requires Lists(Run(Init, steps).table, ids)
    ensures var w := SerialRuns.Run(max, SerialRuns.Init, calls);
            var rebuilt := WireJournal.ReplayBodies(ReadRows(Run(Init, steps).table, ids), who);
            var stored := SerialRuns.Snapshot(SerialRuns.At(w, who));
            && WireJournal.Forget(rebuilt) == WireJournal.Forget(stored)
            && (rebuilt == stored
                <==> (rebuilt.shift.Some? ==>
                        WireJournal.StartCerts(w.published, who) <= WireJournal.Certs(rebuilt)))
  {
    TableReads(Init, steps, SerialRuns.Run(max, SerialRuns.Init, calls).published, ids);
    WireJournal.CommittedRowsJournal(max, calls, who);
  }
}
