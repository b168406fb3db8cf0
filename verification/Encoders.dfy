/** From domain events to outbox rows, and from messages back to projecting events. */
module Encoders {
  import opened Base
  import opened Messages
  import Projection
  import Outbox
  import OutboxOrder

  type Plans = map<(string, string), seq<PathPlan>>

  datatype EncodeError = PlanNotFound

  function ShiftPlanKey(building: string, shift: string): string { building + "/" + shift }

  /** The aggregate id a message is keyed by on the analytics topic. */
  function AnalyticsKey(d: Data): string {
    match d
    case UnderstaffedData(path, _, _) => path
    case ProposedData(_, path, _, _) => path
    case CommittedData(building, _) => building
    case _ => d.associate
  }

  /** What a message is worth to the projector: undecodable, outside its contract, or one projecting event. */
  datatype Decoded = Poison | Ignored | Projecting(event: Projection.Event)

  function Decode(m: Message): Decoded {
    match m.body
    case Malformed => Poison
    case PlanLine(_, _, _, _) => Ignored
    case Fact(at, data) =>
      match data
      case StartedData(a) => Projecting(Projection.Event(m.id, Projection.ShiftStart, a, at))
      case EndedData(a) => Projecting(Projection.Event(m.id, Projection.ShiftEnd, a, at))
      case BreakStartedData(a) => Projecting(Projection.Event(m.id, Projection.BreakStart, a, at))
      case BreakEndedData(a) => Projecting(Projection.Event(m.id, Projection.BreakEnd, a, at))
      case CertifiedData(a, _) => Projecting(Projection.Event(m.id, Projection.Certification, a, at))
      case AssignedData(_, path) => Projecting(Projection.Event(m.id, Projection.Assignment, path, at))
      case ReassignedData(_, _, to) => Projecting(Projection.Event(m.id, Projection.Reassignment, to, at))
      case UnderstaffedData(path, _, _) => Projecting(Projection.Event(m.id, Projection.Understaffing, path, at))
      case ProposedData(_, _, _, _) => Ignored
      case CommittedData(_, _) => Ignored
  }

  /** The integration body of one plan line; the n-th message of a publish takes the n-th minted id. */
  function LineMessage(e: DomainEvent, line: PathPlan, id: string): Message
    requires e.ShiftPlanCommitted?
  {
    Message(Integration, ShiftPlanKey(e.building, e.shift), id, PlanLine(e.at, e.building, e.shift, line))
  }

  function FactMessage(e: DomainEvent, id: string): Message {
    Message(Analytics, AnalyticsKey(Marshal(e)), id, FactOf(e))
  }

  /** The analytics message of every event: its key, and each field of its data. */
  lemma FactForms(at: Time, a: string, p: string, q: string, cert: string, certs: set<string>, b: string, s: string,
                  n: int, m: int, x: real, id: string)
    ensures FactMessage(ShiftStarted(at, a, certs), id) == Message(Analytics, a, id, Fact(at, StartedData(a)))
    ensures FactMessage(ShiftEnded(at, a), id) == Message(Analytics, a, id, Fact(at, EndedData(a)))
    ensures FactMessage(BreakStarted(at, a), id) == Message(Analytics, a, id, Fact(at, BreakStartedData(a)))
    ensures FactMessage(BreakEnded(at, a), id) == Message(Analytics, a, id, Fact(at, BreakEndedData(a)))
    ensures FactMessage(Certified(at, a, cert), id) == Message(Analytics, a, id, Fact(at, CertifiedData(a, cert)))
    ensures FactMessage(LaborAssigned(at, a, p), id) == Message(Analytics, a, id, Fact(at, AssignedData(a, p)))
    ensures FactMessage(LaborReassigned(at, a, p, q), id)
            == Message(Analytics, a, id, Fact(at, ReassignedData(a, p, q)))
    ensures FactMessage(PathUnderstaffed(at, p, n, m), id)
            == Message(Analytics, p, id, Fact(at, UnderstaffedData(p, n, m)))
    ensures FactMessage(ShiftPlanProposed(at, b, p, n, x), id)
            == Message(Analytics, p, id, Fact(at, ProposedData(b, p, n, x)))
    ensures FactMessage(ShiftPlanCommitted(at, b, s), id) == Message(Analytics, b, id, Fact(at, CommittedData(b, s)))
  {
  }

  /** The integration message of a plan line: keyed by building and shift, and carrying the line as it is. */
  lemma LineForm(at: Time, b: string, s: string, line: PathPlan, id: string)
    ensures LineMessage(ShiftPlanCommitted(at, b, s), line, id)
            == Message(Integration, b + "/" + s, id, PlanLine(at, b, s, line))
  {
  }

  /** From its message an event can be read back, all but the certifications of a start: no two others share one. */
  lemma FactsTellEventsApart(e: DomainEvent, f: DomainEvent, id: string)
    requires FactMessage(e, id) == FactMessage(f, id)
    ensures e == f || (e.ShiftStarted? && f == e.(certs := f.certs))
  {
  }

  /** A break event is keyed by its associate, so one associate's breaks share a stream. */
  predicate WellKeyed(m: Message) {
    m.topic == Analytics && m.body.Fact? ==> m.key == AnalyticsKey(m.body.data)
  }

  lemma BreaksShareStream(m: Message, n: Message)
    requires m.topic == Analytics && n.topic == Analytics && WellKeyed(m) && WellKeyed(n)
    requires Decode(m).Projecting? && Decode(n).Projecting?
    requires Projection.IsBreak(Decode(m).event) && Projection.IsBreak(Decode(n).event)
    requires Decode(m).event.subject == Decode(n).event.subject
    ensures Outbox.SameStream(m, n)
  {
  }

  /** The lines of one committed plan. */
  function PlanLines(e: DomainEvent, lines: seq<PathPlan>): seq<(DomainEvent, PathPlan)> {
    Map(lines, (l: PathPlan) => (e, l))
  }

  /** The lines to be sent for one event: those of the plan it commits, if it commits one that is stored. */
  function LinesOf(plans: Plans, e: DomainEvent): seq<(DomainEvent, PathPlan)> {
    if e.ShiftPlanCommitted? && (e.building, e.shift) in plans then PlanLines(e, plans[(e.building, e.shift)]) else []
  }

  /** The lines to be sent for a list of events: every line of every committed plan, in order. */
  function Lines(plans: Plans, es: seq<DomainEvent>): seq<(DomainEvent, PathPlan)> {
    if es == [] then [] else Lines(plans, es[..|es| - 1]) + LinesOf(plans, es[|es| - 1])
  }

  lemma {:induction false} LinesConcat(plans: Plans, es: seq<DomainEvent>, fs: seq<DomainEvent>)
    ensures Lines(plans, es + fs) == Lines(plans, es) + Lines(plans, fs)
  {
    if fs == [] {
      assert es + fs == es;
    } else {
      assert (es + fs)[..|es + fs| - 1] == es + fs[..|fs| - 1];
      LinesConcat(plans, es, fs[..|fs| - 1]);
    }
  }

  /** The lines of one event: every line of the plan it commits, in order, if that plan is stored; none otherwise.
      With `LinesConcat`, those of any list. */
  lemma LinesOfOne(plans: Plans, e: DomainEvent)
    ensures Lines(plans, [e]) == LinesOf(plans, e)
    ensures var ls := LinesOf(plans, e);
            if e.ShiftPlanCommitted? && (e.building, e.shift) in plans then
              var lines := plans[(e.building, e.shift)];
              |ls| == |lines| && forall i :: 0 <= i < |ls| ==> ls[i] == (e, lines[i])
            else ls == []
  {
    assert [e][..0] == [] && Lines(plans, []) == [];
  }

  predicate PlansKnown(plans: Plans, es: seq<DomainEvent>) {
    forall e :: e in es && e.ShiftPlanCommitted? ==> (e.building, e.shift) in plans
  }

  /** The messages take the ids minted from `start` on, one each. */
  ghost predicate AreMinted(ms: seq<Message>, mint: nat -> string, start: nat) {
    forall i :: 0 <= i < |ms| ==> ms[i].id == mint(start + i)
  }

  lemma MintedAppend(ms: seq<Message>, ns: seq<Message>, mint: nat -> string, start: nat)
    requires AreMinted(ms, mint, start) && AreMinted(ns, mint, start + |ms|)
    ensures AreMinted(ms + ns, mint, start)
  {
    forall i | 0 <= i < |ms + ns| ensures (ms + ns)[i].id == mint(start + i) {
      if i >= |ms| { assert ns[i - |ms|].id == mint(start + |ms| + (i - |ms|)); }
    }
  }

  /** One integration message per line, in order. */
  ghost predicate AreLines(ms: seq<Message>, lines: seq<(DomainEvent, PathPlan)>) {
    && |ms| == |lines|
    && forall i :: 0 <= i < |ms| ==>
         lines[i].0.ShiftPlanCommitted? && ms[i] == LineMessage(lines[i].0, lines[i].1, ms[i].id)
  }

  lemma LinesAppend(ms: seq<Message>, ns: seq<Message>, ls: seq<(DomainEvent, PathPlan)>,
                    ks: seq<(DomainEvent, PathPlan)>)
    requires AreLines(ms, ls) && AreLines(ns, ks)
    ensures AreLines(ms + ns, ls + ks)
  {
  }

  /** One more event adds the lines of its plan, if it commits one. */
  lemma LinesNext(plans: Plans, es: seq<DomainEvent>, n: nat)
    requires n < |es|
    ensures Lines(plans, es[..n + 1]) == Lines(plans, es[..n]) + LinesOf(plans, es[n])
  {
    assert es[..n + 1][..n] == es[..n] && es[..n + 1][n] == es[n];
  }

  lemma PlansNext(plans: Plans, es: seq<DomainEvent>, n: nat)
    requires n < |es| && PlansKnown(plans, es[..n])
    ensures var e := es[n];
            PlansKnown(plans, es[..n + 1]) <==> (e.ShiftPlanCommitted? ==> (e.building, e.shift) in plans)
    ensures PlansKnown(plans, es) ==> PlansKnown(plans, es[..n + 1])
  {
    assert es[..n + 1] == es[..n] + [es[n]];
  }

  /** One analytics message per event, in order. */
  ghost predicate AreFacts(ms: seq<Message>, es: seq<DomainEvent>) {
    |ms| == |es| && forall i :: 0 <= i < |ms| ==> ms[i] == FactMessage(es[i], ms[i].id)
  }

  /** The messages of one publish: first the lines of all plans it commits, then a fact per event. */
  ghost predicate ArePublished(ms: seq<Message>, plans: Plans, es: seq<DomainEvent>) {
    var k := |Lines(plans, es)|;
    k <= |ms| && AreLines(ms[..k], Lines(plans, es)) && AreFacts(ms[k..], es)
  }

  lemma PublishJoins(lines: seq<Message>, facts: seq<Message>, plans: Plans, es: seq<DomainEvent>)
    requires AreLines(lines, Lines(plans, es)) && AreFacts(facts, es)
    ensures ArePublished(lines + facts, plans, es)
  {
    Joined(lines, facts);
  }

  /** Nothing is left out and nothing is made up: the facts of all events, and the lines of all plans they commit. */
  lemma PublishedExactly(ms: seq<Message>, plans: Plans, es: seq<DomainEvent>)
    requires ArePublished(ms, plans, es)
    ensures |ms| == |Lines(plans, es)| + |es|
    ensures forall i :: 0 <= i < |es| ==> var m := ms[|Lines(plans, es)| + i]; m == FactMessage(es[i], m.id)
    ensures forall i :: 0 <= i < |Lines(plans, es)| ==>
              var l := Lines(plans, es)[i];
              l.0.ShiftPlanCommitted? && ms[i] == LineMessage(l.0, l.1, ms[i].id)
  {
    var k := |Lines(plans, es)|;
    forall i | 0 <= i < |es| ensures ms[k + i] == FactMessage(es[i], ms[k + i].id) {
      assert ms[k..][i] == ms[k + i];
    }
    forall i | 0 <= i < k
      ensures Lines(plans, es)[i].0.ShiftPlanCommitted?
              && ms[i] == LineMessage(Lines(plans, es)[i].0, Lines(plans, es)[i].1, ms[i].id)
    {
      assert ms[..k][i] == ms[i];
    }
  }

  /** Lines of one path fall into one slot of a path-only reader, whatever plan and stream they belong to. */
  lemma LinesShareSlot(e: DomainEvent, f: DomainEvent, l: PathPlan, k: PathPlan, i: string, j: string)
    requires e.ShiftPlanCommitted? && f.ShiftPlanCommitted?
    ensures Outbox.PathSlot(LineMessage(e, l, i)) == Outbox.PathSlot(LineMessage(f, k, j)) <==> l.path == k.path
    ensures LineMessage(e, l, i).key == LineMessage(f, k, j).key <==>
              e.building + "/" + e.shift == f.building + "/" + f.shift
  {
  }

  /** Every row of a publish has a key of its aggregate. */
  lemma PublishedAreKeyed(ms: seq<Message>, plans: Plans, es: seq<DomainEvent>)
    requires ArePublished(ms, plans, es)
    ensures forall i :: 0 <= i < |ms| ==> WellKeyed(ms[i])
  {
    var k := |Lines(plans, es)|;
    forall i | 0 <= i < |ms| ensures WellKeyed(ms[i]) {
      if i < k { assert ms[..k][i] == ms[i]; } else { assert ms[k..][i - k] == ms[i]; }
    }
  }

  /** The outbox publisher: every event through both encoders, one row per encoded message. */
  class OutboxPublisher {
    const mint: nat -> string
    var minted: nat

    constructor (mint: nat -> string)
      ensures this.mint == mint && minted == 0
    {
      this.mint, minted := mint, 0;
    }

    method EncodePlan(e: DomainEvent, lines: seq<PathPlan>) returns (ms: seq<Message>)
      requires e.ShiftPlanCommitted?
      modifies `minted
      ensures minted == old(minted) + |ms| && AreLines(ms, PlanLines(e, lines)) && AreMinted(ms, mint, old(minted))
    {
      ms := [];
      for k := 0 to |lines|
        invariant |ms| == k && minted == old(minted) + k && AreMinted(ms, mint, old(minted))
        invariant forall j :: 0 <= j < k ==> ms[j] == LineMessage(e, lines[j], ms[j].id)
      {
        ms := ms + [LineMessage(e, lines[k], mint(minted))];
        minted := minted + 1;
      }
    }

    /** The messages of one event. */
    method EncodeOne(plans: Plans, e: DomainEvent) returns (r: Result<seq<Message>, EncodeError>)
      modifies `minted
      ensures r.Ok? <==> (e.ShiftPlanCommitted? ==> (e.building, e.shift) in plans)
      ensures r.Ok? ==> minted == old(minted) + |r.value| && AreMinted(r.value, mint, old(minted))
      ensures r.Ok? ==> AreLines(r.value, LinesOf(plans, e))
    {
      if !e.ShiftPlanCommitted? { return Ok([]); }
      if (e.building, e.shift) !in plans { return Err(PlanNotFound); }
      var ms := EncodePlan(e, plans[(e.building, e.shift)]);
      return Ok(ms);
    }

    /** Integration encoder: one message per line of each committed plan, re-read inside the transaction. */
    method EncodeLines(plans: Plans, es: seq<DomainEvent>) returns (r: Result<seq<Message>, EncodeError>)
      modifies `minted
      ensures r.Ok? <==> PlansKnown(plans, es)
      ensures r.Ok? ==> minted == old(minted) + |r.value| && AreMinted(r.value, mint, old(minted))
      ensures r.Ok? ==> AreLines(r.value, Lines(plans, es))
    {
      var out: seq<Message> := [];
      for n := 0 to |es|
        invariant PlansKnown(plans, es[..n])
        invariant minted == old(minted) + |out| && AreMinted(out, mint, old(minted))
        invariant AreLines(out, Lines(plans, es[..n]))
      {
        LinesNext(plans, es, n);
        PlansNext(plans, es, n);
        var one := EncodeOne(plans, es[n]);
        if one.Err? { return one; }
        LinesAppend(out, one.value, Lines(plans, es[..n]), LinesOf(plans, es[n]));
        MintedAppend(out, one.value, mint, old(minted));
        out := out + one.value;
      }
      assert es[..|es|] == es;
      return Ok(out);
    }

    /** Analytics encoder: one message per event. */
    method EncodeFacts(es: seq<DomainEvent>) returns (out: seq<Message>)
      modifies `minted
      ensures minted == old(minted) + |es| && AreFacts(out, es) && AreMinted(out, mint, old(minted))
    {
      out := [];
      for n := 0 to |es|
        invariant |out| == n && minted == old(minted) + n && AreMinted(out, mint, old(minted))
        invariant forall i :: 0 <= i < n ==> out[i] == FactMessage(es[i], out[i].id)
      {
        out := out + [FactMessage(es[n], mint(minted))];
        minted := minted + 1;
      }
    }

    /** All rows of one publish, or none: a plan that cannot be re-read fails the surrounding transaction. */
    method Publish(plans: Plans, es: seq<DomainEvent>) returns (r: Result<seq<Message>, EncodeError>)
      modifies `minted
      ensures r.Ok? <==> PlansKnown(plans, es)
      ensures r.Ok? ==> minted == old(minted) + |r.value| && AreMinted(r.value, mint, old(minted))
      ensures r.Ok? ==> ArePublished(r.value, plans, es)
    {
      r := EncodeLines(plans, es);
      if r.Ok? {
        var lines := r.value;
        var facts := EncodeFacts(es);
        PublishJoins(lines, facts, plans, es);
        MintedAppend(lines, facts, mint, old(minted));
        r := Ok(lines + facts);
      }
    }
  }

  /** The rows of one committed publish; ids are drawn from a sequence that other transactions draw from too. */
  function Rows(ids: seq<nat>, ms: seq<Message>): (rows: map<nat, Message>)
    requires |ids| == |ms| && Increasing(ids)
    ensures forall id :: id in rows <==> id in ids
    ensures forall i :: 0 <= i < |ids| ==> rows[ids[i]] == ms[i]
  {
    map i | 0 <= i < |ids| :: ids[i] := ms[i]
  }

  lemma RowAt(ids: seq<nat>, ms: seq<Message>, id: nat) returns (i: nat)
    requires |ids| == |ms| && Increasing(ids) && id in Rows(ids, ms)
    ensures i < |ids| && ids[i] == id && Rows(ids, ms)[id] == ms[i]
  {
    i :| 0 <= i < |ids| && ids[i] == id;
  }

  /** The ids minted from `used` on are the messages', each different, and none is in the table yet. */
  ghost predicate NewlyMinted(s: Outbox.State, ms: seq<Message>, mint: nat -> string, used: nat) {
    && (forall i, j :: 0 <= i < j < |ms| ==> ms[i].id != ms[j].id)
    && (forall i :: 0 <= i < |ms| ==> ms[i].id == mint(used + i))
    && forall id, i :: id in s.table && 0 <= i < |ms| ==> s.table[id].msg.id != ms[i].id
  }

  /** Such rows, under unused ids, may be enqueued whatever else became visible meanwhile; and if nothing numbered later
      is visible yet, related rows become visible in order. */
  lemma PublishEnqueues(sc: Outbox.Scope, s: Outbox.State, ids: seq<nat>, ms: seq<Message>, mint: nat -> string,
                        used: nat)
    requires |ids| == |ms| && Increasing(ids) && (forall id :: id in ids ==> id !in s.table)
    requires NewlyMinted(s, ms, mint, used)
    ensures Outbox.Enabled(s, Outbox.Enqueue(Rows(ids, ms)))
    ensures (forall id, i :: id in s.table && 0 <= i < |ids| ==> id < ids[i]) ==>
              OutboxOrder.VisibleInOrder(sc, s, Rows(ids, ms))
  {
    var rows := Rows(ids, ms);
    forall i, j | i in rows && j in s.table ensures rows[i].id != s.table[j].msg.id { var a := RowAt(ids, ms, i); }
    forall i, j | i in rows && j in rows && i != j ensures rows[i].id != rows[j].id {
      var a := RowAt(ids, ms, i);
      var b := RowAt(ids, ms, j);
    }
    if forall id, i :: id in s.table && 0 <= i < |ids| ==> id < ids[i] {
      forall i, j | i in rows && j in s.table ensures j < i { var a := RowAt(ids, ms, i); }
    }
  }
}
