/** What handling a message does, said of events, rows and replies: which counter moves, and after which replies. */
module Handling {
  import opened Base
  import opened Messages
  import opened Encoders
  import opened Projection
  import opened ReadModels
  import opened Projector
  import opened Consumer
  import opened HourlyCounts

  // ---- The effect of each event ----

  predicate OfPlan(e: DomainEvent) { e.ShiftPlanProposed? || e.ShiftPlanCommitted? }

  /** The path whose row an event is counted on: its own, the new one of a reassignment, or none. */
  function RowPath(e: DomainEvent): string {
    match e
    case LaborAssigned(_, _, path) => path
    case LaborReassigned(_, _, _, toPath) => toPath
    case PathUnderstaffed(_, path, _, _) => path
    case _ => ""
  }

  /** The row with one more in the counter of the event's own kind. */
  function OneMore(e: DomainEvent, r: Acc): Acc {
    match e
    case ShiftStarted(_, _, _) => r.(shiftsStarted := r.shiftsStarted + 1)
    case ShiftEnded(_, _) => r.(shiftsEnded := r.shiftsEnded + 1)
    case BreakStarted(_, _) => r.(breaks := r.breaks + 1)
    case Certified(_, _, _) => r.(certifications := r.certifications + 1)
    case LaborAssigned(_, _, _) => r.(assignments := r.assignments + 1)
    case LaborReassigned(_, _, _, _) => r.(reassignments := r.reassignments + 1)
    case PathUnderstaffed(_, _, _, _) => r.(understaffed := r.understaffed + 1)
    case _ => r
  }

  /** A break ends: its length counts on the building-wide row of the hour in which it started, if the start is
      known. */
  ghost predicate BreakCloses(associate: string, at: Time, s: Store, t: Store) {
    if associate in s.breaks then
      && t.breaks == s.breaks - {associate}
      && forall began :: InHour(s.breaks[associate], began) ==>
           var r := Get(s.rows, RowKey("", began));
           t.rows == s.rows[RowKey("", began) := r.(breakNanos := r.breakNanos + (at - s.breaks[associate]),
                                                    breaksWithDuration := r.breaksWithDuration + 1)]
    else t.rows == s.rows && t.breaks == s.breaks
  }

  /** What the fact of a domain event does to rows and pending breaks, in the hour of the event. */
  ghost predicate Counted(e: DomainEvent, s: Store, t: Store, hour: Time) {
    if e.BreakEnded? then BreakCloses(e.associate, e.at, s, t)
    else
      var k := RowKey(RowPath(e), hour);
      && t.rows == s.rows[k := OneMore(e, Get(s.rows, k))]
      && t.breaks == if e.BreakStarted? then s.breaks[e.associate := e.at] else s.breaks
  }

  lemma FactProjects(e: DomainEvent, id: string) returns (f: Event)
    requires !OfPlan(e)
    ensures Decode(FactMessage(e, id)) == Projecting(f) && f.id == id && f.at == e.at
    ensures f.kind == BreakEnd <==> e.BreakEnded?
    ensures f.kind == BreakStart <==> e.BreakStarted?
    ensures e.BreakEnded? || e.BreakStarted? ==> f.subject == e.associate
    ensures RowOf(f) == RowKey(RowPath(e), Bucket(e.at))
  {
    f := Decode(FactMessage(e, id)).event;
  }

  lemma DeltaIsOneMore(e: DomainEvent, id: string, r: Acc)
    requires !OfPlan(e) && !e.BreakEnded?
    ensures Decode(FactMessage(e, id)).Projecting?
    ensures Add(r, Delta(Decode(FactMessage(e, id)).event.kind)) == OneMore(e, r)
  {
  }

  lemma RowMoves(s: Store, f: Event, k: RowKey, d: Acc)
    requires f.id !in s.seen && Gain(s.breaks, f) == Some((k, d))
    ensures Apply(s, f).rows == s.rows[k := Add(Get(s.rows, k), d)]
  {
  }

  lemma BreaksMove(s: Store, f: Event)
    requires f.id !in s.seen && f.kind != BreakEnd
    ensures Apply(s, f).breaks == if f.kind == BreakStart then s.breaks[f.subject := f.at] else s.breaks
  {
  }

  lemma GainOf(breaks: map<string, Time>, f: Event)
    requires f.kind != BreakEnd
    ensures Gain(breaks, f) == Some((RowOf(f), Delta(f.kind)))
  {
  }

  lemma StartOrCount(e: DomainEvent, s: Store, t: Store, k: RowKey, d: Acc)
    requires !OfPlan(e) && !e.BreakEnded? && k.path == RowPath(e)
    requires t.rows == s.rows[k := Add(Get(s.rows, k), d)] && Add(Get(s.rows, k), d) == OneMore(e, Get(s.rows, k))
    requires t.breaks == if e.BreakStarted? then s.breaks[e.associate := e.at] else s.breaks
    ensures Counted(e, s, t, k.bucket)
  {
    assert k == RowKey(RowPath(e), k.bucket);
  }

  lemma EndCloses(s: Store, f: Event)
    requires f.id !in s.seen && f.kind == BreakEnd
    ensures BreakCloses(f.subject, f.at, s, Apply(s, f))
  {
    if f.subject in s.breaks {
      forall began | InHour(s.breaks[f.subject], began) ensures Bucket(s.breaks[f.subject]) == began {
        BucketIsHour(s.breaks[f.subject], began);
      }
      var r := Get(s.rows, RowKey("", Bucket(s.breaks[f.subject])));
      assert Add(r, Zero.(breakNanos := f.at - s.breaks[f.subject], breaksWithDuration := 1))
             == r.(breakNanos := r.breakNanos + (f.at - s.breaks[f.subject]),
                   breaksWithDuration := r.breaksWithDuration + 1);
    } else {
      assert s.breaks - {f.subject} == s.breaks;
    }
  }

  lemma NewFactCounts(e: DomainEvent, id: string, s: Store, f: Event, hour: Time)
    requires !OfPlan(e) && id !in s.seen && InHour(e.at, hour) && Decode(FactMessage(e, id)) == Projecting(f)
    ensures Counted(e, s, Apply(s, f), hour)
  {
    var g := FactProjects(e, id);
    BucketIsHour(e.at, hour);
    if e.BreakEnded? {
      EndCloses(s, f);
    } else {
      GainOf(s.breaks, f);
      RowMoves(s, f, RowOf(f), Delta(f.kind));
      BreaksMove(s, f);
      DeltaIsOneMore(e, id, Get(s.rows, RowOf(f)));
      StartOrCount(e, s, Apply(s, f), RowOf(f), Delta(f.kind));
    }
  }

  predicate FirstMarkAndApply(w: Weather) {
    && |w.marks| > 0 && w.marks[0] == Recorded
    && |w.applies| > 0 && w.applies[0] == Landed
  }

  lemma NewEventEnds(m: Message, f: Event, marked: set<string>, s: Store, w: Weather)
    requires Decode(m) == Projecting(f) && f.id !in marked && FirstMarkAndApply(w)
    ensures EndingOf(m, marked, s, w) == Ending(false, marked + {f.id}, Apply(s, f))
  {
    ThreeMarks(false, w.marks);
    ThreeApplies(w.applies);
  }

  /** The fact of a domain event that is new to gate and store, handled without trouble, counts as said there; its id is
      marked and applied, and nothing goes to the dead letters. */
  lemma FactIsCounted(e: DomainEvent, id: string, marked: set<string>, s: Store, w: Weather, hour: Time)
    requires !OfPlan(e) && id !in marked && id !in s.seen && InHour(e.at, hour) && FirstMarkAndApply(w)
    ensures var end := EndingOf(FactMessage(e, id), marked, s, w);
            && !end.dead && end.marked == marked + {id} && end.store.seen == s.seen + {id}
            && Counted(e, s, end.store, hour)
  {
    var f := FactProjects(e, id);
    NewEventEnds(FactMessage(e, id), f, marked, s, w);
    NewFactCounts(e, id, s, f, hour);
    ApplyFresh(s, f);
  }

  /** The two plan events change nothing at all, whatever the replies are. */
  lemma PlanFactIsIgnored(e: DomainEvent, id: string, marked: set<string>, s: Store, w: Weather)
    requires OfPlan(e)
    ensures EndingOf(FactMessage(e, id), marked, s, w) == Ending(false, marked, s)
  {
    PlansAreIgnored(FactMessage(e, id), marked, s, w);
  }

  /** Plan lines and the facts of plan events leave gate, store and dead letters alone. */
  lemma PlansAreIgnored(m: Message, marked: set<string>, s: Store, w: Weather)
    requires m.body.PlanLine? || (m.body.Fact? && (m.body.data.ProposedData? || m.body.data.CommittedData?))
    ensures EndingOf(m, marked, s, w) == Ending(false, marked, s)
  {
    PlansDecode(m);
  }

  lemma PlansDecode(m: Message)
    requires m.body.PlanLine? || (m.body.Fact? && (m.body.data.ProposedData? || m.body.data.CommittedData?))
    ensures Decode(m) == Ignored
  {
  }

  /** An undecodable message goes to the dead letters and changes nothing else. */
  lemma MalformedIsDead(m: Message, marked: set<string>, s: Store, w: Weather)
    requires m.body == Malformed
    ensures EndingOf(m, marked, s, w) == Ending(true, marked, s)
  {
    MalformedDecodes(m);
  }

  lemma MalformedDecodes(m: Message)
    requires m.body == Malformed
    ensures Decode(m) == Poison
  {
  }

  // ---- After which replies ----

  /** The `k`-th reply: what is not listed failed. */
  predicate Answers(marks: seq<MarkReply>, k: nat) { k < |marks| && marks[k] == Recorded }

  predicate HalfAnswers(marks: seq<MarkReply>, k: nat) { k < |marks| && marks[k] == FailedButRecorded }

  /** The answer of the gate is that of the first of three attempts that gets one: new if the id was not known and no
      attempt before recorded it. */
  lemma ThreeMarks(known: bool, marks: seq<MarkReply>)
    ensures MarkAnswer(known, marks, 0) ==
              if Answers(marks, 0) then Some(!known)
              else if Answers(marks, 1) then Some(!known && !HalfAnswers(marks, 0))
              else if Answers(marks, 2) then Some(!known && !HalfAnswers(marks, 0) && !HalfAnswers(marks, 1))
              else None
    ensures MarkLeft(known, marks, 0) <==>
              || known || Answers(marks, 0) || HalfAnswers(marks, 0) || Answers(marks, 1) || HalfAnswers(marks, 1)
              || Answers(marks, 2) || HalfAnswers(marks, 2)
  {
    MarkStep(known, marks, 0);
    MarkStep(known || HalfAnswers(marks, 0), marks, 1);
    MarkStep(known || HalfAnswers(marks, 0) || HalfAnswers(marks, 1), marks, 2);
    NoFourthMark(known || HalfAnswers(marks, 0) || HalfAnswers(marks, 1) || HalfAnswers(marks, 2), marks);
  }

  lemma MarkStep(known: bool, marks: seq<MarkReply>, k: nat)
    requires k < 3
    ensures MarkAnswer(known, marks, k) ==
              if Answers(marks, k) then Some(!known) else MarkAnswer(known || HalfAnswers(marks, k), marks, k + 1)
    ensures MarkLeft(known, marks, k) <==>
              Answers(marks, k) || MarkLeft(known || HalfAnswers(marks, k), marks, k + 1)
  {
  }

  lemma NoFourthMark(known: bool, marks: seq<MarkReply>)
    ensures MarkAnswer(known, marks, 3) == None && (MarkLeft(known, marks, 3) <==> known)
  {
  }

  predicate Succeeds(applies: seq<Outcome>, k: nat) { k < |applies| && applies[k] == Landed }

  predicate Acts(applies: seq<Outcome>, k: nat) { k < |applies| && applies[k] != RolledBack }

  /** An event is applied by the first of three attempts that commits, reported or not; it fails when none of the three
      reports success. */
  lemma ThreeApplies(applies: seq<Outcome>)
    ensures Reported(applies, 0) <==> Succeeds(applies, 0) || Succeeds(applies, 1) || Succeeds(applies, 2)
    ensures TakesEffect(applies, 0) <==> Acts(applies, 0) || Acts(applies, 1) || Acts(applies, 2)
  {
    ApplyStep(applies, 0);
    ApplyStep(applies, 1);
    ApplyStep(applies, 2);
  }

  lemma ApplyStep(applies: seq<Outcome>, k: nat)
    requires k < 3
    ensures Reported(applies, k) <==> Succeeds(applies, k) || (k < 2 && Reported(applies, k + 1))
    ensures TakesEffect(applies, k) <==> Acts(applies, k) || (k < 2 && TakesEffect(applies, k + 1))
  {
  }

  /** The ways in which the handling of an event can end. */
  lemma EventEnds(m: Message, f: Event, marked: set<string>, s: Store, w: Weather)
    requires Decode(m) == Projecting(f)
    ensures var isNew := MarkAnswer(f.id in marked, w.marks, 0);
            EndingOf(m, marked, s, w) ==
              Ending(if isNew == Some(true) then !Reported(w.applies, 0) else isNew == None,
                     if MarkLeft(f.id in marked, w.marks, 0) then marked + {f.id} else marked,
                     if isNew == Some(true) && TakesEffect(w.applies, 0) then Apply(s, f) else s)
  {
  }

  /** A fact that the gate knows already is skipped; one whose id the gate does not answer for goes to the dead letters;
      one that is new is applied, and goes to the dead letters when no attempt to apply it reports success. */
  lemma FactEnds(e: DomainEvent, id: string, marked: set<string>, s: Store, w: Weather)
    requires !OfPlan(e)
    ensures var end := EndingOf(FactMessage(e, id), marked, s, w);
            var isNew := MarkAnswer(id in marked, w.marks, 0);
            && end.marked == (if MarkLeft(id in marked, w.marks, 0) then marked + {id} else marked)
            && (isNew != Some(true) ==> end.store == s && (end.dead <==> isNew == None))
            && (isNew == Some(true) ==>
                  && (end.dead <==> !Reported(w.applies, 0))
                  && (!TakesEffect(w.applies, 0) || id in s.seen ==> end.store == s)
                  && (TakesEffect(w.applies, 0) && id !in s.seen ==>
                        forall hour :: InHour(e.at, hour) ==> Counted(e, s, end.store, hour)))
  {
    var f := FactProjects(e, id);
    EventEnds(FactMessage(e, id), f, marked, s, w);
    forall hour | InHour(e.at, hour) && id !in s.seen ensures Counted(e, s, Apply(s, f), hour) {
      NewFactCounts(e, id, s, f, hour);
    }
  }
}
