/** What the committed rows tell a reader: everything the domain events tell, but the certifications given at a
    start. */
module WireJournal {
  import opened Base
  import opened Messages
  import opened Associates
  import opened Assignments
  import opened UseCases
  import opened SerialRuns

  /** The bodies of the analytics rows that a list of events is encoded into. */
  function Bodies(es: seq<DomainEvent>): (bs: seq<Body>)
    ensures |bs| == |es|
  {
    Map(es, FactOf)
  }

  /** A reader of the committed rows, following one associate: as `SerialRuns.Read`, from what is on the wire. */
  function ReadBody(v: View, b: Body, who: string): View {
    match b
    case Malformed => v
    case PlanLine(_, _, _, _) => v
    case Fact(at, data) =>
      match data
      case StartedData(a) => if a == who then Reshaped(v, NewShift({})) else v
      case EndedData(a) =>
        if a == who && v.shift.Some? then var u := ClosedAt(v, at); Reshaped(u, u.shift.value.(ended := true)) else v
      case BreakStartedData(a) => if a == who && v.shift.Some? then Reshaped(v, v.shift.value.(onBreak := true)) else v
      case BreakEndedData(a) => if a == who && v.shift.Some? then Reshaped(v, v.shift.value.(onBreak := false)) else v
      case CertifiedData(a, cert) =>
        if a == who && v.shift.Some? then Reshaped(v, v.shift.value.(certs := v.shift.value.certs + {cert})) else v
      case AssignedData(a, path) => if a == who then v.(active := Some(Interval(path, at, None))) else v
      case ReassignedData(a, _, path) =>
        if a == who then ClosedAt(v, at).(active := Some(Interval(path, at, None))) else v
      case _ => v
  }

  function ReplayBodies(bs: seq<Body>, who: string): View {
    if bs == [] then View(None, None, []) else ReadBody(ReplayBodies(bs[..|bs| - 1], who), bs[|bs| - 1], who)
  }

  function Certs(v: View): set<string> { if v.shift.Some? then v.shift.value.certs else {} }

  /** All but the certifications. */
  function Forget(v: View): View { if v.shift.Some? then Reshaped(v, v.shift.value.(certs := {})) else v }

  /** The certifications given when the associate's shift was last started. */
  function StartCerts(es: seq<DomainEvent>, who: string): set<string> {
    if es == [] then {}
    else
      var e := es[|es| - 1];
      if e.ShiftStarted? && e.associate == who then e.certs else StartCerts(es[..|es| - 1], who)
  }

  /** One step of the two readers, side by side. */
  lemma ReadersAgree(v: View, u: View, given: set<string>, e: DomainEvent, who: string)
    requires Forget(u) == Forget(v) && (v.shift.Some? ==> Certs(v) == given + Certs(u))
    ensures var given' := if e.ShiftStarted? && e.associate == who then e.certs else given;
            var v', u' := Read(v, e, who), ReadBody(u, FactOf(e), who);
            Forget(u') == Forget(v') && (v'.shift.Some? ==> Certs(v') == given' + Certs(u'))
  {
  }

  /** The rows say what the events say, except that the certifications given at the last start are missing. */
  lemma {:induction false} BodiesTellTheRest(es: seq<DomainEvent>, who: string)
    ensures Forget(ReplayBodies(Bodies(es), who)) == Forget(Replay(es, who))
    ensures Replay(es, who).shift.Some? ==>
              Certs(Replay(es, who)) == StartCerts(es, who) + Certs(ReplayBodies(Bodies(es), who))
  {
    if es != [] {
      var n := |es| - 1;
      BodiesTellTheRest(es[..n], who);
      assert Bodies(es)[..n] == Bodies(es[..n]);
      ReadersAgree(Replay(es[..n], who), ReplayBodies(Bodies(es[..n]), who), StartCerts(es[..n], who), es[n], who);
    }
  }

  /** A view rebuilt without the certifications given at the start is complete exactly when none of those is missing. */
  lemma CompleteExactly(u: View, v: View, given: set<string>)
    requires Forget(u) == Forget(v) && (v.shift.Some? ==> Certs(v) == given + Certs(u))
    ensures u == v <==> (u.shift.Some? ==> given <= Certs(u))
  {
    assert u.shift.Some? <==> v.shift.Some?;
    if u.shift.Some? {
      var a, b := u.shift.value, v.shift.value;
      assert Forget(u).shift == Some(a.(certs := {})) && Forget(v).shift == Some(b.(certs := {}));
      if given <= Certs(u) {
        assert a.certs == b.certs;
        assert a == b;
      }
    }
  }

  /** The journal of committed rows: after every serial run, reading them back rebuilds the break flag, the hours, the
      ended flag, the active interval and every closed one; and the certifications exactly when each one that was given
      at the last start has also been certified since. */
  lemma CommittedRowsJournal(max: Time, calls: seq<Call>, who: string)
    ensures var w := Run(max, Init, calls); var rebuilt := ReplayBodies(Bodies(w.published), who);
            && Forget(rebuilt) == Forget(Snapshot(At(w, who)))
            && (rebuilt == Snapshot(At(w, who))
                <==> (rebuilt.shift.Some? ==> StartCerts(w.published, who) <= Certs(rebuilt)))
  {
    var w := Run(max, Init, calls);
    DomainEventsAreAJournal(max, calls, who);
    BodiesTellTheRest(w.published, who);
    CompleteExactly(ReplayBodies(Bodies(w.published), who), Snapshot(At(w, who)), StartCerts(w.published, who));
  }

  const Ann := "ann"

  lemma OneStart(max: Time, certs: set<string>)
    ensures var w := Run(max, Init, [Call(Ann, Start(certs), 0)]);
            w.published == [ShiftStarted(0, Ann, certs)] && Snapshot(At(w, Ann)).shift == Some(NewShift(certs))
  {
    var k := Call(Ann, Start(certs), 0);
    assert [k][..0] == [] && Run(max, Init, []) == Init;
    assert Run(max, Init, [k]) == Exec(max, Init, k);
  }

  /** No reader of the rows can do better: two runs commit the same rows and leave different certifications. */
  lemma SameRowsDifferentShifts(max: Time)
    ensures var v := Run(max, Init, [Call(Ann, Start({"pick"}), 0)]);
            var w := Run(max, Init, [Call(Ann, Start({}), 0)]);
            Bodies(v.published) == Bodies(w.published) && Snapshot(At(v, Ann)) != Snapshot(At(w, Ann))
  {
    OneStart(max, {"pick"});
    OneStart(max, {});
    assert "pick" in NewShift({"pick"}).certs;
  }
}
