/** The labor rollup: what one projecting event does to the read model, and why per-associate order is enough. */
module Projection {
  import opened Base

  datatype Kind =
    | ShiftStart | ShiftEnd | BreakStart | BreakEnd | Certification | Assignment | Reassignment | Understaffing

  /** A projecting event: `subject` is its associate, or its path for the last three kinds. */
  datatype Event = Event(id: string, kind: Kind, subject: string, at: Time)

  datatype RowKey = RowKey(path: string, bucket: Time)

  datatype Acc = Acc(
    shiftsStarted: int, shiftsEnded: int, breaks: int, breakNanos: int, breaksWithDuration: int,
    certifications: int, assignments: int, reassignments: int, understaffed: int)

  const Zero := Acc(0, 0, 0, 0, 0, 0, 0, 0, 0)

  /** The read model; `latest` is the freshness watermark, 0 (Go's zero time) until an event advances it. */
  datatype Store = Store(seen: set<string>, rows: map<RowKey, Acc>, breaks: map<string, Time>, latest: Time)

  const Empty := Store({}, map[], map[], 0)

  const HOUR := 3_600_000_000_000

  function Bucket(t: Time): Time { t - t % HOUR }

  function Add(a: Acc, b: Acc): Acc {
    Acc(a.shiftsStarted + b.shiftsStarted, a.shiftsEnded + b.shiftsEnded, a.breaks + b.breaks,
        a.breakNanos + b.breakNanos, a.breaksWithDuration + b.breaksWithDuration,
        a.certifications + b.certifications, a.assignments + b.assignments, a.reassignments + b.reassignments,
        a.understaffed + b.understaffed)
  }

  function Get(rows: map<RowKey, Acc>, k: RowKey): Acc { if k in rows then rows[k] else Zero }

  function Bump(rows: map<RowKey, Acc>, k: RowKey, d: Acc): map<RowKey, Acc> { rows[k := Add(Get(rows, k), d)] }

  predicate IsBreak(e: Event) { e.kind == BreakStart || e.kind == BreakEnd }

  /** Path-scoped events land on their path's row, all others on the building-wide row. */
  function RowOf(e: Event): RowKey {
    RowKey(if e.kind == Assignment || e.kind == Reassignment || e.kind == Understaffing then e.subject else "",
           Bucket(e.at))
  }

  function Delta(k: Kind): Acc {
    match k
    case ShiftStart => Zero.(shiftsStarted := 1)
    case ShiftEnd => Zero.(shiftsEnded := 1)
    case BreakStart => Zero.(breaks := 1)
    case BreakEnd => Zero
    case Certification => Zero.(certifications := 1)
    case Assignment => Zero.(assignments := 1)
    case Reassignment => Zero.(reassignments := 1)
    case Understaffing => Zero.(understaffed := 1)
  }

  /** What a new event adds to the rows, if anything: an end without a known start adds nothing. */
  function Gain(breaks: map<string, Time>, e: Event): Option<(RowKey, Acc)> {
    if e.kind != BreakEnd then Some((RowOf(e), Delta(e.kind)))
    else if e.subject in breaks then
      Some((RowKey("", Bucket(breaks[e.subject])),
            Zero.(breakNanos := e.at - breaks[e.subject], breaksWithDuration := 1)))
    else None
  }

  function AddGain(rows: map<RowKey, Acc>, g: Option<(RowKey, Acc)>): map<RowKey, Acc> {
    if g.Some? then Bump(rows, g.value.0, g.value.1) else rows
  }

  /** A start is pending until its associate's next end; a later start replaces it. */
  function NextBreaks(breaks: map<string, Time>, e: Event): map<string, Time> {
    if e.kind == BreakStart then breaks[e.subject := e.at]
    else if e.kind == BreakEnd then breaks - {e.subject}
    else breaks
  }

  function Later(t: Time, u: Time): Time { if u > t then u else t }

  function Apply(s: Store, e: Event): Store {
    if e.id in s.seen then s
    else Store(s.seen + {e.id}, AddGain(s.rows, Gain(s.breaks, e)), NextBreaks(s.breaks, e), Later(s.latest, e.at))
  }

  function Fold(s: Store, es: seq<Event>): Store
    decreases |es|
  {
    if es == [] then s else Fold(Apply(s, es[0]), es[1..])
  }

  lemma {:induction false} FoldConcat(s: Store, a: seq<Event>, b: seq<Event>)
    ensures Fold(s, a + b) == Fold(Fold(s, a), b)
    decreases |a|
  {
    if a == [] {
      assert a + b == b;
    } else {
      assert (a + b)[1..] == a[1..] + b;
      FoldConcat(Apply(s, a[0]), a[1..], b);
    }
  }

  lemma ApplyFresh(s: Store, e: Event)
    requires e.id !in s.seen
    ensures Apply(s, e).seen == s.seen + {e.id} && Apply(s, e).breaks == NextBreaks(s.breaks, e)
  {
  }

  lemma FoldTwo(s: Store, e: Event, f: Event)
    ensures Fold(s, [e, f]) == Apply(Apply(s, e), f)
  {
    assert [e, f][1..] == [f] && [f][1..] == [];
    assert Fold(Apply(s, e), [f]) == Fold(Apply(Apply(s, e), f), []);
  }

  // ---- Trace equivalence ----

  /** Order matters only between two break events of one associate, and between deliveries of one id. */
  predicate Independent(e: Event, f: Event) {
    e.id != f.id && !(IsBreak(e) && IsBreak(f) && e.subject == f.subject)
  }

  lemma BumpsCommute(rows: map<RowKey, Acc>, k: RowKey, d: Acc, l: RowKey, c: Acc)
    ensures Bump(Bump(rows, k, d), l, c) == Bump(Bump(rows, l, c), k, d)
  {
    var a, b := Bump(Bump(rows, k, d), l, c), Bump(Bump(rows, l, c), k, d);
    assert a.Keys == b.Keys;
    assert Add(Add(Get(rows, k), d), c) == Add(Add(Get(rows, k), c), d);
    forall x | x in a ensures a[x] == b[x] {}
  }

  lemma GainsCommute(rows: map<RowKey, Acc>, g: Option<(RowKey, Acc)>, h: Option<(RowKey, Acc)>)
    ensures AddGain(AddGain(rows, g), h) == AddGain(AddGain(rows, h), g)
  {
    if g.Some? && h.Some? { BumpsCommute(rows, g.value.0, g.value.1, h.value.0, h.value.1); }
  }

  lemma BreaksCommute(breaks: map<string, Time>, e: Event, f: Event)
    requires Independent(e, f)
    ensures NextBreaks(NextBreaks(breaks, e), f) == NextBreaks(NextBreaks(breaks, f), e)
    ensures Gain(NextBreaks(breaks, e), f) == Gain(breaks, f)
  {
  }

  lemma AppliesCommute(s: Store, e: Event, f: Event)
    requires Independent(e, f)
    ensures Apply(Apply(s, e), f) == Apply(Apply(s, f), e)
  {
    assert s.seen + {e.id} + {f.id} == s.seen + {f.id} + {e.id};
    BreaksCommute(s.breaks, e, f);
    BreaksCommute(s.breaks, f, e);
    GainsCommute(s.rows, Gain(s.breaks, e), Gain(s.breaks, f));
  }

  /** An event independent of everything before it may be applied first. */
  lemma {:induction false} MoveToFront(s: Store, before: seq<Event>, e: Event)
    requires forall i :: 0 <= i < |before| ==> Independent(before[i], e)
    ensures Fold(s, before + [e]) == Fold(Apply(s, e), before)
    decreases |before|
  {
    if before == [] {
      assert before + [e] == [e];
      assert Fold(Apply(s, e), []) == Apply(s, e);
    } else {
      assert (before + [e])[1..] == before[1..] + [e];
      AppliesCommute(s, before[0], e);
      MoveToFront(Apply(s, before[0]), before[1..], e);
    }
  }

  predicate BreakOf(e: Event, associate: string) { IsBreak(e) && e.subject == associate }

  /** One associate's own break events. */
  function BreaksOf(es: seq<Event>, associate: string): seq<Event> { Filter(es, e => BreakOf(e, associate)) }

  ghost predicate UniqueIds(es: seq<Event>) {
    forall i, j :: 0 <= i < j < |es| ==> es[i].id != es[j].id
  }

  /** The same events, in orders that agree on each associate's own break events. */
  ghost predicate SameTrace(es: seq<Event>, fs: seq<Event>) {
    && multiset(es) == multiset(fs)
    && forall a :: BreaksOf(es, a) == BreaksOf(fs, a)
  }

  lemma {:induction false} HeadOfFilter(es: seq<Event>, associate: string)
    requires es != [] && BreakOf(es[0], associate)
    ensures BreaksOf(es, associate) == [es[0]] + BreaksOf(es[1..], associate)
  {
    var p := (e: Event) => BreakOf(e, associate);
    assert es == [es[0]] + es[1..];
    FilterConcat([es[0]], es[1..], p);
    assert Filter([es[0]], p) == [es[0]] by { assert [es[0]][..0] == []; assert Filter([], p) == []; }
  }

  lemma HeadIsIn(g: seq<Event>, h: seq<Event>, e: Event, k: seq<Event>)
    requires g + h == [e] + k
    ensures g == [] || e in g
  {
    if g != [] { assert g[0] == (g + h)[0]; }
  }

  /** If `es` starts with `fs[j]`, the events before it in `fs` are independent of it. */
  lemma FrontIsFree(es: seq<Event>, fs: seq<Event>, j: nat)
    requires UniqueIds(fs) && es != [] && j < |fs| && fs[j] == es[0]
    requires forall a :: BreaksOf(es, a) == BreaksOf(fs, a)
    ensures forall i :: 0 <= i < j ==> Independent(fs[i], fs[j])
  {
    var e, front := es[0], fs[..j];
    if IsBreak(e) {
      HeadOfFilter(es, e.subject);
      assert fs == front + fs[j..];
      FilterConcat(front, fs[j..], x => BreakOf(x, e.subject));
      assert BreaksOf(fs, e.subject) == BreaksOf(front, e.subject) + BreaksOf(fs[j..], e.subject);
      HeadIsIn(BreaksOf(front, e.subject), BreaksOf(fs[j..], e.subject), e, BreaksOf(es[1..], e.subject));
      forall i | 0 <= i < j ensures !BreakOf(fs[i], e.subject) {
        assert fs[i] == front[i] && fs[i] in front;
        assert fs[i] !in BreaksOf(front, e.subject);
      }
    }
  }

  lemma {:induction false} FilterNone(es: seq<Event>, associate: string)
    requires forall i :: 0 <= i < |es| ==> !BreakOf(es[i], associate)
    ensures BreaksOf(es, associate) == []
  {
    if es != [] { FilterNone(es[..|es| - 1], associate); }
  }

  lemma BreaksOfConcat(es: seq<Event>, fs: seq<Event>, associate: string)
    ensures BreaksOf(es + fs, associate) == BreaksOf(es, associate) + BreaksOf(fs, associate)
  {
    FilterConcat(es, fs, x => BreakOf(x, associate));
  }

  /** Dropping the same event from both sides keeps the orders in agreement. */
  lemma DropKeepsBreaks(es: seq<Event>, front: seq<Event>, back: seq<Event>, associate: string)
    requires es != [] && BreaksOf(es, associate) == BreaksOf(front + [es[0]] + back, associate)
    requires forall i :: 0 <= i < |front| ==> Independent(front[i], es[0])
    ensures BreaksOf(es[1..], associate) == BreaksOf(front + back, associate)
  {
    var e := [es[0]];
    assert es == e + es[1..];
    BreaksOfConcat(e, es[1..], associate);
    BreaksOfConcat(front + e, back, associate);
    BreaksOfConcat(front, e, associate);
    BreaksOfConcat(front, back, associate);
    if BreakOf(es[0], associate) {
      FilterNone(front, associate);
      var h := BreaksOf(e, associate);
      assert BreaksOf(es[1..], associate) == BreaksOf(es, associate)[|h|..];
      assert BreaksOf(back, associate) == (h + BreaksOf(back, associate))[|h|..];
    } else {
      FilterNone(e, associate);
    }
  }

  /** Take the first event of `es` out of both sides. */
  lemma SplitAtHead(es: seq<Event>, fs: seq<Event>) returns (front: seq<Event>, back: seq<Event>)
    requires UniqueIds(fs) && SameTrace(es, fs) && es != []
    ensures fs == front + [es[0]] + back
    ensures forall i :: 0 <= i < |front| ==> Independent(front[i], es[0])
    ensures SameTrace(es[1..], front + back)
  {
    assert es[0] in multiset(fs);
    var j :| 0 <= j < |fs| && fs[j] == es[0];
    front, back := fs[..j], fs[j + 1..];
    assert fs == front + [es[0]] + back;
    FrontIsFree(es, fs, j);
    forall a ensures BreaksOf(es[1..], a) == BreaksOf(front + back, a) { DropKeepsBreaks(es, front, back, a); }
    SameRest(es, front, back);
  }

  lemma SameRest(es: seq<Event>, front: seq<Event>, back: seq<Event>)
    requires es != [] && multiset(es) == multiset(front + [es[0]] + back)
    ensures multiset(es[1..]) == multiset(front + back)
  {
    assert es == [es[0]] + es[1..];
    assert multiset(es[1..]) == multiset(es) - multiset{es[0]};
  }

  lemma FoldMoved(s: Store, front: seq<Event>, e: Event, back: seq<Event>)
    requires forall i :: 0 <= i < |front| ==> Independent(front[i], e)
    ensures Fold(s, front + [e] + back) == Fold(Apply(s, e), front + back)
  {
    MoveToFront(s, front, e);
    FoldConcat(s, front + [e], back);
    FoldConcat(Apply(s, e), front, back);
  }

  lemma UniqueWithout(front: seq<Event>, e: Event, back: seq<Event>)
    requires UniqueIds(front + [e] + back)
    ensures UniqueIds(front + back)
  {
    var all := front + [e] + back;
    forall i, j | 0 <= i < j < |front + back| ensures (front + back)[i].id != (front + back)[j].id {
      var i', j' := if i < |front| then i else i + 1, if j < |front| then j else j + 1;
      assert all[i'] == (front + back)[i] && all[j'] == (front + back)[j];
    }
  }

  /** Trace equivalence: per-associate order of break events determines the whole read model, freshness included. */
  lemma {:induction false} TraceEquivalence(s: Store, es: seq<Event>, fs: seq<Event>)
    requires UniqueIds(fs) && SameTrace(es, fs)
    ensures Fold(s, es) == Fold(s, fs)
    decreases |es|
  {
    if es == [] {
      assert |multiset(fs)| == 0;
    } else {
      var front, back := SplitAtHead(es, fs);
      UniqueWithout(front, es[0], back);
      TraceEquivalence(Apply(s, es[0]), es[1..], front + back);
      FoldMoved(s, front, es[0], back);
    }
  }
}
