/** What the rollup says, as counts over the history: every counter of every row is a number of events. */
module HourlyCounts {
  import opened Base
  import opened Projection
  import opened BreakAccounting

  /** `b` is the start of an hour, and `t` lies in that hour. */
  predicate InHour(t: Time, b: Time) { b % 3_600_000_000_000 == 0 && b <= t < b + 3_600_000_000_000 }

  lemma BucketIsHour(t: Time, b: Time)
    ensures InHour(t, b) <==> Bucket(t) == b
  {
  }

  /** Events of kind `c` that belong on path `p` in hour `b`: assignments, reassignments and understaffing on their own
      path, everything else building-wide. */
  predicate Belongs(e: Event, c: Kind, p: string, b: Time) {
    e.kind == c && InHour(e.at, b)
    && match c
       case Assignment => e.subject == p
       case Reassignment => e.subject == p
       case Understaffing => e.subject == p
       case _ => p == ""
  }

  /** How many of the events belong there. */
  function Count(es: seq<Event>, c: Kind, p: string, b: Time): nat {
    if es == [] then 0 else Count(es[..|es| - 1], c, p, b) + if Belongs(es[|es| - 1], c, p, b) then 1 else 0
  }

  /** The counter that stands for a kind; ends of breaks have none of their own. */
  function Counter(a: Acc, c: Kind): int
    requires c != BreakEnd
  {
    match c
    case ShiftStart => a.shiftsStarted
    case ShiftEnd => a.shiftsEnded
    case BreakStart => a.breaks
    case Certification => a.certifications
    case Assignment => a.assignments
    case Reassignment => a.reassignments
    case Understaffing => a.understaffed
  }

  // ---- Counters ----

  /** One new event moves one counter of one row by one. */
  lemma CounterAfter(s: Store, e: Event, c: Kind, p: string, b: Time)
    requires e.id !in s.seen && c != BreakEnd
    ensures Counter(Get(Apply(s, e).rows, RowKey(p, b)), c)
            == Counter(Get(s.rows, RowKey(p, b)), c) + if Belongs(e, c, p, b) then 1 else 0
  {
    BucketIsHour(e.at, b);
    GainIsOne(s.breaks, e, c, p, b);
    AddGainCounts(s.rows, Gain(s.breaks, e), c, RowKey(p, b));
  }

  lemma GainIsOne(breaks: map<string, Time>, e: Event, c: Kind, p: string, b: Time)
    requires c != BreakEnd
    ensures Counter(Share(Gain(breaks, e), RowKey(p, b)), c) == if Belongs(e, c, p, b) then 1 else 0
  {
    BucketIsHour(e.at, b);
    match e.kind
    case BreakEnd =>
    case _ =>
  }

  lemma AddGainCounts(rows: map<RowKey, Acc>, g: Option<(RowKey, Acc)>, c: Kind, k: RowKey)
    requires c != BreakEnd
    ensures Counter(Get(AddGain(rows, g), k), c) == Counter(Get(rows, k), c) + Counter(Share(g, k), c)
  {
    match c
    case BreakStart =>
    case _ =>
  }

  lemma CountNext(es: seq<Event>, n: nat, c: Kind, p: string, b: Time)
    requires n < |es|
    ensures Count(es[..n + 1], c, p, b) == Count(es[..n], c, p, b) + if Belongs(es[n], c, p, b) then 1 else 0
  {
    assert es[..n + 1][..n] == es[..n];
  }

  /** The counter after the first `n` events. */
  ghost function CounterAt(es: seq<Event>, n: nat, c: Kind, p: string, b: Time): int
    requires n <= |es| && c != BreakEnd
  {
    Counter(Get(Fold(Empty, es[..n]).rows, RowKey(p, b)), c)
  }

  lemma CounterNext(es: seq<Event>, n: nat, c: Kind, p: string, b: Time)
    requires UniqueIds(es) && n < |es| && c != BreakEnd
    ensures CounterAt(es, n + 1, c, p, b) == CounterAt(es, n, c, p, b) + if Belongs(es[n], c, p, b) then 1 else 0
  {
    FoldSnoc(es, n);
    SeenIsPast(es, n);
    CounterAfter(Fold(Empty, es[..n]), es[n], c, p, b);
  }

  lemma NothingCounted(c: Kind, p: string, b: Time)
    requires c != BreakEnd
    ensures CounterAt([], 0, c, p, b) == 0
  {
  }

  lemma {:induction false} PrefixCounts(es: seq<Event>, n: nat, c: Kind, p: string, b: Time)
    requires UniqueIds(es) && n <= |es| && c != BreakEnd
    ensures CounterAt(es, n, c, p, b) == Count(es[..n], c, p, b)
  {
    if n == 0 {
      NothingCounted(c, p, b);
      assert es[..0] == [] == [][..0];
    } else {
      PrefixCounts(es, n - 1, c, p, b);
      CounterNext(es, n - 1, c, p, b);
      CountNext(es, n - 1, c, p, b);
    }
  }

  /** Every counter of every row is the number of events of its kind that belong there. */
  lemma CountersAreCounts(es: seq<Event>, c: Kind, p: string, b: Time)
    requires UniqueIds(es) && c != BreakEnd
    ensures Counter(Get(Fold(Empty, es).rows, RowKey(p, b)), c) == Count(es, c, p, b)
  {
    PrefixCounts(es, |es|, c, p, b);
    assert es[..|es|] == es;
  }

  // ---- Rows ----

  /** Some event, other than the end of a break, belongs there. */
  ghost predicate Called(es: seq<Event>, p: string, b: Time) {
    exists e :: e in es && e.kind != BreakEnd && Belongs(e, e.kind, p, b)
  }

  /** The rows are those called for, and every pending break has its row. */
  ghost predicate RowsCalled(s: Store, es: seq<Event>) {
    && (forall p, b :: RowKey(p, b) in s.rows <==> Called(es, p, b))
    && (forall a :: a in s.breaks ==> RowKey("", Bucket(s.breaks[a])) in s.rows)
  }

  lemma CalledSnoc(es: seq<Event>, e: Event, p: string, b: Time)
    ensures Called(es + [e], p, b) <==> Called(es, p, b) || (e.kind != BreakEnd && Belongs(e, e.kind, p, b))
  {
    if Called(es, p, b) {
      var f :| f in es && f.kind != BreakEnd && Belongs(f, f.kind, p, b);
      assert f in es + [e];
    }
    assert e in es + [e];
  }

  lemma RowOfBelongs(e: Event, p: string, b: Time)
    ensures RowOf(e) == RowKey(p, b) <==> Belongs(e, e.kind, p, b)
  {
    BucketIsHour(e.at, b);
  }

  lemma RowsCalledNext(s: Store, es: seq<Event>, e: Event)
    requires RowsCalled(s, es) && e.id !in s.seen
    ensures RowsCalled(Apply(s, e), es + [e])
  {
    var t := Apply(s, e);
    forall p, b ensures RowKey(p, b) in t.rows <==> Called(es + [e], p, b) {
      CalledSnoc(es, e, p, b);
      RowOfBelongs(e, p, b);
    }
  }

  lemma RowsSnoc(es: seq<Event>, n: nat)
    requires UniqueIds(es) && n < |es| && RowsCalled(Fold(Empty, es[..n]), es[..n])
    ensures RowsCalled(Fold(Empty, es[..n + 1]), es[..n + 1])
  {
    var s := Fold(Empty, es[..n]);
    FoldSnoc(es, n);
    SeenIsPast(es, n);
    assert es[..n + 1] == es[..n] + [es[n]];
    RowsCalledNext(s, es[..n], es[n]);
  }

  lemma NoRows(es: seq<Event>)
    ensures RowsCalled(Fold(Empty, es[..0]), es[..0])
  {
    assert es[..0] == [];
  }

  lemma {:induction false} PrefixRows(es: seq<Event>, n: nat)
    requires UniqueIds(es) && n <= |es|
    ensures RowsCalled(Fold(Empty, es[..n]), es[..n])
  {
    if n == 0 {
      NoRows(es);
    } else {
      PrefixRows(es, n - 1);
      RowsSnoc(es, n - 1);
    }
  }

  /** There is a row exactly where some event belongs, so every row starts an hour. */
  lemma RowsAreCalled(es: seq<Event>, k: RowKey)
    requires UniqueIds(es)
    ensures k in Fold(Empty, es).rows <==> Called(es, k.path, k.bucket)
    ensures k in Fold(Empty, es).rows ==> k.bucket % 3_600_000_000_000 == 0
  {
    PrefixRows(es, |es|);
    assert es[..|es|] == es;
    assert k == RowKey(k.path, k.bucket);
  }

  // ---- Breaks ----

  /** The end of a break whose start lies in the hour. */
  predicate EndsBreakOf(es: seq<Event>, j: nat, b: Time)
    requires j < |es|
  {
    Partner(es, j) >= 0 && InHour(es[Partner(es, j)].at, b)
  }

  function Ended(es: seq<Event>, n: nat, b: Time): nat
    requires n <= |es|
  {
    if n == 0 then 0 else Ended(es, n - 1, b) + if EndsBreakOf(es, n - 1, b) then 1 else 0
  }

  /** The time between those starts and ends. */
  function Length(es: seq<Event>, n: nat, b: Time): int
    requires n <= |es|
  {
    if n == 0 then 0
    else Length(es, n - 1, b) + if EndsBreakOf(es, n - 1, b) then es[n - 1].at - es[Partner(es, n - 1)].at else 0
  }

  lemma {:induction false} PairsOfHour(es: seq<Event>, n: nat, b: Time)
    requires n <= |es|
    ensures Ended(es, n, b) == PairCount(es, n, b) && Length(es, n, b) == PairNanos(es, n, b)
  {
    if n > 0 {
      PairsOfHour(es, n - 1, b);
      if Partner(es, n - 1) >= 0 { BucketIsHour(es[Partner(es, n - 1)].at, b); }
    }
  }

  /** The breaks ended and their length, on the building-wide row of the hour in which they started. */
  lemma BreaksArePairs(es: seq<Event>, b: Time)
    requires UniqueIds(es)
    ensures var r := Get(Fold(Empty, es).rows, RowKey("", b));
            r.breaksWithDuration == Ended(es, |es|, b) && r.breakNanos == Length(es, |es|, b)
  {
    RollupPairsHistory(es, |es|, b);
    PairsOfHour(es, |es|, b);
    assert es[..|es|] == es;
  }

  predicate NoBreaks(s: Store) { forall k :: k in s.rows && k.path != "" ==> s.rows[k].breaksWithDuration == 0 }

  lemma NoBreaksNext(s: Store, e: Event)
    requires NoBreaks(s)
    ensures NoBreaks(Apply(s, e))
  {
    var g := Gain(s.breaks, e);
    if e.id !in s.seen && g.Some? {
      assert g.value.0.path != "" ==> g.value.1.breaksWithDuration == 0;
    }
  }

  /** No other row says anything about ended breaks. */
  lemma {:induction false} NoBreaksOnPaths(s: Store, es: seq<Event>)
    requires NoBreaks(s)
    ensures NoBreaks(Fold(s, es))
    decreases |es|
  {
    if es != [] {
      NoBreaksNext(s, es[0]);
      NoBreaksOnPaths(Apply(s, es[0]), es[1..]);
    }
  }

  // ---- The watermark, and duplicates ----

  /** The watermark is the time of the latest event, or Go's zero time. */
  lemma {:induction false} WatermarkIsLatest(s: Store, es: seq<Event>)
    requires UniqueIds(es) && forall e :: e in es ==> e.id !in s.seen
    ensures var t := Fold(s, es).latest;
            && s.latest <= t && (forall e :: e in es ==> e.at <= t)
            && (t == s.latest || exists e :: e in es && e.at == t)
    decreases |es|
  {
    if es != [] {
      var s' := Apply(s, es[0]);
      assert UniqueIds(es[1..]) by {
        forall i, j | 0 <= i < j < |es[1..]| ensures es[1..][i].id != es[1..][j].id {
          assert es[1..][i] == es[i + 1] && es[1..][j] == es[j + 1];
        }
      }
      forall e | e in es[1..] ensures e.id !in s'.seen {
        var i :| 0 <= i < |es[1..]| && es[1..][i] == e;
        assert es[i + 1] == e && e in es;
      }
      WatermarkIsLatest(s', es[1..]);
      var t := Fold(s, es).latest;
      assert forall e :: e in es ==> e == es[0] || e in es[1..];
      if t != s'.latest {
        var e :| e in es[1..] && e.at == t;
        assert e in es;
      } else if t != s.latest {
        assert es[0] in es && es[0].at == t;
      }
    }
  }

  /** The event at `i` is the first delivery of its id. */
  predicate IsFirst(es: seq<Event>, i: nat)
    requires i < |es|
  {
    forall j :: 0 <= j < i ==> es[j].id != es[i].id
  }

  /** The first deliveries are what `Fresh` keeps. */
  lemma {:induction false} FreshIsFirst(seen: set<string>, es: seq<Event>, e: Event)
    ensures e in Fresh(seen, es) <==> e.id !in seen && exists i :: 0 <= i < |es| && es[i] == e && IsFirst(es, i)
    decreases |es|
  {
    if es != [] {
      var rest := es[1..];
      FreshIsFirst(seen, rest, e);
      FreshIsFirst(seen + {es[0].id}, rest, e);
      if i :| 0 <= i < |rest| && rest[i] == e && IsFirst(rest, i) && es[0].id != e.id {
        assert es[i + 1] == e;
        forall j | 0 <= j < i + 1 ensures es[j].id != e.id { if j > 0 { assert es[j] == rest[j - 1]; } }
        assert IsFirst(es, i + 1);
      }
      if i :| 0 <= i < |es| && es[i] == e && IsFirst(es, i) {
        if i > 0 {
          assert rest[i - 1] == e && es[0].id != e.id;
          forall j | 0 <= j < i - 1 ensures rest[j].id != e.id { assert rest[j] == es[j + 1]; }
          assert IsFirst(rest, i - 1);
        }
      }
      if e == es[0] { assert IsFirst(es, 0); }
    }
  }
}
