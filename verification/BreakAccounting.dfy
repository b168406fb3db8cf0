/** Break accounting of the rollup, against a pairing read off the whole history. */
module BreakAccounting {
  import opened Base
  import opened Projection

  function BuildingRow(s: Store, bucket: Time): Acc { Get(s.rows, RowKey("", bucket)) }

  /** Associates whose pending break started in `bucket`. */
  function PendingIn(breaks: map<string, Time>, bucket: Time): set<string> {
    set a | a in breaks && Bucket(breaks[a]) == bucket
  }

  /** Ended breaks and pending breaks of a bucket never exceed the breaks started there. */
  ghost predicate Accounted(s: Store, bucket: Time) {
    BuildingRow(s, bucket).breaksWithDuration + |PendingIn(s.breaks, bucket)| <= BuildingRow(s, bucket).breaks
  }

  lemma PendingAfter(breaks: map<string, Time>, e: Event, bucket: Time)
    ensures var was, now := PendingIn(breaks, bucket), PendingIn(NextBreaks(breaks, e), bucket);
            && (e.kind == BreakStart ==> |now| <= |was| + if Bucket(e.at) == bucket then 1 else 0)
            && (e.kind == BreakEnd ==>
                  |now| == |was| - if e.subject in breaks && Bucket(breaks[e.subject]) == bucket then 1 else 0)
  {
    var was, now := PendingIn(breaks, bucket), PendingIn(NextBreaks(breaks, e), bucket);
    if e.kind == BreakStart {
      if Bucket(e.at) == bucket { assert now == was + {e.subject}; } else { assert now == was - {e.subject}; }
    } else if e.kind == BreakEnd {
      assert now == was - {e.subject};
    }
  }

  /** The event ends a pending break that started in `bucket`. */
  predicate Closes(breaks: map<string, Time>, e: Event, bucket: Time) {
    e.kind == BreakEnd && e.subject in breaks && Bucket(breaks[e.subject]) == bucket
  }

  /** What a gain adds to one row. */
  function Share(g: Option<(RowKey, Acc)>, k: RowKey): Acc { if g.Some? && g.value.0 == k then g.value.1 else Zero }

  lemma GetAddGain(rows: map<RowKey, Acc>, g: Option<(RowKey, Acc)>, k: RowKey)
    ensures var was, now, d := Get(rows, k), Get(AddGain(rows, g), k), Share(g, k);
            && now.breaks == was.breaks + d.breaks
            && now.breaksWithDuration == was.breaksWithDuration + d.breaksWithDuration
            && now.breakNanos == was.breakNanos + d.breakNanos
  {
  }

  /** What an event adds to the break counters of a bucket. */
  lemma BreakShare(breaks: map<string, Time>, e: Event, bucket: Time)
    ensures var d := Share(Gain(breaks, e), RowKey("", bucket));
            && d.breaks == (if e.kind == BreakStart && Bucket(e.at) == bucket then 1 else 0)
            && d.breaksWithDuration == (if Closes(breaks, e, bucket) then 1 else 0)
            && d.breakNanos == (if Closes(breaks, e, bucket) then e.at - breaks[e.subject] else 0)
  {
    match e.kind
    case BreakStart =>
    case BreakEnd =>
    case _ =>
  }

  /** The three break counters of a bucket after one event. */
  lemma RowAfter(s: Store, e: Event, bucket: Time)
    requires e.id !in s.seen
    ensures var was, now := BuildingRow(s, bucket), BuildingRow(Apply(s, e), bucket);
            && now.breaks == was.breaks + (if e.kind == BreakStart && Bucket(e.at) == bucket then 1 else 0)
            && now.breaksWithDuration == was.breaksWithDuration + (if Closes(s.breaks, e, bucket) then 1 else 0)
            && now.breakNanos == was.breakNanos
                                 + (if Closes(s.breaks, e, bucket) then e.at - s.breaks[e.subject] else 0)
  {
    GetAddGain(s.rows, Gain(s.breaks, e), RowKey("", bucket));
    BreakShare(s.breaks, e, bucket);
  }

  lemma ApplyKeepsAccounts(s: Store, e: Event, bucket: Time)
    requires Accounted(s, bucket)
    ensures Accounted(Apply(s, e), bucket)
  {
    if e.id !in s.seen {
      RowAfter(s, e, bucket);
      PendingAfter(s.breaks, e, bucket);
    }
  }

  lemma {:induction false} FoldKeepsAccounts(s: Store, es: seq<Event>, bucket: Time)
    requires Accounted(s, bucket)
    ensures Accounted(Fold(s, es), bucket)
    decreases |es|
  {
    if es != [] {
      ApplyKeepsAccounts(s, es[0], bucket);
      FoldKeepsAccounts(Apply(s, es[0]), es[1..], bucket);
    }
  }

  /** In every reachable store, for every hour bucket. */
  lemma BreaksAreAccounted(es: seq<Event>, bucket: Time)
    ensures Accounted(Fold(Empty, es), bucket)
  {
    assert PendingIn(Empty.breaks, bucket) == {};
    FoldKeepsAccounts(Empty, es, bucket);
  }

  // ---- The pairing, from the history alone ----

  /** `es[i]` is the latest start of the associate whose break `es[j]` ends, and nothing has consumed it. */
  ghost predicate Pairs(es: seq<Event>, i: int, j: int) {
    && 0 <= i < j < |es|
    && es[i].kind == BreakStart && es[j].kind == BreakEnd && es[i].subject == es[j].subject
    && forall k :: i < k < j ==> !BreakOf(es[k], es[j].subject)
  }

  /** The last break event of `a` among the first `n`, or -1. */
  function LastBreak(es: seq<Event>, n: nat, a: string): (i: int)
    requires n <= |es|
    ensures -1 <= i < n
    ensures i >= 0 ==> BreakOf(es[i], a)
    ensures forall k :: i < k < n ==> !BreakOf(es[k], a)
  {
    if n == 0 then -1 else if BreakOf(es[n - 1], a) then n - 1 else LastBreak(es, n - 1, a)
  }

  /** The start that the end `es[j]` pairs with, or -1. */
  function Partner(es: seq<Event>, j: nat): (i: int)
    requires j < |es|
    ensures i >= 0 ==> Pairs(es, i, j)
    ensures i < 0 ==> forall k :: !Pairs(es, k, j)
  {
    var i := LastBreak(es, j, es[j].subject);
    if es[j].kind == BreakEnd && i >= 0 && es[i].kind == BreakStart then i else -1
  }

  predicate PairedIn(es: seq<Event>, j: nat, bucket: Time)
    requires j < |es|
  {
    Partner(es, j) >= 0 && Bucket(es[Partner(es, j)].at) == bucket
  }

  /** How many ends among the first `n` events pair with a start of `bucket`. */
  function PairCount(es: seq<Event>, n: nat, bucket: Time): nat
    requires n <= |es|
  {
    if n == 0 then 0 else PairCount(es, n - 1, bucket) + if PairedIn(es, n - 1, bucket) then 1 else 0
  }

  /** The total length of those breaks. */
  function PairNanos(es: seq<Event>, n: nat, bucket: Time): int
    requires n <= |es|
  {
    if n == 0 then 0
    else PairNanos(es, n - 1, bucket)
         + if PairedIn(es, n - 1, bucket) then es[n - 1].at - es[Partner(es, n - 1)].at else 0
  }

  /** The pending breaks are the associates whose last break event is a start. */
  ghost predicate PendingIs(breaks: map<string, Time>, es: seq<Event>, n: nat)
    requires n <= |es|
  {
    forall a :: PendingAs(breaks, es, n, a)
  }

  predicate PendingAs(breaks: map<string, Time>, es: seq<Event>, n: nat, a: string)
    requires n <= |es|
  {
    var i := LastBreak(es, n, a);
    && (a in breaks <==> i >= 0 && es[i].kind == BreakStart)
    && (a in breaks ==> breaks[a] == es[i].at)
  }

  lemma PendingStep(breaks: map<string, Time>, es: seq<Event>, n: nat)
    requires n < |es| && PendingIs(breaks, es, n)
    ensures PendingIs(NextBreaks(breaks, es[n]), es, n + 1)
  {
    var next, m := NextBreaks(breaks, es[n]), n + 1;
    forall a ensures PendingAs(next, es, m, a) {
      assert PendingAs(breaks, es, n, a);
    }
  }

  lemma FoldSnoc(es: seq<Event>, n: nat)
    requires n < |es|
    ensures Fold(Empty, es[..n + 1]) == Apply(Fold(Empty, es[..n]), es[n])
  {
    assert es[..n + 1] == es[..n] + [es[n]];
    FoldConcat(Empty, es[..n], [es[n]]);
  }

  lemma {:induction false} SeenIsPast(es: seq<Event>, n: nat)
    requires n <= |es| && Projection.UniqueIds(es)
    ensures forall i :: n <= i < |es| ==> es[i].id !in Fold(Empty, es[..n]).seen
  {
    if n > 0 {
      SeenIsPast(es, n - 1);
      FoldSnoc(es, n - 1);
    }
  }

  lemma {:induction false} PendingTracksHistory(es: seq<Event>, n: nat)
    requires n <= |es| && Projection.UniqueIds(es)
    ensures PendingIs(Fold(Empty, es[..n]).breaks, es, n)
  {
    if n == 0 {
      assert es[..0] == [];
    } else {
      var s := Fold(Empty, es[..n - 1]);
      PendingTracksHistory(es, n - 1);
      PendingStep(s.breaks, es, n - 1);
      assert Fold(Empty, es[..n]).breaks == NextBreaks(s.breaks, es[n - 1]) by {
        FoldSnoc(es, n - 1);
        SeenIsPast(es, n - 1);
      }
    }
  }

  lemma ClosesIffPaired(breaks: map<string, Time>, es: seq<Event>, n: nat, bucket: Time)
    requires n < |es| && PendingIs(breaks, es, n)
    ensures Closes(breaks, es[n], bucket) <==> PairedIn(es, n, bucket)
    ensures PairedIn(es, n, bucket) ==> breaks[es[n].subject] == es[Partner(es, n)].at
  {
    assert PendingAs(breaks, es, n, es[n].subject);
  }

  predicate RowMatches(s: Store, es: seq<Event>, n: nat, bucket: Time)
    requires n <= |es|
  {
    var r := BuildingRow(s, bucket);
    r.breaksWithDuration == PairCount(es, n, bucket) && r.breakNanos == PairNanos(es, n, bucket)
  }

  lemma RowMatchesNext(s: Store, es: seq<Event>, n: nat, bucket: Time)
    requires n < |es| && es[n].id !in s.seen && PendingIs(s.breaks, es, n) && RowMatches(s, es, n, bucket)
    ensures RowMatches(Apply(s, es[n]), es, n + 1, bucket)
  {
    ClosesIffPaired(s.breaks, es, n, bucket);
    RowAfter(s, es[n], bucket);
  }

  lemma RowMatchesSnoc(es: seq<Event>, n: nat, bucket: Time)
    requires n < |es| && Projection.UniqueIds(es) && RowMatches(Fold(Empty, es[..n]), es, n, bucket)
    ensures RowMatches(Fold(Empty, es[..n + 1]), es, n + 1, bucket)
  {
    var s := Fold(Empty, es[..n]);
    FoldSnoc(es, n);
    SeenIsPast(es, n);
    PendingTracksHistory(es, n);
    RowMatchesNext(s, es, n, bucket);
  }

  lemma NothingMatches(es: seq<Event>, bucket: Time)
    ensures RowMatches(Fold(Empty, es[..0]), es, 0, bucket)
  {
    assert es[..0] == [];
  }

  /** The incremental rollup equals the whole-history pairing, bucket by bucket. */
  lemma {:induction false} RollupPairsHistory(es: seq<Event>, n: nat, bucket: Time)
    requires n <= |es| && Projection.UniqueIds(es)
    ensures RowMatches(Fold(Empty, es[..n]), es, n, bucket)
  {
    if n == 0 {
      NothingMatches(es, bucket);
    } else {
      RollupPairsHistory(es, n - 1, bucket);
      RowMatchesSnoc(es, n - 1, bucket);
    }
  }

  // ---- Duplicates do not matter ----

  /** The first delivery of each id. */
  function Fresh(seen: set<string>, es: seq<Event>): (r: seq<Event>)
    ensures Projection.UniqueIds(r) && forall i :: 0 <= i < |r| ==> r[i].id !in seen
    decreases |es|
  {
    if es == [] then []
    else if es[0].id in seen then Fresh(seen, es[1..])
    else [es[0]] + Fresh(seen + {es[0].id}, es[1..])
  }

  lemma {:induction false} FoldIgnoresDuplicates(s: Store, es: seq<Event>)
    ensures Fold(s, es) == Fold(s, Fresh(s.seen, es))
    decreases |es|
  {
    if es != [] {
      FoldIgnoresDuplicates(Apply(s, es[0]), es[1..]);
      if es[0].id !in s.seen {
        assert Fresh(s.seen, es)[1..] == Fresh(s.seen + {es[0].id}, es[1..]);
      }
    }
  }

  /** The mean of `n` durations that sum to `nanos`, in seconds; 0 when there are none. */
  function MeanSeconds(nanos: int, n: int): real {
    if n > 0 then nanos as real / 1_000_000_000.0 / n as real else 0.0
  }

  /** The reported average. */
  function AverageSeconds(a: Acc): real { MeanSeconds(a.breakNanos, a.breaksWithDuration) }

  /** `x` seconds is the mean of `n` durations that sum to `nanos` nanoseconds, and 0 when there are none. */
  predicate IsMean(x: real, nanos: int, n: int) {
    if n > 0 then x * n as real * 1_000_000_000.0 == nanos as real else x == 0.0
  }

  lemma NoZeroProduct(d: real, k: real)
    requires k > 0.0
    ensures d * k == 0.0 <==> d == 0.0
  {
  }

  lemma TimesBack(x: real, y: real, k: real)
    requires k > 0.0
    ensures x == y / k <==> x * k == y
  {
    var q := y / k;
    assert q * k == y;
    NoZeroProduct(x - q, k);
    assert (x - q) * k == x * k - y;
  }

  lemma MeanIs(x: real, nanos: int, n: int)
    ensures x == MeanSeconds(nanos, n) <==> IsMean(x, nanos, n)
  {
    if n > 0 {
      var seconds := nanos as real / 1_000_000_000.0;
      TimesBack(x, seconds, n as real);
      TimesBack(x * n as real, nanos as real, 1_000_000_000.0);
    }
  }

  /** What the report shows is the mean over the paired breaks of the bucket, for any deliveries with duplicates: times
      their number it is their total length, and it is 0 when there are none. */
  lemma ReportedAverage(es: seq<Event>, bucket: Time)
    ensures var h := Fresh({}, es); var x := AverageSeconds(BuildingRow(Fold(Empty, es), bucket));
            && x == MeanSeconds(PairNanos(h, |h|, bucket), PairCount(h, |h|, bucket))
            && IsMean(x, PairNanos(h, |h|, bucket), PairCount(h, |h|, bucket))
  {
    var h := Fresh({}, es);
    FoldIgnoresDuplicates(Empty, es);
    RollupPairsHistory(h, |h|, bucket);
    assert h[..|h|] == h;
    MeanIs(AverageSeconds(BuildingRow(Fold(Empty, es), bucket)), PairNanos(h, |h|, bucket), PairCount(h, |h|, bucket));
  }
}
