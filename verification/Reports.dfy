/** What a report says about the events delivered, duplicates and all. */
module Reports {
  import opened Base
  import opened Projection
  import opened BreakAccounting
  import opened ReadModels
  import opened HourlyCounts

  /** The columns of a line, counted over the first deliveries `h`. */
  predicate IsTold(h: seq<Event>, r: ReportRow) {
    var p, b := r.key.path, r.key.bucket;
    && r.shiftsStarted == Count(h, ShiftStart, p, b)
    && r.shiftsEnded == Count(h, ShiftEnd, p, b)
    && r.breaks == Count(h, BreakStart, p, b)
    && r.certifications == Count(h, Certification, p, b)
    && r.assignments == Count(h, Assignment, p, b)
    && r.reassignments == Count(h, Reassignment, p, b)
    && r.understaffed == Count(h, Understaffing, p, b)
    && if p == "" then IsMean(r.averageSeconds, Length(h, |h|, b), Ended(h, |h|, b)) else r.averageSeconds == 0.0
  }

  /** The counters of one row, all at once. */
  predicate RowTold(a: Acc, h: seq<Event>, k: RowKey) {
    && a.shiftsStarted == Count(h, ShiftStart, k.path, k.bucket)
    && a.shiftsEnded == Count(h, ShiftEnd, k.path, k.bucket)
    && a.breaks == Count(h, BreakStart, k.path, k.bucket)
    && a.certifications == Count(h, Certification, k.path, k.bucket)
    && a.assignments == Count(h, Assignment, k.path, k.bucket)
    && a.reassignments == Count(h, Reassignment, k.path, k.bucket)
    && a.understaffed == Count(h, Understaffing, k.path, k.bucket)
  }

  lemma CountersTold(h: seq<Event>, k: RowKey)
    requires UniqueIds(h)
    ensures RowTold(Get(Fold(Empty, h).rows, k), h, k)
  {
    var a := Get(Fold(Empty, h).rows, k);
    forall c | c != BreakEnd ensures Counter(a, c) == Count(h, c, k.path, k.bucket) {
      CountersAreCounts(h, c, k.path, k.bucket);
      assert k == RowKey(k.path, k.bucket);
    }
    EachCounter(a, h, k);
  }

  lemma EachCounter(a: Acc, h: seq<Event>, k: RowKey)
    requires forall c :: c != BreakEnd ==> Counter(a, c) == Count(h, c, k.path, k.bucket)
    ensures RowTold(a, h, k)
  {
    assert Counter(a, ShiftStart) == a.shiftsStarted && Counter(a, ShiftEnd) == a.shiftsEnded;
    assert Counter(a, BreakStart) == a.breaks && Counter(a, Certification) == a.certifications;
    assert Counter(a, Assignment) == a.assignments && Counter(a, Reassignment) == a.reassignments;
    assert Counter(a, Understaffing) == a.understaffed;
  }

  /** For any deliveries with duplicates, a line is in the report if and only if some event belongs on its path and in
      its hour, the hour lies in the window, the path is the one asked for, and every column is the count, over first
      deliveries, of its own kind of event there; the average is the mean over the breaks that started in that hour
      and ended, and 0 when there are none. */
  lemma ReportTells(es: seq<Event>, q: Query, r: ReportRow)
    ensures var h := Fresh({}, es);
            r in Report(Fold(Empty, es).rows, q) <==>
              && Called(h, r.key.path, r.key.bucket)
              && q.from <= r.key.bucket && r.key.bucket < q.to && (q.path == "" || r.key.path == q.path)
              && IsTold(h, r)
  {
    var h, s := Fresh({}, es), Fold(Empty, es);
    FoldIgnoresDuplicates(Empty, es);
    ReportLines(s.rows, q, r);
    RowsAreCalled(h, r.key);
    if r.key in s.rows {
      CountersTold(h, r.key);
      BreaksArePairs(h, r.key.bucket);
      NoBreaksOnPaths(Empty, h);
    }
  }
}
