/** Use cases running one after the other: the published events are a complete journal, and time is well ordered. */
module SerialRuns {
  import opened Base
  import opened Messages
  import opened Associates
  import opened Assignments
  import opened UseCases
  import Concurrency

  datatype World = World(accounts: map<string, Account>, published: seq<DomainEvent>)

  datatype Call = Call(who: string, op: Op, now: Time)

  const Init := World(map[], [])

  function At(w: World, who: string): Account { if who in w.accounts then w.accounts[who] else Blank }

  /** One call from start to end with nothing in between: it decides on what is stored. */
  function Exec(max: Time, w: World, k: Call): World {
    match Finish(At(w, k.who), k.who, k.op, At(w, k.who), max, k.now)
    case Err(_) => w
    case Ok(effect) => World(w.accounts[k.who := effect.account], w.published + effect.events)
  }

  function Run(max: Time, w: World, calls: seq<Call>): World {
    if calls == [] then w else Exec(max, Run(max, w, calls[..|calls| - 1]), calls[|calls| - 1])
  }

  /** An uninterrupted call of the concurrent system is `Exec`. */
  lemma AloneIsSerial(max: Time, s: Concurrency.State, c: nat, k: Call) returns (steps: seq<Concurrency.Step>)
    requires c !in s.calls && Concurrency.Inv(s, max)
    ensures Concurrency.Legal(max, s, steps)
    ensures var t, w := Concurrency.Run(max, s, steps), Exec(max, World(s.accounts, s.published), k);
            t.accounts == w.accounts && t.published == w.published && t.calls == s.calls
  {
    var a := Concurrency.At(s, k.who);
    assert Concurrency.Stored(a, Concurrency.BaseOf(s, k.who), max);
    var t := Concurrency.Next(max, s, Concurrency.Begin(c, k.who, k.op));
    var loaded := Loaded(t, c, a);
    steps := Loads(max, t, c, k, a);
    var u := Concurrency.Run(max, t, steps);
    SeesEnough(a, k, loaded, max);
    var last := Concurrency.Complete(c, k.now);
    Concurrency.RunSnoc(max, t, steps, last);
    assert Concurrency.Next(max, u, last).calls == s.calls;
    Concurrency.RunCons(max, s, Concurrency.Begin(c, k.who, k.op), steps + [last]);
    steps := [Concurrency.Begin(c, k.who, k.op)] + (steps + [last]);
  }

  /** What a call that is alone ends up having read. */
  function Loaded(s: Concurrency.State, c: nat, a: Account): Account
    requires c in s.calls
  {
    if !Concurrency.LoadsAssignment(s.calls[c].op, a.shift) then Account(a.shift, None, []) else a
  }

  lemma Loads(max: Time, s: Concurrency.State, c: nat, k: Call, a: Account) returns (steps: seq<Concurrency.Step>)
    requires c in s.calls && s.calls[c] == Concurrency.Call(k.who, k.op, Concurrency.Begun, Blank)
    requires a == Concurrency.At(s, k.who) && (a.row == None ==> a.history == [])
    ensures Concurrency.Legal(max, s, steps)
    ensures Concurrency.Run(max, s, steps)
            == s.(calls := s.calls[c := Concurrency.Call(k.who, k.op, Concurrency.Ready, Loaded(s, c, a))])
  {
    var s1 := Concurrency.Next(max, s, Concurrency.ReadShift(c));
    if Concurrency.LoadsAssignment(k.op, a.shift) {
      var s2 := Concurrency.Next(max, s1, Concurrency.ReadRow(c));
      if a.row.Some? {
        Concurrency.RunCons(max, s2, Concurrency.ReadHistory(c), []);
        Concurrency.RunCons(max, s1, Concurrency.ReadRow(c), [Concurrency.ReadHistory(c)] + []);
        steps := [Concurrency.ReadRow(c)] + ([Concurrency.ReadHistory(c)] + []);
      } else {
        Concurrency.RunCons(max, s1, Concurrency.ReadRow(c), []);
        steps := [Concurrency.ReadRow(c)] + [];
      }
    } else {
      steps := [];
    }
    Concurrency.RunCons(max, s, Concurrency.ReadShift(c), steps);
    steps := [Concurrency.ReadShift(c)] + steps;
  }

  /** What a call does not read does not matter to it. */
  lemma SeesEnough(a: Account, k: Call, seen: Account, max: Time)
    requires seen == if Concurrency.LoadsAssignment(k.op, a.shift) then a else Account(a.shift, None, [])
    ensures Finish(a, k.who, k.op, seen, max, k.now) == Finish(a, k.who, k.op, a, max, k.now)
  {
  }

  // ---- The journal ----

  /** What the journal is to rebuild: everything stored but the versions. */
  datatype View = View(shift: Option<Shift>, active: Option<Interval>, history: seq<Interval>)

  function Snapshot(a: Account): View {
    View(if a.shift.Some? then Some(a.shift.value.shift) else None,
         if a.row.Some? then a.row.value.active else None, a.history)
  }

  function Reshaped(v: View, s: Shift): View { v.(shift := Some(s)) }

  /** Closing the active interval at `at` and logging its length. */
  function ClosedAt(v: View, at: Time): View {
    if v.active == None || v.shift == None then v
    else
      var i, s := v.active.value, v.shift.value;
      View(Some(s.(hours := s.hours + (at - i.start))), None, v.history + [i.(end := Some(at))])
  }

  /** A reader of the event stream, following one associate. */
  function Read(v: View, e: DomainEvent, who: string): View {
    match e
    case ShiftStarted(_, a, certs) => if a == who then Reshaped(v, NewShift(certs)) else v
    case ShiftEnded(at, a) =>
      if a == who && v.shift.Some? then var u := ClosedAt(v, at); Reshaped(u, u.shift.value.(ended := true)) else v
    case BreakStarted(_, a) =>
      if a == who && v.shift.Some? then Reshaped(v, v.shift.value.(onBreak := true)) else v
    case BreakEnded(_, a) =>
      if a == who && v.shift.Some? then Reshaped(v, v.shift.value.(onBreak := false)) else v
    case Certified(_, a, cert) =>
      if a == who && v.shift.Some? then Reshaped(v, v.shift.value.(certs := v.shift.value.certs + {cert})) else v
    case LaborAssigned(at, a, path) => if a == who then v.(active := Some(Interval(path, at, None))) else v
    case LaborReassigned(at, a, _, path) =>
      if a == who then ClosedAt(v, at).(active := Some(Interval(path, at, None))) else v
    case _ => v
  }

  function Replay(es: seq<DomainEvent>, who: string): View {
    if es == [] then View(None, None, []) else Read(Replay(es[..|es| - 1], who), es[|es| - 1], who)
  }

  /** Reading on from `v`, for the one event at most that a call publishes. */
  function ReadOn(v: View, es: seq<DomainEvent>, who: string): View { if es == [] then v else Read(v, es[0], who) }

  lemma {:induction false} ReplayConcat(es: seq<DomainEvent>, fs: seq<DomainEvent>, who: string)
    requires |fs| <= 1
    ensures Replay(es + fs, who) == ReadOn(Replay(es, who), fs, who)
  {
    if fs == [] { assert es + fs == es; } else { assert (es + fs)[..|es|] == es; }
  }

  /** One associate's rows between serial calls. */
  ghost predicate Tidy(a: Account) {
    && (a.row == None ==> a.history == [])
    && (a.shift == None ==> a.row == None)
    && AllClosed(a.history)
    && Concurrency.Rested(a)
    && (Concurrency.HasActive(a) ==> a.row.value.active.value.end == None)
  }

  /** A serial call meets no conflict: only its own rules can refuse it. */
  lemma SerialNeverConflicts(a: Account, who: string, op: Op, max: Time, now: Time)
    requires Tidy(a)
    ensures Finish(a, who, op, a, max, now).Ok? <==> Decide(who, op, a, max, now).Ok?
  {
  }

  lemma FinishKeepsTidy(a: Account, who: string, op: Op, max: Time, now: Time)
    requires Tidy(a) && Finish(a, who, op, a, max, now).Ok?
    ensures Tidy(Finish(a, who, op, a, max, now).value.account)
  {
  }

  /** The event a call publishes tells a reader all that the call changed, and nothing about anyone else. */
  lemma EventTellsAll(a: Account, who: string, op: Op, max: Time, now: Time)
    requires Tidy(a) && Finish(a, who, op, a, max, now).Ok?
    ensures var effect := Finish(a, who, op, a, max, now).value;
            && |effect.events| <= 1
            && Snapshot(effect.account) == ReadOn(Snapshot(a), effect.events, who)
            && forall w, v :: w != who ==> ReadOn(v, effect.events, w) == v
  {
  }

  ghost predicate Inv(w: World) {
    forall who :: Tidy(At(w, who)) && Replay(w.published, who) == Snapshot(At(w, who))
  }

  lemma ExecKeepsInv(max: Time, w: World, k: Call)
    requires Inv(w)
    ensures Inv(Exec(max, w, k))
  {
    var t, a := Exec(max, w, k), At(w, k.who);
    assert Tidy(a);
    if Finish(a, k.who, k.op, a, max, k.now).Ok? {
      FinishKeepsTidy(a, k.who, k.op, max, k.now);
      EventTellsAll(a, k.who, k.op, max, k.now);
      forall who ensures Tidy(At(t, who)) && Replay(t.published, who) == Snapshot(At(t, who)) {
        assert Tidy(At(w, who));
        ReplayConcat(w.published, Finish(a, k.who, k.op, a, max, k.now).value.events, who);
      }
    }
  }

  lemma {:induction false} RunKeepsInv(max: Time, calls: seq<Call>)
    ensures Inv(Run(max, Init, calls))
  {
    if calls == [] {
      assert Replay([], "") == View(None, None, []);
    } else {
      RunKeepsInv(max, calls[..|calls| - 1]);
      ExecKeepsInv(max, Run(max, Init, calls[..|calls| - 1]), calls[|calls| - 1]);
    }
  }

  /** The domain events handed to the publisher are a complete journal: after every serial run, reading them rebuilds
      each associate's certifications, break flag, hours and ended flag, the active interval and every closed one. */
  lemma DomainEventsAreAJournal(max: Time, calls: seq<Call>, who: string)
    ensures Replay(Run(max, Init, calls).published, who) == Snapshot(At(Run(max, Init, calls), who))
  {
    RunKeepsInv(max, calls);
  }

  /** After every serial run, an ended shift has no active assignment. */
  lemma EndedMeansInactive(max: Time, calls: seq<Call>, who: string)
    ensures Concurrency.Rested(At(Run(max, Init, calls), who))
  {
    RunKeepsInv(max, calls);
    assert Tidy(At(Run(max, Init, calls), who));
  }

  // ---- Time ----

  /** Intervals one after the other, none overlapping. */
  ghost predicate InOrder(h: seq<Interval>)
    requires AllClosed(h)
  {
    && (forall i :: 0 <= i < |h| ==> h[i].start <= h[i].end.value)
    && (forall i, j :: 0 <= i < j < |h| ==> h[i].end.value <= h[j].start)
  }

  /** The closed intervals are in order, the active one follows them, and nothing is later than `clock`. */
  ghost predicate Timely(a: Account, clock: Time) {
    && AllClosed(a.history) && InOrder(a.history)
    && (a.history != [] ==> a.history[|a.history| - 1].end.value <= clock)
    && (Concurrency.HasActive(a) ==>
          && a.row.value.active.value.start <= clock
          && (a.history != [] ==> a.history[|a.history| - 1].end.value <= a.row.value.active.value.start))
  }

  /** Appending the interval that was active, ended now, keeps the order. */
  lemma AppendKeepsOrder(h: seq<Interval>, i: Interval)
    requires AllClosed(h) && InOrder(h) && i.end.Some? && i.start <= i.end.value
    requires h != [] ==> h[|h| - 1].end.value <= i.start
    ensures AllClosed(h + [i]) && InOrder(h + [i])
  {
    forall k | 0 <= k < |h| ensures h[k].end.value <= i.start {
      if k < |h| - 1 { assert h[k].end.value <= h[|h| - 1].start <= h[|h| - 1].end.value; }
    }
  }

  /** What a call does to the intervals: nothing, or it closes the active one now, and may open one now. */
  lemma IntervalsAfter(a: Account, who: string, op: Op, max: Time, now: Time)
    requires Tidy(a) && Finish(a, who, op, a, max, now).Ok?
    ensures var b := Finish(a, who, op, a, max, now).value.account;
            || (b.history == a.history && b.row == a.row)
            || (!Concurrency.HasActive(a) && b.history == a.history && StartsNow(b, now))
            || (Concurrency.HasActive(a) && b.history == a.history + [a.row.value.active.value.(end := Some(now))]
                && StartsNow(b, now))
  {
  }

  predicate StartsNow(a: Account, now: Time) { Concurrency.HasActive(a) ==> a.row.value.active.value.start == now }

  lemma FinishKeepsTimely(a: Account, who: string, op: Op, max: Time, now: Time, clock: Time)
    requires Tidy(a) && Timely(a, clock) && clock <= now && Finish(a, who, op, a, max, now).Ok?
    ensures Timely(Finish(a, who, op, a, max, now).value.account, now)
  {
    IntervalsAfter(a, who, op, max, now);
    if Concurrency.HasActive(a) {
      AppendKeepsOrder(a.history, a.row.value.active.value.(end := Some(now)));
    }
  }

  /** The clock does not run backwards from one call to the next. */
  predicate Timed(calls: seq<Call>) {
    forall i, j :: 0 <= i < j < |calls| ==> calls[i].now <= calls[j].now
  }

  lemma TimelyLater(a: Account, clock: Time, later: Time)
    requires Timely(a, clock) && clock <= later
    ensures Timely(a, later)
  {
  }

  lemma ExecKeepsTimely(max: Time, w: World, k: Call, who: string)
    requires Inv(w) && Timely(At(w, who), k.now)
    ensures Timely(At(Exec(max, w, k), who), k.now)
  {
    var a := At(w, who);
    assert Tidy(a);
    if who == k.who && Finish(a, who, k.op, a, max, k.now).Ok? {
      FinishKeepsTimely(a, who, k.op, max, k.now, k.now);
    }
  }

  /** After every serial run under such a clock, an associate's closed intervals are ordered and disjoint, and end no
      later than the active one starts. */
  lemma {:induction false} IntervalsAreOrdered(max: Time, calls: seq<Call>, clock: Time, who: string)
    requires Timed(calls) && forall i :: 0 <= i < |calls| ==> calls[i].now <= clock
    ensures Timely(At(Run(max, Init, calls), who), clock)
  {
    if calls != [] {
      var n := |calls| - 1;
      IntervalsAreOrdered(max, calls[..n], calls[n].now, who);
      RunKeepsInv(max, calls[..n]);
      ExecKeepsTimely(max, Run(max, Init, calls[..n]), calls[n], who);
      TimelyLater(At(Run(max, Init, calls), who), calls[n].now, clock);
    }
  }
}
