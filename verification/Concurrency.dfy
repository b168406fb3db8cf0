/** Use cases running at once, with stale and torn loads: hours are conserved and no stale load is persisted. */
module Concurrency {
  import opened Base
  import opened Messages
  import opened Associates
  import opened Assignments
  import opened UseCases

  /** How far a call has read. */
  datatype Pc = Begun | HasShift | HasRow | Ready

  datatype Call = Call(who: string, op: Op, pc: Pc, seen: Account)

  /** `bases` is a history variable: how many intervals an associate had closed when the shift was last started. */
  datatype State = State(
    accounts: map<string, Account>, bases: map<string, nat>, published: seq<DomainEvent>, calls: map<nat, Call>)

  datatype Step =
    | Begin(c: nat, who: string, op: Op)
    | ReadShift(c: nat)
    | ReadRow(c: nat)
    | ReadHistory(c: nat)
    | Complete(c: nat, now: Time)
    | Drop(c: nat)                    // any I/O failure, up to a failed commit: the call changes nothing

  const Init := State(map[], map[], [], map[])

  function At(s: State, who: string): Account { if who in s.accounts then s.accounts[who] else Blank }

  function BaseOf(s: State, who: string): nat { if who in s.bases then s.bases[who] else 0 }

  /** Whether the call goes on to load the assignment. */
  predicate LoadsAssignment(op: Op, shift: Option<ShiftRow>) {
    shift.Some? && (op.End? || (op.Assign? && shift.value.shift.CanBeAssigned() == None))
  }

  predicate Enabled(s: State, a: Step) {
    match a
    case Begin(c, _, _) => c !in s.calls
    case ReadShift(c) => c in s.calls && s.calls[c].pc == Begun
    case ReadRow(c) => c in s.calls && s.calls[c].pc == HasShift
    case ReadHistory(c) => c in s.calls && s.calls[c].pc == HasRow
    case Complete(c, _) => c in s.calls && s.calls[c].pc == Ready
    case Drop(c) => c in s.calls
  }

  function Loading(call: Call, a: Account): Call {
    match call.pc
    case Begun =>
      call.(seen := call.seen.(shift := a.shift), pc := if LoadsAssignment(call.op, a.shift) then HasShift else Ready)
    case HasShift => call.(seen := call.seen.(row := a.row), pc := if a.row.Some? then HasRow else Ready)
    case HasRow => call.(seen := call.seen.(history := a.history), pc := Ready)
    case Ready => call
  }

  function Outcome(s: State, c: nat, max: Time, now: Time): Result<Effect, Error>
    requires c in s.calls
  {
    var k := s.calls[c];
    Finish(At(s, k.who), k.who, k.op, k.seen, max, now)
  }

  function Next(max: Time, s: State, a: Step): State
    requires Enabled(s, a)
  {
    match a
    case Begin(c, who, op) => s.(calls := s.calls[c := Call(who, op, Begun, Blank)])
    case Complete(c, now) =>
      var s', k := s.(calls := s.calls - {c}), s.calls[c];
      (match Outcome(s, c, max, now)
       case Err(_) => s'
       case Ok(effect) =>
         s'.(accounts := s.accounts[k.who := effect.account],
             bases := if k.op.Start? then s.bases[k.who := |effect.account.history|] else s.bases,
             published := s.published + effect.events))
    case Drop(c) => s.(calls := s.calls - {c})
    case _ => s.(calls := s.calls[a.c := Loading(s.calls[a.c], At(s, s.calls[a.c].who))])
  }

  ghost predicate Legal(max: Time, s: State, steps: seq<Step>)
    decreases |steps|
  {
    steps == [] || (Enabled(s, steps[0]) && Legal(max, Next(max, s, steps[0]), steps[1..]))
  }

  ghost function Run(max: Time, s: State, steps: seq<Step>): State
    requires Legal(max, s, steps)
    decreases |steps|
  {
    if steps == [] then s else Run(max, Next(max, s, steps[0]), steps[1..])
  }

  lemma RunCons(max: Time, s: State, a: Step, rest: seq<Step>)
    requires Enabled(s, a) && Legal(max, Next(max, s, a), rest)
    ensures Legal(max, s, [a] + rest) && Run(max, s, [a] + rest) == Run(max, Next(max, s, a), rest)
  {
    assert ([a] + rest)[1..] == rest;
  }

  // ---- Invariants ----

  predicate HasActive(a: Account) { a.row.Some? && a.row.value.active.Some? }

  predicate Ended(a: Account) { a.shift.Some? && a.shift.value.shift.ended }

  /** The stored rows of one associate: hours are the closed time since `base`, and a first row has no history. */
  ghost predicate Stored(a: Account, base: nat, max: Time) {
    && (a.row == None ==> a.history == [])
    && (a.row.Some? ==> 1 <= a.row.value.version)
    && (a.row.Some? && a.row.value.version == 1 ==> a.history == [] && HasActive(a))
    && AllClosed(a.history)
    && (HasActive(a) ==> a.row.value.active.value.end == None)
    && base <= |a.history|
    && (a.shift.Some? ==> a.shift.value.shift.hours == Total(a.history[base..]) <= max)
  }

  /** What was read is no newer than what is stored, and equal to it where the versions agree. */
  ghost predicate Behind(seen: Account, a: Account) {
    && (seen.shift.Some? ==> a.shift.Some? && seen.shift.value.version <= a.shift.value.version
                             && (seen.shift.value.version == a.shift.value.version ==> seen.shift == a.shift))
    && (seen.row.Some? ==> a.row.Some? && seen.row.value.version <= a.row.value.version
                           && (seen.row.value.version == a.row.value.version ==> seen.row == a.row))
  }

  /** A torn history load is only possible under a row that has since moved on. */
  ghost predicate Torn(seen: Account, a: Account) {
    seen.row.Some? && a.row.Some? && seen.row.value.version == a.row.value.version ==> seen.history == a.history
  }

  ghost predicate CallInv(k: Call, a: Account) {
    Behind(k.seen, a) && (k.pc == Ready ==> Torn(k.seen, a))
    && (k.pc == Begun ==> k.seen == Blank)
    && (k.pc == HasShift ==> k.seen.row == None) && (k.pc == HasRow ==> k.seen.row.Some?)
    && (k.seen.row == None ==> k.seen.history == [])
  }

  ghost predicate Inv(s: State, max: Time) {
    && (forall who :: Stored(At(s, who), BaseOf(s, who), max))
    && (forall c :: c in s.calls ==> CallInv(s.calls[c], At(s, s.calls[c].who)))
  }

  /** How one associate's rows may move: a row changes only with its version, and history gains at most one interval. */
  ghost predicate Advances(a: Account, b: Account) {
    && (a.shift.Some? ==> b.shift.Some? && a.shift.value.version <= b.shift.value.version
                          && (a.shift != b.shift ==> a.shift.value.version < b.shift.value.version))
    && (a.row.Some? ==> b.row.Some? && a.row.value.version <= b.row.value.version
                        && (a.row != b.row || a.history != b.history ==> a.row.value.version < b.row.value.version))
    && (a.row == None && a.row == b.row ==> a.history == b.history)
    && (b.history == a.history || (|b.history| == |a.history| + 1 && a.history < b.history))
  }

  lemma TotalAppend(h: seq<Interval>, base: nat, i: Interval)
    requires base <= |h| && i.end.Some?
    ensures Total((h + [i])[base..]) == Total(h[base..]) + i.end.value - i.start
  {
    assert (h + [i])[base..] == h[base..] + [i];
    assert (h[base..] + [i])[..|h[base..]|] == h[base..];
  }

  /** A save that succeeds for a loaded aggregate replaces exactly the version that was loaded. */
  lemma SavedIsCurrent(a: Account, base: nat, who: string, op: Op, seen: Account, max: Time, now: Time)
    requires Stored(a, base, max) && Behind(seen, a) && Torn(seen, a)
    requires Finish(a, who, op, seen, max, now).Ok?
    ensures var tx := Decide(who, op, seen, max, now).value;
            && (tx.shift.Some? && seen.shift.Some? ==> seen.shift == a.shift)
            && (tx.assignment.Some? && seen.row.Some? ==> seen.row == a.row && seen.history == a.history)
            && (tx.assignment.Some? && seen.row == None ==> a.history == [])
  {
  }

  /** Closing an interval and logging its length together keeps hours and history in step. */
  lemma CloseKeepsStored(a: Account, b: Account, base: nat, i: Interval, max: Time)
    requires Stored(a, base, max) && i.end.Some? && b.history == a.history + [i]
    requires a.shift.Some? && b.shift.Some? && b.shift.value.shift.hours <= max
    requires b.shift.value.shift.hours == a.shift.value.shift.hours + (i.end.value - i.start)
    requires b.row.Some? && 2 <= b.row.value.version && (HasActive(b) ==> b.row.value.active.value.end == None)
    ensures Stored(b, base, max)
  {
    TotalAppend(a.history, base, i);
  }

  lemma AssignKeepsStored(a: Account, base: nat, who: string, path: string, seen: Account, max: Time, now: Time)
    requires Stored(a, base, max) && Behind(seen, a) && Torn(seen, a) && (seen.row == None ==> seen.history == [])
    requires Finish(a, who, Assign(path), seen, max, now).Ok?
    ensures var b := Finish(a, who, Assign(path), seen, max, now).value.account; Advances(a, b) && Stored(b, base, max)
  {
    SavedIsCurrent(a, base, who, Assign(path), seen, max, now);
    var b := Finish(a, who, Assign(path), seen, max, now).value.account;
    if HasActive(seen) { CloseKeepsStored(a, b, base, seen.row.value.active.value.(end := Some(now)), max); }
  }

  lemma EndKeepsStored(a: Account, base: nat, who: string, seen: Account, max: Time, now: Time)
    requires Stored(a, base, max) && Behind(seen, a) && Torn(seen, a) && (seen.row == None ==> seen.history == [])
    requires Finish(a, who, End, seen, max, now).Ok?
    ensures var b := Finish(a, who, End, seen, max, now).value.account; Advances(a, b) && Stored(b, base, max)
  {
    SavedIsCurrent(a, base, who, End, seen, max, now);
    var b := Finish(a, who, End, seen, max, now).value.account;
    if HasActive(seen) { CloseKeepsStored(a, b, base, seen.row.value.active.value.(end := Some(now)), max); }
  }

  /** Every successful call, whatever it had loaded, keeps one associate's rows in order. */
  lemma FinishKeepsStored(a: Account, base: nat, who: string, op: Op, seen: Account, max: Time, now: Time)
    requires 0 <= max && Stored(a, base, max) && Behind(seen, a) && Torn(seen, a)
    requires (seen.row == None ==> seen.history == [])
    requires Finish(a, who, op, seen, max, now).Ok?
    ensures var b := Finish(a, who, op, seen, max, now).value.account;
            Advances(a, b) && Stored(b, if op.Start? then |b.history| else base, max)
  {
    match op
    case Assign(path) => AssignKeepsStored(a, base, who, path, seen, max, now);
    case End => EndKeepsStored(a, base, who, seen, max, now);
    case Start(_) => assert a.history[|a.history|..] == [];
    case _ => SavedIsCurrent(a, base, who, op, seen, max, now);
  }

  // ---- Every interleaving ----

  /** What a call has read stays behind as the rows it read move on. */
  lemma CallFrame(k: Call, a: Account, b: Account)
    requires CallInv(k, a) && Advances(a, b)
    ensures CallInv(k, b)
  {
  }

  lemma LoadKeepsCall(k: Call, a: Account)
    requires CallInv(k, a) && (a.row == None ==> a.history == [])
    ensures CallInv(Loading(k, a), a)
  {
  }

  /** One associate's rows advance, the other associates' stay, and one call is gone. */
  lemma AdvanceKeepsInv(max: Time, s: State, t: State, who: string)
    requires Inv(s, max) && Advances(At(s, who), At(t, who)) && Stored(At(t, who), BaseOf(t, who), max)
    requires forall w :: w != who ==> At(t, w) == At(s, w) && BaseOf(t, w) == BaseOf(s, w)
    requires forall d :: d in t.calls ==> d in s.calls && t.calls[d] == s.calls[d]
    ensures Inv(t, max)
  {
    forall w ensures Stored(At(t, w), BaseOf(t, w), max) {
      if w != who { assert Stored(At(s, w), BaseOf(s, w), max); }
    }
    forall d | d in t.calls ensures CallInv(t.calls[d], At(t, t.calls[d].who)) {
      if t.calls[d].who == who { CallFrame(t.calls[d], At(s, who), At(t, who)); }
    }
  }

  lemma CompleteKeepsInv(max: Time, s: State, c: nat, now: Time)
    requires 0 <= max && Inv(s, max) && Enabled(s, Complete(c, now))
    ensures Inv(Next(max, s, Complete(c, now)), max)
  {
    var t, k := Next(max, s, Complete(c, now)), s.calls[c];
    assert Stored(At(s, k.who), BaseOf(s, k.who), max);
    if Outcome(s, c, max, now).Ok? {
      FinishKeepsStored(At(s, k.who), BaseOf(s, k.who), k.who, k.op, k.seen, max, now);
    }
    AdvanceKeepsInv(max, s, t, k.who);
  }

  /** A call after a step that completes none, against the rows, which have not moved. */
  lemma CallAfter(max: Time, s: State, a: Step, d: nat)
    requires Inv(s, max) && Enabled(s, a) && !a.Complete? && d in Next(max, s, a).calls
    ensures CallInv(Next(max, s, a).calls[d], At(s, Next(max, s, a).calls[d].who))
  {
    if d in s.calls {
      var j := s.calls[d];
      assert CallInv(j, At(s, j.who)) && Stored(At(s, j.who), BaseOf(s, j.who), max);
      LoadKeepsCall(j, At(s, j.who));
    }
  }

  lemma StepKeepsInv(max: Time, s: State, a: Step)
    requires 0 <= max && Inv(s, max) && Enabled(s, a)
    ensures Inv(Next(max, s, a), max)
  {
    if a.Complete? {
      CompleteKeepsInv(max, s, a.c, a.now);
    } else {
      var t := Next(max, s, a);
      assert t.accounts == s.accounts && t.bases == s.bases;
      forall who ensures At(t, who) == At(s, who) && Stored(At(t, who), BaseOf(t, who), max) {
        assert Stored(At(s, who), BaseOf(s, who), max);
      }
      forall d | d in t.calls ensures CallInv(t.calls[d], At(t, t.calls[d].who)) { CallAfter(max, s, a, d); }
    }
  }

  lemma {:induction false} RunKeepsInv(max: Time, s: State, steps: seq<Step>)
    requires 0 <= max && Inv(s, max) && Legal(max, s, steps)
    ensures Inv(Run(max, s, steps), max)
    decreases |steps|
  {
    if steps != [] {
      StepKeepsInv(max, s, steps[0]);
      RunKeepsInv(max, Next(max, s, steps[0]), steps[1..]);
    }
  }

  /** Hours are conserved: under every interleaving of every use case with loads as stale as they may be, the hours
      stored are the time in the intervals closed since the shift was last started, and within the maximum. */
  lemma HoursConserved(max: Time, steps: seq<Step>, who: string)
    requires 0 <= max && Legal(max, Init, steps)
    ensures var s := Run(max, Init, steps); var a := At(s, who);
            && BaseOf(s, who) <= |a.history|
            && (a.shift.Some? ==> a.shift.value.shift.hours == Total(a.history[BaseOf(s, who)..]) <= max)
  {
    RunKeepsInv(max, Init, steps);
    assert Stored(At(Run(max, Init, steps), who), BaseOf(Run(max, Init, steps), who), max);
  }

  /** A torn or stale load is never persisted. */
  lemma StaleLoadNeverPersisted(max: Time, steps: seq<Step>, c: nat, now: Time)
    requires 0 <= max && Legal(max, Init, steps) && Enabled(Run(max, Init, steps), Complete(c, now))
    requires Outcome(Run(max, Init, steps), c, max, now).Ok?
    ensures var s := Run(max, Init, steps); var k := s.calls[c]; var a := At(s, k.who);
            var tx, b := Decide(k.who, k.op, k.seen, max, now).value, Outcome(s, c, max, now).value.account;
            && (tx.shift.Some? && k.seen.shift.Some? ==> k.seen.shift == a.shift)
            && (tx.assignment.Some? && k.seen.row.Some? ==> k.seen.row == a.row && k.seen.history == a.history)
            && Advances(a, b)
  {
    RunKeepsInv(max, Init, steps);
    var s := Run(max, Init, steps);
    var k := s.calls[c];
    SavedIsCurrent(At(s, k.who), BaseOf(s, k.who), k.who, k.op, k.seen, max, now);
    FinishKeepsStored(At(s, k.who), BaseOf(s, k.who), k.who, k.op, k.seen, max, now);
  }

  // ---- What the versions do not guard ----

  /** An active interval is gone and no closed one took its place. */
  predicate LosesActive(a: Account, b: Account) {
    HasActive(a) && b.row != a.row && b.history == a.history
  }

  /** An ended shift has no active assignment. */
  predicate Rested(a: Account) { Ended(a) ==> !HasActive(a) }

  lemma AssignBreaks(a: Account, base: nat, who: string, path: string, seen: Account, max: Time, now: Time)
    requires Stored(a, base, max) && Behind(seen, a) && Torn(seen, a) && (seen.row == None ==> seen.history == [])
    requires Finish(a, who, Assign(path), seen, max, now).Ok?
    ensures var b := Finish(a, who, Assign(path), seen, max, now).value.account;
            (LosesActive(a, b) <==> seen.row == None && a.row.Some?) && (Rested(a) ==> (!Rested(b) <==> Ended(a)))
  {
    SavedIsCurrent(a, base, who, Assign(path), seen, max, now);
  }

  lemma EndBreaks(a: Account, base: nat, who: string, seen: Account, max: Time, now: Time)
    requires Stored(a, base, max) && Behind(seen, a) && Torn(seen, a) && (seen.row == None ==> seen.history == [])
    requires Finish(a, who, End, seen, max, now).Ok?
    ensures var b := Finish(a, who, End, seen, max, now).value.account;
            !LosesActive(a, b) && (Rested(a) ==> (!Rested(b) <==> HasActive(a) && !HasActive(seen)))
  {
    SavedIsCurrent(a, base, who, End, seen, max, now);
  }

  /** The calls that save only the shift. */
  lemma ShiftOnlyBreaks(a: Account, base: nat, who: string, op: Op, seen: Account, max: Time, now: Time)
    requires Stored(a, base, max) && Behind(seen, a) && Torn(seen, a) && !op.Assign? && !op.End?
    requires Finish(a, who, op, seen, max, now).Ok?
    ensures var b := Finish(a, who, op, seen, max, now).value.account; !LosesActive(a, b) && (Rested(a) ==> Rested(b))
  {
    SavedIsCurrent(a, base, who, op, seen, max, now);
  }

  lemma FinishBreaks(a: Account, base: nat, who: string, op: Op, seen: Account, max: Time, now: Time)
    requires Stored(a, base, max) && Behind(seen, a) && Torn(seen, a) && (seen.row == None ==> seen.history == [])
    requires Finish(a, who, op, seen, max, now).Ok?
    ensures var b := Finish(a, who, op, seen, max, now).value.account;
            && (LosesActive(a, b) <==> op.Assign? && seen.row == None && a.row.Some?)
            && (Rested(a) ==>
                  (!Rested(b) <==> (op.Assign? && Ended(a)) || (op.End? && HasActive(a) && !HasActive(seen))))
  {
    match op
    case Assign(path) => AssignBreaks(a, base, who, path, seen, max, now);
    case End => EndBreaks(a, base, who, seen, max, now);
    case _ => ShiftOnlyBreaks(a, base, who, op, seen, max, now);
  }

  /** In every reachable state, exactly which successful calls lose an interval, or break the rule that an ended shift
      has nothing active.  An interval is lost when an assignment loaded as absent is saved over a row, since both have
      version 1.  The rule breaks when an assignment lands on a shift that has ended, or a shift is ended by a call that
      had not seen the assignment that is now active: neither saves the row the other one guards. */
  lemma LostUpdates(max: Time, steps: seq<Step>, c: nat, now: Time)
    requires 0 <= max && Legal(max, Init, steps) && Enabled(Run(max, Init, steps), Complete(c, now))
    requires Outcome(Run(max, Init, steps), c, max, now).Ok?
    ensures var s := Run(max, Init, steps); var k := s.calls[c]; var a := At(s, k.who);
            var b := Outcome(s, c, max, now).value.account;
            && (LosesActive(a, b) <==> k.op.Assign? && k.seen.row == None && a.row.Some?)
            && (Rested(a) ==>
                  (!Rested(b) <==> (k.op.Assign? && Ended(a)) || (k.op.End? && HasActive(a) && !HasActive(k.seen))))
  {
    RunKeepsInv(max, Init, steps);
    var s := Run(max, Init, steps);
    var k := s.calls[c];
    FinishBreaks(At(s, k.who), BaseOf(s, k.who), k.who, k.op, k.seen, max, now);
  }

  // ---- Which calls miss another's work ----

  /** The call acts on what is no longer so.  An assignment that closes nothing saves no shift row: it misses an end, a
      break or a restart without the certification, and, if it had found no assignment, the first one.  An end that
      closes nothing saves no assignment row: it misses the one that is active now. */
  predicate Misses(a: Account, op: Op, seen: Account) {
    match op
    case Assign(path) =>
      && !HasActive(seen)
      && (|| (a.shift.Some? && (a.shift.value.shift.CanBeAssigned().Some? || path !in a.shift.value.shift.certs))
          || (seen.row == None && a.row.Some?))
    case End => !HasActive(seen) && HasActive(a)
    case _ => false
  }

  lemma AssignMisses(a: Account, base: nat, who: string, path: string, seen: Account, max: Time, now: Time)
    requires Stored(a, base, max) && Behind(seen, a) && Torn(seen, a) && (seen.row == None ==> seen.history == [])
    requires Finish(a, who, Assign(path), seen, max, now).Ok?
    ensures Finish(a, who, Assign(path), seen, max, now) == Finish(a, who, Assign(path), a, max, now)
            <==> !Misses(a, Assign(path), seen)
  {
    SavedIsCurrent(a, base, who, Assign(path), seen, max, now);
    if seen.row == None && a.row.Some? { AssignBreaks(a, base, who, path, seen, max, now); }
  }

  lemma EndMisses(a: Account, base: nat, who: string, seen: Account, max: Time, now: Time)
    requires Stored(a, base, max) && Behind(seen, a) && Torn(seen, a) && (seen.row == None ==> seen.history == [])
    requires Finish(a, who, End, seen, max, now).Ok?
    ensures Finish(a, who, End, seen, max, now) == Finish(a, who, End, a, max, now) <==> !Misses(a, End, seen)
  {
    SavedIsCurrent(a, base, who, End, seen, max, now);
  }

  lemma ShiftOnlyMisses(a: Account, base: nat, who: string, op: Op, seen: Account, max: Time, now: Time)
    requires Stored(a, base, max) && Behind(seen, a) && Torn(seen, a) && !op.Assign? && !op.End?
    requires Finish(a, who, op, seen, max, now).Ok?
    ensures Finish(a, who, op, seen, max, now) == Finish(a, who, op, a, max, now)
  {
    SavedIsCurrent(a, base, who, op, seen, max, now);
  }

  /** In every reachable state, a call that succeeds does what it would have done had it loaded everything at the moment
      it commits, if and only if it misses nothing. */
  lemma MissesExactly(max: Time, steps: seq<Step>, c: nat, now: Time)
    requires 0 <= max && Legal(max, Init, steps) && Enabled(Run(max, Init, steps), Complete(c, now))
    requires Outcome(Run(max, Init, steps), c, max, now).Ok?
    ensures var s := Run(max, Init, steps); var k := s.calls[c]; var a := At(s, k.who);
            Outcome(s, c, max, now) == Finish(a, k.who, k.op, a, max, now) <==> !Misses(a, k.op, k.seen)
  {
    RunKeepsInv(max, Init, steps);
    var s := Run(max, Init, steps);
    var k := s.calls[c];
    var a := At(s, k.who);
    assert Stored(a, BaseOf(s, k.who), max);
    match k.op
    case Assign(path) => AssignMisses(a, BaseOf(s, k.who), k.who, path, k.seen, max, now);
    case End => EndMisses(a, BaseOf(s, k.who), k.who, k.seen, max, now);
    case _ => ShiftOnlyMisses(a, BaseOf(s, k.who), k.who, k.op, k.seen, max, now);
  }

  /** What a save of a fresh aggregate meets: it goes through exactly over nothing or over a row still at version 1, so
      a stale starter can reset a shift, and a stale creator an assignment, that nobody has saved a second time. */
  lemma FreshSaves(a: Account, who: string, op: Op, seen: Account, max: Time, now: Time)
    requires Decide(who, op, seen, max, now).Ok?
    ensures op.Start? && seen.shift == None ==>
              (Finish(a, who, op, seen, max, now).Ok? <==> a.shift == None || a.shift.value.version == 1)
    ensures op.Assign? && seen.row == None ==>
              (Finish(a, who, op, seen, max, now).Ok? <==> a.row == None || a.row.value.version == 1)
  {
  }

  lemma {:induction false} RunSnoc(max: Time, s: State, steps: seq<Step>, a: Step)
    requires Legal(max, s, steps) && Enabled(Run(max, s, steps), a)
    ensures Legal(max, s, steps + [a]) && Run(max, s, steps + [a]) == Next(max, Run(max, s, steps), a)
    decreases |steps|
  {
    if steps == [] {
      assert ([] + [a])[1..] == [];
    } else {
      RunSnoc(max, Next(max, s, steps[0]), steps[1..], a);
      assert (steps + [a])[1..] == steps[1..] + [a];
    }
  }

  lemma Extend(max: Time, steps: seq<Step>, a: Step) returns (more: seq<Step>)
    requires Legal(max, Init, steps) && Enabled(Run(max, Init, steps), a)
    ensures Legal(max, Init, more) && Run(max, Init, more) == Next(max, Run(max, Init, steps), a)
  {
    more := steps + [a];
    RunSnoc(max, Init, steps, a);
  }

  const Ann := "ann"

  const Fresh := Account(Some(ShiftRow(NewShift({"pick", "pack"}), 1)), None, [])

  lemma OnShift(max: Time) returns (steps: seq<Step>)
    ensures Legal(max, Init, steps)
    ensures At(Run(max, Init, steps), Ann) == Fresh && Run(max, Init, steps).calls == map[]
  {
    steps := Extend(max, [], Begin(0, Ann, Start({"pick", "pack"})));
    steps := Extend(max, steps, ReadShift(0));
    steps := Extend(max, steps, Complete(0, 0));
  }

  /** A call that loads everything while the associate has never been assigned. */
  lemma Load(max: Time, before: seq<Step>, c: nat, op: Op) returns (steps: seq<Step>)
    requires Legal(max, Init, before) && (op.Assign? || op.End?)
    requires At(Run(max, Init, before), Ann) == Fresh && c !in Run(max, Init, before).calls
    ensures Legal(max, Init, steps) && At(Run(max, Init, steps), Ann) == Fresh
    ensures Run(max, Init, steps).calls == Run(max, Init, before).calls[c := Call(Ann, op, Ready, Fresh)]
  {
    steps := Extend(max, before, Begin(c, Ann, op));
    steps := Extend(max, steps, ReadShift(c));
    steps := Extend(max, steps, ReadRow(c));
  }

  /** Two calls for an associate on shift who was never assigned, both fully loaded before either commits. */
  lemma BothLoaded(max: Time, p: Op, q: Op) returns (steps: seq<Step>)
    requires (p.Assign? || p.End?) && (q.Assign? || q.End?)
    ensures Legal(max, Init, steps) && At(Run(max, Init, steps), Ann) == Fresh
    ensures Run(max, Init, steps).calls == map[1 := Call(Ann, p, Ready, Fresh), 2 := Call(Ann, q, Ready, Fresh)]
  {
    steps := OnShift(max);
    steps := Load(max, steps, 1, p);
    steps := Load(max, steps, 2, q);
  }

  /** A call commits: the associate's rows are what it left. */
  lemma Commits(max: Time, before: seq<Step>, c: nat, now: Time) returns (steps: seq<Step>)
    requires Legal(max, Init, before) && Enabled(Run(max, Init, before), Complete(c, now))
    requires Run(max, Init, before).calls[c].who == Ann && Outcome(Run(max, Init, before), c, max, now).Ok?
    ensures Legal(max, Init, steps)
    ensures At(Run(max, Init, steps), Ann) == Outcome(Run(max, Init, before), c, max, now).value.account
    ensures Run(max, Init, steps).calls == Run(max, Init, before).calls - {c}
  {
    steps := Extend(max, before, Complete(c, now));
  }

  const Picking := Account(Fresh.shift, Some(ActiveRow(Some(Interval("pick", 10, None)), 1)), [])

  const Over := Account(Some(ShiftRow(NewShift({"pick", "pack"}).EndShift(), 2)), None, [])

  /** Two first assignments at once: the second one wipes out the first. */
  lemma SecondCreatorWins(max: Time) returns (steps: seq<Step>)
    ensures Legal(max, Init, steps) && Enabled(Run(max, Init, steps), Complete(2, 20))
    ensures var s := Run(max, Init, steps);
            Outcome(s, 2, max, 20).Ok? && LosesActive(At(s, Ann), Outcome(s, 2, max, 20).value.account)
  {
    steps := BothLoaded(max, Assign("pick"), Assign("pack"));
    assert Finish(Fresh, Ann, Assign("pick"), Fresh, max, 10).value.account == Picking;
    steps := Commits(max, steps, 1, 10);
    assert Finish(Picking, Ann, Assign("pack"), Fresh, max, 20).Ok?;
  }

  /** An assignment and the end of the shift at once: whichever commits first, an ended shift has an active
      assignment. */
  lemma AssignMissesEnd(max: Time) returns (steps: seq<Step>)
    ensures Legal(max, Init, steps) && !Rested(At(Run(max, Init, steps), Ann))
  {
    steps := BothLoaded(max, End, Assign("pick"));
    assert Finish(Fresh, Ann, End, Fresh, max, 10).value.account == Over;
    steps := Commits(max, steps, 1, 10);
    assert Finish(Over, Ann, Assign("pick"), Fresh, max, 20).Ok?;
    steps := Commits(max, steps, 2, 20);
  }

  lemma EndMissesAssignment(max: Time) returns (steps: seq<Step>)
    ensures Legal(max, Init, steps) && !Rested(At(Run(max, Init, steps), Ann))
  {
    steps := BothLoaded(max, Assign("pick"), End);
    assert Finish(Fresh, Ann, Assign("pick"), Fresh, max, 10).value.account == Picking;
    steps := Commits(max, steps, 1, 10);
    assert Finish(Picking, Ann, End, Fresh, max, 20).Ok?;
    steps := Commits(max, steps, 2, 20);
  }

  /** An assignment has loaded everything; then a call that only touches the shift commits. */
  lemma LoadedThen(max: Time, op: Op) returns (steps: seq<Step>)
    requires op == StartBreak || op == Start({})
    ensures Legal(max, Init, steps)
    ensures At(Run(max, Init, steps), Ann) == Finish(Fresh, Ann, op, Fresh, max, 10).value.account
    ensures Run(max, Init, steps).calls == map[1 := Call(Ann, Assign("pick"), Ready, Fresh)]
  {
    steps := OnShift(max);
    steps := Load(max, steps, 1, Assign("pick"));
    steps := Extend(max, steps, Begin(2, Ann, op));
    steps := Extend(max, steps, ReadShift(2));
    assert Finish(Fresh, Ann, op, Fresh, max, 10).Ok?;
    steps := Commits(max, steps, 2, 10);
  }

  /** A break or a restart without the certification, and a first assignment at once: the assignment lands, although the
      same call on what is stored is refused. */
  lemma AssignMissesShift(max: Time, op: Op) returns (steps: seq<Step>)
    requires op == StartBreak || op == Start({})
    ensures Legal(max, Init, steps) && Enabled(Run(max, Init, steps), Complete(1, 20))
    ensures var s := Run(max, Init, steps); var a := At(s, Ann);
            && s.calls[1] == Call(Ann, Assign("pick"), Ready, Fresh) && Outcome(s, 1, max, 20).Ok?
            && Finish(a, Ann, Assign("pick"), a, max, 20)
               == if op == StartBreak then Err(Refused(OnBreak)) else Err(CertificationRequired)
  {
    steps := LoadedThen(max, op);
    assert Finish(At(Run(max, Init, steps), Ann), Ann, Assign("pick"), Fresh, max, 20).Ok?;
  }
}
