/** In which order the consumers apply the events of a partition, and exactly which fetches keep it. */
module ProjectorOrder {
  import opened Base
  import opened Messages
  import opened Encoders
  import opened Projection
  import opened ReadModels
  import opened Projector

  /** Every projecting message of the partition before `end` has been applied. */
  ghost predicate PastApplied(route: string -> nat, s: State, part: nat, end: nat) {
    end <= |s.log| && forall g :: 0 <= g < end && Routed(route, s.log[g], part) && Projects(s, g) ==>
      EventAt(s, g).id in s.store.seen
  }

  /** The fetched event is marked already, so that it will be skipped, or nothing before it is left to apply. */
  ghost predicate SafeFetch(route: string -> nat, s: State, part: nat, at: nat) {
    Projects(s, at) && EventAt(s, at).id !in s.marked ==> PastApplied(route, s, part, at)
  }

  ghost predicate Safe(route: string -> nat, s: State, a: Step) { a.Fetch? ==> SafeFetch(route, s, a.part, a.at) }

  ghost predicate SafeRun(route: string -> nat, s: State, steps: seq<Step>)
    requires Legal(route, s, steps)
    decreases |steps|
  {
    steps == [] || (Safe(route, s, steps[0]) && SafeRun(route, Next(route, s, steps[0]), steps[1..]))
  }

  /** `g` is an earlier projecting message of the partition of the j-th applied one. */
  ghost predicate Earlier(route: string -> nat, s: State, j: nat, g: nat) {
    && j < |s.applied| && g < s.applied[j] < |s.log| && Projects(s, g)
    && Routed(route, s.log[g], route(s.log[s.applied[j]].key))
  }

  ghost predicate AppliedBefore(s: State, j: nat, id: string) {
    exists i :: 0 <= i < j && i < |s.applied| && Projects(s, s.applied[i]) && EventAt(s, s.applied[i]).id == id
  }

  /** Before an event was applied, all earlier events of its partition were. */
  ghost predicate AppliedInOrder(route: string -> nat, s: State) {
    && (forall g :: g in s.applied ==> g < |s.log| && s.log[g].topic == Analytics)
    && forall j: nat, g: nat :: Earlier(route, s, j, g) ==> AppliedBefore(s, j, EventAt(s, g).id)
  }

  /** A message in hand that may still be applied has nothing before it left to apply. */
  ghost predicate HandClear(route: string -> nat, s: State, h: Hand) {
    Projects(s, h.at) ==>
      && (h.stage.Applying? ==> PastApplied(route, s, h.part, h.at))
      && (h.stage == Fetched || h.stage.Marking? ==>
            EventAt(s, h.at).id in s.marked || PastApplied(route, s, h.part, h.at))
  }

  ghost predicate OrderInv(route: string -> nat, s: State) {
    Inv(route, s) && AppliedInOrder(route, s) && forall c :: c in s.hands ==> HandClear(route, s, s.hands[c])
  }

  // ---- Safe fetches keep the order ----

  lemma PastAppliedStays(route: string -> nat, s: State, t: State, part: nat, end: nat)
    requires PastApplied(route, s, part, end) && Grows(s, t)
    ensures PastApplied(route, t, part, end)
  {
    forall g | 0 <= g < end && Routed(route, t.log[g], part) && Projects(t, g)
      ensures EventAt(t, g).id in t.store.seen
    {
      assert t.log[g] == s.log[g] && Projects(s, g);
    }
  }

  /** What was applied before stays so as the log and the applied list grow. */
  lemma BeforeFrame(s: State, t: State, j: nat, id: string)
    requires AppliedBefore(s, j, id) && s.log <= t.log && s.applied <= t.applied
    ensures AppliedBefore(t, j, id)
  {
    var i :| 0 <= i < j && i < |s.applied| && Projects(s, s.applied[i]) && EventAt(s, s.applied[i]).id == id;
    assert t.applied[i] == s.applied[i] && t.log[t.applied[i]] == s.log[s.applied[i]];
    assert Projects(t, t.applied[i]);
  }

  lemma InOrderFrame(route: string -> nat, s: State, t: State)
    requires AppliedInOrder(route, s) && s.log <= t.log && t.applied == s.applied
    ensures AppliedInOrder(route, t)
  {
    forall j: nat, g: nat | Earlier(route, t, j, g) ensures AppliedBefore(t, j, EventAt(t, g).id) {
      assert t.applied[j] in s.applied;
      assert t.log[g] == s.log[g] && Earlier(route, s, j, g);
      BeforeFrame(s, t, j, EventAt(s, g).id);
    }
  }

  /** Whatever has been applied stands in the applied list. */
  lemma SeenWasApplied(s: State, id: string)
    requires AtMostOnce(s)
    ensures id in s.store.seen <==> AppliedBefore(s, |s.applied|, id)
  {
    var es := EventsAt(s, s.applied);
    FoldSeen(Empty, es, id);
    if id in s.store.seen {
      var i :| 0 <= i < |es| && es[i].id == id;
      assert s.applied[i] in s.applied;
    }
    if AppliedBefore(s, |s.applied|, id) {
      var i :| 0 <= i < |s.applied| && Projects(s, s.applied[i]) && EventAt(s, s.applied[i]).id == id;
      assert es[i].id == id;
    }
  }

  /** Appending a message with nothing before it left to apply keeps the order. */
  lemma AppendKeepsOrder(route: string -> nat, s: State, t: State, at: nat)
    requires AtMostOnce(s) && AppliedInOrder(route, s) && t.log == s.log && t.applied == s.applied + [at]
    requires at < |s.log| && s.log[at].topic == Analytics && PastApplied(route, s, route(s.log[at].key), at)
    ensures AppliedInOrder(route, t)
  {
    forall j: nat, g: nat | Earlier(route, t, j, g) ensures AppliedBefore(t, j, EventAt(t, g).id) {
      assert Projects(s, g);
      if j < |s.applied| {
        assert t.applied[j] == s.applied[j] && Earlier(route, s, j, g);
      } else {
        SeenWasApplied(s, EventAt(s, g).id);
      }
      BeforeFrame(s, t, j, EventAt(s, g).id);
    }
  }

  lemma StepKeepsApplied(route: string -> nat, s: State, a: Step)
    requires OrderInv(route, s) && Enabled(route, s, a)
    ensures AppliedInOrder(route, Next(route, s, a))
  {
    var t := Next(route, s, a);
    StoreAfter(route, s, a);
    StepGrows(route, s, a);
    if t.applied == s.applied {
      InOrderFrame(route, s, t);
    } else {
      var h := s.hands[a.c];
      assert HandInv(route, s, h) && HandClear(route, s, h);
      AppendKeepsOrder(route, s, t, h.at);
    }
  }

  /** The hand after a step of its own consumer. */
  lemma OwnHandClear(route: string -> nat, s: State, a: Step)
    requires Enabled(route, s, a) && Safe(route, s, a) && !a.Receive? && a.c in Next(route, s, a).hands
    requires a.c in s.hands ==> HandClear(route, s, s.hands[a.c]) && s.hands[a.c].at < |s.log|
    ensures HandClear(route, Next(route, s, a), Next(route, s, a).hands[a.c])
  {
    var t := Next(route, s, a);
    StepGrows(route, s, a);
    if a.Fetch? {
      if PastApplied(route, s, a.part, a.at) { PastAppliedStays(route, s, t, a.part, a.at); }
    } else {
      HandKeepsMessage(route, s, a);
      var h := s.hands[a.c];
      if PastApplied(route, s, h.part, h.at) { PastAppliedStays(route, s, t, h.part, h.at); }
    }
  }

  lemma OtherHandClear(route: string -> nat, s: State, t: State, h: Hand)
    requires HandClear(route, s, h) && Grows(s, t) && h.at < |s.log|
    ensures HandClear(route, t, h)
  {
    assert t.log[h.at] == s.log[h.at];
    if PastApplied(route, s, h.part, h.at) { PastAppliedStays(route, s, t, h.part, h.at); }
  }

  lemma StepKeepsOrder(route: string -> nat, s: State, a: Step)
    requires OrderInv(route, s) && Enabled(route, s, a) && Safe(route, s, a)
    ensures OrderInv(route, Next(route, s, a))
  {
    var t := Next(route, s, a);
    StepKeepsInv(route, s, a);
    StepKeepsApplied(route, s, a);
    StepGrows(route, s, a);
    forall c | c in t.hands ensures HandClear(route, t, t.hands[c]) {
      if c in s.hands { assert HandInv(route, s, s.hands[c]) && HandClear(route, s, s.hands[c]); }
      if By(a, c) {
        OwnHandClear(route, s, a);
      } else {
        OthersHold(route, s, a, c);
        OtherHandClear(route, s, t, s.hands[c]);
      }
    }
  }

  /** Order over whole runs of any number of consumers, with any stops and dead letters, whose fetches are safe. */
  lemma {:induction false} RunKeepsOrder(route: string -> nat, s: State, steps: seq<Step>)
    requires OrderInv(route, s) && Legal(route, s, steps) && SafeRun(route, s, steps)
    ensures OrderInv(route, Run(route, s, steps))
    decreases |steps|
  {
    if steps != [] {
      StepKeepsOrder(route, s, steps[0]);
      RunKeepsOrder(route, Next(route, s, steps[0]), steps[1..]);
    }
  }

  // ---- Which fetches are safe ----

  /** After `t`, whatever the consumers do with safe fetches, events are applied in order. */
  ghost predicate StaysInOrder(route: string -> nat, t: State) {
    forall steps :: Legal(route, t, steps) && SafeRun(route, t, steps) ==> AppliedInOrder(route, Run(route, t, steps))
  }

  lemma OrderStays(route: string -> nat, t: State)
    requires OrderInv(route, t)
    ensures StaysInOrder(route, t)
  {
    forall steps | Legal(route, t, steps) && SafeRun(route, t, steps)
      ensures AppliedInOrder(route, Run(route, t, steps))
    {
      RunKeepsOrder(route, t, steps);
    }
  }

  lemma Cons(route: string -> nat, s: State, a: Step, rest: seq<Step>)
    requires Enabled(route, s, a) && Safe(route, s, a)
    requires Legal(route, Next(route, s, a), rest) && SafeRun(route, Next(route, s, a), rest)
    ensures Legal(route, s, [a] + rest) && SafeRun(route, s, [a] + rest)
    ensures Run(route, s, [a] + rest) == Run(route, Next(route, s, a), rest)
  {
    assert ([a] + rest)[1..] == rest;
  }

  /** A message just fetched, new to the gate, can be inspected, marked and applied at once. */
  lemma AppliedAtOnce(route: string -> nat, s: State, c: nat) returns (steps: seq<Step>)
    requires HoldsEvent(s, c) && s.hands[c].stage == Fetched
    requires EventAt(s, s.hands[c].at).id !in s.marked && EventAt(s, s.hands[c].at).id !in s.store.seen
    ensures Legal(route, s, steps) && SafeRun(route, s, steps)
    ensures var t := Run(route, s, steps); t.log == s.log && t.applied == s.applied + [s.hands[c].at]
  {
    var s1 := Next(route, s, Inspect(c));
    var s2 := Next(route, s1, Mark(c, Recorded));
    var s3 := Next(route, s2, ApplyEvent(c, Landed));
    Cons(route, s2, ApplyEvent(c, Landed), []);
    Cons(route, s1, Mark(c, Recorded), [ApplyEvent(c, Landed)] + []);
    Cons(route, s, Inspect(c), [Mark(c, Recorded)] + ([ApplyEvent(c, Landed)] + []));
    steps := [Inspect(c)] + ([Mark(c, Recorded)] + ([ApplyEvent(c, Landed)] + []));
  }

  /** An event appended while an earlier one of its partition is not applied breaks the order. */
  lemma OvertakingBreaksOrder(route: string -> nat, s: State, t: State, part: nat, at: nat)
    requires AtMostOnce(s) && t.log == s.log && t.applied == s.applied + [at]
    requires at < |s.log| && Routed(route, s.log[at], part) && !PastApplied(route, s, part, at)
    ensures !AppliedInOrder(route, t)
  {
    var g :| 0 <= g < at && Routed(route, s.log[g], part) && Projects(s, g) && EventAt(s, g).id !in s.store.seen;
    var n := |s.applied|;
    assert Earlier(route, t, n, g);
    SeenWasApplied(s, EventAt(s, g).id);
    forall i | 0 <= i < n && Projects(t, t.applied[i]) ensures EventAt(t, t.applied[i]).id != EventAt(s, g).id {
      assert t.applied[i] == s.applied[i] && Projects(s, s.applied[i]);
    }
    assert !AppliedBefore(t, n, EventAt(t, g).id);
  }

  /** A fetch keeps every continuation in order if and only if it is safe.  The condition can be read off the gate and
      the store before the fetch. */
  lemma FetchIsSafeExactly(route: string -> nat, s: State, c: nat, part: nat, at: nat)
    requires OrderInv(route, s) && Enabled(route, s, Fetch(c, part, at))
    ensures SafeFetch(route, s, part, at) <==> StaysInOrder(route, Next(route, s, Fetch(c, part, at)))
  {
    var t := Next(route, s, Fetch(c, part, at));
    if SafeFetch(route, s, part, at) {
      StepKeepsOrder(route, s, Fetch(c, part, at));
      OrderStays(route, t);
    } else {
      var steps := AppliedAtOnce(route, t, c);
      OvertakingBreaksOrder(route, s, Run(route, t, steps), part, at);
    }
  }

  // ---- When consumers overlap ----

  /** Messages with one id are keyed alike, as copies of one row are. */
  ghost predicate IdsKeepPartition(route: string -> nat, s: State) {
    forall g: nat, h: nat :: Projects(s, g) && Projects(s, h) && EventAt(s, g).id == EventAt(s, h).id ==>
      route(s.log[g].key) == route(s.log[h].key)
  }

  /** Some consumer is between the mark and the end of the handling of a message of the partition. */
  ghost predicate Occupied(s: State, part: nat) {
    exists d :: d in s.hands && InWindow(s.hands[d]) && s.hands[d].part == part
  }

  lemma NotOccupiedIsApplied(route: string -> nat, s: State, part: nat, g: nat)
    requires HandsInv(route, s) && s.dlq == [] && IdsKeepPartition(route, s) && !Occupied(s, part)
    requires Projects(s, g) && Routed(route, s.log[g], part) && Taken(s, EventAt(s, g).id)
    ensures EventAt(s, g).id in s.store.seen
  {
    var id := EventAt(s, g).id;
    forall c | c in s.hands && InWindow(s.hands[c]) && Projects(s, s.hands[c].at)
      ensures EventAt(s, s.hands[c].at).id != id
    {
      assert HandInv(route, s, s.hands[c]);
    }
    assert !UnderWay(s, id) && !Dead(s, id);
  }

  /** While no stop falls into a window and nothing is dead-lettered, a fetch is unsafe only because some consumer is in
      the middle of another message of the partition, which was taken from it meanwhile. */
  lemma UnoccupiedIsSafe(route: string -> nat, s: State, c: nat, part: nat, at: nat)
    requires HandsInv(route, s) && Complete(route, s) && NothingGone(s) && s.dlq == [] && IdsKeepPartition(route, s)
    requires Enabled(route, s, Fetch(c, part, at)) && !Occupied(s, part)
    ensures SafeFetch(route, s, part, at)
  {
    FetchedIsComplete(route, s, c, part, at);
    forall g | 0 <= g < at && Routed(route, s.log[g], part) && Projects(s, g) ensures EventAt(s, g).id in s.store.seen {
      assert Answered(s, g) && !Gone(s, EventAt(s, g).id);
      NotOccupiedIsApplied(route, s, part, g);
    }
  }

  // ---- The hazard is real ----

  lemma {:induction false} Snoc(route: string -> nat, s: State, steps: seq<Step>, a: Step)
    requires Legal(route, s, steps) && GentleRun(route, s, steps)
    requires Enabled(route, Run(route, s, steps), a) && Gentle(Run(route, s, steps), a)
    ensures Legal(route, s, steps + [a]) && GentleRun(route, s, steps + [a])
    ensures Run(route, s, steps + [a]) == Next(route, Run(route, s, steps), a)
    decreases |steps|
  {
    if steps == [] {
      assert ([] + [a])[1..] == [];
    } else {
      Snoc(route, Next(route, s, steps[0]), steps[1..], a);
      assert (steps + [a])[1..] == steps[1..] + [a];
    }
  }

  predicate NoStop(steps: seq<Step>) { forall a :: a in steps ==> !a.Stop? }

  lemma Then(route: string -> nat, steps: seq<Step>, a: Step, t: State) returns (more: seq<Step>)
    requires Legal(route, Init, steps) && GentleRun(route, Init, steps) && NoStop(steps)
    requires Enabled(route, Run(route, Init, steps), a) && Gentle(Run(route, Init, steps), a) && !a.Stop?
    requires t == Next(route, Run(route, Init, steps), a)
    ensures Legal(route, Init, more) && GentleRun(route, Init, more) && NoStop(more)
    ensures Run(route, Init, more) == t
  {
    Snoc(route, Init, steps, a);
    more := steps + [a];
  }

  /** Two messages of partition `p`, the different events they carry, and the stores after the second event and after
      both, the second one first. */
  datatype Pair = Pair(p: nat, m: Message, n: Message, e: Event, f: Event, one: Store, both: Store)

  predicate IsPair(route: string -> nat, x: Pair) {
    && Routed(route, x.m, x.p) && Decode(x.m) == Projecting(x.e)
    && Routed(route, x.n, x.p) && Decode(x.n) == Projecting(x.f)
    && x.e.id != x.f.id
  }

  ghost predicate Swaps(x: Pair) {
    x.one == Apply(Empty, x.f) && x.one.seen == {x.f.id} && x.both == Apply(x.one, x.e)
  }

  lemma PairOf(route: string -> nat, m: Message, n: Message) returns (x: Pair)
    requires m.topic == Analytics && n.topic == Analytics && route(m.key) == route(n.key)
    requires Decode(m).Projecting? && Decode(n).Projecting? && Decode(m).event.id != Decode(n).event.id
    ensures IsPair(route, x) && Swaps(x) && x.m == m && x.n == n
  {
    var e, f := Decode(m).event, Decode(n).event;
    var one := FirstOf(Empty, f);
    x := Pair(route(m.key), m, n, e, f, one, Apply(one, e));
  }

  lemma FirstOf(s: Store, f: Event) returns (t: Store)
    requires s.seen == {}
    ensures t == Apply(s, f) && t.seen == {f.id}
  {
    ApplyFresh(s, f);
    t := Apply(s, f);
  }

  /** Consumer 0 takes the first message, marks it, and is about to apply it. */
  function Step0(x: Pair): seq<Step> {
    [Receive(x.m), Receive(x.n), Assign(0, x.p), Fetch(0, x.p, 0), Inspect(0), Mark(0, Recorded)]
  }

  /** The partition goes to consumer 1, which skips the first message as a duplicate and commits past it. */
  function Step1(x: Pair): seq<Step> {
    [Assign(1, x.p), Fetch(1, x.p, 0), Inspect(1), Mark(1, Recorded), CommitOffset(1)]
  }

  /** It applies the second message; consumer 0 then applies the first. */
  function Step2(x: Pair): seq<Step> {
    [Fetch(1, x.p, 1), Inspect(1), Mark(1, Recorded), ApplyEvent(1, Landed), ApplyEvent(0, Landed),
     CommitOffset(0), CommitOffset(1)]
  }

  function Held(x: Pair): map<nat, Hand> { map[0 := Hand(x.p, 0, Applying(0))] }

  function And(x: Pair, at: nat, stage: Stage): map<nat, Hand> { Held(x)[1 := Hand(x.p, at, stage)] }

  function Opening(x: Pair, k: nat): State {
    var s := Init.(log := [x.m, x.n]);
    match k
    case 0 => Init
    case 1 => Init.(log := [x.m])
    case 2 => s
    case 3 => s.(positions := map[(0, x.p) := 0])
    case 4 => s.(positions := map[(0, x.p) := 1], hands := map[0 := Hand(x.p, 0, Fetched)])
    case 5 => s.(positions := map[(0, x.p) := 1], hands := map[0 := Hand(x.p, 0, Marking(0))])
    case _ => s.(positions := map[(0, x.p) := 1], hands := Held(x), marked := {x.e.id})
  }

  function Handover(x: Pair, k: nat): State {
    var s := Opening(x, 6);
    var t := s.(positions := map[(0, x.p) := 1, (1, x.p) := 1]);
    match k
    case 0 => s
    case 1 => s.(positions := map[(0, x.p) := 1, (1, x.p) := 0])
    case 2 => t.(hands := And(x, 0, Fetched))
    case 3 => t.(hands := And(x, 0, Marking(0)))
    case 4 => t.(hands := And(x, 0, Committing))
    case _ => t.(committed := map[x.p := 1])
  }

  function Overtaking(x: Pair, k: nat): State {
    var s := Handover(x, 5);
    var t := s.(positions := map[(0, x.p) := 1, (1, x.p) := 2]);
    var u := t.(marked := {x.e.id, x.f.id});
    var v := u.(store := x.both, applied := [1, 0]);
    match k
    case 0 => s
    case 1 => t.(hands := And(x, 1, Fetched))
    case 2 => t.(hands := And(x, 1, Marking(0)))
    case 3 => u.(hands := And(x, 1, Applying(0)))
    case 4 => u.(hands := And(x, 1, Committing), store := x.one, applied := [1])
    case 5 => v.(hands := map[0 := Hand(x.p, 0, Committing), 1 := Hand(x.p, 1, Committing)])
    case 6 => v.(hands := map[1 := Hand(x.p, 1, Committing)])
    case _ => v.(hands := map[], committed := map[x.p := 2])
  }

  ghost predicate Leads(route: string -> nat, s: State, a: Step, t: State) {
    Enabled(route, s, a) && Gentle(s, a) && Next(route, s, a) == t
  }

  lemma OpeningSteps(route: string -> nat, x: Pair, k: nat)
    requires IsPair(route, x) && k < 6
    ensures Leads(route, Opening(x, k), Step0(x)[k], Opening(x, k + 1))
  {
  }

  lemma HandoverStarts(route: string -> nat, x: Pair, k: nat)
    requires IsPair(route, x) && k < 2
    ensures Leads(route, Handover(x, k), Step1(x)[k], Handover(x, k + 1))
  {
  }

  lemma HandoverEnds(route: string -> nat, x: Pair, k: nat)
    requires IsPair(route, x) && 2 <= k < 5
    ensures Leads(route, Handover(x, k), Step1(x)[k], Handover(x, k + 1))
  {
  }

  lemma OvertakingStarts(route: string -> nat, x: Pair, k: nat)
    requires IsPair(route, x) && k < 2
    ensures Leads(route, Overtaking(x, k), Step2(x)[k], Overtaking(x, k + 1))
  {
  }

  lemma OvertakingMarks(route: string -> nat, x: Pair)
    requires IsPair(route, x)
    ensures Leads(route, Overtaking(x, 2), Step2(x)[2], Overtaking(x, 3))
  {
  }

  /** An attempt that lands for a new event. */
  lemma Lands(route: string -> nat, s: State, c: nat, e: Event, after: Store)
    requires HoldsEvent(s, c) && s.hands[c].stage.Applying? && EventAt(s, s.hands[c].at) == e && e.id !in s.store.seen
    requires after == Apply(s.store, e)
    ensures var t := s.(store := after, applied := s.applied + [s.hands[c].at],
                        hands := s.hands[c := s.hands[c].(stage := Committing)]);
            Leads(route, s, ApplyEvent(c, Landed), t)
  {
  }

  lemma OvertakingApplies(route: string -> nat, x: Pair)
    requires IsPair(route, x) && Swaps(x)
    ensures Leads(route, Overtaking(x, 3), Step2(x)[3], Overtaking(x, 4))
  {
    Lands(route, Overtaking(x, 3), 1, x.f, x.one);
    assert And(x, 1, Applying(0))[1 := Hand(x.p, 1, Committing)] == And(x, 1, Committing);
  }

  lemma OvertakenApplies(route: string -> nat, x: Pair)
    requires IsPair(route, x) && Swaps(x)
    ensures Leads(route, Overtaking(x, 4), Step2(x)[4], Overtaking(x, 5))
  {
    Lands(route, Overtaking(x, 4), 0, x.e, x.both);
    assert And(x, 1, Committing)[0 := Hand(x.p, 0, Committing)]
           == map[0 := Hand(x.p, 0, Committing), 1 := Hand(x.p, 1, Committing)];
  }

  lemma OvertakingEnds(route: string -> nat, x: Pair, k: nat)
    requires IsPair(route, x) && 5 <= k < 7
    ensures Leads(route, Overtaking(x, k), Step2(x)[k], Overtaking(x, k + 1))
  {
  }

  lemma {:induction false} Opened(route: string -> nat, x: Pair, k: nat) returns (steps: seq<Step>)
    requires IsPair(route, x) && k <= 6
    ensures Legal(route, Init, steps) && GentleRun(route, Init, steps) && NoStop(steps)
    ensures Run(route, Init, steps) == Opening(x, k)
  {
    if k == 0 {
      steps := [];
    } else {
      steps := Opened(route, x, k - 1);
      OpeningSteps(route, x, k - 1);
      steps := Then(route, steps, Step0(x)[k - 1], Opening(x, k));
    }
  }

  lemma {:induction false} HandedOver(route: string -> nat, x: Pair, k: nat) returns (steps: seq<Step>)
    requires IsPair(route, x) && k <= 5
    ensures Legal(route, Init, steps) && GentleRun(route, Init, steps) && NoStop(steps)
    ensures Run(route, Init, steps) == Handover(x, k)
  {
    if k == 0 {
      steps := Opened(route, x, 6);
    } else {
      steps := HandedOver(route, x, k - 1);
      if k - 1 < 2 { HandoverStarts(route, x, k - 1); } else { HandoverEnds(route, x, k - 1); }
      steps := Then(route, steps, Step1(x)[k - 1], Handover(x, k));
    }
  }

  lemma OvertakingSteps(route: string -> nat, x: Pair, k: nat)
    requires IsPair(route, x) && Swaps(x) && k < 7
    ensures Leads(route, Overtaking(x, k), Step2(x)[k], Overtaking(x, k + 1))
  {
    if k < 2 { OvertakingStarts(route, x, k); }
    else if k == 2 { OvertakingMarks(route, x); }
    else if k == 3 { OvertakingApplies(route, x); }
    else if k == 4 { OvertakenApplies(route, x); }
    else { OvertakingEnds(route, x, k); }
  }

  lemma {:induction false} Overtaken(route: string -> nat, x: Pair, k: nat) returns (steps: seq<Step>)
    requires IsPair(route, x) && Swaps(x) && k <= 7
    ensures Legal(route, Init, steps) && GentleRun(route, Init, steps) && NoStop(steps)
    ensures Run(route, Init, steps) == Overtaking(x, k)
  {
    if k == 0 {
      steps := HandedOver(route, x, 5);
    } else {
      steps := Overtaken(route, x, k - 1);
      OvertakingSteps(route, x, k - 1);
      steps := Then(route, steps, Step2(x)[k - 1], Overtaking(x, k));
    }
  }

  /** The fetch that goes wrong: the first message is marked, not applied, and consumer 0 still has it. */
  lemma HandoverIsUnsafe(route: string -> nat, x: Pair)
    requires IsPair(route, x)
    ensures var s := Handover(x, 5);
            Enabled(route, s, Fetch(1, x.p, 1)) && !SafeFetch(route, s, x.p, 1) && Occupied(s, x.p)
  {
    var s := Handover(x, 5);
    OvertakingStarts(route, x, 0);
    assert Projects(s, 0) && Projects(s, 1) && EventAt(s, 0) == x.e && EventAt(s, 1) == x.f;
    assert !PastApplied(route, s, x.p, 1);
    assert 0 in s.hands && InWindow(s.hands[0]) && s.hands[0].part == x.p;
  }

  /** Two consumers and a rebalance, no stop at all and no dead letter: any two messages of a partition may be applied
      the other way round. */
  lemma OverlappingConsumersReorder(route: string -> nat, x: Pair) returns (steps: seq<Step>)
    requires IsPair(route, x) && Swaps(x)
    ensures Legal(route, Init, steps) && GentleRun(route, Init, steps) && NoStop(steps)
    ensures var t := Run(route, Init, steps);
            && t.hands == map[] && t.dlq == [] && t.log == [x.m, x.n] && t.committed == map[x.p := 2]
            && t.store == x.both && t.applied == [1, 0]
  {
    steps := Overtaken(route, x, 7);
  }

  lemma EndBeforeStart(s: Store, e: Event, f: Event)
    requires s.seen == {} && s.breaks == map[] && e.id != f.id
    requires e.kind == BreakStart && f.kind == BreakEnd && e.subject == f.subject
    ensures Apply(Apply(s, f), e).breaks == map[e.subject := e.at] && Fold(s, [e, f]).breaks == map[]
  {
    FoldTwo(s, e, f);
    ApplyFresh(s, f);
    ApplyFresh(Apply(s, f), e);
    ApplyFresh(s, e);
    ApplyFresh(Apply(s, e), f);
  }

  /** So the end of a break may be applied before its start: then the break is still pending after both, which after
      applying the two in log order it is not. */
  lemma BreakStaysPending(x: Pair)
    requires Swaps(x) && x.e.id != x.f.id
    requires x.e.kind == BreakStart && x.f.kind == BreakEnd && x.e.subject == x.f.subject
    ensures x.both.breaks == map[x.e.subject := x.e.at] && Fold(Empty, [x.e, x.f]).breaks == map[]
  {
    EndBeforeStart(Empty, x.e, x.f);
  }
}
