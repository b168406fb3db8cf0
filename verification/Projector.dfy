/** The analytics consumers: mark, apply, retry, dead-letter and commit, over any run of stops, redeliveries and
    rebalances.

    `log` is the broker's delivery order over all topics; the offset of a message in its partition is represented by
    its position in `log`, which orders each partition alike.  `route` says which partition a key hashes to.
    The consumers share one group, one gate and one store.  Each handles one message at a time; a partition may be given
    to another consumer at any moment, also while its former owner still handles one of its messages. */
module Projector {
  import opened Base
  import opened Messages
  import opened Encoders
  import opened Projection
  import opened ReadModels
  import opened BreakAccounting

  const MAX_ATTEMPTS := 3

  /** Where the handling of one fetched message stands; `marked` tells whether a mark was recorded for it. */
  datatype Stage =
    | Fetched
    | Marking(failures: nat)
    | Applying(failures: nat)
    | DeadLettering(marked: bool)
    | Committing

  datatype Hand = Hand(part: nat, at: nat, stage: Stage)

  /** `positions` says, per consumer and partition given to it, where it reads on; `hands` what each consumer handles.
      `applied` is a history variable: the positions whose events changed the store, in order. */
  datatype State = State(
    log: seq<Message>, committed: map<nat, nat>, positions: map<(nat, nat), nat>, hands: map<nat, Hand>,
    marked: set<string>, store: Store, applied: seq<nat>, dlq: seq<nat>)

  datatype MarkReply = Recorded | Failed | FailedButRecorded

  datatype Step =
    | Receive(m: Message)
    | Assign(c: nat, part: nat)         // the group gives the partition to consumer c, at the committed offset
    | Fetch(c: nat, part: nat, at: nat)
    | Inspect(c: nat)
    | Mark(c: nat, reply: MarkReply)
    | ApplyEvent(c: nat, outcome: Outcome)
    | DeadLetter(c: nat)
    | CommitOffset(c: nat)              // also by a consumer that has lost the partition: the offset may go back
    | Stop(c: nat)                      // crash, failed commit or failed dead-letter write

  const Init := State([], map[], map[], map[], {}, Empty, [], [])

  function Offset(s: State, part: nat): nat { if part in s.committed then s.committed[part] else 0 }

  predicate Routed(route: string -> nat, m: Message, part: nat) { m.topic == Analytics && route(m.key) == part }

  predicate Projects(s: State, g: nat) { g < |s.log| && Decode(s.log[g]).Projecting? }

  function EventAt(s: State, g: nat): Event
    requires Projects(s, g)
  {
    Decode(s.log[g]).event
  }

  predicate Holding(s: State, c: nat) { c in s.hands && s.hands[c].at < |s.log| }

  predicate HoldsEvent(s: State, c: nat) { Holding(s, c) && Projects(s, s.hands[c].at) }

  predicate Enabled(route: string -> nat, s: State, a: Step) {
    match a
    case Receive(_) => true
    case Assign(_, _) => true
    case Fetch(c, part, at) =>
      && c !in s.hands && (c, part) in s.positions
      && s.positions[(c, part)] <= at < |s.log| && Routed(route, s.log[at], part)
      && forall g :: s.positions[(c, part)] <= g < at ==> !Routed(route, s.log[g], part)
    case Inspect(c) => Holding(s, c) && s.hands[c].stage == Fetched
    case Mark(c, _) => HoldsEvent(s, c) && s.hands[c].stage.Marking?
    case ApplyEvent(c, _) => HoldsEvent(s, c) && s.hands[c].stage.Applying?
    case DeadLetter(c) => Holding(s, c) && s.hands[c].stage.DeadLettering?
    case CommitOffset(c) => Holding(s, c) && s.hands[c].stage == Committing
    case Stop(_) => true
  }

  function To(s: State, c: nat, stage: Stage): State
    requires c in s.hands
  {
    s.(hands := s.hands[c := s.hands[c].(stage := stage)])
  }

  /** The state after an attempt of the projection that committed. */
  function AfterApply(s: State, g: nat): State
    requires Projects(s, g)
  {
    var e := EventAt(s, g);
    s.(store := Apply(s.store, e), applied := if e.id in s.store.seen then s.applied else s.applied + [g])
  }

  /** A stopped consumer loses its message and its places. */
  function Without(s: State, c: nat): State {
    s.(hands := s.hands - {c}, positions := map k | k in s.positions && k.0 != c :: s.positions[k])
  }

  function Next(route: string -> nat, s: State, a: Step): State
    requires Enabled(route, s, a)
  {
    match a
    case Receive(m) => s.(log := s.log + [m])
    case Assign(c, part) => s.(positions := s.positions[(c, part) := Offset(s, part)])
    case Fetch(c, part, at) =>
      s.(hands := s.hands[c := Hand(part, at, Fetched)], positions := s.positions[(c, part) := at + 1])
    case Inspect(c) =>
      (match Decode(s.log[s.hands[c].at])
       case Poison => To(s, c, DeadLettering(false))
       case Ignored => To(s, c, Committing)
       case Projecting(_) => To(s, c, Marking(0)))
    case Mark(c, reply) =>
      var id, failures := EventAt(s, s.hands[c].at).id, s.hands[c].stage.failures + 1;
      var s' := if reply == Failed then s else s.(marked := s.marked + {id});
      if reply == Recorded then To(s', c, if id in s.marked then Committing else Applying(0))
      else To(s', c, if failures == MAX_ATTEMPTS then DeadLettering(false) else Marking(failures))
    case ApplyEvent(c, outcome) =>
      var failures := s.hands[c].stage.failures + 1;
      var s' := if outcome == RolledBack then s else AfterApply(s, s.hands[c].at);
      if outcome == Landed then To(s', c, Committing)
      else To(s', c, if failures == MAX_ATTEMPTS then DeadLettering(true) else Applying(failures))
    case DeadLetter(c) => To(s, c, Committing).(dlq := s.dlq + [s.hands[c].at])
    case CommitOffset(c) => s.(committed := s.committed[s.hands[c].part := s.hands[c].at + 1], hands := s.hands - {c})
    case Stop(c) => Without(s, c)
  }

  ghost predicate Legal(route: string -> nat, s: State, steps: seq<Step>)
    decreases |steps|
  {
    steps == [] || (Enabled(route, s, steps[0]) && Legal(route, Next(route, s, steps[0]), steps[1..]))
  }

  ghost function Run(route: string -> nat, s: State, steps: seq<Step>): State
    requires Legal(route, s, steps)
    decreases |steps|
  {
    if steps == [] then s else Run(route, Next(route, s, steps[0]), steps[1..])
  }

  lemma RunCons(route: string -> nat, s: State, a: Step, rest: seq<Step>)
    requires Enabled(route, s, a) && Legal(route, Next(route, s, a), rest)
    ensures Legal(route, s, [a] + rest) && Run(route, s, [a] + rest) == Run(route, Next(route, s, a), rest)
  {
    assert ([a] + rest)[1..] == rest;
  }

  lemma {:induction false} RunSnoc(route: string -> nat, s: State, steps: seq<Step>, a: Step)
    requires Legal(route, s, steps) && Enabled(route, Run(route, s, steps), a)
    ensures Legal(route, s, steps + [a]) && Run(route, s, steps + [a]) == Next(route, Run(route, s, steps), a)
    decreases |steps|
  {
    if steps == [] {
      RunCons(route, s, a, []);
      assert steps + [a] == [a] + [];
    } else {
      RunSnoc(route, Next(route, s, steps[0]), steps[1..], a);
      RunCons(route, s, steps[0], steps[1..] + [a]);
      assert steps + [a] == [steps[0]] + (steps[1..] + [a]);
    }
  }

  // ---- Unconditional safety, for any number of consumers ----

  function EventsAt(s: State, gs: seq<nat>): (es: seq<Event>)
    requires forall g :: g in gs ==> Projects(s, g)
    ensures |es| == |gs| && forall i :: 0 <= i < |gs| ==> es[i] == EventAt(s, gs[i])
  {
    seq(|gs|, i requires 0 <= i < |gs| => EventAt(s, gs[i]))
  }

  /** Each id takes effect at most once, the store is the fold of the effects, and effects were marked first. */
  ghost predicate AtMostOnce(s: State) {
    && (forall g :: g in s.applied ==> Projects(s, g))
    && UniqueIds(EventsAt(s, s.applied))
    && s.store == Fold(Empty, EventsAt(s, s.applied))
    && s.store.seen <= s.marked
  }

  /** What is known about a message in hand. */
  ghost predicate HandInv(route: string -> nat, s: State, h: Hand) {
    && h.at < |s.log| && Routed(route, s.log[h.at], h.part)
    && (h.stage.Marking? || h.stage.Applying? || h.stage == DeadLettering(true) ==> Projects(s, h.at))
    && (h.stage.Applying? || h.stage == DeadLettering(true) ==> EventAt(s, h.at).id in s.marked)
    && (h.stage.Marking? || h.stage.Applying? ==> h.stage.failures < MAX_ATTEMPTS)
  }

  ghost predicate HandsInv(route: string -> nat, s: State) {
    forall c :: c in s.hands ==> HandInv(route, s, s.hands[c])
  }

  predicate OffsetsInv(s: State) {
    (forall part :: part in s.committed ==> s.committed[part] <= |s.log|) && forall g :: g in s.dlq ==> g < |s.log|
  }

  ghost predicate Inv(route: string -> nat, s: State) { AtMostOnce(s) && HandsInv(route, s) && OffsetsInv(s) }

  /** Messages already received stay where they are. */
  lemma AtMostOnceFrame(s: State, t: State)
    requires AtMostOnce(s) && s.log <= t.log && t.applied == s.applied && t.store == s.store && s.marked <= t.marked
    ensures AtMostOnce(t)
  {
    assert forall g :: g in s.applied ==> Projects(s, g) && Projects(t, g) && EventAt(t, g) == EventAt(s, g);
    assert EventsAt(t, t.applied) == EventsAt(s, s.applied);
  }

  /** The applied ids are the ids of the folded events. */
  lemma {:induction false} FoldSeen(s: Store, es: seq<Event>, id: string)
    ensures id in Fold(s, es).seen <==> id in s.seen || exists i :: 0 <= i < |es| && es[i].id == id
    decreases |es|
  {
    if es != [] {
      FoldSeen(Apply(s, es[0]), es[1..], id);
      assert (exists i :: 0 <= i < |es[1..]| && es[1..][i].id == id) ==>
             exists i :: 0 <= i < |es| && es[i].id == id by {
        if i :| 0 <= i < |es[1..]| && es[1..][i].id == id { assert es[i + 1].id == id; }
      }
      if i :| 0 < i < |es| && es[i].id == id { assert es[1..][i - 1].id == id; }
    }
  }

  lemma ApplyKeepsAtMostOnce(s: State, g: nat)
    requires AtMostOnce(s) && Projects(s, g) && EventAt(s, g).id in s.marked
    ensures AtMostOnce(AfterApply(s, g))
  {
    var e, t, es := EventAt(s, g), AfterApply(s, g), EventsAt(s, s.applied);
    if e.id in s.store.seen {
      assert t == s;
    } else {
      FoldSeen(Empty, es, e.id);
      FoldConcat(Empty, es, [e]);
      assert EventsAt(t, t.applied) == es + [e];
      assert Fold(s.store, [e]) == Apply(s.store, e);
    }
  }

  /** The consumer that takes a step; `Receive` is nobody's. */
  predicate By(a: Step, c: nat) { !a.Receive? && a.c == c }

  /** Logs, marks, applied ids and dead letters only grow. */
  ghost predicate Grows(s: State, t: State) {
    s.log <= t.log && s.marked <= t.marked && s.store.seen <= t.store.seen && s.dlq <= t.dlq
  }

  lemma StepGrows(route: string -> nat, s: State, a: Step)
    requires Enabled(route, s, a)
    ensures Grows(s, Next(route, s, a))
  {
  }

  /** A step moves no hand but its consumer's. */
  lemma OthersHold(route: string -> nat, s: State, a: Step, c: nat)
    requires Enabled(route, s, a) && !By(a, c)
    ensures var t := Next(route, s, a); (c in t.hands <==> c in s.hands) && (c in s.hands ==> t.hands[c] == s.hands[c])
  {
  }

  /** A consumer keeps the message it handles. */
  lemma HandKeepsMessage(route: string -> nat, s: State, a: Step)
    requires Enabled(route, s, a) && !a.Receive? && !a.Fetch? && a.c in Next(route, s, a).hands
    ensures a.c in s.hands
    ensures var h, h' := s.hands[a.c], Next(route, s, a).hands[a.c]; h'.part == h.part && h'.at == h.at
  {
  }

  lemma HandFrame(route: string -> nat, s: State, t: State, h: Hand)
    requires HandInv(route, s, h) && s.log <= t.log && s.marked <= t.marked
    ensures HandInv(route, t, h)
  {
  }

  lemma InspectKeepsHand(route: string -> nat, s: State, c: nat)
    requires Enabled(route, s, Inspect(c)) && HandInv(route, s, s.hands[c])
    ensures HandInv(route, Next(route, s, Inspect(c)), Next(route, s, Inspect(c)).hands[c])
  {
  }

  lemma MarkKeepsHand(route: string -> nat, s: State, c: nat, reply: MarkReply)
    requires Enabled(route, s, Mark(c, reply)) && HandInv(route, s, s.hands[c])
    ensures HandInv(route, Next(route, s, Mark(c, reply)), Next(route, s, Mark(c, reply)).hands[c])
  {
  }

  lemma ApplyKeepsHand(route: string -> nat, s: State, c: nat, outcome: Outcome)
    requires Enabled(route, s, ApplyEvent(c, outcome)) && HandInv(route, s, s.hands[c])
    ensures HandInv(route, Next(route, s, ApplyEvent(c, outcome)), Next(route, s, ApplyEvent(c, outcome)).hands[c])
  {
  }

  lemma OwnHand(route: string -> nat, s: State, a: Step)
    requires Enabled(route, s, a) && !a.Receive? && (a.c in s.hands ==> HandInv(route, s, s.hands[a.c]))
    requires a.c in Next(route, s, a).hands
    ensures HandInv(route, Next(route, s, a), Next(route, s, a).hands[a.c])
  {
    match a
    case Inspect(c) => InspectKeepsHand(route, s, c);
    case Mark(c, reply) => MarkKeepsHand(route, s, c, reply);
    case ApplyEvent(c, outcome) => ApplyKeepsHand(route, s, c, outcome);
    case _ =>
  }

  lemma StepKeepsHands(route: string -> nat, s: State, a: Step)
    requires HandsInv(route, s) && Enabled(route, s, a)
    ensures HandsInv(route, Next(route, s, a))
  {
    var t := Next(route, s, a);
    StepGrows(route, s, a);
    forall c | c in t.hands ensures HandInv(route, t, t.hands[c]) {
      if By(a, c) {
        OwnHand(route, s, a);
      } else {
        OthersHold(route, s, a, c);
        HandFrame(route, s, t, s.hands[c]);
      }
    }
  }

  /** What a step does to the store: nothing, or one attempt of the projection that committed. */
  lemma StoreAfter(route: string -> nat, s: State, a: Step)
    requires Enabled(route, s, a)
    ensures var t := Next(route, s, a);
            if a.ApplyEvent? && a.outcome != RolledBack then
              var u := AfterApply(s, s.hands[a.c].at);
              t.log == s.log && t.marked == s.marked && t.store == u.store && t.applied == u.applied
            else t.store == s.store && t.applied == s.applied
  {
  }

  lemma StepKeepsAtMostOnce(route: string -> nat, s: State, a: Step)
    requires Inv(route, s) && Enabled(route, s, a)
    ensures AtMostOnce(Next(route, s, a))
  {
    var t := Next(route, s, a);
    StoreAfter(route, s, a);
    StepGrows(route, s, a);
    if a.ApplyEvent? && a.outcome != RolledBack {
      assert HandInv(route, s, s.hands[a.c]);
      ApplyKeepsAtMostOnce(s, s.hands[a.c].at);
      AtMostOnceFrame(AfterApply(s, s.hands[a.c].at), t);
    } else {
      AtMostOnceFrame(s, t);
    }
  }

  lemma StepKeepsOffsets(route: string -> nat, s: State, a: Step)
    requires OffsetsInv(s) && Enabled(route, s, a)
    ensures OffsetsInv(Next(route, s, a))
  {
    StepGrows(route, s, a);
  }

  lemma StepKeepsInv(route: string -> nat, s: State, a: Step)
    requires Inv(route, s) && Enabled(route, s, a)
    ensures Inv(route, Next(route, s, a))
  {
    StepKeepsOffsets(route, s, a);
    StepKeepsHands(route, s, a);
    StepKeepsAtMostOnce(route, s, a);
  }

  lemma {:induction false} RunKeepsInv(route: string -> nat, s: State, steps: seq<Step>)
    requires Inv(route, s) && Legal(route, s, steps)
    ensures Inv(route, Run(route, s, steps))
    decreases |steps|
  {
    if steps != [] {
      StepKeepsInv(route, s, steps[0]);
      RunKeepsInv(route, Next(route, s, steps[0]), steps[1..]);
    }
  }

  lemma InitInv(route: string -> nat)
    ensures Inv(route, Init)
  {
    assert Fold(Empty, EventsAt(Init, [])) == Empty;
  }

  /** At most once, in every run of any number of consumers: no id takes effect twice, the store is the fold of the
      effects in the order they happened, and whatever was applied had been marked. */
  lemma AtMostOnceInEveryRun(route: string -> nat, steps: seq<Step>)
    requires Legal(route, Init, steps)
    ensures var s := Run(route, Init, steps);
            && (forall g :: g in s.applied ==> Projects(s, g))
            && (forall i, j :: 0 <= i < j < |s.applied| ==> EventAt(s, s.applied[i]).id != EventAt(s, s.applied[j]).id)
            && s.store == Fold(Empty, EventsAt(s, s.applied))
            && s.store.seen <= s.marked
  {
    InitInv(route);
    RunKeepsInv(route, Init, steps);
    var s := Run(route, Init, steps);
    forall i, j | 0 <= i < j < |s.applied| ensures EventAt(s, s.applied[i]).id != EventAt(s, s.applied[j]).id {
      assert EventsAt(s, s.applied)[i].id != EventsAt(s, s.applied)[j].id;
    }
  }

  // ---- Answered for, in every run of any number of consumers ----

  ghost predicate Dead(s: State, id: string) {
    exists g :: g in s.dlq && Projects(s, g) && EventAt(s, g).id == id
  }

  /** The message at `g` needs nothing more, or its id is marked or dead-lettered. */
  ghost predicate Answered(s: State, g: nat)
    requires g < |s.log|
  {
    match Decode(s.log[g])
    case Poison => g in s.dlq
    case Ignored => true
    case Projecting(e) => e.id in s.marked || Dead(s, e.id)
  }

  /** Every message of the partition before `end` is answered for, but the one consumer `c` may hold. */
  ghost predicate Past(route: string -> nat, s: State, part: nat, end: nat, c: Option<nat>) {
    end <= |s.log| && forall g :: 0 <= g < end && Routed(route, s.log[g], part) ==> Answered(s, g) || HeldBy(s, c, g)
  }

  predicate HeldBy(s: State, c: Option<nat>, g: nat) { c.Some? && c.value in s.hands && s.hands[c.value].at == g }

  ghost predicate HandComplete(route: string -> nat, s: State, h: Hand) {
    && Past(route, s, h.part, h.at, None)
    && (h.stage == Committing && h.at < |s.log| ==> Answered(s, h.at))
  }

  ghost predicate Complete(route: string -> nat, s: State) {
    && (forall part :: Past(route, s, part, Offset(s, part), None))
    && (forall k :: k in s.positions ==> Past(route, s, k.1, s.positions[k], Some(k.0)))
    && (forall c :: c in s.hands ==> HandComplete(route, s, s.hands[c]))
  }

  lemma DeadFrame(s: State, t: State, id: string)
    requires s.log <= t.log && s.dlq <= t.dlq && Dead(s, id)
    ensures Dead(t, id)
  {
    var g :| g in s.dlq && Projects(s, g) && EventAt(s, g).id == id;
    assert g in t.dlq && Projects(t, g) && EventAt(t, g).id == id;
  }

  lemma AnsweredStays(s: State, t: State, g: nat)
    requires Grows(s, t) && g < |s.log| && Answered(s, g)
    ensures Answered(t, g)
  {
    assert t.log[g] == s.log[g];
    if Projects(s, g) && Dead(s, EventAt(s, g).id) { DeadFrame(s, t, EventAt(s, g).id); }
  }

  lemma PastStays(route: string -> nat, s: State, t: State, part: nat, end: nat)
    requires Grows(s, t) && Past(route, s, part, end, None)
    ensures Past(route, t, part, end, None)
  {
    forall g | 0 <= g < end && Routed(route, t.log[g], part) ensures Answered(t, g) {
      assert t.log[g] == s.log[g];
      AnsweredStays(s, t, g);
    }
  }

  /** How a hand comes to be about to commit. */
  lemma BeforeCommitting(route: string -> nat, s: State, a: Step)
    requires Enabled(route, s, a) && !a.Receive? && a.c in s.hands && a.c in Next(route, s, a).hands
    requires HandInv(route, s, s.hands[a.c]) && Next(route, s, a).hands[a.c].stage == Committing
    ensures var t, h := Next(route, s, a), s.hands[a.c];
            || h.stage == Committing
            || Decode(s.log[h.at]).Ignored?
            || h.at in t.dlq
            || (Projects(s, h.at) && EventAt(s, h.at).id in t.marked)
  {
  }

  /** A message whose handling is about to be committed is answered for. */
  lemma CommittingIsAnswered(route: string -> nat, s: State, a: Step)
    requires Complete(route, s) && HandsInv(route, s) && Enabled(route, s, a) && !a.Receive?
    requires a.c in s.hands
    requires a.c in Next(route, s, a).hands && Next(route, s, a).hands[a.c].stage == Committing
    ensures Answered(Next(route, s, a), s.hands[a.c].at)
  {
    var t, h := Next(route, s, a), s.hands[a.c];
    assert HandComplete(route, s, h) && HandInv(route, s, h);
    StepGrows(route, s, a);
    BeforeCommitting(route, s, a);
    assert t.log[h.at] == s.log[h.at];
    if h.stage == Committing {
      AnsweredStays(s, t, h.at);
    } else if h.at in t.dlq {
      if Projects(s, h.at) { assert Dead(t, EventAt(t, h.at).id); }
    }
  }

  /** At a fetch, everything before the message is answered for: the consumer holds nothing, and skips nothing. */
  lemma FetchedIsComplete(route: string -> nat, s: State, c: nat, part: nat, at: nat)
    requires Complete(route, s) && Enabled(route, s, Fetch(c, part, at))
    ensures Past(route, s, part, at, None)
  {
    assert Past(route, s, part, s.positions[(c, part)], Some(c));
  }

  lemma OwnHandComplete(route: string -> nat, s: State, a: Step)
    requires Complete(route, s) && HandsInv(route, s) && Enabled(route, s, a) && !a.Receive? && !a.Fetch?
    requires a.c in Next(route, s, a).hands
    ensures HandComplete(route, Next(route, s, a), Next(route, s, a).hands[a.c])
  {
    var t := Next(route, s, a);
    HandKeepsMessage(route, s, a);
    var h := s.hands[a.c];
    assert HandComplete(route, s, h);
    StepGrows(route, s, a);
    PastStays(route, s, t, h.part, h.at);
    if t.hands[a.c].stage == Committing { CommittingIsAnswered(route, s, a); }
  }

  lemma OtherHandComplete(route: string -> nat, s: State, t: State, h: Hand)
    requires Grows(s, t) && HandComplete(route, s, h) && h.at < |s.log|
    ensures HandComplete(route, t, h)
  {
    PastStays(route, s, t, h.part, h.at);
    if h.stage == Committing { AnsweredStays(s, t, h.at); }
  }

  lemma HandsStayComplete(route: string -> nat, s: State, a: Step, c: nat)
    requires Complete(route, s) && HandsInv(route, s) && Enabled(route, s, a) && c in Next(route, s, a).hands
    ensures HandComplete(route, Next(route, s, a), Next(route, s, a).hands[c])
  {
    var t := Next(route, s, a);
    StepGrows(route, s, a);
    if !By(a, c) {
      OthersHold(route, s, a, c);
      assert HandInv(route, s, s.hands[c]);
      OtherHandComplete(route, s, t, s.hands[c]);
    } else if a.Fetch? {
      FetchedIsComplete(route, s, a.c, a.part, a.at);
      PastStays(route, s, t, a.part, a.at);
    } else {
      OwnHandComplete(route, s, a);
    }
  }

  /** What a consumer holds it goes on holding, until it is answered for or the consumer has lost its places. */
  lemma HeldOrAnswered(route: string -> nat, s: State, a: Step, c: nat, g: nat)
    requires Complete(route, s) && Enabled(route, s, a) && g < |s.log| && !(a.Stop? && a.c == c)
    requires Answered(s, g) || HeldBy(s, Some(c), g)
    ensures Answered(Next(route, s, a), g) || HeldBy(Next(route, s, a), Some(c), g)
  {
    StepGrows(route, s, a);
    if HeldBy(s, Some(c), g) && a.CommitOffset? && a.c == c { assert HandComplete(route, s, s.hands[c]); }
    if Answered(s, g) {
      AnsweredStays(s, Next(route, s, a), g);
    } else if !By(a, c) {
      OthersHold(route, s, a, c);
    }
  }

  /** A place that the step does not move. */
  lemma PlaceStays(route: string -> nat, s: State, a: Step, k: (nat, nat))
    requires Complete(route, s) && Enabled(route, s, a) && !(a.Stop? && a.c == k.0) && k in s.positions
    ensures Past(route, Next(route, s, a), k.1, s.positions[k], Some(k.0))
  {
    var t := Next(route, s, a);
    StepGrows(route, s, a);
    assert Past(route, s, k.1, s.positions[k], Some(k.0));
    forall g | 0 <= g < s.positions[k] && Routed(route, t.log[g], k.1)
      ensures Answered(t, g) || HeldBy(t, Some(k.0), g)
    {
      assert t.log[g] == s.log[g];
      HeldOrAnswered(route, s, a, k.0, g);
    }
  }

  /** Which places a step moves. */
  lemma PlacesAfter(route: string -> nat, s: State, a: Step, k: (nat, nat))
    requires Enabled(route, s, a) && k in Next(route, s, a).positions
    ensures var t := Next(route, s, a);
            || (a.Assign? && k == (a.c, a.part) && t.positions[k] == Offset(s, a.part))
            || (a.Fetch? && k == (a.c, a.part) && t.positions[k] == a.at + 1 && HeldBy(t, Some(a.c), a.at))
            || (k in s.positions && t.positions[k] == s.positions[k] && !(a.Stop? && a.c == k.0))
  {
  }

  lemma PlacesStayComplete(route: string -> nat, s: State, a: Step, k: (nat, nat))
    requires Complete(route, s) && Enabled(route, s, a) && k in Next(route, s, a).positions
    ensures Past(route, Next(route, s, a), k.1, Next(route, s, a).positions[k], Some(k.0))
  {
    var t := Next(route, s, a);
    PlacesAfter(route, s, a, k);
    StepGrows(route, s, a);
    if k in s.positions && t.positions[k] == s.positions[k] && !(a.Stop? && a.c == k.0) {
      PlaceStays(route, s, a, k);
    } else if a.Assign? {
      assert Past(route, s, a.part, Offset(s, a.part), None);
      PastStays(route, s, t, a.part, Offset(s, a.part));
    } else {
      FetchedIsComplete(route, s, a.c, a.part, a.at);
      PastStays(route, s, t, a.part, a.at);
    }
  }

  lemma OffsetsStayComplete(route: string -> nat, s: State, a: Step, part: nat)
    requires Complete(route, s) && Enabled(route, s, a)
    ensures Past(route, Next(route, s, a), part, Offset(Next(route, s, a), part), None)
  {
    var t := Next(route, s, a);
    StepGrows(route, s, a);
    if a.CommitOffset? && s.hands[a.c].part == part {
      var h := s.hands[a.c];
      assert HandComplete(route, s, h);
      PastStays(route, s, t, part, h.at);
      AnsweredStays(s, t, h.at);
    } else {
      assert Past(route, s, part, Offset(s, part), None);
      PastStays(route, s, t, part, Offset(s, part));
    }
  }

  lemma StepKeepsComplete(route: string -> nat, s: State, a: Step)
    requires HandsInv(route, s) && Complete(route, s) && Enabled(route, s, a)
    ensures Complete(route, Next(route, s, a))
  {
    var t := Next(route, s, a);
    forall part ensures Past(route, t, part, Offset(t, part), None) { OffsetsStayComplete(route, s, a, part); }
    forall k | k in t.positions
      ensures Past(route, t, k.1, t.positions[k], Some(k.0))
    {
      PlacesStayComplete(route, s, a, k);
    }
    forall c | c in t.hands ensures HandComplete(route, t, t.hands[c]) { HandsStayComplete(route, s, a, c); }
  }

  lemma {:induction false} RunKeepsComplete(route: string -> nat, s: State, steps: seq<Step>)
    requires HandsInv(route, s) && Complete(route, s) && Legal(route, s, steps)
    ensures Complete(route, Run(route, s, steps))
    decreases |steps|
  {
    if steps != [] {
      StepKeepsHands(route, s, steps[0]);
      StepKeepsComplete(route, s, steps[0]);
      RunKeepsComplete(route, Next(route, s, steps[0]), steps[1..]);
    }
  }

  // ---- Neither applied nor dead-lettered: exactly when ----

  /** A mark is recorded for the message in hand, and its handling has not ended. */
  predicate InWindow(h: Hand) { h.stage.Applying? || h.stage == DeadLettering(true) }

  /** Consumer `c` is between the recorded mark of the id and the end of that handling. */
  predicate Minds(s: State, c: nat, id: string) {
    c in s.hands && InWindow(s.hands[c]) && Projects(s, s.hands[c].at) && EventAt(s, s.hands[c].at).id == id
  }

  ghost predicate UnderWay(s: State, id: string) { exists c :: Minds(s, c, id) }

  /** Applied, dead-lettered, or on its way to be. */
  ghost predicate Taken(s: State, id: string) { id in s.store.seen || Dead(s, id) || UnderWay(s, id) }

  /** Marked, so that it will be skipped, although it was neither applied nor dead-lettered and nobody minds it. */
  ghost predicate Gone(s: State, id: string) { id in s.marked && !Taken(s, id) }

  /** A failing mark that was recorded, or a stop of the only consumer that minds the id. */
  ghost predicate Vanishes(s: State, a: Step, id: string) {
    match a
    case Mark(c, reply) =>
      && reply == FailedButRecorded && HoldsEvent(s, c) && EventAt(s, s.hands[c].at).id == id
      && id !in s.marked && !Dead(s, id)
    case Stop(c) =>
      Minds(s, c, id) && id !in s.store.seen && !Dead(s, id) && forall d :: Minds(s, d, id) ==> d == c
    case _ => false
  }

  lemma MarksAfter(route: string -> nat, s: State, a: Step)
    requires Enabled(route, s, a)
    ensures Next(route, s, a).marked ==
              if a.Mark? && a.reply != Failed then s.marked + {EventAt(s, s.hands[a.c].at).id} else s.marked
  {
  }

  lemma DeadAfter(route: string -> nat, s: State, a: Step, id: string)
    requires Enabled(route, s, a) && OffsetsInv(s) && Dead(Next(route, s, a), id)
    ensures Dead(s, id) || (a.DeadLetter? && HoldsEvent(s, a.c) && EventAt(s, s.hands[a.c].at).id == id)
  {
    var t := Next(route, s, a);
    var g :| g in t.dlq && Projects(t, g) && EventAt(t, g).id == id;
    if g in s.dlq { assert t.log[g] == s.log[g] && Projects(s, g); }
  }

  /** Whether a consumer minds the id after a step. */
  lemma MindsAfter(route: string -> nat, s: State, a: Step, c: nat, id: string)
    requires Enabled(route, s, a) && HandsInv(route, s)
    ensures Minds(Next(route, s, a), c, id) <==>
              if !By(a, c) || a.Assign? then Minds(s, c, id)
              else if a.Mark? then a.reply == Recorded && EventAt(s, s.hands[c].at).id == id && id !in s.marked
              else a.ApplyEvent? && a.outcome != Landed && Minds(s, c, id)
  {
    StepGrows(route, s, a);
    if !By(a, c) {
      OthersHold(route, s, a, c);
      if c in s.hands { assert HandInv(route, s, s.hands[c]); }
    } else if c in s.hands {
      assert HandInv(route, s, s.hands[c]);
    }
  }

  lemma MindedDies(route: string -> nat, s: State, c: nat, id: string)
    requires Enabled(route, s, DeadLetter(c))
    ensures Minds(s, c, id) ==> Dead(Next(route, s, DeadLetter(c)), id)
  {
    assert s.hands[c].at in Next(route, s, DeadLetter(c)).dlq;
  }

  lemma NothingElseVanishes(route: string -> nat, s: State, a: Step, id: string)
    requires Inv(route, s) && Enabled(route, s, a) && !Gone(s, id) && Gone(Next(route, s, a), id)
    ensures Vanishes(s, a, id)
  {
    var t := Next(route, s, a);
    StoreAfter(route, s, a);
    MarksAfter(route, s, a);
    StepGrows(route, s, a);
    if Dead(s, id) { DeadFrame(s, t, id); }
    if UnderWay(s, id) {
      var c :| Minds(s, c, id);
      MindsAfter(route, s, a, c, id);
      assert !Minds(t, c, id);
      if a.DeadLetter? { MindedDies(route, s, a.c, id); }
      forall d | Minds(s, d, id) ensures d == c { MindsAfter(route, s, a, d, id); }
    } else {
      MindsAfter(route, s, a, a.c, id);
    }
  }

  lemma TheseVanish(route: string -> nat, s: State, a: Step, id: string)
    requires Inv(route, s) && Enabled(route, s, a) && Vanishes(s, a, id)
    ensures Gone(Next(route, s, a), id)
  {
    var t := Next(route, s, a);
    StoreAfter(route, s, a);
    MarksAfter(route, s, a);
    if Dead(t, id) { DeadAfter(route, s, a, id); }
    forall c ensures !Minds(t, c, id) {
      MindsAfter(route, s, a, c, id);
      if Minds(s, c, id) { assert HandInv(route, s, s.hands[c]); }
    }
    if a.Stop? { assert HandInv(route, s, s.hands[a.c]); }
  }

  /** Exactly these steps make an id go. */
  lemma VanishesExactly(route: string -> nat, s: State, a: Step, id: string)
    requires Inv(route, s) && Enabled(route, s, a) && !Gone(s, id)
    ensures Gone(Next(route, s, a), id) <==> Vanishes(s, a, id)
  {
    if Gone(Next(route, s, a), id) { NothingElseVanishes(route, s, a, id); }
    if Vanishes(s, a, id) { TheseVanish(route, s, a, id); }
  }

  /** What has gone is never applied; only a dead letter, after three failing marks of a redelivery, can bring it up. */
  lemma GoneStays(route: string -> nat, s: State, a: Step, id: string)
    requires Inv(route, s) && Enabled(route, s, a) && Gone(s, id)
    ensures Gone(Next(route, s, a), id) <==> !Dead(Next(route, s, a), id)
  {
    var t := Next(route, s, a);
    StoreAfter(route, s, a);
    StepGrows(route, s, a);
    forall c ensures !Minds(t, c, id) {
      assert !Minds(s, c, id);
      MindsAfter(route, s, a, c, id);
    }
    if a.ApplyEvent? { assert HandInv(route, s, s.hands[a.c]) && !Minds(s, a.c, id); }
  }

  ghost predicate VanishesIn(route: string -> nat, s: State, steps: seq<Step>, id: string)
    requires Legal(route, s, steps)
    decreases |steps|
  {
    steps != [] && (Vanishes(s, steps[0], id) || VanishesIn(route, Next(route, s, steps[0]), steps[1..], id))
  }

  lemma {:induction false} DeadStays(route: string -> nat, s: State, steps: seq<Step>, id: string)
    requires Legal(route, s, steps) && Dead(s, id)
    ensures Dead(Run(route, s, steps), id)
    decreases |steps|
  {
    if steps != [] {
      StepGrows(route, s, steps[0]);
      DeadFrame(s, Next(route, s, steps[0]), id);
      DeadStays(route, Next(route, s, steps[0]), steps[1..], id);
    }
  }

  lemma {:induction false} GoneExactly(route: string -> nat, s: State, steps: seq<Step>, id: string)
    requires Inv(route, s) && Legal(route, s, steps)
    ensures var t := Run(route, s, steps);
            Gone(t, id) <==> (Gone(s, id) || VanishesIn(route, s, steps, id)) && !Dead(t, id)
    decreases |steps|
  {
    if steps != [] {
      var a, t := steps[0], Next(route, s, steps[0]);
      StepKeepsInv(route, s, a);
      GoneExactly(route, t, steps[1..], id);
      if Gone(s, id) { GoneStays(route, s, a, id); } else { VanishesExactly(route, s, a, id); }
      if Dead(t, id) { DeadStays(route, t, steps[1..], id); }
    }
  }

  /** In every run of any number of consumers, whatever stops and fails: below its partition's committed offset an
      undecodable message was dead-lettered, and a projecting one was applied or dead-lettered, or some consumer is in
      the middle of it, unless its id vanished: exactly unless, at some step, its failing mark was recorded after all or
      the only consumer in the middle of it stopped, and it was never dead-lettered. */
  lemma CommittedExactly(route: string -> nat, steps: seq<Step>, g: nat)
    requires Legal(route, Init, steps)
    requires var s := Run(route, Init, steps);
             g < |s.log| && s.log[g].topic == Analytics && g < Offset(s, route(s.log[g].key))
    ensures var s := Run(route, Init, steps);
            && (Decode(s.log[g]).Poison? ==> g in s.dlq)
            && (Projects(s, g) ==>
                  var id := EventAt(s, g).id;
                  Taken(s, id) <==> !(VanishesIn(route, Init, steps, id) && !Dead(s, id)))
  {
    InitInv(route);
    RunKeepsComplete(route, Init, steps);
    var s := Run(route, Init, steps);
    var part := route(s.log[g].key);
    assert Past(route, s, part, Offset(s, part), None);
    assert Answered(s, g);
    if Projects(s, g) { GoneExactly(route, Init, steps, EventAt(s, g).id); }
  }

  // ---- Gentle runs ----

  /** No stop inside the window, and a failing mark records nothing. */
  predicate Gentle(s: State, a: Step) {
    (a.Stop? && a.c in s.hands ==> !InWindow(s.hands[a.c])) && (a.Mark? ==> a.reply != FailedButRecorded)
  }

  ghost predicate GentleRun(route: string -> nat, s: State, steps: seq<Step>)
    requires Legal(route, s, steps)
    decreases |steps|
  {
    steps == [] || (Gentle(s, steps[0]) && GentleRun(route, Next(route, s, steps[0]), steps[1..]))
  }

  ghost predicate NothingGone(s: State) { forall id :: !Gone(s, id) }

  lemma GentleStep(route: string -> nat, s: State, a: Step)
    requires Inv(route, s) && NothingGone(s) && Enabled(route, s, a) && Gentle(s, a)
    ensures NothingGone(Next(route, s, a))
  {
    forall id ensures !Gone(Next(route, s, a), id) { VanishesExactly(route, s, a, id); }
  }

  lemma {:induction false} NothingVanishes(route: string -> nat, s: State, steps: seq<Step>, id: string)
    requires Legal(route, s, steps) && GentleRun(route, s, steps)
    ensures !VanishesIn(route, s, steps, id)
    decreases |steps|
  {
    if steps != [] { NothingVanishes(route, Next(route, s, steps[0]), steps[1..], id); }
  }

  /** After a gentle run of any number of consumers, every projecting message below its partition's committed offset was
      applied or dead-lettered, or some consumer is in the middle of it; and every undecodable one was dead-lettered. */
  lemma CommittedMeansSettled(route: string -> nat, steps: seq<Step>, g: nat)
    requires Legal(route, Init, steps) && GentleRun(route, Init, steps)
    requires var s := Run(route, Init, steps);
             g < |s.log| && s.log[g].topic == Analytics && g < Offset(s, route(s.log[g].key))
    ensures var s := Run(route, Init, steps);
            && (Projects(s, g) ==>
                  var id := EventAt(s, g).id; id in s.store.seen || Dead(s, id) || UnderWay(s, id))
            && (Decode(s.log[g]).Poison? ==> g in s.dlq)
  {
    CommittedExactly(route, steps, g);
    var s := Run(route, Init, steps);
    if Projects(s, g) { NothingVanishes(route, Init, steps, EventAt(s, g).id); }
  }
}
