/** What the consumers can lose, and what redelivery can still apply, exactly. */
module Redelivery {
  import opened Base
  import opened Messages
  import opened Encoders
  import opened Projection
  import opened ReadModels
  import opened Projector

  // ---- What can be lost ----

  /** Consumer `c` is trying to apply the event with this id. */
  predicate Tries(s: State, c: nat, id: string) {
    HoldsEvent(s, c) && s.hands[c].stage.Applying? && EventAt(s, s.hands[c].at).id == id
  }

  /** The id is marked, not applied, and nobody is trying to apply it. */
  ghost predicate Lost(s: State, id: string) {
    id in s.marked && id !in s.store.seen && forall c :: c in s.hands ==> !Tries(s, c, id)
  }

  /** Nobody but `c` is trying to apply the id. */
  ghost predicate Alone(s: State, c: nat, id: string) { forall d :: d in s.hands && d != c ==> !Tries(s, d, id) }

  /** A failing mark that recorded after all, a stop while applying, or a last attempt that rolled back. */
  ghost predicate Loses(s: State, a: Step, id: string) {
    match a
    case Mark(c, reply) =>
      reply == FailedButRecorded && HoldsEvent(s, c) && EventAt(s, s.hands[c].at).id == id && id !in s.marked
    case Stop(c) => Tries(s, c, id) && id !in s.store.seen && Alone(s, c, id)
    case ApplyEvent(c, outcome) =>
      outcome == RolledBack && Tries(s, c, id) && s.hands[c].stage.failures + 1 == MAX_ATTEMPTS
      && id !in s.store.seen && Alone(s, c, id)
    case _ => false
  }

  /** Whether a consumer goes on trying after a step. */
  lemma TriesAfter(route: string -> nat, s: State, a: Step, c: nat, id: string)
    requires Enabled(route, s, a) && HandsInv(route, s)
    ensures var t := Next(route, s, a);
            Tries(t, c, id) <==>
              if !By(a, c) then Tries(s, c, id)
              else if a.Mark? then
                a.reply == Recorded && EventAt(s, s.hands[c].at).id == id && id !in s.marked
              else if a.ApplyEvent? then
                Tries(s, c, id) && a.outcome != Landed && s.hands[c].stage.failures + 1 != MAX_ATTEMPTS
              else if a.Assign? then Tries(s, c, id)
              else false
  {
    StepGrows(route, s, a);
    if !By(a, c) {
      OthersHold(route, s, a, c);
      if c in s.hands { assert HandInv(route, s, s.hands[c]); }
    }
  }

  /** Exactly these steps lose an id that was not lost: the retry after a failing mark is no fresh attempt when the mark
      was recorded, a stop between mark and apply, and the last failing attempt, which goes to the dead letters. */
  lemma LostExactly(route: string -> nat, s: State, a: Step, id: string)
    requires Inv(route, s) && Enabled(route, s, a) && !Lost(s, id)
    ensures Lost(Next(route, s, a), id) <==> Loses(s, a, id)
  {
    if Lost(Next(route, s, a), id) { LostDirection(route, s, a, id); }
    if Loses(s, a, id) { LosesDirection(route, s, a, id); }
  }

  lemma LostDirection(route: string -> nat, s: State, a: Step, id: string)
    requires Inv(route, s) && Enabled(route, s, a) && !Lost(s, id) && Lost(Next(route, s, a), id)
    ensures Loses(s, a, id)
  {
    var t := Next(route, s, a);
    StoreAfter(route, s, a);
    MarksAfter(route, s, a);
    StepGrows(route, s, a);
    if id in s.marked {
      var c :| c in s.hands && Tries(s, c, id);
      TriesAfter(route, s, a, c, id);
      forall d | d in s.hands && d != c ensures !Tries(s, d, id) { TriesAfter(route, s, a, d, id); }
    } else {
      TriesAfter(route, s, a, a.c, id);
    }
  }

  lemma LosesDirection(route: string -> nat, s: State, a: Step, id: string)
    requires Inv(route, s) && Enabled(route, s, a) && Loses(s, a, id)
    ensures Lost(Next(route, s, a), id)
  {
    var t := Next(route, s, a);
    StoreAfter(route, s, a);
    MarksAfter(route, s, a);
    assert HandInv(route, s, s.hands[a.c]);
    forall c | c in t.hands ensures !Tries(t, c, id) {
      TriesAfter(route, s, a, c, id);
      if c in s.hands { assert HandInv(route, s, s.hands[c]); }
    }
  }

  lemma LostStays(route: string -> nat, s: State, a: Step, id: string)
    requires HandsInv(route, s) && Lost(s, id) && Enabled(route, s, a)
    ensures Lost(Next(route, s, a), id)
  {
    var t := Next(route, s, a);
    StoreAfter(route, s, a);
    StepGrows(route, s, a);
    forall c | c in t.hands ensures !Tries(t, c, id) { TriesAfter(route, s, a, c, id); }
  }

  /** No redelivery ever brings a lost id back: its mark makes every later handling skip it. */
  lemma {:induction false} LostForever(route: string -> nat, s: State, steps: seq<Step>, id: string)
    requires HandsInv(route, s) && Lost(s, id) && Legal(route, s, steps)
    ensures id !in Run(route, s, steps).store.seen
    decreases |steps|
  {
    if steps != [] {
      LostStays(route, s, steps[0], id);
      StepKeepsHands(route, s, steps[0]);
      LostForever(route, Next(route, s, steps[0]), steps[1..], id);
    }
  }

  // ---- What redelivery can still apply ----

  /** No further delivery: the relay does not send a published row again. */
  predicate NoReceive(steps: seq<Step>) { forall a :: a in steps ==> !a.Receive? }

  /** Some continuation without further deliveries applies the id. */
  ghost predicate CanApply(route: string -> nat, s: State, id: string) {
    exists steps :: Legal(route, s, steps) && NoReceive(steps) && id in Run(route, s, steps).store.seen
  }

  /** Consumer `d` has the message at `g` before it: from its place, or from the message it handles, whose commit will
      put the offset there; or it handles that very message and has not marked it. */
  predicate ReachedBy(route: string -> nat, s: State, d: nat, g: nat)
    requires g < |s.log|
  {
    var part := route(s.log[g].key);
    || ((d, part) in s.positions && s.positions[(d, part)] <= g)
    || (d in s.hands && s.hands[d].part == part &&
        (s.hands[d].at < g || (s.hands[d].at == g && (s.hands[d].stage == Fetched || s.hands[d].stage.Marking?))))
  }

  /** The message at `g` carries the id and has not been committed past, or some consumer has it before it. */
  ghost predicate InReach(route: string -> nat, s: State, g: nat, id: string) {
    && Projects(s, g) && s.log[g].topic == Analytics && EventAt(s, g).id == id
    && (Offset(s, route(s.log[g].key)) <= g || exists d: nat :: ReachedBy(route, s, d, g))
  }

  /** A consumer that has a message before it after a step had it before the step, or was given it by its offset. */
  lemma ReachedShrinks(route: string -> nat, s: State, a: Step, d: nat, g: nat)
    requires Enabled(route, s, a) && !a.Receive? && g < |s.log| && ReachedBy(route, Next(route, s, a), d, g)
    ensures Offset(s, route(s.log[g].key)) <= g || ReachedBy(route, s, d, g)
  {
    var t, part := Next(route, s, a), route(s.log[g].key);
    if (d, part) in t.positions && t.positions[(d, part)] <= g {
      PlacesAfter(route, s, a, (d, part));
    } else if !By(a, d) {
      OthersHold(route, s, a, d);
    } else if !a.Fetch? {
      HandKeepsMessage(route, s, a);
      var stage := t.hands[d].stage;
      if stage == Fetched || stage.Marking? { StageShrinks(route, s, a); }
    }
  }

  lemma StageShrinks(route: string -> nat, s: State, a: Step)
    requires Enabled(route, s, a) && !a.Receive? && !a.Fetch? && a.c in s.hands && a.c in Next(route, s, a).hands
    requires var h := Next(route, s, a).hands[a.c]; h.stage == Fetched || h.stage.Marking?
    ensures s.hands[a.c].stage == Fetched || s.hands[a.c].stage.Marking?
  {
  }

  lemma OffsetShrinks(route: string -> nat, s: State, a: Step, g: nat)
    requires Enabled(route, s, a) && !a.Receive? && g < |s.log|
    requires Offset(Next(route, s, a), route(s.log[g].key)) <= g
    ensures Offset(s, route(s.log[g].key)) <= g || (a.CommitOffset? && ReachedBy(route, s, a.c, g))
  {
  }

  /** A step that delivers nothing brings no message into reach. */
  lemma ReachShrinks(route: string -> nat, s: State, a: Step, g: nat, id: string)
    requires Enabled(route, s, a) && !a.Receive? && InReach(route, Next(route, s, a), g, id)
    ensures InReach(route, s, g, id)
  {
    var t := Next(route, s, a);
    assert t.log == s.log;
    if Offset(t, route(s.log[g].key)) <= g {
      OffsetShrinks(route, s, a, g);
    } else {
      var d: nat :| ReachedBy(route, t, d, g);
      ReachedShrinks(route, s, a, d, g);
    }
  }

  /** Applied, being tried, or unmarked with some message that carries it in reach. */
  ghost predicate Open(route: string -> nat, s: State, id: string) {
    || id in s.store.seen
    || (exists c :: Tries(s, c, id))
    || (id !in s.marked && exists g: nat :: InReach(route, s, g, id))
  }

  lemma StaysShut(route: string -> nat, s: State, a: Step, id: string)
    requires Inv(route, s) && Enabled(route, s, a) && !a.Receive? && !Open(route, s, id)
    ensures !Open(route, Next(route, s, a), id)
  {
    var t := Next(route, s, a);
    if id in s.marked {
      LostStays(route, s, a, id);
      StepGrows(route, s, a);
    } else {
      StoreAfter(route, s, a);
      MarksAfter(route, s, a);
      if a.Mark? {
        assert HandInv(route, s, s.hands[a.c]) && !InReach(route, s, s.hands[a.c].at, id);
        assert ReachedBy(route, s, a.c, s.hands[a.c].at);
      }
      StepKeepsHands(route, s, a);
      forall c ensures !Tries(t, c, id) { if c in t.hands { assert HandInv(route, t, t.hands[c]); } }
      if a.ApplyEvent? { assert HandInv(route, s, s.hands[a.c]); }
      forall g: nat ensures !InReach(route, t, g, id) {
        if InReach(route, t, g, id) { ReachShrinks(route, s, a, g, id); }
      }
    }
  }

  lemma {:induction false} ShutForever(route: string -> nat, s: State, steps: seq<Step>, id: string)
    requires Inv(route, s) && Legal(route, s, steps) && NoReceive(steps) && !Open(route, s, id)
    ensures id !in Run(route, s, steps).store.seen
    decreases |steps|
  {
    if steps != [] {
      StaysShut(route, s, steps[0], id);
      StepKeepsInv(route, s, steps[0]);
      ShutForever(route, Next(route, s, steps[0]), steps[1..], id);
    }
  }

  lemma CanApplyNow(route: string -> nat, s: State, id: string)
    requires id in s.store.seen
    ensures CanApply(route, s, id)
  {
    assert Legal(route, s, []) && NoReceive([]) && Run(route, s, []) == s;
  }

  lemma CanApplyAfter(route: string -> nat, s: State, a: Step, id: string)
    requires Enabled(route, s, a) && !a.Receive? && CanApply(route, Next(route, s, a), id)
    ensures CanApply(route, s, id)
  {
    var steps :| && Legal(route, Next(route, s, a), steps) && NoReceive(steps)
                 && id in Run(route, Next(route, s, a), steps).store.seen;
    RunCons(route, s, a, steps);
    assert NoReceive([a] + steps);
  }

  lemma TriedCanApply(route: string -> nat, s: State, c: nat, id: string)
    requires Tries(s, c, id)
    ensures CanApply(route, s, id)
  {
    CanApplyNow(route, Next(route, s, ApplyEvent(c, Landed)), id);
    CanApplyAfter(route, s, ApplyEvent(c, Landed), id);
  }

  /** A consumer handles an event that it has not marked. */
  predicate HoldsUnmarked(s: State, c: nat) {
    HoldsEvent(s, c) && (s.hands[c].stage == Fetched || s.hands[c].stage.Marking?)
  }

  lemma HeldCanApply(route: string -> nat, s: State, c: nat)
    requires HoldsUnmarked(s, c) && EventAt(s, s.hands[c].at).id !in s.marked
    ensures CanApply(route, s, EventAt(s, s.hands[c].at).id)
  {
    var id := EventAt(s, s.hands[c].at).id;
    var t := if s.hands[c].stage == Fetched then Next(route, s, Inspect(c)) else s;
    TriedCanApply(route, Next(route, t, Mark(c, Recorded)), c, id);
    CanApplyAfter(route, t, Mark(c, Recorded), id);
    if s.hands[c].stage == Fetched { CanApplyAfter(route, s, Inspect(c), id); }
  }

  /** What a consumer does next when nothing fails. */
  function Onward(s: State, c: nat): Step
    requires c in s.hands
  {
    match s.hands[c].stage
    case Fetched => Inspect(c)
    case Marking(_) => Mark(c, Recorded)
    case Applying(_) => ApplyEvent(c, Landed)
    case DeadLettering(_) => DeadLetter(c)
    case Committing => CommitOffset(c)
  }

  function Left(stage: Stage): nat {
    match stage
    case Fetched => 3
    case Marking(_) => 2
    case Committing => 0
    case _ => 1
  }

  /** The state in which a consumer has dealt with its message and holds nothing. */
  ghost predicate Dealt(s: State, t: State, c: nat, id: string)
    requires c in s.hands
  {
    && t.log == s.log && t.positions == s.positions && t.hands == s.hands - {c}
    && t.committed == s.committed[s.hands[c].part := s.hands[c].at + 1] && (id in t.marked ==> id in s.marked)
  }

  lemma OneOnward(route: string -> nat, s: State, c: nat, id: string)
    requires Holding(s, c) && HandInv(route, s, s.hands[c]) && s.hands[c].stage != Committing
    requires HoldsUnmarked(s, c) ==> EventAt(s, s.hands[c].at).id != id
    ensures Enabled(route, s, Onward(s, c))
    ensures var t := Next(route, s, Onward(s, c));
            && t.log == s.log && t.positions == s.positions && t.committed == s.committed && Holding(t, c)
            && t.hands[c].part == s.hands[c].part && t.hands[c].at == s.hands[c].at && t.hands - {c} == s.hands - {c}
            && (id in t.marked ==> id in s.marked) && Left(t.hands[c].stage) < Left(s.hands[c].stage)
  {
  }

  /** A consumer can always deal with its message; unless the message is an unmarked event with the id, that does not
      mark the id. */
  lemma {:induction false} CanDeal(route: string -> nat, s: State, c: nat, id: string) returns (t: State)
    requires Holding(s, c) && HandInv(route, s, s.hands[c])
    requires HoldsUnmarked(s, c) ==> EventAt(s, s.hands[c].at).id != id
    ensures Dealt(s, t, c, id) && (CanApply(route, t, id) ==> CanApply(route, s, id))
    decreases Left(s.hands[c].stage)
  {
    var a := Onward(s, c);
    if s.hands[c].stage == Committing {
      t := Next(route, s, a);
    } else {
      OneOnward(route, s, c, id);
      OwnHand(route, s, a);
      t := CanDeal(route, Next(route, s, a), c, id);
    }
    if CanApply(route, t, id) { CanApplyAfter(route, s, a, id); }
  }

  /** The next message of a partition at or after a place, no later than a given one. */
  lemma {:induction false} NextRouted(route: string -> nat, s: State, part: nat, from: nat, at: nat) returns (f: nat)
    requires from <= at < |s.log| && Routed(route, s.log[at], part)
    ensures from <= f <= at && Routed(route, s.log[f], part)
    ensures forall g :: from <= g < f ==> !Routed(route, s.log[g], part)
    decreases at - from
  {
    if Routed(route, s.log[from], part) { f := from; } else { f := NextRouted(route, s, part, from + 1, at); }
  }

  /** A consumer reading on from its place reaches an unmarked event and applies it. */
  lemma {:induction false} ReadsUpTo(route: string -> nat, s: State, c: nat, part: nat, at: nat)
    requires c !in s.hands && (c, part) in s.positions && s.positions[(c, part)] <= at < |s.log|
    requires Routed(route, s.log[at], part) && Projects(s, at) && EventAt(s, at).id !in s.marked
    ensures CanApply(route, s, EventAt(s, at).id)
    decreases at - s.positions[(c, part)]
  {
    var id := EventAt(s, at).id;
    var f := NextRouted(route, s, part, s.positions[(c, part)], at);
    var t := Next(route, s, Fetch(c, part, f));
    if Projects(s, f) && EventAt(s, f).id == id {
      HeldCanApply(route, t, c);
    } else {
      var u := CanDeal(route, t, c, id);
      assert c !in u.hands && u.log == s.log && u.positions[(c, part)] == f + 1;
      ReadsUpTo(route, u, c, part, at);
    }
    CanApplyAfter(route, s, Fetch(c, part, f), id);
  }

  /** From the committed offset on, everything is delivered again to a consumer that starts afresh. */
  lemma OffsetCanApply(route: string -> nat, s: State, g: nat, id: string)
    requires InReach(route, s, g, id) && id !in s.marked && Offset(s, route(s.log[g].key)) <= g
    ensures CanApply(route, s, id)
  {
    var part := route(s.log[g].key);
    var t := Next(route, s, Stop(0));
    ReadsUpTo(route, Next(route, t, Assign(0, part)), 0, part, g);
    CanApplyAfter(route, t, Assign(0, part), id);
    CanApplyAfter(route, s, Stop(0), id);
  }

  lemma ReachedCanApply(route: string -> nat, s: State, d: nat, g: nat, id: string)
    requires Inv(route, s) && InReach(route, s, g, id) && id !in s.marked && ReachedBy(route, s, d, g)
    ensures CanApply(route, s, id)
  {
    var part := route(s.log[g].key);
    if d !in s.hands {
      ReadsUpTo(route, s, d, part, g);
    } else if HoldsUnmarked(s, d) && EventAt(s, s.hands[d].at).id == id {
      HeldCanApply(route, s, d);
    } else {
      assert HandInv(route, s, s.hands[d]);
      var t := CanDeal(route, s, d, id);
      if (d, part) in s.positions && s.positions[(d, part)] <= g {
        ReadsUpTo(route, t, d, part, g);
      } else {
        OffsetCanApply(route, t, g, id);
      }
    }
  }

  /** With no further delivery, an id can still take effect exactly when it has, when some consumer is trying to apply
      it, or when it is unmarked and a message that carries it is at or after its partition's committed offset or
      before some consumer.  So an unmarked event that has been committed past, after three failing marks and a dead
      letter, is as lost as a marked one. */
  lemma CanApplyExactly(route: string -> nat, s: State, id: string)
    requires Inv(route, s)
    ensures CanApply(route, s, id) <==> Open(route, s, id)
  {
    if CanApply(route, s, id) {
      var steps :| Legal(route, s, steps) && NoReceive(steps) && id in Run(route, s, steps).store.seen;
      if !Open(route, s, id) { ShutForever(route, s, steps, id); }
    }
    if Open(route, s, id) {
      if id in s.store.seen {
        CanApplyNow(route, s, id);
      } else if c :| Tries(s, c, id) {
        TriedCanApply(route, s, c, id);
      } else {
        var g: nat :| InReach(route, s, g, id);
        if Offset(s, route(s.log[g].key)) <= g {
          OffsetCanApply(route, s, g, id);
        } else {
          var d: nat :| ReachedBy(route, s, d, g);
          ReachedCanApply(route, s, d, g, id);
        }
      }
    }
  }

  /** The message at `g` carries the id, and is not committed past or is before a consumer other than `c`. */
  ghost predicate InReachWithout(route: string -> nat, s: State, c: nat, g: nat, id: string) {
    && Projects(s, g) && s.log[g].topic == Analytics && EventAt(s, g).id == id
    && (Offset(s, route(s.log[g].key)) <= g || exists d: nat :: d != c && ReachedBy(route, s, d, g))
  }

  lemma ReachAfterStop(route: string -> nat, s: State, c: nat, g: nat)
    requires g < |s.log|
    ensures forall d: nat :: ReachedBy(route, Without(s, c), d, g) <==> d != c && ReachedBy(route, s, d, g)
  {
  }

  /** A stop loses the message in hand, if it is neither applied nor being applied by another, unless it is unmarked and
      a delivery of it remains that has not been committed past or that another consumer has before it. */
  lemma StopLosesExactly(route: string -> nat, s: State, c: nat)
    requires Inv(route, s) && HoldsEvent(s, c)
    requires var id := EventAt(s, s.hands[c].at).id; id !in s.store.seen && Alone(s, c, id)
    ensures var id := EventAt(s, s.hands[c].at).id;
            !CanApply(route, Next(route, s, Stop(c)), id)
            <==> !(id !in s.marked && exists g: nat :: InReachWithout(route, s, c, g, id))
  {
    var t, id := Next(route, s, Stop(c)), EventAt(s, s.hands[c].at).id;
    StepKeepsInv(route, s, Stop(c));
    CanApplyExactly(route, t, id);
    forall d ensures !Tries(t, d, id) { TriesAfter(route, s, Stop(c), d, id); }
    forall g: nat ensures InReach(route, t, g, id) <==> InReachWithout(route, s, c, g, id) {
      if g < |s.log| { ReachAfterStop(route, s, c, g); }
    }
  }

  // ---- Unmarked, and lost all the same ----

  /** What is left when consumer `c` cannot mark its message, dead-letters it and commits. */
  function GivenUp(s: State, c: nat): State
    requires c in s.hands
  {
    var h := s.hands[c];
    s.(committed := s.committed[h.part := h.at + 1], hands := s.hands - {c}, dlq := s.dlq + [h.at])
  }

  lemma GivesUp(route: string -> nat, s0: State, before: seq<Step>, c: nat) returns (steps: seq<Step>)
    requires Legal(route, s0, before)
    requires var s := Run(route, s0, before); HoldsEvent(s, c) && s.hands[c].stage == Fetched
    ensures Legal(route, s0, steps) && Run(route, s0, steps) == GivenUp(Run(route, s0, before), c)
  {
    var s := Run(route, s0, before);
    RunSnoc(route, s0, before, Inspect(c));
    steps := before + [Inspect(c)];
    for k := 0 to MAX_ATTEMPTS
      invariant Legal(route, s0, steps)
      invariant Run(route, s0, steps) == To(s, c, if k == MAX_ATTEMPTS then DeadLettering(false) else Marking(k))
    {
      RunSnoc(route, s0, steps, Mark(c, Failed));
      steps := steps + [Mark(c, Failed)];
    }
    RunSnoc(route, s0, steps, DeadLetter(c));
    steps := steps + [DeadLetter(c)];
    RunSnoc(route, s0, steps, CommitOffset(c));
    steps := steps + [CommitOffset(c)];
  }

  /** An event has been delivered, and these consumers have just fetched it. */
  function JustFetched(m: Message, part: nat, cs: set<nat>): State {
    Init.(log := [m], positions := map c | c in cs :: (c, part) := 1,
          hands := map c | c in cs :: Hand(part, 0, Fetched))
  }

  lemma Fetches(route: string -> nat, m: Message, cs: set<nat>, c: nat, before: seq<Step>) returns (steps: seq<Step>)
    requires m.topic == Analytics && c !in cs && Legal(route, Init, before)
    requires Run(route, Init, before) == JustFetched(m, route(m.key), cs)
    ensures Legal(route, Init, steps) && Run(route, Init, steps) == JustFetched(m, route(m.key), cs + {c})
  {
    var p := route(m.key);
    RunSnoc(route, Init, before, Assign(c, p));
    steps := before + [Assign(c, p)];
    RunSnoc(route, Init, steps, Fetch(c, p, 0));
    steps := steps + [Fetch(c, p, 0)];
    assert Run(route, Init, steps) == JustFetched(m, p, cs + {c});
  }

  lemma Delivered(route: string -> nat, m: Message) returns (steps: seq<Step>)
    ensures Legal(route, Init, steps) && Run(route, Init, steps) == JustFetched(m, route(m.key), {})
  {
    RunSnoc(route, Init, [], Receive(m));
    steps := [] + [Receive(m)];
    assert Run(route, Init, steps) == JustFetched(m, route(m.key), {});
  }

  /** One consumer that fails three times to mark an event, dead-letters it and commits leaves it unmarked, and never to
      be applied. */
  lemma UnmarkedIsLost(route: string -> nat, m: Message) returns (steps: seq<Step>)
    requires m.topic == Analytics && Decode(m).Projecting?
    ensures Legal(route, Init, steps)
    ensures var s := Run(route, Init, steps); s.marked == {} && !CanApply(route, s, Decode(m).event.id)
  {
    steps := Delivered(route, m);
    steps := Fetches(route, m, {}, 1, steps);
    steps := GivesUp(route, Init, steps, 1);
    InitInv(route);
    RunKeepsInv(route, Init, steps);
    var s := Run(route, Init, steps);
    assert s.committed == map[route(m.key) := 1] && s.hands == map[] && s.log == [m];
    forall g: nat ensures !InReach(route, s, g, Decode(m).event.id) {}
    CanApplyExactly(route, s, Decode(m).event.id);
  }

  /** And when another consumer, from before a rebalance, still has that message in its hand, not marked and free to be
      applied, its stop loses it. */
  lemma StopLosesUnmarked(route: string -> nat, m: Message) returns (steps: seq<Step>)
    requires m.topic == Analytics && Decode(m).Projecting?
    ensures Legal(route, Init, steps)
    ensures var s := Run(route, Init, steps);
            && HoldsUnmarked(s, 0) && EventAt(s, s.hands[0].at) == Decode(m).event && s.marked == {}
            && CanApply(route, s, Decode(m).event.id)
            && !CanApply(route, Next(route, s, Stop(0)), Decode(m).event.id)
  {
    steps := Delivered(route, m);
    steps := Fetches(route, m, {}, 0, steps);
    steps := Fetches(route, m, {0}, 1, steps);
    steps := GivesUp(route, Init, steps, 1);
    InitInv(route);
    RunKeepsInv(route, Init, steps);
    StaleState(m, route(m.key));
    StaleIsLost(route, m);
  }

  /** Consumer 1 has given up the message that consumer 0 has just fetched. */
  function Stale(m: Message, part: nat): State {
    GivenUp(JustFetched(m, part, {0} + {1}), 1)
  }

  lemma StaleState(m: Message, part: nat)
    ensures var s := Stale(m, part);
            && s.log == [m] && s.committed == map[part := 1] && s.hands == map[0 := Hand(part, 0, Fetched)]
            && s.positions == map[(0, part) := 1, (1, part) := 1] && s.marked == {} && s.store == Empty
  {
  }

  lemma StaleIsLost(route: string -> nat, m: Message)
    requires m.topic == Analytics && Decode(m).Projecting? && Inv(route, Stale(m, route(m.key)))
    ensures var s := Stale(m, route(m.key));
            && HoldsUnmarked(s, 0) && EventAt(s, s.hands[0].at) == Decode(m).event
            && CanApply(route, s, Decode(m).event.id) && !CanApply(route, Next(route, s, Stop(0)), Decode(m).event.id)
  {
    var s, id := Stale(m, route(m.key)), Decode(m).event.id;
    StaleState(m, route(m.key));
    HeldCanApply(route, s, 0);
    forall g: nat ensures !InReachWithout(route, s, 0, g, id) {
      if g == 0 { forall d: nat | d != 0 ensures !ReachedBy(route, s, d, g) {} }
    }
    StopLosesExactly(route, s, 0);
  }
}
