/** The message handler as the code runs it, proved to be a run of the step system of module `Projector`. */
module Consumer {
  import opened Base
  import opened Messages
  import opened Encoders
  import opened Projection
  import opened ReadModels
  import opened Projector

  /** What the broker and the database answer while one message is handled: the attempts to mark and to apply, the
      dead-letter write, the offset commit. */
  datatype Weather = Weather(marks: seq<MarkReply>, applies: seq<Outcome>, deadLetter: Outcome, commit: Outcome)

  function ReplyAt(marks: seq<MarkReply>, k: nat): MarkReply { if k < |marks| then marks[k] else Failed }

  function OutcomeAt(applies: seq<Outcome>, k: nat): Outcome { if k < |applies| then applies[k] else RolledBack }

  /** What up to three attempts to mark answer, from attempt `k` on, when the id is `known` to the gate or not:
      whether the id was new, or nothing.  An attempt that fails after recording makes the next one see a duplicate. */
  function MarkAnswer(known: bool, marks: seq<MarkReply>, k: nat): Option<bool>
    decreases MAX_ATTEMPTS - k
  {
    if k >= MAX_ATTEMPTS then None
    else
      match ReplyAt(marks, k)
      case Recorded => Some(!known)
      case Failed => MarkAnswer(known, marks, k + 1)
      case FailedButRecorded => MarkAnswer(true, marks, k + 1)
  }

  /** Whether the gate knows the id after those attempts. */
  predicate MarkLeft(known: bool, marks: seq<MarkReply>, k: nat)
    decreases MAX_ATTEMPTS - k
  {
    if k >= MAX_ATTEMPTS then known
    else ReplyAt(marks, k) == Recorded || MarkLeft(known || ReplyAt(marks, k) == FailedButRecorded, marks, k + 1)
  }

  /** Whether an attempt to apply, from attempt `k` on, reports success within the limit. */
  predicate Reported(applies: seq<Outcome>, k: nat)
    decreases MAX_ATTEMPTS - k
  {
    k < MAX_ATTEMPTS && (OutcomeAt(applies, k) == Landed || Reported(applies, k + 1))
  }

  /** Whether any attempt up to that success, or up to the limit, has an effect. */
  predicate TakesEffect(applies: seq<Outcome>, k: nat)
    decreases MAX_ATTEMPTS - k
  {
    k < MAX_ATTEMPTS && (OutcomeAt(applies, k) != RolledBack || TakesEffect(applies, k + 1))
  }

  /** How the handling of a message ends. */
  datatype Ending = Ending(dead: bool, marked: set<string>, store: Store)

  function EndingOf(m: Message, marked: set<string>, store: Store, w: Weather): Ending {
    match Decode(m)
    case Poison => Ending(true, marked, store)
    case Ignored => Ending(false, marked, store)
    case Projecting(e) =>
      var isNew := MarkAnswer(e.id in marked, w.marks, 0);
      var gate := if MarkLeft(e.id in marked, w.marks, 0) then marked + {e.id} else marked;
      if isNew == Some(true) then
        Ending(!Reported(w.applies, 0), gate, if TakesEffect(w.applies, 0) then Apply(store, e) else store)
      else Ending(isNew == None, gate, store)
  }

  /** Gate, store and dead letters after the handling of the message at `at`, from what they were. */
  predicate EndsAs(m: Message, at: nat, w: Weather, ok: bool, marked: set<string>, store: Store, dlq: seq<nat>,
                   marked': set<string>, store': Store, dlq': seq<nat>)
  {
    var end := EndingOf(m, marked, store, w);
    && marked' == end.marked && store' == end.store
    && (ok <==> w.commit == Landed && (end.dead ==> w.deadLetter == Landed))
    && dlq' == if end.dead && w.deadLetter != RolledBack then dlq + [at] else dlq
  }

  /** Whether the offset moves past a message that does or does not go to the dead letters first. */
  predicate Moved(w: Weather, dead: bool) { w.commit != RolledBack && (dead ==> w.deadLetter == Landed) }

  predicate OffsetMoves(m: Message, marked: set<string>, store: Store, w: Weather) {
    Moved(w, EndingOf(m, marked, store, w).dead)
  }

  /** How the pieces of handling a projecting message make up its ending. */
  lemma ProjectingEnds(m: Message, e: Event, at: nat, w: Weather, ok: bool, marked: set<string>, store: Store,
                       dlq: seq<nat>,
                       marked': set<string>, store': Store, dlq': seq<nat>, isNew: Option<bool>, dead: bool)
    requires Decode(m) == Projecting(e) && isNew == MarkAnswer(e.id in marked, w.marks, 0)
    requires marked' == if MarkLeft(e.id in marked, w.marks, 0) then marked + {e.id} else marked
    requires store' == if isNew == Some(true) && TakesEffect(w.applies, 0) then Apply(store, e) else store
    requires dead <==> isNew == None || (isNew.value && !Reported(w.applies, 0))
    requires ok <==> w.commit == Landed && (dead ==> w.deadLetter == Landed)
    requires dlq' == if dead && w.deadLetter != RolledBack then dlq + [at] else dlq
    ensures EndsAs(m, at, w, ok, marked, store, dlq, marked', store', dlq')
    ensures OffsetMoves(m, marked, store, w) <==> Moved(w, dead)
  {
  }

  /** A mark, seen from the hands of the others. */
  lemma AfterMark(route: string -> nat, s: State, others: map<nat, Hand>, me: nat, part: nat, at: nat, k: nat,
                  id: string, reply: MarkReply)
    requires s.hands == others[me := Hand(part, at, Marking(k))] && Projects(s, at) && EventAt(s, at).id == id
    ensures Enabled(route, s, Mark(me, reply))
    ensures var stage := if reply == Recorded then if id in s.marked then Committing else Applying(0)
                         else if k + 1 == MAX_ATTEMPTS then DeadLettering(false) else Marking(k + 1);
            Next(route, s, Mark(me, reply)) ==
              s.(marked := if reply == Failed then s.marked else s.marked + {id},
                 hands := others[me := Hand(part, at, stage)])
  {
  }

  /** An attempt to apply, seen from the hands of the others. */
  lemma AfterTry(route: string -> nat, s: State, others: map<nat, Hand>, me: nat, part: nat, at: nat, k: nat,
                 e: Event, outcome: Outcome)
    requires s.hands == others[me := Hand(part, at, Applying(k))] && Projects(s, at) && EventAt(s, at) == e
    ensures Enabled(route, s, ApplyEvent(me, outcome))
    ensures var stage := if outcome == Landed then Committing
                         else if k + 1 == MAX_ATTEMPTS then DeadLettering(true) else Applying(k + 1);
            Next(route, s, ApplyEvent(me, outcome)) ==
              (if outcome == RolledBack then s else AfterApply(s, at)).(hands := others[me := Hand(part, at, stage)])
  {
  }

  lemma ApplyAgain(s: Store, e: Event)
    ensures Apply(Apply(s, e), e) == Apply(s, e)
  {
  }

  /** One consumer, its reader, and what it shares with the others: log, offsets, gate, store and dead-letter topic. */
  class AnalyticsConsumer {
    const route: string -> nat
    const me: nat
    var log: seq<Message>
    var committed: map<nat, nat>
    var positions: map<(nat, nat), nat>
    var others: map<nat, Hand>
    var marked: set<string>
    var store: Store
    var dlq: seq<nat>
    ghost var applied: seq<nat>

    constructor (route: string -> nat, me: nat)
      ensures this.route == route && this.me == me && World() == Projector.Init
    {
      this.route, this.me := route, me;
      log, committed, positions, others, marked, store, dlq, applied := [], map[], map[], map[], {}, Empty, [], [];
    }

    /** The world while this consumer holds nothing. */
    ghost function World(): State
      reads this
    {
      State(log, committed, positions, others, marked, store, applied, dlq)
    }

    /** The world while it handles a message. */
    ghost function With(part: nat, at: nat, stage: Stage): State
      reads this
    {
      World().(hands := others[me := Hand(part, at, stage)])
    }

    /** The gate: insert if absent, true when this call recorded the id. */
    method MarkProcessed(id: string, reply: MarkReply) returns (isNew: Option<bool>)
      modifies `marked
      ensures marked == if reply == Failed then old(marked) else old(marked) + {id}
      ensures isNew == if reply == Recorded then Some(id !in old(marked)) else None
    {
      isNew := if reply == Recorded then Some(id !in marked) else None;
      if reply != Failed { marked := marked + {id}; }
    }

    /** One attempt to mark, as a step. */
    method TryMark(part: nat, at: nat, id: string, k: nat, reply: MarkReply, ghost s0: State, ghost before: seq<Step>)
      returns (isNew: Option<bool>, ghost steps: seq<Step>)
      requires k < MAX_ATTEMPTS && Legal(route, s0, before) && Run(route, s0, before) == With(part, at, Marking(k))
      requires at < |log| && Decode(log[at]).Projecting? && Decode(log[at]).event.id == id
      modifies `marked
      ensures marked == if reply == Failed then old(marked) else old(marked) + {id}
      ensures isNew == if reply == Recorded then Some(id !in old(marked)) else None
      ensures Legal(route, s0, steps)
      ensures Run(route, s0, steps) == With(part, at,
                if isNew.Some? then if isNew.value then Applying(0) else Committing
                else if k + 1 == MAX_ATTEMPTS then DeadLettering(false) else Marking(k + 1))
    {
      AfterMark(route, With(part, at, Marking(k)), others, me, part, at, k, id, reply);
      RunSnoc(route, s0, before, Mark(me, reply));
      steps := before + [Mark(me, reply)];
      isNew := MarkProcessed(id, reply);
    }

    /** Up to three attempts to mark; never again once there is an answer. */
    method MarkWithRetry(part: nat, at: nat, id: string, marks: seq<MarkReply>, ghost s0: State,
                         ghost before: seq<Step>)
      returns (isNew: Option<bool>, ghost steps: seq<Step>)
      requires Legal(route, s0, before) && Run(route, s0, before) == With(part, at, Marking(0))
      requires at < |log| && Decode(log[at]).Projecting? && Decode(log[at]).event.id == id
      modifies `marked
      ensures Legal(route, s0, steps)
      ensures Run(route, s0, steps) == With(part, at,
                if isNew == None then DeadLettering(false) else if isNew.value then Applying(0) else Committing)
      ensures isNew == MarkAnswer(id in old(marked), marks, 0)
      ensures marked == if MarkLeft(id in old(marked), marks, 0) then old(marked) + {id} else old(marked)
    {
      steps, isNew := before, None;
      var k := 0;
      while k < MAX_ATTEMPTS
        invariant k <= MAX_ATTEMPTS && isNew == None
        invariant marked == old(marked) || marked == old(marked) + {id}
        invariant MarkAnswer(id in old(marked), marks, 0) == MarkAnswer(id in marked, marks, k)
        invariant MarkLeft(id in old(marked), marks, 0) == MarkLeft(id in marked, marks, k)
        invariant Legal(route, s0, steps)
        invariant Run(route, s0, steps) ==
                    With(part, at, if k == MAX_ATTEMPTS then DeadLettering(false) else Marking(k))
      {
        isNew, steps := TryMark(part, at, id, k, ReplyAt(marks, k), s0, steps);
        if isNew.Some? { return; }
        k := k + 1;
      }
    }

    /** One call of the projection, as a step: an attempt that commits has the event's effect. */
    method ApplyOnce(part: nat, at: nat, e: Event, k: nat, outcome: Outcome, ghost s0: State, ghost before: seq<Step>)
      returns (ghost steps: seq<Step>)
      requires k < MAX_ATTEMPTS && Legal(route, s0, before) && Run(route, s0, before) == With(part, at, Applying(k))
      requires at < |log| && Decode(log[at]) == Projecting(e)
      modifies `store, `applied
      ensures store == if outcome == RolledBack then old(store) else Apply(old(store), e)
      ensures Legal(route, s0, steps)
      ensures Run(route, s0, steps) == With(part, at,
                if outcome == Landed then Committing
                else if k + 1 == MAX_ATTEMPTS then DeadLettering(true) else Applying(k + 1))
    {
      AfterTry(route, With(part, at, Applying(k)), others, me, part, at, k, e, outcome);
      RunSnoc(route, s0, before, ApplyEvent(me, outcome));
      steps := before + [ApplyEvent(me, outcome)];
      if outcome != RolledBack {
        applied := if e.id in store.seen then applied else applied + [at];
        store := Apply(store, e);
      }
    }

    /** Up to three attempts to apply, after a mark that was new. */
    method ApplyWithRetry(part: nat, at: nat, e: Event, applies: seq<Outcome>, ghost s0: State, ghost before: seq<Step>)
      returns (ok: bool, ghost steps: seq<Step>)
      requires Legal(route, s0, before) && Run(route, s0, before) == With(part, at, Applying(0))
      requires at < |log| && Decode(log[at]) == Projecting(e)
      modifies `store, `applied
      ensures Legal(route, s0, steps)
      ensures Run(route, s0, steps) == With(part, at, if ok then Committing else DeadLettering(true))
      ensures ok <==> Reported(applies, 0)
      ensures store == if TakesEffect(applies, 0) then Apply(old(store), e) else old(store)
    {
      steps, ok := before, false;
      ApplyAgain(store, e);
      var k := 0;
      ghost var took := false;
      while k < MAX_ATTEMPTS
        invariant k <= MAX_ATTEMPTS && !ok && (Reported(applies, 0) <==> Reported(applies, k))
        invariant (TakesEffect(applies, 0) <==> took || TakesEffect(applies, k))
        invariant store == if took then Apply(old(store), e) else old(store)
        invariant Legal(route, s0, steps)
        invariant Run(route, s0, steps) ==
                    With(part, at, if k == MAX_ATTEMPTS then DeadLettering(true) else Applying(k))
      {
        steps := ApplyOnce(part, at, e, k, OutcomeAt(applies, k), s0, steps);
        took := took || OutcomeAt(applies, k) != RolledBack;
        if OutcomeAt(applies, k) == Landed { return true, steps; }
        k := k + 1;
      }
    }

    /** A consumer that ends loses its places. */
    method Leave(ghost s0: State, ghost before: seq<Step>, ghost part: nat, ghost at: nat, ghost stage: Stage)
      returns (ghost steps: seq<Step>)
      requires me !in others && Legal(route, s0, before) && Run(route, s0, before) == With(part, at, stage)
      modifies `positions
      ensures Legal(route, s0, steps) && Run(route, s0, steps) == World()
    {
      RunSnoc(route, s0, before, Stop(me));
      steps := before + [Stop(me)];
      assert others[me := Hand(part, at, stage)] - {me} == others;
      positions := map k | k in positions && k.0 != me :: positions[k];
    }

    method LeaveIdle(ghost s0: State, ghost before: seq<Step>) returns (ghost steps: seq<Step>)
      requires me !in others && Legal(route, s0, before) && Run(route, s0, before) == World()
      modifies `positions
      ensures Legal(route, s0, steps) && Run(route, s0, steps) == World()
    {
      RunSnoc(route, s0, before, Stop(me));
      steps := before + [Stop(me)];
      assert others - {me} == others;
      positions := map k | k in positions && k.0 != me :: positions[k];
    }

    /** Commit the offset; a commit that reports a failure stops the consumer, whether or not the offset has moved. */
    method Commit(part: nat, at: nat, outcome: Outcome, ghost s0: State, ghost before: seq<Step>)
      returns (ok: bool, ghost steps: seq<Step>)
      requires me !in others && at < |log|
      requires Legal(route, s0, before) && Run(route, s0, before) == With(part, at, Committing)
      modifies `committed, `positions
      ensures ok <==> outcome == Landed
      ensures committed == if outcome != RolledBack then old(committed)[part := at + 1] else old(committed)
      ensures Legal(route, s0, steps) && Run(route, s0, steps) == World()
    {
      ok, steps := outcome == Landed, before;
      if outcome == RolledBack {
        steps := Leave(s0, before, part, at, Committing);
      } else {
        RunSnoc(route, s0, before, CommitOffset(me));
        steps := before + [CommitOffset(me)];
        assert others[me := Hand(part, at, Committing)] - {me} == others;
        committed := committed[part := at + 1];
        if !ok { steps := LeaveIdle(s0, steps); }
      }
    }

    /** Dead-letter, then commit; a dead-letter write that reports a failure stops the consumer. */
    method DeadLetterAndCommit(part: nat, at: nat, stage: Stage, w: Weather, ghost s0: State, ghost before: seq<Step>)
      returns (ok: bool, ghost steps: seq<Step>)
      requires me !in others && at < |log| && stage.DeadLettering?
      requires Legal(route, s0, before) && Run(route, s0, before) == With(part, at, stage)
      modifies `committed, `positions, `dlq
      ensures ok <==> w.deadLetter == Landed && w.commit == Landed
      ensures committed == if Moved(w, true) then old(committed)[part := at + 1] else old(committed)
      ensures dlq == if w.deadLetter != RolledBack then old(dlq) + [at] else old(dlq)
      ensures Legal(route, s0, steps) && Run(route, s0, steps) == World()
    {
      ok, steps := w.deadLetter == Landed, before;
      if w.deadLetter != RolledBack {
        RunSnoc(route, s0, before, DeadLetter(me));
        steps := before + [DeadLetter(me)];
        dlq := dlq + [at];
      }
      if ok {
        ok, steps := Commit(part, at, w.commit, s0, steps);
      } else {
        steps := Leave(s0, steps, part, at, if w.deadLetter == RolledBack then stage else Committing);
      }
    }

    /** Handle one fetched message.  The whole is a run of the step system that ends with nothing in hand.  Gate, store
        and dead letters end as `EndingOf` says from the replies; success is refused only by the commit or the
        dead-letter write, and the offset moves past the message exactly when the commit, if reached, took effect. */
    method HandleFetchedMessage(part: nat, at: nat, w: Weather) returns (ok: bool, ghost steps: seq<Step>)
      requires me !in others && at < |log|
      modifies this
      ensures Legal(route, old(With(part, at, Fetched)), steps)
      ensures Run(route, old(With(part, at, Fetched)), steps) == World()
      ensures log == old(log) && others == old(others)
      ensures EndsAs(log[at], at, w, ok, old(marked), old(store), old(dlq), marked, store, dlq)
      ensures committed == if OffsetMoves(log[at], old(marked), old(store), w) then old(committed)[part := at + 1]
                           else old(committed)
    {
      ghost var s0 := With(part, at, Fetched);
      RunSnoc(route, s0, [], Inspect(me));
      steps := [] + [Inspect(me)];
      match Decode(log[at]) {
        case Poison =>
          ok, steps := DeadLetterAndCommit(part, at, DeadLettering(false), w, s0, steps);
        case Ignored =>
          ok, steps := Commit(part, at, w.commit, s0, steps);
        case Projecting(e) =>
          ok, steps := Project(part, at, e, w, s0, steps);
      }
    }

    /** The end of a handling: to the dead letters first, if it failed, then the commit. */
    method Conclude(part: nat, at: nat, dead: bool, stage: Stage, w: Weather, ghost s0: State, ghost before: seq<Step>)
      returns (ok: bool, ghost steps: seq<Step>)
      requires me !in others && at < |log| && if dead then stage.DeadLettering? else stage == Committing
      requires Legal(route, s0, before) && Run(route, s0, before) == With(part, at, stage)
      modifies `committed, `positions, `dlq
      ensures ok <==> w.commit == Landed && (dead ==> w.deadLetter == Landed)
      ensures committed == if Moved(w, dead) then old(committed)[part := at + 1] else old(committed)
      ensures dlq == if dead && w.deadLetter != RolledBack then old(dlq) + [at] else old(dlq)
      ensures Legal(route, s0, steps) && Run(route, s0, steps) == World()
    {
      if dead {
        ok, steps := DeadLetterAndCommit(part, at, stage, w, s0, before);
      } else {
        ok, steps := Commit(part, at, w.commit, s0, before);
      }
    }

    /** The mark, and the apply if the mark was new: how far it got, and whether that is a failure. */
    method MarkAndApply(part: nat, at: nat, e: Event, w: Weather, ghost s0: State, ghost before: seq<Step>)
      returns (isNew: Option<bool>, dead: bool, stage: Stage, ghost steps: seq<Step>)
      requires at < |log| && Decode(log[at]) == Projecting(e)
      requires Legal(route, s0, before) && Run(route, s0, before) == With(part, at, Marking(0))
      modifies `marked, `store, `applied
      ensures Legal(route, s0, steps) && Run(route, s0, steps) == With(part, at, stage)
      ensures if dead then stage.DeadLettering? else stage == Committing
      ensures isNew == MarkAnswer(e.id in old(marked), w.marks, 0)
      ensures marked == if MarkLeft(e.id in old(marked), w.marks, 0) then old(marked) + {e.id} else old(marked)
      ensures store == if isNew == Some(true) && TakesEffect(w.applies, 0) then Apply(old(store), e) else old(store)
      ensures dead <==> isNew == None || (isNew.value && !Reported(w.applies, 0))
    {
      isNew, steps := MarkWithRetry(part, at, e.id, w.marks, s0, before);
      dead, stage := isNew == None, if isNew == None then DeadLettering(false) else Committing;
      if isNew == Some(true) {
        var done;
        done, steps := ApplyWithRetry(part, at, e, w.applies, s0, steps);
        dead, stage := !done, if done then Committing else DeadLettering(true);
      }
    }

    method Project(part: nat, at: nat, e: Event, w: Weather, ghost s0: State, ghost before: seq<Step>)
      returns (ok: bool, ghost steps: seq<Step>)
      requires me !in others && at < |log| && Decode(log[at]) == Projecting(e)
      requires Legal(route, s0, before) && Run(route, s0, before) == With(part, at, Marking(0))
      modifies this
      ensures Legal(route, s0, steps) && Run(route, s0, steps) == World()
      ensures log == old(log) && others == old(others)
      ensures EndsAs(log[at], at, w, ok, old(marked), old(store), old(dlq), marked, store, dlq)
      ensures committed == if OffsetMoves(log[at], old(marked), old(store), w) then old(committed)[part := at + 1]
                           else old(committed)
    {
      var isNew, dead, stage;
      isNew, dead, stage, steps := MarkAndApply(part, at, e, w, s0, before);
      ok, steps := Conclude(part, at, dead, stage, w, s0, steps);
      ProjectingEnds(log[at], e, at, w, ok, old(marked), old(store), old(dlq), marked, store, dlq, isNew, dead);
    }
  }
}
