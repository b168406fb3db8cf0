/** The order of what is applied, past losses: after any stops and dead letters, the events of a partition that were
    applied were applied in log order, exactly as long as consumers fetch as said here. */
module ApplyOrder {
  import opened Base
  import opened Messages
  import opened Encoders
  import opened Projection
  import opened ReadModels
  import opened Projector

  predicate InPart(route: string -> nat, s: State, g: nat, part: nat) { g < |s.log| && Routed(route, s.log[g], part) }

  /** Applied events of one partition were applied in log order. */
  ghost predicate InLogOrder(route: string -> nat, s: State) {
    forall i, j, part ::
      (0 <= i < j < |s.applied| && InPart(route, s, s.applied[i], part) && InPart(route, s, s.applied[j], part)) ==>
        s.applied[i] < s.applied[j]
  }

  /** Consumer `c` handles an event that may still take effect. */
  predicate Live(s: State, c: nat) {
    HoldsEvent(s, c) && var h := s.hands[c]; var id := EventAt(s, h.at).id;
    id !in s.store.seen && (h.stage.Applying? || ((h.stage == Fetched || h.stage.Marking?) && id !in s.marked))
  }

  function Held(s: State, c: nat): string
    requires HoldsEvent(s, c)
  {
    EventAt(s, s.hands[c].at).id
  }

  ghost predicate AppliedBelow(route: string -> nat, s: State, part: nat, at: nat) {
    forall g :: g in s.applied && InPart(route, s, g, part) ==> g < at
  }

  ghost predicate OrderInv(route: string -> nat, s: State) {
    && Inv(route, s) && InLogOrder(route, s)
    && (forall c :: Live(s, c) ==> AppliedBelow(route, s, s.hands[c].part, s.hands[c].at))
    && (forall c, d :: Live(s, c) && Live(s, d) && s.hands[c].part == s.hands[d].part ==> Held(s, c) == Held(s, d))
  }

  /** The message will be skipped; or nothing at or after it in the partition has been applied, and whatever may still
      be applied there carries its id. */
  ghost predicate SafeFetch(route: string -> nat, s: State, part: nat, at: nat) {
    Projects(s, at) && EventAt(s, at).id !in s.marked ==>
      && AppliedBelow(route, s, part, at)
      && forall d :: Live(s, d) && s.hands[d].part == part ==> Held(s, d) == EventAt(s, at).id
  }

  ghost predicate Safe(route: string -> nat, s: State, a: Step) { a.Fetch? ==> SafeFetch(route, s, a.part, a.at) }

  ghost predicate SafeRun(route: string -> nat, s: State, steps: seq<Step>)
    requires Legal(route, s, steps)
    decreases |steps|
  {
    steps == [] || (Safe(route, s, steps[0]) && SafeRun(route, Next(route, s, steps[0]), steps[1..]))
  }

  // ---- Safe fetches keep the order ----

  /** Only a fetch brings an event to life. */
  lemma LiveShrinks(route: string -> nat, s: State, a: Step, c: nat)
    requires HandsInv(route, s) && Enabled(route, s, a) && Live(Next(route, s, a), c) && !(a.Fetch? && a.c == c)
    ensures Live(s, c) && s.hands[c].part == Next(route, s, a).hands[c].part
    ensures s.hands[c].at == Next(route, s, a).hands[c].at && Held(s, c) == Held(Next(route, s, a), c)
  {
    StepGrows(route, s, a);
    if By(a, c) {
      HandKeepsMessage(route, s, a);
      assert HandInv(route, s, s.hands[c]);
    } else {
      OthersHold(route, s, a, c);
      assert HandInv(route, s, s.hands[c]);
    }
  }

  /** The partition in which a step applies an event. */
  predicate AppliesIn(s: State, a: Step, part: nat) {
    a.ApplyEvent? && a.outcome != RolledBack && Live(s, a.c) && s.hands[a.c].part == part
  }

  lemma AppliedAfter(route: string -> nat, s: State, a: Step)
    requires HandsInv(route, s) && Enabled(route, s, a)
    ensures var t := Next(route, s, a);
            t.applied == if a.ApplyEvent? && a.outcome != RolledBack && Live(s, a.c) then s.applied + [s.hands[a.c].at]
                         else s.applied
  {
    StoreAfter(route, s, a);
  }

  lemma AppliedInLog(s: State, g: nat)
    requires AtMostOnce(s) && g in s.applied
    ensures g < |s.log|
  {
    assert Projects(s, g);
  }

  lemma InLogOrderStays(route: string -> nat, s: State, a: Step)
    requires OrderInv(route, s) && Enabled(route, s, a)
    ensures InLogOrder(route, Next(route, s, a))
  {
    var t, n := Next(route, s, a), |s.applied|;
    AppliedAfter(route, s, a);
    StepGrows(route, s, a);
    forall i, j, part | && 0 <= i < j < |t.applied| && InPart(route, t, t.applied[i], part)
                        && InPart(route, t, t.applied[j], part)
      ensures t.applied[i] < t.applied[j]
    {
      assert t.applied[i] == s.applied[i] && s.applied[i] in s.applied;
      AppliedInLog(s, s.applied[i]);
      assert InPart(route, s, s.applied[i], part);
      if j < n {
        assert s.applied[j] in s.applied;
        AppliedInLog(s, s.applied[j]);
        assert InPart(route, s, s.applied[j], part);
      } else {
        assert HandInv(route, s, s.hands[a.c]) && Live(s, a.c);
      }
    }
  }

  lemma BelowStays(route: string -> nat, s: State, a: Step, part: nat, at: nat)
    requires OrderInv(route, s) && Enabled(route, s, a) && AppliedBelow(route, s, part, at)
    requires !AppliesIn(s, a, part)
    ensures AppliedBelow(route, Next(route, s, a), part, at)
  {
    var t := Next(route, s, a);
    AppliedAfter(route, s, a);
    StepGrows(route, s, a);
    if a.ApplyEvent? { assert HandInv(route, s, s.hands[a.c]); }
    forall g | g in t.applied && InPart(route, t, g, part) ensures g < at {
      if g in s.applied {
        AppliedInLog(s, g);
        assert InPart(route, s, g, part);
      }
    }
  }

  /** After an event took effect, nothing is live in its partition. */
  lemma NothingLive(route: string -> nat, s: State, a: Step, c: nat)
    requires OrderInv(route, s) && Enabled(route, s, a) && Live(Next(route, s, a), c)
    ensures !AppliesIn(s, a, Next(route, s, a).hands[c].part)
  {
    if a.ApplyEvent? {
      LiveShrinks(route, s, a, c);
      StoreAfter(route, s, a);
    }
  }

  lemma LiveStaysBelow(route: string -> nat, s: State, a: Step, c: nat)
    requires OrderInv(route, s) && Enabled(route, s, a) && Safe(route, s, a) && Live(Next(route, s, a), c)
    ensures var t := Next(route, s, a); AppliedBelow(route, t, t.hands[c].part, t.hands[c].at)
  {
    NothingLive(route, s, a, c);
    if a.Fetch? && a.c == c {
      BelowStays(route, s, a, a.part, a.at);
    } else {
      LiveShrinks(route, s, a, c);
      BelowStays(route, s, a, s.hands[c].part, s.hands[c].at);
    }
  }

  lemma FetchedAlike(route: string -> nat, s: State, a: Step, d: nat)
    requires OrderInv(route, s) && Enabled(route, s, a) && Safe(route, s, a) && a.Fetch?
    requires var t := Next(route, s, a); Live(t, a.c) && Live(t, d) && t.hands[d].part == a.part
    ensures Held(Next(route, s, a), a.c) == Held(Next(route, s, a), d)
  {
    if d != a.c { LiveShrinks(route, s, a, d); }
  }

  lemma StepKeepsOrder(route: string -> nat, s: State, a: Step)
    requires OrderInv(route, s) && Enabled(route, s, a) && Safe(route, s, a)
    ensures OrderInv(route, Next(route, s, a))
  {
    var t := Next(route, s, a);
    StepKeepsInv(route, s, a);
    InLogOrderStays(route, s, a);
    forall c | Live(t, c) ensures AppliedBelow(route, t, t.hands[c].part, t.hands[c].at) {
      LiveStaysBelow(route, s, a, c);
    }
    forall c, d | Live(t, c) && Live(t, d) && t.hands[c].part == t.hands[d].part ensures Held(t, c) == Held(t, d) {
      if a.Fetch? && a.c == c {
        FetchedAlike(route, s, a, d);
      } else if a.Fetch? && a.c == d {
        FetchedAlike(route, s, a, c);
      } else {
        LiveShrinks(route, s, a, c);
        LiveShrinks(route, s, a, d);
      }
    }
  }

  /** In every run of any number of consumers with any stops, failures and dead letters whose fetches are safe, the
      events of a partition that were applied were applied in log order. */
  lemma {:induction false} RunKeepsOrder(route: string -> nat, s: State, steps: seq<Step>)
    requires OrderInv(route, s) && Legal(route, s, steps) && SafeRun(route, s, steps)
    ensures OrderInv(route, Run(route, s, steps))
    decreases |steps|
  {
    if steps != [] {
      StepKeepsOrder(route, s, steps[0]);
      RunKeepsOrder(route, Next(route, s, steps[0]), steps[1..]);
    }
  }

  // ---- Which fetches are safe ----

  ghost predicate StaysInOrder(route: string -> nat, t: State) {
    forall steps :: Legal(route, t, steps) && SafeRun(route, t, steps) ==> InLogOrder(route, Run(route, t, steps))
  }

  lemma OrderStays(route: string -> nat, t: State)
    requires OrderInv(route, t)
    ensures StaysInOrder(route, t)
  {
    forall steps | Legal(route, t, steps) && SafeRun(route, t, steps) ensures InLogOrder(route, Run(route, t, steps)) {
      RunKeepsOrder(route, t, steps);
    }
  }

  /** A state that some safe run leads to stays in order if the start does. */
  lemma StaysAfter(route: string -> nat, s: State, a: Step)
    requires StaysInOrder(route, s) && Enabled(route, s, a) && !a.Fetch?
    ensures StaysInOrder(route, Next(route, s, a))
  {
    forall steps | Legal(route, Next(route, s, a), steps) && SafeRun(route, Next(route, s, a), steps)
      ensures InLogOrder(route, Run(route, Next(route, s, a), steps))
    {
      RunCons(route, s, a, steps);
      assert ([a] + steps)[1..] == steps && SafeRun(route, s, [a] + steps);
    }
  }

  lemma StaysNow(route: string -> nat, s: State)
    requires StaysInOrder(route, s)
    ensures InLogOrder(route, s)
  {
    assert Legal(route, s, []) && SafeRun(route, s, []) && Run(route, s, []) == s;
  }

  /** The state after consumer `c` has applied its event, which it may from a live stage. */
  ghost predicate Applied(s: State, t: State, c: nat)
    requires HoldsEvent(s, c)
  {
    && t.log == s.log && t.applied == s.applied + [s.hands[c].at]
    && t.store.seen == s.store.seen + {Held(s, c)} && t.marked <= s.marked + {Held(s, c)}
    && forall d :: d != c ==> (d in t.hands <==> d in s.hands) && (d in s.hands ==> t.hands[d] == s.hands[d])
  }

  lemma AppliesLast(route: string -> nat, s: State, c: nat) returns (t: State)
    requires StaysInOrder(route, s) && Live(s, c) && s.hands[c].stage.Applying?
    ensures StaysInOrder(route, t) && Applied(s, t, c)
  {
    StaysAfter(route, s, ApplyEvent(c, Landed));
    t := Next(route, s, ApplyEvent(c, Landed));
  }

  lemma ApplyLive(route: string -> nat, s: State, c: nat) returns (t: State)
    requires StaysInOrder(route, s) && Live(s, c)
    ensures StaysInOrder(route, t) && Applied(s, t, c)
  {
    var u := s;
    if u.hands[c].stage == Fetched {
      StaysAfter(route, u, Inspect(c));
      u := Next(route, u, Inspect(c));
    }
    if u.hands[c].stage.Marking? {
      StaysAfter(route, u, Mark(c, Recorded));
      u := Next(route, u, Mark(c, Recorded));
    }
    t := AppliesLast(route, u, c);
  }

  /** The later of two live messages with different ids can be applied first. */
  lemma LiveSwap(route: string -> nat, s: State, c: nat, d: nat, part: nat)
    requires StaysInOrder(route, s) && Live(s, c) && Live(s, d) && Held(s, c) != Held(s, d)
    requires s.hands[d].at < s.hands[c].at
    ensures !(InPart(route, s, s.hands[c].at, part) && InPart(route, s, s.hands[d].at, part))
  {
    var t := ApplyLive(route, s, c);
    var u := ApplyLive(route, t, d);
    StaysNow(route, u);
    var n, x, y := |s.applied|, s.hands[c].at, s.hands[d].at;
    assert u.applied[n] == x && u.applied[n + 1] == y;
    assert InPart(route, u, x, part) <==> InPart(route, s, x, part);
    assert InPart(route, u, y, part) <==> InPart(route, s, y, part);
  }

  lemma UnsafeFetch(route: string -> nat, s: State, c: nat, part: nat, at: nat)
    requires OrderInv(route, s) && Enabled(route, s, Fetch(c, part, at))
    requires StaysInOrder(route, Next(route, s, Fetch(c, part, at)))
    ensures SafeFetch(route, s, part, at)
  {
    var t := Next(route, s, Fetch(c, part, at));
    if Projects(s, at) && EventAt(s, at).id !in s.marked {
      assert Live(t, c);
      forall g | g in s.applied && InPart(route, s, g, part) ensures g < at {
        var u := ApplyLive(route, t, c);
        StaysNow(route, u);
        var i :| 0 <= i < |s.applied| && s.applied[i] == g;
        assert u.applied[i] == g && u.applied[|s.applied|] == at && InPart(route, u, g, part);
        assert InPart(route, u, at, part);
      }
      forall d | Live(s, d) && s.hands[d].part == part ensures Held(s, d) == EventAt(s, at).id {
        assert HandInv(route, s, s.hands[d]) && Live(t, d) && Held(t, d) == Held(s, d);
        if Held(s, d) != EventAt(s, at).id {
          assert t.hands[d].at != at;
          if s.hands[d].at < at { LiveSwap(route, t, c, d, part); } else { LiveSwap(route, t, d, c, part); }
        }
      }
    }
  }

  /** A fetch keeps every continuation in log order if and only if it is safe, whatever was lost before.  The condition
      can be read off the state before the fetch. */
  lemma FetchKeepsOrderExactly(route: string -> nat, s: State, c: nat, part: nat, at: nat)
    requires OrderInv(route, s) && Enabled(route, s, Fetch(c, part, at))
    ensures SafeFetch(route, s, part, at) <==> StaysInOrder(route, Next(route, s, Fetch(c, part, at)))
  {
    if SafeFetch(route, s, part, at) {
      StepKeepsOrder(route, s, Fetch(c, part, at));
      OrderStays(route, Next(route, s, Fetch(c, part, at)));
    } else if StaysInOrder(route, Next(route, s, Fetch(c, part, at))) {
      UnsafeFetch(route, s, c, part, at);
    }
  }

  lemma InitOrder(route: string -> nat)
    ensures OrderInv(route, Init)
  {
    InitInv(route);
  }
}
