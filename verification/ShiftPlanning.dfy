/** Committing a shift plan: each capability asked once, every line checked against one set of answers. */
module ShiftPlanning {
  import opened Base
  import opened Messages
  import opened PathCatalog
  import Encoders

  datatype Rule = NoPathPlans | MissingStations | ExceedsStations | ExceedsCapacity | ExceedsHours

  datatype Error = Broken(rule: Rule) | UnknownPath | CapacityUnavailable | DuplicateLine | StoreFailure

  /** Why a line is refused, the first rule that fails. */
  function LineError(line: PathPlan, stations: map<string, int>, capacity: map<string, int>, max: real): Option<Rule> {
    if line.path !in stations then Some(MissingStations)
    else if line.heads > stations[line.path] then Some(ExceedsStations)
    else if line.heads > (if line.path in capacity then capacity[line.path] else 0) then Some(ExceedsCapacity)
    else if line.hours > line.heads as real * max then Some(ExceedsHours)
    else None
  }

  predicate Passes(lines: seq<PathPlan>, stations: map<string, int>, capacity: map<string, int>, max: real) {
    forall l :: l in lines ==> LineError(l, stations, capacity, max) == None
  }

  /** Which rule a line breaks: the first of stations missing, stations exceeded, capacity exceeded, hours exceeded; a
      path without a ceiling has capacity 0. */
  lemma LineRules(line: PathPlan, stations: map<string, int>, capacity: map<string, int>, max: real)
    ensures var e := LineError(line, stations, capacity, max);
            var room := line.path in stations && line.heads <= stations[line.path];
            var held := if line.path in capacity then line.heads <= capacity[line.path] else line.heads <= 0;
            && (e == Some(MissingStations) <==> line.path !in stations)
            && (e == Some(ExceedsStations) <==> line.path in stations && line.heads > stations[line.path])
            && (e == Some(ExceedsCapacity) <==> room && !held)
            && (e == Some(ExceedsHours) <==> room && held && line.hours > line.heads as real * max)
            && (e == None <==> room && held && line.hours <= line.heads as real * max)
  {
  }

  /** The first refused line decides. */
  method CommitPlan(lines: seq<PathPlan>, stations: map<string, int>, capacity: map<string, int>, max: real)
    returns (err: Option<Rule>)
    ensures lines == [] <==> err == Some(NoPathPlans)
    ensures lines != [] && err == None ==> Passes(lines, stations, capacity, max)
    ensures lines != [] && err.Some? ==>
              exists n :: 0 <= n < |lines| && LineError(lines[n], stations, capacity, max) == err
                          && Passes(lines[..n], stations, capacity, max)
  {
    if lines == [] { return Some(NoPathPlans); }
    for n := 0 to |lines|
      invariant Passes(lines[..n], stations, capacity, max)
    {
      var line := lines[n];
      if line.path !in stations { return Some(MissingStations); }
      if line.heads > stations[line.path] { return Some(ExceedsStations); }
      if line.heads > (if line.path in capacity then capacity[line.path] else 0) { return Some(ExceedsCapacity); }
      if line.hours > line.heads as real * max { return Some(ExceedsHours); }
      assert lines[..n + 1] == lines[..n] + [line];
    }
    assert lines[..|lines|] == lines;
    return None;
  }

  method PlannedHeadsFor(lines: seq<PathPlan>, path: string) returns (heads: int)
    ensures (forall l :: l in lines ==> l.path != path) ==> heads == 0
    ensures forall n ::
              0 <= n < |lines| && lines[n].path == path && (forall m :: 0 <= m < n ==> lines[m].path != path) ==>
              heads == lines[n].heads
  {
    for n := 0 to |lines|
      invariant forall m :: 0 <= m < n ==> lines[m].path != path
    {
      if lines[n].path == path { return lines[n].heads; }
    }
    return 0;
  }

  /** A source outside this service whose answers may change from one question to the next. */
  class Oracle<T(==)> {
    const answer: (nat, string) -> Option<T>
    var asked: seq<string>

    constructor (answer: (nat, string) -> Option<T>)
      ensures this.answer == answer && asked == []
    {
      this.answer, asked := answer, [];
    }

    method Ask(what: string) returns (r: Option<T>)
      modifies this
      ensures asked == old(asked) + [what] && r == answer(|old(asked)|, what)
    {
      r := answer(|asked|, what);
      asked := asked + [what];
    }

    /** `found` holds exactly what was asked from question `start` on, each thing once, with the answer it got. */
    ghost predicate Remembers(start: nat, found: map<string, T>)
      reads this
    {
      && start <= |asked| && Distinct(asked[start..])
      && (forall what :: what in found <==> what in asked[start..])
      && forall k :: start <= k < |asked| && asked[k] in found ==> answer(k, asked[k]) == Some(found[asked[k]])
    }

    /** Nothing was asked twice, even when the last question failed. */
    ghost predicate Frugal(start: nat)
      reads this
    {
      start <= |asked| && Distinct(asked[start..])
    }

    /** The last question got no answer. */
    ghost predicate LastFailed()
      reads this
    {
      asked != [] && answer(|asked| - 1, asked[|asked| - 1]) == None
    }

    /** Asks for something not yet known and notes the answer. */
    method Learn(what: string, found: map<string, T>, ghost start: nat) returns (r: Option<T>)
      requires Remembers(start, found) && what !in found
      modifies this
      ensures r.Some? ==> Remembers(start, found[what := r.value])
      ensures Frugal(start) && (r == None ==> LastFailed())
    {
      ghost var before := asked;
      r := Ask(what);
      assert asked[start..] == before[start..] + [what];
    }
  }

  // ---- What a plan must meet ----

  predicate Counted(caps: seq<string>, counts: map<string, int>) { forall c :: c in caps ==> c in counts }

  /** The memo only gains entries. */
  predicate Extends(memo: map<string, int>, counts: map<string, int>) {
    forall c :: c in memo ==> c in counts && counts[c] == memo[c]
  }

  /** The least of the counts, or 0 for a path that requires no capability. */
  function Ceiling(caps: seq<string>, counts: map<string, int>): int
    requires Counted(caps, counts)
  {
    if caps == [] then 0
    else if |caps| == 1 then counts[caps[0]]
    else
      var rest, last := Ceiling(caps[..|caps| - 1], counts), counts[caps[|caps| - 1]];
      if last < rest then last else rest
  }

  lemma {:induction false} CeilingIsTheMinimum(caps: seq<string>, counts: map<string, int>)
    requires Counted(caps, counts)
    ensures forall c :: c in caps ==> Ceiling(caps, counts) <= counts[c]
    ensures caps != [] ==> exists c :: c in caps && Ceiling(caps, counts) == counts[c]
    ensures caps == [] ==> Ceiling(caps, counts) == 0
  {
    if |caps| == 1 {
      assert caps[0] in caps;
    } else if |caps| > 1 {
      var front, last := caps[..|caps| - 1], caps[|caps| - 1];
      assert caps == front + [last];
      CeilingIsTheMinimum(front, counts);
      var c :| c in front && Ceiling(front, counts) == counts[c];
      assert c in caps && last in caps;
    }
  }

  /** Every line's path was resolved and its capabilities counted. */
  ghost predicate Covered(lines: seq<PathPlan>, defs: map<string, PathDefinition>, counts: map<string, int>) {
    forall l :: l in lines ==> l.path in defs && Counted(defs[l.path].capabilities, counts)
  }

  /** The plan is within one set of counts, the caller's stations and the hours its heads can work. */
  ghost predicate Justified(lines: seq<PathPlan>, stations: map<string, int>, defs: map<string, PathDefinition>,
                            counts: map<string, int>, max: real)
    requires Covered(lines, defs, counts)
  {
    && lines != []
    && forall l :: l in lines ==>
         && l.path in stations && l.heads <= stations[l.path]
         && l.heads <= Ceiling(defs[l.path].capabilities, counts)
         && l.hours <= l.heads as real * max
  }

  /** Checking line by line against the ceilings is checking the whole plan against the counts. */
  lemma PassesMeansJustified(lines: seq<PathPlan>, stations: map<string, int>, capacity: map<string, int>,
                             defs: map<string, PathDefinition>, counts: map<string, int>, max: real)
    requires Covered(lines, defs, counts) && lines != []
    requires forall l :: l in lines ==>
               l.path in capacity && capacity[l.path] == Ceiling(defs[l.path].capabilities, counts)
    ensures Passes(lines, stations, capacity, max) <==> Justified(lines, stations, defs, counts, max)
  {
    if Passes(lines, stations, capacity, max) {
      forall l | l in lines
        ensures l.path in stations && l.heads <= stations[l.path] && l.heads <= capacity[l.path]
                && l.hours <= l.heads as real * max
      {
        assert LineError(l, stations, capacity, max) == None;
      }
    }
  }

  predicate DistinctPaths(lines: seq<PathPlan>) {
    forall i, j :: 0 <= i < j < |lines| ==> lines[i].path != lines[j].path
  }

  class CommitShiftPlan {
    const catalogue: Oracle<PathDefinition>
    const registry: Oracle<int>
    const max: real
    var plans: Encoders.Plans
    var published: seq<DomainEvent>

    constructor (catalogue: Oracle<PathDefinition>, registry: Oracle<int>, max: real)
      ensures this.catalogue == catalogue && this.registry == registry && this.max == max
      ensures plans == map[] && published == []
    {
      this.catalogue, this.registry, this.max, plans, published := catalogue, registry, max, map[], [];
    }

    /** The count of one capability, from the memo or from the registry. */
    method CountOf(cap: string, memo: map<string, int>, ghost start: nat)
      returns (r: Option<int>, counts: map<string, int>)
      requires registry.Remembers(start, memo)
      modifies registry
      ensures registry.Frugal(start) && (r == None ==> registry.LastFailed())
      ensures r.Some? ==> registry.Remembers(start, counts) && Extends(memo, counts)
      ensures r.Some? ==> cap in counts && r.value == counts[cap]
    {
      if cap in memo { return Some(memo[cap]), memo; }
      r := registry.Learn(cap, memo, start);
      counts := if r.Some? then memo[cap := r.value] else memo;
    }

    /** The ceiling of one path, asking the registry only for what the memo does not hold. */
    method CapacityFor(def: PathDefinition, memo: map<string, int>, ghost start: nat)
      returns (r: Option<int>, counts: map<string, int>)
      requires registry.Remembers(start, memo)
      modifies registry
      ensures registry.Frugal(start) && (r == None ==> registry.LastFailed())
      ensures r.Some? ==> registry.Remembers(start, counts) && Extends(memo, counts)
      ensures r.Some? ==> Counted(def.capabilities, counts) && r.value == Ceiling(def.capabilities, counts)
    {
      var ceiling, caps := 0, def.capabilities;
      counts := memo;
      for i := 0 to |caps|
        invariant registry.Remembers(start, counts) && Extends(memo, counts) && Counted(caps[..i], counts)
        invariant ceiling == Ceiling(caps[..i], counts)
      {
        var count, more := CountOf(caps[i], counts, start);
        if count == None { return None, counts; }
        CeilingNext(caps, i, counts, more);
        counts := more;
        if i == 0 || count.value < ceiling { ceiling := count.value; }
      }
      assert caps[..|caps|] == caps;
      return Some(ceiling), counts;
    }

    /** One path: its definition, and its ceiling under the counts known so far or asked for now. */
    method ResolveOne(path: string, defs: map<string, PathDefinition>, counts: map<string, int>,
                      ghost c0: nat, ghost r0: nat)
      returns (err: Option<Error>, def: Option<PathDefinition>, ceiling: int, more: map<string, int>)
      modifies catalogue, registry
      requires catalogue as object != registry && path !in defs
      requires catalogue.Remembers(c0, defs) && registry.Remembers(r0, counts)
      ensures catalogue.Frugal(c0) && registry.Frugal(r0)
      ensures err == None || (err == Some(UnknownPath) && catalogue.LastFailed())
              || (err == Some(CapacityUnavailable) && registry.LastFailed())
      ensures err == None ==> def.Some? && catalogue.Remembers(c0, defs[path := def.value])
      ensures err == None ==> registry.Remembers(r0, more) && Extends(counts, more)
      ensures err == None ==> Counted(def.value.capabilities, more) && ceiling == Ceiling(def.value.capabilities, more)
    {
      def := catalogue.Learn(path, defs, c0);
      if def == None { return Some(UnknownPath), def, 0, counts; }
      var c: Option<int>;
      c, more := CapacityFor(def.value, counts, r0);
      if c == None { return Some(CapacityUnavailable), def, 0, counts; }
      return None, def, c.value, more;
    }

    /** Every path of the plan once: its definition, its capabilities' counts, its ceiling. */
    method Resolve(lines: seq<PathPlan>)
      returns (err: Option<Error>, capacity: map<string, int>,
               defs: map<string, PathDefinition>, counts: map<string, int>)
      modifies catalogue, registry
      requires catalogue as object != registry
      ensures catalogue.Frugal(old(|catalogue.asked|)) && registry.Frugal(old(|registry.asked|))
      ensures err == None || (err == Some(UnknownPath) && catalogue.LastFailed())
              || (err == Some(CapacityUnavailable) && registry.LastFailed())
      ensures err == None ==> catalogue.Remembers(old(|catalogue.asked|), defs)
      ensures err == None ==> registry.Remembers(old(|registry.asked|), counts)
      ensures err == None ==> Covered(lines, defs, counts)
      ensures err == None ==> forall l :: l in lines ==>
                l.path in capacity && capacity[l.path] == Ceiling(defs[l.path].capabilities, counts)
    {
      capacity, defs, counts := map[], map[], map[];
      ghost var c0, r0 := |catalogue.asked|, |registry.asked|;
      for n := 0 to |lines|
        invariant catalogue.Remembers(c0, defs) && registry.Remembers(r0, counts)
        invariant capacity.Keys == defs.Keys && forall l :: l in lines[..n] ==> l.path in defs
        invariant WithinCounts(capacity, defs, counts)
      {
        var path := lines[n].path;
        if path !in capacity {
          var failed, def, ceiling, more := ResolveOne(path, defs, counts, c0, r0);
          if failed.Some? { return failed, capacity, defs, counts; }
          CountsGrow(capacity, defs, counts, more);
          capacity, defs, counts := capacity[path := ceiling], defs[path := def.value], more;
        }
      }
      return None, capacity, defs, counts;
    }

    /** The lines are inserted one by one; a second line for a path violates the primary key. */
    method InsertLines(lines: seq<PathPlan>) returns (ok: bool)
      ensures ok <==> DistinctPaths(lines)
    {
      var stored: set<string> := {};
      for n := 0 to |lines|
        invariant DistinctPaths(lines[..n]) && forall p :: p in stored <==> exists m :: 0 <= m < n && lines[m].path == p
      {
        if lines[n].path in stored { return false; }
        stored := stored + {lines[n].path};
      }
      return true;
    }

    /** A plan is stored and published together, justified by the answers this commit got, or nothing changes. */
    method Execute(building: string, shift: string, lines: seq<PathPlan>, stations: map<string, int>, now: Time,
                   broken: bool)
      returns (err: Option<Error>, defs: map<string, PathDefinition>, counts: map<string, int>)
      requires catalogue as object != registry
      modifies this, catalogue, registry
      ensures catalogue.Frugal(old(|catalogue.asked|)) && registry.Frugal(old(|registry.asked|))
      ensures err.Some? ==> plans == old(plans) && published == old(published)
      ensures err == None ==> plans == old(plans)[(building, shift) := lines]
                              && published == old(published) + [ShiftPlanCommitted(now, building, shift)]
      ensures err != Some(UnknownPath) && err != Some(CapacityUnavailable) ==>
                && catalogue.Remembers(old(|catalogue.asked|), defs)
                && registry.Remembers(old(|registry.asked|), counts)
                && Covered(lines, defs, counts)
                && (err.Some? && err.value.Broken? <==> !Justified(lines, stations, defs, counts, max))
      ensures err.Some? && err.value.Broken? ==>
                if lines == [] then err.value.rule == NoPathPlans
                else exists n, capacity ::
                  && 0 <= n < |lines| && LineError(lines[n], stations, capacity, max) == Some(err.value.rule)
                  && Passes(lines[..n], stations, capacity, max)
                  && forall l :: l in lines ==>
                       l.path in capacity && capacity[l.path] == Ceiling(defs[l.path].capabilities, counts)
      ensures err == Some(UnknownPath) ==> catalogue.LastFailed()
      ensures err == Some(CapacityUnavailable) ==> registry.LastFailed()
      ensures err == Some(DuplicateLine) ==> !DistinctPaths(lines)
      ensures err == Some(StoreFailure) ==> broken
      ensures err == None ==> DistinctPaths(lines) && !broken
      ensures err == None ==> Encoders.PlansKnown(plans, [ShiftPlanCommitted(now, building, shift)])
    {
      var capacity: map<string, int>;
      err, capacity, defs, counts := Resolve(lines);
      if err.Some? { return; }
      var refused := CommitPlan(lines, stations, capacity, max);
      if lines != [] { PassesMeansJustified(lines, stations, capacity, defs, counts, max); }
      if refused.Some? { return Some(Broken(refused.value)), defs, counts; }
      var ok := InsertLines(lines);
      if !ok { return Some(DuplicateLine), defs, counts; }
      if broken { return Some(StoreFailure), defs, counts; }
      plans := plans[(building, shift) := lines];
      published := published + [ShiftPlanCommitted(now, building, shift)];
    }
  }

  ghost predicate WithinCounts(capacity: map<string, int>, defs: map<string, PathDefinition>, counts: map<string, int>)
  {
    forall p :: p in capacity ==>
      p in defs && Counted(defs[p].capabilities, counts) && capacity[p] == Ceiling(defs[p].capabilities, counts)
  }

  lemma {:induction false} CeilingAgrees(caps: seq<string>, a: map<string, int>, b: map<string, int>)
    requires Counted(caps, a) && Extends(a, b)
    ensures Counted(caps, b) && Ceiling(caps, a) == Ceiling(caps, b)
  {
    if |caps| == 1 {
      assert caps[0] in caps;
    } else if |caps| > 1 {
      var front := caps[..|caps| - 1];
      assert Counted(front, a) && caps[|caps| - 1] in caps;
      CeilingAgrees(front, a, b);
    }
  }

  /** One capability more. */
  lemma CeilingNext(caps: seq<string>, i: nat, counts: map<string, int>, more: map<string, int>)
    requires i < |caps| && Counted(caps[..i], counts) && Extends(counts, more) && caps[i] in more
    ensures Counted(caps[..i + 1], more)
    ensures var before := Ceiling(caps[..i], counts);
            Ceiling(caps[..i + 1], more) == if i == 0 || more[caps[i]] < before then more[caps[i]] else before
  {
    CeilingAgrees(caps[..i], counts, more);
    assert caps[..i + 1] == caps[..i] + [caps[i]];
    assert caps[..i + 1][..i] == caps[..i];
  }

  lemma CountsGrow(capacity: map<string, int>, defs: map<string, PathDefinition>, counts: map<string, int>,
                   more: map<string, int>)
    requires WithinCounts(capacity, defs, counts) && Extends(counts, more)
    ensures WithinCounts(capacity, defs, more)
  {
    forall p | p in capacity
      ensures Counted(defs[p].capabilities, more) && capacity[p] == Ceiling(defs[p].capabilities, more)
    {
      CeilingAgrees(defs[p].capabilities, counts, more);
    }
  }
}
