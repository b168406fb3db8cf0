/** The catalogue cache: the last event of every path, replayed from the topic behind a readiness gate. */
module CatalogueCache {
  import opened Base
  import opened PathCatalog
  import opened Readiness

  /** A message as decoded; `Skipped` is undecodable or of a type this consumer does not read. */
  datatype Event = Upsert(def: PathDefinition) | Deactivated(id: string) | Skipped

  type Paths = map<string, PathDefinition>

  predicate About(e: Event, key: string) {
    match e
    case Upsert(d) => Upper(d.id) == key
    case Deactivated(id) => Upper(id) == key
    case Skipped => false
  }

  function Apply(paths: Paths, e: Event): Paths {
    match e
    case Upsert(d) => paths[Upper(d.id) := d]
    case Deactivated(id) => paths - {Upper(id)}
    case Skipped => paths
  }

  function Cached(es: seq<Event>): Paths {
    if es == [] then map[] else Apply(Cached(es[..|es| - 1]), es[|es| - 1])
  }

  /** The events about one path, in order. */
  function Of(es: seq<Event>, key: string): seq<Event> { Filter(es, e => About(e, key)) }

  /** The state of one path, from its own events alone. */
  function LastWord(mine: seq<Event>): Option<PathDefinition> {
    if mine != [] && mine[|mine| - 1].Upsert? then Some(mine[|mine| - 1].def) else None
  }

  function Entry(paths: Paths, key: string): Option<PathDefinition> { if key in paths then Some(paths[key]) else None }

  /** The cache holds, for every path, what the last event about it says. */
  lemma {:induction false} LastEventWins(es: seq<Event>, key: string)
    ensures Entry(Cached(es), key) == LastWord(Of(es, key))
  {
    if es != [] { LastEventWins(es[..|es| - 1], key); }
  }

  /** Said event by event: a definition is cached for a path exactly when some event upserts it and nothing after that
      event upserts or deactivates that path. */
  lemma {:induction false} CachedExactly(es: seq<Event>, key: string, d: PathDefinition)
    ensures (key in Cached(es) && Cached(es)[key] == d) <==> exists i :: StandsAt(es, i, key, d)
  {
    if es != [] {
      var n := |es| - 1;
      CachedExactly(es[..n], key, d);
      StandsSnoc(es[..n], es[n], key, d);
      assert es == es[..n] + [es[n]];
    }
  }

  predicate Leaves(e: Event, key: string) {
    (e.Upsert? ==> Upper(e.def.id) != key) && (e.Deactivated? ==> Upper(e.id) != key)
  }

  ghost predicate StandsAt(es: seq<Event>, i: int, key: string, d: PathDefinition) {
    && 0 <= i < |es| && es[i] == Upsert(d) && Upper(d.id) == key
    && forall j :: i < j < |es| ==> Leaves(es[j], key)
  }

  lemma StandsSnoc(es: seq<Event>, e: Event, key: string, d: PathDefinition)
    ensures (exists i :: StandsAt(es + [e], i, key, d)) <==>
              (e == Upsert(d) && Upper(d.id) == key) || (Leaves(e, key) && exists i :: StandsAt(es, i, key, d))
  {
    if e == Upsert(d) && Upper(d.id) == key { assert StandsAt(es + [e], |es|, key, d); }
    if i :| StandsAt(es, i, key, d) && Leaves(e, key) { assert StandsAt(es + [e], i, key, d); }
    if i :| StandsAt(es + [e], i, key, d) {
      if i < |es| {
        assert (es + [e])[|es|] == e;
        forall j | i < j < |es| ensures Leaves(es[j], key) { assert (es + [e])[j] == es[j]; }
        assert StandsAt(es, i, key, d);
      }
    }
  }

  /** Any interleaving that keeps the last word on each path gives the same cache. */
  lemma SameLastWords(es: seq<Event>, fs: seq<Event>)
    requires forall key :: LastWord(Of(es, key)) == LastWord(Of(fs, key))
    ensures Cached(es) == Cached(fs)
  {
    forall key ensures Entry(Cached(es), key) == Entry(Cached(fs), key) {
      LastEventWins(es, key);
      LastEventWins(fs, key);
    }
    assert forall key :: key in Cached(es) <==> Entry(Cached(es), key).Some?;
    assert forall key :: key in Cached(fs) <==> Entry(Cached(fs), key).Some?;
    assert forall key :: key in Cached(es) ==> Cached(es)[key] == Entry(Cached(es), key).value;
  }

  /** So the interleaving of partitions does not matter as long as each path keeps its order. */
  lemma InterleavingDoesNotMatter(es: seq<Event>, fs: seq<Event>)
    requires forall key :: Of(es, key) == Of(fs, key)
    ensures Cached(es) == Cached(fs)
  {
    SameLastWords(es, fs);
  }

  ghost predicate IsSuffix(a: seq<Event>, b: seq<Event>) { |a| <= |b| && a == b[|b| - |a|..] }

  /** Reading again, for every path, any suffix of what was already read about it changes nothing. */
  lemma ReplayChangesNothing(es: seq<Event>, again: seq<Event>)
    requires forall key :: IsSuffix(Of(again, key), Of(es, key))
    ensures Cached(es + again) == Cached(es)
  {
    forall key ensures LastWord(Of(es + again, key)) == LastWord(Of(es, key)) {
      FilterConcat(es, again, e => About(e, key));
      assert IsSuffix(Of(again, key), Of(es, key));
    }
    SameLastWords(es + again, es);
  }

  /** In particular, a reader that rewinds to any position it has passed. */
  lemma RewindChangesNothing(es: seq<Event>, n: nat)
    requires n <= |es|
    ensures Cached(es + es[n..]) == Cached(es)
  {
    forall key ensures IsSuffix(Of(es[n..], key), Of(es, key)) {
      FilterConcat(es[..n], es[n..], e => About(e, key));
      assert es == es[..n] + es[n..];
    }
    ReplayChangesNothing(es, es[n..]);
  }

  datatype Message = Message(at: Read, event: Event)

  function Positions(ms: seq<Message>): seq<Read> { Map(ms, (m: Message) => m.at) }

  function Events(ms: seq<Message>): seq<Event> { Map(ms, (m: Message) => m.event) }

  lemma ReadNext(ms: seq<Message>, n: nat)
    requires n < |ms|
    ensures Events(ms[..n + 1]) == Events(ms[..n]) + [ms[n].event]
    ensures Positions(ms[..n + 1]) == Positions(ms[..n]) + [ms[n].at]
    ensures Events(ms[..n + 1])[..n] == Events(ms[..n]) && Positions(ms[..n + 1])[..n] == Positions(ms[..n])
  {
  }

  class CatalogueConsumer {
    const gate: ReadinessGate
    var paths: Paths

    constructor (topic: Topic)
      ensures fresh(gate) && gate.Value() == Start(topic) && paths == map[]
    {
      gate := new ReadinessGate(topic);
      paths := map[];
    }

    method Handle(e: Event)
      modifies `paths
      ensures paths == Apply(old(paths), e)
    {
      match e
      case Upsert(d) => paths := paths[Upper(d.id) := d];
      case Deactivated(id) => paths := paths - {Upper(id)};
      case Skipped =>
    }

    /** The consumer's loop over what the reader returns, from construction on. */
    method Run(topic: Topic, ms: seq<Message>)
      requires gate.Value() == Start(topic) && paths == map[]
      modifies this, gate
      ensures paths == Cached(Events(ms)) && gate.Value() == After(topic, Positions(ms))
    {
      for n := 0 to |ms|
        invariant paths == Cached(Events(ms[..n])) && gate.Value() == After(topic, Positions(ms[..n]))
      {
        Handle(ms[n].event);
        gate.Check(ms[n].at);
        ReadNext(ms, n);
      }
      assert ms[..|ms|] == ms;
    }

    /** Map order is arbitrary; with no two cached paths sharing a prefix, every listing gives the answer given here. */
    method LookupPath(id: string) returns (best: Option<PathDefinition>)
      ensures exists defs :: (forall d :: d in defs <==> d in paths.Values) && best == Best(defs, id)
      ensures forall defs :: (forall d :: d in defs <==> d in paths.Values) && Unambiguous(defs) ==>
                best == Best(defs, id)
    {
      var keys, defs: seq<PathDefinition> := paths.Keys, [];
      while keys != {}
        invariant keys <= paths.Keys
        invariant forall d :: d in defs <==> exists k :: k in paths.Keys - keys && paths[k] == d
        decreases |keys|
      {
        var k :| k in keys;
        defs, keys := defs + [paths[k]], keys - {k};
      }
      best := Lookup(defs, id);
      assert forall d :: d in defs <==> d in paths.Values;
      forall other: seq<PathDefinition> | (forall d :: d in other <==> d in paths.Values) && Unambiguous(other)
        ensures best == Best(other, id)
      {
        OrderDoesNotMatter(other, defs, id);
      }
    }
  }

  /** A catalogue file and the cache agree on every lookup once the last word on each path is what the file declares. */
  lemma FileAndCacheAgree(file: seq<PathDefinition>, es: seq<Event>, listing: seq<PathDefinition>, id: string)
    requires Unambiguous(file)
    requires forall key, d :: LastWord(Of(es, key)) == Some(d) <==> d in file && Upper(d.id) == key
    requires forall d :: d in listing <==> d in Cached(es).Values
    ensures Best(listing, id) == Best(file, id)
  {
    forall d ensures d in listing <==> d in file {
      LastEventWins(es, Upper(d.id));
      if d in listing {
        var key :| key in Cached(es) && Cached(es)[key] == d;
        LastEventWins(es, key);
        assert LastWord(Of(es, key)) == Some(d);
      }
      if d in file {
        assert LastWord(Of(es, Upper(d.id))) == Some(d);
        assert Upper(d.id) in Cached(es);
      }
    }
    OrderDoesNotMatter(file, listing, id);
  }
}
