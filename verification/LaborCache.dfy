/** The labor cache: running totals per task type, each event counted once however often it is delivered. */
module LaborCache {
  import opened Base
  import opened PathCatalog
  import opened Readiness

  datatype Task = Task(source: string, id: string, taskType: string, actual: int, idle: Option<int>)

  /** A message as decoded; `Skipped` is undecodable or of a type this consumer does not read. */
  datatype Event = Recorded(task: Task) | Skipped

  datatype Mean = Mean(sum: int, count: nat)

  datatype Idle = Idle(idle: int, actual: int, observed: bool)

  datatype Cache = Cache(totals: map<string, Mean>, idles: map<string, Idle>, seen: set<string>)

  const Empty := Cache(map[], map[], {})

  const Nul: string := "\0"

  /** The identity under which an event is counted. */
  function Key(source: string, id: string): string { source + Nul + id }

  function MeanOf(c: Cache, t: string): Mean { if t in c.totals then c.totals[t] else Mean(0, 0) }

  function IdleOf(c: Cache, t: string): Idle { if t in c.idles then c.idles[t] else Idle(0, 0, false) }

  function AddMean(m: Mean, x: Task): Mean { Mean(m.sum + x.actual, m.count + 1) }

  /** Time not observed as idle still counts as time worked. */
  function AddIdle(i: Idle, x: Task): Idle {
    Idle(if x.idle.Some? then i.idle + x.idle.value else i.idle, i.actual + x.actual, i.observed || x.idle.Some?)
  }

  function Count(c: Cache, x: Task): Cache {
    var t := Upper(x.taskType);
    if t == "" then c
    else c.(totals := c.totals[t := AddMean(MeanOf(c, t), x)], idles := c.idles[t := AddIdle(IdleOf(c, t), x)])
  }

  function Apply(c: Cache, e: Event): Cache {
    if e.Skipped? || Key(e.task.source, e.task.id) in c.seen then c
    else Count(c, e.task).(seen := c.seen + {Key(e.task.source, e.task.id)})
  }

  function Replayed(es: seq<Event>): Cache {
    if es == [] then Empty else Apply(Replayed(es[..|es| - 1]), es[|es| - 1])
  }

  function MeanSeconds(m: Mean): Option<real> { if m.count == 0 then None else Some(m.sum as real / m.count as real) }

  function Share(i: Idle): Option<real> {
    if !i.observed || i.idle + i.actual <= 0 then None else Some(i.idle as real / (i.idle + i.actual) as real)
  }

  function TaskTypeFor(path: string): Option<string> {
    if Upper(path) in {"PICK", "PACK", "SLAM"} then Some(Upper(path)) else None
  }

  // ---- The reference: sums over a set of events ----

  ghost function Pick<T>(s: set<T>): T
    requires s != {}
  {
    var x :| x in s;
    x
  }

  ghost function Sum(s: set<Task>, f: Task -> int): int {
    if s == {} then 0 else f(Pick(s)) + Sum(s - {Pick(s)}, f)
  }

  lemma {:induction false} SumAdd(s: set<Task>, x: Task, f: Task -> int)
    requires x !in s
    ensures Sum(s + {x}, f) == Sum(s, f) + f(x)
    decreases |s|
  {
    var y := Pick(s + {x});
    if y == x {
      assert s + {x} - {y} == s;
    } else {
      assert s + {x} - {y} == (s - {y}) + {x};
      SumAdd(s - {y}, x, f);
      assert (s - {y}) + {y} == s;
      SumAdd(s - {y}, y, f);
    }
  }

  function Actual(x: Task): int { x.actual }

  function IdleSeconds(x: Task): int { if x.idle.Some? then x.idle.value else 0 }

  /** The distinct events among the messages. */
  function Tasks(es: seq<Event>): set<Task> { set e | e in es && e.Recorded? :: e.task }

  function OfType(s: set<Task>, t: string): set<Task> { set x | x in s && Upper(x.taskType) == t }

  ghost function MeanOver(s: set<Task>): Mean { Mean(Sum(s, Actual), |s|) }

  ghost function IdleOver(s: set<Task>): Idle {
    Idle(Sum(s, IdleSeconds), Sum(s, Actual), exists x :: x in s && x.idle.Some?)
  }

  /** The (source, id) pair names one event. */
  ghost predicate Identified(s: set<Task>) {
    forall x, y :: x in s && y in s && x.source == y.source && x.id == y.id ==> x == y
  }

  predicate NulFree(s: string) { '\0' !in s }

  ghost predicate Sourced(s: set<Task>) { forall x :: x in s ==> NulFree(x.source) }

  lemma LongerSourceGoesOn(s: string, i: string, t: string, j: string)
    requires Key(s, i) == Key(t, j) && |s| < |t|
    ensures s + Nul <= t
  {
    assert Key(s, i)[..|s| + 1] == s + Nul;
    assert t[..|s| + 1] == Key(t, j)[..|s| + 1];
  }

  ghost predicate CanCollide(s: string, t: string) { exists i, j :: Key(s, i) == Key(t, j) }

  lemma ContinuationCollides(s: string, t: string)
    requires s + Nul <= t
    ensures s != t && CanCollide(s, t) && CanCollide(t, s)
  {
    var i := t[|s| + 1..] + Nul;
    assert t == s + Nul + t[|s| + 1..];
    assert Key(s, i) == Key(t, "");
  }

  /** Two different sources can share a key exactly when one of them continues the other past a separator. */
  lemma KeyCollisions(s: string, t: string)
    ensures s != t && CanCollide(s, t) <==> s + Nul <= t || t + Nul <= s
  {
    if CanCollide(s, t) {
      var i, j :| Key(s, i) == Key(t, j);
      if |s| == |t| { assert Key(s, i)[..|s|] == s && Key(t, j)[..|t|] == t; }
      if |s| < |t| { LongerSourceGoesOn(s, i, t, j); }
      if |t| < |s| { LongerSourceGoesOn(t, j, s, i); }
    }
    if s + Nul <= t { ContinuationCollides(s, t); }
    if t + Nul <= s { ContinuationCollides(t, s); }
  }

  /** Sources without the separator, as every URI reference is, make the key as good as the pair. */
  lemma KeyIsThePair(x: Task, y: Task)
    requires NulFree(x.source) && NulFree(y.source) && Key(x.source, x.id) == Key(y.source, y.id)
    ensures x.source == y.source && x.id == y.id
  {
    KeyCollisions(x.source, y.source);
    assert CanCollide(x.source, y.source);
    assert (x.source + Nul)[|x.source|] == '\0' && (y.source + Nul)[|y.source|] == '\0';
    assert x.source == y.source;
    assert Key(x.source, x.id)[|x.source| + 1..] == x.id && Key(y.source, y.id)[|y.source| + 1..] == y.id;
  }

  // ---- The cache is a function of the set of events ----

  /** One task type: its sums over the set, and an entry only if it has an event. */
  ghost predicate Right(c: Cache, s: set<Task>, t: string) {
    && (t != "" ==> MeanOf(c, t) == MeanOver(OfType(s, t)) && IdleOf(c, t) == IdleOver(OfType(s, t)))
    && (t in c.totals <==> t != "" && OfType(s, t) != {}) && (t in c.idles <==> t in c.totals)
  }

  ghost predicate HasKey(s: set<Task>, k: string) { exists x :: x in s && Key(x.source, x.id) == k }

  /** The cache over a set of events: sums per task type, and the keys. */
  ghost predicate Represents(c: Cache, s: set<Task>) {
    (forall t :: Right(c, s, t)) && (forall k :: k in c.seen <==> HasKey(s, k))
  }

  lemma OverAdd(s: set<Task>, x: Task)
    requires x !in s
    ensures MeanOver(s + {x}) == AddMean(MeanOver(s), x) && IdleOver(s + {x}) == AddIdle(IdleOver(s), x)
  {
    SumAdd(s, x, Actual);
    SumAdd(s, x, IdleSeconds);
    if IdleOver(s).observed {
      var y :| y in s && y.idle.Some?;
      assert y in s + {x};
    }
    assert x in s + {x};
  }

  /** A new event adds itself to its task type and leaves the others. */
  lemma CountIsRight(c: Cache, s: set<Task>, x: Task, t: string)
    requires Right(c, s, t) && x !in s
    ensures Right(Count(c, x), s + {x}, t)
  {
    if t == Upper(x.taskType) {
      assert OfType(s + {x}, t) == OfType(s, t) + {x};
      OverAdd(OfType(s, t), x);
    } else {
      assert OfType(s + {x}, t) == OfType(s, t);
    }
  }

  lemma HasKeyAdd(s: set<Task>, x: Task, k: string)
    ensures HasKey(s + {x}, k) <==> HasKey(s, k) || Key(x.source, x.id) == k
  {
    assert x in s + {x};
    if HasKey(s, k) {
      var y :| y in s && Key(y.source, y.id) == k;
      assert y in s + {x};
    }
  }

  lemma CountRepresents(c: Cache, s: set<Task>, x: Task)
    requires Represents(c, s) && x !in s && Key(x.source, x.id) !in c.seen
    ensures Represents(Apply(c, Recorded(x)), s + {x})
  {
    var d := Apply(c, Recorded(x));
    forall t ensures Right(d, s + {x}, t) { CountIsRight(c, s, x, t); }
    forall k ensures k in d.seen <==> HasKey(s + {x}, k) { HasKeyAdd(s, x, k); }
  }

  lemma {:induction false} CacheRepresents(es: seq<Event>)
    requires Identified(Tasks(es)) && Sourced(Tasks(es))
    ensures Represents(Replayed(es), Tasks(es))
  {
    if es == [] {
      forall t ensures Right(Empty, {}, t) { assert OfType({}, t) == {}; }
      assert Tasks([]) == {};
    } else {
      var front, e := es[..|es| - 1], es[|es| - 1];
      assert es == front + [e];
      assert Tasks(es) == Tasks(front) + if e.Recorded? then {e.task} else {};
      CacheRepresents(front);
      if e.Recorded? {
        var x := e.task;
        assert x in Tasks(es);
        if Key(x.source, x.id) in Replayed(front).seen {
          var y :| y in Tasks(front) && Key(y.source, y.id) == Key(x.source, x.id);
          KeyIsThePair(x, y);
          assert Tasks(es) == Tasks(front);
        } else {
          CountRepresents(Replayed(front), Tasks(front), x);
        }
      } else {
        assert Tasks(es) == Tasks(front);
      }
    }
  }

  lemma RepresentsOne(c: Cache, d: Cache, s: set<Task>)
    requires Represents(c, s) && Represents(d, s)
    ensures c == d
  {
    assert c.totals == d.totals by {
      forall t ensures (t in c.totals <==> t in d.totals) && MeanOf(c, t) == MeanOf(d, t) {
        assert Right(c, s, t) && Right(d, s, t);
      }
      assert forall t :: t in c.totals ==> c.totals[t] == MeanOf(c, t);
    }
    assert c.idles == d.idles by {
      forall t ensures (t in c.idles <==> t in d.idles) && IdleOf(c, t) == IdleOf(d, t) {
        assert Right(c, s, t) && Right(d, s, t);
      }
      assert forall t :: t in c.idles ==> c.idles[t] == IdleOf(c, t);
    }
    assert forall k :: k in c.seen <==> k in d.seen;
  }

  /** The cache depends only on the set of distinct events: not on order, partition, repetition or skipped messages. */
  lemma OnlyTheSetMatters(es: seq<Event>, fs: seq<Event>)
    requires Identified(Tasks(es)) && Sourced(Tasks(es)) && Tasks(es) == Tasks(fs)
    ensures Replayed(es) == Replayed(fs)
  {
    CacheRepresents(es);
    CacheRepresents(fs);
    RepresentsOne(Replayed(es), Replayed(fs), Tasks(es));
  }

  /** Why the sources have to be free of the separator: with one, two different events would pass for one.  A decoded
      CloudEvents source is a URI reference, in which the separator cannot stand, so no such event is ever received. */
  lemma SharedKeyDropsAnEvent()
    ensures var x, y := Task("a", "b\0c", "PICK", 1, None), Task("a\0b", "c", "PICK", 2, None);
            Identified({x, y}) && MeanOf(Replayed([Recorded(x), Recorded(y)]), "PICK") == Mean(1, 1)
  {
    var x, y := Task("a", "b\0c", "PICK", 1, None), Task("a\0b", "c", "PICK", 2, None);
    assert Key(x.source, x.id) == "a\0b\0c" == Key(y.source, y.id);
    assert Upper("PICK") == "PICK";
    assert [Recorded(x), Recorded(y)][..1] == [Recorded(x)] && [Recorded(x)][..0] == [];
    assert Replayed([Recorded(x)]) == Apply(Empty, Recorded(x));
  }

  // ---- The share ----

  ghost predicate NonNegative(s: set<Task>) { forall x :: x in s ==> 0 <= x.actual && 0 <= IdleSeconds(x) }

  lemma FractionBounds(part: real, rest: real)
    requires 0.0 <= part && 0.0 <= rest && 0.0 < part + rest
    ensures 0.0 <= part / (part + rest) <= 1.0
  {
  }

  lemma ShareBounds(i: Idle)
    requires 0 <= i.idle && 0 <= i.actual
    ensures Share(i).Some? ==> 0.0 <= Share(i).value <= 1.0
  {
    if 0 < i.idle + i.actual { FractionBounds(i.idle as real, i.actual as real); }
  }

  lemma {:induction false} SumsNonNegative(es: seq<Event>, t: string)
    requires NonNegative(Tasks(es))
    ensures 0 <= IdleOf(Replayed(es), t).idle && 0 <= IdleOf(Replayed(es), t).actual
  {
    if es != [] {
      var front, e := es[..|es| - 1], es[|es| - 1];
      assert e in es && forall f :: f in front ==> f in es;
      assert e.Recorded? ==> e.task in Tasks(es);
      SumsNonNegative(front, t);
    }
  }

  /** A reported share is a fraction between 0 and 1, when no duration is negative. */
  lemma ShareIsAFraction(es: seq<Event>, t: string)
    requires NonNegative(Tasks(es))
    ensures var share := Share(IdleOf(Replayed(es), t)); share.Some? ==> 0.0 <= share.value <= 1.0
  {
    SumsNonNegative(es, t);
    ShareBounds(IdleOf(Replayed(es), t));
  }

  // ---- The answers ----

  /** The answers are for the three paths whose type is measured, whatever their case. */
  lemma MeasuredPaths(path: string)
    ensures TaskTypeFor(path).Some? <==>
              SameLetters(path, "pick") || SameLetters(path, "pack") || SameLetters(path, "slam")
    ensures SameLetters(path, "pick") ==> TaskTypeFor(path) == Some("PICK")
    ensures SameLetters(path, "pack") ==> TaskTypeFor(path) == Some("PACK")
    ensures SameLetters(path, "slam") ==> TaskTypeFor(path) == Some("SLAM")
  {
    FoldsAlike(path, "pick");
    FoldsAlike(path, "pack");
    FoldsAlike(path, "slam");
    assert Upper("pick") == "PICK" && Upper("pack") == "PACK" && Upper("slam") == "SLAM";
  }

  lemma Divides(x: real, y: real, k: real)
    requires k > 0.0 && x == y / k
    ensures x * k == y
  {
  }

  /** `x` is the mean of `n` numbers that sum to `sum`; there is none for no numbers. */
  predicate IsMean(x: Option<real>, sum: int, n: nat) {
    (x.Some? <==> 0 < n) && (x.Some? ==> x.value * n as real == sum as real)
  }

  lemma MeanIsMean(m: Mean)
    ensures IsMean(MeanSeconds(m), m.sum, m.count)
  {
    if m.count > 0 { Divides(MeanSeconds(m).value, m.sum as real, m.count as real); }
  }

  /** `x` is the share of `part` in `whole`; there is none unless some part was observed and the whole is positive. */
  predicate IsShare(x: Option<real>, part: int, whole: int, observed: bool) {
    (x.Some? <==> observed && 0 < whole) && (x.Some? ==> x.value * whole as real == part as real)
  }

  lemma ShareIsShare(i: Idle)
    ensures IsShare(Share(i), i.idle, i.idle + i.actual, i.observed)
  {
    if Share(i).Some? { Divides(Share(i).value, i.idle as real, (i.idle + i.actual) as real); }
  }

  lemma TotalsOver(es: seq<Event>, t: string)
    requires Identified(Tasks(es)) && Sourced(Tasks(es)) && t != ""
    ensures MeanOf(Replayed(es), t) == MeanOver(OfType(Tasks(es), t))
    ensures IdleOf(Replayed(es), t) == IdleOver(OfType(Tasks(es), t))
  {
    CacheRepresents(es);
    assert Right(Replayed(es), Tasks(es), t);
  }

  /** The mean for a task type is that of the seconds of the distinct tasks of the type. */
  lemma MeanExactly(es: seq<Event>, t: string)
    requires Identified(Tasks(es)) && Sourced(Tasks(es)) && t != ""
    ensures var s := OfType(Tasks(es), t); IsMean(MeanSeconds(MeanOf(Replayed(es), t)), Sum(s, Actual), |s|)
  {
    TotalsOver(es, t);
    MeanIsMean(MeanOf(Replayed(es), t));
  }

  /** The idle share for a task type is that of the idle seconds in all seconds of the distinct tasks of the type. */
  lemma ShareExactly(es: seq<Event>, t: string)
    requires Identified(Tasks(es)) && Sourced(Tasks(es)) && t != ""
    ensures var s := OfType(Tasks(es), t);
            IsShare(Share(IdleOf(Replayed(es), t)), Sum(s, IdleSeconds), Sum(s, IdleSeconds) + Sum(s, Actual),
                    exists x :: x in s && x.idle.Some?)
  {
    TotalsOver(es, t);
    ShareIsShare(IdleOf(Replayed(es), t));
  }

  datatype Message = Message(at: Read, event: Event)

  function Positions(ms: seq<Message>): seq<Read> { Map(ms, (m: Message) => m.at) }

  function Events(ms: seq<Message>): seq<Event> { Map(ms, (m: Message) => m.event) }

  lemma ReadNext(ms: seq<Message>, n: nat)
    requires n < |ms|
    ensures Events(ms[..n + 1]) == Events(ms[..n]) + [ms[n].event]
    ensures Positions(ms[..n + 1]) == Positions(ms[..n]) + [ms[n].at]
    ensures Events(ms[..n + 1])[..n] == Events(ms[..n]) && Positions(ms[..n + 1])[..n] == Positions(ms[..n])
  {
  }

  class LaborConsumer {
    const gate: ReadinessGate
    var totals: map<string, Mean>
    var idleTotals: map<string, Idle>
    var seen: set<string>

    function Value(): Cache
      reads this
    {
      Cache(totals, idleTotals, seen)
    }

    constructor (topic: Topic)
      ensures fresh(gate) && gate.Value() == Start(topic) && Value() == Empty
    {
      gate := new ReadinessGate(topic);
      totals, idleTotals, seen := map[], map[], {};
    }

    method MarkSeen(source: string, id: string) returns (added: bool)
      modifies `seen
      ensures added <==> Key(source, id) !in old(seen)
      ensures seen == old(seen) + {Key(source, id)}
    {
      var key := source + Nul + id;
      if key in seen { return false; }
      seen := seen + {key};
      return true;
    }

    method ApplyTask(x: Task)
      modifies `totals, `idleTotals
      ensures Value() == Count(old(Value()), x)
    {
      var t := Upper(x.taskType);
      if t == "" { return; }
      var m := if t in totals then totals[t] else Mean(0, 0);
      totals := totals[t := Mean(m.sum + x.actual, m.count + 1)];
      var i := if t in idleTotals then idleTotals[t] else Idle(0, 0, false);
      i := i.(actual := i.actual + x.actual);
      if x.idle.Some? { i := i.(idle := i.idle + x.idle.value, observed := true); }
      idleTotals := idleTotals[t := i];
    }

    method Handle(e: Event)
      modifies `totals, `idleTotals, `seen
      ensures Value() == Apply(old(Value()), e)
    {
      if e.Recorded? {
        var added := MarkSeen(e.task.source, e.task.id);
        if added { ApplyTask(e.task); }
      }
    }

    /** The consumer's loop over what the reader returns, from construction on. */
    method Run(topic: Topic, ms: seq<Message>)
      requires gate.Value() == Start(topic) && Value() == Empty
      modifies this, gate
      ensures Value() == Replayed(Events(ms)) && gate.Value() == After(topic, Positions(ms))
    {
      for n := 0 to |ms|
        invariant Value() == Replayed(Events(ms[..n])) && gate.Value() == After(topic, Positions(ms[..n]))
      {
        Handle(ms[n].event);
        gate.Check(ms[n].at);
        ReadNext(ms, n);
      }
      assert ms[..|ms|] == ms;
    }

    method MeanActualSeconds(path: string) returns (mean: Option<real>)
      ensures mean == if TaskTypeFor(path) == None then None else MeanSeconds(MeanOf(Value(), TaskTypeFor(path).value))
    {
      var t := TaskTypeFor(path);
      if t == None || t.value !in totals { return None; }
      return MeanSeconds(totals[t.value]);
    }

    method IdleSharePct(path: string) returns (share: Option<real>)
      ensures share == if TaskTypeFor(path) == None then None else Share(IdleOf(Value(), TaskTypeFor(path).value))
    {
      var t := TaskTypeFor(path);
      if t == None || t.value !in idleTotals { return None; }
      return Share(idleTotals[t.value]);
    }
  }
}
