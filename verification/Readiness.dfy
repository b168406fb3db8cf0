/** The readiness gate of a replaying consumer: ready once everything present at startup has been handled. */
module Readiness {
  import opened Base

  /** A partition at startup: its first offset, the next one to be written, and the offsets that hold a message. */
  datatype Partition = Partition(first: nat, last: nat, present: set<nat>)

  type Topic = map<nat, Partition>

  /** A message the reader returned: only its partition and offset matter here. */
  datatype Read = Read(part: nat, offset: nat)

  /** `target` holds, per partition still behind, the offset to get past; `closes` counts closings of the channel. */
  datatype Gate = Gate(target: map<nat, nat>, ready: bool, closes: nat)

  predicate WellFormed(topic: Topic) {
    forall p :: p in topic ==> forall o :: o in topic[p].present ==> topic[p].first <= o < topic[p].last
  }

  predicate Tracked(topic: Topic, p: nat) { p in topic && topic[p].first < topic[p].last }

  function Targets(topic: Topic): map<nat, nat> {
    map p | p in topic && topic[p].first < topic[p].last :: topic[p].last
  }

  function MarkReady(g: Gate): Gate { g.(ready := true, closes := if g.ready then g.closes else g.closes + 1) }

  /** A topic with nothing in it leaves nothing to wait for. */
  function Start(topic: Topic): Gate {
    var g := Gate(Targets(topic), false, 0);
    if g.target == map[] then MarkReady(g) else g
  }

  function CheckReady(g: Gate, m: Read): Gate {
    if g.ready || m.part !in g.target || m.offset + 1 < g.target[m.part] then g
    else
      var g' := g.(target := g.target - {m.part});
      if g'.target == map[] then MarkReady(g') else g'
  }

  function After(topic: Topic, ms: seq<Read>): Gate {
    if ms == [] then Start(topic) else CheckReady(After(topic, ms[..|ms| - 1]), ms[|ms| - 1])
  }

  class ReadinessGate {
    var target: map<nat, nat>
    var ready: bool
    var closes: nat

    function Value(): Gate
      reads this
    {
      Gate(target, ready, closes)
    }

    constructor (topic: Topic)
      ensures Value() == Start(topic)
    {
      target, ready, closes := Targets(topic), false, 0;
      new;
      if target == map[] { Mark(); }
    }

    method Mark()
      modifies `ready, `closes
      ensures Value() == MarkReady(old(Value()))
    {
      var alreadyReady := ready;
      ready := true;
      if !alreadyReady { closes := closes + 1; }
    }

    method Check(m: Read)
      modifies this
      ensures Value() == CheckReady(old(Value()), m)
    {
      if ready || m.part !in target { return; }
      if m.offset + 1 < target[m.part] { return; }
      target := target - {m.part};
      if target == map[] { Mark(); }
    }
  }

  // ---- Exactness ----

  /** Everything that precedes `m` in its partition has been returned. */
  ghost predicate Follows(topic: Topic, before: seq<Read>, m: Read) {
    m.part in topic ==> forall o :: o in topic[m.part].present && o < m.offset ==> Read(m.part, o) in before
  }

  /** Every partition is read from the start in offset order. */
  ghost predicate InOffsetOrder(topic: Topic, ms: seq<Read>) {
    forall i :: 0 <= i < |ms| ==> Follows(topic, ms[..i], ms[i])
  }

  ghost predicate AllHandled(topic: Topic, ms: seq<Read>) {
    forall p, o :: p in topic && o in topic[p].present ==> Read(p, o) in ms
  }

  /** The reader has returned something at or past the last offset of the partition. */
  ghost predicate Passed(topic: Topic, ms: seq<Read>, p: nat)
    requires p in topic
  {
    exists m :: m in ms && m.part == p && topic[p].last <= m.offset + 1
  }

  /** The last offset before the startup watermark holds a message, in every partition that is waited for. */
  ghost predicate NoTrailingGap(topic: Topic) {
    forall p :: p in topic && topic[p].first < topic[p].last ==> topic[p].last - 1 in topic[p].present
  }

  /** Ready from the start, exactly when every partition is empty. */
  lemma EmptyIsReady(topic: Topic)
    ensures Start(topic).ready <==> forall p :: p in topic ==> topic[p].last <= topic[p].first
  {
    if p :| p in topic && topic[p].first < topic[p].last { assert p in Targets(topic); }
    if Targets(topic) != map[] {
      var p :| p in Targets(topic);
      assert p in topic && topic[p].first < topic[p].last;
    }
  }

  lemma PassedSnoc(topic: Topic, ms: seq<Read>, m: Read, p: nat)
    requires p in topic
    ensures Passed(topic, ms + [m], p) <==> Passed(topic, ms, p) || (m.part == p && topic[p].last <= m.offset + 1)
  {
    if Passed(topic, ms, p) {
      var x :| x in ms && x.part == p && topic[p].last <= x.offset + 1;
      assert x in ms + [m];
    }
    assert m in ms + [m];
  }

  /** What the gate knows: it still waits for a partition exactly while that partition has not been passed. */
  lemma {:induction false} GateTracks(topic: Topic, ms: seq<Read>)
    ensures var g := After(topic, ms);
            && (forall p :: p in g.target ==> Tracked(topic, p) && g.target[p] == topic[p].last)
            && (forall p :: Tracked(topic, p) ==> (p in g.target <==> !Passed(topic, ms, p)))
            && (g.ready <==> g.target == map[])
            && g.closes == if g.ready then 1 else 0
  {
    if ms == [] {
    } else {
      var front, m := ms[..|ms| - 1], ms[|ms| - 1];
      assert ms == front + [m];
      GateTracks(topic, front);
      forall p | Tracked(topic, p) ensures p in After(topic, ms).target <==> !Passed(topic, ms, p) {
        PassedSnoc(topic, front, m, p);
      }
    }
  }

  /** Ready is never early: whatever gaps there are, everything present at startup has then been handled. */
  lemma ReadyMeansHandled(topic: Topic, ms: seq<Read>)
    requires WellFormed(topic) && InOffsetOrder(topic, ms) && After(topic, ms).ready
    ensures AllHandled(topic, ms)
  {
    GateTracks(topic, ms);
    forall p, o | p in topic && o in topic[p].present ensures Read(p, o) in ms {
      assert Tracked(topic, p) && Passed(topic, ms, p);
      var m :| m in ms && m.part == p && topic[p].last <= m.offset + 1;
      var i :| 0 <= i < |ms| && ms[i] == m;
      assert Follows(topic, ms[..i], ms[i]);
      if o == m.offset { assert m == Read(p, o); } else { assert Read(p, o) in ms[..i]; }
    }
  }

  /** And without trailing gaps it is not late either. */
  lemma HandledMeansReady(topic: Topic, ms: seq<Read>)
    requires NoTrailingGap(topic) && AllHandled(topic, ms)
    ensures After(topic, ms).ready
  {
    GateTracks(topic, ms);
    forall p | Tracked(topic, p) ensures Passed(topic, ms, p) {
      assert Read(p, topic[p].last - 1) in ms;
    }
    assert After(topic, ms).target == map[];
  }

  function Reads(p: nat, offsets: seq<nat>): (ms: seq<Read>)
    ensures |ms| == |offsets| && forall i :: 0 <= i < |ms| ==> ms[i] == Read(p, offsets[i])
  {
    Map(offsets, (o: nat) => Read(p, o))
  }

  lemma OrderConcat(topic: Topic, a: seq<Read>, b: seq<Read>)
    requires InOffsetOrder(topic, a) && forall i :: 0 <= i < |b| ==> Follows(topic, b[..i], b[i])
    ensures InOffsetOrder(topic, a + b)
  {
    forall i | 0 <= i < |a + b| ensures Follows(topic, (a + b)[..i], (a + b)[i]) {
      if i < |a| {
        assert (a + b)[..i] == a[..i];
      } else {
        assert (a + b)[..i] == a + b[..i - |a|];
        assert Follows(topic, b[..i - |a|], b[i - |a|]);
      }
    }
  }

  /** A partition read on its own, from its lowest offset up. */
  lemma ReadOne(topic: Topic, p: nat)
    requires p in topic
    ensures var ms := Reads(p, Ascending(topic[p].present));
            InOffsetOrder(topic, ms) && forall m :: m in ms <==> m.part == p && m.offset in topic[p].present
  {
    var offsets := Ascending(topic[p].present);
    var ms := Reads(p, offsets);
    forall i, o | 0 <= i < |ms| && o in topic[p].present && o < offsets[i] ensures Read(p, o) in ms[..i] {
      var j :| 0 <= j < |offsets| && offsets[j] == o;
      assert ms[..i][j] == Read(p, o);
    }
    forall m: Read | m.part == p && m.offset in topic[p].present ensures m in ms {
      var j :| 0 <= j < |offsets| && offsets[j] == m.offset;
      assert ms[j] == m;
    }
    forall m | m in ms ensures m.part == p && m.offset in topic[p].present {
      var j :| 0 <= j < |ms| && ms[j] == m;
      assert offsets[j] in offsets;
    }
  }

  /** Everything present at startup can be read, and nothing else. */
  lemma {:induction false} ReadAll(topic: Topic, parts: set<nat>) returns (ms: seq<Read>)
    requires parts <= topic.Keys
    ensures InOffsetOrder(topic, ms)
    ensures forall m :: m in ms <==> m.part in parts && m.offset in topic[m.part].present
    decreases |parts|
  {
    if parts == {} {
      ms := [];
    } else {
      var p :| p in parts;
      var rest := ReadAll(topic, parts - {p});
      var one := Reads(p, Ascending(topic[p].present));
      ReadOne(topic, p);
      OrderConcat(topic, rest, one);
      ms := rest + one;
    }
  }

  /** With a trailing gap, a consumer that has handled everything still waits for a message to come. */
  lemma GapMeansLate(topic: Topic, p: nat) returns (ms: seq<Read>)
    requires WellFormed(topic) && Tracked(topic, p) && topic[p].last - 1 !in topic[p].present
    ensures InOffsetOrder(topic, ms) && AllHandled(topic, ms) && !After(topic, ms).ready
  {
    ms := ReadAll(topic, topic.Keys);
    assert !Passed(topic, ms, p) by {
      forall m | m in ms && m.part == p ensures m.offset + 1 < topic[p].last {
        assert m.offset in topic[p].present;
      }
    }
    GateTracks(topic, ms);
  }

  ghost predicate ReadyIsExact(topic: Topic) {
    forall ms :: InOffsetOrder(topic, ms) ==> (After(topic, ms).ready <==> AllHandled(topic, ms))
  }

  /** Readiness is exact, for every interleaving of the partitions, if and only if no partition ends in a gap. */
  lemma ReadinessExactly(topic: Topic)
    requires WellFormed(topic)
    ensures ReadyIsExact(topic) <==> NoTrailingGap(topic)
  {
    if NoTrailingGap(topic) {
      forall ms | InOffsetOrder(topic, ms) ensures After(topic, ms).ready <==> AllHandled(topic, ms) {
        if After(topic, ms).ready { ReadyMeansHandled(topic, ms); }
        if AllHandled(topic, ms) { HandledMeansReady(topic, ms); }
      }
    } else {
      var p :| Tracked(topic, p) && topic[p].last - 1 !in topic[p].present;
      var ms := GapMeansLate(topic, p);
    }
  }

  /** Readiness never goes back, and the channel is closed once, on the message that completes it. */
  lemma {:induction false} ReadyIsFinal(topic: Topic, ms: seq<Read>, n: nat)
    requires n <= |ms| && After(topic, ms[..n]).ready
    ensures After(topic, ms) == After(topic, ms[..n]) && After(topic, ms).closes == 1
    decreases |ms| - n
  {
    GateTracks(topic, ms[..n]);
    if n < |ms| {
      assert ms[..n + 1][..n] == ms[..n];
      ReadyIsFinal(topic, ms, n + 1);
    } else {
      assert ms[..n] == ms;
    }
  }
}
