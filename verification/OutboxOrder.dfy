/** Delivery order of the relays within a scope of related rows, and exactly which claims keep it. */
module OutboxOrder {
  import opened Base
  import opened Messages
  import opened Outbox

  /** Related rows become visible in id order. */
  ghost predicate VisibleInOrder(sc: Scope, s: State, rows: map<nat, Message>) {
    forall i, j :: i in rows && j in s.table && Related(sc, s.table[j].msg, rows[i]) ==> j < i
  }

  /** The claim leaves no unpublished row behind that precedes one it takes; `SKIP LOCKED` can,
      when another pass holds that row. */
  ghost predicate Unskipped(sc: Scope, s: State, batch: seq<nat>) {
    forall x, y :: y in batch && Precedes(sc, s.table, x, y) && Pending(s, x) ==> x in batch
  }

  ghost predicate InOrder(sc: Scope, s: State, a: Step) {
    && (a.Enqueue? ==> VisibleInOrder(sc, s, a.rows))
    && (a.Claim? ==> Unskipped(sc, s, a.batch))
  }

  ghost predicate OrderedRun(sc: Scope, s: State, steps: seq<Step>)
    requires Legal(s, steps)
    decreases |steps|
  {
    steps == [] || (InOrder(sc, s, steps[0]) && OrderedRun(sc, Apply(s, steps[0]), steps[1..]))
  }

  /** Among related rows, the durably published rows are a prefix. */
  ghost predicate PublishedPrefix(sc: Scope, s: State) {
    forall x, y :: Precedes(sc, s.table, x, y) && s.table[y].published ==> s.table[x].published
  }

  /** Among related rows, first deliveries come in id order. */
  ghost predicate FirstInOrder(sc: Scope, s: State) {
    forall i, x :: 0 <= i < |s.log| && Precedes(sc, s.table, x, s.log[i]) ==> x in s.log[..i]
  }

  /** Every delivery of `x` is followed by one of `y`. */
  ghost predicate Followed(log: seq<nat>, x: nat, y: nat) {
    forall i :: 0 <= i < |log| && log[i] == x ==> y in log[i + 1..]
  }

  /** Among related rows, last deliveries of published rows come in id order. */
  ghost predicate LastInOrder(sc: Scope, s: State) {
    forall x, y :: Precedes(sc, s.table, x, y) && s.table[y].published ==> Followed(s.log, x, y)
  }

  /** How many rows of its batch a pass has delivered and may still mark. */
  function Sent(p: Pass): nat { p.pos + if p.phase == Marking then 1 else 0 }

  /** Every earlier row related to `y` is followed by `y`. */
  ghost predicate Caught(sc: Scope, t: map<nat, Row>, log: seq<nat>, y: nat) {
    forall x :: Precedes(sc, t, x, y) ==> Followed(log, x, y)
  }

  ghost predicate SentInOrder(sc: Scope, s: State, p: Pass) {
    forall j :: 0 <= j < Sent(p) && j < |p.batch| ==> Caught(sc, s.table, s.log, p.batch[j])
  }

  /** All three order properties. */
  ghost predicate Ordered(sc: Scope, s: State) { PublishedPrefix(sc, s) && FirstInOrder(sc, s) && LastInOrder(sc, s) }

  ghost predicate PassInOrder(sc: Scope, s: State, p: Pass) { Unskipped(sc, s, p.batch) && SentInOrder(sc, s, p) }

  ghost predicate OrderInv(sc: Scope, s: State) {
    Inv(s) && Ordered(sc, s) && forall r :: r in s.passes ==> PassInOrder(sc, s, s.passes[r])
  }

  lemma FollowedExtend(log: seq<nat>, x: nat, y: nat, z: nat)
    requires Followed(log, x, y) && (z != x || z == y) && x != y
    ensures Followed(log + [z], x, y)
  {
    forall i | 0 <= i < |log + [z]| && (log + [z])[i] == x ensures y in (log + [z])[i + 1..] {
      assert (log + [z])[i + 1..] == log[i + 1..] + [z];
    }
  }

  lemma FollowedAppend(log: seq<nat>, x: nat, y: nat)
    requires x != y
    ensures Followed(log + [y], x, y)
  {
    forall i | 0 <= i < |log + [y]| && (log + [y])[i] == x ensures y in (log + [y])[i + 1..] {
      assert (log + [y])[i + 1..] == log[i + 1..] + [y];
    }
  }

  /** New rows come after the related ones that were there. */
  lemma OldPrecedes(sc: Scope, s: State, rows: map<nat, Message>, x: nat, y: nat)
    requires Enabled(s, Enqueue(rows)) && VisibleInOrder(sc, s, rows) && y in s.table
    ensures Precedes(sc, Apply(s, Enqueue(rows)).table, x, y) <==> Precedes(sc, s.table, x, y)
    ensures Precedes(sc, s.table, x, y) ==> Apply(s, Enqueue(rows)).table[x] == s.table[x]
  {
  }

  lemma EnqueueKeepsPass(sc: Scope, s: State, rows: map<nat, Message>, p: Pass)
    requires Enabled(s, Enqueue(rows)) && VisibleInOrder(sc, s, rows) && forall id :: id in p.batch ==> Pending(s, id)
    requires Unskipped(sc, s, p.batch) && SentInOrder(sc, s, p)
    ensures var t := Apply(s, Enqueue(rows)); Unskipped(sc, t, p.batch) && SentInOrder(sc, t, p)
  {
    var t := Apply(s, Enqueue(rows));
    forall x, y | y in p.batch && Precedes(sc, t.table, x, y) && Pending(t, x) ensures x in p.batch {
      assert Pending(s, y);
      OldPrecedes(sc, s, rows, x, y);
      assert Pending(s, x);
    }
    forall j | 0 <= j < Sent(p) && j < |p.batch| ensures Caught(sc, t.table, t.log, p.batch[j]) {
      assert Pending(s, p.batch[j]);
      assert Caught(sc, s.table, s.log, p.batch[j]);
      forall x | Precedes(sc, t.table, x, p.batch[j]) ensures Followed(t.log, x, p.batch[j]) {
        OldPrecedes(sc, s, rows, x, p.batch[j]);
      }
    }
  }

  lemma EnqueueKeepsLog(sc: Scope, s: State, rows: map<nat, Message>)
    requires Ordered(sc, s) && Enabled(s, Enqueue(rows)) && VisibleInOrder(sc, s, rows)
    requires forall id :: id in s.log ==> id in s.table
    ensures Ordered(sc, Apply(s, Enqueue(rows)))
  {
    var t := Apply(s, Enqueue(rows));
    forall x, y | Precedes(sc, t.table, x, y) && t.table[y].published
      ensures t.table[x].published && Followed(t.log, x, y)
    {
      assert y in s.table;
      OldPrecedes(sc, s, rows, x, y);
    }
    forall i, x | 0 <= i < |t.log| && Precedes(sc, t.table, x, t.log[i]) ensures x in t.log[..i] {
      OldPrecedes(sc, s, rows, x, t.log[i]);
    }
  }

  lemma EnqueueKeepsOrder(sc: Scope, s: State, rows: map<nat, Message>)
    requires OrderInv(sc, s) && Enabled(s, Enqueue(rows)) && VisibleInOrder(sc, s, rows)
    ensures OrderInv(sc, Apply(s, Enqueue(rows)))
  {
    StepKeepsInv(s, Enqueue(rows));
    EnqueueKeepsLog(sc, s, rows);
    forall r | r in s.passes ensures var t := Apply(s, Enqueue(rows)); PassInOrder(sc, t, t.passes[r]) {
      assert PassInOrder(sc, s, s.passes[r]);
      EnqueueKeepsPass(sc, s, rows, s.passes[r]);
    }
  }

  /** A row about to be sent: everything before it is already in the log, nothing after it
      is published, and no other pass has gone past it. */
  lemma NextToSend(sc: Scope, s: State, r: nat)
    requires OrderInv(sc, s) && r in s.passes && s.passes[r].pos < |s.passes[r].batch|
    ensures var z := s.passes[r].batch[s.passes[r].pos];
            && (forall x :: Precedes(sc, s.table, x, z) ==> x in s.log)
            && (forall y :: Precedes(sc, s.table, z, y) ==> !s.table[y].published)
            && (forall q, y :: q in s.passes && q != r && y in s.passes[q].batch ==> !Precedes(sc, s.table, z, y))
  {
    var p := s.passes[r];
    var z := p.batch[p.pos];
    assert Pending(s, z);
    forall x | Precedes(sc, s.table, x, z) ensures x in s.log {
      if Pending(s, x) {
        var j :| 0 <= j < |p.batch| && p.batch[j] == x;
        assert j < p.pos;
      }
    }
    forall q, y | q in s.passes && q != r && y in s.passes[q].batch ensures !Precedes(sc, s.table, z, y) {
      assert z in p.batch;
    }
  }

  lemma DeliveryKeepsLog(sc: Scope, s: State, t: State, r: nat)
    requires OrderInv(sc, s) && r in s.passes && s.passes[r].pos < |s.passes[r].batch|
    requires t.table == s.table && t.log == s.log + [s.passes[r].batch[s.passes[r].pos]]
    ensures FirstInOrder(sc, t) && LastInOrder(sc, t)
  {
    NextToSend(sc, s, r);
    forall i, x | 0 <= i < |t.log| && Precedes(sc, t.table, x, t.log[i]) ensures x in t.log[..i] {
      assert t.log[..i] == s.log[..i];
    }
    forall x, y | Precedes(sc, t.table, x, y) && t.table[y].published ensures Followed(t.log, x, y) {
      FollowedExtend(s.log, x, y, s.passes[r].batch[s.passes[r].pos]);
    }
  }

  lemma DeliveryKeepsCaught(sc: Scope, t: map<nat, Row>, log: seq<nat>, y: nat, z: nat)
    requires y == z || (!Precedes(sc, t, z, y) && Caught(sc, t, log, y))
    ensures Caught(sc, t, log + [z], y)
  {
    forall x | Precedes(sc, t, x, y) ensures Followed(log + [z], x, y) {
      if y == z { FollowedAppend(log, x, z); } else { FollowedExtend(log, x, y, z); }
    }
  }

  lemma DeliveryKeepsPass(sc: Scope, s: State, t: State, p: Pass, p': Pass, z: nat)
    requires SentInOrder(sc, s, p) && t.table == s.table && t.log == s.log + [z] && p'.batch == p.batch
    requires forall j :: 0 <= j < Sent(p') && j < |p.batch| ==>
               p.batch[j] == z || (j < Sent(p) && !Precedes(sc, s.table, z, p.batch[j]))
    ensures SentInOrder(sc, t, p')
  {
    forall j | 0 <= j < Sent(p') && j < |p.batch| ensures Caught(sc, t.table, t.log, p.batch[j]) {
      DeliveryKeepsCaught(sc, s.table, s.log, p.batch[j], z);
    }
  }

  lemma DeliveryKeepsPasses(sc: Scope, s: State, t: State, r: nat)
    requires OrderInv(sc, s) && At(s, r, Sending) && MovesCursor(s, t, r)
    requires t.log == s.log + [s.passes[r].batch[s.passes[r].pos]]
    requires t.passes[r].pos == s.passes[r].pos
    ensures forall q :: q in t.passes ==> SentInOrder(sc, t, t.passes[q])
  {
    NextToSend(sc, s, r);
    var z := s.passes[r].batch[s.passes[r].pos];
    forall q | q in t.passes ensures SentInOrder(sc, t, t.passes[q]) {
      forall j | 0 <= j < Sent(t.passes[q]) && j < |s.passes[q].batch|
        ensures s.passes[q].batch[j] == z
                || (j < Sent(s.passes[q]) && !Precedes(sc, s.table, z, s.passes[q].batch[j]))
      {
        assert s.passes[q].batch[j] in s.passes[q].batch;
      }
      DeliveryKeepsPass(sc, s, t, s.passes[q], t.passes[q], z);
    }
  }

  /** What a claim left behind depends on the table alone. */
  lemma UnskippedFrame(sc: Scope, s: State, t: State, batch: seq<nat>)
    requires Unskipped(sc, s, batch) && t.table == s.table
    ensures Unskipped(sc, t, batch)
  {
    forall x, y | y in batch && Precedes(sc, t.table, x, y) && Pending(t, x)
      ensures x in batch
    {
      assert Pending(s, x);
    }
  }

  lemma DeliveryKeepsOrder(sc: Scope, s: State, t: State, r: nat)
    requires OrderInv(sc, s) && Inv(t) && At(s, r, Sending) && MovesCursor(s, t, r)
    requires t.log == s.log + [s.passes[r].batch[s.passes[r].pos]] && t.passes[r].pos == s.passes[r].pos
    ensures OrderInv(sc, t)
  {
    DeliveryKeepsLog(sc, s, t, r);
    DeliveryKeepsPasses(sc, s, t, r);
    assert forall x, y :: Precedes(sc, t.table, x, y) && t.table[y].published ==> t.table[x].published;
    forall q | q in t.passes ensures PassInOrder(sc, t, t.passes[q]) {
      assert PassInOrder(sc, s, s.passes[q]);
      UnskippedFrame(sc, s, t, s.passes[q].batch);
    }
  }

  /** Moving a cursor without delivering keeps the order. */
  lemma QuietMove(sc: Scope, s: State, t: State, r: nat)
    requires OrderInv(sc, s) && Inv(t) && MovesCursor(s, t, r) && t.log == s.log
    requires Sent(t.passes[r]) <= Sent(s.passes[r])
    ensures OrderInv(sc, t)
  {
    assert Ordered(sc, t);
    forall q | q in t.passes ensures PassInOrder(sc, t, t.passes[q]) {
      assert PassInOrder(sc, s, s.passes[q]);
      UnskippedFrame(sc, s, t, s.passes[q].batch);
    }
  }

  /** What a cursor step does, seen from the log. */
  lemma CursorSteps(s: State, a: Step)
    requires Enabled(s, a) && IsCursorStep(a)
    ensures var t, p := Apply(s, a), s.passes[a.r];
            && a.r in t.passes
            && (t.log == s.log ==> Sent(t.passes[a.r]) <= Sent(p))
            && (t.log != s.log ==>
                  At(s, a.r, Sending) && t.log == s.log + [p.batch[p.pos]] && t.passes[a.r].pos == p.pos)
  {
    var t, p := Apply(s, a), s.passes[a.r];
    if a.SendOk? { assert |t.log| == |s.log| + 1; }
  }

  lemma CursorKeepsOrder(sc: Scope, s: State, a: Step)
    requires OrderInv(sc, s) && Enabled(s, a) && IsCursorStep(a)
    ensures OrderInv(sc, Apply(s, a))
  {
    CursorKeepsInv(s, a);
    CursorSteps(s, a);
    if Apply(s, a).log != s.log {
      DeliveryKeepsOrder(sc, s, Apply(s, a), a.r);
    } else {
      QuietMove(sc, s, Apply(s, a), a.r);
    }
  }

  /** One row after a commit: unchanged but for its marks, and published if it was or was sent. */
  lemma CommitRow(s: State, p: Pass, id: nat)
    requires PassInv(s, p) && id in s.table
    ensures var u := s.table + p.writes;
            && u[id].msg == s.table[id].msg
            && (u[id].published <==> s.table[id].published || id in p.batch[..p.pos])
  {
    if id in p.writes {
      var j :| 0 <= j < |p.batch| && p.batch[j] == id;
      assert Pending(s, p.batch[j]);
      if j < p.pos { assert p.batch[..p.pos][j] == id; }
    }
    if id in p.batch[..p.pos] {
      var j :| 0 <= j < p.pos && p.batch[j] == id;
      assert p.batch[j] in p.writes;
    }
  }

  /** The table after a commit: the same rows in the same order, some of the batch now published. */
  lemma CommitRows(s: State, r: nat)
    requires Inv(s) && Enabled(s, Commit(r))
    ensures var t, p := Apply(s, Commit(r)), s.passes[r];
            && t.table.Keys == s.table.Keys && (forall id :: id in s.table ==> t.table[id].msg == s.table[id].msg)
            && (forall id :: id in s.table ==>
                  (t.table[id].published <==> s.table[id].published || id in p.batch[..p.pos]))
  {
    var p := s.passes[r];
    forall id | id in p.writes ensures id in s.table { assert Pending(s, id); }
    forall id | id in s.table
      ensures var u := s.table + p.writes;
              u[id].msg == s.table[id].msg && (u[id].published <==> s.table[id].published || id in p.batch[..p.pos])
    {
      CommitRow(s, p, id);
    }
  }

  /** A row a pass has sent may be published: everything before it then is. */
  lemma SentMayBePublished(sc: Scope, s: State, p: Pass, x: nat, y: nat)
    requires Increasing(p.batch) && p.pos <= |p.batch| && PassInOrder(sc, s, p)
    requires Precedes(sc, s.table, x, y) && y in p.batch[..p.pos]
    ensures (s.table[x].published || x in p.batch[..p.pos]) && Followed(s.log, x, y)
  {
    var j :| 0 <= j < p.pos && p.batch[j] == y;
    assert Caught(sc, s.table, s.log, p.batch[j]);
    if Pending(s, x) {
      assert y in p.batch;
      var k :| 0 <= k < |p.batch| && p.batch[k] == x;
      assert k < j;
      assert p.batch[..p.pos][k] == x;
    }
  }

  lemma CommitKeepsOrder(sc: Scope, s: State, r: nat)
    requires OrderInv(sc, s) && Enabled(s, Commit(r))
    ensures OrderInv(sc, Apply(s, Commit(r)))
  {
    var t, p := Apply(s, Commit(r)), s.passes[r];
    StepKeepsInv(s, Commit(r));
    CommitRows(s, r);
    assert PassInOrder(sc, s, p) && PassInv(s, p);
    assert forall x, y :: Precedes(sc, t.table, x, y) <==> Precedes(sc, s.table, x, y);
    forall x, y | Precedes(sc, t.table, x, y) && t.table[y].published
      ensures t.table[x].published && Followed(t.log, x, y)
    {
      if !s.table[y].published { SentMayBePublished(sc, s, p, x, y); }
    }
    forall q | q in t.passes ensures PassInOrder(sc, t, t.passes[q]) {
      assert PassInOrder(sc, s, s.passes[q]);
      OthersUnskipped(sc, s, t, s.passes[q]);
    }
  }

  /** Rows that become published, and rows that stay, leave another pass in order. */
  lemma OthersUnskipped(sc: Scope, s: State, t: State, p: Pass)
    requires PassInOrder(sc, s, p) && t.log == s.log && t.table.Keys == s.table.Keys
    requires forall id :: id in s.table ==> t.table[id].msg == s.table[id].msg
    requires forall id :: id in s.table && s.table[id].published ==> t.table[id].published
    ensures PassInOrder(sc, t, p)
  {
    assert forall x, y :: Precedes(sc, t.table, x, y) <==> Precedes(sc, s.table, x, y);
    forall x, y | y in p.batch && Precedes(sc, t.table, x, y) && Pending(t, x)
      ensures x in p.batch
    {
      assert Pending(s, x);
    }
    forall j | 0 <= j < Sent(p) && j < |p.batch| ensures Caught(sc, t.table, t.log, p.batch[j]) {
      assert Caught(sc, s.table, s.log, p.batch[j]);
    }
  }

  /** Passes that come or go leave the rows and the other passes in order. */
  lemma PassesKeepOrder(sc: Scope, s: State, t: State)
    requires OrderInv(sc, s) && Inv(t) && t.table == s.table && t.log == s.log
    requires forall r :: r in t.passes ==>
               || (r in s.passes && t.passes[r] == s.passes[r])
               || (Unskipped(sc, s, t.passes[r].batch) && Sent(t.passes[r]) == 0)
    ensures OrderInv(sc, t)
  {
    assert Ordered(sc, t);
    forall r | r in t.passes ensures PassInOrder(sc, t, t.passes[r]) {
      if r in s.passes && t.passes[r] == s.passes[r] { assert PassInOrder(sc, s, s.passes[r]); }
      UnskippedFrame(sc, s, t, t.passes[r].batch);
    }
  }

  lemma StepKeepsOrder(sc: Scope, s: State, a: Step)
    requires OrderInv(sc, s) && Enabled(s, a) && InOrder(sc, s, a)
    ensures OrderInv(sc, Apply(s, a))
  {
    match a
    case Enqueue(rows) => EnqueueKeepsOrder(sc, s, rows);
    case Claim(r, batch, limit) =>
      StepKeepsInv(s, a);
      PassesKeepOrder(sc, s, Apply(s, a));
    case Commit(r) => CommitKeepsOrder(sc, s, r);
    case Abort(r) =>
      StepKeepsInv(s, a);
      PassesKeepOrder(sc, s, Apply(s, a));
    case _ => CursorKeepsOrder(sc, s, a);
  }

  /** Order over whole runs, for any number of relays whose claims skip nothing they must wait for. */
  lemma {:induction false} RunKeepsOrder(sc: Scope, s: State, steps: seq<Step>)
    requires OrderInv(sc, s) && Legal(s, steps) && OrderedRun(sc, s, steps)
    ensures OrderInv(sc, Run(s, steps))
    decreases |steps|
  {
    if steps != [] {
      StepKeepsOrder(sc, s, steps[0]);
      RunKeepsOrder(sc, Apply(s, steps[0]), steps[1..]);
    }
  }

  // ---- Which claims are safe ----

  /** With no other pass alive, a claim skips nothing. */
  lemma LoneClaimUnskipped(sc: Scope, s: State, batch: seq<nat>, limit: nat)
    requires s.passes == map[] && IsClaim(s, batch, limit)
    ensures Unskipped(sc, s, batch)
  {
    forall x, y | y in batch && Precedes(sc, s.table, x, y) && Pending(s, x) ensures x in batch {
      assert !Locked(s, x);
    }
  }

  /** The run of a single relay: no claim while a pass is alive. */
  ghost predicate OneRelay(sc: Scope, s: State, steps: seq<Step>)
    requires Legal(s, steps)
    decreases |steps|
  {
    steps == [] ||
    (&& (steps[0].Claim? ==> s.passes == map[])
     && (steps[0].Enqueue? ==> VisibleInOrder(sc, s, steps[0].rows))
     && OneRelay(sc, Apply(s, steps[0]), steps[1..]))
  }

  /** One relay keeps per-stream order through every crash, resend and failed commit. */
  lemma {:induction false} OneRelayIsOrdered(sc: Scope, s: State, steps: seq<Step>)
    requires Legal(s, steps) && OneRelay(sc, s, steps)
    ensures OrderedRun(sc, s, steps)
    decreases |steps|
  {
    if steps != [] {
      var a := steps[0];
      if a.Claim? { LoneClaimUnskipped(sc, s, a.batch, a.limit); }
      OneRelayIsOrdered(sc, Apply(s, a), steps[1..]);
    }
  }

  lemma OneRelayTheorem(sc: Scope, steps: seq<Step>)
    requires Legal(Init, steps) && OneRelay(sc, Init, steps)
    ensures var s := Run(Init, steps); PublishedPrefix(sc, s) && FirstInOrder(sc, s) && LastInOrder(sc, s)
  {
    OneRelayIsOrdered(sc, Init, steps);
    RunKeepsOrder(sc, Init, steps);
  }

  /** What a pass looks like apart from the updates it holds. */
  function Cursor(p: Pass): Pass { p.(writes := map[]) }

  lemma SendFirst(s: State, r: nat)
    requires Inv(s) && At(s, r, Sending)
    ensures Enabled(s, SendOk(r))
    ensures var t := Apply(s, SendOk(r));
            && Inv(t) && t.table == s.table && r in t.passes
            && Cursor(t.passes[r]) == Cursor(s.passes[r]).(phase := Marking)
  {
    CursorKeepsInv(s, SendOk(r));
  }

  lemma ThenMark(s: State, r: nat)
    requires Inv(s) && At(s, r, Marking)
    ensures Enabled(s, Mark(r))
    ensures var t := Apply(s, Mark(r));
            && Inv(t) && t.table == s.table && r in t.passes
            && Cursor(t.passes[r]) == Cursor(s.passes[r]).(phase := Sending, pos := s.passes[r].pos + 1)
  {
    assert Pending(s, s.passes[r].batch[s.passes[r].pos]);
    CursorKeepsInv(s, Mark(r));
  }

  lemma OrderedCons(sc: Scope, s: State, a: Step, rest: seq<Step>)
    requires Enabled(s, a) && InOrder(sc, s, a) && Legal(Apply(s, a), rest) && OrderedRun(sc, Apply(s, a), rest)
    ensures Legal(s, [a] + rest) && OrderedRun(sc, s, [a] + rest) && Run(s, [a] + rest) == Run(Apply(s, a), rest)
  {
    RunCons(s, a, rest);
    assert ([a] + rest)[1..] == rest;
  }

  /** Sending and marking one row, before an ordered run. */
  lemma ThenRun(sc: Scope, s: State, r: nat, rest: seq<Step>) returns (all: seq<Step>)
    requires Enabled(s, SendOk(r)) && Enabled(Apply(s, SendOk(r)), Mark(r))
    requires var t := Apply(Apply(s, SendOk(r)), Mark(r)); Legal(t, rest) && OrderedRun(sc, t, rest)
    ensures Legal(s, all) && OrderedRun(sc, s, all)
    ensures Run(s, all) == Run(Apply(Apply(s, SendOk(r)), Mark(r)), rest)
  {
    OrderedCons(sc, Apply(s, SendOk(r)), Mark(r), rest);
    OrderedCons(sc, s, SendOk(r), [Mark(r)] + rest);
    all := [SendOk(r)] + ([Mark(r)] + rest);
  }

  /** Some ordered run of pass `r` alone sends and marks its remaining `n` rows and commits. */
  lemma {:induction false} DrainPublishes(sc: Scope, s: State, r: nat, n: nat) returns (steps: seq<Step>)
    requires Inv(s) && r in s.passes && s.passes[r].phase == Sending
    requires s.passes[r].pos + n == |s.passes[r].batch|
    ensures Legal(s, steps) && OrderedRun(sc, s, steps)
    ensures Publishes(s.table, Run(s, steps).table, s.passes[r].batch)
    decreases n
  {
    if n == 0 {
      CommitPublishes(s, r);
      OrderedCons(sc, s, Commit(r), []);
      steps := [Commit(r)] + [];
    } else {
      SendFirst(s, r);
      ThenMark(Apply(s, SendOk(r)), r);
      var rest := DrainPublishes(sc, Apply(Apply(s, SendOk(r)), Mark(r)), r, n - 1);
      steps := ThenRun(sc, s, r, rest);
    }
  }

  /** After `t`, whatever the relays do within the order rules, everything stays ordered. */
  ghost predicate StaysOrdered(sc: Scope, t: State) {
    forall steps :: Legal(t, steps) && OrderedRun(sc, t, steps) ==> Ordered(sc, Run(t, steps))
  }

  lemma OrderStays(sc: Scope, t: State)
    requires OrderInv(sc, t)
    ensures StaysOrdered(sc, t)
  {
    forall steps | Legal(t, steps) && OrderedRun(sc, t, steps) ensures Ordered(sc, Run(t, steps)) {
      RunKeepsOrder(sc, t, steps);
    }
  }

  lemma SkippedRowBreaksOrder(sc: Scope, t: State, r: nat, x: nat, y: nat)
    requires Inv(t) && r in t.passes && Cursor(t.passes[r]) == Pass(t.passes[r].batch, 0, Sending, map[])
    requires y in t.passes[r].batch && Precedes(sc, t.table, x, y) && Pending(t, x) && x !in t.passes[r].batch
    ensures !StaysOrdered(sc, t)
  {
    var steps := DrainPublishes(sc, t, r, |t.passes[r].batch|);
    assert Precedes(sc, Run(t, steps).table, x, y);
    assert !PublishedPrefix(sc, Run(t, steps)) && !Ordered(sc, Run(t, steps));
  }

  /** Overlapping relays: a claim keeps every continuation ordered if and only if it skips no locked row
      that precedes one it takes.  The condition can be read off the table before the claim. */
  lemma SafeClaims(sc: Scope, s: State, r: nat, batch: seq<nat>, limit: nat)
    requires OrderInv(sc, s) && Enabled(s, Claim(r, batch, limit))
    ensures Unskipped(sc, s, batch) <==> StaysOrdered(sc, Apply(s, Claim(r, batch, limit)))
  {
    var t := Apply(s, Claim(r, batch, limit));
    if Unskipped(sc, s, batch) {
      StepKeepsOrder(sc, s, Claim(r, batch, limit));
      OrderStays(sc, t);
    } else {
      var x, y :| y in batch && Precedes(sc, s.table, x, y) && Pending(s, x) && x !in batch;
      StepKeepsInv(s, Claim(r, batch, limit));
      SkippedRowBreaksOrder(sc, t, r, x, y);
    }
  }

  /** Two unpublished rows, the first held by a live pass of relay 0. */
  function Overlap(m: Message, n: Message): State {
    State(map[1 := NewRow(m), 2 := NewRow(n)], map[0 := Pass([1], 0, Sending, map[])], [])
  }

  lemma OverlapReachable(m: Message, n: Message)
    requires m.id != n.id
    ensures var steps := [Enqueue(map[1 := m, 2 := n]), Claim(0, [1], 1)];
            Legal(Init, steps) && Run(Init, steps) == Overlap(m, n)
  {
    var rows := map[1 := m, 2 := n];
    var s := Apply(Init, Enqueue(rows));
    assert s.table == map[1 := NewRow(m), 2 := NewRow(n)];
    assert IsClaim(s, [1], 1);
    RunCons(s, Claim(0, [1], 1), []);
    RunCons(Init, Enqueue(rows), [Claim(0, [1], 1)]);
  }

  /** The hazard is real: a second relay may then claim the second row, a skipping claim, ... */
  lemma OverlappingRelaysSkip(sc: Scope, m: Message, n: Message)
    requires Related(sc, m, n)
    ensures Enabled(Overlap(m, n), Claim(1, [2], 1)) && !Unskipped(sc, Overlap(m, n), [2])
  {
    var s := Overlap(m, n);
    assert 1 in s.passes[0].batch;
    assert Locked(s, 1) && !Locked(s, 2);
    assert Precedes(sc, s.table, 1, 2) && Pending(s, 1);
  }

  /** ... and deliver it first. */
  lemma OverlappingRelaysReorder(sc: Scope, m: Message, n: Message)
    requires Related(sc, m, n)
    ensures var t := Apply(Overlap(m, n), Claim(1, [2], 1));
            Enabled(t, SendOk(1)) && !FirstInOrder(sc, Apply(t, SendOk(1)))
  {
    var u := Apply(Apply(Overlap(m, n), Claim(1, [2], 1)), SendOk(1));
    assert u.log == [2];
    assert Precedes(sc, u.table, 1, u.log[0]);
  }

  // ---- Last-writer-wins consumers converge ----

  /** The state of a consumer that keeps the last message of every slot, after reading `ms`. */
  function View<K>(ms: seq<Message>, slot: Message -> K): map<K, Message> {
    if ms == [] then map[] else View(ms[..|ms| - 1], slot)[slot(ms[|ms| - 1]) := ms[|ms| - 1]]
  }

  /** The index of the last message for slot `k`, or -1. */
  function LastFor<K(==)>(ms: seq<Message>, slot: Message -> K, k: K): (i: int)
    ensures -1 <= i < |ms| && (i >= 0 ==> slot(ms[i]) == k)
    ensures forall j :: i < j < |ms| ==> slot(ms[j]) != k
  {
    if ms == [] then -1
    else if slot(ms[|ms| - 1]) == k then |ms| - 1
    else
      var i := LastFor(ms[..|ms| - 1], slot, k);
      assert forall j :: 0 <= j < |ms| - 1 ==> ms[..|ms| - 1][j] == ms[j];
      i
  }

  /** A last-writer-wins consumer holds the last message of each slot. */
  lemma {:induction false} ViewIsLast<K>(ms: seq<Message>, slot: Message -> K, k: K)
    ensures k in View(ms, slot) <==> LastFor(ms, slot, k) >= 0
    ensures k in View(ms, slot) ==> View(ms, slot)[k] == ms[LastFor(ms, slot, k)]
  {
    if ms != [] { ViewIsLast(ms[..|ms| - 1], slot, k); }
  }

  function Bodies(t: map<nat, Row>, ids: seq<nat>): (ms: seq<Message>)
    requires forall id :: id in ids ==> id in t
    ensures |ms| == |ids| && forall i :: 0 <= i < |ids| ==> ms[i] == t[ids[i]].msg
  {
    seq(|ids|, i requires 0 <= i < |ids| => t[ids[i]].msg)
  }

  predicate AllPublished(s: State) { forall id :: id in s.table ==> s.table[id].published }

  /** `w` is the last writer of slot `k`: the largest row id of that slot. */
  ghost predicate LargestOf<K>(t: map<nat, Row>, slot: Message -> K, k: K, w: nat) {
    w in t && slot(t[w].msg) == k && forall x :: x in t && slot(t[x].msg) == k ==> x <= w
  }

  /** The slot tells which rows are related: messages of one slot are. */
  ghost predicate SlotsAreRelated<K(!new)>(sc: Scope, slot: Message -> K) {
    forall m, n :: slot(m) == slot(n) ==> Related(sc, m, n)
  }

  lemma LastIndex<K>(t: map<nat, Row>, ids: seq<nat>, slot: Message -> K, k: K) returns (i: nat)
    requires (forall id :: id in ids ==> id in t) && k in View(Bodies(t, ids), slot)
    ensures i < |ids| && slot(t[ids[i]].msg) == k && View(Bodies(t, ids), slot)[k] == t[ids[i]].msg
    ensures forall j :: i < j < |ids| ==> slot(t[ids[j]].msg) != k
  {
    var a := Bodies(t, ids);
    ViewIsLast(a, slot, k);
    i := LastFor(a, slot, k);
    forall j | i < j < |ids| ensures slot(t[ids[j]].msg) != k { assert slot(a[j]) != k; }
  }

  /** After draining, the last delivery of a slot is its largest row. */
  lemma LogEndsWithLargest<K(!new)>(sc: Scope, s: State, slot: Message -> K, k: K)
    requires LastInOrder(sc, s) && AllPublished(s) && (forall id :: id in s.log ==> id in s.table)
    requires SlotsAreRelated(sc, slot) && k in View(Bodies(s.table, s.log), slot)
    ensures exists w :: LargestOf(s.table, slot, k, w) && View(Bodies(s.table, s.log), slot)[k] == s.table[w].msg
  {
    var i := LastIndex(s.table, s.log, slot, k);
    forall x | x in s.table && slot(s.table[x].msg) == k ensures x <= s.log[i] {
      assert x !in s.log[i + 1..];
      assert !Followed(s.log, s.log[i], x);
      assert Related(sc, s.table[s.log[i]].msg, s.table[x].msg);
      assert !Precedes(sc, s.table, s.log[i], x);
    }
    assert LargestOf(s.table, slot, k, s.log[i]);
  }

  lemma CleanEndsWithLargest<K>(t: map<nat, Row>, asc: seq<nat>, slot: Message -> K, k: K)
    requires Increasing(asc) && (forall id :: id in asc <==> id in t) && k in View(Bodies(t, asc), slot)
    ensures exists w :: LargestOf(t, slot, k, w) && View(Bodies(t, asc), slot)[k] == t[w].msg
  {
    var j := LastIndex(t, asc, slot, k);
    forall x | x in t && slot(t[x].msg) == k ensures x <= asc[j] {
      var l :| 0 <= l < |asc| && asc[l] == x;
      assert l <= j;
    }
    assert LargestOf(t, slot, k, asc[j]);
  }

  lemma ViewCovers<K>(t: map<nat, Row>, ids: seq<nat>, slot: Message -> K, k: K)
    requires forall id :: id in ids <==> id in t
    ensures k in View(Bodies(t, ids), slot) <==> exists id :: id in t && slot(t[id].msg) == k
  {
    var a := Bodies(t, ids);
    ViewIsLast(a, slot, k);
    if k in View(a, slot) { assert ids[LastFor(a, slot, k)] in t; }
    if id :| id in t && slot(t[id].msg) == k {
      assert id in ids;
      var i :| 0 <= i < |ids| && ids[i] == id;
      assert slot(a[i]) == k;
    }
  }

  /** One slot after draining, read from the log and read in id order. */
  lemma SlotConverges<K(!new)>(sc: Scope, s: State, asc: seq<nat>, slot: Message -> K, k: K)
    requires LastInOrder(sc, s) && AllPublished(s) && SlotsAreRelated(sc, slot)
    requires forall id :: id in s.log <==> id in s.table
    requires Increasing(asc) && forall id :: id in asc <==> id in s.table
    ensures var a, b := View(Bodies(s.table, s.log), slot), View(Bodies(s.table, asc), slot);
            (k in a <==> k in b) && (k in a ==> a[k] == b[k])
  {
    ViewCovers(s.table, s.log, slot, k);
    ViewCovers(s.table, asc, slot, k);
    if k in View(Bodies(s.table, s.log), slot) {
      LogEndsWithLargest(sc, s, slot, k);
      CleanEndsWithLargest(s.table, asc, slot, k);
    }
  }

  /** Once the outbox is drained, whatever was resent on the way, a last-writer-wins consumer is where one
      clean delivery in outbox order would have left it, for every slot whose rows keep their order. */
  lemma ReplayConverges<K(!new)>(sc: Scope, s: State, asc: seq<nat>, slot: Message -> K)
    requires OrderInv(sc, s) && AllPublished(s) && SlotsAreRelated(sc, slot)
    requires Increasing(asc) && forall id :: id in asc <==> id in s.table
    ensures View(Bodies(s.table, s.log), slot) == View(Bodies(s.table, asc), slot)
  {
    var a, b := View(Bodies(s.table, s.log), slot), View(Bodies(s.table, asc), slot);
    assert forall id :: id in s.log <==> id in s.table;
    forall k ensures (k in a <==> k in b) && (k in a ==> a[k] == b[k]) { SlotConverges(sc, s, asc, slot, k); }
  }

  /** In particular with one relay: the end of every drained run, whatever sends, marks and commits failed. */
  lemma OneRelayConverges<K(!new)>(sc: Scope, steps: seq<Step>, asc: seq<nat>, slot: Message -> K)
    requires Legal(Init, steps) && OneRelay(sc, Init, steps) && AllPublished(Run(Init, steps))
    requires Increasing(asc) && (forall id :: id in asc <==> id in Run(Init, steps).table) && SlotsAreRelated(sc, slot)
    ensures forall id :: id in Run(Init, steps).log ==> id in Run(Init, steps).table
    ensures var s := Run(Init, steps); View(Bodies(s.table, s.log), slot) == View(Bodies(s.table, asc), slot)
  {
    OneRelayIsOrdered(sc, Init, steps);
    RunKeepsOrder(sc, Init, steps);
    ReplayConverges(sc, Run(Init, steps), asc, slot);
  }

  // ---- Readers that key by path alone ----

  /** Paths cross streams: a path-only slot needs related rows to be those of one path. */
  lemma PathSlotsAreRelated()
    ensures SlotsAreRelated(Paths, PathSlot)
  {
  }

  lemma {:induction false} OneRelaySnoc(sc: Scope, s: State, steps: seq<Step>, a: Step)
    requires Legal(s, steps) && OneRelay(sc, s, steps) && Enabled(Run(s, steps), a)
    requires (a.Claim? ==> Run(s, steps).passes == map[]) && (a.Enqueue? ==> VisibleInOrder(sc, Run(s, steps), a.rows))
    ensures Legal(s, steps + [a]) && OneRelay(sc, s, steps + [a]) && Run(s, steps + [a]) == Apply(Run(s, steps), a)
    decreases |steps|
  {
    if steps == [] {
      assert ([] + [a])[1..] == [];
    } else {
      OneRelaySnoc(sc, Apply(s, steps[0]), steps[1..], a);
      assert (steps + [a])[1..] == steps[1..] + [a];
    }
  }

  function Delivered(m: Message): Row { Row(m, true, 1, false) }

  /** The only pending row, just stored, is claimed, sent, marked and committed. */
  lemma DeliverOne(sc: Scope, before: seq<Step>, id: nat, m: Message) returns (steps: seq<Step>)
    requires Legal(Init, before) && OneRelay(sc, Init, before)
    requires var s := Run(Init, before);
             s.passes == map[] && id in s.table && s.table[id] == NewRow(m) && forall x :: Pending(s, x) ==> x == id
    ensures Legal(Init, steps) && OneRelay(sc, Init, steps)
    ensures var s := Run(Init, before);
            Run(Init, steps) == State(s.table[id := Delivered(m)], map[], s.log + [id])
  {
    var s := Run(Init, before);
    assert IsClaim(s, [id], 1);
    OneRelaySnoc(sc, Init, before, Claim(0, [id], 1));
    steps := before + [Claim(0, [id], 1)];
    var p := Pass([id], 0, Sending, map[]);
    assert Run(Init, steps) == State(s.table, map[0 := p], s.log);
    OneRelaySnoc(sc, Init, steps, SendOk(0));
    steps := steps + [SendOk(0)];
    assert Run(Init, steps) == State(s.table, map[0 := p.(phase := Marking)], s.log + [id]);
    OneRelaySnoc(sc, Init, steps, Mark(0));
    steps := steps + [Mark(0)];
    assert Run(Init, steps) == State(s.table, map[0 := Pass([id], 1, Sending, map[id := Delivered(m)])], s.log + [id]);
    OneRelaySnoc(sc, Init, steps, Commit(0));
    steps := steps + [Commit(0)];
    assert Run(Init, steps).passes == map[];
  }

  lemma LastOneWins(m: Message, n: Message)
    requires PathSlot(m) == PathSlot(n)
    ensures View([n, m], PathSlot)[PathSlot(m)] == m && View([m, n], PathSlot)[PathSlot(m)] == n
  {
    assert [n, m][..1] == [n] && [m, n][..1] == [m] && [n][..0] == [] && [m][..0] == [];
  }

  lemma StoreOne(before: seq<Step>, id: nat, m: Message) returns (steps: seq<Step>)
    requires Legal(Init, before) && OneRelay(Streams, Init, before)
    requires var s := Run(Init, before);
             && s.passes == map[] && id !in s.table && FreshIds(s, map[id := m])
             && VisibleInOrder(Streams, s, map[id := m]) && forall x :: !Pending(s, x)
    ensures Legal(Init, steps) && OneRelay(Streams, Init, steps)
    ensures var s := Run(Init, before); Run(Init, steps) == State(s.table[id := Delivered(m)], map[], s.log + [id])
  {
    var s := Run(Init, before);
    OneRelaySnoc(Streams, Init, before, Enqueue(map[id := m]));
    steps := before + [Enqueue(map[id := m])];
    assert Run(Init, steps) == State(s.table[id := NewRow(m)], map[], s.log);
    forall x | Pending(Run(Init, steps), x) ensures x == id { assert !Pending(s, x); }
    steps := DeliverOne(Streams, steps, id, m);
  }

  /** Rows of one path in two streams may become visible against their ids.  Then even one relay leaves a path-only
      reader with the row of the lower id, where delivery in id order would have left the other. */
  lemma PathOnlyReadersDiverge(m: Message, n: Message) returns (steps: seq<Step>)
    requires PathSlot(m) == PathSlot(n) && m.key != n.key && m.id != n.id
    ensures Legal(Init, steps) && OneRelay(Streams, Init, steps)
    ensures Run(Init, steps) == State(map[2 := Delivered(n), 1 := Delivered(m)], map[], [2, 1])
    ensures View([n, m], PathSlot)[PathSlot(m)] == m && View([m, n], PathSlot)[PathSlot(m)] == n
  {
    LastOneWins(m, n);
    steps := StoreOne([], 2, n);
    assert Run(Init, steps) == State(map[2 := Delivered(n)], map[], [2]);
    steps := StoreOne(steps, 1, m);
  }
}
