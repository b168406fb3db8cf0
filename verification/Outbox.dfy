/** The transactional outbox and its relays, as a crash-prone step system over any number of relays.

    A row is identified by its outbox id.  `log` lists the ids in the order the broker accepted them,
    so a row appears once per delivery. */
module Outbox {
  import opened Base
  import opened Messages

  datatype Row = Row(msg: Message, published: bool, attempts: nat, failed: bool)

  /** Where a pass stands on the row at its cursor: about to send it, sent and about to mark it,
      refused by the sink and about to record that, or done and about to commit. */
  datatype Phase = Sending | Marking | Failing | Closing

  /** One live relay pass: its locked batch, its cursor, and the updates its transaction holds. */
  datatype Pass = Pass(batch: seq<nat>, pos: nat, phase: Phase, writes: map<nat, Row>)

  datatype State = State(table: map<nat, Row>, passes: map<nat, Pass>, log: seq<nat>)

  datatype Step =
    | Enqueue(rows: map<nat, Message>)         // a use case commits; its rows become visible
    | Claim(r: nat, batch: seq<nat>, limit: nat)
    | SendOk(r: nat)
    | SendFail(r: nat, delivered: bool)        // an error reply, though the broker may have the message
    | Mark(r: nat)
    | RecordFailure(r: nat, written: bool)     // the failure note itself may not be written
    | Commit(r: nat)
    | Abort(r: nat)                            // crash, failed mark, failed commit: the pass rolls back

  const Init := State(map[], map[], [])

  predicate Locked(s: State, id: nat) {
    exists r :: r in s.passes && id in s.passes[r].batch
  }

  predicate Pending(s: State, id: nat) {
    id in s.table && !s.table[id].published
  }

  /** What `ORDER BY id LIMIT n FOR UPDATE SKIP LOCKED` returns: the first `limit` unpublished,
      unlocked rows, in id order. */
  ghost predicate IsClaim(s: State, batch: seq<nat>, limit: nat) {
    && Increasing(batch)
    && |batch| <= limit
    && (forall id :: id in batch ==> Pending(s, id) && !Locked(s, id))
    && (forall id :: Pending(s, id) && !Locked(s, id) && id !in batch ==>
          |batch| == limit && forall y :: y in batch ==> y < id)
  }

  predicate SameStream(a: Message, b: Message) {
    a.topic == b.topic && a.key == b.key
  }

  /** What a reader that keys integration messages by path alone keeps one entry for. */
  function PathSlot(m: Message): (Topic, string) { (m.topic, if m.body.PlanLine? then m.body.line.path else m.key) }

  /** Which rows have to keep their order relative to each other: those of one (topic, key) stream, only the break
      events among them, or those of one path. */
  datatype Scope = Streams | BreakStreams | Paths

  predicate Related(sc: Scope, a: Message, b: Message) {
    match sc
    case Streams => SameStream(a, b)
    case BreakStreams => SameStream(a, b) && IsBreakMessage(a) && IsBreakMessage(b)
    case Paths => PathSlot(a) == PathSlot(b)
  }

  /** `x` comes before `y` in outbox order, and the order of the two matters. */
  predicate Precedes(sc: Scope, t: map<nat, Row>, x: nat, y: nat) {
    x in t && y in t && x < y && Related(sc, t[x].msg, t[y].msg)
  }

  predicate At(s: State, r: nat, phase: Phase) {
    r in s.passes && s.passes[r].phase == phase && s.passes[r].pos < |s.passes[r].batch|
  }

  ghost predicate Enabled(s: State, a: Step) {
    match a
    case Enqueue(rows) => rows.Keys !! s.table.Keys && FreshIds(s, rows)
    case Claim(r, batch, limit) => r !in s.passes && 0 < limit && IsClaim(s, batch, limit)
    case SendOk(r) => At(s, r, Sending)
    case SendFail(r, _) => At(s, r, Sending)
    case Mark(r) => At(s, r, Marking) && s.passes[r].batch[s.passes[r].pos] in s.table
    case RecordFailure(r, _) => At(s, r, Failing) && s.passes[r].batch[s.passes[r].pos] in s.table
    case Commit(r) =>
      && r in s.passes
      && (s.passes[r].phase == Closing
          || (s.passes[r].phase == Sending && s.passes[r].pos == |s.passes[r].batch|))
    case Abort(r) => r in s.passes
  }

  /** Every message is minted with a new id, once, before it is stored. */
  ghost predicate FreshIds(s: State, rows: map<nat, Message>) {
    && (forall i, j :: i in rows && j in rows && i != j ==> rows[i].id != rows[j].id)
    && (forall i, j :: i in rows && j in s.table ==> rows[i].id != s.table[j].msg.id)
  }

  function NewRow(m: Message): Row { Row(m, false, 0, false) }

  function Apply(s: State, a: Step): State
    requires a.Mark? || a.RecordFailure? || a.SendOk? || a.SendFail? ==>
               a.r in s.passes && s.passes[a.r].pos < |s.passes[a.r].batch|
    requires a.Mark? || a.RecordFailure? ==> s.passes[a.r].batch[s.passes[a.r].pos] in s.table
    requires a.Commit? ==> a.r in s.passes
  {
    match a
    case Enqueue(rows) => s.(table := s.table + map id | id in rows :: NewRow(rows[id]))
    case Claim(r, batch, _) => s.(passes := s.passes[r := Pass(batch, 0, Sending, map[])])
    case SendOk(r) =>
      var p := s.passes[r];
      s.(log := s.log + [p.batch[p.pos]], passes := s.passes[r := p.(phase := Marking)])
    case SendFail(r, delivered) =>
      var p := s.passes[r];
      s.(log := if delivered then s.log + [p.batch[p.pos]] else s.log,
         passes := s.passes[r := p.(phase := Failing)])
    case Mark(r) =>
      var p := s.passes[r];
      var id := p.batch[p.pos];
      var row := s.table[id];
      var marked := row.(published := true, attempts := row.attempts + 1, failed := false);
      s.(passes := s.passes[r := p.(pos := p.pos + 1, phase := Sending, writes := p.writes[id := marked])])
    case RecordFailure(r, written) =>
      var p := s.passes[r];
      var id := p.batch[p.pos];
      var row := s.table[id];
      var noted := row.(attempts := row.attempts + 1, failed := true);
      s.(passes := s.passes[r := p.(phase := Closing,
                                    writes := if written then p.writes[id := noted] else p.writes)])
    case Commit(r) => s.(table := s.table + s.passes[r].writes, passes := s.passes - {r})
    case Abort(r) => s.(passes := s.passes - {r})
  }

  /** Every step of `steps` is enabled where it is taken. */
  ghost predicate Legal(s: State, steps: seq<Step>)
    decreases |steps|
  {
    steps == [] || (Enabled(s, steps[0]) && Legal(Apply(s, steps[0]), steps[1..]))
  }

  ghost function Run(s: State, steps: seq<Step>): State
    requires Legal(s, steps)
    decreases |steps|
  {
    if steps == [] then s else Run(Apply(s, steps[0]), steps[1..])
  }

  lemma RunCons(s: State, a: Step, rest: seq<Step>)
    requires Enabled(s, a) && Legal(Apply(s, a), rest)
    ensures Legal(s, [a] + rest) && Run(s, [a] + rest) == Run(Apply(s, a), rest)
  {
    assert ([a] + rest)[1..] == rest;
  }

  // ---- Safety: any number of relays ----

  ghost predicate PassInv(s: State, p: Pass) {
    && Increasing(p.batch)
    && p.pos <= |p.batch|
    && (p.phase == Marking || p.phase == Failing || p.phase == Closing ==> p.pos < |p.batch|)
    && (forall id :: id in p.batch ==> Pending(s, id))
    && (forall id :: id in p.writes ==> id in p.batch && p.writes[id].msg == s.table[id].msg)
    && (forall j :: 0 <= j < p.pos ==>
          p.batch[j] in p.writes && p.writes[p.batch[j]].published && p.batch[j] in s.log)
    && (forall j :: p.pos <= j < |p.batch| && p.batch[j] in p.writes ==> !p.writes[p.batch[j]].published)
    && (p.phase == Marking ==> p.batch[p.pos] in s.log)
  }

  ghost predicate Disjoint(s: State) {
    forall q, r, id :: q in s.passes && r in s.passes && q != r && id in s.passes[q].batch ==> id !in s.passes[r].batch
  }

  ghost predicate UniqueIds(t: map<nat, Row>) {
    forall i, j :: i in t && j in t && i != j ==> t[i].msg.id != t[j].msg.id
  }

  /** No row lost, no phantom delivery, no row in two hands. */
  ghost predicate Inv(s: State) {
    && (forall r :: r in s.passes ==> PassInv(s, s.passes[r]))
    && Disjoint(s)
    && (forall id :: id in s.table && s.table[id].published ==> id in s.log)
    && (forall id :: id in s.log ==> id in s.table)
    && UniqueIds(s.table)
  }

  /** Rows stay, keep their message, and never lose their published mark. */
  ghost predicate Grows(t: map<nat, Row>, u: map<nat, Row>) {
    forall id :: id in t ==> id in u && u[id].msg == t[id].msg && (t[id].published ==> u[id].published)
  }

  /** A pass is unaffected by what happens to rows it does not hold. */
  lemma PassFrame(s: State, t: State, p: Pass)
    requires PassInv(s, p)
    requires forall id :: id in p.batch ==> id in t.table && t.table[id] == s.table[id]
    requires forall id :: id in s.log ==> id in t.log
    ensures PassInv(t, p)
  {
    forall id | id in p.batch ensures Pending(t, id) { assert Pending(s, id); }
  }

  lemma EnqueueKeepsInv(s: State, rows: map<nat, Message>)
    requires Inv(s) && Enabled(s, Enqueue(rows))
    ensures Inv(Apply(s, Enqueue(rows)))
  {
    var t := Apply(s, Enqueue(rows));
    forall r | r in t.passes ensures PassInv(t, t.passes[r]) {
      forall id | id in s.passes[r].batch ensures id in t.table && t.table[id] == s.table[id] { assert Pending(s, id); }
      PassFrame(s, t, s.passes[r]);
    }
  }

  lemma ClaimKeepsInv(s: State, r: nat, batch: seq<nat>, limit: nat)
    requires Inv(s) && Enabled(s, Claim(r, batch, limit))
    ensures Inv(Apply(s, Claim(r, batch, limit)))
  {
    var t := Apply(s, Claim(r, batch, limit));
    forall q | q in t.passes && q != r ensures PassInv(t, t.passes[q]) {
      forall id | id in s.passes[q].batch ensures id in t.table { assert Pending(s, id); }
      PassFrame(s, t, s.passes[q]);
    }
    forall q, id | q in s.passes && id in s.passes[q].batch ensures id !in batch { assert Locked(s, id); }
    forall id | id in batch ensures Pending(t, id) { assert Pending(s, id); }
  }

  predicate IsCursorStep(a: Step) { a.SendOk? || a.SendFail? || a.Mark? || a.RecordFailure? }

  /** A pass stays well formed when its cursor stays, and at most an unpublished note for its row is added. */
  lemma StayingPass(s: State, t: State, p: Pass, p': Pass)
    requires PassInv(s, p) && p.pos < |p.batch| && p.batch[p.pos] in s.table
    requires t.table == s.table && forall id :: id in s.log ==> id in t.log
    requires p'.batch == p.batch && p'.pos == p.pos && (p'.phase == Marking ==> p.batch[p.pos] in t.log)
    requires p'.writes == p.writes
             || exists row: Row :: !row.published && row.msg == s.table[p.batch[p.pos]].msg
                                   && p'.writes == p.writes[p.batch[p.pos] := row]
    ensures PassInv(t, p')
  {
    forall id | id in p.batch ensures Pending(t, id) { assert Pending(s, id); }
  }

  /** Send and record keep the pass that takes them well formed. */
  lemma SendKeepsPass(s: State, a: Step)
    requires Inv(s) && Enabled(s, a) && (a.SendOk? || a.SendFail? || a.RecordFailure?)
    ensures PassInv(Apply(s, a), Apply(s, a).passes[a.r])
  {
    var p := s.passes[a.r];
    assert Pending(s, p.batch[p.pos]);
    StayingPass(s, Apply(s, a), p, Apply(s, a).passes[a.r]);
  }

  /** So does a mark. */
  lemma MarkKeepsPass(s: State, r: nat)
    requires Inv(s) && Enabled(s, Mark(r))
    ensures PassInv(Apply(s, Mark(r)), Apply(s, Mark(r)).passes[r])
  {
    var t, p := Apply(s, Mark(r)), s.passes[r];
    var p' := t.passes[r];
    assert p.batch[p.pos] in p.batch;
    forall id | id in p.batch ensures Pending(t, id) { assert Pending(s, id); }
    forall j | 0 <= j < p'.pos
      ensures p'.batch[j] in p'.writes && p'.writes[p'.batch[j]].published && p'.batch[j] in t.log
    {
      if j < p.pos { assert p.batch[j] in p.writes; }
    }
  }

  /** `t` differs from `s` only in pass `r` (which keeps its batch) and by at most one delivery of a known row. */
  ghost predicate MovesCursor(s: State, t: State, r: nat) {
    && t.table == s.table
    && (t.log == s.log || exists id :: id in s.table && t.log == s.log + [id])
    && r in s.passes && t.passes.Keys == s.passes.Keys
    && (forall q :: q in s.passes ==> t.passes[q].batch == s.passes[q].batch && (q != r ==> t.passes[q] == s.passes[q]))
  }

  lemma CursorLeavesOthers(s: State, t: State, r: nat, q: nat)
    requires MovesCursor(s, t, r) && q in s.passes && q != r && PassInv(s, s.passes[q])
    ensures PassInv(t, t.passes[q])
  {
    forall id | id in s.passes[q].batch ensures id in t.table { assert Pending(s, id); }
    PassFrame(s, t, s.passes[q]);
  }

  lemma CursorFrame(s: State, t: State, r: nat)
    requires Inv(s) && MovesCursor(s, t, r) && PassInv(t, t.passes[r])
    ensures Inv(t)
  {
    forall q | q in t.passes && q != r ensures PassInv(t, t.passes[q]) { CursorLeavesOthers(s, t, r, q); }
    assert Disjoint(t) by {
      forall q, p, id | q in t.passes && p in t.passes && q != p && id in t.passes[q].batch
        ensures id !in t.passes[p].batch
      {
        assert id in s.passes[q].batch;
      }
    }
  }

  lemma CursorMoves(s: State, a: Step)
    requires Enabled(s, a) && IsCursorStep(a) && s.passes[a.r].batch[s.passes[a.r].pos] in s.table
    ensures MovesCursor(s, Apply(s, a), a.r)
  {
  }

  lemma CursorKeepsInv(s: State, a: Step)
    requires Inv(s) && Enabled(s, a) && IsCursorStep(a)
    ensures Inv(Apply(s, a)) && MovesCursor(s, Apply(s, a), a.r)
  {
    assert Pending(s, s.passes[a.r].batch[s.passes[a.r].pos]);
    CursorMoves(s, a);
    if a.Mark? { MarkKeepsPass(s, a.r); } else { SendKeepsPass(s, a); }
    CursorFrame(s, Apply(s, a), a.r);
  }

  lemma CommitKeepsInv(s: State, r: nat)
    requires Inv(s) && Enabled(s, Commit(r))
    ensures Inv(Apply(s, Commit(r))) && Grows(s.table, Apply(s, Commit(r)).table)
  {
    var t := Apply(s, Commit(r));
    var p := s.passes[r];
    forall id | id in p.batch ensures id in s.table { assert Pending(s, id); }
    forall q | q in t.passes ensures PassInv(t, t.passes[q]) {
      forall id | id in s.passes[q].batch ensures id in t.table && t.table[id] == s.table[id] {
        assert Pending(s, id);
        assert id !in p.batch;
      }
      PassFrame(s, t, s.passes[q]);
    }
    forall id | id in t.table && t.table[id].published ensures id in t.log {
      if id in p.writes { var j :| 0 <= j < |p.batch| && p.batch[j] == id; }
    }
    forall id | id in p.writes ensures !s.table[id].published { assert Pending(s, id); }
  }

  lemma AbortKeepsInv(s: State, r: nat)
    requires Inv(s) && Enabled(s, Abort(r))
    ensures Inv(Apply(s, Abort(r)))
  {
    var t := Apply(s, Abort(r));
    forall q | q in t.passes ensures PassInv(t, t.passes[q]) {
      forall id | id in s.passes[q].batch ensures id in t.table { assert Pending(s, id); }
      PassFrame(s, t, s.passes[q]);
    }
  }

  lemma StepKeepsInv(s: State, a: Step)
    requires Inv(s) && Enabled(s, a)
    ensures Inv(Apply(s, a)) && Grows(s.table, Apply(s, a).table)
  {
    match a
    case Enqueue(rows) => EnqueueKeepsInv(s, rows);
    case Claim(r, batch, limit) => ClaimKeepsInv(s, r, batch, limit);
    case Commit(r) => CommitKeepsInv(s, r);
    case Abort(r) => AbortKeepsInv(s, r);
    case _ => CursorKeepsInv(s, a);
  }

  /** No loss and no phantom, for every run of every number of relays: see `Inv`. */
  lemma {:induction false} RunKeepsInv(s: State, steps: seq<Step>)
    requires Inv(s) && Legal(s, steps)
    ensures Inv(Run(s, steps)) && Grows(s.table, Run(s, steps).table)
    decreases |steps|
  {
    if steps != [] {
      StepKeepsInv(s, steps[0]);
      RunKeepsInv(Apply(s, steps[0]), steps[1..]);
    }
  }

  /** No loss and no phantom, spelled out for every run from an empty outbox: what is marked published was delivered, so
      every committed row is still unpublished or delivered; what was delivered was committed; and two live passes hold
      no row in common, nor a published one. */
  lemma NoLossNoPhantom(steps: seq<Step>)
    requires Legal(Init, steps)
    ensures var s := Run(Init, steps);
            && (forall id :: id in s.table ==> !s.table[id].published || id in s.log)
            && (forall id :: id in s.log ==> id in s.table)
            && (forall q, r, id ::
                  q in s.passes && r in s.passes && id in s.passes[q].batch && id in s.passes[r].batch ==>
                  q == r && Pending(s, id))
  {
    RunKeepsInv(Init, steps);
    var s := Run(Init, steps);
    forall q, r, id | q in s.passes && r in s.passes && id in s.passes[q].batch && id in s.passes[r].batch
      ensures q == r && Pending(s, id)
    {
      assert PassInv(s, s.passes[q]);
    }
  }

  /** The rows that are unpublished and unlocked, before a given one. */
  function Waiting(s: State, before: nat): set<nat> {
    set id | id in s.table && !s.table[id].published && id < before
             && forall r :: r in s.passes ==> id !in s.passes[r].batch
  }

  function Elements(ids: seq<nat>): set<nat> { set id | id in ids }

  lemma {:induction false} IncreasingSize(ids: seq<nat>)
    requires Increasing(ids)
    ensures |Elements(ids)| == |ids|
  {
    if ids != [] {
      var n := |ids| - 1;
      IncreasingSize(ids[..n]);
      assert ids[n] !in ids[..n];
      assert Elements(ids) == Elements(ids[..n]) + {ids[n]} by { assert ids == ids[..n] + [ids[n]]; }
    }
  }

  lemma SmallerSize(a: set<nat>, b: set<nat>)
    requires a <= b
    ensures |a| <= |b|
  {
    if a != b { assert b == a + (b - a); }
  }

  lemma WaitsWhen(s: State, id: nat, before: nat)
    ensures id in Waiting(s, before) <==> Pending(s, id) && !Locked(s, id) && id < before
  {
  }

  lemma TakenIsEarly(s: State, batch: seq<nat>, limit: nat, id: nat)
    requires IsClaim(s, batch, limit) && id in batch
    ensures Waiting(s, id) <= Elements(batch) - {id}
  {
    forall x | x in Waiting(s, id) ensures x in Elements(batch) - {id} { WaitsWhen(s, x, id); }
  }

  lemma LeftIsLate(s: State, batch: seq<nat>, limit: nat, id: nat)
    requires IsClaim(s, batch, limit) && id !in batch && Pending(s, id) && !Locked(s, id)
    ensures |batch| == limit && Elements(batch) <= Waiting(s, id)
  {
    forall x | x in batch ensures x in Waiting(s, id) { WaitsWhen(s, x, id); }
  }

  /** A claim is determined by what waits: a row is in it exactly when it waits and fewer than `limit` rows wait before
      it. */
  lemma ClaimExactly(s: State, batch: seq<nat>, limit: nat, id: nat)
    requires IsClaim(s, batch, limit)
    ensures id in batch <==> id in Waiting(s, id + 1) && |Waiting(s, id)| < limit
  {
    IncreasingSize(batch);
    WaitsWhen(s, id, id + 1);
    if id in batch {
      TakenIsEarly(s, batch, limit, id);
      SmallerSize(Waiting(s, id), Elements(batch) - {id});
    } else if Pending(s, id) && !Locked(s, id) {
      LeftIsLate(s, batch, limit, id);
      SmallerSize(Elements(batch), Waiting(s, id));
    }
  }

  /** The published rows after a pass commits all of its batch. */
  ghost predicate Publishes(t: map<nat, Row>, u: map<nat, Row>, batch: seq<nat>) {
    && u.Keys == t.Keys
    && forall id :: id in t ==>
         u[id].msg == t[id].msg && (u[id].published <==> t[id].published || id in batch)
  }

  lemma CommitPublishes(s: State, r: nat)
    requires Inv(s) && r in s.passes && s.passes[r].phase == Sending && s.passes[r].pos == |s.passes[r].batch|
    ensures Enabled(s, Commit(r)) && Publishes(s.table, Apply(s, Commit(r)).table, s.passes[r].batch)
  {
    var p := s.passes[r];
    forall id | id in p.batch ensures id in p.writes && p.writes[id].published && id in s.table {
      var j :| 0 <= j < |p.batch| && p.batch[j] == id;
      assert Pending(s, id);
    }
  }
}
