/** One relay pass as the code runs it, proved to be a run of the step system of module `Outbox`. */
module Relay {
  import opened Base
  import opened Messages
  import opened Outbox

  datatype Reply = Accepted | Refused | RefusedButDelivered

  /** What the sink and the database answer during one pass: the sink's reply to each send, the send
      after which marking fails (if any), whether the failure note is written, whether the commit takes effect, and
      whether a commit that takes effect is reported as a success. */
  datatype Weather = Weather(
    replies: seq<Reply>, markFailsAt: Option<nat>, noteWritten: bool, commits: bool, reported: bool)

  function ReplyTo(w: Weather, k: nat): Reply { if k < |w.replies| then w.replies[k] else Accepted }

  predicate Trouble(w: Weather, k: nat) { ReplyTo(w, k) != Accepted || w.markFailsAt == Some(k) }

  /** How many of the first `n` rows are sent and marked before the first trouble. */
  function Smooth(w: Weather, n: nat): (k: nat)
    ensures k <= n
  {
    if n == 0 then 0
    else
      var k := Smooth(w, n - 1);
      if k == n - 1 && !Trouble(w, k) then n else k
  }

  function Marked(row: Row): Row { row.(published := true, attempts := row.attempts + 1, failed := false) }

  function Noted(row: Row): Row { row.(attempts := row.attempts + 1, failed := true) }

  /** What the broker has of the row that ends a pass: the row, unless its send was refused for good. */
  function Left(rows: seq<nat>, k: nat, w: Weather): seq<nat>
    requires k < |rows|
  {
    if k < |w.replies| && w.replies[k] == Refused then [] else [rows[k]]
  }

  /** What the broker has of a pass: the rows before the first trouble, and what was left of that one. */
  function Gone(rows: seq<nat>, k: nat, w: Weather): seq<nat>
    requires k <= |rows|
  {
    rows[..k] + if k < |rows| then Left(rows, k, w) else []
  }

  /** The updates a pass holds once it has sent and marked `ids`. */
  function Held(t: map<nat, Row>, ids: seq<nat>): map<nat, Row> { map id | id in ids && id in t :: Marked(t[id]) }

  lemma HeldNext(t: map<nat, Row>, rows: seq<nat>, k: nat)
    requires k < |rows| && rows[k] in t
    ensures Held(t, rows[..k + 1]) == Held(t, rows[..k])[rows[k] := Marked(t[rows[k]])]
  {
    TakeNext(rows, k);
  }

  function WithNote(t: map<nat, Row>, held: map<nat, Row>, id: nat): map<nat, Row> {
    if id in t then held[id := Noted(t[id])] else held
  }

  /** The updates held when the pass ends: a refused send adds a note on its row, if that can be written. */
  function HeldAtEnd(t: map<nat, Row>, rows: seq<nat>, w: Weather): map<nat, Row> {
    var k := Smooth(w, |rows|);
    if k < |rows| && w.noteWritten then WithNote(t, Held(t, rows[..k]), rows[k]) else Held(t, rows[..k])
  }

  /** Whether the pass commits: a failed mark or a failed commit loses all of its updates. */
  predicate Kept(w: Weather, n: nat) { w.commits && (Smooth(w, n) < n ==> ReplyTo(w, Smooth(w, n)) != Accepted) }

  /** The table after a pass over `rows`. */
  function TableAfter(t: map<nat, Row>, rows: seq<nat>, w: Weather): map<nat, Row> {
    if Kept(w, |rows|) then t + HeldAtEnd(t, rows, w) else t
  }

  /** The first trouble is the first row whose send is not accepted or whose mark fails. */
  lemma {:induction false} SmoothIsLeast(w: Weather, n: nat)
    ensures var k := Smooth(w, n);
            && (forall j :: 0 <= j < k ==> (j < |w.replies| ==> w.replies[j] == Accepted) && w.markFailsAt != Some(j))
            && (k < n ==> (k < |w.replies| && w.replies[k] != Accepted) || w.markFailsAt == Some(k))
  {
    if n > 0 { SmoothIsLeast(w, n - 1); }
  }

  lemma HeldExactly(t: map<nat, Row>, rows: seq<nat>, w: Weather, k: nat)
    requires Increasing(rows) && (forall id :: id in rows ==> id in t) && k == Smooth(w, |rows|)
    ensures var h := HeldAtEnd(t, rows, w);
            && (forall id :: id in rows[..k] ==> id in h && h[id] == Row(t[id].msg, true, t[id].attempts + 1, false))
            && (k < |rows| && w.noteWritten ==>
                  rows[k] in h && h[rows[k]] == t[rows[k]].(attempts := t[rows[k]].attempts + 1, failed := true))
            && (forall id :: id in h ==> id in rows[..k] || (k < |rows| && w.noteWritten && id == rows[k]))
  {
    if k < |rows| { assert rows[k] in rows && rows[k] !in rows[..k]; }
  }

  /** What a pass leaves, from the replies alone.  Let `k` be the first row whose send is not accepted or whose mark
      fails, or the number of rows.  If the mark is what failed, or the commit does, nothing changes.  Otherwise exactly
      the rows before `k` are published, each with one attempt more; the refused row, if noted, has one attempt more and
      is failed; everything else stays. */
  lemma PassPublishesExactly(t: map<nat, Row>, rows: seq<nat>, w: Weather, k: nat)
    requires Increasing(rows) && forall id :: id in rows ==> id in t && !t[id].published
    requires k <= |rows|
    requires forall j :: 0 <= j < k ==> (j < |w.replies| ==> w.replies[j] == Accepted) && w.markFailsAt != Some(j)
    requires k < |rows| ==> (k < |w.replies| && w.replies[k] != Accepted) || w.markFailsAt == Some(k)
    ensures var u := TableAfter(t, rows, w);
            if !w.commits || (k < |rows| && (k < |w.replies| ==> w.replies[k] == Accepted)) then u == t
            else
              && u.Keys == t.Keys
              && forall id :: id in t ==>
                   u[id] == if id in rows[..k] then Row(t[id].msg, true, t[id].attempts + 1, false)
                            else if k < |rows| && id == rows[k] && w.noteWritten then
                              t[id].(attempts := t[id].attempts + 1, failed := true)
                            else t[id]
  {
    SmoothIsLeast(w, |rows|);
    HeldExactly(t, rows, w, k);
    if k < |rows| { assert rows[k] in rows && rows[k] !in rows[..k]; }
  }

  /** A pass whose mark fails after an accepted send changes nothing but what the broker has. */
  lemma PassIsExplained(t: map<nat, Row>, rows: seq<nat>, w: Weather, before: seq<nat>)
    ensures var k := Smooth(w, |rows|);
            && (forall j :: 0 <= j < k ==> (j < |w.replies| ==> w.replies[j] == Accepted) && w.markFailsAt != Some(j))
            && (k < |rows| ==> (k < |w.replies| && w.replies[k] != Accepted) || w.markFailsAt == Some(k))
            && (k < |rows| && (k < |w.replies| ==> w.replies[k] == Accepted) ==>
                  TableAfter(t, rows, w) == t && before + Gone(rows, k, w) == before + rows[..k + 1])
            && (k == |rows| ==> before + Gone(rows, k, w) == before + rows)
  {
    var k := Smooth(w, |rows|);
    SmoothIsLeast(w, |rows|);
    if k < |rows| { TakeNext(rows, k); } else { GoneAll(before, rows, w); }
  }

  lemma {:induction false} RunSnoc(s: State, steps: seq<Step>, a: Step)
    requires Legal(s, steps) && Enabled(Run(s, steps), a)
    ensures Legal(s, steps + [a]) && Run(s, steps + [a]) == Apply(Run(s, steps), a)
    decreases |steps|
  {
    if steps == [] {
      RunCons(s, a, []);
      assert steps + [a] == [a] + [];
    } else {
      RunSnoc(Apply(s, steps[0]), steps[1..], a);
      RunCons(s, steps[0], steps[1..] + [a]);
      assert steps + [a] == [steps[0]] + (steps[1..] + [a]);
    }
  }

  lemma RunSnoc2(s: State, steps: seq<Step>, a: Step, b: Step)
    requires Legal(s, steps) && Enabled(Run(s, steps), a) && Enabled(Apply(Run(s, steps), a), b)
    ensures Legal(s, steps + [a, b]) && Run(s, steps + [a, b]) == Apply(Apply(Run(s, steps), a), b)
  {
    RunSnoc(s, steps, a);
    RunSnoc(s, steps + [a], b);
    assert steps + [a] + [b] == steps + [a, b];
  }

  lemma TakeNext(rows: seq<nat>, k: nat)
    requires k < |rows|
    ensures rows[..k + 1] == rows[..k] + [rows[k]]
  {
  }

  lemma TakeAll(rows: seq<nat>)
    ensures rows[..|rows|] == rows
  {
  }

  lemma GoneAt(before: seq<nat>, rows: seq<nat>, k: nat, w: Weather)
    requires k < |rows|
    ensures (before + rows[..k]) + Left(rows, k, w) == before + Gone(rows, k, w)
  {
  }

  lemma GoneAll(before: seq<nat>, rows: seq<nat>, w: Weather)
    ensures before + rows[..|rows|] == before + Gone(rows, |rows|, w) == before + rows
  {
  }

  lemma SentNext(before: seq<nat>, rows: seq<nat>, k: nat)
    requires k < |rows|
    ensures (before + rows[..k]) + [rows[k]] == before + rows[..k + 1]
  {
    TakeNext(rows, k);
  }

  /** The first trouble fixes how the pass ends. */
  lemma {:induction false} TroubleAt(t: map<nat, Row>, rows: seq<nat>, w: Weather, k: nat)
    requires k < |rows| && Smooth(w, k) == k && Trouble(w, k)
    ensures Smooth(w, |rows|) == k
    ensures TableAfter(t, rows, w) ==
              if !w.commits || ReplyTo(w, k) == Accepted then t
              else t + if w.noteWritten then WithNote(t, Held(t, rows[..k]), rows[k]) else Held(t, rows[..k])
  {
    SmoothStops(w, k, |rows|);
  }

  lemma {:induction false} SmoothStops(w: Weather, k: nat, n: nat)
    requires k < n && Smooth(w, k) == k && Trouble(w, k)
    ensures Smooth(w, n) == k
  {
    if n > k + 1 { SmoothStops(w, k, n - 1); }
  }

  /** The world in which `me` holds one pass besides the others. */
  function Among(table: map<nat, Row>, others: map<nat, Pass>, log: seq<nat>, me: nat, p: Pass): State {
    State(table, others[me := p], log)
  }

  /** The steps of a refused send, whatever else is going on. */
  lemma RefusedSend(s0: State, before: seq<Step>, table: map<nat, Row>, others: map<nat, Pass>, log: seq<nat>, me: nat,
                    p: Pass, delivered: bool, written: bool)
    requires Legal(s0, before) && Run(s0, before) == Among(table, others, log, me, p)
    requires p.phase == Sending && p.pos < |p.batch| && p.batch[p.pos] in table
    ensures var id := p.batch[p.pos]; var steps := before + [SendFail(me, delivered), RecordFailure(me, written)];
            var held := if written then p.writes[id := Noted(table[id])] else p.writes;
            && Legal(s0, steps)
            && Run(s0, steps) == Among(table, others, if delivered then log + [id] else log, me,
                                       p.(phase := Closing, writes := held))
  {
    var s, a, b := Run(s0, before), SendFail(me, delivered), RecordFailure(me, written);
    assert Apply(s, a) == Among(table, others, if delivered then log + [p.batch[p.pos]] else log, me,
                                p.(phase := Failing));
    RunSnoc2(s0, before, a, b);
  }

  /** The relay sharing its table and sink with other relays, whose passes are `others`. */
  class OutboxRelay {
    const me: nat
    const batchSize: nat
    var table: map<nat, Row>
    var log: seq<nat>
    var others: map<nat, Pass>
    var nextId: nat  // the id sequence: every row id so far is below it

    constructor (me: nat, batchSize: nat)
      ensures this.me == me && this.batchSize == (if 0 < batchSize then batchSize else 100)
      ensures World() == Init
    {
      this.me := me;
      this.batchSize := if 0 < batchSize then batchSize else 100;
      table, log, others, nextId := map[], [], map[], 0;
    }

    ghost function World(): State
      reads this
    {
      State(table, others, log)
    }

    /** The world while this relay holds `batch`, has dealt with `pos` rows and holds `writes`. */
    ghost function During(batch: seq<nat>, pos: nat, phase: Phase, writes: map<nat, Row>): State
      reads this
    {
      Among(table, others, log, me, Pass(batch, pos, phase, writes))
    }

    /** Scan unpublished, unlocked rows in id order, up to the batch size. */
    method Claim() returns (batch: seq<nat>)
      requires forall id :: id in table ==> id < nextId
      ensures IsClaim(World(), batch, batchSize)
    {
      var s := State(table, others, log);
      batch := [];
      for id := 0 to nextId
        invariant Increasing(batch) && |batch| <= batchSize
        invariant forall x :: x in batch ==> x < id
        invariant forall x :: x in batch ==> Pending(s, x) && !Locked(s, x)
        invariant forall x: nat :: x < id && Pending(s, x) && !Locked(s, x) && x !in batch ==>
                    |batch| == batchSize && forall y :: y in batch ==> y < x
      {
        if |batch| < batchSize && Pending(s, id) && !Locked(s, id) {
          assert forall i :: 0 <= i < |batch| ==> batch[i] in batch;
          batch := batch + [id];
        }
      }
    }

    /** One pass.  Its effect on table and sink is a run of the step system.  It sends and marks the claimed rows in id
        order up to the first trouble, and leaves the table of `TableAfter`. */
    method RelayOnce(w: Weather) returns (published: nat, ok: bool, ghost batch: seq<nat>, ghost steps: seq<Step>)
      requires Inv(World()) && me !in others && 0 < batchSize
      requires forall id :: id in table ==> id < nextId
      modifies this
      ensures others == old(others)
      ensures IsClaim(old(World()), batch, batchSize) && published <= |batch|
      ensures Legal(old(World()), steps) && World() == Run(old(World()), steps) && Inv(World())
      ensures published == Smooth(w, |batch|) && (ok <==> published == |batch| && w.commits && w.reported)
      ensures forall id :: id in batch ==> id in old(table)
      ensures table == TableAfter(old(table), batch, w)
      ensures log == old(log) + Gone(batch, published, w) && (ok ==> log == old(log) + batch)
      ensures forall j :: 0 <= j < published ==>
                (j < |w.replies| ==> w.replies[j] == Accepted) && w.markFailsAt != Some(j)
      ensures published < |batch| ==>
                (published < |w.replies| && w.replies[published] != Accepted) || w.markFailsAt == Some(published)
      ensures published < |batch| && (published < |w.replies| ==> w.replies[published] == Accepted) ==>
                !ok && table == old(table) && log == old(log) + batch[..published + 1]
    {
      var rows := Claim();
      batch := rows;
      ghost var s0 := World();
      ghost var first := Outbox.Claim(me, rows, batchSize);
      RunCons(s0, first, []);
      forall id | id in rows ensures id in table { assert Pending(s0, id); }
      published, ok, steps := Flush(rows, w, s0, [first]);
      RunKeepsInv(s0, steps);
      PassIsExplained(s0.table, rows, w, s0.log);
    }

    method Flush(rows: seq<nat>, w: Weather, ghost s0: State, ghost before: seq<Step>)
      returns (published: nat, ok: bool, ghost steps: seq<Step>)
      requires me !in others && forall id :: id in rows ==> id in table
      requires Legal(s0, before) && Run(s0, before) == During(rows, 0, Sending, map[])
      modifies this
      ensures others == old(others)
      ensures published == Smooth(w, |rows|) && (ok <==> published == |rows| && w.commits && w.reported)
      ensures log == old(log) + Gone(rows, published, w)
      ensures Legal(s0, steps) && World() == Run(s0, steps)
      ensures table == TableAfter(old(table), rows, w)
    {
      var writes;
      published, ok, writes, steps := SendAll(rows, w, s0, before);
      assert rows[..|rows|] == rows;
      if ok {
        steps := Finish(rows, published, Sending, writes, w.commits, s0, steps);
        ok := w.commits && w.reported;
      }
    }

    /** Send and mark the rows one at a time, in id order, up to the first failure, which ends the pass. */
    method SendAll(rows: seq<nat>, w: Weather, ghost s0: State, ghost before: seq<Step>)
      returns (published: nat, ok: bool, writes: map<nat, Row>, ghost steps: seq<Step>)
      requires me !in others && forall id :: id in rows ==> id in table
      requires Legal(s0, before) && Run(s0, before) == During(rows, 0, Sending, map[])
      modifies this
      ensures others == old(others) && published == Smooth(w, |rows|) && Legal(s0, steps)
      ensures (ok <==> published == |rows|) && log == old(log) + Gone(rows, published, w)
      ensures !ok ==> World() == Run(s0, steps) && table == TableAfter(old(table), rows, w)
      ensures ok ==> table == old(table) && writes == Held(table, rows)
      ensures ok ==> Run(s0, steps) == During(rows, published, Sending, writes)
    {
      published, ok, steps, writes := 0, true, before, map[];
      while published < |rows|
        invariant ok && published <= |rows| && table == old(table) && others == old(others)
        invariant log == old(log) + rows[..published]
        invariant writes == Held(table, rows[..published]) && Smooth(w, published) == published
        invariant Legal(s0, steps) && Run(s0, steps) == During(rows, published, Sending, writes)
      {
        ok, writes, steps := SendRow(rows, published, writes, w, s0, steps);
        GoneAt(old(log), rows, published, w);
        if !ok { return; }
        SentNext(old(log), rows, published);
        published := published + 1;
      }
      TakeAll(rows);
      GoneAll(old(log), rows, w);
    }

    /** Send one row and mark it; a failure of either ends the pass. */
    method SendRow(rows: seq<nat>, pos: nat, writes: map<nat, Row>, w: Weather, ghost s0: State,
                   ghost before: seq<Step>)
      returns (ok: bool, held: map<nat, Row>, ghost steps: seq<Step>)
      requires me !in others && pos < |rows| && forall id :: id in rows ==> id in table
      requires writes == Held(table, rows[..pos]) && Smooth(w, pos) == pos
      requires Legal(s0, before) && Run(s0, before) == During(rows, pos, Sending, writes)
      modifies this
      ensures others == old(others) && Legal(s0, steps)
      ensures ok ==> table == old(table) && log == old(log) + [rows[pos]] && held == Held(table, rows[..pos + 1])
      ensures ok ==> Run(s0, steps) == During(rows, pos + 1, Sending, held) && Smooth(w, pos + 1) == pos + 1
      ensures !ok ==> log == old(log) + Left(rows, pos, w) && World() == Run(s0, steps)
      ensures !ok ==> Smooth(w, |rows|) == pos && table == TableAfter(old(table), rows, w)
    {
      assert rows[pos] in rows;
      var reply := if pos < |w.replies| then w.replies[pos] else Accepted;
      if reply != Accepted {
        TroubleAt(table, rows, w, pos);
        steps := FailRow(rows, pos, writes, reply, w, s0, before);
        return false, writes, steps;
      }
      if w.markFailsAt == Some(pos) {
        TroubleAt(table, rows, w, pos);
        steps := LoseMark(rows, pos, writes, s0, before);
        return false, writes, steps;
      }
      HeldNext(table, rows, pos);
      held, steps := SendAndMark(rows, pos, writes, s0, before);
      ok := true;
    }

    method SendAndMark(rows: seq<nat>, pos: nat, writes: map<nat, Row>, ghost s0: State, ghost before: seq<Step>)
      returns (held: map<nat, Row>, ghost steps: seq<Step>)
      requires me !in others && pos < |rows| && rows[pos] in table
      requires Legal(s0, before) && Run(s0, before) == During(rows, pos, Sending, writes)
      modifies this`log
      ensures log == old(log) + [rows[pos]]
      ensures held == writes[rows[pos] := Marked(table[rows[pos]])]
      ensures Legal(s0, steps) && Run(s0, steps) == During(rows, pos + 1, Sending, held)
    {
      var id := rows[pos];
      RunSnoc2(s0, before, SendOk(me), Mark(me));
      steps := before + [SendOk(me), Mark(me)];
      log := log + [id];
      var row := table[id];
      held := writes[id := row.(published := true, attempts := row.attempts + 1, failed := false)];
    }

    /** A refused send ends the pass: it is noted on the row, and what was already sent is committed. */
    method FailRow(rows: seq<nat>, pos: nat, writes: map<nat, Row>, reply: Reply, w: Weather,
                   ghost s0: State, ghost before: seq<Step>)
      returns (ghost steps: seq<Step>)
      requires me !in others && pos < |rows| && rows[pos] in table && reply != Accepted
      requires Legal(s0, before) && Run(s0, before) == During(rows, pos, Sending, writes)
      modifies this
      ensures others == old(others)
      ensures log == if reply == RefusedButDelivered then old(log) + [rows[pos]] else old(log)
      ensures table == if !w.commits then old(table)
                       else old(table) +
                              if w.noteWritten then writes[rows[pos] := Noted(old(table)[rows[pos]])] else writes
      ensures Legal(s0, steps) && World() == Run(s0, steps)
    {
      var id, delivered := rows[pos], reply == RefusedButDelivered;
      RefusedSend(s0, before, table, others, log, me, Pass(rows, pos, Sending, writes), delivered, w.noteWritten);
      steps := before + [SendFail(me, delivered), RecordFailure(me, w.noteWritten)];
      if delivered { log := log + [id]; }
      var row := table[id];
      var held := if w.noteWritten then writes[id := row.(attempts := row.attempts + 1, failed := true)] else writes;
      steps := Finish(rows, pos, Closing, held, w.commits, s0, steps);
    }

    /** A failed mark rolls the whole pass back, though the row is already sent. */
    method LoseMark(rows: seq<nat>, pos: nat, writes: map<nat, Row>, ghost s0: State, ghost before: seq<Step>)
      returns (ghost steps: seq<Step>)
      requires me !in others && pos < |rows|
      requires Legal(s0, before) && Run(s0, before) == During(rows, pos, Sending, writes)
      modifies this`log
      ensures log == old(log) + [rows[pos]]
      ensures Legal(s0, steps) && World() == Run(s0, steps)
    {
      RunSnoc2(s0, before, SendOk(me), Abort(me));
      steps := before + [SendOk(me), Abort(me)];
      log := log + [rows[pos]];
      assert others[me := Pass(rows, pos, Marking, writes)] - {me} == others;
    }

    /** Commit the pass's updates, or lose them. */
    method Finish(rows: seq<nat>, pos: nat, phase: Phase, writes: map<nat, Row>, commits: bool,
                  ghost s0: State, ghost before: seq<Step>)
      returns (ghost steps: seq<Step>)
      requires me !in others
      requires Legal(s0, before) && Run(s0, before) == During(rows, pos, phase, writes)
      requires phase == Closing || (phase == Sending && pos == |rows|)
      modifies this`table
      ensures table == if commits then old(table) + writes else old(table)
      ensures Legal(s0, steps) && World() == Run(s0, steps)
    {
      assert others[me := Pass(rows, pos, phase, writes)] - {me} == others;
      RunSnoc(s0, before, if commits then Commit(me) else Abort(me));
      steps := before + [if commits then Commit(me) else Abort(me)];
      if commits { table := table + writes; }
    }
  }
}
