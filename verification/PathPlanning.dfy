/** Proposing heads for a path: enough for the charge at the rate, then trimmed by the idle share observed. */
module PathPlanning {
  import opened Base
  import opened Messages

  /** What an optional client answered; `Failed` is any error but "no data". */
  datatype Reply = Answer(value: real) | Unavailable | Failed

  datatype Error = ClientFailed | PublishFailed

  datatype RateSource = Caller | Measured

  /** Why heads were trimmed: the share observed for the path, the threshold it exceeds, and the heads before and
      after. */
  datatype TrimReason = TrimReason(path: string, share: real, threshold: real, before: int, after: int)

  datatype Proposal = Proposal(heads: int, rate: real, source: RateSource, trim: Option<TrimReason>)

  const DEFAULT_TRIM_THRESHOLD: real := 0.3

  function Ceil(x: real): int { -((-x).Floor) }

  function ProposedHeads(charge: real, rate: real): int {
    if rate <= 0.0 then 0 else Ceil(charge / rate)
  }

  function Threshold(configured: real): real { if configured <= 0.0 then DEFAULT_TRIM_THRESHOLD else configured }

  /** The heads left when `share` of the time was idle. */
  function Trimmed(heads: int, share: real, threshold: real): int {
    if heads <= 0 || share <= Threshold(threshold) then heads
    else
      var t := Ceil(heads as real * (1.0 - share));
      var t' := if t < 1 then 1 else t;
      if t' >= heads then heads else t'
  }

  /** The rate a proposal uses: the caller's if positive, else the measured one if there is one. */
  function Resolved(planned: real, measured: Option<Reply>): Result<real, Error> {
    if planned > 0.0 || measured == None then Ok(planned)
    else
      match measured.value
      case Answer(v) => Ok(v)
      case Unavailable => Ok(planned)
      case Failed => Err(ClientFailed)
  }

  /** Proposals, over the events published so far.  A client that is not wired is `None`. */
  class ProposePathPlan {
    const threshold: real
    var published: seq<DomainEvent>

    constructor (threshold: real)
      ensures this.threshold == threshold && published == []
    {
      this.threshold, published := threshold, [];
    }

    /** The heads left, and a reason exactly when there are fewer. */
    method ApplyIdleShareTrim(path: string, heads: int, idle: Option<Reply>)
      returns (r: Result<(int, Option<TrimReason>), Error>)
      ensures r.Err? <==> heads > 0 && idle == Some(Failed)
      ensures r.Err? ==> r.error == ClientFailed
      ensures r.Ok? ==>
                r.value.0 == if idle.Some? && idle.value.Answer? then Trimmed(heads, idle.value.value, threshold)
                             else heads
      ensures r.Ok? ==> (r.value.1.Some? <==> r.value.0 < heads) && r.value.0 <= heads
      ensures r.Ok? && r.value.1.Some? ==>
                idle.Some? && idle.value.Answer? && Threshold(threshold) < idle.value.value
                && r.value.1.value == TrimReason(path, idle.value.value, Threshold(threshold), heads, r.value.0)
    {
      if idle == None || heads <= 0 { return Ok((heads, None)); }
      if !idle.value.Answer? {
        return if idle.value == Unavailable then Ok((heads, None)) else Err(ClientFailed);
      }
      var share, limit := idle.value.value, threshold;
      if limit <= 0.0 { limit := DEFAULT_TRIM_THRESHOLD; }
      if share <= limit { return Ok((heads, None)); }
      var trimmed := Ceil(heads as real * (1.0 - share));
      if trimmed < 1 { trimmed := 1; }
      if trimmed >= heads { return Ok((heads, None)); }
      return Ok((trimmed, Some(TrimReason(path, share, limit, heads, trimmed))));
    }

    /** A proposal is published as it is returned, or not at all.  It says where its rate comes from, and why its heads
        were trimmed exactly when they were. */
    method Execute(building: string, path: string, charge: real, planned: real,
                   measured: Option<Reply>, idle: Option<Reply>, now: Time, broken: bool)
      returns (r: Result<Proposal, Error>)
      modifies `published
      ensures r.Ok? ==>
                var p := r.value;
                && Resolved(planned, measured) == Ok(p.rate)
                && published == old(published) + [ShiftPlanProposed(now, building, path, p.heads, p.rate)]
                && (p.source == Measured <==> planned <= 0.0 && measured.Some? && measured.value.Answer?)
      ensures r.Ok? ==>
                var p, untrimmed := r.value, ProposedHeads(charge, r.value.rate);
                && p.heads == (if idle.Some? && idle.value.Answer? then Trimmed(untrimmed, idle.value.value, threshold)
                               else untrimmed)
                && p.trim == if p.heads == untrimmed then None
                             else Some(TrimReason(path, idle.value.value, Threshold(threshold), untrimmed, p.heads))
      ensures r.Err? ==> published == old(published)
      ensures r.Err? <==> broken || Resolved(planned, measured).Err?
                          || (idle == Some(Failed) && ProposedHeads(charge, Resolved(planned, measured).value) > 0)
    {
      var rate, source := planned, Caller;
      if rate <= 0.0 && measured.Some? {
        if measured.value.Answer? {
          rate, source := measured.value.value, Measured;
        } else if measured.value != Unavailable {
          return Err(ClientFailed);
        }
      }
      var heads := ProposedHeads(charge, rate);
      var trimmed := ApplyIdleShareTrim(path, heads, idle);
      if trimmed.Err? { return Err(trimmed.error); }
      if broken { return Err(PublishFailed); }
      published := published + [ShiftPlanProposed(now, building, path, trimmed.value.0, rate)];
      return Ok(Proposal(trimmed.value.0, rate, source, trimmed.value.1));
    }
  }

  lemma CeilIsLeast(x: real, n: int)
    ensures x <= Ceil(x) as real < x + 1.0
    ensures x <= n as real ==> Ceil(x) <= n
  {
  }

  lemma QuotientCovers(charge: real, rate: real, n: int)
    requires rate > 0.0
    ensures charge <= n as real * rate <==> charge / rate <= n as real
  {
    var q := charge / rate;
    assert q * rate == charge;
    if q <= n as real { ScaleOrder(q, n as real, rate); } else { ScaleStrict(n as real, q, rate); }
  }

  lemma ScaleOrder(a: real, b: real, k: real)
    requires a <= b && 0.0 <= k
    ensures a * k <= b * k && k * a <= k * b
  {
    assert 0.0 <= (b - a) * k;
    assert a * k == k * a && b * k == k * b;
  }

  lemma ScaleStrict(a: real, b: real, k: real)
    requires a < b && 0.0 < k
    ensures a * k < b * k
  {
    assert 0.0 < (b - a) * k;
  }

  /** Proposed heads are the fewest that cover the charge at the rate. */
  lemma ProposedIsLeastCover(charge: real, rate: real, n: int)
    requires rate > 0.0
    ensures charge <= ProposedHeads(charge, rate) as real * rate
    ensures charge <= n as real * rate ==> ProposedHeads(charge, rate) <= n
  {
    QuotientCovers(charge, rate, ProposedHeads(charge, rate));
    QuotientCovers(charge, rate, n);
    CeilIsLeast(charge / rate, n);
  }

  /** A trim leaves between one head and all of them, covers the busy part of the time, and no more than needed:
      any positive number of heads that also covers it is at least as large. */
  lemma TrimCoversBusyTime(heads: int, share: real, threshold: real, n: int)
    requires heads > 0 && 0.0 <= share
    ensures 1 <= Trimmed(heads, share, threshold) <= heads
    ensures heads as real * (1.0 - share) <= Trimmed(heads, share, threshold) as real
    ensures share > Threshold(threshold) && 1 <= n && heads as real * (1.0 - share) <= n as real ==>
              Trimmed(heads, share, threshold) <= n
  {
    var busy := heads as real * (1.0 - share);
    ScaleOrder(1.0 - share, 1.0, heads as real);
    TrimmedIsBounded(heads, share, threshold);
    CeilIsLeast(busy, n);
    CeilIsLeast(busy, heads);
  }

  /** A trim takes effect exactly when the share exceeds the threshold, 0.3 if none above 0 is configured, and leaves
      work for fewer heads; one head is never trimmed, and no heads stay no heads. */
  lemma TrimStartsAbove(heads: int, share: real, configured: real)
    ensures var limit := if configured > 0.0 then configured else 0.3;
            Trimmed(heads, share, configured) < heads <==>
              1 < heads && limit < share && heads as real * (1.0 - share) <= (heads - 1) as real
    ensures heads <= 0 ==> Trimmed(heads, share, configured) == heads
  {
    CeilIsLeast(heads as real * (1.0 - share), heads - 1);
  }

  /** A rate that is not positive proposes no heads. */
  lemma NoRateNoHeads(charge: real, rate: real)
    requires rate <= 0.0
    ensures ProposedHeads(charge, rate) == 0
  {
  }

  /** The caller's rate wins if it is positive, then the measured one if there is an answer; a client that fails fails
      the request, and only when it was asked. */
  lemma RateRule(planned: real, measured: Option<Reply>)
    ensures Resolved(planned, measured) ==
              if planned <= 0.0 && measured.Some? && measured.value.Failed? then Err(ClientFailed)
              else if planned <= 0.0 && measured.Some? && measured.value.Answer? then Ok(measured.value.value)
              else Ok(planned)
  {
  }

  /** The heads that cover the busy time, before the bounds are put on. */
  function Needed(heads: int, share: real): int { Ceil(heads as real * (1.0 - share)) }

  lemma NeededIsMonotone(heads: int, low: real, high: real)
    requires heads > 0 && low <= high
    ensures Needed(heads, high) <= Needed(heads, low)
  {
    ScaleOrder(1.0 - high, 1.0 - low, heads as real);
    CeilIsLeast(heads as real * (1.0 - low), 0);
    CeilIsLeast(heads as real * (1.0 - high), Needed(heads, low));
  }

  function Bounded(heads: int, needed: int): int {
    var t := if needed < 1 then 1 else needed;
    if t >= heads then heads else t
  }

  lemma TrimmedIsBounded(heads: int, share: real, threshold: real)
    requires heads > 0
    ensures Trimmed(heads, share, threshold) ==
              if share <= Threshold(threshold) then heads else Bounded(heads, Needed(heads, share))
  {
  }

  lemma BoundedIsMonotone(heads: int, few: int, many: int)
    requires heads > 0 && few <= many
    ensures Bounded(heads, few) <= Bounded(heads, many) <= heads
  {
  }

  /** The more idle time, the fewer heads: a trim never rises as the share rises. */
  lemma TrimIsMonotone(heads: int, low: real, high: real, threshold: real)
    requires heads > 0 && low <= high
    ensures Trimmed(heads, high, threshold) <= Trimmed(heads, low, threshold)
  {
    TrimmedIsBounded(heads, low, threshold);
    TrimmedIsBounded(heads, high, threshold);
    NeededIsMonotone(heads, low, high);
    BoundedIsMonotone(heads, Needed(heads, high), Needed(heads, low));
  }
}
