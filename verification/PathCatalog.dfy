/** Which process-path family an id belongs to: case-insensitive, most specific prefix first. */
module PathCatalog {
  import opened Base

  datatype PathDefinition = PathDefinition(id: string, matchPrefix: string, capabilities: seq<string>, role: string)

  /** ASCII case folding. */
  function LowerChar(c: char): char { if 'A' <= c <= 'Z' then c + ('a' - 'A') else c }

  function Lower(s: string): string { Map(s, LowerChar) }

  function UpperChar(c: char): char { if 'a' <= c <= 'z' then c - ('a' - 'A') else c }

  function Upper(s: string): string { Map(s, UpperChar) }

  /** Both already lower-cased: `id` is the prefix itself, or goes on with a dash. */
  predicate MatchesPrefix(id: string, prefix: string) { id == prefix || prefix + "-" <= id }

  /** A blank prefix matches nothing. */
  predicate Matches(d: PathDefinition, id: string) {
    d.matchPrefix != "" && MatchesPrefix(Lower(id), Lower(d.matchPrefix))
  }

  /** Two letters that differ at most in case (ASCII). */
  predicate SameLetter(c: char, d: char) {
    || c == d
    || ('A' <= c <= 'Z' && d as int == c as int + 32)
    || ('A' <= d <= 'Z' && c as int == d as int + 32)
  }

  lemma LowerIsCaseless(c: char, d: char)
    ensures LowerChar(c) == LowerChar(d) <==> SameLetter(c, d)
    ensures UpperChar(c) == UpperChar(d) <==> SameLetter(c, d)
  {
  }

  predicate SameLetters(a: string, b: string) { |a| == |b| && forall i :: 0 <= i < |a| ==> SameLetter(a[i], b[i]) }

  lemma FoldsAlike(a: string, b: string)
    ensures Lower(a) == Lower(b) <==> SameLetters(a, b)
    ensures Upper(a) == Upper(b) <==> SameLetters(a, b)
  {
    forall i | 0 <= i < |a| && i < |b|
      ensures LowerChar(a[i]) == LowerChar(b[i]) <==> SameLetter(a[i], b[i])
      ensures UpperChar(a[i]) == UpperChar(b[i]) <==> SameLetter(a[i], b[i])
    {
      LowerIsCaseless(a[i], b[i]);
    }
    if Lower(a) == Lower(b) {
      assert |a| == |Lower(a)| == |b|;
      forall i | 0 <= i < |a| ensures SameLetter(a[i], b[i]) { assert Lower(a)[i] == Lower(b)[i]; }
    }
    if Upper(a) == Upper(b) {
      assert |a| == |Upper(a)| == |b|;
      forall i | 0 <= i < |a| ensures SameLetter(a[i], b[i]) { assert Upper(a)[i] == Upper(b)[i]; }
    }
  }

  /** A definition matches an id exactly when its prefix is not blank, the id begins with it whatever the case, and ends
      there or goes on with a dash: "pick" matches "PICK" and "pick-3", and neither "picking" nor "pic". */
  lemma MatchesExactly(d: PathDefinition, id: string)
    ensures var n := |d.matchPrefix|;
            Matches(d, id) <==>
              0 < n <= |id| && SameLetters(d.matchPrefix, id[..n]) && (|id| == n || id[n] == '-')
  {
    var n := |d.matchPrefix|;
    if n <= |id| {
      FoldsAlike(d.matchPrefix, id[..n]);
      assert Lower(id[..n]) == Lower(id)[..n];
      if n < |id| { assert Lower(id)[n] == LowerChar(id[n]); }
      var p, l := Lower(d.matchPrefix), Lower(id);
      assert p + "-" <= l <==> n < |l| && p == l[..n] && l[n] == '-' by {
        if p + "-" <= l { assert l[..n + 1] == p + "-" && l[..n] == (p + "-")[..n]; }
        if n < |l| && p == l[..n] && l[n] == '-' { assert l[..n + 1] == p + "-"; }
      }
      assert |id| == n ==> id[..n] == id;
    }
  }

  method Lookup(defs: seq<PathDefinition>, id: string) returns (best: Option<PathDefinition>)
    ensures best == Best(defs, id)
  {
    var lower, bestLen: int := Lower(id), -1;
    best := None;
    for n := 0 to |defs|
      invariant best == Best(defs[..n], id)
      invariant bestLen == if best.Some? then |best.value.matchPrefix| else -1
    {
      assert defs[..n + 1][..n] == defs[..n];
      var prefix := Lower(defs[n].matchPrefix);
      if prefix == "" { continue; }
      if !MatchesPrefix(lower, prefix) { continue; }
      if |prefix| > bestLen {
        best, bestLen := Some(defs[n]), |prefix|;
      }
    }
    assert defs[..|defs|] == defs;
  }

  /** The first of the longest matching definitions. */
  function Best(defs: seq<PathDefinition>, id: string): Option<PathDefinition> {
    if defs == [] then None
    else
      var d, before := defs[|defs| - 1], Best(defs[..|defs| - 1], id);
      if Matches(d, id) && (before == None || |d.matchPrefix| > |before.value.matchPrefix|) then Some(d) else before
  }

  /** What the result is, said without the loop: the longest match, and the first declared of that length. */
  ghost predicate MostSpecific(defs: seq<PathDefinition>, id: string, k: nat) {
    && k < |defs| && Matches(defs[k], id)
    && (forall j :: 0 <= j < |defs| && Matches(defs[j], id) ==> |defs[j].matchPrefix| <= |defs[k].matchPrefix|)
    && (forall j :: 0 <= j < k && Matches(defs[j], id) ==> |defs[j].matchPrefix| < |defs[k].matchPrefix|)
  }

  ghost predicate NoMatch(defs: seq<PathDefinition>, id: string) {
    forall j :: 0 <= j < |defs| ==> !Matches(defs[j], id)
  }

  /** One more definition at the end: it takes over when it matches and is longer than every match so far. */
  lemma MostSpecificSnoc(defs: seq<PathDefinition>, d: PathDefinition, id: string, k: nat)
    requires MostSpecific(defs, id, k)
    ensures if Matches(d, id) && |d.matchPrefix| > |defs[k].matchPrefix| then MostSpecific(defs + [d], id, |defs|)
            else MostSpecific(defs + [d], id, k)
  {
  }

  lemma {:induction false} LookupIsMostSpecific(defs: seq<PathDefinition>, id: string) returns (k: nat)
    ensures Best(defs, id) == None <==> NoMatch(defs, id)
    ensures Best(defs, id).Some? ==> MostSpecific(defs, id, k) && Best(defs, id) == Some(defs[k])
  {
    k := 0;
    if defs != [] {
      var n := |defs| - 1;
      var front, d := defs[..n], defs[n];
      assert defs == front + [d];
      k := LookupIsMostSpecific(front, id);
      if Best(front, id).Some? {
        MostSpecificSnoc(front, d, id, k);
        assert Matches(defs[k], id);
      }
      if Best(defs, id) != Best(front, id) { k := n; }
    }
  }

  /** The prefixes that match one id form a chain: of two, the shorter begins the longer. */
  lemma MatchesFormAChain(d: PathDefinition, e: PathDefinition, id: string)
    requires Matches(d, id) && Matches(e, id) && |d.matchPrefix| <= |e.matchPrefix|
    ensures Lower(d.matchPrefix) <= Lower(e.matchPrefix)
    ensures |d.matchPrefix| == |e.matchPrefix| ==> Lower(d.matchPrefix) == Lower(e.matchPrefix)
  {
    var p, q := Lower(d.matchPrefix), Lower(e.matchPrefix);
    assert p <= Lower(id) && q <= Lower(id);
  }

  predicate SharePrefix(d: PathDefinition, e: PathDefinition) {
    d.matchPrefix != "" && Lower(d.matchPrefix) == Lower(e.matchPrefix)
  }

  /** No two different definitions share a lower-cased prefix. */
  ghost predicate Unambiguous(defs: seq<PathDefinition>) {
    forall d, e :: d in defs && e in defs && SharePrefix(d, e) ==> d == e
  }

  ghost predicate SameDefinitions(a: seq<PathDefinition>, b: seq<PathDefinition>) { forall d :: d in a <==> d in b }

  /** Then the order of declaration does not matter, nor does repetition. */
  lemma OrderDoesNotMatter(a: seq<PathDefinition>, b: seq<PathDefinition>, id: string)
    requires SameDefinitions(a, b) && Unambiguous(a)
    ensures Best(a, id) == Best(b, id)
  {
    var i := LookupIsMostSpecific(a, id);
    var j := LookupIsMostSpecific(b, id);
    SomeMatch(a, b, id);
    if Best(a, id).Some? { MostSpecificAgree(a, b, id, i, j); }
  }

  lemma SomeMatch(a: seq<PathDefinition>, b: seq<PathDefinition>, id: string)
    requires SameDefinitions(a, b)
    ensures NoMatch(a, id) <==> NoMatch(b, id)
  {
    if !NoMatch(a, id) {
      var i :| 0 <= i < |a| && Matches(a[i], id);
      assert a[i] in b;
    }
    if !NoMatch(b, id) {
      var i :| 0 <= i < |b| && Matches(b[i], id);
      assert b[i] in a;
    }
  }

  lemma NotLonger(a: seq<PathDefinition>, b: seq<PathDefinition>, id: string, i: nat, j: nat)
    requires SameDefinitions(a, b) && MostSpecific(a, id, i) && MostSpecific(b, id, j)
    ensures |b[j].matchPrefix| <= |a[i].matchPrefix|
  {
    assert b[j] in a;
  }

  lemma MostSpecificAgree(a: seq<PathDefinition>, b: seq<PathDefinition>, id: string, i: nat, j: nat)
    requires SameDefinitions(a, b) && Unambiguous(a) && MostSpecific(a, id, i) && MostSpecific(b, id, j)
    ensures a[i] == b[j]
  {
    NotLonger(a, b, id, i, j);
    NotLonger(b, a, id, j, i);
    MatchesFormAChain(a[i], b[j], id);
    assert a[i] in a && b[j] in a;
    assert SharePrefix(a[i], b[j]);
  }

  /** A definition whose prefix is the whole id wins if it is declared first. */
  lemma FrontWins(d: PathDefinition, rest: seq<PathDefinition>)
    requires d.matchPrefix != ""
    ensures Best([d] + rest, d.matchPrefix) == Some(d)
  {
    var id, defs := d.matchPrefix, [d] + rest;
    var k := LookupIsMostSpecific(defs, id);
    assert Matches(defs[0], id);
    assert |defs[k].matchPrefix| <= |id|;
  }

  /** Matching does not depend on the case of the id. */
  lemma CaseDoesNotMatter(defs: seq<PathDefinition>, a: string, b: string)
    requires Lower(a) == Lower(b)
    ensures Best(defs, a) == Best(defs, b)
  {
    var i := LookupIsMostSpecific(defs, a);
    var j := LookupIsMostSpecific(defs, b);
    assert forall d :: Matches(d, a) <==> Matches(d, b);
  }

  /** The definition at `i` moved to the front. */
  function ToFront(defs: seq<PathDefinition>, i: nat): (r: seq<PathDefinition>)
    requires i < |defs|
    ensures multiset(r) == multiset(defs)
  {
    assert defs == defs[..i] + [defs[i]] + defs[i + 1..];
    [defs[i]] + (defs[..i] + defs[i + 1..])
  }

  ghost predicate OrderFree(defs: seq<PathDefinition>) {
    forall other, id :: multiset(other) == multiset(defs) ==> Best(other, id) == Best(defs, id)
  }

  /** Lookups are independent of declaration order exactly when no prefix is declared for two different definitions. */
  lemma OrderFreeExactly(defs: seq<PathDefinition>)
    ensures OrderFree(defs) <==> Unambiguous(defs)
  {
    if Unambiguous(defs) {
      forall other, id | multiset(other) == multiset(defs) ensures Best(other, id) == Best(defs, id) {
        forall d ensures d in defs <==> d in other {
          assert (d in defs <==> d in multiset(defs)) && (d in other <==> d in multiset(other));
        }
        OrderDoesNotMatter(defs, other, id);
      }
    } else {
      var d, e :| d in defs && e in defs && SharePrefix(d, e) && d != e;
      var i :| 0 <= i < |defs| && defs[i] == d;
      var j :| 0 <= j < |defs| && defs[j] == e;
      FrontWins(d, defs[..i] + defs[i + 1..]);
      FrontWins(e, defs[..j] + defs[j + 1..]);
      CaseDoesNotMatter(ToFront(defs, j), d.matchPrefix, e.matchPrefix);
      assert Best(ToFront(defs, i), d.matchPrefix) != Best(ToFront(defs, j), d.matchPrefix);
    }
  }
}
