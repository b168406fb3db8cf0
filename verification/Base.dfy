/** Vocabulary shared by every module: optional values, outcomes, and facts about sequences. */
module Base {

  datatype Option<+T> = None | Some(value: T)

  datatype Result<+T, +E> = Ok(value: T) | Err(error: E)

  /** Instants and durations, in nanoseconds; an instant counts from Go's zero time. */
  type Time = int

  /** The elements of `s` that satisfy `p`, in order. */
  function Filter<T(!new)>(s: seq<T>, p: T -> bool): (r: seq<T>)
    ensures forall x :: x in r <==> x in s && p(x)
  {
    if s == [] then []
    else if p(s[|s| - 1]) then Filter(s[..|s| - 1], p) + [s[|s| - 1]]
    else Filter(s[..|s| - 1], p)
  }

  lemma {:induction false} FilterConcat<T(!new)>(a: seq<T>, b: seq<T>, p: T -> bool)
    ensures Filter(a + b, p) == Filter(a, p) + Filter(b, p)
  {
    if b == [] {
      assert a + b == a;
    } else {
      assert (a + b)[..|a + b| - 1] == a + b[..|b| - 1];
      FilterConcat(a, b[..|b| - 1], p);
    }
  }

  function Map<S, T>(s: seq<S>, f: S -> T): (r: seq<T>)
    ensures |r| == |s| && forall i :: 0 <= i < |s| ==> r[i] == f(s[i])
  {
    seq(|s|, i requires 0 <= i < |s| => f(s[i]))
  }

  lemma MapConcat<S, T>(a: seq<S>, b: seq<S>, f: S -> T)
    ensures Map(a + b, f) == Map(a, f) + Map(b, f)
  {
  }

  /** A concatenation falls apart where it was joined. */
  lemma Joined<T>(a: seq<T>, b: seq<T>)
    ensures (a + b)[..|a|] == a && (a + b)[|a|..] == b
  {
  }

  ghost predicate Distinct<T>(s: seq<T>) {
    forall i, j :: 0 <= i < j < |s| ==> s[i] != s[j]
  }

  ghost predicate Increasing(s: seq<nat>) {
    forall i, j :: 0 <= i < j < |s| ==> s[i] < s[j]
  }

  /** An increasing sequence is determined by its elements. */
  lemma {:induction false} IncreasingIsUnique(a: seq<nat>, b: seq<nat>)
    requires Increasing(a) && Increasing(b)
    requires forall x :: x in a <==> x in b
    ensures a == b
  {
    assert b != [] ==> b[0] in a;
    if a != [] {
      assert a[|a| - 1] in b;
      assert b[|b| - 1] in a;
      var a', b' := a[..|a| - 1], b[..|b| - 1];
      forall x ensures x in a' <==> x in b' {
        assert x in a <==> x in a' || x == a[|a| - 1];
        assert x in b <==> x in b' || x == b[|b| - 1];
      }
      IncreasingIsUnique(a', b');
      assert a == a' + [a[|a| - 1]] && b == b' + [b[|b| - 1]];
    }
  }

  /** Filtering keeps the order of what it keeps. */
  lemma {:induction false} FilterIncreasing(s: seq<nat>, p: nat -> bool)
    requires forall i, j :: 0 <= i < j < |s| && p(s[i]) && p(s[j]) ==> s[i] < s[j]
    ensures Increasing(Filter(s, p))
  {
    if s != [] {
      var front := s[..|s| - 1];
      FilterIncreasing(front, p);
      var kept := Filter(front, p);
      forall i | 0 <= i < |kept| && p(s[|s| - 1]) ensures kept[i] < s[|s| - 1] {
        assert kept[i] in kept;
        var k :| 0 <= k < |front| && front[k] == kept[i];
      }
    }
  }

  /** The elements of a finite set of naturals in increasing order. */
  ghost function Ascending(s: set<nat>): (r: seq<nat>)
    ensures Increasing(r) && forall x :: x in r <==> x in s
    decreases |s|
  {
    if s == {} then []
    else
      LargestExists(s);
      var m :| m in s && forall x :: x in s ==> x <= m;
      var front := Ascending(s - {m});
      assert forall i :: 0 <= i < |front| ==> front[i] in s - {m};
      front + [m]
  }

  lemma {:induction false} LargestExists(s: set<nat>)
    requires s != {}
    ensures exists m :: m in s && forall x :: x in s ==> x <= m
    decreases |s|
  {
    var a :| a in s;
    if s != {a} {
      assert s == (s - {a}) + {a};
      LargestExists(s - {a});
      var b :| b in s - {a} && forall x :: x in s - {a} ==> x <= b;
      assert forall x :: x in s ==> x == a || x in s - {a};
      var m := if a < b then b else a;
      assert m in s && forall x :: x in s ==> x <= m;
    } else {
      assert a in s && forall x :: x in s ==> x <= a;
    }
  }
}
