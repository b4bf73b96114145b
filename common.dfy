/** Shared building blocks: optional values, small arithmetic helpers and an
    order-preserving filter, which models the list comprehensions
    `[x for x in xs if p(x)]` used throughout the services. */
module Common {

  datatype Option<+T> = None | Some(value: T) {
    /** Python's `d.get(key, default)`. */
    function GetOr(default: T): T {
      match this
      case Some(v) => v
      case None => default
    }
  }

  datatype Result<+T, +E> = Ok(value: T) | Err(error: E)

  function Min(a: int, b: int): int { if a <= b then a else b }

  function Max(a: int, b: int): int { if a <= b then b else a }

  /** The elements of `s` that satisfy `p`, in their original order. */
  function Filter<T(!new)>(s: seq<T>, p: T -> bool): (r: seq<T>)
    ensures |r| <= |s|
    ensures forall x :: x in r <==> x in s && p(x)
  {
    if s == [] then []
    else if p(s[0]) then [s[0]] + Filter(s[1..], p)
    else Filter(s[1..], p)
  }

  lemma {:induction false} FilterAppend<T(!new)>(a: seq<T>, b: seq<T>, p: T -> bool)
    ensures Filter(a + b, p) == Filter(a, p) + Filter(b, p)
  {
    if a == [] {
      assert a + b == b;
    } else {
      assert (a + b)[1..] == a[1..] + b;
      FilterAppend(a[1..], b, p);
    }
  }

  /** Filtering by `q` after filtering by a weaker `p` is filtering by `q`. */
  lemma {:induction false} FilterFilterImplied<T(!new)>(s: seq<T>, p: T -> bool, q: T -> bool)
    requires forall x :: q(x) ==> p(x)
    ensures Filter(Filter(s, p), q) == Filter(s, q)
  {
    if s != [] {
      FilterFilterImplied(s[1..], p, q);
    }
  }

  /** Filters by a predicate and by its negation split `s` in two. */
  lemma {:induction false} FilterPartition<T(!new)>(s: seq<T>, p: T -> bool, q: T -> bool)
    requires forall x :: q(x) <==> !p(x)
    ensures |Filter(s, p)| + |Filter(s, q)| == |s|
    ensures multiset(Filter(s, p)) + multiset(Filter(s, q)) == multiset(s)
  {
    if s != [] {
      FilterPartition(s[1..], p, q);
      assert s == [s[0]] + s[1..];
    }
  }

  /** A relation that holds between every earlier and later element of `s`
      still holds in every filtered copy of `s` (order is kept). */
  lemma {:induction false} FilterKeepsOrder<T(!new)>(s: seq<T>, p: T -> bool, before: (T, T) -> bool)
    requires forall i, j :: 0 <= i < j < |s| ==> before(s[i], s[j])
    ensures forall i, j :: 0 <= i < j < |Filter(s, p)| ==> before(Filter(s, p)[i], Filter(s, p)[j])
  {
    if s != [] {
      FilterKeepsOrder(s[1..], p, before);
      if p(s[0]) {
        var r := Filter(s, p);
        assert r == [s[0]] + Filter(s[1..], p);
        forall i, j | 0 <= i < j < |r| ensures before(r[i], r[j]) {
          if i == 0 {
            assert r[j] in s[1..];
            var k :| 0 <= k < |s[1..]| && s[1..][k] == r[j];
            assert s[k + 1] == r[j];
          } else {
            assert r[i] == Filter(s[1..], p)[i - 1] && r[j] == Filter(s[1..], p)[j - 1];
          }
        }
      }
    }
  }

  /** Filters by predicates that agree on every element of `s` agree. */
  lemma {:induction false} FilterAgree<T(!new)>(s: seq<T>, p: T -> bool, q: T -> bool)
    requires forall i :: 0 <= i < |s| ==> p(s[i]) == q(s[i])
    ensures Filter(s, p) == Filter(s, q)
  {
    if s != [] {
      FilterAgree(s[1..], p, q);
    }
  }

  /** Filtering by a predicate no element satisfies leaves nothing. */
  lemma {:induction false} FilterNone<T(!new)>(s: seq<T>, p: T -> bool)
    requires forall i :: 0 <= i < |s| ==> !p(s[i])
    ensures Filter(s, p) == []
  {
    if s != [] {
      FilterNone(s[1..], p);
    }
  }

  /** Filtering by `q` after filtering by a `p` that excludes it leaves
      nothing. */
  lemma {:induction false} FilterExcluded<T(!new)>(s: seq<T>, p: T -> bool, q: T -> bool)
    requires forall x :: p(x) ==> !q(x)
    ensures Filter(Filter(s, p), q) == []
  {
    if s != [] {
      FilterExcluded(s[1..], p, q);
    }
  }

  /** `idx` lists increasing positions of `s` whose elements, in turn, are
      the elements of `sub`, each of which satisfies `p`. */
  ghost predicate PicksAt<T>(idx: seq<nat>, sub: seq<T>, s: seq<T>, p: T -> bool) {
    && |idx| == |sub|
    && (forall k :: 0 <= k < |idx| ==> idx[k] < |s| && sub[k] == s[idx[k]] && p(sub[k]))
    && (forall k, l :: 0 <= k < l < |idx| ==> idx[k] < idx[l])
  }

  /** `sub` is `s` at exactly the positions whose element satisfies `p`,
      in their original order: a true subsequence that skips no match. */
  ghost predicate Selects<T>(sub: seq<T>, s: seq<T>, p: T -> bool) {
    exists idx: seq<nat> :: PicksAt(idx, sub, s, p) && forall i :: 0 <= i < |s| && p(s[i]) ==> i in idx
  }

  function Shifted(idx: seq<nat>): (r: seq<nat>)
    ensures |r| == |idx| && forall k :: 0 <= k < |idx| ==> r[k] == idx[k] + 1
  {
    seq(|idx|, k requires 0 <= k < |idx| => idx[k] + 1)
  }

  /** Positions picked in the tail `s[1..]` are picked, one further on, in
      `s`. */
  lemma PicksShifted<T>(idx: seq<nat>, sub: seq<T>, s: seq<T>, p: T -> bool)
    requires s != [] && PicksAt(idx, sub, s[1..], p)
    ensures PicksAt(Shifted(idx), sub, s, p)
  {
    forall k | 0 <= k < |idx|
      ensures Shifted(idx)[k] < |s| && sub[k] == s[Shifted(idx)[k]]
    {
      assert s[1..][idx[k]] == s[idx[k] + 1];
    }
  }

  /** Picking the head first keeps the positions increasing. */
  lemma PicksHead<T>(idx: seq<nat>, sub: seq<T>, s: seq<T>, p: T -> bool)
    requires s != [] && p(s[0]) && PicksAt(idx, sub, s, p)
    requires forall k :: 0 <= k < |idx| ==> 0 < idx[k]
    ensures PicksAt([0] + idx, [s[0]] + sub, s, p)
  {
    var idx', sub' := [0] + idx, [s[0]] + sub;
    forall k | 0 <= k < |idx'|
      ensures idx'[k] < |s| && sub'[k] == s[idx'[k]] && p(sub'[k])
    {
      if k > 0 {
        assert idx'[k] == idx[k - 1] && sub'[k] == sub[k - 1];
      }
    }
    forall k, l | 0 <= k < l < |idx'|
      ensures idx'[k] < idx'[l]
    {
      if k > 0 {
        assert idx'[k] == idx[k - 1] && idx'[l] == idx[l - 1];
      }
    }
  }

  /** Every match in the tail `s[1..]` that `idx` hits is hit, one further
      on, by `Shifted(idx)`. */
  lemma CoversShifted<T>(idx: seq<nat>, s: seq<T>, p: T -> bool)
    requires s != []
    requires forall i :: 0 <= i < |s[1..]| && p(s[1..][i]) ==> i in idx
    ensures forall i :: 1 <= i < |s| && p(s[i]) ==> i in Shifted(idx)
  {
    forall i | 1 <= i < |s| && p(s[i])
      ensures i in Shifted(idx)
    {
      assert s[1..][i - 1] == s[i];
      var k :| 0 <= k < |idx| && idx[k] == i - 1;
      assert Shifted(idx)[k] == i;
    }
  }

  /** The positions a filter keeps: `idx` picks `Filter(s, p)` out of `s`
      and skips no match. */
  lemma {:induction false} FilterPositions<T(!new)>(s: seq<T>, p: T -> bool) returns (idx: seq<nat>)
    ensures PicksAt(idx, Filter(s, p), s, p)
    ensures forall i :: 0 <= i < |s| && p(s[i]) ==> i in idx
  {
    if s == [] {
      idx := [];
    } else {
      var rest := Filter(s[1..], p);
      var idx0 := FilterPositions(s[1..], p);
      PicksShifted(idx0, rest, s, p);
      CoversShifted(idx0, s, p);
      idx := Shifted(idx0);
      if p(s[0]) {
        PicksHead(idx, rest, s, p);
        assert Filter(s, p) == [s[0]] + rest;
        idx := [0] + idx;
      } else {
        assert Filter(s, p) == rest;
      }
    }
  }

  /** A filtered sequence is the original at exactly the positions whose
      element satisfies the predicate, in order. */
  lemma FilterSelects<T(!new)>(s: seq<T>, p: T -> bool)
    ensures Selects(Filter(s, p), s, p)
  {
    var idx := FilterPositions(s, p);
  }
}
