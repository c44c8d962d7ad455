/** Sequence notions shared by the list transformations of the application:
    subsequences, Array.prototype.filter, removal at an index, and
    de-duplication in first-seen order (what `[...new Set(xs)]` yields). */
module Seqs {

  /** `s` can be obtained from `t` by deleting elements, keeping the order. */
  ghost predicate IsSubsequence<T>(s: seq<T>, t: seq<T>)
    decreases |t|
  {
    if s == [] then true
    else if t == [] then false
    else IsSubsequence(s, t[1..]) || (s[0] == t[0] && IsSubsequence(s[1..], t[1..]))
  }

  ghost predicate Distinct<T>(s: seq<T>) {
    forall i, j :: 0 <= i < j < |s| ==> s[i] != s[j]
  }

  /** Array.prototype.filter. */
  function Filter<T>(s: seq<T>, p: T -> bool): (r: seq<T>)
    ensures |r| <= |s|
  {
    if s == [] then []
    else if p(s[0]) then [s[0]] + Filter(s[1..], p)
    else Filter(s[1..], p)
  }

  lemma {:induction false} FilterIsSubsequence<T>(s: seq<T>, p: T -> bool)
    ensures IsSubsequence(Filter(s, p), s)
  {
    if s != [] {
      FilterIsSubsequence(s[1..], p);
      var r := Filter(s[1..], p);
      if p(s[0]) {
        assert ([s[0]] + r)[1..] == r;
      }
    }
  }

  /** An element is kept iff it occurs in the input and satisfies the predicate. */
  lemma {:induction false} FilterMembers<T>(s: seq<T>, p: T -> bool)
    ensures forall x :: x in Filter(s, p) <==> x in s && p(x)
  {
    if s != [] {
      FilterMembers(s[1..], p);
      assert forall x :: x in s <==> x == s[0] || x in s[1..];
    }
  }

  /** Each element is kept as many times as it occurs when it satisfies the
      predicate, and not at all otherwise. */
  lemma {:induction false} FilterMultiset<T>(s: seq<T>, p: T -> bool)
    ensures forall x :: multiset(Filter(s, p))[x] == if p(x) then multiset(s)[x] else 0
  {
    if s != [] {
      FilterMultiset(s[1..], p);
      assert s == [s[0]] + s[1..];
      assert multiset(s) == multiset{s[0]} + multiset(s[1..]);
    }
  }

  /** Filtering distributes over concatenation. */
  lemma {:induction false} FilterAppend<T>(a: seq<T>, b: seq<T>, p: T -> bool)
    ensures Filter(a + b, p) == Filter(a, p) + Filter(b, p)
  {
    if a != [] {
      FilterAppend(a[1..], b, p);
      assert (a + b)[1..] == a[1..] + b;
    } else {
      assert a + b == b;
    }
  }

  /** Filtering with a predicate that every element satisfies changes nothing. */
  lemma {:induction false} FilterKeepsAll<T>(s: seq<T>, p: T -> bool)
    requires forall k :: 0 <= k < |s| ==> p(s[k])
    ensures Filter(s, p) == s
  {
    if s != [] {
      FilterKeepsAll(s[1..], p);
      assert s == [s[0]] + s[1..];
    }
  }

  /** Filtering with a predicate that no element satisfies leaves nothing. */
  lemma {:induction false} FilterKeepsNone<T>(s: seq<T>, p: T -> bool)
    requires forall k :: 0 <= k < |s| ==> !p(s[k])
    ensures Filter(s, p) == []
  {
    if s != [] {
      FilterKeepsNone(s[1..], p);
    }
  }

  /** Two predicates that agree on every element of `s` filter it alike. */
  lemma {:induction false} FilterCongruent<T>(s: seq<T>, p: T -> bool, q: T -> bool)
    requires forall k :: 0 <= k < |s| ==> p(s[k]) == q(s[k])
    ensures Filter(s, p) == Filter(s, q)
  {
    if s != [] {
      FilterCongruent(s[1..], p, q);
    }
  }

  /** `xs.filter((_, i) => i !== index)`: removes the element at `index`, if there is one. */
  function RemoveIndex<T>(s: seq<T>, index: int): (r: seq<T>)
    ensures 0 <= index < |s| ==> |r| == |s| - 1
    ensures !(0 <= index < |s|) ==> r == s
    ensures 0 <= index < |s| ==> forall k :: 0 <= k < |r| ==> r[k] == s[if k < index then k else k + 1]
  {
    if 0 <= index < |s| then s[..index] + s[index + 1..] else s
  }

  function Zip<A, B>(a: seq<A>, b: seq<B>): (r: seq<(A, B)>)
    requires |a| == |b|
    ensures |r| == |a|
  {
    seq(|a|, k requires 0 <= k < |a| => (a[k], b[k]))
  }

  /** Removing the same index from two parallel lists removes one pair from
      their zip: the lists stay parallel and every remaining pair stays together. */
  lemma {:induction false} RemoveIndexKeepsPairs<A, B>(a: seq<A>, b: seq<B>, index: int)
    requires |a| == |b|
    ensures |RemoveIndex(a, index)| == |RemoveIndex(b, index)|
    ensures Zip(RemoveIndex(a, index), RemoveIndex(b, index)) == RemoveIndex(Zip(a, b), index)
  {
  }

  /** The elements of `xs` not in `seen`, each at its first occurrence and in
      input order: the insertion order of a Set filled from `xs`. */
  function Dedup<T(==)>(xs: seq<T>, seen: set<T>): (r: seq<T>)
  {
    if xs == [] then []
    else if xs[0] in seen then Dedup(xs[1..], seen)
    else [xs[0]] + Dedup(xs[1..], seen + {xs[0]})
  }

  /** Every element of `r` that comes before another occurs in `xs` before
      any occurrence of that other one: with distinct elements, `r` lists
      them by their first occurrence in `xs`. */
  ghost predicate InFirstSeenOrder<T>(r: seq<T>, xs: seq<T>) {
    forall i, j, k :: 0 <= i < j < |r| && 0 <= k < |xs| && xs[k] == r[j] ==> r[i] in xs[..k]
  }

  /** Dedup keeps the elements in the order of their first occurrence. */
  lemma {:induction false} DedupFirstSeen<T>(xs: seq<T>, seen: set<T>)
    ensures InFirstSeenOrder(Dedup(xs, seen), xs)
    decreases xs
  {
    if xs != [] {
      var x, tail := xs[0], xs[1..];
      var r := Dedup(xs, seen);
      if x in seen {
        DedupFirstSeen(tail, seen);
        DedupSpec(tail, seen);
        forall i, j, k | 0 <= i < j < |r| && 0 <= k < |xs| && xs[k] == r[j] ensures r[i] in xs[..k] {
          assert r[j] in r;
          assert k != 0;
          assert tail[k - 1] == xs[k] && xs[..k] == [x] + tail[..k - 1];
        }
      } else {
        var rest := Dedup(tail, seen + {x});
        DedupFirstSeen(tail, seen + {x});
        DedupSpec(tail, seen + {x});
        assert r == [x] + rest;
        forall i, j, k | 0 <= i < j < |r| && 0 <= k < |xs| && xs[k] == r[j] ensures r[i] in xs[..k] {
          assert r[j] == rest[j - 1] && rest[j - 1] in rest;
          assert k != 0;
          assert xs[..k] == [x] + tail[..k - 1];
          if i > 0 {
            assert r[i] == rest[i - 1] && tail[k - 1] == rest[j - 1];
          }
        }
      }
    }
  }

  lemma {:induction false} DedupSpec<T>(xs: seq<T>, seen: set<T>)
    ensures IsSubsequence(Dedup(xs, seen), xs)
    ensures Distinct(Dedup(xs, seen))
    ensures forall x :: x in Dedup(xs, seen) <==> x in xs && x !in seen
  {
    if xs != [] {
      var x := xs[0];
      assert forall y :: y in xs <==> y == x || y in xs[1..];
      if x in seen {
        DedupSpec(xs[1..], seen);
      } else {
        DedupSpec(xs[1..], seen + {x});
        var r := Dedup(xs[1..], seen + {x});
        assert ([x] + r)[1..] == r;
        assert x !in r;
      }
    }
  }
}
