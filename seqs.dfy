/** Order-preserving filtering, the `Array.prototype.filter` the workspace uses everywhere. */
module Seqs {

  /** `a` can be obtained from `b` by deleting elements: the order of what is kept is preserved. */
  predicate SubseqOf<T(==)>(a: seq<T>, b: seq<T>)
    decreases |b|
  {
    if b == [] then a == []
    else (a != [] && a[0] == b[0] && SubseqOf(a[1..], b[1..])) || SubseqOf(a, b[1..])
  }

  /** Every sequence is a subsequence of itself. */
  lemma {:induction false} SubseqRefl<T>(s: seq<T>)
    ensures SubseqOf(s, s)
    decreases |s|
  {
    if s != [] {
      SubseqRefl(s[1..]);
    }
  }

  /** The elements of `s` that satisfy `f`, in their original order. */
  function Filter<T(==,!new)>(s: seq<T>, f: T -> bool): (r: seq<T>)
    ensures |r| <= |s|
    ensures forall i :: 0 <= i < |r| ==> f(r[i])
    ensures SubseqOf(r, s)
  {
    if s == [] then []
    else
      var rest := Filter(s[1..], f);
      assert s == [s[0]] + s[1..];
      if f(s[0]) then
        assert ([s[0]] + rest)[1..] == rest;
        [s[0]] + rest
      else rest
  }

  /** An element survives the filter exactly when it occurs in `s` and is accepted. */
  lemma {:induction false} FilterMembers<T(!new)>(s: seq<T>, f: T -> bool)
    ensures forall x :: x in Filter(s, f) <==> x in s && f(x)
  {
    if s != [] {
      FilterMembers(s[1..], f);
      assert s == [s[0]] + s[1..];
    }
  }

  /** Filtering keeps every accepted element as often as it occurs and drops every other one. */
  lemma {:induction false} FilterMultiset<T(!new)>(s: seq<T>, f: T -> bool)
    ensures forall x :: multiset(Filter(s, f))[x] == if f(x) then multiset(s)[x] else 0
  {
    if s != [] {
      FilterMultiset(s[1..], f);
      assert s == [s[0]] + s[1..];
    }
  }

  /** A filter that rejects nothing returns its input unchanged. */
  lemma {:induction false} FilterAll<T(!new)>(s: seq<T>, f: T -> bool)
    requires forall i :: 0 <= i < |s| ==> f(s[i])
    ensures Filter(s, f) == s
  {
    if s != [] {
      FilterAll(s[1..], f);
    }
  }

  /** Filtering distributes over concatenation. */
  lemma {:induction false} FilterConcat<T(!new)>(a: seq<T>, b: seq<T>, f: T -> bool)
    ensures Filter(a + b, f) == Filter(a, f) + Filter(b, f)
  {
    if a == [] {
      assert a + b == b;
    } else {
      assert (a + b)[1..] == a[1..] + b;
      FilterConcat(a[1..], b, f);
    }
  }

  /** Filtering out a single rejected element between two fully accepted parts leaves the two parts. */
  lemma FilterDropsOne<T(!new)>(pre: seq<T>, x: T, post: seq<T>, f: T -> bool)
    requires forall i :: 0 <= i < |pre| ==> f(pre[i])
    requires forall i :: 0 <= i < |post| ==> f(post[i])
    requires !f(x)
    ensures Filter(pre + [x] + post, f) == pre + post
  {
    FilterConcat(pre + [x], post, f);
    FilterConcat(pre, [x], f);
    assert [x][1..] == [];
    assert Filter([x], f) == Filter([x][1..], f) == [];
    FilterAll(pre, f);
    FilterAll(post, f);
    assert pre + [] == pre;
  }

  /** Two predicates that agree on every element select the same subsequence. */
  lemma {:induction false} FilterExt<T(!new)>(s: seq<T>, f: T -> bool, g: T -> bool)
    requires forall i :: 0 <= i < |s| ==> f(s[i]) == g(s[i])
    ensures Filter(s, f) == Filter(s, g)
  {
    if s != [] {
      FilterExt(s[1..], f, g);
    }
  }

  /** Around a kept element, the filter splits into the filter of what precedes and what follows. */
  lemma {:induction false} FilterSplit<T(!new)>(s: seq<T>, f: T -> bool, a: nat)
    requires a < |s| && f(s[a])
    ensures Filter(s, f) == Filter(s[..a], f) + [s[a]] + Filter(s[a + 1..], f)
  {
    if a == 0 {
      assert s[..0] == [];
    } else {
      FilterSplit(s[1..], f, a - 1);
      assert s[1..][..a - 1] == s[..a][1..];
      assert s[1..][a..] == s[a + 1..];
      assert s[..a] != [] && s[..a][0] == s[0];
    }
  }
}
