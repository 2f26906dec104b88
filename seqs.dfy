/**
 * Sequence combinators used by the pipeline stages. They are defined by
 * recursion on the LAST element, so that a loop which appends to its output
 * one element at a time matches one unfolding per iteration.
 */
module Seqs {

  function Last<T>(s: seq<T>): T
    requires |s| > 0
  {
    s[|s| - 1]
  }

  function DropLast<T>(s: seq<T>): seq<T>
    requires |s| > 0
  {
    s[..|s| - 1]
  }

  /** Python's `xs[:n]` for `n >= 0`: the first `n` elements, or all of them when there are fewer. */
  function Take<T>(xs: seq<T>, n: nat): (r: seq<T>)
    ensures |r| == if |xs| <= n then |xs| else n
    ensures r <= xs
  {
    if n <= |xs| then xs[..n] else xs
  }

  /** The elements of `xs` that satisfy `p`, in their original order. */
  function Filter<T>(p: T -> bool, xs: seq<T>): seq<T> {
    if xs == [] then []
    else Filter(p, DropLast(xs)) + (if p(Last(xs)) then [Last(xs)] else [])
  }

  /** `f` applied to every element of `xs`, in order. */
  function Map<A, B>(f: A -> B, xs: seq<A>): seq<B> {
    if xs == [] then [] else Map(f, DropLast(xs)) + [f(Last(xs))]
  }

  /** The concatenation of `f(x)` for every `x` of `xs`, in order. */
  function FlatMap<A, B>(f: A -> seq<B>, xs: seq<A>): seq<B> {
    if xs == [] then [] else FlatMap(f, DropLast(xs)) + f(Last(xs))
  }

  /** Every element of `xs` satisfies `p`. */
  predicate All<T>(p: T -> bool, xs: seq<T>) {
    forall i :: 0 <= i < |xs| ==> p(xs[i])
  }

  /** `a` can be obtained from `b` by deleting elements: order is preserved. */
  ghost predicate IsSubsequence<T>(a: seq<T>, b: seq<T>)
    decreases |b|
  {
    if a == [] then true
    else if b == [] then false
    else (Last(a) == Last(b) && IsSubsequence(DropLast(a), DropLast(b)))
         || IsSubsequence(a, DropLast(b))
  }

  /** `Map(f, xs)` has one element per element of `xs`: its image under `f`. */
  lemma {:induction false} MapElements<A, B>(f: A -> B, xs: seq<A>)
    ensures |Map(f, xs)| == |xs|
    ensures forall i :: 0 <= i < |xs| ==> Map(f, xs)[i] == f(xs[i])
    decreases |xs|
  {
    if xs != [] {
      MapElements(f, DropLast(xs));
    }
  }

  /** A header line followed by the image of `xs`: element `i + 1` is the image of `xs[i]`. */
  lemma HeaderThenMap<A, B>(h: B, f: A -> B, xs: seq<A>)
    ensures |[h] + Map(f, xs)| == |xs| + 1
    ensures forall i :: 0 <= i < |xs| ==> ([h] + Map(f, xs))[i + 1] == f(xs[i])
  {
    MapElements(f, xs);
  }

  lemma AllAppend<T>(p: T -> bool, a: seq<T>, b: seq<T>)
    requires All(p, a) && All(p, b)
    ensures All(p, a + b)
  {
    assert forall i :: |a| <= i < |a + b| ==> (a + b)[i] == b[i - |a|];
  }

  lemma AllMap<A, B>(p: B -> bool, f: A -> B, xs: seq<A>)
    requires forall x :: p(f(x))
    ensures All(p, Map(f, xs))
  {
    MapElements(f, xs);
  }

  lemma FilterSnoc<T>(p: T -> bool, xs: seq<T>, x: T)
    ensures Filter(p, xs + [x]) == Filter(p, xs) + (if p(x) then [x] else [])
  {
    assert DropLast(xs + [x]) == xs;
  }

  lemma MapSnoc<A, B>(f: A -> B, xs: seq<A>, x: A)
    ensures Map(f, xs + [x]) == Map(f, xs) + [f(x)]
  {
    assert DropLast(xs + [x]) == xs;
  }

  /** Filtering distributes over concatenation. */
  lemma {:induction false} FilterAppend<T>(p: T -> bool, a: seq<T>, b: seq<T>)
    ensures Filter(p, a + b) == Filter(p, a) + Filter(p, b)
    decreases |b|
  {
    if b == [] {
      assert a + b == a;
    } else {
      assert DropLast(a + b) == a + DropLast(b);
      assert Last(a + b) == Last(b);
      FilterAppend(p, a, DropLast(b));
    }
  }

  /** Concatenating the images distributes over concatenation. */
  lemma {:induction false} FlatMapAppend<A, B>(f: A -> seq<B>, a: seq<A>, b: seq<A>)
    ensures FlatMap(f, a + b) == FlatMap(f, a) + FlatMap(f, b)
    decreases |b|
  {
    if b == [] {
      assert a + b == a;
    } else {
      assert DropLast(a + b) == a + DropLast(b) && Last(a + b) == Last(b);
      FlatMapAppend(f, a, DropLast(b));
    }
  }

  /** An element whose image is empty can be dropped without changing the result. */
  lemma FlatMapSkip<A, B>(f: A -> seq<B>, before: seq<A>, x: A, after: seq<A>)
    requires f(x) == []
    ensures FlatMap(f, before + [x] + after) == FlatMap(f, before) + FlatMap(f, after)
  {
    var upTo := before + [x];
    FlatMapAppend(f, upTo, after);
    assert DropLast(upTo) == before && Last(upTo) == x;
    assert FlatMap(f, upTo) == FlatMap(f, before) + f(x);
  }

  lemma AppendAssoc<T>(a: seq<T>, b: seq<T>, c: seq<T>)
    ensures a + b + c == a + (b + c)
  {
  }

  lemma AppendAssoc4<T>(a: seq<T>, b: seq<T>, c: seq<T>, d: seq<T>)
    ensures a + b + c + d == a + (b + (c + d))
  {
  }

  /** The prefix of length `i + 1` is the prefix of length `i` and element `i`. */
  lemma PrefixSnoc<T>(xs: seq<T>, i: nat)
    requires i < |xs|
    ensures xs[..i + 1] == xs[..i] + [xs[i]]
  {
  }

  lemma AppendAssoc5<T>(l: seq<T>, a: seq<T>, b: seq<T>, c: seq<T>, d: seq<T>, e: seq<T>)
    ensures l + a + b + c + d + e == l + (a + b + c + d + e)
  {
  }

  lemma AppendAssoc8<T>(l: seq<T>, h: seq<T>, a: seq<T>, b: seq<T>, c: seq<T>, d: seq<T>, e: seq<T>, f: seq<T>, g: seq<T>)
    ensures l + h + a + b + c + d + e + f + g == l + (h + (a + b + c + d + e + f + g))
  {
  }

  /** A filter that accepts the head and nothing after it yields the head alone. */
  lemma FilterHeadOnly<T>(p: T -> bool, h: T, body: seq<T>)
    requires p(h)
    requires forall i :: 0 <= i < |body| ==> !p(body[i])
    ensures Filter(p, [h] + body) == [h]
  {
    FilterAppend(p, [h], body);
    FilterNone(p, body);
    assert DropLast([h]) == [];
  }

  /** Nothing survives a filter that rejects every element. */
  lemma {:induction false} FilterNone<T>(p: T -> bool, xs: seq<T>)
    requires forall i :: 0 <= i < |xs| ==> !p(xs[i])
    ensures Filter(p, xs) == []
    decreases |xs|
  {
    if xs != [] {
      FilterNone(p, DropLast(xs));
    }
  }

  /**
   * A filter keeps every occurrence of an accepted value and no occurrence of a
   * rejected one; with `FilterIsSubsequence` this determines the result.
   */
  lemma {:induction false} FilterCounts<T>(p: T -> bool, xs: seq<T>, x: T)
    ensures multiset(Filter(p, xs))[x] == if p(x) then multiset(xs)[x] else 0
    decreases |xs|
  {
    if xs != [] {
      FilterCounts(p, DropLast(xs), x);
      assert xs == DropLast(xs) + [Last(xs)];
      assert multiset(xs) == multiset(DropLast(xs)) + multiset{Last(xs)};
    }
  }

  lemma {:induction false} FilterIsSubsequence<T>(p: T -> bool, xs: seq<T>)
    ensures IsSubsequence(Filter(p, xs), xs)
    decreases |xs|
  {
    if xs != [] {
      var r := Filter(p, xs);
      FilterIsSubsequence(p, DropLast(xs));
      if p(Last(xs)) {
        assert Last(r) == Last(xs) && DropLast(r) == Filter(p, DropLast(xs));
      } else {
        assert r == Filter(p, DropLast(xs));
      }
    }
  }

  /** One sequence extended with an element embeds in the other extended likewise. */
  lemma SubsequenceSnoc<T>(a: seq<T>, b: seq<T>, x: T)
    requires IsSubsequence(a, b)
    ensures IsSubsequence(a + [x], b + [x])
  {
    assert DropLast(a + [x]) == a && DropLast(b + [x]) == b;
  }

  lemma SubsequenceExtend<T>(a: seq<T>, b: seq<T>, x: T)
    requires IsSubsequence(a, b)
    ensures IsSubsequence(a, b + [x])
  {
    assert DropLast(b + [x]) == b;
  }

  lemma {:induction false} SubsequenceTransitive<T>(a: seq<T>, b: seq<T>, c: seq<T>)
    requires IsSubsequence(a, b) && IsSubsequence(b, c)
    ensures IsSubsequence(a, c)
    decreases |c|
  {
    if a != [] {
      assert b != [] && c != [];
      if Last(b) == Last(c) && IsSubsequence(DropLast(b), DropLast(c)) {
        if Last(a) == Last(b) && IsSubsequence(DropLast(a), DropLast(b)) {
          SubsequenceTransitive(DropLast(a), DropLast(b), DropLast(c));
        } else {
          SubsequenceTransitive(a, DropLast(b), DropLast(c));
        }
      } else {
        SubsequenceTransitive(a, b, DropLast(c));
      }
    }
  }
}
