/**
 * `Array.prototype.filter`, `find` and `findIndex`, which the stores and the
 * in-memory API client use to select and remove records.
 */
module Seqs {
  import opened ApiTypes

  /** `s.filter(keep)`: the elements of `s` that satisfy `keep`, in their order. */
  function Filter<T(==)>(s: seq<T>, keep: T -> bool): (r: seq<T>)
    ensures |r| <= |s|
    ensures forall k :: 0 <= k < |r| ==> keep(r[k]) && r[k] in s
    ensures forall k :: 0 <= k < |s| && keep(s[k]) ==> s[k] in r
  {
    if s == [] then []
    else (if keep(s[0]) then [s[0]] else []) + Filter(s[1..], keep)
  }

  /** `s.findIndex(p)`, with -1 read as `None`: the first position satisfying `p`. */
  function FindIndex<T>(s: seq<T>, p: T -> bool): (r: Option<nat>)
    ensures r.Some? ==> r.value < |s| && p(s[r.value])
    ensures r.Some? ==> forall j :: 0 <= j < r.value ==> !p(s[j])
    ensures r.None? <==> forall j :: 0 <= j < |s| ==> !p(s[j])
  {
    if s == [] then None
    else if p(s[0]) then Some(0)
    else match FindIndex(s[1..], p)
      case None => None
      case Some(i) => Some(i + 1)
  }

  /** `s.find(p)`: the first element satisfying `p`. */
  function Find<T>(s: seq<T>, p: T -> bool): (r: Option<T>)
  {
    match FindIndex(s, p)
    case None => None
    case Some(i) => Some(s[i])
  }

  /** Filtering distributes over concatenation: the kept elements stay in their
      relative order. */
  lemma {:induction false} FilterAppend<T>(a: seq<T>, b: seq<T>, keep: T -> bool)
    ensures Filter(a + b, keep) == Filter(a, keep) + Filter(b, keep)
  {
    if a != [] {
      assert (a + b)[1..] == a[1..] + b;
      FilterAppend(a[1..], b, keep);
    } else {
      assert a + b == b;
    }
  }

  /** Filtering keeps every occurrence of each kept value and none of the others. */
  lemma {:induction false} FilterMultiplicity<T>(s: seq<T>, keep: T -> bool, x: T)
    ensures multiset(Filter(s, keep))[x] == if keep(x) then multiset(s)[x] else 0
  {
    if s != [] {
      var head := if keep(s[0]) then [s[0]] else [];
      FilterMultiplicity(s[1..], keep, x);
      assert Filter(s, keep) == head + Filter(s[1..], keep);
      assert multiset(Filter(s, keep)) == multiset(head) + multiset(Filter(s[1..], keep));
      assert s == [s[0]] + s[1..];
      assert multiset(s) == multiset([s[0]]) + multiset(s[1..]);
    }
  }

  /** A filter that keeps everything returns its input. */
  lemma {:induction false} FilterKeepsAll<T>(s: seq<T>, keep: T -> bool)
    requires forall k :: 0 <= k < |s| ==> keep(s[k])
    ensures Filter(s, keep) == s
  {
    if s != [] {
      FilterKeepsAll(s[1..], keep);
    }
  }

  /** The head of a filtered sequence is what `find` returns. */
  lemma {:induction false} FilterHeadIsFind<T>(s: seq<T>, keep: T -> bool)
    ensures Filter(s, keep) == [] <==> Find(s, keep).None?
    ensures Filter(s, keep) != [] ==> Filter(s, keep)[0] == Find(s, keep).value
  {
    if s != [] && !keep(s[0]) {
      FilterHeadIsFind(s[1..], keep);
    }
  }

  /** `for (const x of s) out.push(...f(x))`: the outputs of every element,
      element by element in order. */
  function FlatMap<T, U>(s: seq<T>, f: T -> seq<U>): seq<U> {
    if s == [] then [] else FlatMap(s[..|s| - 1], f) + f(s[|s| - 1])
  }

  /** Nothing is produced exactly when no element produces anything. */
  lemma {:induction false} FlatMapEmpty<T, U>(s: seq<T>, f: T -> seq<U>)
    ensures FlatMap(s, f) == [] <==> forall k :: 0 <= k < |s| ==> f(s[k]) == []
  {
    if s != [] {
      var init := s[..|s| - 1];
      FlatMapEmpty(init, f);
      assert forall k :: 0 <= k < |init| ==> init[k] == s[k];
    }
  }

  /** Elements that produce at most `m` outputs each produce at most `m`
      per element in all. */
  lemma {:induction false} FlatMapBound<T, U>(s: seq<T>, f: T -> seq<U>, m: nat)
    requires forall k :: 0 <= k < |s| ==> |f(s[k])| <= m
    ensures |FlatMap(s, f)| <= m * |s|
  {
    if s != [] {
      var init := s[..|s| - 1];
      assert forall k :: 0 <= k < |init| ==> init[k] == s[k];
      FlatMapBound(init, f, m);
    }
  }

  /** A loop that has pushed the outputs of the first `i` elements after
      `pre` and then pushes those of element `i` has pushed the first `i + 1`. */
  lemma FlatMapStep<T, U>(pre: seq<U>, s: seq<T>, f: T -> seq<U>, i: nat, r: seq<U>, r': seq<U>)
    requires i < |s| && r == pre + FlatMap(s[..i], f) && r' == r + f(s[i])
    ensures r' == pre + FlatMap(s[..i + 1], f)
  {
    FlatMapExtend(s, f, i);
  }

  /** Walking one more element appends its outputs. */
  lemma FlatMapExtend<T, U>(s: seq<T>, f: T -> seq<U>, i: nat)
    requires i < |s|
    ensures FlatMap(s[..i + 1], f) == FlatMap(s[..i], f) + f(s[i])
  {
    assert s[..i + 1][..i] == s[..i];
  }
}
