/**
 * Sequence operations that the form code gets from JavaScript's Array and
 * Set: `find`/`findIndex`, `filter`, `[...new Set(xs)]`, `flatMap`, `join`
 * and a comparator `sort`.
 */
module Seqs {

  datatype Option<+T> = None | Some(value: T) {
    function GetOr(default: T): T {
      match this
      case Some(v) => v
      case None => default
    }
  }

  datatype Result<+T, +E> = Success(value: T) | Failure(error: E)

  /** No element occurs twice. */
  ghost predicate NoDuplicates<T>(s: seq<T>) {
    forall i, j :: 0 <= i < j < |s| ==> s[i] != s[j]
  }

  /** Index of the first element satisfying `p`, as `Array.prototype.findIndex`
      (None where JavaScript answers -1). */
  function FindFirst<T>(s: seq<T>, p: T -> bool): (r: Option<nat>)
    ensures r.Some? ==> r.value < |s| && p(s[r.value])
    ensures r.Some? ==> forall j :: 0 <= j < r.value ==> !p(s[j])
    ensures r.None? ==> forall j :: 0 <= j < |s| ==> !p(s[j])
  {
    if s == [] then None
    else if p(s[0]) then Some(0)
    else
      match FindFirst(s[1..], p)
      case None => None
      case Some(i) => Some(i + 1)
  }

  /** Position of the first occurrence of `x` in `s`. */
  function FirstIndex<T(==)>(s: seq<T>, x: T): (i: nat)
    requires x in s
    ensures i < |s| && s[i] == x && x !in s[..i]
  {
    if s[0] == x then 0
    else
      assert x in s[1..] by { var k :| 0 <= k < |s| && s[k] == x; assert s[1..][k - 1] == x; }
      var j := FirstIndex(s[1..], x);
      assert s[..j + 1] == [s[0]] + s[1..][..j];
      j + 1
  }

  /** `[...new Set(s)]`: the elements of `s` without repetition, each kept
      at its first occurrence. */
  function Distinct<T(==)>(s: seq<T>): (r: seq<T>)
    ensures forall i :: 0 <= i < |r| ==> r[i] in s
    ensures forall i :: 0 <= i < |s| ==> s[i] in r
    ensures NoDuplicates(r)
  {
    if s == [] then []
    else
      var p, x := s[..|s| - 1], s[|s| - 1];
      assert s == p + [x];
      Distinct(p) + (if x in p then [] else [x])
  }

  /** The filter `s.filter((item, index, self) => index === self.findIndex(t => t === item))`
      over the first `n` elements, written the way the source writes it. */
  function KeepFirstOccurrences<T(==)>(s: seq<T>, n: nat): seq<T>
    requires n <= |s|
  {
    if n == 0 then []
    else KeepFirstOccurrences(s, n - 1) + (if FirstIndex(s, s[n - 1]) == n - 1 then [s[n - 1]] else [])
  }

  /** The findIndex filter and the Set spread compute the same list. */
  lemma {:induction false} KeepFirstOccurrencesIsDistinct<T>(s: seq<T>, n: nat)
    requires n <= |s|
    ensures KeepFirstOccurrences(s, n) == Distinct(s[..n])
  {
    if n > 0 {
      KeepFirstOccurrencesIsDistinct(s, n - 1);
      var x := s[n - 1];
      assert s[..n][..n - 1] == s[..n - 1];
      assert s[..n][n - 1] == x;
      var f := FirstIndex(s, x);
      if f < n - 1 {
        assert x in s[..n - 1] by { assert s[..n - 1][f] == x; }
      } else if f == n - 1 {
        assert s[..n - 1] == s[..f];
      }
    }
  }

  /** Distinct keeps first-occurrence order: earlier in the result means
      first seen earlier in the input. */
  lemma {:induction false} DistinctKeepsFirstOccurrenceOrder<T>(s: seq<T>, i: nat, j: nat)
    requires i < j < |Distinct(s)|
    ensures FirstIndex(s, Distinct(s)[i]) < FirstIndex(s, Distinct(s)[j])
  {
    var p, x := s[..|s| - 1], s[|s| - 1];
    assert s == p + [x];
    var d := Distinct(p);
    assert Distinct(s) == d + (if x in p then [] else [x]);
    var a, b := Distinct(s)[i], Distinct(s)[j];
    if j < |d| {
      DistinctKeepsFirstOccurrenceOrder(p, i, j);
      FirstIndexOfPrefix(p, x, a);
      FirstIndexOfPrefix(p, x, b);
    } else {
      assert b == x && x !in p;
      assert a == d[i] && a in p;
      FirstIndexOfPrefix(p, x, a);
      assert FirstIndex(s, a) < |p|;
      assert FirstIndex(s, b) == |p|;
    }
  }

  /** Appending an element does not move the first occurrence of anything
      already present. */
  lemma FirstIndexOfPrefix<T>(p: seq<T>, x: T, a: T)
    requires a in p
    ensures FirstIndex(p + [x], a) == FirstIndex(p, a)
  {
    var s := p + [x];
    var f, g := FirstIndex(s, a), FirstIndex(p, a);
    assert s[g] == a;
  }

  /** `Array.prototype.filter`. */
  function Filter<T>(s: seq<T>, p: T -> bool): (r: seq<T>)
    ensures |r| <= |s|
    ensures forall i :: 0 <= i < |r| ==> r[i] in s && p(r[i])
    ensures forall i :: 0 <= i < |s| && p(s[i]) ==> s[i] in r
    ensures multiset(r) <= multiset(s)
  {
    if s == [] then []
    else
      assert s == [s[0]] + s[1..];
      (if p(s[0]) then [s[0]] else []) + Filter(s[1..], p)
  }

  /** The field-array `remove(k)` for an index in range: the item at `k`
      goes, the others keep their relative order. */
  function RemoveAt<T>(s: seq<T>, k: nat): (r: seq<T>)
    requires k < |s|
    ensures |r| == |s| - 1
    ensures forall j :: 0 <= j < k ==> r[j] == s[j]
    ensures forall j :: k <= j < |r| ==> r[j] == s[j + 1]
    ensures multiset(r) + multiset{s[k]} == multiset(s)
  {
    assert s == s[..k] + [s[k]] + s[k + 1..];
    s[..k] + s[k + 1..]
  }

  /** `r` can be obtained from `s` by deleting elements. */
  predicate IsSubsequence<T(==)>(r: seq<T>, s: seq<T>)
  {
    if r == [] then true
    else if s == [] then false
    else if r[0] == s[0] then IsSubsequence(r[1..], s[1..])
    else IsSubsequence(r, s[1..])
  }

  lemma {:induction false} FilterIsSubsequence<T>(s: seq<T>, p: T -> bool)
    ensures IsSubsequence(Filter(s, p), s)
  {
    if s != [] {
      FilterIsSubsequence(s[1..], p);
      if !p(s[0]) {
        assert Filter(s, p) == Filter(s[1..], p);
        SubsequenceOfTail(Filter(s[1..], p), s);
      }
    }
  }

  lemma {:induction false} SubsequenceOfTail<T>(r: seq<T>, s: seq<T>)
    requires s != [] && IsSubsequence(r, s[1..])
    ensures IsSubsequence(r, s)
    decreases |s|, 0
  {
    if r != [] && r[0] == s[0] {
      SubsequenceDropHead(r, s[1..]);
    }
  }

  lemma {:induction false} SubsequenceDropHead<T>(r: seq<T>, t: seq<T>)
    requires r != [] && IsSubsequence(r, t)
    ensures IsSubsequence(r[1..], t)
    decreases |t|, 1
  {
    if r[0] == t[0] {
      SubsequenceOfTail(r[1..], t);
    } else {
      SubsequenceDropHead(r, t[1..]);
      SubsequenceOfTail(r[1..], t);
    }
  }

  /** Filtering a non-empty list: the head counts once if it is kept. */
  lemma FilterHead<T>(s: seq<T>, p: T -> bool)
    requires s != []
    ensures multiset(Filter(s, p)) == (if p(s[0]) then multiset{s[0]} else multiset{}) + multiset(Filter(s[1..], p))
  {
    assert Filter(s, p) == (if p(s[0]) then [s[0]] else []) + Filter(s[1..], p);
  }

  /** Splitting by a predicate and its negation loses and invents nothing:
      the two parts together are a permutation of the input. */
  lemma {:induction false} FilterPartition<T>(s: seq<T>, p: T -> bool, q: T -> bool)
    requires forall x :: q(x) == !p(x)
    ensures multiset(Filter(s, p)) + multiset(Filter(s, q)) == multiset(s)
  {
    if s != [] {
      var x, rest := s[0], s[1..];
      FilterPartition(rest, p, q);
      FilterHead(s, p);
      FilterHead(s, q);
      MultisetOfCons(s);
      var kept, dropped := multiset(Filter(rest, p)), multiset(Filter(rest, q));
      if p(x) {
        assert multiset(Filter(s, p)) + multiset(Filter(s, q)) == multiset{x} + (kept + dropped);
      } else {
        assert multiset(Filter(s, p)) + multiset(Filter(s, q)) == multiset{x} + (kept + dropped);
      }
    }
  }

  /** A non-empty list counts its head once more than its tail. */
  lemma MultisetOfCons<T>(s: seq<T>)
    requires s != []
    ensures multiset(s) == multiset{s[0]} + multiset(s[1..])
  {
    assert s == [s[0]] + s[1..];
  }

  /** Every element kept by the filter keeps its multiplicity. */
  lemma {:induction false} FilterCount<T>(s: seq<T>, p: T -> bool, x: T)
    requires p(x)
    ensures multiset(Filter(s, p))[x] == multiset(s)[x]
  {
    if s != [] {
      FilterCount(s[1..], p, x);
      FilterHead(s, p);
      MultisetOfCons(s);
    }
  }

  /** `xs.flatMap(f)` where `f` returns a list. */
  function FlatMap<T, U>(s: seq<T>, f: T -> seq<U>): (r: seq<U>)
    ensures forall i :: 0 <= i < |s| ==> multiset(f(s[i])) <= multiset(r)
  {
    if s == [] then []
    else
      var rest := FlatMap(s[1..], f);
      assert forall i :: 1 <= i < |s| ==> multiset(f(s[i])) <= multiset(rest) by {
        forall i | 1 <= i < |s| ensures multiset(f(s[i])) <= multiset(rest) { assert s[i] == s[1..][i - 1]; }
      }
      f(s[0]) + rest
  }

  lemma {:induction false} FlatMapLength<T, U>(s: seq<T>, f: T -> seq<U>, t: T)
    ensures |FlatMap(s + [t], f)| == |FlatMap(s, f)| + |f(t)|
  {
    if s != [] {
      assert (s + [t])[1..] == s[1..] + [t];
      FlatMapLength(s[1..], f, t);
    } else {
      assert [t][1..] == [];
    }
  }

  /** `xs.join(sep)`. */
  function Join(xs: seq<string>, sep: string): string
  {
    if xs == [] then ""
    else if |xs| == 1 then xs[0]
    else xs[0] + sep + Join(xs[1..], sep)
  }

  /** A comparator's "comes no later than", as a total preorder: any two
      strings are comparable and the relation is transitive. Strings that
      compare equal need not be equal (`localeCompare` returns 0 for them). */
  ghost predicate TotalPreorder(le: (string, string) -> bool)
  {
    && (forall a, b :: le(a, b) || le(b, a))
    && (forall a, b, c :: le(a, b) && le(b, c) ==> le(a, c))
  }

  ghost predicate SortedBy<T>(s: seq<T>, key: T -> string, le: (string, string) -> bool)
  {
    forall i, j :: 0 <= i < j < |s| ==> le(key(s[i]), key(s[j]))
  }

  /** Insert `x` in front of the first element it does not come after. */
  function InsertBy<T>(x: T, s: seq<T>, key: T -> string, le: (string, string) -> bool): (r: seq<T>)
    ensures multiset(r) == multiset(s) + multiset{x}
    ensures |r| == |s| + 1
  {
    if s == [] || le(key(x), key(s[0])) then [x] + s
    else
      assert s == [s[0]] + s[1..];
      [s[0]] + InsertBy(x, s[1..], key, le)
  }

  /** `s.sort((a, b) => compare(key(a), key(b)))` on a fresh array. */
  function SortBy<T>(s: seq<T>, key: T -> string, le: (string, string) -> bool): (r: seq<T>)
    ensures multiset(r) == multiset(s)
    ensures |r| == |s|
  {
    if s == [] then []
    else
      assert s == [s[0]] + s[1..];
      InsertBy(s[0], SortBy(s[1..], key, le), key, le)
  }

  lemma {:induction false} InsertBySorted<T>(x: T, s: seq<T>, key: T -> string, le: (string, string) -> bool)
    requires TotalPreorder(le) && SortedBy(s, key, le)
    ensures SortedBy(InsertBy(x, s, key, le), key, le)
  {
    if s != [] && !le(key(x), key(s[0])) {
      assert le(key(s[0]), key(x));
      InsertBySorted(x, s[1..], key, le);
      var t := InsertBy(x, s[1..], key, le);
      forall k | 0 <= k < |t| ensures le(key(s[0]), key(t[k])) {
        assert t[k] in multiset(t);
        assert t[k] in multiset(s[1..]) + multiset{x};
        if t[k] != x {
          assert t[k] in s[1..];
        }
      }
    }
  }

  /** Under a total preorder the comparator sort yields a sorted
      permutation of its input. */
  lemma {:induction false} SortBySorted<T>(s: seq<T>, key: T -> string, le: (string, string) -> bool)
    requires TotalPreorder(le)
    ensures SortedBy(SortBy(s, key, le), key, le)
  {
    if s != [] {
      SortBySorted(s[1..], key, le);
      InsertBySorted(s[0], SortBy(s[1..], key, le), key, le);
    }
  }
}
