/** Python's list comprehension filter and its stable `sorted`, as used by the
    listing queries, together with Python's ordering of strings. */
module Sorting {

  /** `[x for x in xs if keep(x)]`. */
  function Filter<T(!new)>(xs: seq<T>, keep: T -> bool): (r: seq<T>)
    ensures forall x :: multiset(r)[x] == if keep(x) then multiset(xs)[x] else 0
  {
    if xs == [] then []
    else
      var rest := Filter(xs[1..], keep);
      assert xs == [xs[0]] + xs[1..];
      if keep(xs[0]) then [xs[0]] + rest else rest
  }

  ghost predicate Total<T(!new)>(leq: (T, T) -> bool) {
    forall a, b :: leq(a, b) || leq(b, a)
  }

  ghost predicate Transitive<T(!new)>(leq: (T, T) -> bool) {
    forall a, b, c :: leq(a, b) && leq(b, c) ==> leq(a, c)
  }

  ghost predicate SortedBy<T>(s: seq<T>, leq: (T, T) -> bool) {
    forall i, j :: 0 <= i < j < |s| ==> leq(s[i], s[j])
  }

  /** Places `x` before the first element it does not follow, so that `x`
      stays ahead of every element with an equal key (stability). */
  function Insert<T>(x: T, s: seq<T>, leq: (T, T) -> bool): (r: seq<T>)
    ensures multiset(r) == multiset(s) + multiset{x}
  {
    if s == [] || leq(x, s[0]) then [x] + s
    else
      assert s == [s[0]] + s[1..];
      [s[0]] + Insert(x, s[1..], leq)
  }

  /** A stable sort: an insertion sort from the back of the sequence. */
  function Sort<T>(xs: seq<T>, leq: (T, T) -> bool): (r: seq<T>)
    ensures multiset(r) == multiset(xs)
  {
    if xs == [] then []
    else
      assert xs == [xs[0]] + xs[1..];
      Insert(xs[0], Sort(xs[1..], leq), leq)
  }

  lemma {:induction false} InsertSorted<T(!new)>(x: T, s: seq<T>, leq: (T, T) -> bool)
    requires Total(leq) && Transitive(leq)
    requires SortedBy(s, leq)
    ensures SortedBy(Insert(x, s, leq), leq)
  {
    if s == [] || leq(x, s[0]) {
      var r := [x] + s;
      forall i, j | 0 <= i < j < |r| ensures leq(r[i], r[j]) {
        if i == 0 && j > 1 {
          assert leq(s[0], s[j - 1]);
        }
      }
    } else {
      var tail := Insert(x, s[1..], leq);
      InsertSorted(x, s[1..], leq);
      var r := [s[0]] + tail;
      forall j | 0 <= j < |tail| ensures leq(s[0], tail[j]) {
        assert tail[j] in multiset(tail);
        assert tail[j] in multiset(s[1..]) + multiset{x};
        if tail[j] in multiset(s[1..]) {
          var k :| 0 <= k < |s[1..]| && s[1..][k] == tail[j];
          assert s[k + 1] == tail[j];
        }
      }
      forall i, j | 0 <= i < j < |r| ensures leq(r[i], r[j]) {
        if i > 0 {
          assert r[i] == tail[i - 1] && r[j] == tail[j - 1];
        } else {
          assert r[j] == tail[j - 1];
        }
      }
    }
  }

  lemma {:induction false} SortSorted<T(!new)>(xs: seq<T>, leq: (T, T) -> bool)
    requires Total(leq) && Transitive(leq)
    ensures SortedBy(Sort(xs, leq), leq)
  {
    if xs != [] {
      SortSorted(xs[1..], leq);
      InsertSorted(xs[0], Sort(xs[1..], leq), leq);
    }
  }

  /** Python's `a <= b` on `str`: code-point lexicographic order, a proper
      prefix coming first. */
  predicate StrLeq(a: string, b: string)
  {
    if a == [] then true
    else if b == [] then false
    else if a[0] != b[0] then a[0] < b[0]
    else StrLeq(a[1..], b[1..])
  }

  lemma {:induction false} StrLeqTotal(a: string, b: string)
    ensures StrLeq(a, b) || StrLeq(b, a)
  {
    if a != [] && b != [] && a[0] == b[0] {
      StrLeqTotal(a[1..], b[1..]);
    }
  }

  lemma {:induction false} StrLeqTransitive(a: string, b: string, c: string)
    requires StrLeq(a, b) && StrLeq(b, c)
    ensures StrLeq(a, c)
  {
    if a != [] && b != [] && c != [] && a[0] == b[0] && b[0] == c[0] {
      StrLeqTransitive(a[1..], b[1..], c[1..]);
    }
  }
}
