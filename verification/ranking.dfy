/** Python's stable `list.sort(key=..., reverse=True)` on numeric scores, as an
    insertion sort over scored items. */
module Ranking {

  /** An item annotated with its score. */
  datatype Scored<T> = Scored(c: T, score: real)

  predicate SortedByScore<T>(s: seq<Scored<T>>) {
    forall i, j :: 0 <= i < j < |s| ==> s[i].score >= s[j].score
  }

  /** Places `x` before the first element scoring no more than it. */
  function Insert<T>(x: Scored<T>, s: seq<Scored<T>>): (r: seq<Scored<T>>)
    ensures |r| == |s| + 1
    ensures multiset(r) == multiset(s) + multiset{x}
  {
    if |s| == 0 || x.score >= s[0].score then [x] + s
    else
      assert s == [s[0]] + s[1..];
      [s[0]] + Insert(x, s[1..])
  }

  /** Everything `Insert` returns is `x` or an element of `s`. */
  lemma InsertMembers<T>(x: Scored<T>, s: seq<Scored<T>>, y: Scored<T>)
    requires y in Insert(x, s)
    ensures y == x || y in s
  {
    assert y in multiset(Insert(x, s));
  }

  /** Insertion keeps a ranked sequence ranked. */
  lemma {:induction false} InsertSorted<T>(x: Scored<T>, s: seq<Scored<T>>)
    requires SortedByScore(s)
    ensures SortedByScore(Insert(x, s))
    decreases |s|
  {
    if |s| > 0 && x.score < s[0].score {
      var t := Insert(x, s[1..]);
      var r := [s[0]] + t;
      assert r == Insert(x, s);
      InsertSorted(x, s[1..]);
      forall i, j | 0 <= i < j < |r| ensures r[i].score >= r[j].score {
        assert r[j] == t[j - 1];
        if i == 0 {
          InsertMembers(x, s[1..], t[j - 1]);
        } else {
          assert r[i] == t[i - 1];
        }
      }
    }
  }

  /** `list.sort(key=score, reverse=True)`, which is stable. */
  function RankByScore<T>(s: seq<Scored<T>>): (r: seq<Scored<T>>)
    ensures |r| == |s|
    ensures SortedByScore(r)
    ensures multiset(r) == multiset(s)
  {
    if |s| == 0 then []
    else
      assert s == [s[0]] + s[1..];
      var rest := RankByScore(s[1..]);
      InsertSorted(s[0], rest);
      Insert(s[0], rest)
  }

  /** The elements with score `v`, in order. */
  function WithScore<T>(s: seq<Scored<T>>, v: real): seq<Scored<T>> {
    if |s| == 0 then []
    else (if s[0].score == v then [s[0]] else []) + WithScore(s[1..], v)
  }

  /** Inserting `x` adds it to the elements of its own score, ahead of them. */
  lemma {:induction false} InsertWithScore<T>(x: Scored<T>, s: seq<Scored<T>>, v: real)
    ensures WithScore(Insert(x, s), v) == (if x.score == v then [x] else []) + WithScore(s, v)
    decreases |s|
  {
    if |s| == 0 || x.score >= s[0].score {
      assert ([x] + s)[1..] == s;
    } else {
      var t := Insert(x, s[1..]);
      InsertWithScore(x, s[1..], v);
      assert Insert(x, s) == [s[0]] + t;
      assert ([s[0]] + t)[1..] == t;
      var head := if s[0].score == v then [s[0]] else [];
      assert WithScore([s[0]] + t, v) == head + WithScore(t, v);
      assert WithScore(s, v) == head + WithScore(s[1..], v);
      if x.score == v {
        assert head == [];
      } else {
        assert WithScore(t, v) == WithScore(s[1..], v);
      }
    }
  }

  /** Stability: elements of equal score keep their input order. */
  lemma {:induction false} RankByScoreStable<T>(s: seq<Scored<T>>, v: real)
    ensures WithScore(RankByScore(s), v) == WithScore(s, v)
    decreases |s|
  {
    if |s| > 0 {
      RankByScoreStable(s[1..], v);
      InsertWithScore(s[0], RankByScore(s[1..]), v);
    }
  }


  /** Each item annotated with its score under `f`, in input order. */
  function Annotate<T>(f: T -> real, xs: seq<T>): (s: seq<Scored<T>>)
    ensures |s| == |xs|
    ensures forall i :: 0 <= i < |xs| ==> s[i] == Scored(xs[i], f(xs[i]))
  {
    if |xs| == 0 then [] else [Scored(xs[0], f(xs[0]))] + Annotate(f, xs[1..])
  }

  /** Ranking only reorders the annotated items. */
  lemma RankedAnnotations<T>(f: T -> real, xs: seq<T>)
    ensures forall y :: y in RankByScore(Annotate(f, xs)) ==> y.score == f(y.c) && y.c in xs
  {
    var scored := Annotate(f, xs);
    forall y | y in RankByScore(scored)
      ensures y.score == f(y.c) && y.c in xs
    {
      assert y in multiset(RankByScore(scored));
      var k :| 0 <= k < |scored| && scored[k] == y;
    }
  }
}
