/** Sequence vocabulary shared by the other modules. */
module Seqs {

  /** Sum of the first j elements. */
  function SumTo(s: seq<int>, j: nat): int
    requires j <= |s|
  {
    if j == 0 then 0 else SumTo(s, j - 1) + s[j - 1]
  }

  function Sum(s: seq<int>): int {
    SumTo(s, |s|)
  }

  /** Concatenation of a sequence of sequences, in order. */
  function Flatten<T>(ss: seq<seq<T>>): seq<T> {
    if ss == [] then [] else Flatten(ss[..|ss| - 1]) + ss[|ss| - 1]
  }

  /** The n consecutive naturals from base on. */
  function Range(base: nat, n: nat): (r: seq<nat>)
    ensures |r| == n
  {
    seq(n, i requires 0 <= i < n => base + i)
  }

  ghost predicate Distinct<T>(s: seq<T>) {
    forall i, j :: 0 <= i < j < |s| ==> s[i] != s[j]
  }

  lemma SumToStep(s: seq<int>, j: nat)
    requires j < |s|
    ensures SumTo(s, j + 1) == SumTo(s, j) + s[j]
  {
  }

  /** A partial sum depends only on the elements it covers. */
  lemma {:induction false} SumToSame(s: seq<int>, t: seq<int>, j: nat)
    requires j <= |s| && j <= |t|
    requires forall i :: 0 <= i < j ==> s[i] == t[i]
    ensures SumTo(s, j) == SumTo(t, j)
  {
    if j > 0 {
      SumToSame(s, t, j - 1);
    }
  }

  /** A sum whose terms are all the same value. */
  lemma {:induction false} SumToConstant(s: seq<int>, j: nat, c: int)
    requires j <= |s|
    requires forall i :: 0 <= i < j ==> s[i] == c
    ensures SumTo(s, j) == j * c
  {
    if j > 0 {
      SumToConstant(s, j - 1, c);
    }
  }

  lemma {:induction false} SumToMonotone(s: seq<int>, j: nat, k: nat)
    requires j <= k <= |s|
    requires forall i :: 0 <= i < |s| ==> s[i] >= 0
    ensures 0 <= SumTo(s, j) <= SumTo(s, k)
    decreases k
  {
    if k > 0 {
      SumToMonotone(s, if j < k then j else k - 1, k - 1);
    }
  }

  lemma SumOfOne(a: int)
    ensures Sum([a]) == a
  {
    assert SumTo([a], 0) == 0;
  }

  lemma SumOfTwo(a: int, b: int)
    ensures Sum([a, b]) == a + b
  {
    SumToStep([a, b], 0);
    SumToStep([a, b], 1);
  }

  lemma SumOfFour(a: int, b: int, c: int, d: int)
    ensures Sum([a, b, c, d]) == a + b + c + d
  {
    var s := [a, b, c, d];
    assert SumTo(s, 1) == a;
    assert SumTo(s, 3) == a + b + c;
  }

  ghost predicate Apart<T>(a: seq<T>, b: seq<T>) {
    forall i, j :: 0 <= i < |a| && 0 <= j < |b| ==> a[i] != b[j]
  }

  lemma DistinctConcat<T>(a: seq<T>, b: seq<T>)
    ensures Distinct(a + b) <==> Distinct(a) && Distinct(b) && Apart(a, b)
  {
    var s := a + b;
    if Distinct(s) {
      forall i, j | 0 <= i < j < |a|
        ensures a[i] != a[j]
      {
        assert s[i] == a[i] && s[j] == a[j];
      }
      forall i, j | 0 <= i < j < |b|
        ensures b[i] != b[j]
      {
        assert s[|a| + i] == b[i] && s[|a| + j] == b[j];
      }
      forall i, j | 0 <= i < |a| && 0 <= j < |b|
        ensures a[i] != b[j]
      {
        assert s[i] == a[i] && s[|a| + j] == b[j];
      }
    }
  }

  lemma ApartConcat<T>(a: seq<T>, b: seq<T>, c: seq<T>)
    ensures Apart(a + b, c) <==> Apart(a, c) && Apart(b, c)
  {
    var s := a + b;
    if Apart(s, c) {
      forall i, j | 0 <= i < |a| && 0 <= j < |c|
        ensures a[i] != c[j]
      {
        assert s[i] == a[i];
      }
      forall i, j | 0 <= i < |b| && 0 <= j < |c|
        ensures b[i] != c[j]
      {
        assert s[|a| + i] == b[i];
      }
    }
  }
}
