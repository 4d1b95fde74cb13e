/** Options, and sums over the rows of a table with the update lemmas the ledger proofs use. */
module Sums {

  datatype Option<+T> = None | Some(value: T)

  /** The sum of f over the first n elements of s. */
  function SumTo<T>(s: seq<T>, n: nat, f: T -> int): int
    requires n <= |s|
  {
    if n == 0 then 0 else SumTo(s, n - 1, f) + f(s[n - 1])
  }

  /** The sum of f over the elements of s. */
  function Sum<T>(s: seq<T>, f: T -> int): int {
    SumTo(s, |s|, f)
  }

  /** Prefix sums only read the prefix, and equal contributions give equal sums. */
  lemma {:induction false} SumToPointwise<T>(s: seq<T>, t: seq<T>, n: nat, f: T -> int, g: T -> int)
    requires n <= |s| && n <= |t|
    requires forall i | 0 <= i < n :: f(s[i]) == g(t[i])
    ensures SumTo(s, n, f) == SumTo(t, n, g)
  {
    if n > 0 {
      SumToPointwise(s, t, n - 1, f, g);
    }
  }

  lemma SumPointwise<T>(s: seq<T>, t: seq<T>, f: T -> int, g: T -> int)
    requires |s| == |t|
    requires forall i | 0 <= i < |s| :: f(s[i]) == g(t[i])
    ensures Sum(s, f) == Sum(t, g)
  {
    SumToPointwise(s, t, |s|, f, g);
  }

  /** Appending one row moves a sum by that row's own contribution. */
  lemma SumAppend<T>(s: seq<T>, x: T, f: T -> int)
    ensures Sum(s + [x], f) == Sum(s, f) + f(x)
  {
    SumToPointwise(s + [x], s, |s|, f, f);
  }

  lemma {:induction false} SumToUpdate<T>(s: seq<T>, n: nat, i: nat, x: T, f: T -> int)
    requires i < n <= |s|
    ensures SumTo(s[i := x], n, f) == SumTo(s, n, f) - f(s[i]) + f(x)
  {
    if i == n - 1 {
      SumToPointwise(s[i := x], s, n - 1, f, f);
    } else {
      SumToUpdate(s, n - 1, i, x, f);
    }
  }

  /** Replacing one row moves a sum by the difference of the two contributions. */
  lemma SumUpdate<T>(s: seq<T>, i: nat, x: T, f: T -> int)
    requires i < |s|
    ensures Sum(s[i := x], f) == Sum(s, f) - f(s[i]) + f(x)
  {
    SumToUpdate(s, |s|, i, x, f);
  }

  lemma {:induction false} SumToBounds<T>(s: seq<T>, n: nat, f: T -> int)
    requires n <= |s|
    requires forall i | 0 <= i < n :: f(s[i]) >= 0
    ensures SumTo(s, n, f) >= 0
    ensures forall i | 0 <= i < n :: f(s[i]) <= SumTo(s, n, f)
  {
    if n > 0 {
      SumToBounds(s, n - 1, f);
    }
  }

  /** Sums of nonnegative contributions bound every single contribution. */
  lemma SumBounds<T>(s: seq<T>, f: T -> int)
    requires forall i | 0 <= i < |s| :: f(s[i]) >= 0
    ensures Sum(s, f) >= 0
    ensures forall i | 0 <= i < |s| :: f(s[i]) <= Sum(s, f)
  {
    SumToBounds(s, |s|, f);
  }

  lemma {:induction false} SumToZero<T>(s: seq<T>, n: nat, f: T -> int)
    requires n <= |s|
    requires forall i | 0 <= i < n :: f(s[i]) == 0
    ensures SumTo(s, n, f) == 0
  {
    if n > 0 {
      SumToZero(s, n - 1, f);
    }
  }

  lemma SumZero<T>(s: seq<T>, f: T -> int)
    requires forall i | 0 <= i < |s| :: f(s[i]) == 0
    ensures Sum(s, f) == 0
  {
    SumToZero(s, |s|, f);
  }
}
