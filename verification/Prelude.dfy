/** Small general definitions shared by the models. */
module Prelude {

  datatype Option<+T> = None | Some(value: T)

  /** How many positions of s hold x. */
  function Count<T(==)>(s: seq<T>, x: T): (n: nat)
    ensures n <= |s|
  {
    if s == [] then 0 else Count(s[..|s| - 1], x) + (if s[|s| - 1] == x then 1 else 0)
  }

  lemma {:induction false} CountUpdate<T>(s: seq<T>, i: nat, y: T, x: T)
    requires i < |s|
    ensures Count(s[i := y], x) == Count(s, x) - (if s[i] == x then 1 else 0) + (if y == x then 1 else 0)
  {
    var n := |s| - 1;
    if i == n {
      assert s[i := y][..n] == s[..n];
    } else {
      CountUpdate(s[..n], i, y, x);
      assert s[i := y][..n] == s[..n][i := y];
    }
  }

  lemma {:induction false} CountSame<T>(s: seq<T>, t: seq<T>, x: T)
    requires |s| == |t|
    requires forall i :: 0 <= i < |s| ==> (s[i] == x <==> t[i] == x)
    ensures Count(s, x) == Count(t, x)
  {
    if s != [] {
      CountSame(s[..|s| - 1], t[..|t| - 1], x);
    }
  }

  lemma {:induction false} CountPositive<T>(s: seq<T>, i: nat)
    requires i < |s|
    ensures Count(s, s[i]) >= 1
  {
    if i < |s| - 1 {
      assert s[..|s| - 1][i] == s[i];
      CountPositive(s[..|s| - 1], i);
    }
  }

  lemma {:induction false} CountZero<T>(s: seq<T>, x: T)
    requires x !in s
    ensures Count(s, x) == 0
  {
    if s != [] {
      CountZero(s[..|s| - 1], x);
    }
  }

  /** Two kinds of element never take more room than the sequence has. */
  lemma {:induction false} CountTwo<T>(s: seq<T>, x: T, y: T)
    requires x != y
    ensures Count(s, x) + Count(s, y) <= |s|
  {
    if s != [] {
      CountTwo(s[..|s| - 1], x, y);
    }
  }

  /** Two positions holding x count twice. */
  lemma {:induction false} CountPair<T>(s: seq<T>, i: nat, j: nat)
    requires i < j < |s| && s[i] == s[j]
    ensures Count(s, s[j]) >= 2
  {
    var n := |s| - 1;
    if j == n {
      assert s[..n][i] == s[j];
      CountPositive(s[..n], i);
    } else {
      assert s[..n][i] == s[i] && s[..n][j] == s[j];
      CountPair(s[..n], i, j);
    }
  }

  /** A positive count has a position. */
  lemma {:induction false} CountWitness<T>(s: seq<T>, x: T) returns (i: nat)
    requires Count(s, x) > 0
    ensures i < |s| && s[i] == x
  {
    var n := |s| - 1;
    if s[n] == x {
      i := n;
    } else {
      i := CountWitness(s[..n], x);
    }
  }
}
