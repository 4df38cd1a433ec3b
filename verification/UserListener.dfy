/** CUserListener: clients are given to the listener threads in turn by rotating the list. */
module UserListener {
  import opened Prelude

  /** k modulo n, and k divided by n rounded down, by taking n away. */
  function Rem(k: nat, n: nat): (r: nat)
    requires n > 0
    ensures r < n
  {
    if k < n then k else Rem(k - n, n)
  }

  function Quot(k: nat, n: nat): nat
    requires n > 0
  {
    if k < n then 0 else Quot(k - n, n) + 1
  }

  lemma {:induction false} Division(k: nat, n: nat)
    requires n > 0
    ensures Quot(k, n) * n + Rem(k, n) == k
  {
    if k >= n {
      Division(k - n, n);
    }
  }

  function Rotated<T>(s: seq<T>, k: nat): seq<T>
    requires s != []
  {
    s[Rem(k, |s|)..] + s[..Rem(k, |s|)]
  }

  /** The list once its first has been served: used by assign and by the account of many. */
  function Dealt<T>(ths: seq<T>): (r: seq<T>)
    requires ths != []
    ensures |r| == |ths|
  {
    ths[1..] + [ths[0]]
  }

  class CListenThread {
    var clients: seq<nat>

    constructor ()
      ensures clients == []
    {
      clients := [];
    }

    method Assign(c: nat)
      modifies this
      ensures clients == old(clients) + [c]
    {
      clients := clients + [c];
    }
  }

  class CUserListener {
    var ths: seq<CListenThread>

    constructor (ts: seq<CListenThread>)
      ensures ths == ts
    {
      ths := ts;
    }

    method Assign(c: nat)
      requires ths != []
      modifies this, ths[0]
      ensures ths == Dealt(old(ths)) == Rotated(old(ths), 1)
      ensures old(ths[0]).clients == old(ths[0].clients) + [c]
    {
      ths[0].Assign(c);
      var th := ths[0];
      ths := ths[1..];
      ths := ths + [th];
      RotateOnce(old(ths));
    }
  }

  // ----- any number of clients ------------------------------------------------------------------

  /** The list after assigning the clients one by one, and who was given to whom. */
  function AssignAll<T>(ths: seq<T>, cs: seq<nat>): (r: (seq<T>, seq<(T, nat)>))
    requires ths != []
    ensures |r.0| == |ths|
  {
    if cs == [] then (ths, [])
    else
      var (list, log) := AssignAll(ths, cs[..|cs| - 1]);
      (Dealt(list), log + [(list[0], cs[|cs| - 1])])
  }

  /** After k clients the list is the original rotated by k modulo n, and the i-th client
      went to the thread that stood at i modulo n. */
  lemma {:induction false} DealtInTurn<T>(ths: seq<T>, cs: seq<nat>)
    requires ths != []
    ensures AssignAll(ths, cs).0 == Rotated(ths, |cs|)
    ensures |AssignAll(ths, cs).1| == |cs|
    ensures forall i :: 0 <= i < |cs| ==> AssignAll(ths, cs).1[i] == (ths[Rem(i, |ths|)], cs[i])
  {
    if cs == [] {
      RotateNone(ths);
    } else {
      var k := |cs| - 1;
      DealtInTurn(ths, cs[..k]);
      RotateOnce(Rotated(ths, k));
      RotateMore(ths, k);
    }
  }

  lemma RotateNone<T>(s: seq<T>)
    requires s != []
    ensures Rotated(s, 0) == s
  {
  }

  lemma RotateOnce<T>(s: seq<T>)
    requires s != []
    ensures Dealt(s) == Rotated(s, 1)
  {
    if |s| == 1 {
      assert Rem(1, 1) == Rem(0, 1);
    }
  }

  /** k + 1 modulo n, and divided by n. */
  lemma {:induction false} RemNext(k: nat, n: nat)
    requires n > 0
    ensures Rem(k + 1, n) == if Rem(k, n) == n - 1 then 0 else Rem(k, n) + 1
    ensures Quot(k + 1, n) == if Rem(k, n) == n - 1 then Quot(k, n) + 1 else Quot(k, n)
  {
    if k >= n {
      RemNext(k - n, n);
    }
  }

  /** Rotating by one more. */
  lemma RotateMore<T>(s: seq<T>, k: nat)
    requires s != []
    ensures Rotated(Rotated(s, k), 1) == Rotated(s, k + 1)
  {
    var n := |s|;
    var t := Rotated(s, k);
    RemNext(k, n);
    RotateOnce(t);
    if Rem(k, n) == n - 1 {
      assert t[1..] + [t[0]] == s;
    } else {
      assert t[1..] + [t[0]] == Rotated(s, k + 1);
    }
  }

  // ----- who gets what -------------------------------------------------------------------------

  /** Of k clients dealt out in turn to n threads, how many thread t gets. */
  function Share(k: nat, n: nat, t: nat): nat
    requires n > 0
  {
    if k == 0 then 0 else Share(k - 1, n, t) + (if Rem(k - 1, n) == t then 1 else 0)
  }

  /** Every thread gets the n-th part of the clients, rounded down or up: those first in
      the list get the one more. */
  lemma {:induction false} SharesAreFair(k: nat, n: nat, t: nat)
    requires n > 0 && t < n
    ensures Share(k, n, t) == Quot(k, n) + (if t < Rem(k, n) then 1 else 0)
  {
    if k > 0 {
      SharesAreFair(k - 1, n, t);
      RemNext(k - 1, n);
    }
  }

  /** And that is how often the thread is in the log. */
  lemma {:induction false} SharesAreTaken(n: nat, cs: seq<nat>, t: nat)
    requires n > 0 && t < n
    ensures Count(Takers(AssignAll(Ids(n), cs).1), t) == Share(|cs|, n, t)
  {
    if cs != [] {
      var k := |cs| - 1;
      SharesAreTaken(n, cs[..k], t);
      DealtInTurn(Ids(n), cs[..k]);
      var log := AssignAll(Ids(n), cs).1;
      assert Takers(log)[..k] == Takers(log[..k]) && log[..k] == AssignAll(Ids(n), cs[..k]).1;
      DealtInTurn(Ids(n), cs);
      assert Takers(log)[k] == Rem(k, n);
    }
  }

  function Ids(n: nat): (r: seq<nat>)
    ensures |r| == n && forall i :: 0 <= i < n ==> r[i] == i
  {
    if n == 0 then [] else Ids(n - 1) + [n - 1]
  }

  function Takers(log: seq<(nat, nat)>): (r: seq<nat>)
    ensures |r| == |log| && forall i :: 0 <= i < |r| ==> r[i] == log[i].0
  {
    if log == [] then [] else Takers(log[..|log| - 1]) + [log[|log| - 1].0]
  }
}
