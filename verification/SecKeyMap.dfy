/**
 CSecKeyMap: the keys that link a client's UDP address to its TCP connection. Entries
 past their timeout are thrown out only when an insert finds more than a hundred.
 */
module SecKeyMap {
  import opened Prelude

  /** The two halves of a secret key, unsigned 64-bit numbers. */
  datatype Key = Key(k1: nat, k2: nat)

  datatype Item = Item(udp: nat, ip: nat, port: nat, tm: int)

  const CLEAN_THRESHOLD: nat := 100

  type Keys = map<Key, Item>

  // ----- the order of the map ---------------------------------------------------------------

  /** CSecretKey::operator<. */
  predicate Less(a: Key, b: Key) {
    if a.k1 != b.k1 then a.k1 < b.k1 else a.k2 < b.k2
  }

  /** It is a strict total order: two keys are one to the map exactly when they are equal. */
  lemma LessIsOrder(a: Key, b: Key, c: Key)
    ensures !Less(a, a)
    ensures Less(a, b) && Less(b, c) ==> Less(a, c)
    ensures !Less(a, b) && !Less(b, a) <==> a == b
  {
  }

  // ----- the operations on values -----------------------------------------------------------

  predicate Expired(i: Item, timeout: nat, now: int) { i.tm + timeout < now }

  function Cleared(m: Keys, timeout: nat, now: int): Keys {
    map k | k in m && !Expired(m[k], timeout, now) :: m[k]
  }

  /** The map an insert looks into. */
  function BeforeInsert(m: Keys, timeout: nat, now: int, cleans: bool): Keys {
    if cleans && |m| > CLEAN_THRESHOLD then Cleared(m, timeout, now) else m
  }

  /** insert; a map that never cleans has `cleans` false. */
  function Insert(m: Keys, timeout: nat, k: Key, i: Item, cleans: bool): (bool, Keys) {
    var n := BeforeInsert(m, timeout, i.tm, cleans);
    if k in n && !Expired(n[k], timeout, i.tm) then (false, n) else (true, n[k := i])
  }

  /** verifykey: the entry, if the address fits, and it is gone. */
  function Verify(m: Keys, k: Key, ip: nat): (Option<Item>, Keys) {
    if k in m && m[k].ip == ip then (Some(m[k]), m - {k}) else (None, m)
  }

  // ----- on the object ------------------------------------------------------------------------

  class CSecKeyMap {
    const secretTimeout: nat
    var keys: Keys

    constructor (timeout: nat)
      ensures keys == map[] && secretTimeout == timeout
    {
      secretTimeout, keys := timeout, map[];
    }

    method InsertKey(k1: nat, k2: nat, u: nat, ip: nat, port: nat, now: int) returns (ok: bool)
      modifies this
      ensures (ok, keys) == Insert(old(keys), secretTimeout, Key(k1, k2), Item(u, ip, port, now), true)
    {
      if |keys| > CLEAN_THRESHOLD {
        ClearTimeouted(now);
      }
      var k := Key(k1, k2);
      if k in keys && keys[k].tm + secretTimeout >= now {
        return false;
      }
      keys := keys[k := Item(u, ip, port, now)];
      return true;
    }

    method VerifyKey(k1: nat, k2: nat, ip: nat) returns (ok: bool, udp: nat, port: nat)
      modifies this
      ensures var (i, m) := Verify(old(keys), Key(k1, k2), ip);
              keys == m && ok == i.Some? && (ok ==> udp == i.value.udp && port == i.value.port)
    {
      udp, port := 0, 0;
      var k := Key(k1, k2);
      if k !in keys {
        return false, 0, 0;
      }
      if keys[k].ip != ip {
        return false, 0, 0;
      }
      udp, port := keys[k].udp, keys[k].port;
      keys := keys - {k};
      return true, udp, port;
    }

    method ClearTimeouted(now: int)
      modifies this
      ensures keys == Cleared(old(keys), secretTimeout, now)
    {
      var rest := keys.Keys;
      while rest != {}
        invariant rest <= keys.Keys <= old(keys).Keys
        invariant forall k :: k in keys ==> keys[k] == old(keys)[k]
        invariant forall k :: k in old(keys) && k !in rest ==>
                    (k in keys <==> !Expired(old(keys)[k], secretTimeout, now))
        decreases |rest|
      {
        var k :| k in rest;
        rest := rest - {k};
        if keys[k].tm + secretTimeout < now {
          keys := keys - {k};
        }
      }
    }
  }

  // ----- runs -----------------------------------------------------------------------------------

  datatype Call = InsertCall(k: Key, i: Item) | VerifyCall(k: Key, ip: nat, now: int)

  function TimeOf(c: Call): int { if c.InsertCall? then c.i.tm else c.now }

  /** What a call answers: an item for a verified key, an item inserted, or nothing. */
  function Do(m: Keys, timeout: nat, c: Call, cleans: bool): (Option<Item>, Keys) {
    match c
    case InsertCall(k, i) =>
      var (ok, n) := Insert(m, timeout, k, i, cleans);
      (if ok then Some(i) else None, n)
    case VerifyCall(k, ip, _) => Verify(m, k, ip)
  }

  function After(m: Keys, timeout: nat, cs: seq<Call>, cleans: bool): Keys
    decreases |cs|
  {
    if cs == [] then m else After(Do(m, timeout, cs[0], cleans).1, timeout, cs[1..], cleans)
  }

  // ----- lazy cleaning cannot be told from none ----------------------------------------------------

  /** The lazy map is a part of the full one. */
  ghost predicate Under(lazy: Keys, full: Keys) {
    forall k :: k in lazy ==> k in full && full[k] == lazy[k]
  }

  /** A key that a cleaning took out and the uncleaned map still has. */
  predicate Taken(lazy: Keys, full: Keys, k: Key) { k in full && k !in lazy }

  predicate SameAnswer(lazy: Keys, full: Keys, timeout: nat, c: Call) {
    Do(lazy, timeout, c, true).0 == Do(full, timeout, c, false).0
  }

  predicate SameAnswers(lazy: Keys, full: Keys, timeout: nat, cs: seq<Call>)
    decreases |cs|
  {
    cs == [] ||
    (SameAnswer(lazy, full, timeout, cs[0]) &&
     SameAnswers(Do(lazy, timeout, cs[0], true).1, Do(full, timeout, cs[0], false).1, timeout, cs[1..]))
  }

  /** A taken key is inserted only past its timeout, and verified from another address. */
  predicate Harmless(lazy: Keys, full: Keys, timeout: nat, c: Call) {
    Taken(lazy, full, c.k) ==>
      match c
      case InsertCall(k, i) => Expired(full[k], timeout, i.tm)
      case VerifyCall(k, ip, _) => full[k].ip != ip
  }

  predicate AllHarmless(lazy: Keys, full: Keys, timeout: nat, cs: seq<Call>)
    decreases |cs|
  {
    cs == [] ||
    (Harmless(lazy, full, timeout, cs[0]) &&
     AllHarmless(Do(lazy, timeout, cs[0], true).1, Do(full, timeout, cs[0], false).1, timeout, cs[1..]))
  }

  lemma InsertsAgree(lazy: Keys, full: Keys, timeout: nat, k: Key, i: Item)
    requires Under(lazy, full)
    ensures var c := InsertCall(k, i);
            && (SameAnswer(lazy, full, timeout, c) <==> Harmless(lazy, full, timeout, c))
            && (Harmless(lazy, full, timeout, c) ==> Under(Do(lazy, timeout, c, true).1, Do(full, timeout, c, false).1))
  {
    var n := BeforeInsert(lazy, timeout, i.tm, true);
    assert k in lazy && k !in n ==> Expired(lazy[k], timeout, i.tm);
  }

  lemma VerifiesAgree(lazy: Keys, full: Keys, timeout: nat, k: Key, ip: nat, now: int)
    requires Under(lazy, full)
    ensures var c := VerifyCall(k, ip, now);
            && (SameAnswer(lazy, full, timeout, c) <==> Harmless(lazy, full, timeout, c))
            && Under(Do(lazy, timeout, c, true).1, Do(full, timeout, c, false).1)
  {
  }

  /** Whatever the times: from two empty maps, the lazy one answers every call like one
      that is never cleaned exactly when every call is harmless. */
  lemma {:induction false} AnswersAgreeIff(lazy: Keys, full: Keys, timeout: nat, cs: seq<Call>)
    requires Under(lazy, full)
    ensures SameAnswers(lazy, full, timeout, cs) <==> AllHarmless(lazy, full, timeout, cs)
    decreases |cs|
  {
    if cs != [] {
      match cs[0] {
        case InsertCall(k, i) => InsertsAgree(lazy, full, timeout, k, i);
        case VerifyCall(k, ip, now) => VerifiesAgree(lazy, full, timeout, k, ip, now);
      }
      if Harmless(lazy, full, timeout, cs[0]) {
        AnswersAgreeIff(Do(lazy, timeout, cs[0], true).1, Do(full, timeout, cs[0], false).1, timeout, cs[1..]);
      }
    }
  }

  // ----- the time is read before the lock is taken ---------------------------------------------------

  /** The latest time of a cleaning. */
  function Later(m: Keys, c: Call, latest: Option<int>): Option<int> {
    if c.InsertCall? && |m| > CLEAN_THRESHOLD && (latest.None? || latest.value < c.i.tm) then Some(c.i.tm) else latest
  }

  predicate NotBefore(latest: Option<int>, c: Call) { latest.Some? ==> latest.value <= TimeOf(c) }

  /** No call has an earlier time than a cleaning before it. Calls take the lock in another
      order than they read the clock, so this is less than times in order. */
  predicate InStep(m: Keys, timeout: nat, cs: seq<Call>, latest: Option<int>)
    decreases |cs|
  {
    cs == [] || (NotBefore(latest, cs[0]) && InStep(Do(m, timeout, cs[0], true).1, timeout, cs[1..], Later(m, cs[0], latest)))
  }

  /** What a cleaning took is past its timeout. */
  ghost predicate Lacks(lazy: Keys, full: Keys, timeout: nat, latest: Option<int>) {
    && Under(lazy, full)
    && forall k :: Taken(lazy, full, k) ==> latest.Some? && Expired(full[k], timeout, latest.value)
  }

  lemma InsertKeepsLacks(lazy: Keys, full: Keys, timeout: nat, k: Key, i: Item, latest: Option<int>)
    requires Lacks(lazy, full, timeout, latest) && NotBefore(latest, InsertCall(k, i))
    ensures var c := InsertCall(k, i);
            && Harmless(lazy, full, timeout, c)
            && Lacks(Do(lazy, timeout, c, true).1, Do(full, timeout, c, false).1, timeout, Later(lazy, c, latest))
  {
    var n := BeforeInsert(lazy, timeout, i.tm, true);
    assert Lacks(n, full, timeout, Later(lazy, InsertCall(k, i), latest));
  }

  lemma DoKeepsLacks(lazy: Keys, full: Keys, timeout: nat, c: Call, latest: Option<int>)
    requires Lacks(lazy, full, timeout, latest) && NotBefore(latest, c)
    ensures Lacks(Do(lazy, timeout, c, true).1, Do(full, timeout, c, false).1, timeout, Later(lazy, c, latest))
    ensures Harmless(lazy, full, timeout, c) || (c.VerifyCall? && Expired(full[c.k], timeout, c.now))
  {
    match c
    case InsertCall(k, i) => InsertKeepsLacks(lazy, full, timeout, k, i, latest);
    case VerifyCall(k, ip, now) =>
  }

  /** An answer can differ for a verifykey alone, and only of a key past its timeout. */
  predicate SameOrLate(lazy: Keys, full: Keys, timeout: nat, cs: seq<Call>)
    decreases |cs|
  {
    cs == [] ||
    (var c := cs[0];
     && (SameAnswer(lazy, full, timeout, c) || (c.VerifyCall? && c.k in full && Expired(full[c.k], timeout, c.now)))
     && SameOrLate(Do(lazy, timeout, c, true).1, Do(full, timeout, c, false).1, timeout, cs[1..]))
  }

  lemma {:induction false} InvisibleAlong(lazy: Keys, full: Keys, timeout: nat, cs: seq<Call>, latest: Option<int>)
    requires Lacks(lazy, full, timeout, latest) && InStep(lazy, timeout, cs, latest)
    ensures SameOrLate(lazy, full, timeout, cs)
    decreases |cs|
  {
    if cs != [] {
      var c := cs[0];
      DoKeepsLacks(lazy, full, timeout, c, latest);
      match c {
        case InsertCall(k, i) => InsertsAgree(lazy, full, timeout, k, i);
        case VerifyCall(k, ip, now) => VerifiesAgree(lazy, full, timeout, k, ip, now);
      }
      InvisibleAlong(Do(lazy, timeout, c, true).1, Do(full, timeout, c, false).1, timeout, cs[1..], Later(lazy, c, latest));
    }
  }

  /** From two empty maps, while no call has an earlier time than a cleaning before it:
      the lazy map answers every insert like one that is never cleaned, and every
      verifykey too unless its key is past its timeout. */
  lemma LazyIsInvisible(timeout: nat, cs: seq<Call>)
    requires InStep(map[], timeout, cs, None)
    ensures SameOrLate(map[], map[], timeout, cs)
  {
    InvisibleAlong(map[], map[], timeout, cs, None);
  }

  /** Times in the order of the lock are such times. */
  lemma {:induction false} OrderedTimesAreInStep(m: Keys, timeout: nat, cs: seq<Call>, latest: Option<int>)
    requires forall i, j :: 0 <= i < j < |cs| ==> TimeOf(cs[i]) <= TimeOf(cs[j])
    requires forall i :: 0 <= i < |cs| ==> NotBefore(latest, cs[i])
    ensures InStep(m, timeout, cs, latest)
    decreases |cs|
  {
    if cs != [] {
      OrderedTimesAreInStep(Do(m, timeout, cs[0], true).1, timeout, cs[1..], Later(m, cs[0], latest));
    }
  }

  // ----- a cleaning that overtakes an insert -----------------------------------------------------------

  const EARLY := Item(0, 0, 0, 0)

  function Fill(n: nat): seq<Call> {
    if n == 0 then [] else Fill(n - 1) + [InsertCall(Key(n - 1, 0), EARLY)]
  }

  ghost predicate Filled(m: Keys, n: nat) {
    |m| == n && forall k: Key :: if k.k1 < n && k.k2 == 0 then k in m && m[k] == EARLY else k !in m
  }

  lemma {:induction false} AfterSplit(m: Keys, timeout: nat, a: seq<Call>, b: seq<Call>, cleans: bool)
    ensures After(m, timeout, a + b, cleans) == After(After(m, timeout, a, cleans), timeout, b, cleans)
    decreases |a|
  {
    if a == [] {
      assert a + b == b;
    } else {
      assert (a + b)[1..] == a[1..] + b;
      AfterSplit(Do(m, timeout, a[0], cleans).1, timeout, a[1..], b, cleans);
    }
  }

  lemma AfterOne(m: Keys, timeout: nat, c: Call, cleans: bool)
    ensures After(m, timeout, [c], cleans) == Do(m, timeout, c, cleans).1
  {
    assert [c][1..] == [];
  }

  lemma FillOne(m: Keys, timeout: nat, n: nat, cleans: bool)
    requires n <= CLEAN_THRESHOLD && Filled(m, n)
    ensures Filled(Do(m, timeout, InsertCall(Key(n, 0), EARLY), cleans).1, n + 1)
  {
    var q := Key(n, 0);
    assert !(q.k1 < n);
    PutFresh(m, q, EARLY);
    assert Do(m, timeout, InsertCall(q, EARLY), cleans) == (Some(EARLY), m[q := EARLY]);
    FillMore(m, n);
  }

  lemma PutFresh(m: Keys, k: Key, i: Item)
    requires k !in m
    ensures |m[k := i]| == |m| + 1
  {
    assert m[k := i].Keys == m.Keys + {k};
  }

  lemma FillMore(m: Keys, n: nat)
    requires Filled(m, n) && |m[Key(n, 0) := EARLY]| == n + 1
    ensures Filled(m[Key(n, 0) := EARLY], n + 1)
  {
    var m' := m[Key(n, 0) := EARLY];
    forall k: Key ensures if k.k1 < n + 1 && k.k2 == 0 then k in m' && m'[k] == EARLY else k !in m' {
      assert k.k1 == n && k.k2 == 0 ==> k == Key(n, 0);
    }
  }

  lemma {:induction false} FillRun(timeout: nat, n: nat, cleans: bool)
    requires n <= CLEAN_THRESHOLD + 1
    ensures Filled(After(map[], timeout, Fill(n), cleans), n)
  {
    if n > 0 {
      FillRun(timeout, n - 1, cleans);
      var c := InsertCall(Key(n - 1, 0), EARLY);
      AfterSplit(map[], timeout, Fill(n - 1), [c], cleans);
      AfterOne(After(map[], timeout, Fill(n - 1), cleans), timeout, c, cleans);
      FillOne(After(map[], timeout, Fill(n - 1), cleans), timeout, n - 1, cleans);
    }
  }

  const OVERTAKER := InsertCall(Key(1000, 0), Item(0, 0, 0, 6))
  const OVERTAKEN := InsertCall(Key(0, 0), Item(0, 0, 0, 5))

  /** With a timeout of 5: a hundred and one keys are put in at time 0, one insert reads 5
      off the clock, another then reads 6, gets the lock first and cleans. The first one's
      key is taken, and would be refused by a map that is never cleaned. */
  lemma CleaningOvertakes()
    ensures var cs := Fill(101) + [OVERTAKER];
            && Do(After(map[], 5, cs, true), 5, OVERTAKEN, true).0.Some?
            && Do(After(map[], 5, cs, false), 5, OVERTAKEN, false).0.None?
  {
    FillRun(5, 101, true);
    FillRun(5, 101, false);
    AfterSplit(map[], 5, Fill(101), [OVERTAKER], true);
    AfterSplit(map[], 5, Fill(101), [OVERTAKER], false);
    AfterOne(After(map[], 5, Fill(101), true), 5, OVERTAKER, true);
    AfterOne(After(map[], 5, Fill(101), false), 5, OVERTAKER, false);
  }

  // ----- a key is good for one connection -------------------------------------------------------------

  function Inserts(m: Keys, timeout: nat, cs: seq<Call>, k: Key): nat
    decreases |cs|
  {
    if cs == [] then 0
    else
      var (r, n) := Do(m, timeout, cs[0], true);
      (if cs[0].InsertCall? && cs[0].k == k && r.Some? then 1 else 0) + Inserts(n, timeout, cs[1..], k)
  }

  function Verifies(m: Keys, timeout: nat, cs: seq<Call>, k: Key): nat
    decreases |cs|
  {
    if cs == [] then 0
    else
      var (r, n) := Do(m, timeout, cs[0], true);
      (if cs[0].VerifyCall? && cs[0].k == k && r.Some? then 1 else 0) + Verifies(n, timeout, cs[1..], k)
  }

  function Held(m: Keys, k: Key): nat { if k in m then 1 else 0 }

  /** Over any stretch of calls a key is verified at most once for every time it was
      inserted in it, and once more only if it was there at the start. */
  lemma {:induction false} OneVerifyPerInsert(m: Keys, timeout: nat, cs: seq<Call>, k: Key)
    ensures Verifies(m, timeout, cs, k) + Held(After(m, timeout, cs, true), k) <= Inserts(m, timeout, cs, k) + Held(m, k)
    decreases |cs|
  {
    if cs != [] {
      OneVerifyPerInsert(Do(m, timeout, cs[0], true).1, timeout, cs[1..], k);
    }
  }

  /** The item last put under the key, if it was put and not taken since. */
  function LastInsert(m: Keys, timeout: nat, cs: seq<Call>, k: Key, last: Option<Item>): Option<Item>
    decreases |cs|
  {
    if cs == [] then last
    else
      var (r, n) := Do(m, timeout, cs[0], true);
      LastInsert(n, timeout, cs[1..], k, if cs[0].InsertCall? && cs[0].k == k && r.Some? then r else last)
  }

  /** A verified key yields exactly what its last successful insert put there. */
  lemma {:induction false} VerifyGivesLastInsert(m: Keys, timeout: nat, cs: seq<Call>, k: Key, ip: nat, last: Option<Item>)
    requires k in m ==> last == Some(m[k])
    ensures var r := Verify(After(m, timeout, cs, true), k, ip).0;
            r.Some? ==> r == LastInsert(m, timeout, cs, k, last) && r.value.ip == ip
    decreases |cs|
  {
    if cs != [] {
      var (r, n) := Do(m, timeout, cs[0], true);
      VerifyGivesLastInsert(n, timeout, cs[1..], k, ip,
                            if cs[0].InsertCall? && cs[0].k == k && r.Some? then r else last);
    }
  }

  // ----- who may verify a key ----------------------------------------------------------------------------

  /** The map as the i-th call of a series finds it. */
  function MapAt(timeout: nat, cs: seq<Call>, i: nat): Keys
    requires i <= |cs|
  {
    After(map[], timeout, cs[..i], true)
  }

  /** The i-th call puts the item under the key. */
  predicate Puts(timeout: nat, cs: seq<Call>, i: nat, k: Key, it: Item)
    requires i < |cs|
  {
    cs[i] == InsertCall(k, it) && Do(MapAt(timeout, cs, i), timeout, cs[i], true).0.Some?
  }

  /** The j-th call takes it away: a verifykey of the key from the item's own address, an
      insert that puts another, or one that finds more than a hundred keys and comes when
      the item is past its timeout. */
  predicate Takes(timeout: nat, cs: seq<Call>, j: nat, k: Key, it: Item)
    requires j < |cs|
  {
    match cs[j]
    case VerifyCall(q, ip, _) => q == k && ip == it.ip
    case InsertCall(q, new_it) =>
      || (q == k && Puts(timeout, cs, j, k, new_it))
      || (|MapAt(timeout, cs, j)| > 100 && it.tm + timeout < new_it.tm)
  }

  /** The i-th call put the item under the key and none since took it away. */
  predicate Stands(timeout: nat, cs: seq<Call>, i: nat, k: Key, it: Item) {
    i < |cs| && Puts(timeout, cs, i, k, it) && forall j :: i < j < |cs| ==> !Takes(timeout, cs, j, k, it)
  }

  lemma MapAtEarlier(timeout: nat, cs: seq<Call>, c: Call, i: nat)
    requires i <= |cs|
    ensures MapAt(timeout, cs + [c], i) == MapAt(timeout, cs, i)
    ensures MapAt(timeout, cs + [c], |cs| + 1) == Do(MapAt(timeout, cs, |cs|), timeout, c, true).1
  {
    assert (cs + [c])[..i] == cs[..i] && cs[..|cs|] == cs && (cs + [c])[..|cs| + 1] == cs + [c];
    AfterSplit(map[], timeout, cs, [c], true);
    AfterOne(After(map[], timeout, cs, true), timeout, c, true);
  }

  lemma StandsEarlier(timeout: nat, cs: seq<Call>, c: Call, i: nat, k: Key, it: Item)
    requires i < |cs|
    ensures Stands(timeout, cs + [c], i, k, it)
       <==> Stands(timeout, cs, i, k, it) && !Takes(timeout, cs + [c], |cs|, k, it)
  {
    forall j: nat | j < |cs|
      ensures Puts(timeout, cs + [c], j, k, it) == Puts(timeout, cs, j, k, it)
      ensures Takes(timeout, cs + [c], j, k, it) == Takes(timeout, cs, j, k, it)
    {
      MapAtEarlier(timeout, cs, c, j);
    }
  }

  /** One call, by what it puts and takes. */
  lemma CallPutsOrTakes(timeout: nat, cs: seq<Call>, c: Call, k: Key, it: Item)
    ensures var m, n := MapAt(timeout, cs, |cs|), MapAt(timeout, cs + [c], |cs| + 1);
            (k in n && n[k] == it) <==>
            Puts(timeout, cs + [c], |cs|, k, it) || (k in m && m[k] == it && !Takes(timeout, cs + [c], |cs|, k, it))
  {
    MapAtEarlier(timeout, cs, c, |cs|);
  }

  /** After any series of calls on a new map, an item is under a key exactly when some call
      put it there and none since took it away. */
  lemma {:induction false} KeyIsThereIff(timeout: nat, cs: seq<Call>, k: Key, it: Item)
    ensures var m := After(map[], timeout, cs, true);
            k in m && m[k] == it <==> exists i: nat :: Stands(timeout, cs, i, k, it)
    decreases |cs|
  {
    if cs != [] {
      var init, c := cs[..|cs| - 1], cs[|cs| - 1];
      assert cs == init + [c] && init[..|init|] == init && cs[..|cs|] == cs;
      KeyIsThereIff(timeout, init, k, it);
      CallPutsOrTakes(timeout, init, c, k, it);
      forall i: nat | i < |init|
        ensures Stands(timeout, cs, i, k, it) <==> Stands(timeout, init, i, k, it) && !Takes(timeout, cs, |init|, k, it)
      {
        StandsEarlier(timeout, init, c, i, k, it);
      }
      if Puts(timeout, cs, |init|, k, it) {
        assert Stands(timeout, cs, |init|, k, it);
      }
    }
  }

  /** After any series of calls verifykey succeeds exactly for a key whose item stands and
      came from the caller's address: calls from other addresses take nothing. */
  lemma VerifiedIff(timeout: nat, cs: seq<Call>, k: Key, ip: nat, it: Item)
    ensures Verify(After(map[], timeout, cs, true), k, ip).0 == Some(it)
       <==> it.ip == ip && exists i: nat :: Stands(timeout, cs, i, k, it)
  {
    KeyIsThereIff(timeout, cs, k, it);
  }

  /** And insert succeeds exactly when no item stands under the key within its timeout. */
  lemma InsertedIff(timeout: nat, cs: seq<Call>, k: Key, new_it: Item)
    ensures Insert(After(map[], timeout, cs, true), timeout, k, new_it, true).0
       <==> !exists it, i: nat :: Stands(timeout, cs, i, k, it) && it.tm + timeout >= new_it.tm
  {
    var m := After(map[], timeout, cs, true);
    if k in m {
      KeyIsThereIff(timeout, cs, k, m[k]);
    }
    forall it, i: nat | Stands(timeout, cs, i, k, it)
      ensures k in m && m[k] == it
    {
      KeyIsThereIff(timeout, cs, k, it);
    }
  }

  /** A verifykey that fails changes nothing, and one that succeeds nothing but its key. */
  lemma VerifyTouchesOnlyItsKey(m: Keys, k: Key, ip: nat, q: Key)
    ensures var (r, n) := Verify(m, k, ip);
            && (r.None? ==> n == m) && (r.Some? ==> k !in n && r == Some(m[k]))
            && (q != k ==> (q in n <==> q in m) && (q in n ==> n[q] == m[q]))
  {
  }
}
