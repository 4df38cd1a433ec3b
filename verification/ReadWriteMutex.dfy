/**
 CReadWriteMutex: a writer-preferring lock made of one mutex and two condition
 variables. The critical sections are functions on the lock word; the class runs
 them on its fields, and the transition system runs them for any number of
 threads, with spurious wakeups allowed everywhere.
 */
module ReadWriteMutex {
  import opened Prelude

  /** The range of the source's unsigned int. */
  const UINT_RANGE: nat := 0x1_0000_0000

  /** The fields of state_data. */
  datatype Word = Word(shared: nat, exclusive: bool, blocked: bool)

  const FREE: Word := Word(0, false, false)

  predicate ReaderMustWait(w: Word) { w.exclusive || w.blocked }

  predicate WriterMustWait(w: Word) { w.shared != 0 || w.exclusive }

  function ReaderIn(w: Word): Word { w.(shared := (w.shared + 1) % UINT_RANGE) }

  /** The word after a reader's decrement, and whether it was the last reader. */
  function ReaderOut(w: Word): (Word, bool) {
    var left := (w.shared + UINT_RANGE - 1) % UINT_RANGE;
    if left == 0 then (w.(shared := left, blocked := false), true) else (w.(shared := left), false)
  }

  function WriterIn(w: Word): Word { w.(exclusive := true) }

  function WriterOut(w: Word): Word { w.(exclusive := false, blocked := false) }

  /** The lock object. A wait hands the word to other threads and gets back
      whatever they left; `wakeups` lists those words, so a method that runs out
      of them is still asleep. */
  class CReadWriteMutex {
    var sharedCount: nat
    var exclusive: bool
    var exclusiveWaitingBlocked: bool

    function View(): Word
      reads this
    {
      Word(sharedCount, exclusive, exclusiveWaitingBlocked)
    }

    constructor ()
      ensures View() == FREE
    {
      sharedCount, exclusive, exclusiveWaitingBlocked := 0, false, false;
    }

    method Put(w: Word)
      modifies this
      ensures View() == w
    {
      sharedCount, exclusive, exclusiveWaitingBlocked := w.shared, w.exclusive, w.blocked;
    }

    /** Enters on the first word that admits readers, and on no earlier one. */
    method LockRead(wakeups: seq<Word>) returns (waits: nat, acquired: bool)
      modifies this
      ensures waits <= |wakeups|
      ensures forall k :: 0 <= k < waits ==> ReaderMustWait(([old(View())] + wakeups)[k])
      ensures var last := ([old(View())] + wakeups)[waits];
              acquired == !ReaderMustWait(last) && View() == (if acquired then ReaderIn(last) else last)
      ensures !acquired ==> waits == |wakeups|
    {
      ghost var seen := [View()] + wakeups;
      waits := 0;
      while (exclusive || exclusiveWaitingBlocked) && waits < |wakeups|
        invariant waits <= |wakeups|
        invariant View() == seen[waits]
        invariant forall k :: 0 <= k < waits ==> ReaderMustWait(seen[k])
      {
        Put(wakeups[waits]);
        waits := waits + 1;
      }
      acquired := !(exclusive || exclusiveWaitingBlocked);
      if acquired {
        sharedCount := (sharedCount + 1) % UINT_RANGE;
      }
    }

    method UnlockRead() returns (released: bool)
      modifies this
      ensures (View(), released) == ReaderOut(old(View()))
    {
      sharedCount := (sharedCount + UINT_RANGE - 1) % UINT_RANGE;
      released := sharedCount == 0;
      if released {
        exclusiveWaitingBlocked := false;
      }
    }

    /** Enters on the first word without holders; every word it went to sleep on
        was left with the blocking flag raised. */
    method LockWrite(wakeups: seq<Word>) returns (left: seq<Word>, acquired: bool)
      modifies this
      ensures |left| <= |wakeups| + 1
      ensures forall k :: 0 <= k < |left| ==>
                var seen := ([old(View())] + wakeups)[k];
                WriterMustWait(seen) && left[k] == seen.(blocked := true)
      ensures acquired <==> |left| <= |wakeups|
      ensures acquired ==>
                var last := ([old(View())] + wakeups)[|left|];
                !WriterMustWait(last) && View() == WriterIn(last)
      ensures !acquired ==> View() == left[|left| - 1]
    {
      ghost var seen := [View()] + wakeups;
      left, acquired := [], true;
      while sharedCount != 0 || exclusive
        invariant |left| <= |wakeups|
        invariant View() == seen[|left|]
        invariant forall k :: 0 <= k < |left| ==> WriterMustWait(seen[k]) && left[k] == seen[k].(blocked := true)
        decreases |wakeups| - |left|
      {
        exclusiveWaitingBlocked := true;
        left := left + [View()];
        if |left| > |wakeups| {
          acquired := false;
          return;
        }
        Put(wakeups[|left| - 1]);
      }
      exclusive := true;
    }

    method UnlockWrite()
      modifies this
      ensures View() == WriterOut(old(View()))
    {
      exclusive := false;
      exclusiveWaitingBlocked := false;
    }
  }

  // ----- any number of threads ---------------------------------------------

  /** Where a thread stands. A waiting thread that has been notified, or woken
      for no reason, is back at the loop test: RTry or WTry. */
  datatype Pc = Out | RTry | RWait | Reading | WTry | WWait | Writing

  datatype State = State(word: Word, pcs: seq<Pc>)

  datatype Event =
    | WantRead(t: nat) | TryRead(t: nat) | UnlockRead(t: nat)
    | WantWrite(t: nat) | TryWrite(t: nat) | UnlockWrite(t: nat)
    | Spurious(t: nat)

  function Init(n: nat): State { State(FREE, seq(n, i => Out)) }

  /** pthread_cond_broadcast on both condition variables. */
  function WakeAll(pcs: seq<Pc>): (r: seq<Pc>)
    ensures |r| == |pcs|
    ensures forall i :: 0 <= i < |r| ==>
              r[i] == match pcs[i] case RWait => RTry case WWait => WTry case p => p
  {
    seq(|pcs|, i requires 0 <= i < |pcs| => match pcs[i] case RWait => RTry case WWait => WTry case p => p)
  }

  function Next(s: State, e: Event): (r: State)
    ensures |r.pcs| == |s.pcs|
  {
    if e.t >= |s.pcs| then s else
      match (e, s.pcs[e.t])
      case (WantRead(t), Out) => s.(pcs := s.pcs[t := RTry])
      case (WantWrite(t), Out) => s.(pcs := s.pcs[t := WTry])
      case (TryRead(t), RTry) =>
        if ReaderMustWait(s.word) then s.(pcs := s.pcs[t := RWait])
        else State(ReaderIn(s.word), s.pcs[t := Reading])
      case (TryWrite(t), WTry) =>
        if WriterMustWait(s.word) then State(s.word.(blocked := true), s.pcs[t := WWait])
        else State(WriterIn(s.word), s.pcs[t := Writing])
      case (UnlockRead(t), Reading) =>
        var (w, last) := ReaderOut(s.word);
        State(w, if last then WakeAll(s.pcs[t := Out]) else s.pcs[t := Out])
      case (UnlockWrite(t), Writing) => State(WriterOut(s.word), WakeAll(s.pcs[t := Out]))
      case (Spurious(t), RWait) => s.(pcs := s.pcs[t := RTry])
      case (Spurious(t), WWait) => s.(pcs := s.pcs[t := WTry])
      case _ => s
  }

  function Run(s: State, es: seq<Event>): (r: State)
    ensures |r.pcs| == |s.pcs|
    decreases |es|
  {
    if es == [] then s else Run(Next(s, es[0]), es[1..])
  }

  function Readers(s: State): nat { Count(s.pcs, Reading) }

  function Writers(s: State): nat { Count(s.pcs, Writing) }

  /** The word describes the holders. */
  ghost predicate Accurate(s: State) {
    && s.word.shared == Readers(s) % UINT_RANGE
    && Writers(s) == (if s.word.exclusive then 1 else 0)
    && (s.word.exclusive ==> Readers(s) == 0)
    && (s.word.blocked ==> s.word.shared != 0 || s.word.exclusive)
  }

  /** Nobody sleeps un-notified without a holder to wake them. */
  ghost predicate NoLostWakeup(s: State) {
    && (RWait in s.pcs ==> ReaderMustWait(s.word))
    && (WWait in s.pcs ==> WriterMustWait(s.word) && s.word.blocked)
  }

  ghost predicate Inv(s: State) {
    |s.pcs| <= UINT_RANGE && Accurate(s) && NoLostWakeup(s)
  }

  lemma InitInv(n: nat)
    requires n <= UINT_RANGE
    ensures Inv(Init(n))
  {
    CountZero(Init(n).pcs, Reading);
    CountZero(Init(n).pcs, Writing);
  }

  lemma WakeAllCounts(pcs: seq<Pc>)
    ensures Count(WakeAll(pcs), Reading) == Count(pcs, Reading)
    ensures Count(WakeAll(pcs), Writing) == Count(pcs, Writing)
    ensures RWait !in WakeAll(pcs) && WWait !in WakeAll(pcs)
  {
    CountSame(pcs, WakeAll(pcs), Reading);
    CountSame(pcs, WakeAll(pcs), Writing);
  }

  /** Moving one thread changes the holder counts by that thread only. */
  lemma MoveCounts(pcs: seq<Pc>, t: nat, p: Pc)
    requires t < |pcs|
    ensures Count(pcs[t := p], Reading)
         == Count(pcs, Reading) - (if pcs[t] == Reading then 1 else 0) + (if p == Reading then 1 else 0)
    ensures Count(pcs[t := p], Writing)
         == Count(pcs, Writing) - (if pcs[t] == Writing then 1 else 0) + (if p == Writing then 1 else 0)
    ensures pcs[t] != Reading ==> Count(pcs, Reading) < |pcs|
    ensures pcs[t] == Reading ==> Count(pcs, Reading) >= 1
    ensures pcs[t] == Writing ==> Count(pcs, Writing) >= 1
  {
    CountUpdate(pcs, t, p, Reading);
    CountUpdate(pcs, t, p, Writing);
    CountPositive(pcs, t);
    if pcs[t] != Reading {
      CountTwo(pcs, Reading, pcs[t]);
    }
  }

  /** The count stays the number of readers across its wrap-around. */
  lemma ReaderCountStep(readers: nat)
    ensures (readers % UINT_RANGE + 1) % UINT_RANGE == (readers + 1) % UINT_RANGE
    ensures readers > 0 ==> (readers % UINT_RANGE + UINT_RANGE - 1) % UINT_RANGE == (readers - 1) % UINT_RANGE
  {
  }

  lemma StepWantInv(s: State, t: nat)
    requires Inv(s)
    ensures Inv(Next(s, WantRead(t))) && Inv(Next(s, WantWrite(t)))
  {
    if t < |s.pcs| {
      MoveCounts(s.pcs, t, RTry);
      MoveCounts(s.pcs, t, WTry);
    }
  }

  lemma StepReadInv(s: State, t: nat)
    requires Inv(s)
    ensures Inv(Next(s, TryRead(t)))
  {
    if t < |s.pcs| {
      MoveCounts(s.pcs, t, RWait);
      MoveCounts(s.pcs, t, Reading);
      ReaderCountStep(Readers(s));
    }
  }

  lemma StepUnlockReadInv(s: State, t: nat)
    requires Inv(s)
    ensures Inv(Next(s, UnlockRead(t)))
  {
    if t < |s.pcs| && s.pcs[t] == Reading {
      MoveCounts(s.pcs, t, Out);
      WakeAllCounts(s.pcs[t := Out]);
      ReaderCountStep(Readers(s));
    }
  }

  lemma StepWriteInv(s: State, t: nat)
    requires Inv(s)
    ensures Inv(Next(s, TryWrite(t)))
  {
    if t < |s.pcs| {
      MoveCounts(s.pcs, t, WWait);
      MoveCounts(s.pcs, t, Writing);
    }
  }

  lemma StepUnlockWriteInv(s: State, t: nat)
    requires Inv(s)
    ensures Inv(Next(s, UnlockWrite(t)))
  {
    if t < |s.pcs| && s.pcs[t] == Writing {
      MoveCounts(s.pcs, t, Out);
      WakeAllCounts(s.pcs[t := Out]);
    }
  }

  lemma StepSpuriousInv(s: State, t: nat)
    requires Inv(s)
    ensures Inv(Next(s, Spurious(t)))
  {
    if t < |s.pcs| {
      MoveCounts(s.pcs, t, RTry);
      MoveCounts(s.pcs, t, WTry);
    }
  }

  lemma StepInv(s: State, e: Event)
    requires Inv(s)
    ensures Inv(Next(s, e))
  {
    match e
    case WantRead(t) => StepWantInv(s, t);
    case TryRead(t) => StepReadInv(s, t);
    case UnlockRead(t) => StepUnlockReadInv(s, t);
    case WantWrite(t) => StepWantInv(s, t);
    case TryWrite(t) => StepWriteInv(s, t);
    case UnlockWrite(t) => StepUnlockWriteInv(s, t);
    case Spurious(t) => StepSpuriousInv(s, t);
  }

  lemma {:induction false} RunInv(s: State, es: seq<Event>)
    requires Inv(s)
    ensures Inv(Run(s, es))
    decreases |es|
  {
    if es != [] {
      StepInv(s, es[0]);
      RunInv(Next(s, es[0]), es[1..]);
    }
  }

  // ----- mutual exclusion ----------------------------------------------------

  /** A writer inside is alone. */
  ghost predicate Excludes(s: State) {
    forall i, j :: 0 <= i < |s.pcs| && 0 <= j < |s.pcs| && i != j && s.pcs[i] == Writing ==>
      s.pcs[j] != Reading && s.pcs[j] != Writing
  }

  lemma InvExcludes(s: State)
    requires Inv(s)
    ensures Excludes(s)
    ensures |s.pcs| < UINT_RANGE ==> s.word.shared == Readers(s)
    ensures s.word.exclusive <==> Writing in s.pcs
  {
    forall i, j | 0 <= i < |s.pcs| && 0 <= j < |s.pcs| && i != j && s.pcs[i] == Writing
      ensures s.pcs[j] != Reading && s.pcs[j] != Writing
    {
      CountPositive(s.pcs, i);
      CountPositive(s.pcs, j);
      if s.pcs[j] == Writing {
        CountPair(s.pcs, if i < j then i else j, if i < j then j else i);
      }
    }
    if s.word.exclusive {
      var i := CountWitness(s.pcs, Writing);
    }
    if Writing in s.pcs {
      var i :| 0 <= i < |s.pcs| && s.pcs[i] == Writing;
      CountPositive(s.pcs, i);
    }
  }

  lemma {:induction false} RunConcat(s: State, a: seq<Event>, b: seq<Event>)
    ensures Run(s, a + b) == Run(Run(s, a), b)
    decreases |a|
  {
    if a == [] {
      assert a + b == b;
    } else {
      assert (a + b)[0] == a[0] && (a + b)[1..] == a[1..] + b;
      RunConcat(Next(s, a[0]), a[1..], b);
    }
  }

  /** Threads 0..k enter as readers one after another. */
  function Entering(k: nat): seq<Event> {
    if k == 0 then [] else Entering(k - 1) + [WantRead(k - 1), TryRead(k - 1)]
  }

  lemma {:induction false} EnteringRun(n: nat, k: nat)
    requires k <= n
    ensures Run(Init(n), Entering(k)) == State(Word(k % UINT_RANGE, false, false), seq(n, i => if i < k then Reading else Out))
  {
    var before := seq(n, i => if i < k - 1 then Reading else Out);
    var after := seq(n, i => if i < k then Reading else Out);
    if k == 0 {
      assert after == Init(n).pcs;
    } else {
      EnteringRun(n, k - 1);
      var s := State(Word((k - 1) % UINT_RANGE, false, false), before);
      RunConcat(Init(n), Entering(k - 1), [WantRead(k - 1), TryRead(k - 1)]);
      var s1 := Next(s, WantRead(k - 1));
      var s2 := Next(s1, TryRead(k - 1));
      assert [WantRead(k - 1), TryRead(k - 1)][1..] == [TryRead(k - 1)];
      assert Run(s1, [TryRead(k - 1)]) == Run(s2, []);
      ReaderCountStep(k - 1);
      assert s2.pcs == after;
    }
  }

  /** One thread more than the counter's range breaks the lock: the readers wrap
      the count back to zero and the last thread is let in as a writer. */
  lemma WrapBreaksExclusion(n: nat) returns (es: seq<Event>)
    requires n > UINT_RANGE
    ensures !Excludes(Run(Init(n), es))
  {
    var w := UINT_RANGE;
    EnteringRun(n, w);
    var s := Run(Init(n), Entering(w));
    var tail := [WantWrite(w), TryWrite(w)];
    es := Entering(w) + tail;
    RunConcat(Init(n), Entering(w), tail);
    var s1 := Next(s, WantWrite(w));
    var s2 := Next(s1, TryWrite(w));
    assert tail[1..] == [TryWrite(w)];
    assert Run(s1, [TryWrite(w)]) == Run(s2, []);
    assert s.word == FREE;
    assert s2.pcs[w] == Writing && s2.pcs[0] == Reading;
  }

  /** The lock excludes in every run exactly when the threads fit its counter. */
  lemma ExclusionIffThreadsFitCounter(n: nat)
    ensures (forall es :: Excludes(Run(Init(n), es))) <==> n <= UINT_RANGE
  {
    if n <= UINT_RANGE {
      InitInv(n);
      forall es ensures Excludes(Run(Init(n), es)) {
        RunInv(Init(n), es);
        InvExcludes(Run(Init(n), es));
      }
    } else {
      var es := WrapBreaksExclusion(n);
    }
  }

  /** Below the wrap the fields say exactly who is inside, in every run. */
  lemma CountsAreHolders(n: nat, es: seq<Event>)
    requires n < UINT_RANGE
    ensures var s := Run(Init(n), es);
            && s.word.shared == Readers(s)
            && (s.word.exclusive <==> Writers(s) == 1)
            && (s.word.exclusive ==> Readers(s) == 0)
            && (s.word.blocked ==> Readers(s) > 0 || Writers(s) == 1)
  {
    InitInv(n);
    RunInv(Init(n), es);
    InvExcludes(Run(Init(n), es));
  }

  // ----- no lost wakeup ------------------------------------------------------

  /** Whoever sleeps un-notified, some thread is inside and will broadcast. */
  lemma SleeperHasHolder(n: nat, es: seq<Event>, t: nat) returns (h: nat)
    requires n <= UINT_RANGE && t < n
    requires Run(Init(n), es).pcs[t] in {RWait, WWait}
    ensures h < n && Run(Init(n), es).pcs[h] in {Reading, Writing}
  {
    InitInv(n);
    RunInv(Init(n), es);
    var s := Run(Init(n), es);
    assert s.word.shared != 0 || s.word.exclusive;
    h := CountWitness(s.pcs, if s.word.exclusive then Writing else Reading);
  }

  /** With nobody inside, nobody is asleep and the next one scheduled gets in. */
  lemma FreeLockAdmitsNext(n: nat, es: seq<Event>, t: nat)
    requires n <= UINT_RANGE && t < n
    requires Reading !in Run(Init(n), es).pcs && Writing !in Run(Init(n), es).pcs
    ensures var s := Run(Init(n), es);
            && s.pcs[t] in {Out, RTry, WTry}
            && (s.pcs[t] == RTry ==> Next(s, TryRead(t)).pcs[t] == Reading)
            && (s.pcs[t] == WTry ==> Next(s, TryWrite(t)).pcs[t] == Writing)
  {
    InitInv(n);
    RunInv(Init(n), es);
    var s := Run(Init(n), es);
    CountZero(s.pcs, Reading);
    CountZero(s.pcs, Writing);
    assert s.word == FREE;
    assert s.pcs[t] != Reading && s.pcs[t] != Writing && s.pcs[t] != RWait && s.pcs[t] != WWait;
  }

  /** The first k threads that are inside leave, one after another. */
  function Leaving(pcs: seq<Pc>, k: nat): seq<Event>
    requires k <= |pcs|
  {
    if k == 0 then []
    else Leaving(pcs, k - 1)
         + match pcs[k - 1] { case Reading => [UnlockRead(k - 1)] case Writing => [UnlockWrite(k - 1)] case _ => [] }
  }

  predicate Inside(p: Pc) { p == Reading || p == Writing }

  /** The thread stands where it stood, or a sleeper has been woken. */
  predicate SameOrWoken(was: Pc, now: Pc) { now == was || (was == RWait && now == RTry) || (was == WWait && now == WTry) }

  /** What a thread's leaving does to the threads. */
  lemma LeaveStep(s: State, t: nat)
    requires t < |s.pcs| && Inside(s.pcs[t])
    ensures var r := Next(s, if s.pcs[t] == Reading then UnlockRead(t) else UnlockWrite(t));
            r.pcs[t] == Out && forall i :: 0 <= i < |s.pcs| && i != t ==> SameOrWoken(s.pcs[i], r.pcs[i])
  {
  }

  /** The first k of those inside s are out in r, and the others where they were. */
  ghost predicate LeftTo(s: State, r: State, k: nat) {
    |r.pcs| == |s.pcs| && forall i :: 0 <= i < |s.pcs| ==>
      if i < k && Inside(s.pcs[i]) then r.pcs[i] == Out else SameOrWoken(s.pcs[i], r.pcs[i])
  }

  lemma LeftOneMore(s: State, r: State, t: nat) returns (e: Event)
    requires Inv(r) && t < |s.pcs| && LeftTo(s, r, t) && Inside(s.pcs[t])
    ensures e == if s.pcs[t] == Reading then UnlockRead(t) else UnlockWrite(t)
    ensures Inv(Next(r, e)) && LeftTo(s, Next(r, e), t + 1)
  {
    e := if s.pcs[t] == Reading then UnlockRead(t) else UnlockWrite(t);
    StepInv(r, e);
    LeaveStep(r, t);
  }

  lemma LeavingOne(pcs: seq<Pc>, k: nat, e: Event)
    requires k < |pcs|
    ensures !Inside(pcs[k]) ==> Leaving(pcs, k + 1) == Leaving(pcs, k)
    ensures Inside(pcs[k]) && e == (if pcs[k] == Reading then UnlockRead(k) else UnlockWrite(k)) ==>
              Leaving(pcs, k + 1) == Leaving(pcs, k) + [e]
  {
    assert Leaving(pcs, k) + [] == Leaving(pcs, k);
  }

  ghost predicate Left(s: State, es: seq<Event>, k: nat) { Inv(Run(s, es)) && LeftTo(s, Run(s, es), k) }

  lemma LeftNext(s: State, before: seq<Event>, k: nat) returns (e: Event)
    requires k < |s.pcs| && Left(s, before, k)
    ensures Inside(s.pcs[k]) ==>
              e == (if s.pcs[k] == Reading then UnlockRead(k) else UnlockWrite(k)) && Left(s, before + [e], k + 1)
    ensures !Inside(s.pcs[k]) ==> Left(s, before, k + 1)
  {
    e := UnlockRead(k);
    if Inside(s.pcs[k]) {
      e := LeftOneMore(s, Run(s, before), k);
      RunThen(s, before, e);
    }
  }

  lemma {:induction false} LeavingRun(s: State, k: nat)
    requires Inv(s) && k <= |s.pcs|
    ensures Left(s, Leaving(s.pcs, k), k)
  {
    if k > 0 {
      LeavingRun(s, k - 1);
      var e := LeftNext(s, Leaving(s.pcs, k - 1), k - 1);
      LeavingOne(s.pcs, k - 1, e);
    }
  }

  lemma RunThen(s: State, es: seq<Event>, e: Event)
    ensures Run(s, es + [e]) == Next(Run(s, es), e)
  {
    RunConcat(s, es, [e]);
    RunOne(Run(s, es), e);
  }

  lemma RunOne(s: State, e: Event)
    ensures Run(s, [e]) == Next(s, e)
  {
    assert [e][1..] == [];
  }

  /** With nobody inside, the lock is free and nobody is asleep. */
  lemma NobodyInside(s: State)
    requires Inv(s) && Reading !in s.pcs && Writing !in s.pcs
    ensures s.word == FREE && RWait !in s.pcs && WWait !in s.pcs
  {
    CountZero(s.pcs, Reading);
    CountZero(s.pcs, Writing);
  }

  /** From any reachable state, when those inside have left they are out, the lock is free,
      and whoever was waiting to read or to write, asleep or not, gets in at its next look. */
  lemma WaitersGetIn(n: nat, es: seq<Event>, t: nat)
    requires n <= UINT_RANGE && t < n
    ensures var s := Run(Init(n), es);
            var r := Run(s, Leaving(s.pcs, n));
            && r.word == FREE
            && (Inside(s.pcs[t]) ==> r.pcs[t] == Out)
            && (s.pcs[t] in {RTry, RWait} ==> Next(r, TryRead(t)).pcs[t] == Reading)
            && (s.pcs[t] in {WTry, WWait} ==> Next(r, TryWrite(t)).pcs[t] == Writing)
  {
    InitInv(n);
    RunInv(Init(n), es);
    var s := Run(Init(n), es);
    LeavingRun(s, n);
    var r := Run(s, Leaving(s.pcs, n));
    assert SameOrWoken(s.pcs[t], r.pcs[t]) || Inside(s.pcs[t]);
    NobodyInside(r);
  }

  /** A sleeper woken for no reason looks, finds the same word and goes back to sleep. */
  lemma WokenForNothing(n: nat, es: seq<Event>, t: nat)
    requires n <= UINT_RANGE && t < n
    ensures var s := Run(Init(n), es);
            && (s.pcs[t] == RWait ==> Next(s, Spurious(t)).pcs == s.pcs[t := RTry] && Next(Next(s, Spurious(t)), TryRead(t)) == s)
            && (s.pcs[t] == WWait ==> Next(s, Spurious(t)).pcs == s.pcs[t := WTry] && Next(Next(s, Spurious(t)), TryWrite(t)) == s)
  {
    InitInv(n);
    RunInv(Init(n), es);
    var s := Run(Init(n), es);
    assert s.pcs[t := RTry][t := s.pcs[t]] == s.pcs && s.pcs[t := WTry][t := s.pcs[t]] == s.pcs;
  }

  // ----- writer preference ---------------------------------------------------

  /** Readers stay inside after every event of the run. */
  ghost predicate ReadersThroughout(s: State, es: seq<Event>)
    decreases |es|
  {
    Readers(s) > 0 && (es != [] ==> ReadersThroughout(Next(s, es[0]), es[1..]))
  }

  /** How many readers leave during the run. */
  function Exits(s: State, es: seq<Event>): nat
    decreases |es|
  {
    if es == [] then 0
    else (if es[0].UnlockRead? && es[0].t < |s.pcs| && s.pcs[es[0].t] == Reading then 1 else 0)
         + Exits(Next(s, es[0]), es[1..])
  }

  /** A reader that is not the last leaves the flag up. */
  lemma BlockedUnlock(s: State, t: nat)
    requires Inv(s) && s.word.blocked && Readers(s) > 0
    requires t < |s.pcs| && s.pcs[t] == Reading && Readers(Next(s, UnlockRead(t))) > 0
    ensures Next(s, UnlockRead(t)).word.blocked
    ensures Next(s, UnlockRead(t)).pcs == s.pcs[t := Out]
    ensures Readers(Next(s, UnlockRead(t))) + 1 == Readers(s)
  {
    MoveCounts(s.pcs, t, Out);
    WakeAllCounts(s.pcs[t := Out]);
    ReaderCountStep(Readers(s));
  }

  lemma BlockedStep(s: State, e: Event)
    requires Inv(s) && s.word.blocked && Readers(s) > 0 && Readers(Next(s, e)) > 0
    ensures Next(s, e).word.blocked
    ensures forall i :: 0 <= i < |s.pcs| && Next(s, e).pcs[i] == Reading ==> s.pcs[i] == Reading
    ensures Readers(Next(s, e)) + (if e.UnlockRead? && e.t < |s.pcs| && s.pcs[e.t] == Reading then 1 else 0) == Readers(s)
  {
    if e.t < |s.pcs| {
      if e.UnlockRead? && s.pcs[e.t] == Reading {
        BlockedUnlock(s, e.t);
      } else {
        InvExcludes(s);
        assert s.pcs[e.t] == Writing ==> s.word.exclusive;
        MoveCounts(s.pcs, e.t, Next(s, e).pcs[e.t]);
      }
    }
  }

  /** Once a writer has raised the flag over readers, no reader gets in until they
      are all out, and each exit brings that one step nearer. */
  lemma {:induction false} WriterPreference(s: State, es: seq<Event>)
    requires Inv(s) && s.word.blocked && ReadersThroughout(s, es)
    ensures forall i :: 0 <= i < |s.pcs| && Run(s, es).pcs[i] == Reading ==> s.pcs[i] == Reading
    ensures Readers(Run(s, es)) + Exits(s, es) == Readers(s)
    ensures Run(s, es).word.blocked
    decreases |es|
  {
    if es != [] {
      StepInv(s, es[0]);
      BlockedStep(s, es[0]);
      WriterPreference(Next(s, es[0]), es[1..]);
    }
  }
}
