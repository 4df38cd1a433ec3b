/**
 CThreadsPool and CWorkThread: a manager thread takes jobs from the queue and
 drops each into the one-slot mailbox of an idle worker. Every critical section
 is one event of the system. The queue's receive loops around its wait, so it may
 wake for no reason; the pool's and the workers' waits stand under `if`, so they
 are taken to return only after a signal.
 */
module ThreadPool {
  import opened Prelude

  /** A CJob pointer; the null pointer is passed over by the manager. */
  type Job = nat

  const NULL_JOB: Job := 0

  /** The number of an assign call: it tells apart two assignments of one job. */
  type Ticket = nat

  datatype Entry = Entry(job: Job, ticket: Ticket)

  datatype ManagerPc =
    | Receiving                                  // at the test of receive()'s loop
    | QueueWait                                  // asleep in receive()
    | Holding(entry: Entry)                      // about to lock the pool's event
    | IdleWait(entry: Entry, notified: bool)     // asleep until a worker is idle
    | Handing(entry: Entry, worker: nat)         // about to call w->run(job)

  datatype WorkerPc =
    | Top                                        // about to lock its event
    | SlotWait(notified: bool)                   // asleep until a job is dropped
    | Running(entry: Entry)                      // in j->run()
    | Returning                                  // about to call moveToIdleList

  datatype Worker = Worker(slot: Option<Entry>, pc: WorkerPc)

  /** `given`, `skipped`, `handed` and `finished` are history; `broken` records that a
      branch the design rules out was taken. */
  datatype Pool = Pool(
    queue: seq<Entry>, manager: ManagerPc, idle: seq<nat>, busy: seq<nat>, workers: seq<Worker>,
    given: seq<Job>, skipped: seq<Ticket>, handed: seq<Ticket>, finished: seq<Ticket>, broken: bool)

  datatype Event =
    | Assign(job: Job)
    | Receive | QueueSpurious
    | TakeIdle | ResumeTake | Drop
    | Look(w: nat) | ResumeLook(w: nat) | Finish(w: nat) | MoveToIdle(w: nat)

  function Numbers(n: nat): seq<nat> { seq(n, i => i) }

  /** The pool as create returns it: cnt workers, all idle. */
  function Init(cnt: nat): Pool {
    Pool([], Receiving, Numbers(cnt), [], seq(cnt, i => Worker(None, Top)), [], [], [], [], false)
  }

  /** The list without the first occurrence of w. */
  function Remove<T(==)>(s: seq<T>, w: T): seq<T> {
    if s == [] then [] else if s[0] == w then s[1..] else [s[0]] + Remove(s[1..], w)
  }

  // The lists' two changes, which the machine and the objects share.

  /** The first idle worker becomes busy. */
  function Taken<T>(idle: seq<T>, busy: seq<T>): (seq<T>, seq<T>)
    requires idle != []
  {
    (idle[1..], busy + [idle[0]])
  }

  /** A busy worker becomes the last idle one. */
  function Returned<T(==)>(idle: seq<T>, busy: seq<T>, w: T): (seq<T>, seq<T>) {
    (idle + [w], Remove(busy, w))
  }

  /** threads_pool.cpp:110-113. */
  function Take(p: Pool, e: Entry): Pool {
    if p.idle == [] then p.(broken := true)
    else p.(idle := Taken(p.idle, p.busy).0, busy := Taken(p.idle, p.busy).1, manager := Handing(e, p.idle[0]))
  }

  /** threads_pool.cpp:53-56: the worker empties its slot and runs what was in it. */
  function Grab(p: Pool, w: nat): Pool
    requires w < |p.workers|
  {
    match p.workers[w].slot
    case None => p.(broken := true)
    case Some(e) => p.(workers := p.workers[w := Worker(None, Running(e))])
  }

  function Next(p: Pool, ev: Event): (r: Pool)
    ensures |r.workers| == |p.workers|
  {
    match ev
    case Assign(job) =>
      var m := if p.manager.QueueWait? then Receiving else p.manager;
      p.(queue := p.queue + [Entry(job, |p.given|)], given := p.given + [job], manager := m)
    case Receive =>
      if !p.manager.Receiving? then p
      else if p.queue == [] then p.(manager := QueueWait)
      else if p.queue[0].job == NULL_JOB then p.(queue := p.queue[1..], skipped := p.skipped + [p.queue[0].ticket])
      else p.(queue := p.queue[1..], manager := Holding(p.queue[0]))
    case QueueSpurious =>
      if p.manager.QueueWait? then p.(manager := Receiving) else p
    case TakeIdle =>
      if !p.manager.Holding? then p
      else if p.idle == [] then p.(manager := IdleWait(p.manager.entry, false))
      else Take(p, p.manager.entry)
    case ResumeTake =>
      if p.manager.IdleWait? && p.manager.notified then Take(p, p.manager.entry) else p
    case Drop =>
      if !(p.manager.Handing? && p.manager.worker < |p.workers|) then p
      else
        var e, w := p.manager.entry, p.manager.worker;
        var pc := if p.workers[w].pc.SlotWait? then SlotWait(true) else p.workers[w].pc;
        p.(manager := Receiving, workers := p.workers[w := Worker(Some(e), pc)], handed := p.handed + [e.ticket],
           broken := p.broken || p.workers[w].slot.Some?)
    case Look(w) =>
      if !(w < |p.workers| && p.workers[w].pc.Top?) then p
      else if p.workers[w].slot.None? then p.(workers := p.workers[w := Worker(None, SlotWait(false))])
      else Grab(p, w)
    case ResumeLook(w) =>
      if w < |p.workers| && p.workers[w].pc == SlotWait(true) then Grab(p, w) else p
    case Finish(w) =>
      if w < |p.workers| && p.workers[w].pc.Running?
      then p.(workers := p.workers[w := p.workers[w].(pc := Returning)],
              finished := p.finished + [p.workers[w].pc.entry.ticket])
      else p
    case MoveToIdle(w) =>
      if !(w < |p.workers| && p.workers[w].pc.Returning?) then p
      else
        var ws := p.workers[w := p.workers[w].(pc := Top)];
        if w !in p.busy then p.(workers := ws, broken := true)
        else
          var m := if p.manager.IdleWait? then p.manager.(notified := true) else p.manager;
          p.(workers := ws, idle := Returned(p.idle, p.busy, w).0, busy := Returned(p.idle, p.busy, w).1, manager := m)
  }

  function Run(p: Pool, es: seq<Event>): Pool
    decreases |es|
  {
    if es == [] then p else Run(Next(p, es[0]), es[1..])
  }

  // ----- the critical sections as the objects run them --------------------------

  class CWorkThread {
    var job: Option<Entry>

    constructor ()
      ensures job == None
    {
      job := None;
    }

    /** Drops a job in the slot. */
    method Run(e: Entry)
      modifies this
      ensures job == Some(e)
    {
      job := Some(e);
    }

    /** Empties the slot; the caller runs what it held. */
    method TakeJob() returns (j: Option<Entry>)
      modifies this
      ensures j == old(job) && job == None
    {
      j := job;
      job := None;
    }
  }

  class CThreadsPool {
    var idleList: seq<CWorkThread>
    var busyList: seq<CWorkThread>

    constructor (ws: seq<CWorkThread>)
      ensures idleList == ws && busyList == []
    {
      idleList, busyList := ws, [];
    }

    /** The manager's section after its wait, and the hand-over that follows it. */
    method HandOut(e: Entry) returns (w: CWorkThread)
      requires idleList != []
      modifies this, idleList[0]
      ensures w == old(idleList[0]) && w.job == Some(e)
      ensures (idleList, busyList) == Taken(old(idleList), old(busyList))
    {
      w := idleList[0];
      idleList := idleList[1..];
      busyList := busyList + [w];
      w.Run(e);
    }

    /** A worker reports back; `found` is false on the error branch. */
    method MoveToIdleList(w: CWorkThread) returns (found: bool)
      modifies this
      ensures found <==> w in old(busyList)
      ensures found ==> (idleList, busyList) == Returned(old(idleList), old(busyList), w)
      ensures !found ==> busyList == old(busyList) && idleList == old(idleList)
    {
      var i := 0;
      while i < |busyList| && busyList[i] != w
        invariant i <= |busyList|
        invariant w !in busyList[..i]
        invariant busyList == old(busyList) && idleList == old(idleList)
        decreases |busyList| - i
      {
        i := i + 1;
      }
      found := i < |busyList|;
      if found {
        RemoveAt(busyList, w, i);
        busyList := busyList[..i] + busyList[i + 1..];
        idleList := idleList + [w];
      }
    }
  }

  /** Erasing at the first match is Remove. */
  lemma {:induction false} RemoveAt<T>(s: seq<T>, w: T, i: nat)
    requires i < |s| && s[i] == w && w !in s[..i]
    ensures Remove(s, w) == s[..i] + s[i + 1..]
  {
    if i > 0 {
      assert s[0] == s[..i][0];
      assert s[1..][..i - 1] == s[..i][1..];
      RemoveAt(s[1..], w, i - 1);
      assert s[1..][i..] == s[i + 1..];
    }
  }

  // ----- idle and busy partition the workers ---------------------------------

  ghost predicate Partition(p: Pool) {
    && (forall w: nat :: w < |p.workers| ==> Count(p.idle, w) + Count(p.busy, w) == 1)
    && (forall w: nat :: w in p.idle ==> w < |p.workers|)
    && (forall w: nat :: w in p.busy ==> w < |p.workers|)
  }

  predicate Asleep(k: Worker) { k.slot.None? && (k.pc.Top? || k.pc == SlotWait(false)) }

  predicate Loaded(k: Worker) { k.slot.Some? && (k.pc.Top? || k.pc == SlotWait(true)) }

  predicate Working(k: Worker) { k.slot.None? && (k.pc.Running? || k.pc.Returning?) }

  /** An idle worker is empty; a busy one is about to be handed a job, has one in
      its slot, or is running one. */
  ghost predicate WorkerStates(p: Pool) {
    && (forall w: nat :: w in p.idle ==> w < |p.workers| && Asleep(p.workers[w]))
    && (forall w: nat :: w in p.busy ==>
          && w < |p.workers|
          && if p.manager.Handing? && p.manager.worker == w then Asleep(p.workers[w])
             else Loaded(p.workers[w]) || Working(p.workers[w]))
  }

  ghost predicate ManagerState(p: Pool) {
    match p.manager
    case Receiving => true
    case QueueWait => p.queue == []
    case Holding(e) => e.job != NULL_JOB
    case IdleWait(e, notified) => e.job != NULL_JOB && (notified <==> p.idle != [])
    case Handing(e, w) => e.job != NULL_JOB && w in p.busy
  }

  ghost predicate Inv(p: Pool) {
    && !p.broken && Partition(p) && WorkerStates(p) && ManagerState(p)
  }

  lemma {:induction false} CountIdentity(n: nat, w: nat)
    requires w < n
    ensures Count(Numbers(n), w) == 1
  {
    var s := Numbers(n);
    assert s[..n - 1] == Numbers(n - 1);
    if w == n - 1 {
      CountZero(s[..n - 1], w);
    } else {
      CountIdentity(n - 1, w);
    }
  }

  lemma InitInv(cnt: nat)
    ensures Inv(Init(cnt))
  {
    forall w: nat | w < cnt ensures Count(Numbers(cnt), w) == 1 {
      CountIdentity(cnt, w);
    }
  }

  lemma {:induction false} CountAppend(s: seq<nat>, t: seq<nat>, x: nat)
    ensures Count(s + t, x) == Count(s, x) + Count(t, x)
  {
    if t == [] {
      assert s + t == s;
    } else {
      assert (s + t)[..|s + t| - 1] == s + t[..|t| - 1];
      CountAppend(s, t[..|t| - 1], x);
    }
  }

  lemma CountIn(s: seq<nat>, x: nat)
    ensures x in s <==> Count(s, x) > 0
  {
    if x in s {
      var i :| 0 <= i < |s| && s[i] == x;
      CountPositive(s, i);
    } else {
      CountZero(s, x);
    }
  }

  lemma {:induction false} CountRemove(s: seq<nat>, w: nat, x: nat)
    requires w in s
    ensures Count(Remove(s, w), x) == Count(s, x) - (if x == w then 1 else 0)
  {
    assert s == [s[0]] + s[1..];
    CountAppend([s[0]], s[1..], x);
    assert [s[0]][..0] == [];
    if s[0] != w {
      CountRemove(s[1..], w, x);
      CountAppend([s[0]], Remove(s[1..], w), x);
    }
  }

  /** Taking the first idle worker keeps the partition. */
  lemma TakePartition(p: Pool, e: Entry)
    requires Partition(p) && p.idle != []
    ensures Partition(Take(p, e))
    ensures p.idle[0] !in p.idle[1..] && p.idle[0] !in p.busy
  {
    var w, rest := p.idle[0], p.idle[1..];
    assert p.idle == [w] + rest;
    assert [w][..0] == [];
    forall x: nat | x < |p.workers|
      ensures Count(rest, x) + Count(p.busy + [w], x) == 1
    {
      CountAppend([w], rest, x);
      CountAppend(p.busy, [w], x);
    }
    CountAppend([w], rest, w);
    CountIn(rest, w);
    CountIn(p.busy, w);
    assert w in p.idle;
    assert forall x: nat :: x in rest ==> x in p.idle;
    assert forall x: nat :: x in p.busy + [w] ==> x in p.busy || x == w;
  }

  /** moveToIdleList keeps the partition. */
  lemma MovePartition(p: Pool, w: nat)
    requires Partition(p) && w in p.busy
    ensures forall x: nat :: x < |p.workers| ==> Count(p.idle + [w], x) + Count(Remove(p.busy, w), x) == 1
    ensures forall x: nat :: x in Remove(p.busy, w) <==> x in p.busy && x != w
  {
    assert [w][..0] == [];
    forall x: nat | x < |p.workers|
      ensures Count(p.idle + [w], x) + Count(Remove(p.busy, w), x) == 1
    {
      CountAppend(p.idle, [w], x);
      CountRemove(p.busy, w, x);
    }
    forall x: nat ensures x in Remove(p.busy, w) <==> x in p.busy && x != w {
      CountRemove(p.busy, w, x);
      CountIn(Remove(p.busy, w), x);
      CountIn(p.busy, x);
      CountIn(p.busy, w);
      if x in p.busy {
        assert Count(p.idle, x) + Count(p.busy, x) == 1;
      }
    }
  }

  /** No worker stands in both lists. */
  lemma Disjoint(p: Pool, w: nat)
    requires Partition(p) && w < |p.workers|
    ensures w in p.idle <==> w !in p.busy
  {
    CountIn(p.idle, w);
    CountIn(p.busy, w);
  }

  lemma TakeInv(p: Pool, e: Entry)
    requires Inv(p) && p.idle != [] && e.job != NULL_JOB && !p.manager.Handing?
    ensures Inv(Take(p, e))
  {
    TakePartition(p, e);
  }

  lemma ManagerStepInv(p: Pool, ev: Event)
    requires Inv(p) && (ev.Assign? || ev.Receive? || ev.QueueSpurious? || ev.TakeIdle? || ev.ResumeTake?)
    ensures Inv(Next(p, ev))
  {
    if p.idle != [] && (p.manager.Holding? || p.manager.IdleWait?) {
      TakeInv(p, p.manager.entry);
    }
  }

  lemma DropInv(p: Pool)
    requires Inv(p)
    ensures Inv(Next(p, Drop))
  {
    if p.manager.Handing? {
      Disjoint(p, p.manager.worker);
    }
  }

  lemma WorkerStepInv(p: Pool, ev: Event)
    requires Inv(p) && (ev.Look? || ev.ResumeLook? || ev.Finish?)
    ensures Inv(Next(p, ev))
  {
    if ev.w < |p.workers| {
      Disjoint(p, ev.w);
    }
  }

  lemma MoveInv(p: Pool, w: nat)
    requires Inv(p)
    ensures Inv(Next(p, MoveToIdle(w)))
  {
    if w < |p.workers| && p.workers[w].pc.Returning? {
      Disjoint(p, w);
      MovePartition(p, w);
    }
  }

  lemma StepInv(p: Pool, ev: Event)
    requires Inv(p)
    ensures Inv(Next(p, ev))
  {
    match ev
    case Drop => DropInv(p);
    case Look(_) => WorkerStepInv(p, ev);
    case ResumeLook(_) => WorkerStepInv(p, ev);
    case Finish(_) => WorkerStepInv(p, ev);
    case MoveToIdle(w) => MoveInv(p, w);
    case _ => ManagerStepInv(p, ev);
  }
}
