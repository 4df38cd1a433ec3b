/**
 What holds over whole runs of the thread pool: nothing the design rules out happens,
 every assignment is in exactly one place, jobs are handed out in order, and the pool
 left alone finishes all of them.
 */
module PoolRuns {
  import opened Prelude
  import opened ThreadPool

  lemma {:induction false} RunInv(p: Pool, es: seq<Event>)
    requires Inv(p)
    ensures Inv(Run(p, es))
    decreases |es|
  {
    if es != [] {
      StepInv(p, es[0]);
      RunInv(Next(p, es[0]), es[1..]);
    }
  }

  /** No run takes a branch the design rules out: no slot is overwritten, no worker
      runs an empty slot, the manager never takes from an empty idle list, and
      moveToIdleList always finds its worker. Every worker is in one list. */
  lemma NeverBroken(cnt: nat, es: seq<Event>)
    ensures var p := Run(Init(cnt), es);
            && !p.broken
            && |p.workers| == cnt
            && forall w: nat :: w < cnt ==> Count(p.idle, w) + Count(p.busy, w) == 1
  {
    InitInv(cnt);
    RunInv(Init(cnt), es);
    RunWorkers(Init(cnt), es);
  }

  lemma {:induction false} RunWorkers(p: Pool, es: seq<Event>)
    ensures |Run(p, es).workers| == |p.workers|
    decreases |es|
  {
    if es != [] {
      RunWorkers(Next(p, es[0]), es[1..]);
    }
  }

  // ----- every ticket is in exactly one place ----------------------------------

  function InHand(m: ManagerPc): seq<Ticket> {
    match m
    case Receiving => []
    case QueueWait => []
    case Holding(e) => [e.ticket]
    case IdleWait(e, _) => [e.ticket]
    case Handing(e, _) => [e.ticket]
  }

  function AtWorker(k: Worker, t: Ticket): nat {
    (if k.slot.Some? && k.slot.value.ticket == t then 1 else 0)
    + (if k.pc.Running? && k.pc.entry.ticket == t then 1 else 0)
  }

  function AtWorkers(ws: seq<Worker>, t: Ticket): nat {
    if ws == [] then 0 else AtWorkers(ws[..|ws| - 1], t) + AtWorker(ws[|ws| - 1], t)
  }

  function Queued(q: seq<Entry>, t: Ticket): nat {
    if q == [] then 0 else Queued(q[..|q| - 1], t) + (if q[|q| - 1].ticket == t then 1 else 0)
  }

  /** In how many places the ticket is. */
  function Places(p: Pool, t: Ticket): nat {
    Queued(p.queue, t) + Count(InHand(p.manager), t) + AtWorkers(p.workers, t)
    + Count(p.finished, t) + Count(p.skipped, t)
  }

  lemma {:induction false} AtWorkersUpdate(ws: seq<Worker>, i: nat, k: Worker, t: Ticket)
    requires i < |ws|
    ensures AtWorkers(ws[i := k], t) + AtWorker(ws[i], t) == AtWorkers(ws, t) + AtWorker(k, t)
  {
    var n := |ws| - 1;
    if i == n {
      assert ws[i := k][..n] == ws[..n];
    } else {
      AtWorkersUpdate(ws[..n], i, k, t);
      assert ws[i := k][..n] == ws[..n][i := k];
    }
  }

  lemma {:induction false} AtWorkersEmpty(ws: seq<Worker>, t: Ticket)
    requires forall i :: 0 <= i < |ws| ==> AtWorker(ws[i], t) == 0
    ensures AtWorkers(ws, t) == 0
  {
    if ws != [] {
      AtWorkersEmpty(ws[..|ws| - 1], t);
    }
  }

  lemma CountOne(x: nat, t: nat)
    ensures Count([x], t) == if x == t then 1 else 0
  {
    assert [x][..0] == [];
  }

  lemma AssignPlaces(p: Pool, job: Job, t: Ticket)
    ensures Places(Next(p, Assign(job)), t) == Places(p, t) + (if t == |p.given| then 1 else 0)
  {
    var q := p.queue + [Entry(job, |p.given|)];
    assert q[..|q| - 1] == p.queue;
  }

  lemma {:induction false} FirstTicket(q: seq<Entry>, t: Ticket)
    requires q != []
    ensures Queued(q, t) == Queued(q[1..], t) + (if q[0].ticket == t then 1 else 0)
  {
    var n := |q| - 1;
    if n == 0 {
      assert q[1..] == [] && q[..0] == [];
    } else {
      FirstTicket(q[..n], t);
      assert q[1..][..n - 1] == q[..n][1..];
    }
  }

  lemma ReceivePlaces(p: Pool, t: Ticket)
    ensures Places(Next(p, Receive), t) == Places(p, t)
  {
    if p.manager.Receiving? && p.queue != [] {
      FirstTicket(p.queue, t);
      if p.queue[0].job == NULL_JOB {
        SkipPlaces(p, t);
      } else {
        HoldPlaces(p, t);
      }
    }
  }

  lemma SkipPlaces(p: Pool, t: Ticket)
    requires p.manager.Receiving? && p.queue != [] && p.queue[0].job == NULL_JOB
    requires Queued(p.queue, t) == Queued(p.queue[1..], t) + (if p.queue[0].ticket == t then 1 else 0)
    ensures Places(Next(p, Receive), t) == Places(p, t)
  {
    CountAppend(p.skipped, [p.queue[0].ticket], t);
    CountOne(p.queue[0].ticket, t);
  }

  lemma HoldPlaces(p: Pool, t: Ticket)
    requires p.manager.Receiving? && p.queue != [] && p.queue[0].job != NULL_JOB
    requires Queued(p.queue, t) == Queued(p.queue[1..], t) + (if p.queue[0].ticket == t then 1 else 0)
    ensures Places(Next(p, Receive), t) == Places(p, t)
  {
    CountOne(p.queue[0].ticket, t);
  }

  lemma DropPlaces(p: Pool, t: Ticket)
    requires Inv(p)
    ensures Places(Next(p, Drop), t) == Places(p, t)
  {
    if p.manager.Handing? && p.manager.worker < |p.workers| {
      AtWorkersUpdate(p.workers, p.manager.worker, Next(p, Drop).workers[p.manager.worker], t);
      CountOne(p.manager.entry.ticket, t);
    }
  }

  lemma GrabPlaces(p: Pool, w: nat, t: Ticket)
    requires Inv(p) && w < |p.workers| && !p.workers[w].pc.Running?
    ensures Places(Grab(p, w), t) == Places(p, t)
  {
    if p.workers[w].slot.Some? {
      AtWorkersUpdate(p.workers, w, Grab(p, w).workers[w], t);
    }
  }

  lemma LookPlaces(p: Pool, w: nat, t: Ticket)
    requires Inv(p)
    ensures Places(Next(p, Look(w)), t) == Places(p, t)
  {
    if w < |p.workers| && p.workers[w].pc.Top? {
      GrabPlaces(p, w, t);
      AtWorkersUpdate(p.workers, w, Worker(None, SlotWait(false)), t);
    }
  }

  lemma ResumeLookPlaces(p: Pool, w: nat, t: Ticket)
    requires Inv(p)
    ensures Places(Next(p, ResumeLook(w)), t) == Places(p, t)
  {
    if w < |p.workers| && !p.workers[w].pc.Running? {
      GrabPlaces(p, w, t);
    }
  }

  lemma FinishPlaces(p: Pool, w: nat, t: Ticket)
    ensures Places(Next(p, Finish(w)), t) == Places(p, t)
  {
    if w < |p.workers| && p.workers[w].pc.Running? {
      AtWorkersUpdate(p.workers, w, p.workers[w].(pc := Returning), t);
      CountAppend(p.finished, [p.workers[w].pc.entry.ticket], t);
      CountOne(p.workers[w].pc.entry.ticket, t);
    }
  }

  lemma MovePlaces(p: Pool, w: nat, t: Ticket)
    ensures Places(Next(p, MoveToIdle(w)), t) == Places(p, t)
  {
    if w < |p.workers| && p.workers[w].pc.Returning? {
      AtWorkersUpdate(p.workers, w, p.workers[w].(pc := Top), t);
    }
  }

  /** A step moves tickets from place to place; only an assignment adds one. */
  lemma StepPlaces(p: Pool, ev: Event, t: Ticket)
    requires Inv(p)
    ensures Places(Next(p, ev), t) == Places(p, t) + (if ev.Assign? && t == |p.given| then 1 else 0)
  {
    match ev
    case Assign(job) => AssignPlaces(p, job, t);
    case Receive => ReceivePlaces(p, t);
    case Drop => DropPlaces(p, t);
    case QueueSpurious =>
    case TakeIdle =>
    case ResumeTake =>
    case Look(w) => LookPlaces(p, w, t);
    case ResumeLook(w) => ResumeLookPlaces(p, w, t);
    case Finish(w) => FinishPlaces(p, w, t);
    case MoveToIdle(w) => MovePlaces(p, w, t);
  }

  /** A ticket that was given out is in one place, one that was not in none. */
  predicate OnePlace(p: Pool, t: Ticket) { Places(p, t) == if t < |p.given| then 1 else 0 }

  lemma StepGiven(p: Pool, ev: Event)
    ensures |Next(p, ev).given| == |p.given| + (if ev.Assign? then 1 else 0)
  {
  }

  lemma StepOnePlace(p: Pool, ev: Event, t: Ticket)
    requires Inv(p) && OnePlace(p, t)
    ensures OnePlace(Next(p, ev), t)
  {
    StepPlaces(p, ev, t);
    StepGiven(p, ev);
  }

  lemma {:induction false} RunPlaces(p: Pool, es: seq<Event>, t: Ticket)
    requires Inv(p) && OnePlace(p, t)
    ensures OnePlace(Run(p, es), t)
    decreases |es|
  {
    if es != [] {
      StepInv(p, es[0]);
      StepOnePlace(p, es[0], t);
      RunPlaces(Next(p, es[0]), es[1..], t);
    }
  }

  // ----- jobs are handed out in assignment order -------------------------------

  /** The tickets below k that carry a job, in order. */
  function Jobs(given: seq<Job>, k: nat): seq<Ticket>
    requires k <= |given|
  {
    if k == 0 then []
    else if given[k - 1] == NULL_JOB then Jobs(given, k - 1)
    else Jobs(given, k - 1) + [k - 1]
  }

  lemma {:induction false} JobsAscend(given: seq<Job>, k: nat)
    requires k <= |given|
    ensures forall t: nat :: t in Jobs(given, k) <==> t < k && given[t] != NULL_JOB
    ensures forall i, j :: 0 <= i < j < |Jobs(given, k)| ==> Jobs(given, k)[i] < Jobs(given, k)[j]
  {
    if k > 0 {
      JobsAscend(given, k - 1);
      var before := Jobs(given, k - 1);
      assert forall i :: 0 <= i < |before| ==> before[i] in before;
      if given[k - 1] != NULL_JOB {
        assert Jobs(given, k) == before + [k - 1];
      }
    }
  }

  lemma {:induction false} JobsPrefix(given: seq<Job>, job: Job, k: nat)
    requires k <= |given|
    ensures Jobs(given + [job], k) == Jobs(given, k)
  {
    if k > 0 {
      assert (given + [job])[k - 1] == given[k - 1];
      JobsPrefix(given, job, k - 1);
    }
  }

  /** The queue holds the latest tickets; those before it went to the manager. */
  ghost predicate QueueOrdered(p: Pool) {
    && |p.queue| <= |p.given|
    && forall i :: 0 <= i < |p.queue| ==>
         p.queue[i] == Entry(p.given[|p.given| - |p.queue| + i], |p.given| - |p.queue| + i)
  }

  ghost predicate HandedOrdered(p: Pool) {
    && |p.queue| <= |p.given|
    && p.handed + InHand(p.manager) == Jobs(p.given, |p.given| - |p.queue|)
  }

  ghost predicate SkippedNull(p: Pool) {
    forall t: nat :: t in p.skipped ==> t < |p.given| && p.given[t] == NULL_JOB
  }

  ghost predicate Ordered(p: Pool) { QueueOrdered(p) && HandedOrdered(p) && SkippedNull(p) }

  lemma AssignQueueOrdered(p: Pool, job: Job)
    requires QueueOrdered(p)
    ensures QueueOrdered(Next(p, Assign(job)))
  {
    var q := p.queue + [Entry(job, |p.given|)];
    assert forall i :: 0 <= i < |p.queue| ==> q[i] == p.queue[i];
  }

  lemma AssignOrdered(p: Pool, job: Job)
    requires Ordered(p)
    ensures Ordered(Next(p, Assign(job)))
  {
    AssignQueueOrdered(p, job);
    JobsPrefix(p.given, job, |p.given| - |p.queue|);
  }

  lemma ReceiveOrdered(p: Pool)
    requires Ordered(p)
    ensures Ordered(Next(p, Receive))
  {
    if p.manager.Receiving? && p.queue != [] {
      var k := |p.given| - |p.queue|;
      assert p.queue[0] == Entry(p.given[k], k);
      assert InHand(p.manager) == [];
      assert p.handed + [] == p.handed;
    }
  }

  lemma DropOrdered(p: Pool)
    requires Ordered(p)
    ensures Ordered(Next(p, Drop))
  {
    if p.manager.Handing? {
      assert (p.handed + [p.manager.entry.ticket]) + [] == p.handed + InHand(p.manager);
    }
  }

  lemma OtherOrdered(p: Pool, ev: Event)
    requires Ordered(p) && !ev.Assign? && !ev.Receive? && !ev.Drop?
    ensures Ordered(Next(p, ev))
  {
    var r := Next(p, ev);
    assert r.queue == p.queue && r.given == p.given && r.handed == p.handed && r.skipped == p.skipped;
    assert InHand(r.manager) == InHand(p.manager);
  }

  lemma StepOrdered(p: Pool, ev: Event)
    requires Inv(p) && Ordered(p)
    ensures Ordered(Next(p, ev))
  {
    match ev
    case Assign(job) => AssignOrdered(p, job);
    case Receive => ReceiveOrdered(p);
    case Drop => DropOrdered(p);
    case _ => OtherOrdered(p, ev);
  }

  lemma {:induction false} RunOrdered(p: Pool, es: seq<Event>)
    requires Inv(p) && Ordered(p)
    ensures Ordered(Run(p, es))
    decreases |es|
  {
    if es != [] {
      StepInv(p, es[0]);
      StepOrdered(p, es[0]);
      RunOrdered(Next(p, es[0]), es[1..]);
    }
  }

  /** In every interleaving each assignment is in exactly one place: no job is
      lost and none runs twice. */
  lemma ExactlyOnce(cnt: nat, es: seq<Event>, t: Ticket)
    ensures var p := Run(Init(cnt), es);
            Places(p, t) == (if t < |p.given| then 1 else 0)
  {
    InitInv(cnt);
    AtWorkersEmpty(Init(cnt).workers, t);
    RunPlaces(Init(cnt), es, t);
  }

  lemma PrefixAscends(a: seq<nat>, b: seq<nat>, whole: seq<nat>)
    requires a + b == whole && forall i, j :: 0 <= i < j < |whole| ==> whole[i] < whole[j]
    ensures forall i, j :: 0 <= i < j < |a| ==> a[i] < a[j]
  {
    assert forall i :: 0 <= i < |a| ==> a[i] == whole[i];
  }

  /** The manager hands out exactly the jobs it has received, in assignment order. */
  lemma HandedInOrder(cnt: nat, es: seq<Event>)
    ensures var p := Run(Init(cnt), es);
            && |p.queue| <= |p.given|
            && p.handed + InHand(p.manager) == Jobs(p.given, |p.given| - |p.queue|)
            && (forall i, j :: 0 <= i < j < |p.handed| ==> p.handed[i] < p.handed[j])
  {
    InitInv(cnt);
    RunOrdered(Init(cnt), es);
    var p := Run(Init(cnt), es);
    JobsAscend(p.given, |p.given| - |p.queue|);
    PrefixAscends(p.handed, InHand(p.manager), Jobs(p.given, |p.given| - |p.queue|));
  }

  // ----- which job a ticket stands for, and whose turn it is -----------------------

  /** The jobs assigned in a series of events. */
  function AssignedIn(es: seq<Event>): seq<Job> {
    if es == [] then [] else (if es[0].Assign? then [es[0].job] else []) + AssignedIn(es[1..])
  }

  lemma {:induction false} RunGiven(p: Pool, es: seq<Event>)
    ensures Run(p, es).given == p.given + AssignedIn(es)
    decreases |es|
  {
    if es == [] {
      assert p.given + [] == p.given;
    } else {
      var q := Next(p, es[0]);
      RunGiven(q, es[1..]);
      StepGivenIs(p, es[0]);
      Regrouped(p.given, if es[0].Assign? then [es[0].job] else [], AssignedIn(es[1..]));
    }
  }

  lemma StepGivenIs(p: Pool, ev: Event)
    ensures Next(p, ev).given == p.given + if ev.Assign? then [ev.job] else []
  {
  }

  lemma Regrouped<T>(a: seq<T>, b: seq<T>, c: seq<T>)
    ensures a + (b + c) == (a + b) + c
  {
  }

  predicate TrueEntry(given: seq<Job>, e: Entry) { e.ticket < |given| && e.job == given[e.ticket] }

  /** Wherever an entry is, it is the job that was assigned under its ticket. */
  ghost predicate TrueJobs(p: Pool) {
    && (forall i :: 0 <= i < |p.queue| ==> TrueEntry(p.given, p.queue[i]))
    && (p.manager.Holding? || p.manager.IdleWait? || p.manager.Handing? ==> TrueEntry(p.given, p.manager.entry))
    && (forall w :: 0 <= w < |p.workers| ==>
          && (p.workers[w].slot.Some? ==> TrueEntry(p.given, p.workers[w].slot.value))
          && (p.workers[w].pc.Running? ==> TrueEntry(p.given, p.workers[w].pc.entry)))
  }

  lemma StepTrueJobs(p: Pool, ev: Event)
    requires TrueJobs(p)
    ensures TrueJobs(Next(p, ev))
  {
    if ev.Assign? {
      assert forall e :: TrueEntry(p.given, e) ==> TrueEntry(p.given + [ev.job], e);
    }
  }

  lemma {:induction false} RunTrueJobs(p: Pool, es: seq<Event>)
    requires TrueJobs(p)
    ensures TrueJobs(Run(p, es))
    decreases |es|
  {
    if es != [] {
      StepTrueJobs(p, es[0]);
      RunTrueJobs(Next(p, es[0]), es[1..]);
    }
  }

  /** In every run the tickets count the assignments, and a worker runs the very job that
      was assigned under the ticket it has. */
  lemma TicketsAreJobs(cnt: nat, es: seq<Event>, w: nat)
    ensures var p := Run(Init(cnt), es);
            && p.given == AssignedIn(es)
            && (w < |p.workers| && p.workers[w].pc.Running? ==>
                  var e := p.workers[w].pc.entry; e.ticket < |AssignedIn(es)| && e.job == AssignedIn(es)[e.ticket])
  {
    RunGiven(Init(cnt), es);
    RunTrueJobs(Init(cnt), es);
    assert [] + AssignedIn(es) == AssignedIn(es);
  }

  /** The workers that the manager takes in the course of a run, in order. */
  function TakenIn(p: Pool, es: seq<Event>): seq<nat>
    decreases |es|
  {
    if es == [] then []
    else
      var q := Next(p, es[0]);
      (if q.manager.Handing? && !p.manager.Handing? then [q.manager.worker] else []) + TakenIn(q, es[1..])
  }

  /** The workers that report back, in order. */
  function BackIn(p: Pool, es: seq<Event>): seq<nat>
    decreases |es|
  {
    if es == [] then []
    else
      (match es[0] case MoveToIdle(w) => if w < |p.workers| && p.workers[w].pc.Returning? then [w] else [] case _ => [])
      + BackIn(Next(p, es[0]), es[1..])
  }

  /** One step of a list of which the first is taken and to which others are added. */
  lemma StepTurn(p: Pool, ev: Event)
    requires Inv(p)
    ensures TakenIn(p, [ev]) <= p.idle
    ensures Next(p, ev).idle == (p.idle + BackIn(p, [ev]))[|TakenIn(p, [ev])|..]
  {
    var q := Next(p, ev);
    assert [ev][1..] == [];
    match ev
    case MoveToIdle(w) =>
      if w < |p.workers| {
        Disjoint(p, w);
      }
      assert BackIn(p, [ev]) == if w < |p.workers| && p.workers[w].pc.Returning? then [w] else [];
    case _ => assert p.idle + [] == p.idle;
  }

  lemma FirstTurn(p: Pool, es: seq<Event>)
    requires es != []
    ensures BackIn(p, es) == BackIn(p, [es[0]]) + BackIn(Next(p, es[0]), es[1..])
    ensures TakenIn(p, es) == TakenIn(p, [es[0]]) + TakenIn(Next(p, es[0]), es[1..])
  {
    assert [es[0]][1..] == [];
  }

  lemma JoinRuns<T>(idle: seq<T>, b: seq<T>, t: seq<T>, mid: seq<T>, bs: seq<T>, ts: seq<T>, last: seq<T>)
    requires t <= idle && mid == (idle + b)[|t|..] && mid + bs == ts + last
    ensures idle + (b + bs) == (t + ts) + last
  {
    assert idle == t + idle[|t|..];
    assert mid == idle[|t|..] + b;
    assert idle + (b + bs) == t + (mid + bs);
  }

  lemma {:induction false} RunTurns(p: Pool, es: seq<Event>)
    requires Inv(p)
    ensures p.idle + BackIn(p, es) == TakenIn(p, es) + Run(p, es).idle
    decreases |es|
  {
    if es == [] {
      assert p.idle + [] == p.idle;
    } else {
      var ev, q := es[0], Next(p, es[0]);
      StepInv(p, ev);
      StepTurn(p, ev);
      RunTurns(q, es[1..]);
      FirstTurn(p, es);
      JoinRuns(p.idle, BackIn(p, [ev]), TakenIn(p, [ev]), q.idle, BackIn(q, es[1..]), TakenIn(q, es[1..]), Run(q, es[1..]).idle);
    }
  }

  /** Workers are used in turn: the manager takes them in the order in which they became
      idle, the first time from worker 0 up, and the rest of that order is the idle list. */
  lemma LongestIdleFirst(cnt: nat, es: seq<Event>)
    ensures Numbers(cnt) + BackIn(Init(cnt), es) == TakenIn(Init(cnt), es) + Run(Init(cnt), es).idle
  {
    InitInv(cnt);
    RunTurns(Init(cnt), es);
  }

  // ----- the pool finishes its jobs ----------------------------------------------

  function ManagerWeight(m: ManagerPc): nat {
    match m
    case QueueWait => 0
    case Receiving => 1
    case Holding(_) => 9
    case IdleWait(_, _) => 8
    case Handing(_, _) => 7
  }

  function WorkerWeight(k: Worker): nat {
    match k.pc
    case Top => if k.slot.Some? then 6 else 1
    case SlotWait(_) => if k.slot.Some? then 5 else 0
    case Running(_) => 3
    case Returning => 2
  }

  function WorkersWeight(ws: seq<Worker>): nat {
    if ws == [] then 0 else WorkersWeight(ws[..|ws| - 1]) + WorkerWeight(ws[|ws| - 1])
  }

  /** The work still in the pool. */
  function Weight(p: Pool): nat { 10 * |p.queue| + ManagerWeight(p.manager) + WorkersWeight(p.workers) }

  lemma {:induction false} WeightUpdate(ws: seq<Worker>, i: nat, k: Worker)
    requires i < |ws|
    ensures WorkersWeight(ws[i := k]) + WorkerWeight(ws[i]) == WorkersWeight(ws) + WorkerWeight(k)
  {
    var n := |ws| - 1;
    if i == n {
      assert ws[i := k][..n] == ws[..n];
    } else {
      WeightUpdate(ws[..n], i, k);
      assert ws[i := k][..n] == ws[..n][i := k];
    }
  }

  /** A step some thread of the pool takes by itself: not a new assignment, and not
      a wakeup without cause. */
  predicate Internal(ev: Event) { !ev.Assign? && !ev.QueueSpurious? }

  lemma WorkerStepDecreases(p: Pool, ev: Event)
    requires Inv(p) && Next(p, ev) != p
    requires ev.Look? || ev.ResumeLook? || ev.Finish? || ev.MoveToIdle?
    ensures Weight(Next(p, ev)) < Weight(p)
  {
    Disjoint(p, ev.w);
    WeightUpdate(p.workers, ev.w, Next(p, ev).workers[ev.w]);
  }

  lemma InternalStepDecreases(p: Pool, ev: Event)
    requires Inv(p) && Internal(ev) && Next(p, ev) != p
    ensures Weight(Next(p, ev)) < Weight(p)
  {
    match ev
    case Receive =>
    case TakeIdle =>
    case ResumeTake =>
    case Drop =>
      WeightUpdate(p.workers, p.manager.worker, Next(p, ev).workers[p.manager.worker]);
    case Look(_) => WorkerStepDecreases(p, ev);
    case ResumeLook(_) => WorkerStepDecreases(p, ev);
    case Finish(_) => WorkerStepDecreases(p, ev);
    case MoveToIdle(_) => WorkerStepDecreases(p, ev);
    case Assign(_) => assert false;
    case QueueSpurious => assert false;
  }

  /** Every event of the run is an internal one that changes something. */
  ghost predicate Busy(p: Pool, es: seq<Event>)
    decreases |es|
  {
    es != [] ==> Internal(es[0]) && Next(p, es[0]) != p && Busy(Next(p, es[0]), es[1..])
  }

  /** Nobody in the pool can take a step. */
  ghost predicate Quiescent(p: Pool) {
    forall ev :: Internal(ev) ==> Next(p, ev) == p
  }

  lemma {:induction false} BusyRunBounded(p: Pool, es: seq<Event>)
    requires Inv(p) && Busy(p, es)
    ensures |es| + Weight(Run(p, es)) <= Weight(p)
    decreases |es|
  {
    if es != [] {
      StepInv(p, es[0]);
      InternalStepDecreases(p, es[0]);
      BusyRunBounded(Next(p, es[0]), es[1..]);
    }
  }

  lemma QuiescentWorker(p: Pool, w: nat)
    requires Inv(p) && Quiescent(p) && w < |p.workers|
    ensures p.workers[w] == Worker(None, SlotWait(false))
  {
    Disjoint(p, w);
    var looked, resumed, done, moved := Next(p, Look(w)), Next(p, ResumeLook(w)), Next(p, Finish(w)), Next(p, MoveToIdle(w));
    assert looked == p && resumed == p && done == p && moved == p;
  }

  lemma QuiescentManager(p: Pool)
    requires Inv(p) && Quiescent(p) && |p.workers| > 0
    ensures p.manager.QueueWait?
  {
    QuiescentWorker(p, 0);
    Disjoint(p, 0);
    var received, taken, resumed, dropped := Next(p, Receive), Next(p, TakeIdle), Next(p, ResumeTake), Next(p, Drop);
    assert received == p && taken == p && resumed == p && dropped == p;
    assert p.manager.Receiving? && p.queue != [] ==> |received.queue| < |p.queue|;
  }

  lemma QuiescentFinished(p: Pool, t: Ticket)
    requires Inv(p) && Ordered(p) && Quiescent(p) && |p.workers| > 0
    requires t < |p.given| && p.given[t] != NULL_JOB && Places(p, t) == 1
    ensures Count(p.finished, t) == 1
  {
    QuiescentManager(p);
    forall i | 0 <= i < |p.workers| ensures AtWorker(p.workers[i], t) == 0 {
      QuiescentWorker(p, i);
    }
    AtWorkersEmpty(p.workers, t);
    CountZero(p.skipped, t);
  }

  lemma {:induction false} RunConcat(p: Pool, a: seq<Event>, b: seq<Event>)
    ensures Run(p, a + b) == Run(Run(p, a), b)
    decreases |a|
  {
    if a == [] {
      assert a + b == b;
    } else {
      assert (a + b)[0] == a[0] && (a + b)[1..] == a[1..] + b;
      RunConcat(Next(p, a[0]), a[1..], b);
    }
  }

  /** The pool cannot get stuck and cannot dawdle: left alone from any reachable
      state it takes at most Weight steps, and when none is left every job that
      was ever assigned has run exactly once. */
  lemma PoolFinishesEverything(cnt: nat, before: seq<Event>, es: seq<Event>)
    requires cnt >= 1
    requires Busy(Run(Init(cnt), before), es)
    ensures |es| <= Weight(Run(Init(cnt), before))
    ensures var p := Run(Run(Init(cnt), before), es);
            Quiescent(p) ==>
              forall t: nat :: t < |p.given| && p.given[t] != NULL_JOB ==> Count(p.finished, t) == 1
  {
    var start := Run(Init(cnt), before);
    var p := Run(start, es);
    RunConcat(Init(cnt), before, es);
    NeverBroken(cnt, before + es);
    InitInv(cnt);
    RunInv(Init(cnt), before);
    RunInv(start, es);
    BusyRunBounded(start, es);
    RunOrdered(Init(cnt), before + es);
    if Quiescent(p) {
      forall t: nat | t < |p.given| && p.given[t] != NULL_JOB ensures Count(p.finished, t) == 1 {
        ExactlyOnce(cnt, before + es, t);
        QuiescentFinished(p, t);
      }
    }
  }

  /** A manager woken for no reason finds the queue empty and goes back to sleep. */
  lemma WokenForNothing(cnt: nat, es: seq<Event>)
    ensures var p := Run(Init(cnt), es);
            p.manager.QueueWait? ==>
              Next(p, QueueSpurious).manager.Receiving? && Next(Next(p, QueueSpurious), Receive) == p
  {
    InitInv(cnt);
    RunInv(Init(cnt), es);
  }

  // ----- why the waits must be signalled ------------------------------------------

  /** The system with sleepers that take the mutex again at any time: pthread_cond_wait
      may return at the pool's or a worker's wait without a signal, and the code under
      `if` then goes on as if there had been one. */
  datatype WildEvent = Usual(ev: Event) | ManagerRelocks | WorkerRelocks(w: nat)

  function WildNext(p: Pool, ev: WildEvent): Pool {
    match ev
    case Usual(e) => Next(p, e)
    case ManagerRelocks => if p.manager.IdleWait? then Take(p, p.manager.entry) else p
    case WorkerRelocks(w) => if w < |p.workers| && p.workers[w].pc.SlotWait? then Grab(p, w) else p
  }

  function WildRun(p: Pool, es: seq<WildEvent>): Pool
    decreases |es|
  {
    if es == [] then p else WildRun(WildNext(p, es[0]), es[1..])
  }

  /** A sleeper goes on before it was signalled. */
  predicate Early(p: Pool, ev: WildEvent) {
    match ev
    case Usual(_) => false
    case ManagerRelocks => p.manager.IdleWait? && !p.manager.notified
    case WorkerRelocks(w) => w < |p.workers| && p.workers[w].pc == SlotWait(false)
  }

  predicate EverEarly(p: Pool, es: seq<WildEvent>)
    decreases |es|
  {
    es != [] && (Early(p, es[0]) || EverEarly(WildNext(p, es[0]), es[1..]))
  }

  lemma EarlyBreaks(p: Pool, ev: WildEvent)
    requires Inv(p)
    ensures Early(p, ev) ==> WildNext(p, ev).broken
    ensures !Early(p, ev) ==> Inv(WildNext(p, ev))
  {
    match ev
    case Usual(e) => StepInv(p, e);
    case ManagerRelocks => StepInv(p, ResumeTake);
    case WorkerRelocks(w) =>
      StepInv(p, ResumeLook(w));
      if w < |p.workers| {
        Disjoint(p, w);
      }
  }

  lemma BrokenStays(p: Pool, ev: WildEvent)
    requires p.broken
    ensures WildNext(p, ev).broken
  {
  }

  lemma {:induction false} BrokenForGood(p: Pool, es: seq<WildEvent>)
    requires p.broken
    ensures WildRun(p, es).broken
    decreases |es|
  {
    if es != [] {
      BrokenStays(p, es[0]);
      BrokenForGood(WildNext(p, es[0]), es[1..]);
    }
  }

  lemma {:induction false} BrokenIffEarlyFrom(p: Pool, es: seq<WildEvent>)
    requires Inv(p)
    ensures WildRun(p, es).broken <==> EverEarly(p, es)
    decreases |es|
  {
    if es != [] {
      EarlyBreaks(p, es[0]);
      if Early(p, es[0]) {
        BrokenForGood(WildNext(p, es[0]), es[1..]);
      } else {
        BrokenIffEarlyFrom(WildNext(p, es[0]), es[1..]);
      }
    }
  }

  /** Over whole runs with wakeups without cause: a branch the design rules out is taken -
      a job from an empty slot, a worker from an empty list - exactly in the runs in which
      some sleeper went on before it was signalled. */
  lemma BrokenIffEarly(cnt: nat, es: seq<WildEvent>)
    ensures WildRun(Init(cnt), es).broken <==> EverEarly(Init(cnt), es)
  {
    InitInv(cnt);
    BrokenIffEarlyFrom(Init(cnt), es);
  }

  /** Such runs there are: a new worker goes to sleep and wakes up without a job. */
  lemma EarlyReached()
    ensures WildRun(Init(1), [Usual(Look(0)), WorkerRelocks(0)]).broken
  {
    var p := Next(Init(1), Look(0));
    assert p.workers[0] == Worker(None, SlotWait(false));
    assert [Usual(Look(0)), WorkerRelocks(0)][1..] == [WorkerRelocks(0)];
    assert WildRun(p, [WorkerRelocks(0)]) == WildNext(p, WorkerRelocks(0));
  }
}
