/**
 The server's mutexes. Guards are scoped, so the code of a thread is a list of nested
 critical sections. Every path takes its locks in rising order - a client's _iolk, a
 room's _slk, a session's _lk, then the locks that enclose no other - and so any number
 of threads, however they interleave, always get to the end.
 */
module LockOrder {
  datatype Lock =
    | Iolk(client: nat) | Slk(room: nat) | SessionLk(room: nat, session: nat)
    | UsersLk(room: nat) | ListLk | ListenerLk | QueueLk | PoolEvent | WorkerEvent(worker: nat)
    | KeysLk | SerialLk | UdpLk(sock: nat) | DbLk

  /** A critical section with the ones inside it, in the order they are entered. */
  datatype Code = Section(lock: Lock, inner: seq<Code>)

  function Rank(l: Lock): nat {
    match l
    case Iolk(_) => 0
    case Slk(_) => 1
    case SessionLk(_, _) => 2
    case UsersLk(_) => 3
    case ListLk => 3
    case ListenerLk => 3
    case QueueLk => 3
    case PoolEvent => 3
    case WorkerEvent(_) => 3
    case KeysLk => 3
    case SerialLk => 3
    case UdpLk(_) => 3
    case DbLk => 3
  }

  const RANKS: nat := 4

  // ----- the catalogue of paths ------------------------------------------------------------

  /** What a request does with locks. */
  datatype Act =
    | EnterRoom(r: nat) | LeaveRoom(r: nat) | MakeSession(r: nat, s: nat) | UseSession(r: nat, s: nat)
    | MakeReady(r: nat, s: nat, starts: bool)
    | ListRooms(rs: seq<nat>) | ListSessions(r: nat, ss: seq<nat>) | Other

  function Only(l: Lock): Code { Section(l, []) }

  function Each(ls: seq<Lock>): seq<Code> {
    if ls == [] then [] else Each(ls[..|ls| - 1]) + [Only(ls[|ls| - 1])]
  }

  function SessionLocks(r: nat, ss: seq<nat>): seq<Lock> { seq(|ss|, i requires 0 <= i < |ss| => SessionLk(r, ss[i])) }

  function UserLocks(rs: seq<nat>): seq<Lock> { seq(|rs|, i requires 0 <= i < |rs| => UsersLk(rs[i])) }

  /** A handler; UseSession stands for enterSession, watchSession and leaveSession. A ready
      that starts a game gives the pool a job of its own once the room is left. */
  function HandlerCode(a: Act): seq<Code> {
    match a
    case EnterRoom(r) => [Only(UsersLk(r))]
    case LeaveRoom(r) => [Only(UsersLk(r))]
    case MakeSession(r, s) => [Only(UsersLk(r)), Only(Slk(r)), Only(SessionLk(r, s))]
    case UseSession(r, s) => [Section(Slk(r), [Only(SessionLk(r, s))])]
    case MakeReady(r, s, starts) => [Section(Slk(r), [Only(SessionLk(r, s))])] + (if starts then [Only(QueueLk)] else [])
    case ListRooms(rs) => Each(UserLocks(rs))
    case ListSessions(r, ss) => [Section(Slk(r), Each(SessionLocks(r, ss)))]
    case Other => []
  }

  /** procMsgs: after every handler the batches go to the pool's queue. */
  function RequestsCode(acts: seq<Act>): seq<Code> {
    if acts == [] then []
    else RequestsCode(acts[..|acts| - 1]) + HandlerCode(acts[|acts| - 1]) + [Only(QueueLk), Only(QueueLk)]
  }

  /** What a thread of the server does in one go; `stage` is how far it gets when it can
      end early. */
  datatype Task =
    | Serve(c: nat, acts: seq<Act>)                    // doWork that goes on
    | Close(c: nat, acts: seq<Act>)                    // doWork that ends on the disconnect path
    | Notify(cs: seq<nat>)                             // CNotifier::run
    | Broadcast(us: seq<nat>)                          // CBroadCaster::run, by the sockets used
    | Connect(u: nat, stage: nat)                      // CUdpJob::run
    | Login(stage: nat)                                // CTcpJob::run
    | Listen                                           // a listener thread hands on an event
    | HandOut(w: nat)                                  // the pool's manager hands a job to w
    | TakeJob(w: nat)                                  // w takes its job
    | GoIdle                                           // a worker after its job

  function NotifyCode(cs: seq<nat>): seq<Code> {
    if cs == [] then [] else NotifyCode(cs[..|cs| - 1]) + [Section(Iolk(cs[|cs| - 1]), [Only(ListenerLk)])]
  }

  function SocketLocks(us: seq<nat>): seq<Lock> { seq(|us|, i requires 0 <= i < |us| => UdpLk(us[i])) }

  /** The serial number, insert, size, the answer, and remove if that fails. */
  function ConnectLocks(u: nat): seq<Lock> { [SerialLk, KeysLk, KeysLk, UdpLk(u), KeysLk] }

  /** verifykey, findClient, verifyUser, addClient, the listener's assign, userCount. */
  const LOGIN_LOCKS: seq<Lock> := [KeysLk, ListLk, DbLk, ListLk, ListenerLk, ListLk]

  function UpTo<T>(s: seq<T>, stage: nat): seq<T> { if stage <= |s| then s[..stage] else s }

  function TaskCode(t: Task): seq<Code> {
    match t
    case Serve(c, acts) => [Section(Iolk(c), RequestsCode(acts) + [Only(ListenerLk)])]
    case Close(c, acts) => [Section(Iolk(c), RequestsCode(acts) + [Only(ListLk), Only(ListLk)])]
    case Notify(cs) => NotifyCode(cs)
    case Broadcast(us) => Each(SocketLocks(us))
    case Connect(u, stage) => Each(UpTo(ConnectLocks(u), stage))
    case Login(stage) => Each(UpTo(LOGIN_LOCKS, stage))
    case Listen => [Only(QueueLk)]
    case HandOut(w) => [Only(QueueLk), Only(PoolEvent), Only(WorkerEvent(w))]
    case TakeJob(w) => [Only(WorkerEvent(w))]
    case GoIdle => [Only(PoolEvent)]
  }

  /** A thread goes from one task to the next. */
  function TasksCode(ts: seq<Task>): seq<Code> {
    if ts == [] then [] else TasksCode(ts[..|ts| - 1]) + TaskCode(ts[|ts| - 1])
  }

  // ----- the order ----------------------------------------------------------------------------

  /** Inside a section every lock ranks above it. */
  predicate Rising(c: Code, floor: nat)
    decreases c
  {
    Rank(c.lock) >= floor && forall i :: 0 <= i < |c.inner| ==> Rising(c.inner[i], Rank(c.lock) + 1)
  }

  predicate AllRising(cs: seq<Code>, floor: nat) {
    forall i :: 0 <= i < |cs| ==> Rising(cs[i], floor)
  }

  lemma {:induction false} EachRises(ls: seq<Lock>, floor: nat)
    requires forall i :: 0 <= i < |ls| ==> Rank(ls[i]) >= floor
    ensures AllRising(Each(ls), floor)
  {
    if ls != [] {
      EachRises(ls[..|ls| - 1], floor);
      assert Rising(Only(ls[|ls| - 1]), floor);
    }
  }

  lemma HandlerRises(a: Act)
    ensures AllRising(HandlerCode(a), 1)
  {
    match a
    case ListRooms(rs) => EachRises(UserLocks(rs), 1);
    case ListSessions(r, ss) => EachRises(SessionLocks(r, ss), 2);
    case EnterRoom(r) =>
    case LeaveRoom(r) =>
    case MakeSession(r, s) =>
    case UseSession(r, s) =>
      assert Rising(Only(SessionLk(r, s)), 2);
    case MakeReady(r, s, _) =>
      assert Rising(Only(SessionLk(r, s)), 2);
    case Other =>
  }

  lemma {:induction false} RequestsRise(acts: seq<Act>)
    ensures AllRising(RequestsCode(acts), 1)
  {
    if acts != [] {
      RequestsRise(acts[..|acts| - 1]);
      HandlerRises(acts[|acts| - 1]);
    }
  }

  lemma {:induction false} NotifyRises(cs: seq<nat>)
    ensures AllRising(NotifyCode(cs), 0)
  {
    if cs != [] {
      NotifyRises(cs[..|cs| - 1]);
      assert Rising(Only(ListenerLk), 1);
    }
  }

  lemma TaskRises(t: Task)
    ensures AllRising(TaskCode(t), 0)
  {
    match t
    case Serve(c, acts) => RequestsRise(acts);
    case Close(c, acts) => RequestsRise(acts);
    case Notify(cs) => NotifyRises(cs);
    case Broadcast(us) => EachRises(SocketLocks(us), 0);
    case Connect(u, stage) => EachRises(UpTo(ConnectLocks(u), stage), 0);
    case Login(stage) => EachRises(UpTo(LOGIN_LOCKS, stage), 0);
    case Listen =>
    case HandOut(w) =>
    case TakeJob(w) =>
    case GoIdle =>
  }

  /** Whatever tasks a thread goes through, it takes its locks in rising order. */
  lemma {:induction false} TasksRise(ts: seq<Task>)
    ensures AllRising(TasksCode(ts), 0)
  {
    if ts != [] {
      TasksRise(ts[..|ts| - 1]);
      TaskRises(ts[|ts| - 1]);
    }
  }

  // ----- threads and their interleavings -----------------------------------------------------

  /** A section being executed: its lock and what is left of it. */
  datatype Frame = Frame(lock: Lock, rest: seq<Code>)

  /** The sections a thread is in, outermost first, and what comes after them. */
  datatype Thread = Thread(held: seq<Frame>, todo: seq<Code>)

  predicate Finished(t: Thread) { t.held == [] && t.todo == [] }

  /** The code of the innermost section. */
  function Current(t: Thread): seq<Code> {
    if t.held == [] then t.todo else t.held[|t.held| - 1].rest
  }

  function WithCurrent(t: Thread, cs: seq<Code>): Thread {
    if t.held == [] then t.(todo := cs)
    else t.(held := t.held[|t.held| - 1 := t.held[|t.held| - 1].(rest := cs)])
  }

  predicate Holds(t: Thread, l: Lock) { exists k :: 0 <= k < |t.held| && t.held[k].lock == l }

  predicate FreeLock(ts: seq<Thread>, l: Lock) { forall i :: 0 <= i < |ts| ==> !Holds(ts[i], l) }

  /** The thread has something to do and is not blocked on a mutex. */
  predicate CanStep(ts: seq<Thread>, i: nat) {
    && i < |ts| && !Finished(ts[i])
    && (Current(ts[i]) != [] ==> FreeLock(ts, Current(ts[i])[0].lock))
  }

  function Enter(t: Thread): Thread
    requires Current(t) != []
  {
    var c := Current(t)[0];
    var t' := WithCurrent(t, Current(t)[1..]);
    t'.(held := t'.held + [Frame(c.lock, c.inner)])
  }

  function Leave(t: Thread): Thread
    requires t.held != []
  {
    t.(held := t.held[..|t.held| - 1])
  }

  /** Enters the next section or leaves the innermost; a blocked thread stays. */
  function Step(ts: seq<Thread>, i: nat): seq<Thread> {
    if !CanStep(ts, i) then ts
    else ts[i := if Current(ts[i]) != [] then Enter(ts[i]) else Leave(ts[i])]
  }

  function Run(ts: seq<Thread>, schedule: seq<nat>): seq<Thread>
    decreases |schedule|
  {
    if schedule == [] then ts else Run(Step(ts, schedule[0]), schedule[1..])
  }

  function Start(tasks: seq<seq<Task>>): seq<Thread> {
    seq(|tasks|, i requires 0 <= i < |tasks| => Thread([], TasksCode(tasks[i])))
  }

  // ----- the invariant ---------------------------------------------------------------------------

  /** The locks a thread holds rise, and so does all it is going to do. */
  ghost predicate ThreadOk(t: Thread) {
    && AllRising(t.todo, 0)
    && (forall k :: 0 <= k < |t.held| ==> AllRising(t.held[k].rest, Rank(t.held[k].lock) + 1))
    && (forall j, k :: 0 <= j < k < |t.held| ==> Rank(t.held[j].lock) < Rank(t.held[k].lock))
  }

  ghost predicate Exclusive(ts: seq<Thread>) {
    forall i, j, l :: 0 <= i < j < |ts| ==> !(Holds(ts[i], l) && Holds(ts[j], l))
  }

  ghost predicate Inv(ts: seq<Thread>) {
    (forall i :: 0 <= i < |ts| ==> ThreadOk(ts[i])) && Exclusive(ts)
  }

  lemma StartInv(tasks: seq<seq<Task>>)
    ensures Inv(Start(tasks))
  {
    forall i | 0 <= i < |tasks| ensures ThreadOk(Start(tasks)[i]) {
      TasksRise(tasks[i]);
    }
  }

  /** What a thread enters ranks above all it holds. */
  lemma WantsHigher(t: Thread)
    requires ThreadOk(t) && Current(t) != []
    ensures forall k :: 0 <= k < |t.held| ==> Rank(t.held[k].lock) < Rank(Current(t)[0].lock)
    ensures !Holds(t, Current(t)[0].lock)
  {
    if t.held != [] {
      var n := |t.held| - 1;
      assert AllRising(t.held[n].rest, Rank(t.held[n].lock) + 1);
      assert Rising(Current(t)[0], Rank(t.held[n].lock) + 1);
    }
  }

  lemma WantsRising(t: Thread)
    requires ThreadOk(t) && Current(t) != []
    ensures Rising(Current(t)[0], 0) && AllRising(Current(t)[0].inner, Rank(Current(t)[0].lock) + 1)
  {
    if t.held != [] {
      var n := |t.held| - 1;
      assert AllRising(t.held[n].rest, Rank(t.held[n].lock) + 1);
      assert Rising(Current(t)[0], Rank(t.held[n].lock) + 1);
    }
  }

  lemma WithCurrentOk(t: Thread)
    requires ThreadOk(t) && Current(t) != []
    ensures var t' := WithCurrent(t, Current(t)[1..]);
            ThreadOk(t') && |t'.held| == |t.held| && forall k :: 0 <= k < |t.held| ==> t'.held[k].lock == t.held[k].lock
  {
    if t.held != [] {
      var n := |t.held| - 1;
      assert AllRising(t.held[n].rest, Rank(t.held[n].lock) + 1);
    }
  }

  lemma EnterOk(t: Thread)
    requires ThreadOk(t) && Current(t) != []
    ensures ThreadOk(Enter(t))
    ensures forall l :: Holds(Enter(t), l) <==> Holds(t, l) || l == Current(t)[0].lock
  {
    WantsHigher(t);
    WantsRising(t);
    WithCurrentOk(t);
    EnterHolds(t);
  }

  lemma EnterHolds(t: Thread)
    requires Current(t) != []
    ensures forall l :: Holds(Enter(t), l) <==> Holds(t, l) || l == Current(t)[0].lock
  {
    var t' := WithCurrent(t, Current(t)[1..]);
    var lock := Current(t)[0].lock;
    assert forall k :: 0 <= k < |t.held| ==> t'.held[k].lock == t.held[k].lock && Enter(t).held[k] == t'.held[k];
    assert Enter(t).held[|t.held|].lock == lock;
    forall l ensures Holds(Enter(t), l) <==> Holds(t, l) || l == lock {
      if Holds(t, l) {
        var k :| 0 <= k < |t.held| && t.held[k].lock == l;
        assert Enter(t).held[k].lock == l;
      }
    }
  }

  lemma LeaveOk(t: Thread)
    requires ThreadOk(t) && t.held != []
    ensures ThreadOk(Leave(t))
    ensures forall l :: Holds(Leave(t), l) ==> Holds(t, l)
  {
    forall l | Holds(Leave(t), l) ensures Holds(t, l) {
      var k :| 0 <= k < |Leave(t).held| && Leave(t).held[k].lock == l;
      assert t.held[k].lock == l;
    }
  }

  lemma StepInv(ts: seq<Thread>, i: nat)
    requires Inv(ts)
    ensures Inv(Step(ts, i))
  {
    if CanStep(ts, i) {
      if Current(ts[i]) != [] {
        EnterOk(ts[i]);
      } else {
        LeaveOk(ts[i]);
      }
    }
  }

  lemma {:induction false} RunInv(ts: seq<Thread>, schedule: seq<nat>)
    requires Inv(ts)
    ensures Inv(Run(ts, schedule))
    decreases |schedule|
  {
    if schedule != [] {
      StepInv(ts, schedule[0]);
      RunInv(Step(ts, schedule[0]), schedule[1..]);
    }
  }

  // ----- no deadlock -------------------------------------------------------------------------------

  /** From an unfinished thread, following who holds what it waits for leads upwards in
      rank and so to a thread that can go on. */
  lemma {:induction false} FindsMover(ts: seq<Thread>, i: nat) returns (j: nat)
    requires Inv(ts) && i < |ts| && !Finished(ts[i])
    ensures CanStep(ts, j)
    decreases if Current(ts[i]) == [] then 0 else RANKS - Rank(Current(ts[i])[0].lock)
  {
    if CanStep(ts, i) {
      return i;
    }
    var l := Current(ts[i])[0].lock;
    WantsHigher(ts[i]);
    var k :| 0 <= k < |ts| && Holds(ts[k], l);
    if CanStep(ts, k) {
      return k;
    }
    WantsHigher(ts[k]);
    j := FindsMover(ts, k);
  }

  /** However many threads go through tasks of the catalogue, and however they have interleaved
      so far: if one is not at its end, some thread can go on. */
  lemma NoDeadlock(tasks: seq<seq<Task>>, schedule: seq<nat>, i: nat)
    requires i < |Run(Start(tasks), schedule)| && !Finished(Run(Start(tasks), schedule)[i])
    ensures exists j :: CanStep(Run(Start(tasks), schedule), j)
  {
    StartInv(tasks);
    RunInv(Start(tasks), schedule);
    var j := FindsMover(Run(Start(tasks), schedule), i);
  }

  /** No lock has two holders, and no thread ever holds two clients' _iolk. */
  lemma OneHolderOneIolk(tasks: seq<seq<Task>>, schedule: seq<nat>)
    ensures var ts := Run(Start(tasks), schedule);
            && (forall i, j, l :: 0 <= i < |ts| && 0 <= j < |ts| && Holds(ts[i], l) && Holds(ts[j], l) ==> i == j)
            && (forall i, c, d :: 0 <= i < |ts| && Holds(ts[i], Iolk(c)) && Holds(ts[i], Iolk(d)) ==> c == d)
  {
    StartInv(tasks);
    RunInv(Start(tasks), schedule);
    var ts := Run(Start(tasks), schedule);
    forall i, c, d | 0 <= i < |ts| && Holds(ts[i], Iolk(c)) && Holds(ts[i], Iolk(d)) ensures c == d {
      assert ThreadOk(ts[i]);
      var j :| 0 <= j < |ts[i].held| && ts[i].held[j].lock == Iolk(c);
      var k :| 0 <= k < |ts[i].held| && ts[i].held[k].lock == Iolk(d);
      assert Rank(ts[i].held[j].lock) == Rank(ts[i].held[k].lock);
    }
  }

  // ----- and everybody gets to the end ----------------------------------------------------------

  /** The entries and exits still ahead. */
  function Size(c: Code): nat
    decreases c
  {
    2 + Sizes(c.inner)
  }

  function Sizes(cs: seq<Code>): nat
    decreases cs
  {
    if cs == [] then 0 else Size(cs[0]) + Sizes(cs[1..])
  }

  function HeldWork(fs: seq<Frame>): nat {
    if fs == [] then 0 else HeldWork(fs[..|fs| - 1]) + 1 + Sizes(fs[|fs| - 1].rest)
  }

  function ThreadWork(t: Thread): nat { HeldWork(t.held) + Sizes(t.todo) }

  function Work(ts: seq<Thread>): nat {
    if ts == [] then 0 else Work(ts[..|ts| - 1]) + ThreadWork(ts[|ts| - 1])
  }

  lemma PushWork(fs: seq<Frame>, f: Frame)
    ensures HeldWork(fs + [f]) == HeldWork(fs) + 1 + Sizes(f.rest)
  {
    assert (fs + [f])[..|fs|] == fs;
  }

  /** Taking the first section off the current code. */
  lemma WithCurrentWork(t: Thread)
    requires Current(t) != []
    ensures ThreadWork(WithCurrent(t, Current(t)[1..])) + Size(Current(t)[0]) == ThreadWork(t)
  {
    var cs, n := Current(t), |t.held|;
    if n > 0 {
      var f := t.held[n - 1];
      assert t.held == t.held[..n - 1] + [f];
      assert WithCurrent(t, cs[1..]).held == t.held[..n - 1] + [f.(rest := cs[1..])];
      PushWork(t.held[..n - 1], f);
      PushWork(t.held[..n - 1], f.(rest := cs[1..]));
    }
  }

  lemma EnterWork(t: Thread)
    requires Current(t) != []
    ensures ThreadWork(Enter(t)) + 1 == ThreadWork(t)
  {
    WithCurrentWork(t);
    PushWork(WithCurrent(t, Current(t)[1..]).held, Frame(Current(t)[0].lock, Current(t)[0].inner));
  }

  lemma {:induction false} UpdateWork(ts: seq<Thread>, i: nat, t: Thread)
    requires i < |ts|
    ensures Work(ts[i := t]) == Work(ts) - ThreadWork(ts[i]) + ThreadWork(t)
  {
    var n := |ts| - 1;
    if i == n {
      assert ts[i := t][..n] == ts[..n];
    } else {
      UpdateWork(ts[..n], i, t);
      assert ts[i := t][..n] == ts[..n][i := t];
    }
  }

  lemma StepWork(ts: seq<Thread>, i: nat)
    requires CanStep(ts, i)
    ensures Work(Step(ts, i)) + 1 == Work(ts)
  {
    if Current(ts[i]) != [] {
      EnterWork(ts[i]);
      UpdateWork(ts, i, Enter(ts[i]));
    } else {
      UpdateWork(ts, i, Leave(ts[i]));
    }
  }

  /** Every step of the schedule was taken by a thread that could go on. */
  predicate Effective(ts: seq<Thread>, schedule: seq<nat>)
    decreases |schedule|
  {
    schedule == [] || (CanStep(ts, schedule[0]) && Effective(Step(ts, schedule[0]), schedule[1..]))
  }

  lemma {:induction false} EffectiveWork(ts: seq<Thread>, schedule: seq<nat>)
    requires Effective(ts, schedule)
    ensures Work(Run(ts, schedule)) + |schedule| == Work(ts)
    decreases |schedule|
  {
    if schedule != [] {
      StepWork(ts, schedule[0]);
      EffectiveWork(Step(ts, schedule[0]), schedule[1..]);
    }
  }

  /** A scheduler that keeps picking threads that can go on gets all of them to the end
      after exactly the work there was to do, and never before. */
  lemma AllFinishIff(tasks: seq<seq<Task>>, schedule: seq<nat>)
    requires Effective(Start(tasks), schedule)
    ensures |schedule| <= Work(Start(tasks))
    ensures |schedule| == Work(Start(tasks)) <==>
              forall i :: 0 <= i < |Run(Start(tasks), schedule)| ==> Finished(Run(Start(tasks), schedule)[i])
  {
    var ts := Run(Start(tasks), schedule);
    EffectiveWork(Start(tasks), schedule);
    if Work(ts) == 0 {
      forall i | 0 <= i < |ts| ensures Finished(ts[i]) {
        if !Finished(ts[i]) {
          NoDeadlock(tasks, schedule, i);
          var j :| CanStep(ts, j);
          StepWork(ts, j);
        }
      }
    } else if forall i :: 0 <= i < |ts| ==> Finished(ts[i]) {
      FinishedWork(ts);
    }
  }

  lemma {:induction false} FinishedWork(ts: seq<Thread>)
    requires forall i :: 0 <= i < |ts| ==> Finished(ts[i])
    ensures Work(ts) == 0
  {
    if ts != [] {
      FinishedWork(ts[..|ts| - 1]);
    }
  }

  // ----- and does what its code says ----------------------------------------------------------------

  datatype Move = In(lock: Lock) | Out(lock: Lock)

  /** The locking and unlocking that code stands for. */
  function Trace(cs: seq<Code>): seq<Move>
    decreases cs
  {
    if cs == [] then [] else [In(cs[0].lock)] + Trace(cs[0].inner) + [Out(cs[0].lock)] + Trace(cs[1..])
  }

  function HeldTrace(fs: seq<Frame>): seq<Move> {
    if fs == [] then []
    else Trace(fs[|fs| - 1].rest) + [Out(fs[|fs| - 1].lock)] + HeldTrace(fs[..|fs| - 1])
  }

  /** What a thread has still to lock and unlock. */
  function Ahead(t: Thread): seq<Move> { HeldTrace(t.held) + Trace(t.todo) }

  function MoveOf(ts: seq<Thread>, i: nat): seq<Move> {
    if !CanStep(ts, i) then []
    else if Current(ts[i]) != [] then [In(Current(ts[i])[0].lock)]
    else if ts[i].held != [] then [Out(ts[i].held[|ts[i].held| - 1].lock)] else []
  }

  /** What thread i locked and unlocked in the course of a run. */
  function Moves(ts: seq<Thread>, schedule: seq<nat>, i: nat): seq<Move>
    decreases |schedule|
  {
    if schedule == [] then []
    else (if schedule[0] == i then MoveOf(ts, i) else []) + Moves(Step(ts, schedule[0]), schedule[1..], i)
  }

  lemma PushTrace(fs: seq<Frame>, f: Frame)
    ensures HeldTrace(fs + [f]) == Trace(f.rest) + [Out(f.lock)] + HeldTrace(fs)
  {
    assert (fs + [f])[..|fs|] == fs;
  }

  /** What is ahead after the code under way. */
  function After(t: Thread): seq<Move> {
    if t.held == [] then []
    else [Out(t.held[|t.held| - 1].lock)] + HeldTrace(t.held[..|t.held| - 1]) + Trace(t.todo)
  }

  lemma AheadIs(t: Thread, cs: seq<Code>)
    ensures Ahead(WithCurrent(t, cs)) == Trace(cs) + After(t)
  {
    var n := |t.held| - 1;
    if n >= 0 {
      var f := t.held[n].(rest := cs);
      assert WithCurrent(t, cs).held == t.held[..n] + [f];
      PushTrace(t.held[..n], f);
      AheadRegroup(Trace(cs), [Out(f.lock)], HeldTrace(t.held[..n]), Trace(t.todo));
    } else {
      assert [] + Trace(cs) == Trace(cs) + [];
    }
  }

  lemma AheadRegroup(a: seq<Move>, b: seq<Move>, c: seq<Move>, d: seq<Move>)
    ensures (a + b + c) + d == a + (b + c + d)
  {
  }

  lemma AheadNow(t: Thread)
    ensures Ahead(t) == Trace(Current(t)) + After(t)
  {
    AheadIs(t, Current(t));
    if t.held != [] {
      var n := |t.held| - 1;
      assert t.held[n := t.held[n].(rest := t.held[n].rest)] == t.held;
    }
  }

  lemma EnterTrace(t: Thread)
    requires Current(t) != []
    ensures Ahead(t) == [In(Current(t)[0].lock)] + Ahead(Enter(t))
  {
    var c, rest := Current(t)[0], Current(t)[1..];
    var u := WithCurrent(t, rest);
    AheadIs(t, rest);
    AheadNow(t);
    PushTrace(u.held, Frame(c.lock, c.inner));
    assert Trace(Current(t)) == [In(c.lock)] + Trace(c.inner) + [Out(c.lock)] + Trace(rest);
    MovesRegroup([In(c.lock)], Trace(c.inner), [Out(c.lock)], Trace(rest), After(t), HeldTrace(u.held), Trace(u.todo));
  }

  lemma MovesRegroup(a: seq<Move>, b: seq<Move>, c: seq<Move>, d: seq<Move>, e: seq<Move>, h: seq<Move>, z: seq<Move>)
    requires h + z == d + e
    ensures (a + b + c + d) + e == a + ((b + c + h) + z)
  {
    assert (b + c + h) + z == b + c + (h + z);
  }

  lemma LeaveTrace(t: Thread)
    requires Current(t) == [] && t.held != []
    ensures Ahead(t) == [Out(t.held[|t.held| - 1].lock)] + Ahead(Leave(t))
  {
    AheadNow(t);
  }

  lemma StepTrace(ts: seq<Thread>, j: nat, i: nat)
    requires i < |ts|
    ensures |Step(ts, j)| == |ts| && Ahead(ts[i]) == (if j == i then MoveOf(ts, i) else []) + Ahead(Step(ts, j)[i])
  {
    if CanStep(ts, j) && j == i {
      if Current(ts[i]) != [] {
        EnterTrace(ts[i]);
      } else {
        LeaveTrace(ts[i]);
      }
    } else {
      assert [] + Ahead(ts[i]) == Ahead(ts[i]);
    }
  }

  lemma {:induction false} RunTrace(ts: seq<Thread>, schedule: seq<nat>, i: nat)
    requires i < |ts|
    ensures |Run(ts, schedule)| == |ts| && Moves(ts, schedule, i) + Ahead(Run(ts, schedule)[i]) == Ahead(ts[i])
    decreases |schedule|
  {
    if schedule == [] {
      assert [] + Ahead(ts[i]) == Ahead(ts[i]);
    } else {
      var first := if schedule[0] == i then MoveOf(ts, i) else [];
      var us := Step(ts, schedule[0]);
      StepTrace(ts, schedule[0], i);
      RunTrace(us, schedule[1..], i);
      FirstThen(first, Moves(us, schedule[1..], i), Ahead(Run(us, schedule[1..])[i]), Ahead(us[i]), Ahead(ts[i]));
    }
  }

  lemma FirstThen(first: seq<Move>, more: seq<Move>, left: seq<Move>, mid: seq<Move>, whole: seq<Move>)
    requires whole == first + mid && more + left == mid
    ensures (first + more) + left == whole
  {
  }

  /** However the threads interleave, each locks and unlocks what its tasks say, in their
      order: the beginning of it, and all of it exactly when it is at its end. */
  lemma DoesItsTasks(tasks: seq<seq<Task>>, schedule: seq<nat>, i: nat)
    requires i < |tasks|
    ensures var t, done := Run(Start(tasks), schedule), Moves(Start(tasks), schedule, i);
            && i < |t| && done <= Trace(TasksCode(tasks[i]))
            && (Finished(t[i]) <==> done == Trace(TasksCode(tasks[i])))
  {
    var start := Start(tasks);
    RunTrace(start, schedule, i);
    AheadAtStart(tasks, i);
    NothingAhead(Run(start, schedule)[i]);
    PartOf(Moves(start, schedule, i), Ahead(Run(start, schedule)[i]), Trace(TasksCode(tasks[i])));
  }

  lemma AheadAtStart(tasks: seq<seq<Task>>, i: nat)
    requires i < |tasks|
    ensures Ahead(Start(tasks)[i]) == Trace(TasksCode(tasks[i]))
  {
    assert [] + Trace(TasksCode(tasks[i])) == Trace(TasksCode(tasks[i]));
  }

  lemma PartOf(a: seq<Move>, b: seq<Move>, whole: seq<Move>)
    requires a + b == whole
    ensures a <= whole && (b == [] <==> a == whole)
  {
    assert |a| + |b| == |whole|;
  }

  lemma NothingAhead(t: Thread)
    ensures Finished(t) <==> Ahead(t) == []
  {
  }

  // ----- the paths of the catalogue, written out ---------------------------------------------------------

  lemma {:induction false} TraceConcat(a: seq<Code>, b: seq<Code>)
    ensures Trace(a + b) == Trace(a) + Trace(b)
    decreases |a|
  {
    if a == [] {
      assert a + b == b;
    } else {
      assert (a + b)[1..] == a[1..] + b;
      TraceConcat(a[1..], b);
    }
  }

  lemma TraceOne(l: Lock)
    ensures Trace([Only(l)]) == [In(l), Out(l)]
  {
    assert [Only(l)][1..] == [];
  }

  lemma TraceNested(l: Lock, m: Lock)
    ensures Trace([Section(l, [Only(m)])]) == [In(l), In(m), Out(m), Out(l)]
  {
    TraceOne(m);
    assert [Section(l, [Only(m)])][1..] == [];
  }

  /** A session's lock is taken under its room's, and let go first; creating a session looks
      at the users, inserts, and only then reads the session. */
  lemma HandlerTrace(r: nat, s: nat)
    ensures Trace(HandlerCode(EnterRoom(r))) == Trace(HandlerCode(LeaveRoom(r))) == [In(UsersLk(r)), Out(UsersLk(r))]
    ensures Trace(HandlerCode(UseSession(r, s))) == Trace(HandlerCode(MakeReady(r, s, false)))
         == [In(Slk(r)), In(SessionLk(r, s)), Out(SessionLk(r, s)), Out(Slk(r))]
    ensures Trace(HandlerCode(MakeReady(r, s, true)))
         == [In(Slk(r)), In(SessionLk(r, s)), Out(SessionLk(r, s)), Out(Slk(r)), In(QueueLk), Out(QueueLk)]
    ensures Trace(HandlerCode(MakeSession(r, s)))
         == [In(UsersLk(r)), Out(UsersLk(r)), In(Slk(r)), Out(Slk(r)), In(SessionLk(r, s)), Out(SessionLk(r, s))]
  {
    TraceOne(UsersLk(r));
    TraceOne(Slk(r));
    TraceOne(SessionLk(r, s));
    TraceOne(QueueLk);
    TraceNested(Slk(r), SessionLk(r, s));
    TraceConcat([Section(Slk(r), [Only(SessionLk(r, s))])], [Only(QueueLk)]);
    TraceConcat([Only(UsersLk(r))], [Only(Slk(r))]);
    TraceConcat([Only(UsersLk(r)), Only(Slk(r))], [Only(SessionLk(r, s))]);
    assert HandlerCode(MakeSession(r, s)) == [Only(UsersLk(r)), Only(Slk(r))] + [Only(SessionLk(r, s))];
    assert [Section(Slk(r), [Only(SessionLk(r, s))])] + [] == [Section(Slk(r), [Only(SessionLk(r, s))])];
  }

  /** All a doWork does is done under the client's _iolk: every request's own locks, then twice
      the pool's queue, and at the end the listener's or, on the way out, twice the client list. */
  lemma DoWorkTrace(c: nat, a: Act)
    ensures Trace(TaskCode(Serve(c, [a]))) ==
            [In(Iolk(c))] + (Trace(HandlerCode(a)) + [In(QueueLk), Out(QueueLk), In(QueueLk), Out(QueueLk)]
                             + [In(ListenerLk), Out(ListenerLk)]) + [Out(Iolk(c))]
    ensures Trace(TaskCode(Close(c, [a]))) ==
            [In(Iolk(c))] + (Trace(HandlerCode(a)) + [In(QueueLk), Out(QueueLk), In(QueueLk), Out(QueueLk)]
                             + [In(ListLk), Out(ListLk), In(ListLk), Out(ListLk)]) + [Out(Iolk(c))]
  {
    RequestTrace(a);
    TraceOne(ListenerLk);
    TraceConcat(RequestsCode([a]), [Only(ListenerLk)]);
    TraceTwo(ListLk);
    TraceConcat(RequestsCode([a]), [Only(ListLk), Only(ListLk)]);
  }

  lemma RequestTrace(a: Act)
    ensures Trace(RequestsCode([a])) == Trace(HandlerCode(a)) + [In(QueueLk), Out(QueueLk), In(QueueLk), Out(QueueLk)]
  {
    assert [a][..0] == [];
    assert RequestsCode([a]) == HandlerCode(a) + [Only(QueueLk), Only(QueueLk)];
    TraceTwo(QueueLk);
    TraceConcat(HandlerCode(a), [Only(QueueLk), Only(QueueLk)]);
  }

  lemma TraceTwo(l: Lock)
    ensures Trace([Only(l), Only(l)]) == [In(l), Out(l), In(l), Out(l)]
  {
    TraceOne(l);
    TraceConcat([Only(l)], [Only(l)]);
  }
}
