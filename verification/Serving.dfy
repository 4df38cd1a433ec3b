/**
 What a client's requests do, on values: each handler from its ASSERTs to the messages it
 leaves for the pool, a whole list of requests as procMsgs serves it, and the way out of a
 client that is disconnected. The handlers' objects are proved to do just this.
 */
module Serving {
  import opened Prelude
  import opened Session
  import opened Room
  import opened Batches
  import L = Lobby

  /** The rooms, what every client is doing, and genid's seed. */
  datatype Hall<C(==)> = Hall(rooms: map<int, Room<C>>, states: map<C, PlayState>, seed: nat)

  /** The fields only the client itself writes. */
  datatype Local = Local(roomid: int, sessionid: int)

  /** A job for the pool: a broadcast or a notification, to whom and what it says. */
  datatype Post<C(==)> = ToUsers(to: multiset<C>, says: seq<Message>) | ToMembers(to: multiset<C>, says: seq<Message>)

  /** A failed ASSERT, or the return value, what was written and the jobs, in order. */
  datatype Effect<C(==)> = Crash | Served(ret: int, hall: Hall<C>, local: Local, posts: seq<Post<C>>)

  /** A batch without an audience is no job. */
  function Broadcast<C(==)>(to: multiset<C>, says: seq<Message>): seq<Post<C>> {
    if to == multiset{} then [] else [ToUsers(to, says)]
  }

  function Notify<C(==)>(to: multiset<C>, says: seq<Message>): seq<Post<C>> {
    if to == multiset{} then [] else [ToMembers(to, says)]
  }

  /** A handler that returns an error has done nothing. */
  function Refused<C(==)>(h: Hall<C>, f: Local, ret: int): Effect<C> { Served(ret, h, f, []) }

  function WithRoom<C(==)>(h: Hall<C>, rid: int, r: Room<C>): Hall<C> { h.(rooms := h.rooms[rid := r]) }

  function WithState<C(==)>(h: Hall<C>, c: C, st: PlayState): Hall<C> { h.(states := h.states[c := st]) }

  lemma NothingWritten<C>(h: Hall<C>, rid: int, c: C)
    requires rid in h.rooms && c in h.states
    ensures WithState(WithRoom(h, rid, h.rooms[rid]), c, h.states[c]).(seed := h.seed) == h
  {
    assert h.rooms[rid := h.rooms[rid]] == h.rooms;
    assert h.states[c := h.states[c]] == h.states;
  }

  // ----- the handlers --------------------------------------------------------------------------

  function ServeEnterRoom<C(==)>(h: Hall<C>, f: Local, c: C, name: string, rid: int): Effect<C>
    requires c in h.states
  {
    if h.states[c] != Online then Refused(h, f, -1)
    else if rid !in h.rooms then Refused(h, f, -2)
    else
      var (ok, r) := Admit(h.rooms[rid], c);
      if !ok then Refused(h, f, -3)
      else Served(0, WithState(WithRoom(h, rid, r), c, Idle), f.(roomid := rid),
                  Broadcast(multiset(h.rooms[rid].users), [EnteredRoom(name)]))
  }

  function ServeLeaveRoom<C(==)>(h: Hall<C>, f: Local, c: C, name: string): Effect<C> {
    if !(f.roomid > 0 && f.roomid in h.rooms) then Crash
    else
      var (ok, r) := Dismiss(h.rooms[f.roomid], c);
      if !ok then Crash
      else Served(0, WithState(WithRoom(h, f.roomid, r), c, Online), f.(roomid := -1),
                  Broadcast(multiset(r.users), [LeftRoom(name)]))
  }

  /** n is the number genid reads: the next one when nobody else is drawing. */
  function ServeMakeSession<C(==)>(h: Hall<C>, f: Local, c: C, n: nat): Effect<C>
    requires c in h.states
  {
    if !(h.states[c] == Idle && f.roomid > 0 && f.roomid in h.rooms && c in h.rooms[f.roomid].users) then Crash
    else
      var r := h.rooms[f.roomid];
      Served(0, WithState(WithRoom(h, f.roomid, WithSession(r, IdOf(n), NewSession(c, n))), c, Sessional).(seed := n),
             f.(sessionid := IdOf(n)), Broadcast(multiset(r.users - {c}), [NewSessionIn(IdOf(n))]))
  }

  /** Those the newcomer finds hear of it. */
  function JoinPosts<C(==)>(was: Room<C>, sid: int, m: Message): seq<Post<C>>
    requires sid in was.sessions
  {
    Notify(Everyone(was.sessions[sid]), [m])
  }

  function ServeEnterSession<C(==)>(h: Hall<C>, f: Local, c: C, name: string, sid: int): Effect<C> {
    if !(f.roomid > 0 && f.sessionid < 0 && f.roomid in h.rooms) then Crash
    else
      var (ret, r) := EnterIn(h.rooms[f.roomid], sid, c);
      if ret < 0 then Refused(h, f, ret)
      else Served(0, WithState(WithRoom(h, f.roomid, r), c, Sessional), f.(sessionid := sid),
                  JoinPosts(h.rooms[f.roomid], sid, EnteredSession(name)))
  }

  function ServeWatchSession<C(==)>(h: Hall<C>, f: Local, c: C, name: string, sid: int): Effect<C> {
    if !(f.roomid > 0 && f.sessionid < 0 && f.roomid in h.rooms) then Crash
    else
      var (ret, r) := WatchIn(h.rooms[f.roomid], sid, c);
      if ret < 0 then Refused(h, f, ret)
      else Served(0, WithState(WithRoom(h, f.roomid, r), c, Watching), f.(sessionid := sid),
                  JoinPosts(h.rooms[f.roomid], sid, WatchedSession(name)))
  }

  /** The room hears of a session that ends, those who stay hear of the leave. */
  function LeftPosts<C(==)>(was: Room<C>, sid: int, c: C, name: string): seq<Post<C>>
    requires LeaveIn(was, sid, c).Returns?
  {
    (if LeaveIn(was, sid, c).ret == 0 then Broadcast(multiset(was.users), [SessionGone(sid)]) else [])
    + Notify(Everyone(Leave(was.sessions[sid], c).1), [LeftSession(name)])
  }

  function ServeLeaveSession<C(==)>(h: Hall<C>, f: Local, c: C, name: string): Effect<C> {
    if !(f.roomid > 0 && f.sessionid > 0 && f.roomid in h.rooms) then Crash
    else
      match LeaveIn(h.rooms[f.roomid], f.sessionid, c)
      case Fails => Crash
      case Returns(_, r) =>
        Served(0, WithState(WithRoom(h, f.roomid, r), c, Idle), f.(sessionid := -1),
               LeftPosts(h.rooms[f.roomid], f.sessionid, c, name))
  }

  /** A player's getting ready starts the game when the other seat's player is ready. */
  predicate Starts<C(==)>(s: Session<C>, c: C, states: map<C, PlayState>) {
    var o := Rival(s, c);
    o.Some? && (o.value == c || (o.value in states && states[o.value] == Ready))
  }

  /** CSession::ready's writes; updatePlayersState writes the owner first. */
  function AfterReady<C(==)>(s: Session<C>, c: C, states: map<C, PlayState>): map<C, PlayState> {
    var m := states[c := Ready];
    if Starts(s, c, states) && s.owner.Some? && s.opponent.Some? then
      m[s.owner.value := if s.red == 0 then Moving else Pondering]
       [s.opponent.value := if s.red == 0 then Pondering else Moving]
    else m
  }

  /** The player with the first move and the other, by name. */
  function GameStart<C(==)>(s: Session<C>, who: C -> string): Message {
    GameStarts(if Mover(s).Some? then who(Mover(s).value) else "", if Waiter(s).Some? then who(Waiter(s).value) else "")
  }

  /** A start names the client that is Moving from then on as red and the Pondering one as
      black, and nobody else's state changes but for the seats. */
  lemma StartNames<C>(s: Session<C>, c: C, states: map<C, PlayState>, who: C -> string)
    requires WellFormed(s) && c in Players(s) && Starts(s, c, states)
    ensures Mover(s).Some? && Waiter(s).Some? && Players(s) == {Mover(s).value, Waiter(s).value}
    ensures GameStart(s, who) == GameStarts(who(Mover(s).value), who(Waiter(s).value))
    ensures var m := AfterReady(s, c, states);
            && m[Mover(s).value] == Moving && m[Waiter(s).value] == Pondering
            && forall x :: x in states && x !in Players(s) ==> m[x] == states[x]
  {
    assert s.owner.Some? && s.opponent.Some? && s.owner.value != s.opponent.value;
  }

  /** What the others hear: that the client is ready and, if so, that the game starts. */
  function ReadyWords<C(==)>(s: Session<C>, c: C, starts: bool, who: C -> string): seq<Message> {
    [BecameReady(who(c))] + (if starts then [GameStart(s, who)] else [])
  }

  /** The client hears of the start by a job of its own, handed over first. */
  function ReadyPosts<C(==)>(s: Session<C>, c: C, starts: bool, who: C -> string): seq<Post<C>> {
    (if starts then [ToMembers(multiset{c}, [GameStart(s, who)])] else [])
    + Notify(Once(Rival(s, c)) + multiset(s.watchers), ReadyWords(s, c, starts, who))
  }

  /** The session the fields name. */
  function Joined<C(==)>(h: Hall<C>, f: Local): Option<Session<C>> {
    if f.roomid > 0 && f.sessionid > 0 && f.roomid in h.rooms && f.sessionid in h.rooms[f.roomid].sessions
    then Some(h.rooms[f.roomid].sessions[f.sessionid]) else None
  }

  function ServeReady<C(==)>(h: Hall<C>, f: Local, c: C, who: C -> string): Effect<C> {
    var o := Joined(h, f);
    if o.None? || c !in Players(o.value) then Crash
    else Served(0, h.(states := AfterReady(o.value, c, h.states)), f,
                ReadyPosts(o.value, c, Starts(o.value, c, h.states), who))
  }

  /** The handlers that change nothing and tell nobody. */
  function ServePlain<C(==)>(h: Hall<C>, f: Local, what: L.Plain): Effect<C> {
    if what == L.ListSessions && !(f.roomid > 0 && f.roomid in h.rooms) then Crash else Served(0, h, f, [])
  }

  function Serve<C(==)>(h: Hall<C>, f: Local, c: C, req: L.Request, who: C -> string): Effect<C>
    requires c in h.states
  {
    match req
    case EnterRoom(rid) => ServeEnterRoom(h, f, c, who(c), rid)
    case LeaveRoom => ServeLeaveRoom(h, f, c, who(c))
    case MakeSession => ServeMakeSession(h, f, c, h.seed + 1)
    case EnterSession(sid) => ServeEnterSession(h, f, c, who(c), sid)
    case LeaveSession => ServeLeaveSession(h, f, c, who(c))
    case WatchSession(sid) => ServeWatchSession(h, f, c, who(c), sid)
    case MakeReady => ServeReady(h, f, c, who)
    case Other(what) => ServePlain(h, f, what)
  }

  // ----- when an ASSERT fails, and who is told -------------------------------------------------------

  /** What the ASSERTs of a request's handler demand. */
  predicate Granted<C(==)>(h: Hall<C>, f: Local, c: C, req: L.Request)
    requires c in h.states
  {
    match req
    case EnterRoom(_) => true
    case LeaveRoom => f.roomid > 0 && f.roomid in h.rooms && c in h.rooms[f.roomid].users
    case MakeSession => h.states[c] == Idle && f.roomid > 0 && f.roomid in h.rooms && c in h.rooms[f.roomid].users
    case EnterSession(_) => f.roomid > 0 && f.sessionid < 0 && f.roomid in h.rooms
    case WatchSession(_) => f.roomid > 0 && f.sessionid < 0 && f.roomid in h.rooms
    case LeaveSession => Joined(h, f).Some? && c in Members(Joined(h, f).value)
    case MakeReady => Joined(h, f).Some? && c in Players(Joined(h, f).value)
    case Other(what) => what == L.ListSessions ==> f.roomid > 0 && f.roomid in h.rooms
  }

  /** The process ends exactly when the client is not where its fields say. */
  lemma CrashIff<C>(h: Hall<C>, f: Local, c: C, req: L.Request, who: C -> string)
    requires c in h.states
    ensures Serve(h, f, c, req, who).Crash? <==> !Granted(h, f, c, req)
  {
    if req.LeaveSession? && Joined(h, f).Some? {
      LeaveCounts(Joined(h, f).value, c);
    }
  }

  /** A job addresses nobody twice, and a notification about the client not the client,
      but for the one that tells it of its game's start. */
  ghost predicate NamesOnce<C(!new)>(posts: seq<Post<C>>, c: C) {
    forall p :: p in posts ==>
      && (forall x :: p.to[x] <= 1)
      && (p.ToMembers? && p.to != multiset{c} ==> c !in p.to)
  }

  lemma NotifyOnce<C(!new)>(xs: set<C>, to: multiset<C>, says: seq<Message>, c: C)
    requires to == multiset(xs) && c !in xs
    ensures NamesOnce(Notify(to, says), c)
  {
  }

  lemma BroadcastOnce<C(!new)>(xs: set<C>, to: multiset<C>, says: seq<Message>, c: C)
    requires to == multiset(xs)
    ensures NamesOnce(Broadcast(to, says), c)
  {
  }

  lemma BothOnce<C(!new)>(p: seq<Post<C>>, q: seq<Post<C>>, c: C)
    requires NamesOnce(p, c) && NamesOnce(q, c)
    ensures NamesOnce(p + q, c)
  {
  }

  lemma LeaveNamesOnce<C(!new)>(r: Room<C>, sid: int, c: C, name: string)
    requires LeaveIn(r, sid, c).Returns? && WellFormed(r.sessions[sid])
    ensures NamesOnce(LeftPosts(r, sid, c, name), c)
  {
    var s := r.sessions[sid];
    LeaveRemoves(s, c);
    NotifyOnce(Members(s) - {c}, Everyone(Leave(s, c).1), [LeftSession(name)], c);
    BroadcastOnce(r.users, multiset(r.users), [SessionGone(sid)], c);
    var first := if LeaveIn(r, sid, c).ret == 0 then Broadcast(multiset(r.users), [SessionGone(sid)]) else [];
    BothOnce(first, Notify(Everyone(Leave(s, c).1), [LeftSession(name)]), c);
  }

  lemma JoinNamesOnce<C(!new)>(r: Room<C>, sid: int, c: C, m: Message)
    requires sid in r.sessions && WellFormed(r.sessions[sid]) && c !in Members(r.sessions[sid])
    ensures NamesOnce(JoinPosts(r, sid, m), c)
  {
    HeadcountIsSize(r.sessions[sid]);
    NotifyOnce(Members(r.sessions[sid]), Everyone(r.sessions[sid]), [m], c);
  }

  lemma ReadyNamesOnce<C(!new)>(s: Session<C>, c: C, starts: bool, who: C -> string)
    requires WellFormed(s) && c in Players(s)
    ensures NamesOnce(ReadyPosts(s, c, starts, who), c)
  {
    ReadyTells(s, c);
    var others := Once(Rival(s, c)) + multiset(s.watchers);
    NotifyOnce(Members(s) - {c}, others, ReadyWords(s, c, starts, who), c);
    var own := if starts then [ToMembers(multiset{c}, [GameStart(s, who)])] else [];
    BothOnce(own, Notify(others, ReadyWords(s, c, starts, who)), c);
  }

  /** The session a request is about, and whether the client comes to it from outside. */
  ghost predicate Sound<C>(h: Hall<C>, f: Local, c: C, req: L.Request) {
    && (Joined(h, f).Some? ==> WellFormed(Joined(h, f).value))
    && (req.EnterSession? || req.WatchSession? ==>
          f.roomid in h.rooms && req.sid in h.rooms[f.roomid].sessions ==>
            WellFormed(h.rooms[f.roomid].sessions[req.sid]) && c !in Members(h.rooms[f.roomid].sessions[req.sid]))
  }

  /** Whatever is served: nobody is told anything twice, and nobody of its own doing but of
      a start. */
  lemma ServedNamesOnce<C(!new)>(h: Hall<C>, f: Local, c: C, req: L.Request, who: C -> string)
    requires c in h.states && Sound(h, f, c, req)
    ensures var e := Serve(h, f, c, req, who); e.Served? ==> NamesOnce(e.posts, c)
  {
    var e := Serve(h, f, c, req, who);
    if e.Served? && e.ret >= 0 {
      match req {
        case EnterRoom(rid) => BroadcastOnce(h.rooms[rid].users, multiset(h.rooms[rid].users), [EnteredRoom(who(c))], c);
        case LeaveRoom =>
          var us := h.rooms[f.roomid].users - {c};
          BroadcastOnce(us, multiset(us), [LeftRoom(who(c))], c);
        case MakeSession =>
          var us := h.rooms[f.roomid].users - {c};
          BroadcastOnce(us, multiset(us), [NewSessionIn(IdOf(h.seed + 1))], c);
        case EnterSession(sid) => JoinNamesOnce(h.rooms[f.roomid], sid, c, EnteredSession(who(c)));
        case WatchSession(sid) => JoinNamesOnce(h.rooms[f.roomid], sid, c, WatchedSession(who(c)));
        case LeaveSession => LeaveNamesOnce(h.rooms[f.roomid], f.sessionid, c, who(c));
        case MakeReady =>
          var s := Joined(h, f).value;
          ReadyNamesOnce(s, c, Starts(s, c, h.states), who);
        case Other(_) =>
      }
    }
  }

  // ----- what every request keeps ----------------------------------------------------------------

  /** Players and users are clients. */
  ghost predicate Known<C>(h: Hall<C>) {
    forall rid :: rid in h.rooms ==> KnownRoom(h.rooms[rid], h.states.Keys)
  }

  ghost predicate KnownRoom<C>(r: Room<C>, cs: set<C>) {
    forall sid :: sid in r.sessions ==> Players(r.sessions[sid]) <= cs
  }

  lemma KnownAt<C>(h: Hall<C>, rid: int, sid: int)
    requires Known(h) && rid in h.rooms && sid in h.rooms[rid].sessions
    ensures Players(h.rooms[rid].sessions[sid]) <= h.states.Keys
  {
    assert KnownRoom(h.rooms[rid], h.states.Keys);
  }

  lemma EnterKnown<C>(s: Session<C>, c: C, cs: set<C>)
    requires Players(s) <= cs && c in cs
    ensures Players(Enter(s, c).1) <= cs
  {
    assert Players(Enter(s, c).1) <= Players(s) + {c};
  }

  lemma LeaveKnown<C>(s: Session<C>, c: C, cs: set<C>)
    requires Players(s) <= cs
    ensures Players(Leave(s, c).1) <= cs
  {
    var t := Leave(s, c).1;
    assert Seat(t.owner) <= Seat(s.owner) && Seat(t.opponent) <= Seat(s.opponent);
  }

  lemma WatchKnown<C>(s: Session<C>, c: C, cs: set<C>)
    requires Players(s) <= cs
    ensures Players(Watch(s, c).1) <= cs
  {
    assert Players(Watch(s, c).1) == Players(s);
  }

  lemma SessionPutKnown<C>(r: Room<C>, sid: int, t: Session<C>, cs: set<C>)
    requires KnownRoom(r, cs) && Players(t) <= cs
    ensures KnownRoom(WithSession(r, sid, t), cs) && KnownRoom(WithoutSession(r, sid), cs)
  {
  }

  lemma RoomKnown<C>(r: Room<C>, sid: int, c: C, cs: set<C>)
    requires KnownRoom(r, cs) && c in cs
    ensures KnownRoom(EnterIn(r, sid, c).1, cs) && KnownRoom(WatchIn(r, sid, c).1, cs)
    ensures LeaveIn(r, sid, c).Returns? ==> KnownRoom(LeaveIn(r, sid, c).room, cs)
  {
    if sid in r.sessions {
      var s := r.sessions[sid];
      EnterKnown(s, c, cs);
      WatchKnown(s, c, cs);
      LeaveKnown(s, c, cs);
      SessionPutKnown(r, sid, Enter(s, c).1, cs);
      SessionPutKnown(r, sid, Watch(s, c).1, cs);
      SessionPutKnown(r, sid, Leave(s, c).1, cs);
    }
  }

  lemma RoomPutKnown<C>(h: Hall<C>, rid: int, r: Room<C>, c: C, st: PlayState)
    requires Known(h) && KnownRoom(r, h.states.Keys) && c in h.states
    ensures var h' := WithState(WithRoom(h, rid, r), c, st); Known(h') && h'.states.Keys == h.states.Keys
  {
    var h' := WithState(WithRoom(h, rid, r), c, st);
    assert h'.states.Keys == h.states.Keys;
  }

  lemma ReadyKnown<C>(h: Hall<C>, s: Session<C>, c: C)
    requires Players(s) <= h.states.Keys && c in h.states
    ensures AfterReady(s, c, h.states).Keys == h.states.Keys
  {
  }

  /** No request forgets a client or seats a stranger. */
  lemma ServeKnown<C>(h: Hall<C>, f: Local, c: C, req: L.Request, who: C -> string)
    requires Known(h) && c in h.states
    ensures var e := Serve(h, f, c, req, who);
            e.Served? ==> Known(e.hall) && e.hall.states.Keys == h.states.Keys
  {
    var e := Serve(h, f, c, req, who);
    var cs := h.states.Keys;
    if e.Served? && e.ret >= 0 {
      match req {
        case EnterRoom(rid) => RoomPutKnown(h, rid, Admit(h.rooms[rid], c).1, c, Idle);
        case LeaveRoom => RoomPutKnown(h, f.roomid, Dismiss(h.rooms[f.roomid], c).1, c, Online);
        case MakeSession =>
          var s := NewSession(c, h.seed + 1);
          assert Players(s) == {c};
          SessionPutKnown(h.rooms[f.roomid], IdOf(h.seed + 1), s, cs);
          RoomPutKnown(h, f.roomid, WithSession(h.rooms[f.roomid], IdOf(h.seed + 1), s), c, Sessional);
        case EnterSession(sid) =>
          RoomKnown(h.rooms[f.roomid], sid, c, cs);
          RoomPutKnown(h, f.roomid, EnterIn(h.rooms[f.roomid], sid, c).1, c, Sessional);
        case WatchSession(sid) =>
          RoomKnown(h.rooms[f.roomid], sid, c, cs);
          RoomPutKnown(h, f.roomid, WatchIn(h.rooms[f.roomid], sid, c).1, c, Watching);
        case LeaveSession =>
          RoomKnown(h.rooms[f.roomid], f.sessionid, c, cs);
          RoomPutKnown(h, f.roomid, LeaveIn(h.rooms[f.roomid], f.sessionid, c).room, c, Idle);
        case MakeReady => ReadyKnown(h, h.rooms[f.roomid].sessions[f.sessionid], c);
        case Other(_) =>
      }
    }
  }

  // ----- a list of requests ---------------------------------------------------------------------------

  /** An ASSERT failed, or how many requests were served, what was written and the jobs. */
  datatype Ending<C(==)> = Halted | Finished(count: nat, hall: Hall<C>, local: Local, posts: seq<Post<C>>)

  /** What one more request before makes of an outcome. */
  function OneBefore<C(==)>(posts: seq<Post<C>>, o: Ending<C>): Ending<C> {
    match o
    case Halted => Halted
    case Finished(n, h, f, more) => Finished(n + 1, h, f, posts + more)
  }

  /** procMsgs: up to the first request that the state does not allow or that fails. */
  ghost function ServeAll<C>(h: Hall<C>, f: Local, c: C, reqs: seq<L.Request>, who: C -> string): Ending<C>
    requires Known(h) && c in h.states
    decreases |reqs|
  {
    if reqs == [] || !L.Allowed(reqs[0], h.states[c]) then Finished(0, h, f, [])
    else
      ServeKnown(h, f, c, reqs[0], who);
      match Serve(h, f, c, reqs[0], who)
      case Crash => Halted
      case Served(ret, h1, f1, posts) =>
        if ret < 0 then Finished(0, h1, f1, posts) else OneBefore(posts, ServeAll(h1, f1, c, reqs[1..], who))
  }

  /** `rest` is what is left of `whole` when n requests were served and `done` handed over. */
  ghost predicate Remains<C>(whole: Ending<C>, n: nat, done: seq<Post<C>>, rest: Ending<C>) {
    match rest
    case Halted => whole.Halted?
    case Finished(m, h, f, posts) => whole == Finished(n + m, h, f, done + posts)
  }

  /** One more request is served. */
  lemma OneServed<C>(whole: Ending<C>, n: nat, done: seq<Post<C>>, h: Hall<C>, f: Local, c: C,
                     reqs: seq<L.Request>, who: C -> string)
    requires Known(h) && c in h.states && reqs != [] && L.Allowed(reqs[0], h.states[c])
    requires Remains(whole, n, done, ServeAll(h, f, c, reqs, who))
    ensures match Serve(h, f, c, reqs[0], who)
            case Crash => whole.Halted?
            case Served(ret, h1, f1, posts) =>
              if ret < 0 then whole == Finished(n, h1, f1, done + posts)
              else Known(h1) && c in h1.states && Remains(whole, n + 1, done + posts, ServeAll(h1, f1, c, reqs[1..], who))
  {
    ServeKnown(h, f, c, reqs[0], who);
    var e := Serve(h, f, c, reqs[0], who);
    if e.Served? && e.ret >= 0 {
      RemainsOn(whole, n, done, e.posts, ServeAll(e.hall, e.local, c, reqs[1..], who));
    }
  }

  lemma RemainsOn<C>(whole: Ending<C>, n: nat, done: seq<Post<C>>, posts: seq<Post<C>>, rest: Ending<C>)
    requires Remains(whole, n, done, OneBefore(posts, rest))
    ensures Remains(whole, n + 1, done + posts, rest)
  {
    if rest.Finished? {
      assert done + (posts + rest.posts) == (done + posts) + rest.posts;
    }
  }

  /** Nothing comes of a request that returns an error. */
  lemma RefusedDoesNothing<C>(h: Hall<C>, f: Local, c: C, req: L.Request, who: C -> string)
    requires c in h.states && Serve(h, f, c, req, who).Served? && Serve(h, f, c, req, who).ret < 0
    ensures Serve(h, f, c, req, who) == Served(Serve(h, f, c, req, who).ret, h, f, [])
  {
  }

  /** The requests before the stopping point are all that counts, and what stops there is
      the state, an error return or the end of the list. */
  lemma {:induction false} ServesUpToFirstFailure<C>(h: Hall<C>, f: Local, c: C, reqs: seq<L.Request>, who: C -> string)
    requires Known(h) && c in h.states && ServeAll(h, f, c, reqs, who).Finished?
    ensures var o := ServeAll(h, f, c, reqs, who);
            && o.count <= |reqs|
            && ServeAll(h, f, c, reqs[..o.count], who) == o
            && Known(o.hall) && c in o.hall.states
            && (o.count < |reqs| && L.Allowed(reqs[o.count], o.hall.states[c]) ==>
                  var e := Serve(o.hall, o.local, c, reqs[o.count], who); e.Served? && e.ret < 0)
    decreases |reqs|
  {
    var o := ServeAll(h, f, c, reqs, who);
    if reqs != [] && L.Allowed(reqs[0], h.states[c]) {
      var e := Serve(h, f, c, reqs[0], who);
      ServeKnown(h, f, c, reqs[0], who);
      if e.ret < 0 {
        RefusedDoesNothing(h, f, c, reqs[0], who);
      } else {
        ServesUpToFirstFailure(e.hall, e.local, c, reqs[1..], who);
        assert reqs[..o.count][1..] == reqs[1..][..o.count - 1];
      }
    }
  }

  // ----- the disconnect path ----------------------------------------------------------------------------

  /** Out of the session if in one. */
  function CloseSession<C(==)>(h: Hall<C>, f: Local, c: C, name: string): Effect<C> {
    if f.sessionid > 0 then ServeLeaveSession(h, f, c, name) else Served(0, h, f, [])
  }

  function CloseRoom<C(==)>(h: Hall<C>, f: Local, c: C, name: string): Effect<C> {
    if f.roomid > 0 then ServeLeaveRoom(h, f, c, name) else Served(0, h, f, [])
  }

  function CloseBoth<C(==)>(h: Hall<C>, f: Local, c: C, name: string): Effect<C> {
    match CloseSession(h, f, c, name)
    case Crash => Crash
    case Served(_, h1, f1, p1) =>
      match CloseRoom(h1, f1, c, name)
      case Crash => Crash
      case Served(_, h2, f2, p2) => Served(0, h2, f2, p1 + p2)
  }

  /** The whole of it. */
  function Close<C(==)>(h: Hall<C>, f: Local, c: C, name: string): Effect<C> {
    match CloseBoth(h, f, c, name)
    case Crash => Crash
    case Served(_, h2, f2, posts) => Served(0, WithState(h2, c, Offline), f2, posts)
  }

  ghost predicate AllWellFormed<C>(r: Room<C>) {
    forall sid :: sid in r.sessions ==> WellFormed(r.sessions[sid])
  }

  /** c is in no session stored under sid, and the other sessions are as they were. */
  ghost predicate OutOf<C>(r: Room<C>, r': Room<C>, sid: int, c: C) {
    && (sid in r'.sessions ==> c !in Members(r'.sessions[sid]))
    && (forall i :: i != sid ==> (i in r'.sessions <==> i in r.sessions))
    && (forall i :: i != sid && i in r.sessions ==> r'.sessions[i] == r.sessions[i])
  }

  lemma LeaveInLeaves<C>(r: Room<C>, sid: int, c: C)
    requires AllWellFormed(r)
    ensures LeaveIn(r, sid, c).Returns? <==> sid in r.sessions && c in Members(r.sessions[sid])
    ensures LeaveIn(r, sid, c).Returns? ==>
              LeaveIn(r, sid, c).room.users == r.users && OutOf(r, LeaveIn(r, sid, c).room, sid, c)
  {
    if sid in r.sessions {
      LeaveRemoves(r.sessions[sid], c);
    }
  }

  /** The fields find the client in a user list and in a session, as far as they name one. */
  ghost predicate Found<C>(h: Hall<C>, f: Local, c: C) {
    && (f.sessionid > 0 ==>
          f.roomid > 0 && f.roomid in h.rooms && f.sessionid in h.rooms[f.roomid].sessions &&
          c in Members(h.rooms[f.roomid].sessions[f.sessionid]))
    && (f.roomid > 0 ==> f.roomid in h.rooms && c in h.rooms[f.roomid].users)
  }

  lemma CloseSessionLeaves<C>(h: Hall<C>, f: Local, c: C, name: string)
    requires f.sessionid > 0 && (forall rid :: rid in h.rooms ==> AllWellFormed(h.rooms[rid]))
    ensures var e := CloseSession(h, f, c, name);
            && (e.Served? <==> f.roomid > 0 && f.roomid in h.rooms && f.sessionid in h.rooms[f.roomid].sessions &&
                               c in Members(h.rooms[f.roomid].sessions[f.sessionid]))
            && (e.Served? ==>
                  var r' := LeaveIn(h.rooms[f.roomid], f.sessionid, c).room;
                  && e.hall == WithState(WithRoom(h, f.roomid, r'), c, Idle) && e.local == Local(f.roomid, -1)
                  && r'.users == h.rooms[f.roomid].users && OutOf(h.rooms[f.roomid], r', f.sessionid, c))
  {
    if f.roomid in h.rooms {
      LeaveInLeaves(h.rooms[f.roomid], f.sessionid, c);
    }
  }

  lemma CloseRoomLeaves<C>(h: Hall<C>, f: Local, c: C, name: string)
    requires f.roomid > 0
    ensures var e := CloseRoom(h, f, c, name);
            && (e.Served? <==> f.roomid in h.rooms && c in h.rooms[f.roomid].users)
            && (e.Served? ==>
                  var r := h.rooms[f.roomid];
                  && e.hall == WithState(WithRoom(h, f.roomid, r.(users := r.users - {c})), c, Online)
                  && e.local == f.(roomid := -1))
  {
  }

  lemma WrittenOver<C>(h: Hall<C>, rid: int, r1: Room<C>, r2: Room<C>, c: C, a: PlayState, b: PlayState)
    ensures WithState(WithRoom(WithState(WithRoom(h, rid, r1), c, a), rid, r2), c, b) == WithState(WithRoom(h, rid, r2), c, b)
    ensures WithState(WithState(h, c, a), c, b) == WithState(h, c, b)
  {
    assert h.rooms[rid := r1][rid := r2] == h.rooms[rid := r2];
    assert h.states[c := a][c := b] == h.states[c := b];
  }

  /** The client's room after it has left session and room. */
  function Emptied<C(==)>(r: Room<C>, sid: int, c: C): Room<C> {
    (if sid > 0 && LeaveIn(r, sid, c).Returns? then LeaveIn(r, sid, c).room else r).(users := r.users - {c})
  }

  /** Out of the room, and what the path then comes to. */
  lemma CloseAfter<C>(h: Hall<C>, f: Local, h1: Hall<C>, c: C, name: string, r: Room<C>)
    requires f.roomid > 0 && h1 == WithState(WithRoom(h, f.roomid, r), c, Idle)
    ensures var e := CloseRoom(h1, Local(f.roomid, -1), c, name);
            && (e.Served? <==> c in r.users)
            && (e.Served? ==>
                  && e.local == Local(-1, -1)
                  && WithState(e.hall, c, Offline) == WithState(WithRoom(h, f.roomid, r.(users := r.users - {c})), c, Offline))
  {
    CloseRoomLeaves(h1, Local(f.roomid, -1), c, name);
    if c in r.users {
      WrittenOver(h, f.roomid, r, r.(users := r.users - {c}), c, Idle, Online);
      WrittenOver(WithRoom(h, f.roomid, r.(users := r.users - {c})), f.roomid, r, r, c, Online, Offline);
    }
  }

  lemma CloseFromSession<C>(h: Hall<C>, f: Local, c: C, name: string)
    requires f.sessionid > 0 && (forall rid :: rid in h.rooms ==> AllWellFormed(h.rooms[rid]))
    ensures Close(h, f, c, name).Served? <==> Found(h, f, c)
    ensures Found(h, f, c) ==>
              && OutOf(h.rooms[f.roomid], Emptied(h.rooms[f.roomid], f.sessionid, c), f.sessionid, c)
              && Close(h, f, c, name).local == Local(-1, -1)
              && Close(h, f, c, name).hall ==
                 WithState(WithRoom(h, f.roomid, Emptied(h.rooms[f.roomid], f.sessionid, c)), c, Offline)
  {
    CloseSessionLeaves(h, f, c, name);
    var e := CloseSession(h, f, c, name);
    if e.Served? {
      CloseAfter(h, f, e.hall, c, name, LeaveIn(h.rooms[f.roomid], f.sessionid, c).room);
    }
  }

  lemma CloseFromRoom<C>(h: Hall<C>, f: Local, c: C, name: string)
    requires f.sessionid <= 0 && f.roomid > 0
    ensures Close(h, f, c, name).Served? <==> Found(h, f, c)
    ensures Found(h, f, c) ==>
              && Close(h, f, c, name).local == Local(-1, f.sessionid)
              && Close(h, f, c, name).hall ==
                 WithState(WithRoom(h, f.roomid, Emptied(h.rooms[f.roomid], f.sessionid, c)), c, Offline)
  {
    CloseRoomLeaves(h, f, c, name);
    if Found(h, f, c) {
      WrittenOver(WithRoom(h, f.roomid, Emptied(h.rooms[f.roomid], f.sessionid, c)), f.roomid,
                  h.rooms[f.roomid], h.rooms[f.roomid], c, Online, Offline);
    }
  }

  /** What the path leaves of the hall, the room's end being told apart. */
  ghost predicate Disconnected<C>(h: Hall<C>, h': Hall<C>, f: Local, c: C) {
    && h'.states == h.states[c := Offline] && h'.rooms.Keys == h.rooms.Keys
    && (forall rid :: rid in h.rooms && rid != f.roomid ==> h'.rooms[rid] == h.rooms[rid])
    && (f.roomid > 0 && f.roomid in h.rooms ==>
          var r, r' := h.rooms[f.roomid], h'.rooms[f.roomid];
          && r'.users == r.users - {c}
          && if f.sessionid > 0 then OutOf(r, r', f.sessionid, c) else r'.sessions == r.sessions)
  }

  /** No ASSERT fails exactly for a client that is where its fields say; it is nowhere
      afterwards, and every other room and session is as it was. */
  lemma DisconnectedIsGone<C>(h: Hall<C>, f: Local, c: C, name: string)
    requires forall rid :: rid in h.rooms ==> AllWellFormed(h.rooms[rid])
    ensures Close(h, f, c, name).Served? <==> Found(h, f, c)
    ensures Found(h, f, c) ==>
              var e := Close(h, f, c, name);
              e.local.roomid <= 0 && e.local.sessionid <= 0 && (f.roomid in h.rooms || f.roomid <= 0) &&
              Disconnected(h, e.hall, f, c)
  {
    if f.sessionid > 0 {
      CloseFromSession(h, f, c, name);
    } else if f.roomid > 0 {
      CloseFromRoom(h, f, c, name);
    }
  }
}
