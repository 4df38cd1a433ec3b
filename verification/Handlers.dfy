/**
 CClient's request handlers on their objects: each calls its room under the room's
 locks, writes the client's own fields and fills the two batches; procMsgs hands the
 batches to the pool after every request that succeeds.
 */
module Handlers {
  import opened Prelude
  import opened Session
  import opened Room
  import opened Batches
  import opened RoomObjects
  import opened Serving
  import L = Lobby

  datatype Job = Broadcasting(bd: CBroadCaster) | Notifying(nt: CNotifier)

  /** The pool's queue as assign sees it. */
  class CJobQueue {
    var jobs: seq<Job>

    constructor ()
      ensures jobs == []
    {
      jobs := [];
    }

    method Assign(j: Job)
      modifies this
      ensures jobs == old(jobs) + [j]
    {
      jobs := jobs + [j];
    }
  }

  /** CDataMgr's client list. */
  class CDataMgr {
    var list: map<string, CClientPeer>

    constructor ()
      ensures list == map[]
    {
      list := map[];
    }

    method FindClient(uname: string) returns (c: CClientPeer?)
      ensures if uname in list then c == list[uname] else c == null
    {
      c := if uname in list then list[uname] else null;
    }

    /** A name that is taken is refused. */
    method AddClient(c: CClientPeer) returns (ok: bool)
      modifies this
      ensures ok <==> c.uname !in old(list)
      ensures list == if ok then old(list)[c.uname := c] else old(list)
    {
      if c.uname in list {
        return false;
      }
      list := list[c.uname := c];
      return true;
    }

    method DelClient(uname: string)
      modifies this
      ensures list == old(list) - {uname}
    {
      if uname in list {
        list := list - {uname};
      }
    }
  }

  /** The batches among some jobs. */
  ghost function Broadcasters(js: seq<Job>): set<CBroadCaster> {
    set j | j in js && j.Broadcasting? :: j.bd
  }

  ghost function Notifiers(js: seq<Job>): set<CNotifier> {
    set j | j in js && j.Notifying? :: j.nt
  }

  ghost function PostsOf(js: seq<Job>): (r: seq<Post<CClientPeer>>)
    reads Broadcasters(js), Notifiers(js)
    ensures |r| == |js|
  {
    seq(|js|, i requires 0 <= i < |js| reads Broadcasters(js), Notifiers(js) =>
      match js[i]
      case Broadcasting(bd) => ToUsers(multiset(bd.audience), bd.msg)
      case Notifying(nt) => ToMembers(multiset(nt.clis), nt.msg))
  }

  lemma PostsConcat(a: seq<Job>, b: seq<Job>)
    ensures PostsOf(a + b) == PostsOf(a) + PostsOf(b)
  {
  }

  /** Jobs whose batches are left alone say what they said. */
  twostate lemma PostsKept(js: seq<Job>)
    requires (forall b :: b in Broadcasters(js) ==> unchanged(b)) && (forall n :: n in Notifiers(js) ==> unchanged(n))
    ensures PostsOf(js) == old(PostsOf(js))
  {
  }

  lemma EmptyAudience<T>(s: seq<T>)
    ensures multiset(s) == multiset{} <==> s == []
  {
    if s != [] {
      assert s[0] in multiset(s);
    }
  }

  /** The half of CClient that serves requests; `client` is the half its peers see. */
  class CRequests {
    const client: CClientPeer
    const rooms: map<int, CRoom>
    const seed: CIdSeed
    const pool: CJobQueue
    var roomid: int
    var sessionid: int
    var bder: CBroadCaster
    var notifier: CNotifier

    constructor (c: CClientPeer, rs: map<int, CRoom>, sd: CIdSeed, p: CJobQueue)
      ensures client == c && rooms == rs && seed == sd && pool == p
      ensures roomid == -1 && sessionid == -1 && fresh(bder) && fresh(notifier) && Clean()
    {
      client, rooms, seed, pool, roomid, sessionid := c, rs, sd, p, -1, -1;
      bder := new CBroadCaster();
      notifier := new CNotifier();
    }

    // ----- what the objects say -----------------------------------------------------------------

    ghost function Sessions(): set<CSession>
      reads rooms.Values`sessions
    {
      set i, s | i in rooms && s in rooms[i].sessions.Values :: s
    }

    ghost function RoomViews(): map<int, Room<CClientPeer>>
      reads rooms.Values, Sessions()
    {
      map i | i in rooms :: rooms[i].View()
    }

    ghost function HallOf(cs: set<CClientPeer>): Hall<CClientPeer>
      reads rooms.Values, Sessions(), cs`state, seed
    {
      Hall(RoomViews(), StatesOf(cs), seed.seed)
    }

    function Mine(): Local
      reads this`roomid, this`sessionid
    {
      Local(roomid, sessionid)
    }

    /** The rooms share no session. */
    ghost predicate Separate()
      reads rooms.Values`sessions
    {
      && (forall i :: i in rooms ==> rooms[i].Valid())
      && (forall i, j :: i in rooms && j in rooms && i != j ==>
            rooms[i] != rooms[j] && rooms[i].sessions.Values !! rooms[j].sessions.Values)
    }

    /** What handlers rely on; cs are the clients there are. */
    ghost predicate World(cs: set<CClientPeer>)
      reads rooms.Values, Sessions(), cs`state, seed
    {
      Settled(cs) && Known(HallOf(cs))
    }

    /** The other rooms and their sessions. */
    ghost function OtherRooms(rid: int): set<CRoom> {
      set i | i in rooms && i != rid :: rooms[i]
    }

    ghost function OtherSessions(rid: int): set<CSession>
      reads OtherRooms(rid)`sessions
    {
      set r, s | r in OtherRooms(rid) && s in r.sessions.Values :: s
    }

    ghost function OtherViews(rid: int): map<int, Room<CClientPeer>>
      reads OtherRooms(rid), OtherSessions(rid)
    {
      map i | i in rooms && i != rid :: rooms[i].View()
    }

    /** A room and its sessions are none of the others. */
    lemma NotOthers(rid: int)
      requires Separate() && rid in rooms
      ensures rooms[rid] !in OtherRooms(rid) && rooms[rid].sessions.Values !! OtherSessions(rid)
    {
    }

    lemma OneRoom(rid: int, before: map<int, Room<CClientPeer>>, others: map<int, Room<CClientPeer>>)
      requires rid in rooms && others == OtherViews(rid) && before.Keys == rooms.Keys
      requires forall i :: i in before && i != rid ==> i in others && before[i] == others[i]
      ensures RoomViews() == before[rid := rooms[rid].View()]
    {
      var after := before[rid := rooms[rid].View()];
      forall i | i in rooms ensures i in after && RoomViews()[i] == after[i] {
        if i != rid {
          assert i in before && others[i] == rooms[i].View();
        }
      }
    }

    // ----- the batches ----------------------------------------------------------------------------

    /** Nobody is on either list and nothing is written. */
    ghost predicate Clean()
      reads this`bder, this`notifier, bder, notifier
    {
      bder.Valid() && bder.audience == [] && bder.msg == [] && notifier.clis == [] && notifier.msg == []
    }

    /** Whatever is written has readers. */
    ghost predicate Sendable()
      reads this`bder, this`notifier, bder, notifier
    {
      && bder.Valid()
      && (bder.audience == [] ==> bder.msg == [])
      && (notifier.clis == [] ==> notifier.msg == [])
    }

    /** What the batches hold for the pool. */
    ghost function Pending(): seq<Post<CClientPeer>>
      reads this`bder, this`notifier, bder, notifier
    {
      Broadcast(multiset(bder.audience), bder.msg) + Notify(multiset(notifier.clis), notifier.msg)
    }

    lemma CleanPends()
      ensures Clean() <==> Sendable() && Pending() == []
    {
      EmptyAudience(bder.audience);
      EmptyAudience(notifier.clis);
    }

    lemma PendsToUsers()
      requires notifier.clis == []
      ensures Pending() == Broadcast(multiset(bder.audience), bder.msg)
    {
    }

    lemma PendsToMembers()
      requires bder.audience == []
      ensures Pending() == Notify(multiset(notifier.clis), notifier.msg)
    {
    }

    /** The message is written only if somebody is to get it. */
    method TellRoom(m: Message)
      requires bder.Valid() && bder.msg == []
      modifies bder`msg
      ensures bder.Valid() && (bder.audience == [] ==> bder.msg == [])
      ensures Broadcast(multiset(bder.audience), bder.msg) == Broadcast(multiset(bder.audience), [m])
    {
      EmptyAudience(bder.audience);
      if !bder.Empty() {
        bder.Append(m);
        assert bder.msg == [m];
      }
    }

    method TellSession(m: Message)
      requires notifier.msg == []
      modifies notifier`msg
      ensures notifier.clis == [] ==> notifier.msg == []
      ensures Notify(multiset(notifier.clis), notifier.msg) == Notify(multiset(notifier.clis), [m])
    {
      EmptyAudience(notifier.clis);
      if !notifier.Empty() {
        notifier.Append(m);
        assert notifier.msg == [m];
      }
    }

    /** The writes after a session call that succeeded. */
    method Became(st: PlayState, sid: int, m: Message)
      requires notifier.msg == []
      modifies client`state, this`sessionid, notifier`msg
      ensures client.state == st && sessionid == sid
      ensures notifier.clis == [] ==> notifier.msg == []
      ensures Notify(multiset(notifier.clis), notifier.msg) == Notify(multiset(notifier.clis), [m])
    {
      client.state := st;
      sessionid := sid;
      TellSession(m);
    }

    /** The writes after a room call that succeeded. */
    method Moved(st: PlayState, rid: int, m: Message)
      requires bder.Valid() && bder.msg == [] && notifier.clis == [] && notifier.msg == []
      modifies client`state, this`roomid, bder`msg
      ensures client.state == st && roomid == rid
      ensures Sendable() && Pending() == Broadcast(multiset(bder.audience), [m])
    {
      client.state := st;
      roomid := rid;
      TellRoom(m);
      PendsToUsers();
    }

    /** The same after a session call. */
    method Joined(st: PlayState, sid: int, m: Message)
      requires bder.Valid() && bder.audience == [] && bder.msg == [] && notifier.msg == []
      modifies client`state, this`sessionid, notifier`msg
      ensures client.state == st && sessionid == sid
      ensures Sendable() && Pending() == Notify(multiset(notifier.clis), [m])
    {
      Became(st, sid, m);
      PendsToMembers();
    }

    /** What every handler relies on and keeps. */
    ghost predicate Settled(cs: set<CClientPeer>)
      reads rooms.Values`sessions, seed
    {
      client in cs && seed.Valid() && Separate()
    }

    lemma OneState(cs: set<CClientPeer>, before: map<CClientPeer, PlayState>, others: map<CClientPeer, PlayState>)
      requires client in cs && others == StatesOf(cs - {client}) && before.Keys == cs
      requires forall c :: c in cs && c != client ==> before[c] == others[c]
      ensures StatesOf(cs) == before[client := client.state]
    {
    }

    /** The parts of a hall that a handler of this client on room rid leaves alone. */
    ghost predicate Rest(rid: int, cs: set<CClientPeer>, h: Hall<CClientPeer>, views: map<int, Room<CClientPeer>>,
                         states: map<CClientPeer, PlayState>) {
      && client in cs && h.rooms.Keys == rooms.Keys && h.states.Keys == cs
      && (forall i :: i in rooms && i != rid ==> i in views && views[i] == h.rooms[i])
      && (forall c :: c in cs && c != client ==> c in states && h.states[c] == states[c])
    }

    /** The hall after it, h being the hall before. */
    /** Nothing has changed in the other rooms. */
    twostate lemma OthersKept(rid: int)
      requires forall r :: r in OtherRooms(rid) ==> unchanged(r)
      requires forall s :: s in old(OtherSessions(rid)) ==> unchanged(s)
      ensures OtherViews(rid) == old(OtherViews(rid))
    {
    }

    twostate lemma SettledKept(new rid: int, cs: set<CClientPeer>)
      requires old(Settled(cs)) && seed.Valid() && rid in rooms && rooms[rid].Valid()
      requires forall r :: r in OtherRooms(rid) ==> unchanged(r)
      requires forall s :: s in rooms[rid].sessions.Values ==> s in old(rooms[rid].sessions.Values) || s !in old(Sessions())
      ensures Settled(cs) && forall s :: s in Sessions() ==> s in old(Sessions()) || s in rooms[rid].sessions.Values
    {
      forall i | i in rooms && i != rid
        ensures rooms[i].sessions == old(rooms[i].sessions) && rooms[i].sessions.Values <= old(Sessions()) {
        assert rooms[i] in OtherRooms(rid);
      }
    }

    ghost predicate WrittenAt(rid: int, cs: set<CClientPeer>, h: Hall<CClientPeer>)
      requires rid in rooms
      reads client`state, rooms.Values, Sessions(), cs`state, seed
    {
      HallOf(cs) == WithState(WithRoom(h, rid, rooms[rid].View()), client, client.state).(seed := seed.seed)
    }

    lemma NowHall(rid: int, cs: set<CClientPeer>, h: Hall<CClientPeer>, views: map<int, Room<CClientPeer>>,
                  states: map<CClientPeer, PlayState>)
      requires rid in rooms && Rest(rid, cs, h, views, states)
      requires views == OtherViews(rid) && states == StatesOf(cs - {client})
      ensures WrittenAt(rid, cs, h)
    {
      OneState(cs, h.states, states);
      OneRoom(rid, h.rooms, views);
    }

    /** A handler that touches no other room and no other client keeps things settled, and the
        hall changes in its room and its client alone. */
    twostate lemma HallAfter(new rid: int, cs: set<CClientPeer>)
      requires old(Settled(cs)) && seed.Valid() && rid in rooms && rooms[rid].Valid()
      requires forall r :: r in OtherRooms(rid) ==> unchanged(r)
      requires forall s :: s in old(OtherSessions(rid)) ==> unchanged(s)
      requires forall c :: c in cs && c != client ==> c.state == old(c.state)
      requires forall s :: s in rooms[rid].sessions.Values ==> s in old(rooms[rid].sessions.Values) || s !in old(Sessions())
      ensures Settled(cs) && WrittenAt(rid, cs, old(HallOf(cs)))
      ensures forall s :: s in Sessions() ==> s in old(Sessions()) || s in rooms[rid].sessions.Values
    {
      OthersKept(rid);
      SettledKept(rid, cs);
      assert StatesOf(cs - {client}) == old(StatesOf(cs - {client}));
      NowHall(rid, cs, old(HallOf(cs)), old(OtherViews(rid)), old(StatesOf(cs - {client})));
    }

    /** A handler came to e: it ended the process, or it returned ret and left things as e says. */
    ghost predicate Came(e: Effect<CClientPeer>, ok: bool, ret: int, cs: set<CClientPeer>)
      reads this, bder, notifier, rooms.Values, Sessions(), cs`state, seed
    {
      && (ok <==> e.Served?)
      && (ok ==> e == Served(ret, HallOf(cs), Mine(), Pending()) && Sendable())
    }

    /** A room in which nothing has changed. */
    twostate lemma RoomKept(rm: CRoom)
      requires unchanged(rm) && forall s :: s in rm.sessions.Values ==> unchanged(s)
      ensures rm.View() == old(rm.View())
    {
    }

    // ----- the handlers ---------------------------------------------------------------------------

    // Each comes in three parts: the call on the room with what it leads to for the client,
    // what that makes of the hall, and the handler with its ASSERTs.

    /** enterRoom returned ret, the room having been `was`. */
    ghost predicate Entered(was: Room<CClientPeer>, rm: CRoom, rid: int, ret: int)
      reads this, client, bder, notifier, rm, rm.sessions.Values
    {
      var (ok, r) := Admit(was, client);
      && rm.View() == r && ret == (if ok then 0 else -3)
      && (ok ==> client.state == Idle && roomid == rid && Sendable() &&
                 Pending() == Broadcast(multiset(was.users), [EnteredRoom(client.uname)]))
    }

    method EnterThis(rm: CRoom, rid: int) returns (ret: int)
      requires Clean()
      modifies this`roomid, client`state, bder, rm`usrlist
      ensures Entered(old(rm.View()), rm, rid, ret)
      ensures ret < 0 ==> Clean() && client.state == old(client.state) && roomid == old(roomid)
    {
      ghost var was := rm.View();
      var ok := rm.EnterBy(client, bder);
      if !ok {
        return -3;
      }
      assert multiset(bder.audience) == multiset(was.users);
      label Called:
      Moved(Idle, rid, EnteredRoom(client.uname));
      RoomKept@Called(rm);
      return 0;
    }

    method EnterAt(rm: CRoom, rid: int, ghost cs: set<CClientPeer>) returns (ret: int)
      requires Settled(cs) && Clean() && rid in rooms && rm == rooms[rid]
      modifies this`roomid, client`state, bder, rm`usrlist
      ensures Settled(cs) && WrittenAt(rid, cs, old(HallOf(cs)))
      ensures Entered(old(rm.View()), rm, rid, ret)
      ensures ret < 0 ==> Clean() && client.state == old(client.state) && roomid == old(roomid)
    {
      NotOthers(rid);
      ret := EnterThis(rm, rid);
      HallAfter(rid, cs);
    }

    method EnterRoom(rid: int, ghost cs: set<CClientPeer>) returns (ret: int)
      requires Settled(cs) && Clean()
      modifies this`roomid, client`state, bder, (if rid in rooms then {rooms[rid]} else {})`usrlist
      ensures Settled(cs)
      ensures Came(ServeEnterRoom(old(HallOf(cs)), old(Mine()), client, client.uname, rid), true, ret, cs)
    {
      CleanPends();
      if client.state != Online {
        return -1;
      }
      if rid !in rooms {
        return -2;
      }
      ghost var h := HallOf(cs);
      ret := EnterAt(rooms[rid], rid, cs);
      if ret < 0 {
        CleanPends();
        NothingWritten(h, rid, client);
      }
    }

    ghost predicate Left(was: Room<CClientPeer>, rm: CRoom, ok: bool)
      reads this, client, bder, notifier, rm, rm.sessions.Values
    {
      && (ok, rm.View()) == Dismiss(was, client)
      && (ok ==> client.state == Online && roomid == -1 && Sendable() &&
                 Pending() == Broadcast(multiset(rm.View().users), [LeftRoom(client.uname)]))
    }

    method LeaveThis(rm: CRoom) returns (ok: bool)
      requires Clean()
      modifies this`roomid, client`state, bder, rm`usrlist
      ensures Left(old(rm.View()), rm, ok)
    {
      ok := rm.LeaveBy(client, bder);
      if !ok {
        return;
      }
      assert multiset(bder.audience) == multiset(rm.View().users);
      label Called:
      Moved(Online, -1, LeftRoom(client.uname));
      RoomKept@Called(rm);
    }

    method LeaveAt(rm: CRoom, ghost rid: int, ghost cs: set<CClientPeer>) returns (ok: bool)
      requires Settled(cs) && Clean() && rid in rooms && rm == rooms[rid]
      modifies this`roomid, client`state, bder, rm`usrlist
      ensures Settled(cs) && WrittenAt(rid, cs, old(HallOf(cs)))
      ensures Left(old(rm.View()), rm, ok)
    {
      NotOthers(rid);
      ok := LeaveThis(rm);
      HallAfter(rid, cs);
    }

    /** `ok` tells, here and below, that the ASSERTs held. */
    method LeaveRoom(ghost cs: set<CClientPeer>) returns (ok: bool)
      requires Settled(cs) && Clean()
      modifies this`roomid, client`state, bder, (if roomid in rooms then {rooms[roomid]} else {})`usrlist
      ensures Settled(cs)
      ensures Came(ServeLeaveRoom(old(HallOf(cs)), old(Mine()), client, client.uname), ok, 0, cs)
    {
      if roomid <= 0 || roomid !in rooms {
        return false;
      }
      ok := LeaveAt(rooms[roomid], roomid, cs);
    }

    method Created(sid: int)
      requires bder.Valid() && bder.msg == [] && notifier.clis == [] && notifier.msg == []
      modifies client`state, this`sessionid, bder`msg
      ensures client.state == Sessional && sessionid == sid
      ensures Sendable() && Pending() == Broadcast(multiset(bder.audience), [NewSessionIn(sid)])
    {
      client.state := Sessional;
      sessionid := sid;
      TellRoom(NewSessionIn(sid));
      PendsToUsers();
    }

    /** createSession drew n. */
    ghost predicate Made(was: Room<CClientPeer>, rm: CRoom, n: nat, ok: bool)
      reads this, client, seed, bder, notifier, rm, rm.sessions.Values
    {
      && (ok <==> client in was.users)
      && (ok ==>
            && seed.seed == n && sessionid == IdOf(n) && client.state == Sessional
            && rm.View() == WithSession(was, IdOf(n), NewSession(client, n))
            && Sendable() && Pending() == Broadcast(multiset(was.users - {client}), [NewSessionIn(IdOf(n))]))
    }

    /** The number genid reads. */
    ghost function Draws(meanwhile: Option<nat>): nat
      reads seed
    {
      if meanwhile.Some? then meanwhile.value else seed.seed + 1
    }

    method CreateThis(rm: CRoom, meanwhile: Option<nat>) returns (ok: bool)
      requires Clean() && seed.Valid() && rm.Valid()
      modifies this`sessionid, client`state, bder, seed, rm`sessions
      ensures seed.Valid() && rm.Valid() && (forall s :: s in rm.sessions.Values ==> s in old(rm.sessions.Values) || fresh(s))
      ensures Made(old(rm.View()), rm, old(Draws(meanwhile)), ok)
    {
      ghost var was := rm.View();
      var s := rm.CreateSession(client, seed, meanwhile, bder);
      if s == null {
        return false;
      }
      assert multiset(bder.audience) == multiset(was.users - {client});
      label Called:
      Created(s.id);
      RoomKept@Called(rm);
      return true;
    }

    method CreateAt(rm: CRoom, ghost rid: int, meanwhile: Option<nat>, ghost cs: set<CClientPeer>) returns (ok: bool)
      requires Settled(cs) && Clean() && rid in rooms && rm == rooms[rid]
      modifies this`sessionid, client`state, bder, seed, rm`sessions
      ensures Settled(cs) && forall s :: s in Sessions() ==> s in old(Sessions()) || fresh(s)
      ensures WrittenAt(rid, cs, old(HallOf(cs)))
      ensures Made(old(rm.View()), rm, old(Draws(meanwhile)), ok)
    {
      NotOthers(rid);
      ok := CreateThis(rm, meanwhile);
      HallAfter(rid, cs);
    }

    /** `meanwhile` is what others stored while genid was between its store and its reading. */
    method CreateSession(meanwhile: Option<nat>, ghost cs: set<CClientPeer>) returns (ok: bool)
      requires Settled(cs) && Clean()
      modifies this`sessionid, client`state, bder, seed, (if roomid in rooms then {rooms[roomid]} else {})`sessions
      ensures Settled(cs) && forall s :: s in Sessions() ==> s in old(Sessions()) || fresh(s)
      ensures Came(ServeMakeSession(old(HallOf(cs)), old(Mine()), client, old(Draws(meanwhile))), ok, 0, cs)
    {
      if !(client.state == Idle && roomid > 0) {
        return false;
      }
      if roomid !in rooms {
        return false;
      }
      ok := CreateAt(rooms[roomid], roomid, meanwhile, cs);
    }

    /** A session stored in the room under sid. */
    static ghost function Held(rm: CRoom, sid: int): set<CSession>
      reads rm
    {
      if sid in rm.sessions then {rm.sessions[sid]} else {}
    }

    /** The session a call of this client's room on sid may change. */
    ghost function Touched(sid: int): set<CSession>
      reads this`roomid, rooms.Values
    {
      if roomid in rooms then Held(rooms[roomid], sid) else {}
    }

    method Quit(m: Message, n: Message)
      requires bder.Valid() && bder.msg == [] && notifier.msg == []
      modifies client`state, this`sessionid, bder`msg, notifier`msg
      ensures client.state == Idle && sessionid == -1
      ensures Sendable() && Pending() == Broadcast(multiset(bder.audience), [m]) + Notify(multiset(notifier.clis), [n])
    {
      TellRoom(m);
      Became(Idle, -1, n);
    }

    method CallLeave(rm: CRoom) returns (ok: bool)
      requires Clean() && rm.Valid()
      modifies bder, notifier`clis, Held(rm, sessionid), rm`sessions
      ensures rm.Valid() && rm.sessions.Values <= old(rm.sessions.Values)
      ensures ok <==> LeaveIn(old(rm.View()), sessionid, client).Returns?
      ensures ok ==>
                var r := LeaveIn(old(rm.View()), sessionid, client);
                && rm.View() == r.room && bder.Valid() && bder.msg == [] && notifier.msg == []
                && multiset(bder.audience) == (if r.ret == 0 then multiset(r.room.users) else multiset{})
                && multiset(notifier.clis) == Everyone(Leave(old(rm.View()).sessions[sessionid], client).1)
    {
      ghost var r := LeaveIn(rm.View(), sessionid, client);
      ok := rm.LeaveSession(sessionid, client, notifier, bder);
      if ok {
        assert multiset(bder.audience) == if r.ret == 0 then multiset(rm.usrlist) else multiset{};
      }
    }

    lemma LeftBy(was: Room<CClientPeer>, sid: int, aud: multiset<CClientPeer>, list: multiset<CClientPeer>)
      requires LeaveIn(was, sid, client).Returns?
      requires aud == if LeaveIn(was, sid, client).ret == 0 then multiset(LeaveIn(was, sid, client).room.users) else multiset{}
      requires list == Everyone(Leave(was.sessions[sid], client).1)
      ensures LeftPosts(was, sid, client, client.uname) ==
              Broadcast(aud, [SessionGone(sid)]) + Notify(list, [LeftSession(client.uname)])
    {
    }

    ghost predicate QuitFrom(was: Room<CClientPeer>, rm: CRoom, sid: int, ok: bool)
      reads this, client, bder, notifier, rm, rm.sessions.Values
    {
      var out := LeaveIn(was, sid, client);
      && (ok <==> out.Returns?)
      && (ok ==> rm.View() == out.room && client.state == Idle && sessionid == -1 &&
                 Sendable() && Pending() == LeftPosts(was, sid, client, client.uname))
    }

    method QuitThis(rm: CRoom) returns (ok: bool)
      requires Clean() && rm.Valid()
      modifies this`sessionid, client`state, bder, notifier, Held(rm, sessionid), rm`sessions
      ensures rm.Valid() && rm.sessions.Values <= old(rm.sessions.Values)
      ensures QuitFrom(old(rm.View()), rm, old(sessionid), ok)
    {
      ghost var was, sid := rm.View(), sessionid;
      ok := CallLeave(rm);
      if ok {
        ghost var aud, list := multiset(bder.audience), multiset(notifier.clis);
        label Called:
        Quit(SessionGone(sessionid), LeftSession(client.uname));
        RoomKept@Called(rm);
        LeftBy(was, sid, aud, list);
      }
    }

    method QuitAt(rm: CRoom, ghost rid: int, ghost cs: set<CClientPeer>) returns (ok: bool)
      requires Settled(cs) && Clean() && rid in rooms && rm == rooms[rid]
      modifies this`sessionid, client`state, bder, notifier, Held(rm, sessionid), rm`sessions
      ensures Settled(cs) && forall s :: s in Sessions() ==> s in old(Sessions()) || fresh(s)
      ensures WrittenAt(rid, cs, old(HallOf(cs)))
      ensures QuitFrom(old(rm.View()), rm, old(sessionid), ok)
    {
      NotOthers(rid);
      ok := QuitThis(rm);
      HallAfter(rid, cs);
    }

    method LeaveSession(ghost cs: set<CClientPeer>) returns (ok: bool)
      requires Settled(cs) && Clean()
      modifies this`sessionid, client`state, bder, notifier, Touched(sessionid)
      modifies (if roomid in rooms then {rooms[roomid]} else {})`sessions
      ensures Settled(cs) && forall s :: s in Sessions() ==> s in old(Sessions()) || fresh(s)
      ensures Came(ServeLeaveSession(old(HallOf(cs)), old(Mine()), client, client.uname), ok, 0, cs)
    {
      if !(roomid > 0 && sessionid > 0) {
        return false;
      }
      if roomid !in rooms {
        return false;
      }
      ok := QuitAt(rooms[roomid], roomid, cs);
    }

    /** A session call answered out, and if it took the client, that one is in the session's
        state st and posts wait. */
    ghost predicate TookPlace(out: (int, Room<CClientPeer>), posts: seq<Post<CClientPeer>>, st: PlayState,
                              rm: CRoom, sid: int, ret: int)
      reads this, client, bder, notifier, rm, rm.sessions.Values
    {
      && ret == out.0 && rm.View() == out.1
      && (ret >= 0 ==> client.state == st && sessionid == sid && Sendable() && Pending() == posts)
    }

    /** What enterSession is about to answer and to say. */
    ghost predicate AboutToEnter(rm: CRoom, sid: int, out: (int, Room<CClientPeer>), posts: seq<Post<CClientPeer>>)
      reads rm, rm.sessions.Values
    {
      && out == EnterIn(rm.View(), sid, client)
      && (out.0 >= 0 ==> posts == JoinPosts(rm.View(), sid, EnteredSession(client.uname)))
    }

    method CallSit(rm: CRoom, sid: int) returns (ret: int)
      requires Clean() && rm.Valid()
      modifies notifier`clis, Held(rm, sid)
      ensures rm.Valid() && rm.sessions == old(rm.sessions) && (ret, rm.View()) == EnterIn(old(rm.View()), sid, client)
      ensures ret < 0 ==> notifier.clis == []
      ensures ret >= 0 ==> multiset(notifier.clis) == Everyone(old(rm.View()).sessions[sid])
    {
      ghost var was := rm.View();
      ret := rm.EnterSession(sid, client, notifier);
      assert ret >= 0 ==> multiset(notifier.clis) == Everyone(was.sessions[sid]);
    }

    method SitThis(rm: CRoom, sid: int, ghost out: (int, Room<CClientPeer>), ghost posts: seq<Post<CClientPeer>>)
      returns (ret: int)
      requires Clean() && rm.Valid() && AboutToEnter(rm, sid, out, posts)
      modifies this`sessionid, client`state, notifier, Held(rm, sid)
      ensures rm.Valid() && rm.sessions == old(rm.sessions)
      ensures TookPlace(out, posts, Sessional, rm, sid, ret)
      ensures ret < 0 ==> Clean() && client.state == old(client.state) && sessionid == old(sessionid)
    {
      ret := CallSit(rm, sid);
      if ret < 0 {
        return;
      }
      label Called:
      Joined(Sessional, sid, EnteredSession(client.uname));
      RoomKept@Called(rm);
    }

    method SitAt(rm: CRoom, ghost rid: int, sid: int, ghost out: (int, Room<CClientPeer>),
                 ghost posts: seq<Post<CClientPeer>>, ghost cs: set<CClientPeer>) returns (ret: int)
      requires Settled(cs) && Clean() && rid in rooms && rm == rooms[rid] && AboutToEnter(rm, sid, out, posts)
      modifies this`sessionid, client`state, notifier, Held(rm, sid)
      ensures Settled(cs) && WrittenAt(rid, cs, old(HallOf(cs)))
      ensures TookPlace(out, posts, Sessional, rm, sid, ret)
      ensures ret < 0 ==> Clean() && client.state == old(client.state) && sessionid == old(sessionid)
    {
      NotOthers(rid);
      ret := SitThis(rm, sid, out, posts);
      HallAfter(rid, cs);
    }

    method EnterSession(sid: int, ghost cs: set<CClientPeer>) returns (ok: bool, ret: int)
      requires Settled(cs) && Clean()
      modifies this`sessionid, client`state, notifier, Touched(sid)
      ensures Settled(cs)
      ensures Came(ServeEnterSession(old(HallOf(cs)), old(Mine()), client, client.uname, sid), ok, ret, cs)
    {
      ret := 0;
      if !(roomid > 0 && sessionid < 0) {
        return false, 0;
      }
      if roomid !in rooms {
        return false, 0;
      }
      ghost var h, rm := HallOf(cs), rooms[roomid];
      assert h.rooms[roomid] == rm.View();
      ghost var out := EnterIn(rm.View(), sid, client);
      ghost var posts := if out.0 >= 0 then JoinPosts(rm.View(), sid, EnteredSession(client.uname)) else [];
      ok := true;
      ret := SitAt(rooms[roomid], roomid, sid, out, posts, cs);
      if ret < 0 {
        CleanPends();
        NothingWritten(h, roomid, client);
      } else {
        assert HallOf(cs) == WithState(WithRoom(h, roomid, out.1), client, Sessional);
      }
    }

    /** What watchSession is about to answer and to say. */
    ghost predicate AboutToWatch(rm: CRoom, sid: int, out: (int, Room<CClientPeer>), posts: seq<Post<CClientPeer>>)
      reads rm, rm.sessions.Values
    {
      && out == WatchIn(rm.View(), sid, client)
      && (out.0 >= 0 ==> posts == JoinPosts(rm.View(), sid, WatchedSession(client.uname)))
    }

    method CallWatch(rm: CRoom, sid: int) returns (ret: int)
      requires Clean() && rm.Valid()
      modifies notifier`clis, Held(rm, sid)
      ensures rm.Valid() && rm.sessions == old(rm.sessions) && (ret, rm.View()) == WatchIn(old(rm.View()), sid, client)
      ensures ret < 0 ==> notifier.clis == []
      ensures ret >= 0 ==> multiset(notifier.clis) == Everyone(old(rm.View()).sessions[sid])
    {
      ghost var was := rm.View();
      ret := rm.WatchSession(sid, client, notifier);
      assert ret >= 0 ==> multiset(notifier.clis) == Everyone(was.sessions[sid]);
    }

    method WatchThis(rm: CRoom, sid: int, ghost out: (int, Room<CClientPeer>), ghost posts: seq<Post<CClientPeer>>)
      returns (ret: int)
      requires Clean() && rm.Valid() && AboutToWatch(rm, sid, out, posts)
      modifies this`sessionid, client`state, notifier, Held(rm, sid)
      ensures rm.Valid() && rm.sessions == old(rm.sessions)
      ensures TookPlace(out, posts, Watching, rm, sid, ret)
      ensures ret < 0 ==> Clean() && client.state == old(client.state) && sessionid == old(sessionid)
    {
      ret := CallWatch(rm, sid);
      if ret < 0 {
        return;
      }
      label Called:
      Joined(Watching, sid, WatchedSession(client.uname));
      RoomKept@Called(rm);
    }

    method WatchAt(rm: CRoom, ghost rid: int, sid: int, ghost out: (int, Room<CClientPeer>),
                 ghost posts: seq<Post<CClientPeer>>, ghost cs: set<CClientPeer>) returns (ret: int)
      requires Settled(cs) && Clean() && rid in rooms && rm == rooms[rid] && AboutToWatch(rm, sid, out, posts)
      modifies this`sessionid, client`state, notifier, Held(rm, sid)
      ensures Settled(cs) && WrittenAt(rid, cs, old(HallOf(cs)))
      ensures TookPlace(out, posts, Watching, rm, sid, ret)
      ensures ret < 0 ==> Clean() && client.state == old(client.state) && sessionid == old(sessionid)
    {
      NotOthers(rid);
      ret := WatchThis(rm, sid, out, posts);
      HallAfter(rid, cs);
    }

    method WatchSession(sid: int, ghost cs: set<CClientPeer>) returns (ok: bool, ret: int)
      requires Settled(cs) && Clean()
      modifies this`sessionid, client`state, notifier, Touched(sid)
      ensures Settled(cs)
      ensures Came(ServeWatchSession(old(HallOf(cs)), old(Mine()), client, client.uname, sid), ok, ret, cs)
    {
      ret := 0;
      if !(roomid > 0 && sessionid < 0) {
        return false, 0;
      }
      if roomid !in rooms {
        return false, 0;
      }
      ghost var h, rm := HallOf(cs), rooms[roomid];
      assert h.rooms[roomid] == rm.View();
      ghost var out := WatchIn(rm.View(), sid, client);
      ghost var posts := if out.0 >= 0 then JoinPosts(rm.View(), sid, WatchedSession(client.uname)) else [];
      ok := true;
      ret := WatchAt(rooms[roomid], roomid, sid, out, posts, cs);
      if ret < 0 {
        CleanPends();
        NothingWritten(h, roomid, client);
      }
    }

    /** The jobs the pool was given are new objects, and say this. */
    twostate predicate Handed(new posts: seq<Post<CClientPeer>>)
      reads pool, Broadcasters(pool.jobs), Notifiers(pool.jobs)
    {
      && old(pool.jobs) <= pool.jobs
      && PostsOf(pool.jobs[|old(pool.jobs)|..]) == posts
      && fresh(Broadcasters(pool.jobs[|old(pool.jobs)|..])) && fresh(Notifiers(pool.jobs[|old(pool.jobs)|..]))
    }

    /** A job that tells the client itself. */
    method TellSelf(m: Message)
      modifies pool
      ensures Handed([ToMembers(multiset{client}, [m])])
    {
      ghost var had := pool.jobs;
      var n := new CNotifier();
      n.AddNotifiee(client);
      n.Append(m);
      pool.Assign(Notifying(n));
      assert pool.jobs[|had|..] == [Notifying(n)];
      assert n.clis == [client] && n.msg == [m];
    }

    lemma NothingHanded()
      ensures PostsOf(pool.jobs[|pool.jobs|..]) == []
    {
    }

    /** What doReady writes: the others learn that the client is ready and, when the game
        starts, so do all, the client by a job of its own. */
    method AnnounceReady(ret: int, redn: string, bkn: string)
      requires notifier.msg == []
      modifies notifier`msg, pool
      ensures notifier.clis == [] ==> notifier.msg == []
      ensures Notify(multiset(notifier.clis), notifier.msg) ==
              Notify(multiset(notifier.clis), [BecameReady(client.uname)] + (if ret == 1 then [GameStarts(redn, bkn)] else []))
      ensures Handed(if notifier.clis != [] && ret == 1 then [ToMembers(multiset{client}, [GameStarts(redn, bkn)])] else [])
    {
      EmptyAudience(notifier.clis);
      NothingHanded();
      if !notifier.Empty() {
        notifier.Append(BecameReady(client.uname));
        assert notifier.msg == [BecameReady(client.uname)] + [];
        if ret == 1 {
          notifier.Append(GameStarts(redn, bkn));
          assert notifier.msg == [BecameReady(client.uname)] + [GameStarts(redn, bkn)];
          TellSelf(GameStarts(redn, bkn));
        }
      }
    }

    /** The players of a session of the client's room. */
    ghost function SeatedAt(sid: int): set<CClientPeer>
      reads this`roomid, rooms.Values, Touched(sid)
    {
      if roomid in rooms && sid in rooms[roomid].sessions then Players(rooms[roomid].sessions[sid].View()) else {}
    }

    /** The session the fields name. */
    ghost function MySession(): Option<Session<CClientPeer>>
      reads this`roomid, this`sessionid, rooms.Values, Touched(sessionid)
    {
      if roomid > 0 && sessionid > 0 && roomid in rooms && sessionid in rooms[roomid].sessions
      then Some(rooms[roomid].sessions[sessionid].View()) else None
    }

    lemma MySessionIs(cs: set<CClientPeer>)
      ensures Serving.Joined(HallOf(cs), Mine()) == MySession()
    {
    }

    /** doReady left its session s, c's rival and its own words. */
    ghost predicate ToldReady(s: Session<CClientPeer>, started: bool)
      reads this, bder, notifier
    {
      && Sendable() && multiset(notifier.clis) == Once(Rival(s, client)) + multiset(s.watchers)
      && Pending() == Notify(Once(Rival(s, client)) + multiset(s.watchers), ReadyWords(s, client, started, NameOf))
    }

    /** `ok` tells that the ASSERTs held, `started` that a game starts. */
    method DoReady(ghost cs: set<CClientPeer>) returns (ok: bool, ghost started: bool)
      requires Clean() && client in cs && SeatedAt(sessionid) <= cs
      modifies ({client} + SeatedAt(sessionid))`state, notifier, pool
      ensures ok <==> old(MySession()).Some? && client in Players(old(MySession()).value)
      ensures ok ==>
                var s := old(MySession()).value;
                && started == Starts(s, client, old(StatesOf(cs))) && StatesOf(cs) == AfterReady(s, client, old(StatesOf(cs)))
                && ToldReady(s, started)
                && Handed(if started then [ToMembers(multiset{client}, [GameStart(s, NameOf)])] else [])
    {
      started := false;
      if !(roomid > 0 && sessionid > 0) {
        return false, false;
      }
      if roomid !in rooms {
        return false, false;
      }
      var ret, redn, bkn;
      ok, ret, redn, bkn := rooms[roomid].Ready(sessionid, client, notifier, cs);
      if !ok || ret < 0 {
        return false, false;
      }
      started := ret == 1;
      ghost var s := rooms[roomid].sessions[sessionid].View();
      if started {
        assert Once(Rival(s, client))[Rival(s, client).value] == 1;
        EmptyAudience(notifier.clis);
      }
      assert multiset(notifier.clis) == Once(Rival(s, client)) + multiset(s.watchers);
      AnnounceReady(ret, redn, bkn);
      PendsToMembers();
    }

    /** consumeBdsAndNotis: a batch with an audience becomes a job of its own. */
    method Consume()
      requires Sendable()
      modifies this`bder, this`notifier, pool
      ensures Clean()
      ensures (bder == old(bder) || fresh(bder)) && (notifier == old(notifier) || fresh(notifier))
      ensures pool.jobs == old(pool.jobs)
                + (if old(bder.audience) == [] then [] else [Broadcasting(old(bder))])
                + (if old(notifier.clis) == [] then [] else [Notifying(old(notifier))])
      ensures old(bder.audience) != [] ==> bder != old(bder)
      ensures old(notifier.clis) != [] ==> notifier != old(notifier)
    {
      if !bder.Empty() {
        pool.Assign(Broadcasting(bder));
        bder := new CBroadCaster();
      }
      if !notifier.Empty() {
        pool.Assign(Notifying(notifier));
        notifier := new CNotifier();
      }
    }

    lemma SeatsKnown(cs: set<CClientPeer>)
      requires World(cs)
      ensures SeatedAt(sessionid) <= cs
    {
      if roomid in rooms && sessionid in rooms[roomid].sessions {
        var h := HallOf(cs);
        KnownAt(h, roomid, sessionid);
        assert roomid in h.rooms && h.states.Keys == cs;
      }
    }

    lemma ReadyServed(h: Hall<CClientPeer>, f: Local)
      ensures var o := Serving.Joined(h, f);
              ServeReady(h, f, client, NameOf).Served? <==> o.Some? && client in Players(o.value)
    {
    }

    /** Nothing has changed in any room. */
    twostate lemma RoomsKept(cs: set<CClientPeer>)
      requires old(Settled(cs)) && unchanged(seed)
      requires forall r :: r in rooms.Values ==> unchanged(r)
      requires forall s :: s in old(Sessions()) ==> unchanged(s)
      ensures Settled(cs) && Sessions() == old(Sessions()) && RoomViews() == old(RoomViews())
    {
    }

    /** What a request came to, with the jobs it gave the pool by itself. */
    twostate predicate CameTo(new e: Effect<CClientPeer>, new ok: bool, new ret: int, new posts: seq<Post<CClientPeer>>,
                              cs: set<CClientPeer>)
      reads this, bder, notifier, rooms.Values, Sessions(), cs`state, seed
      reads pool, Broadcasters(pool.jobs), Notifiers(pool.jobs)
    {
      && (ok <==> e.Served?)
      && (ok ==> Sendable() && Handed(posts) && e == Served(ret, HallOf(cs), Mine(), posts + Pending()))
    }

    twostate lemma CameAlone(new e: Effect<CClientPeer>, new ok: bool, new ret: int, cs: set<CClientPeer>)
      requires Came(e, ok, ret, cs) && pool.jobs == old(pool.jobs)
      ensures CameTo(e, ok, ret, [], cs)
    {
      NothingHanded();
      assert [] + Pending() == Pending();
    }

    /** doReady on the hall. */
    method MakeReady(ghost cs: set<CClientPeer>) returns (ok: bool, ghost posts: seq<Post<CClientPeer>>)
      requires World(cs) && Clean()
      modifies cs`state, notifier, pool
      ensures Settled(cs) && Sessions() == old(Sessions())
      ensures CameTo(Serve(old(HallOf(cs)), old(Mine()), client, L.MakeReady, NameOf), ok, 0, posts, cs)
    {
      SeatsKnown(cs);
      MySessionIs(cs);
      ReadyServed(HallOf(cs), Mine());
      ghost var started;
      ok, started := DoReady(cs);
      RoomsKept(cs);
      posts := if ok && started then [ToMembers(multiset{client}, [GameStart(old(MySession()).value, NameOf)])] else [];
    }

    // ----- a request, and a list of them ------------------------------------------------------------

    lemma StoredIn(rid: int, s: CSession)
      requires rid in rooms && s in rooms[rid].sessions.Values
      ensures s in Sessions()
    {
    }

    lemma TouchedStored(sid: int)
      ensures Touched(sid) <= Sessions()
    {
      if roomid in rooms && sid in rooms[roomid].sessions {
        StoredIn(roomid, rooms[roomid].sessions[sid]);
      }
    }

    /** The handlers of rooms. */
    method ServeRoom(req: L.Request, ghost cs: set<CClientPeer>) returns (ok: bool, ret: int)
      requires Settled(cs) && Clean() && (req.EnterRoom? || req.LeaveRoom?)
      modifies this`roomid, client`state, bder, rooms.Values`usrlist
      ensures Settled(cs) && Sessions() == old(Sessions())
      ensures Came(Serve(old(HallOf(cs)), old(Mine()), client, req, NameOf), ok, ret, cs)
    {
      ok, ret := true, 0;
      match req
      case EnterRoom(rid) => ret := EnterRoom(rid, cs);
      case LeaveRoom => ok := LeaveRoom(cs);
    }

    /** The handlers of sessions that are there. */
    method ServeSession(req: L.Request, ghost cs: set<CClientPeer>) returns (ok: bool, ret: int)
      requires Settled(cs) && Clean() && (req.EnterSession? || req.WatchSession? || req.LeaveSession?)
      modifies this`sessionid, client`state, bder, notifier, rooms.Values`sessions, Sessions()
      ensures Settled(cs) && forall s :: s in Sessions() ==> s in old(Sessions()) || fresh(s)
      ensures Came(Serve(old(HallOf(cs)), old(Mine()), client, req, NameOf), ok, ret, cs)
    {
      TouchedStored(if req.LeaveSession? then sessionid else req.sid);
      ok, ret := true, 0;
      match req
      case EnterSession(sid) => ok, ret := EnterSession(sid, cs);
      case LeaveSession => ok := LeaveSession(cs);
      case WatchSession(sid) => ok, ret := WatchSession(sid, cs);
    }

    method ServeMake(ghost cs: set<CClientPeer>) returns (ok: bool)
      requires Settled(cs) && Clean()
      modifies this`sessionid, client`state, bder, seed, rooms.Values`sessions
      ensures Settled(cs) && forall s :: s in Sessions() ==> s in old(Sessions()) || fresh(s)
      ensures Came(Serve(old(HallOf(cs)), old(Mine()), client, L.MakeSession, NameOf), ok, 0, cs)
    {
      ok := CreateSession(None, cs);
    }

    /** The handlers without effect: doListSessions has ASSERTs. */
    method ServePlain(what: L.Plain, ghost cs: set<CClientPeer>) returns (ok: bool)
      requires Settled(cs) && Clean()
      ensures Came(Serve(HallOf(cs), Mine(), client, L.Other(what), NameOf), ok, 0, cs)
    {
      CleanPends();
      ok := what == L.ListSessions ==> roomid > 0 && roomid in rooms;
    }

    /** Any handler but doReady. */
    method ServeOther(req: L.Request, ghost cs: set<CClientPeer>) returns (ok: bool, ret: int)
      requires Settled(cs) && Clean() && !req.MakeReady?
      modifies this`roomid, this`sessionid, client`state, bder, notifier, seed, rooms.Values, Sessions()
      ensures Settled(cs) && forall s :: s in Sessions() ==> s in old(Sessions()) || fresh(s)
      ensures Came(Serve(old(HallOf(cs)), old(Mine()), client, req, NameOf), ok, ret, cs)
    {
      ok, ret := true, 0;
      if req.EnterRoom? || req.LeaveRoom? {
        ok, ret := ServeRoom(req, cs);
      } else if req.MakeSession? {
        ok := ServeMake(cs);
      } else if req.Other? {
        ok := ServePlain(req.what, cs);
      } else {
        ok, ret := ServeSession(req, cs);
      }
    }

    method DispatchOther(req: L.Request, ghost cs: set<CClientPeer>) returns (ok: bool, ret: int)
      requires Settled(cs) && Clean() && !req.MakeReady?
      modifies this`roomid, this`sessionid, client`state, bder, notifier, seed, rooms.Values, Sessions()
      ensures Settled(cs) && forall s :: s in Sessions() ==> s in old(Sessions()) || fresh(s)
      ensures CameTo(Serve(old(HallOf(cs)), old(Mine()), client, req, NameOf), ok, ret, [], cs)
    {
      ghost var e := Serve(HallOf(cs), Mine(), client, req, NameOf);
      ok, ret := ServeOther(req, cs);
      CameAlone(e, ok, ret, cs);
    }

    /** The handler that the message table has for a request. */
    method Dispatch(req: L.Request, ghost cs: set<CClientPeer>) returns (ok: bool, ret: int, ghost posts: seq<Post<CClientPeer>>)
      requires World(cs) && Clean()
      modifies this`roomid, this`sessionid, cs`state, bder, notifier, seed, pool, rooms.Values, Sessions()
      ensures Settled(cs) && forall s :: s in Sessions() ==> s in old(Sessions()) || fresh(s)
      ensures CameTo(Serve(old(HallOf(cs)), old(Mine()), client, req, NameOf), ok, ret, posts, cs)
    {
      if req.MakeReady? {
        ret := 0;
        ok, posts := MakeReady(cs);
      } else {
        posts := [];
        ok, ret := DispatchOther(req, cs);
      }
    }

    /** A request served, or refused, or ending the process. */
    method Handle(req: L.Request, ghost cs: set<CClientPeer>) returns (ok: bool, ret: int, ghost posts: seq<Post<CClientPeer>>)
      requires World(cs) && Clean()
      modifies this`roomid, this`sessionid, cs`state, bder, notifier, seed, pool, rooms.Values, Sessions()
      ensures ok ==> World(cs)
      ensures forall s :: s in Sessions() ==> s in old(Sessions()) || fresh(s)
      ensures CameTo(Serve(old(HallOf(cs)), old(Mine()), client, req, NameOf), ok, ret, posts, cs)
      ensures ok && ret < 0 ==> Clean() && posts == [] && Pending() == []
    {
      ServeKnown(HallOf(cs), Mine(), client, req, NameOf);
      RefusedSays(HallOf(cs), Mine(), req);
      ok, ret, posts := Dispatch(req, cs);
      CleanPends();
      assert ok && ret < 0 ==> |posts + Pending()| == 0;
    }

    lemma RefusedSays(h: Hall<CClientPeer>, f: Local, req: L.Request)
      requires client in h.states
      ensures var e := Serve(h, f, client, req, NameOf); e.Served? && e.ret < 0 ==> e.posts == []
    {
      var e := Serve(h, f, client, req, NameOf);
      if e.Served? && e.ret < 0 {
        RefusedDoesNothing(h, f, client, req, NameOf);
      }
    }

    /** consumeBdsAndNotis in terms of posts. */
    method HandOver()
      requires Sendable()
      modifies this`bder, this`notifier, pool
      ensures Clean()
      ensures (bder == old(bder) || fresh(bder)) && (notifier == old(notifier) || fresh(notifier))
      ensures old(pool.jobs) <= pool.jobs && PostsOf(pool.jobs[|old(pool.jobs)|..]) == old(Pending())
      ensures Broadcasters(pool.jobs[|old(pool.jobs)|..]) <= {old(bder)} - {bder}
      ensures Notifiers(pool.jobs[|old(pool.jobs)|..]) <= {old(notifier)} - {notifier}
    {
      ghost var had := pool.jobs;
      PendingPosts();
      Consume();
      assert pool.jobs[|had|..] == old(Batched());
    }

    /** The batches as jobs. */
    ghost function Batched(): seq<Job>
      reads this`bder, this`notifier, bder, notifier
    {
      (if bder.audience == [] then [] else [Broadcasting(bder)]) + (if notifier.clis == [] then [] else [Notifying(notifier)])
    }

    lemma PendingPosts()
      ensures PostsOf(Batched()) == Pending()
    {
      EmptyAudience(bder.audience);
      EmptyAudience(notifier.clis);
      var a := if bder.audience == [] then [] else [Broadcasting(bder)];
      var b := if notifier.clis == [] then [] else [Notifying(notifier)];
      PostsConcat(a, b);
      assert PostsOf(a) == Broadcast(multiset(bder.audience), bder.msg);
      assert PostsOf(b) == Notify(multiset(notifier.clis), notifier.msg);
    }

    /** The pool was given new jobs that say this, none of which is a batch in use. */
    twostate predicate Grew(new posts: seq<Post<CClientPeer>>)
      reads this`bder, this`notifier, pool, Broadcasters(pool.jobs), Notifiers(pool.jobs)
    {
      && old(pool.jobs) <= pool.jobs
      && var js := pool.jobs[|old(pool.jobs)|..];
         && PostsOf(js) == posts
         && Broadcasters(js) <= {old(bder)} - {bder} && Notifiers(js) <= {old(notifier)} - {notifier}
    }

    /** Nothing in the hall has changed. */
    twostate lemma HallKept(cs: set<CClientPeer>)
      requires old(World(cs)) && unchanged(seed) && unchanged(cs`state)
      requires forall r :: r in rooms.Values ==> unchanged(r)
      requires forall s :: s in old(Sessions()) ==> unchanged(s)
      ensures World(cs) && Sessions() == old(Sessions()) && HallOf(cs) == old(HallOf(cs))
    {
      RoomsKept(cs);
      assert StatesOf(cs) == old(StatesOf(cs));
    }

    /** HandOver leaves the hall alone. */
    method Finish(ghost cs: set<CClientPeer>, ghost js: seq<Job>)
      requires World(cs) && Sendable()
      modifies this`bder, this`notifier, pool
      ensures PostsOf(js) == old(PostsOf(js))
      ensures World(cs) && Sessions() == old(Sessions()) && HallOf(cs) == old(HallOf(cs)) && Clean()
      ensures (bder == old(bder) || fresh(bder)) && (notifier == old(notifier) || fresh(notifier))
      ensures Grew(old(Pending()))
    {
      HandOver();
      HallKept(cs);
    }

    /** Jobs handed over twice in a row. */
    lemma JobsJoin(had: seq<Job>, mid: seq<Job>, jobs: seq<Job>, p: seq<Post<CClientPeer>>, q: seq<Post<CClientPeer>>)
      requires had <= mid <= jobs && PostsOf(mid[|had|..]) == p && PostsOf(jobs[|mid|..]) == q
      ensures had <= jobs && PostsOf(jobs[|had|..]) == p + q
      ensures Broadcasters(jobs[|had|..]) == Broadcasters(mid[|had|..]) + Broadcasters(jobs[|mid|..])
      ensures Notifiers(jobs[|had|..]) == Notifiers(mid[|had|..]) + Notifiers(jobs[|mid|..])
    {
      assert jobs[|had|..] == mid[|had|..] + jobs[|mid|..];
      PostsConcat(mid[|had|..], jobs[|mid|..]);
      assert forall j :: j in jobs[|had|..] <==> j in mid[|had|..] || j in jobs[|mid|..];
    }

    /** The jobs since `had` say this, and none is a batch in use. */
    ghost predicate Added(had: seq<Job>, posts: seq<Post<CClientPeer>>)
      reads this`bder, this`notifier, pool, Broadcasters(pool.jobs), Notifiers(pool.jobs)
    {
      && had <= pool.jobs && PostsOf(pool.jobs[|had|..]) == posts
      && bder !in Broadcasters(pool.jobs[|had|..]) && notifier !in Notifiers(pool.jobs[|had|..])
    }

    /** The end of a turn: the batches of a request that was served join its own jobs. */
    method FinishTurn(ret: int, ghost had: seq<Job>, ghost posts: seq<Post<CClientPeer>>, ghost cs: set<CClientPeer>)
      requires World(cs) && Sendable() && Added(had, posts)
      requires ret < 0 ==> Clean() && Pending() == []
      modifies this`bder, this`notifier, pool
      ensures World(cs) && Sessions() == old(Sessions()) && HallOf(cs) == old(HallOf(cs)) && Clean()
      ensures (bder == old(bder) || fresh(bder)) && (notifier == old(notifier) || fresh(notifier))
      ensures Added(had, posts + old(Pending()))
    {
      if ret >= 0 {
        ghost var mid, pending := pool.jobs, Pending();
        Finish(cs, mid[|had|..]);
        JobsJoin(had, mid, pool.jobs, posts, pending);
      } else {
        assert posts + [] == posts;
      }
    }

    /** A request past the check of the state, its batches handed over if it was served. */
    method Turn(req: L.Request, ghost cs: set<CClientPeer>) returns (ok: bool, ret: int)
      requires World(cs) && Clean()
      modifies this, cs`state, bder, notifier, seed, pool, rooms.Values, Sessions()
      ensures ok ==> World(cs) && Clean()
      ensures forall s :: s in Sessions() ==> s in old(Sessions()) || fresh(s)
      ensures (bder == old(bder) || fresh(bder)) && (notifier == old(notifier) || fresh(notifier))
      ensures var e := Serve(old(HallOf(cs)), old(Mine()), client, req, NameOf);
              && (ok <==> e.Served?)
              && (ok ==> ret == e.ret && HallOf(cs) == e.hall && Mine() == e.local && Added(old(pool.jobs), e.posts))
    {
      ghost var posts;
      ok, ret, posts := Handle(req, cs);
      if ok {
        FinishTurn(ret, old(pool.jobs), posts, cs);
      }
    }

    /** The batches in use at two moments: kept or new. */
    twostate predicate SameBatches()
      reads this`bder, this`notifier
    {
      (bder == old(bder) || fresh(bder)) && (notifier == old(notifier) || fresh(notifier))
    }

    /** A turn after others: their jobs stay as they are. */
    method NextTurn(req: L.Request, ghost had: seq<Job>, ghost done: seq<Post<CClientPeer>>, ghost cs: set<CClientPeer>)
      returns (ok: bool, ret: int)
      requires World(cs) && Clean() && Added(had, done)
      modifies this, cs`state, bder, notifier, seed, pool, rooms.Values, Sessions()
      ensures ok ==> World(cs) && Clean()
      ensures forall s :: s in Sessions() ==> s in old(Sessions()) || fresh(s)
      ensures SameBatches()
      ensures var e := Serve(old(HallOf(cs)), old(Mine()), client, req, NameOf);
              && (ok <==> e.Served?)
              && (ok ==> ret == e.ret && HallOf(cs) == e.hall && Mine() == e.local && Added(had, done + e.posts))
    {
      ghost var mid := pool.jobs;
      ghost var e := Serve(HallOf(cs), Mine(), client, req, NameOf);
      ok, ret := Turn(req, cs);
      PostsKept(mid[|had|..]);
      if ok {
        JobsJoin(had, mid, pool.jobs, done, e.posts);
      }
    }

    /** procMsgs is in the middle of its list: i requests are served, `done` is handed over,
        and what is left of `whole` is what serving the others makes of the hall as it is. */
    ghost predicate Midway(whole: Ending<CClientPeer>, i: nat, reqs: seq<L.Request>, had: seq<Job>,
                           done: seq<Post<CClientPeer>>, cs: set<CClientPeer>)
      reads this, bder, notifier, rooms.Values, Sessions(), cs`state, seed
      reads pool, Broadcasters(pool.jobs), Notifiers(pool.jobs)
    {
      && i <= |reqs| && World(cs) && Clean() && Added(had, done)
      && Remains(whole, i, done, ServeAll(HallOf(cs), Mine(), client, reqs[i..], NameOf))
    }

    /** It came to its end. */
    ghost predicate AtEnd(whole: Ending<CClientPeer>, i: nat, had: seq<Job>, cs: set<CClientPeer>)
      reads this, bder, notifier, rooms.Values, Sessions(), cs`state, seed
      reads pool, Broadcasters(pool.jobs), Notifiers(pool.jobs)
    {
      && World(cs) && Clean() && whole.Finished? && whole == Finished(i, HallOf(cs), Mine(), whole.posts)
      && Added(had, whole.posts)
    }

    lemma StopsHere(whole: Ending<CClientPeer>, i: nat, reqs: seq<L.Request>, had: seq<Job>,
                    done: seq<Post<CClientPeer>>, cs: set<CClientPeer>)
      requires Midway(whole, i, reqs, had, done, cs)
      requires i == |reqs| || !L.Allowed(reqs[i], client.state)
      ensures AtEnd(whole, i, had, cs)
    {
      assert done + [] == done;
    }

    /** Serves the i-th request: `ok` when no ASSERT failed, `more` when the list goes on. */
    method Advance(reqs: seq<L.Request>, i: nat, ghost whole: Ending<CClientPeer>, ghost had: seq<Job>,
                   ghost done: seq<Post<CClientPeer>>, ghost cs: set<CClientPeer>)
      returns (ok: bool, more: bool, ghost done': seq<Post<CClientPeer>>)
      requires Midway(whole, i, reqs, had, done, cs) && i < |reqs| && L.Allowed(reqs[i], client.state)
      modifies this, cs`state, bder, notifier, seed, pool, rooms.Values, Sessions()
      ensures forall s :: s in Sessions() ==> s in old(Sessions()) || fresh(s)
      ensures SameBatches()
      ensures !ok ==> whole.Halted?
      ensures ok && more ==> Midway(whole, i + 1, reqs, had, done', cs)
      ensures ok && !more ==> AtEnd(whole, i, had, cs)
    {
      OneServed(whole, i, done, HallOf(cs), Mine(), client, reqs[i..], NameOf);
      assert reqs[i..][1..] == reqs[i + 1..];
      done' := done + (if Serve(HallOf(cs), Mine(), client, reqs[i], NameOf).Served?
                       then Serve(HallOf(cs), Mine(), client, reqs[i], NameOf).posts else []);
      var ret;
      ok, ret := NextTurn(reqs[i], had, done, cs);
      more := ret >= 0;
    }

    /** procMsgs: `count` requests are served, the list ending at the first that the state does
        not allow or that fails; the pool has got the jobs of those served, in their order. */
    method ProcMsgs(reqs: seq<L.Request>, ghost cs: set<CClientPeer>) returns (ok: bool, count: nat)
      requires World(cs) && Clean()
      modifies this, cs`state, bder, notifier, seed, pool, rooms.Values, Sessions()
      ensures var o := ServeAll(old(HallOf(cs)), old(Mine()), client, reqs, NameOf);
              && (ok <==> o.Finished?)
              && (ok ==> AtEnd(o, count, old(pool.jobs), cs))
    {
      ghost var whole, had, done: seq<Post<CClientPeer>> := ServeAll(HallOf(cs), Mine(), client, reqs, NameOf), pool.jobs, [];
      ok, count := true, 0;
      while count < |reqs| && L.Allowed(reqs[count], client.state)
        invariant ok && Midway(whole, count, reqs, had, done, cs)
        invariant SameBatches() && forall s :: s in Sessions() ==> s in old(Sessions()) || fresh(s)
        decreases |reqs| - count
      {
        var more;
        ok, more, done := Advance(reqs, count, whole, had, done, cs);
        if !ok || !more {
          return;
        }
        count := count + 1;
      }
      StopsHere(whole, count, reqs, had, done, cs);
    }

    // ----- doWork's disconnect path: out of the session, out of the room, out of the list ----------------

    /** A part of it came to e. */
    ghost predicate Quitted(e: Effect<CClientPeer>, ok: bool, had: seq<Job>, done: seq<Post<CClientPeer>>, cs: set<CClientPeer>)
      reads this, bder, notifier, rooms.Values, Sessions(), cs`state, seed
      reads pool, Broadcasters(pool.jobs), Notifiers(pool.jobs)
    {
      && (ok <==> e.Served?)
      && (ok ==> World(cs) && Clean() && HallOf(cs) == e.hall && Mine() == e.local && Added(had, done + e.posts))
    }

    method QuitSession(ghost had: seq<Job>, ghost done: seq<Post<CClientPeer>>, ghost cs: set<CClientPeer>) returns (ok: bool)
      requires World(cs) && Clean() && Added(had, done)
      modifies this, cs`state, bder, notifier, seed, pool, rooms.Values, Sessions()
      ensures SameBatches() && forall s :: s in Sessions() ==> s in old(Sessions()) || fresh(s)
      ensures Quitted(CloseSession(old(HallOf(cs)), old(Mine()), client, client.uname), ok, had, done, cs)
    {
      ok := true;
      ghost var e := CloseSession(HallOf(cs), Mine(), client, client.uname);
      if sessionid > 0 {
        assert Mine().sessionid > 0 && e == Serve(HallOf(cs), Mine(), client, L.LeaveSession, NameOf);
        var ret;
        ok, ret := NextTurn(L.LeaveSession, had, done, cs);
        assert Quitted(e, ok, had, done, cs);
      } else {
        assert done + [] == done;
      }
    }

    method QuitRoom(ghost had: seq<Job>, ghost done: seq<Post<CClientPeer>>, ghost cs: set<CClientPeer>) returns (ok: bool)
      requires World(cs) && Clean() && Added(had, done)
      modifies this, cs`state, bder, notifier, seed, pool, rooms.Values, Sessions()
      ensures SameBatches() && forall s :: s in Sessions() ==> s in old(Sessions()) || fresh(s)
      ensures Quitted(CloseRoom(old(HallOf(cs)), old(Mine()), client, client.uname), ok, had, done, cs)
    {
      ok := true;
      ghost var e := CloseRoom(HallOf(cs), Mine(), client, client.uname);
      if roomid > 0 {
        assert Mine().roomid > 0 && e == Serve(HallOf(cs), Mine(), client, L.LeaveRoom, NameOf);
        var ret;
        ok, ret := NextTurn(L.LeaveRoom, had, done, cs);
        assert Quitted(e, ok, had, done, cs);
      } else {
        assert done + [] == done;
      }
    }

    method QuitBoth(ghost had: seq<Job>, ghost cs: set<CClientPeer>) returns (ok: bool)
      requires World(cs) && Clean() && Added(had, [])
      modifies this, cs`state, bder, notifier, seed, pool, rooms.Values, Sessions()
      ensures var e := CloseBoth(old(HallOf(cs)), old(Mine()), client, client.uname);
              Quitted(e, ok, had, [], cs)
    {
      ghost var e := CloseSession(HallOf(cs), Mine(), client, client.uname);
      ok := QuitSession(had, [], cs);
      if !ok {
        return;
      }
      assert [] + e.posts == e.posts;
      ok := QuitRoom(had, e.posts, cs);
    }

    /** Nobody has two places in a session. */
    ghost predicate SoundHall(cs: set<CClientPeer>)
      reads rooms.Values, Sessions(), cs`state, seed
    {
      forall rid :: rid in HallOf(cs).rooms ==> AllWellFormed(HallOf(cs).rooms[rid])
    }

    method CloseClient(dmgr: CDataMgr, ghost cs: set<CClientPeer>) returns (ok: bool)
      requires World(cs) && Clean()
      modifies this, cs`state, bder, notifier, seed, pool, rooms.Values, Sessions(), dmgr
      ensures var e := Close(old(HallOf(cs)), old(Mine()), client, client.uname);
              && (ok <==> e.Served?)
              && (ok ==> HallOf(cs) == e.hall && Mine() == e.local && Added(old(pool.jobs), e.posts) && Clean())
      ensures ok ==> dmgr.list == old(dmgr.list) - {client.uname}
    {
      ok := QuitBoth(pool.jobs, cs);
      if !ok {
        return;
      }
      Vanish(dmgr, old(pool.jobs), CloseBoth(old(HallOf(cs)), old(Mine()), client, client.uname).posts, cs);
    }

    /** The client is taken out of everything its fields say it is in, if its ASSERTs hold,
        and out of the client list; those concerned are told. Where nobody has two places in
        a session, the ASSERTs hold exactly for a client that is where its fields say, and it
        is nowhere afterwards. */
    method Disconnect(dmgr: CDataMgr, ghost cs: set<CClientPeer>) returns (ok: bool)
      requires World(cs) && Clean()
      modifies this, cs`state, bder, notifier, seed, pool, rooms.Values, Sessions(), dmgr
      ensures var e := Close(old(HallOf(cs)), old(Mine()), client, client.uname);
              && (ok <==> e.Served?)
              && (ok ==> HallOf(cs) == e.hall && Mine() == e.local && Added(old(pool.jobs), e.posts) && Clean())
      ensures ok ==> dmgr.list == old(dmgr.list) - {client.uname}
      ensures old(SoundHall(cs)) ==>
                && (ok <==> Found(old(HallOf(cs)), old(Mine()), client))
                && (ok ==> Disconnected(old(HallOf(cs)), HallOf(cs), old(Mine()), client))
    {
      if SoundHall(cs) {
        DisconnectedIsGone(HallOf(cs), Mine(), client, client.uname);
      }
      ok := CloseClient(dmgr, cs);
    }

    method SetOffline(ghost cs: set<CClientPeer>)
      requires World(cs)
      modifies client`state
      ensures HallOf(cs) == WithState(old(HallOf(cs)), client, Offline)
    {
      client.SetState(Offline, cs);
      RoomsKept(cs);
    }

    method Vanish(dmgr: CDataMgr, ghost had: seq<Job>, ghost posts: seq<Post<CClientPeer>>, ghost cs: set<CClientPeer>)
      requires World(cs) && Clean() && Added(had, posts)
      modifies client`state, dmgr
      ensures HallOf(cs) == WithState(old(HallOf(cs)), client, Offline) && Clean() && Added(had, posts)
      ensures dmgr.list == old(dmgr.list) - {client.uname}
    {
      dmgr.DelClient(client.uname);
      HallKept(cs);
      SetOffline(cs);
    }

    // ----- the start of a game reaches everyone -------------------------------------------------------

    /** Both notifiers run, in either order: the client's own, and that of the other members. */
    method RunBoth(own: CNotifier, rest: CNotifier, ghost members: set<CClientPeer>, ownFirst: bool)
      requires own.clis == [client] && multiset(rest.clis) == multiset(members - {client}) && client in members
      modifies members`inbox
      ensures forall x :: x in members ==> x.inbox == old(x.inbox) + [if x == client then own.msg else rest.msg]
    {
      if ownFirst {
        RunOnce(own, {client});
        RunOnce(rest, members - {client});
      } else {
        RunOnce(rest, members - {client});
        RunOnce(own, {client});
      }
    }

    lemma SelfJob(js: seq<Job>, m: Message)
      requires PostsOf(js) == [ToMembers(multiset{client}, [m])]
      ensures |js| == 1 && js[0].Notifying? && js[0].nt.clis == [client] && js[0].nt.msg == [m]
    {
      assert PostsOf(js)[0] == ToMembers(multiset{client}, [m]);
      assert js[0].Notifying?;
      var list := js[0].nt.clis;
      assert |multiset(list)| == |list| == 1;
      assert list[0] in multiset(list);
    }

    lemma ToldAll(s: Session<CClientPeer>)
      requires ToldReady(s, true) && WellFormed(s) && client in Players(s) && Rival(s, client).Some?
      requires bder.audience == []
      ensures notifier.clis != [] && multiset(notifier.clis) == multiset(Members(s) - {client})
      ensures notifier.msg == [BecameReady(client.uname), GameStart(s, NameOf)]
    {
      ReadyTells(s, client);
      var to := multiset(notifier.clis);
      assert Once(Rival(s, client))[Rival(s, client).value] == 1;
      EmptyAudience(notifier.clis);
      PendsToMembers();
      assert Notify(to, notifier.msg)[0] == ToMembers(to, ReadyWords(s, client, true, NameOf));
    }

    /** consumeBdsAndNotis with nobody to broadcast to. */
    method ConsumeNotifier(ghost cs: set<CClientPeer>) returns (rest: CNotifier)
      requires Sendable() && bder.audience == [] && notifier.clis != []
      modifies pool, this`bder, this`notifier
      ensures rest == old(notifier) && pool.jobs == old(pool.jobs) + [Notifying(rest)]
      ensures StatesOf(cs) == old(StatesOf(cs))
    {
      rest := notifier;
      Consume();
      assert pool.jobs == (old(pool.jobs) + []) + [Notifying(rest)];
    }

    /** doReady that starts a game, and what it hands to the pool: one notifier for the client
        alone and one for the other members. */
    method ReadyHandsOver(ghost cs: set<CClientPeer>) returns (own: CNotifier, rest: CNotifier)
      requires World(cs) && Clean()
      requires MySession().Some? && WellFormed(MySession().value) && client in Players(MySession().value)
      requires Starts(MySession().value, client, StatesOf(cs))
      modifies cs`state, notifier, pool, this`bder, this`notifier
      ensures StatesOf(cs) == AfterReady(old(MySession()).value, client, old(StatesOf(cs)))
      ensures pool.jobs == (old(pool.jobs) + [Notifying(own)]) + [Notifying(rest)]
      ensures var s := old(MySession()).value;
              && own.clis == [client] && own.msg == [GameStart(s, NameOf)]
              && multiset(rest.clis) == multiset(Members(s) - {client})
              && rest.msg == [BecameReady(client.uname), GameStart(s, NameOf)]
    {
      own := ReadyStarts(cs);
      rest := ConsumeNotifier(cs);
    }

    method ReadyStarts(ghost cs: set<CClientPeer>) returns (own: CNotifier)
      requires World(cs) && Clean()
      requires MySession().Some? && WellFormed(MySession().value) && client in Players(MySession().value)
      requires Starts(MySession().value, client, StatesOf(cs))
      modifies cs`state, notifier, pool
      ensures StatesOf(cs) == AfterReady(old(MySession()).value, client, old(StatesOf(cs)))
      ensures pool.jobs == old(pool.jobs) + [Notifying(own)]
      ensures Sendable() && bder.audience == [] && notifier.clis != []
      ensures var s := old(MySession()).value;
              && own.clis == [client] && own.msg == [GameStart(s, NameOf)]
              && multiset(notifier.clis) == multiset(Members(s) - {client})
              && notifier.msg == [BecameReady(client.uname), GameStart(s, NameOf)]
    {
      SeatsKnown(cs);
      ghost var s, had, started := MySession().value, pool.jobs, false;
      var ok;
      ok, started := DoReady(cs);
      ToldAll(s);
      ghost var js := pool.jobs[|had|..];
      SelfJob(js, GameStart(s, NameOf));
      assert pool.jobs == had + js && js == [js[0]];
      own := pool.jobs[|pool.jobs| - 1].nt;
    }

    /** A ready that starts a game: once the pool has run the two jobs, in either order, each
        member of the session has been told the start exactly once, the Moving client as red
        and the Pondering one as black, and the others first that the client is ready; no
        other inbox is touched. */
    method ReadyDelivered(ownFirst: bool, ghost cs: set<CClientPeer>)
      requires World(cs) && Clean()
      requires MySession().Some? && WellFormed(MySession().value) && client in Players(MySession().value)
      requires Starts(MySession().value, client, StatesOf(cs))
      modifies cs`state, notifier, pool, this`bder, this`notifier, Members(MySession().value)`inbox
      ensures var s := old(MySession()).value;
              forall x :: x in Members(s) ==>
                x.inbox == old(x.inbox) + [if x == client then [GameStart(s, NameOf)]
                                           else [BecameReady(client.uname), GameStart(s, NameOf)]]
    {
      ghost var members := Members(MySession().value);
      var own, rest := ReadyHandsOver(cs);
      RunBoth(own, rest, members, ownFirst);
    }
  }
}
