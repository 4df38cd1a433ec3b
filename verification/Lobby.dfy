/**
 The lobby: clients, rooms and sessions, which record membership twice, in the
 client's fields and in the sets of rooms and sessions. A handler is three steps:
 the check of the state mask, the locked call on the room or session, and the
 writing of the client's own fields; steps of different clients interleave freely.
 Creating a session takes more: the locked look at the user list, genid's load, its
 store and its second reading of the seed, none of them locked, and the locked
 insertion. A failed ASSERT ends the process.
 */
module Lobby {
  import opened Prelude
  import opened Session
  import opened Room

  type Name = string

  /** The messages whose handlers change nothing in the lobby; Unknown is any other tag. */
  datatype Plain = Hello | MyState | Logout | Move | Draw | GiveUp | ListRooms | ListSessions | SendMessage | Unknown

  /** The requests of the message table. */
  datatype Request =
    | EnterRoom(rid: int) | LeaveRoom | MakeSession | EnterSession(sid: int)
    | LeaveSession | WatchSession(sid: int) | MakeReady | Other(what: Plain)

  /** How far the client's thread is: nowhere; past the mask check; on the way through
      genid, with what it has read of the seed; past the locked call, about to write
      its fields. */
  datatype Pc =
    | Free | Checked(req: Request)
    | Making | Loaded(v: nat) | Bumped | Named(n: nat)
    | InRoom(rid: int) | OutOfRoom | Seated(sid: int) | Watcher(sid: int) | OutOfSession

  /** CClient's lobby fields; `closing` once doWork has taken the disconnect path. */
  datatype Client = Client(name: Name, state: PlayState, roomid: int, sessionid: int, pc: Pc, closing: bool)

  /** CDataMgr's maps with the seed of genid, which is kept unreduced here: the static
      is its remainder by 20000. `halted` after a failed ASSERT. */
  datatype Lobby = Lobby(
    clients: map<Cid, Client>, rooms: map<int, Room<Cid>>, names: map<Name, Cid>, seed: nat, halted: bool)

  datatype Event =
    | Login(c: Cid, name: Name)      // addClient
    | Ask(c: Cid, req: Request)      // checkstate
    | Call(c: Cid)                   // the locked call, or the next one of the disconnect path
    | Commit(c: Cid)                 // the writes of _state, _roomid, _sessionid
    | Hangup(c: Cid)                 // an I/O error

  predicate InSession(st: PlayState) { st == Sessional || st == Ready || st == Watching }

  /** The table of state masks. */
  predicate Allowed(req: Request, st: PlayState) {
    match req
    case EnterRoom(_) => st == Online
    case LeaveRoom => st == Idle
    case MakeSession => st == Idle
    case EnterSession(_) => st == Idle
    case WatchSession(_) => st == Idle
    case LeaveSession => InSession(st)
    case MakeReady => st == Sessional
    case Other(what) =>
      match what
      case Logout => st == Online
      case Move => st == Moving
      case Draw => st == Moving || st == Pondering
      case GiveUp => st == Moving || st == Pondering
      case ListSessions => st != Offline && st != Online
      case _ => st != Offline
  }

  function Halt(l: Lobby): Lobby { l.(halted := true) }

  function Put(l: Lobby, c: Cid, k: Client): Lobby { l.(clients := l.clients[c := k]) }

  function PutRoom(l: Lobby, rid: int, r: Room<Cid>): Lobby { l.(rooms := l.rooms[rid := r]) }

  function PutSession(l: Lobby, rid: int, sid: int, s: Session<Cid>): Lobby
    requires rid in l.rooms
  {
    PutRoom(l, rid, WithSession(l.rooms[rid], sid, s))
  }

  function DropSession(l: Lobby, rid: int, sid: int): Lobby
    requires rid in l.rooms
  {
    PutRoom(l, rid, WithoutSession(l.rooms[rid], sid))
  }

  /** The handler returned: with an error, or with nothing more to write. */
  function Done(l: Lobby, c: Cid): Lobby
    requires c in l.clients
  {
    Put(l, c, l.clients[c].(pc := Free))
  }

  function CallEnterRoom(l: Lobby, c: Cid, rid: int): Lobby
    requires c in l.clients
  {
    var k := l.clients[c];
    if k.state != Online || rid !in l.rooms then Done(l, c)
    else
      var (ok, r) := Admit(l.rooms[rid], c);
      if !ok then Done(l, c) else Put(PutRoom(l, rid, r), c, k.(pc := InRoom(rid)))
  }

  function CallLeaveRoom(l: Lobby, c: Cid): Lobby
    requires c in l.clients
  {
    var k := l.clients[c];
    if !(k.roomid > 0 && k.roomid in l.rooms) then Halt(l)
    else
      var (ok, r) := Dismiss(l.rooms[k.roomid], c);
      if !ok then Halt(l) else Put(PutRoom(l, k.roomid, r), c, k.(pc := OutOfRoom))
  }

  function CallMakeSession(l: Lobby, c: Cid): Lobby
    requires c in l.clients
  {
    var k := l.clients[c];
    if !(k.state == Idle && k.roomid > 0 && k.roomid in l.rooms && c in l.rooms[k.roomid].users) then Halt(l)
    else Put(l, c, k.(pc := Making))
  }

  /** The next piece of createSession: idseed is loaded, stored one up, read again for
      the id, and the session is inserted. */
  function CallMaking(l: Lobby, c: Cid): Lobby
    requires c in l.clients
  {
    var k := l.clients[c];
    match k.pc
    case Making => Put(l, c, k.(pc := Loaded(l.seed)))
    case Loaded(v) => Put(l, c, k.(pc := Bumped)).(seed := v + 1)
    case Bumped => Put(l, c, k.(pc := Named(l.seed)))
    case Named(n) =>
      if k.roomid !in l.rooms then Halt(l)
      else Put(PutSession(l, k.roomid, IdOf(n), NewSession(c, n)), c, k.(pc := Seated(IdOf(n))))
    case _ => l
  }

  function CallEnterSession(l: Lobby, c: Cid, sid: int): Lobby
    requires c in l.clients
  {
    var k := l.clients[c];
    if !(k.roomid > 0 && k.sessionid < 0 && k.roomid in l.rooms) then Halt(l)
    else
      var (ret, r) := EnterIn(l.rooms[k.roomid], sid, c);
      if ret < 0 then Done(l, c) else Put(PutRoom(l, k.roomid, r), c, k.(pc := Seated(sid)))
  }

  function CallWatchSession(l: Lobby, c: Cid, sid: int): Lobby
    requires c in l.clients
  {
    var k := l.clients[c];
    if !(k.roomid > 0 && k.sessionid < 0 && k.roomid in l.rooms) then Halt(l)
    else
      var (ret, r) := WatchIn(l.rooms[k.roomid], sid, c);
      if ret < 0 then Done(l, c) else Put(PutRoom(l, k.roomid, r), c, k.(pc := Watcher(sid)))
  }

  function CallLeaveSession(l: Lobby, c: Cid): Lobby
    requires c in l.clients
  {
    var k := l.clients[c];
    if !(k.roomid > 0 && k.sessionid > 0 && k.roomid in l.rooms) then Halt(l)
    else
      match LeaveIn(l.rooms[k.roomid], k.sessionid, c)
      case Fails => Halt(l)
      case Returns(_, r) => Put(PutRoom(l, k.roomid, r), c, k.(pc := OutOfSession))
  }

  function SetState(l: Lobby, c: Cid, st: PlayState): Lobby {
    if c in l.clients then Put(l, c, l.clients[c].(state := st)) else l
  }

  function SetSeat(l: Lobby, o: Option<Cid>, st: PlayState): Lobby {
    if o.Some? then SetState(l, o.value, st) else l
  }

  predicate RivalReady(l: Lobby, s: Session<Cid>, c: Cid) {
    var o := Rival(s, c);
    o.Some? && o.value in l.clients && l.clients[o.value].state == Ready
  }

  function CallMakeReady(l: Lobby, c: Cid): Lobby
    requires c in l.clients
  {
    var k := l.clients[c];
    if !(k.roomid > 0 && k.sessionid > 0 && k.roomid in l.rooms && k.sessionid in l.rooms[k.roomid].sessions) then Halt(l)
    else
      var s := l.rooms[k.roomid].sessions[k.sessionid];
      if c !in Players(s) then Halt(l)
      else
        var l1 := Put(l, c, k.(state := Ready, pc := Free));
        if RivalReady(l, s, c) then SetSeat(SetSeat(l1, Mover(s), Moving), Waiter(s), Pondering) else l1
  }

  /** Of the handlers that change nothing, doListSessions alone has ASSERTs. */
  function CallPlain(l: Lobby, c: Cid, what: Plain): Lobby
    requires c in l.clients
  {
    var k := l.clients[c];
    if what == ListSessions && !(k.roomid > 0 && k.roomid in l.rooms) then Halt(l) else Done(l, c)
  }

  function CallRequest(l: Lobby, c: Cid, req: Request): Lobby
    requires c in l.clients
  {
    match req
    case EnterRoom(rid) => CallEnterRoom(l, c, rid)
    case LeaveRoom => CallLeaveRoom(l, c)
    case MakeSession => CallMakeSession(l, c)
    case EnterSession(sid) => CallEnterSession(l, c, sid)
    case LeaveSession => CallLeaveSession(l, c)
    case WatchSession(sid) => CallWatchSession(l, c, sid)
    case MakeReady => CallMakeReady(l, c)
    case Other(what) => CallPlain(l, c, what)
  }

  /** delClient and the end of the client. */
  function Remove(l: Lobby, c: Cid): Lobby
    requires c in l.clients
  {
    l.(clients := l.clients - {c}, names := l.names - {l.clients[c].name})
  }

  /** The next call of doWork's disconnect path. */
  function CallClose(l: Lobby, c: Cid): Lobby
    requires c in l.clients
  {
    var k := l.clients[c];
    if k.sessionid > 0 then CallLeaveSession(l, c)
    else if k.roomid > 0 then CallLeaveRoom(l, c)
    else Remove(l, c)
  }

  /** The writes that follow a successful call. */
  function Written(k: Client): Client {
    match k.pc
    case Free => k
    case Checked(_) => k
    case Making => k
    case Loaded(_) => k
    case Bumped => k
    case Named(_) => k
    case InRoom(rid) => k.(state := Idle, roomid := rid, pc := Free)
    case OutOfRoom => k.(state := Online, roomid := -1, pc := Free)
    case Seated(sid) => k.(state := Sessional, sessionid := sid, pc := Free)
    case Watcher(sid) => k.(state := Watching, sessionid := sid, pc := Free)
    case OutOfSession => k.(state := Idle, sessionid := -1, pc := Free)
  }

  function Next(l: Lobby, ev: Event): Lobby {
    if l.halted then l
    else
      match ev
      case Login(c, name) =>
        if c in l.clients || name in l.names then l
        else l.(clients := l.clients[c := Client(name, Online, -1, -1, Free, false)], names := l.names[name := c])
      case Ask(c, req) =>
        if c in l.clients && l.clients[c].pc.Free? && !l.clients[c].closing && Allowed(req, l.clients[c].state)
        then Put(l, c, l.clients[c].(pc := Checked(req)))
        else l
      case Call(c) =>
        if c !in l.clients then l
        else if l.clients[c].pc.Checked? then CallRequest(l, c, l.clients[c].pc.req)
        else if l.clients[c].pc.Free? && l.clients[c].closing then CallClose(l, c)
        else CallMaking(l, c)
      case Commit(c) => if c in l.clients then Put(l, c, Written(l.clients[c])) else l
      case Hangup(c) =>
        if c in l.clients && l.clients[c].pc.Free? then Put(l, c, l.clients[c].(closing := true)) else l
  }

  function Run(l: Lobby, es: seq<Event>): Lobby
    decreases |es|
  {
    if es == [] then l else Run(Next(l, es[0]), es[1..])
  }

  /** CDataMgr::create: empty rooms with positive ids. */
  predicate Opening(l: Lobby) {
    && l.clients == map[] && l.names == map[] && l.seed == 0 && !l.halted
    && forall rid :: rid in l.rooms ==> rid > 0 && l.rooms[rid].users == {} && l.rooms[rid].sessions == map[]
  }

  // ----- where a client is ------------------------------------------------------------------

  /** The room whose user list has the client: the field, or what it is about to become. */
  function RoomOf(k: Client): int {
    match k.pc
    case InRoom(rid) => rid
    case OutOfRoom => -1
    case _ => k.roomid
  }

  function SessionOf(k: Client): int {
    match k.pc
    case Seated(sid) => sid
    case Watcher(sid) => sid
    case OutOfSession => -1
    case _ => k.sessionid
  }

  predicate Plays(k: Client) {
    match k.pc
    case Seated(_) => true
    case Watcher(_) => false
    case OutOfSession => false
    case _ => k.state == Sessional || k.state == Ready || k.state == Moving || k.state == Pondering
  }

  predicate Watches(k: Client) {
    match k.pc
    case Seated(_) => false
    case Watcher(_) => true
    case OutOfSession => false
    case _ => k.state == Watching
  }

  /** A client's fields and program counter fit together. */
  predicate ClientOk(k: Client) {
    && k.state != Offline
    && (k.state == Online ==> k.roomid == -1 && k.sessionid == -1)
    && (k.state == Idle ==> k.roomid > 0 && k.sessionid == -1)
    && (k.state != Online && k.state != Idle ==> k.roomid > 0 && k.sessionid > 0)
    && match k.pc
       case Free => true
       case Checked(req) => !k.closing && (Allowed(req, k.state) || (req.LeaveSession? && k.sessionid > 0))
       case Making => k.state == Idle && !k.closing
       case Loaded(_) => k.state == Idle && !k.closing
       case Bumped => k.state == Idle && !k.closing
       case Named(_) => k.state == Idle && !k.closing
       case InRoom(rid) => k.state == Online && rid > 0
       case OutOfRoom => k.state == Idle
       case Seated(sid) => k.state == Idle && sid > 0
       case Watcher(sid) => k.state == Idle && sid > 0
       case OutOfSession => k.sessionid > 0
  }

  // ----- the invariant ------------------------------------------------------------------------

  /** The session stored under an id in a room. */
  function At(rooms: map<int, Room<Cid>>, rid: int, sid: int): Option<Session<Cid>> {
    if rid in rooms && sid in rooms[rid].sessions then Some(rooms[rid].sessions[sid]) else None
  }

  /** Room users are clients that are in the room, and there are not too many. */
  ghost predicate RoomAt(l: Lobby, rid: int) {
    rid in l.rooms ==>
      && rid > 0 && |l.rooms[rid].users| <= l.rooms[rid].capacity
      && forall c :: c in l.rooms[rid].users ==> c in l.clients && RoomOf(l.clients[c]) == rid
  }

  /** A client's fields fit, and the room it is in lists it. */
  ghost predicate ClientAt(l: Lobby, c: Cid) {
    c in l.clients ==>
      && ClientOk(l.clients[c])
      && (RoomOf(l.clients[c]) > 0 ==> RoomOf(l.clients[c]) in l.rooms && c in l.rooms[RoomOf(l.clients[c])].users)
  }

  ghost predicate UsersOk(l: Lobby) {
    (forall rid :: RoomAt(l, rid)) && (forall c :: ClientAt(l, c))
  }

  /** A member of a session knows where it is and what it does there. */
  predicate MemberOk(cs: map<Cid, Client>, rid: int, sid: int, s: Session<Cid>, c: Cid) {
    && c in cs && RoomOf(cs[c]) == rid && SessionOf(cs[c]) == sid
    && (c in Players(s) ==> Plays(cs[c]))
    && (c in s.watchers ==> Watches(cs[c]))
  }

  ghost predicate SessionOk(cs: map<Cid, Client>, rid: int, sid: int, s: Session<Cid>) {
    && WellFormed(s) && Members(s) != {}
    && sid == IdOf(s.birth)
    && forall c :: c in Members(s) ==> MemberOk(cs, rid, sid, s, c)
  }

  ghost predicate SessionAt(l: Lobby, rid: int, sid: int) {
    At(l.rooms, rid, sid).Some? ==> SessionOk(l.clients, rid, sid, At(l.rooms, rid, sid).value)
  }

  ghost predicate SessionsOk(l: Lobby) { forall rid, sid :: SessionAt(l, rid, sid) }

  /** The client list names exactly the clients. */
  ghost predicate NamesOk(l: Lobby) {
    && (forall n :: n in l.names ==> l.names[n] in l.clients && l.clients[l.names[n]].name == n)
    && (forall c :: c in l.clients ==> l.clients[c].name in l.names && l.names[l.clients[c].name] == c)
  }

  function StateOf(cs: map<Cid, Client>, o: Option<Cid>): Option<PlayState> {
    if o.Some? && o.value in cs then Some(cs[o.value].state) else None
  }

  /** The two seats are never in the same stage of a game. */
  predicate SeatsOk(cs: map<Cid, Client>, s: Session<Cid>) {
    var a, b := StateOf(cs, s.owner), StateOf(cs, s.opponent);
    a.Some? && a == b ==> a.value != Ready && a.value != Moving && a.value != Pondering
  }

  ghost predicate GameAt(l: Lobby, rid: int, sid: int) {
    At(l.rooms, rid, sid).Some? ==> SeatsOk(l.clients, At(l.rooms, rid, sid).value)
  }

  ghost predicate GamesOk(l: Lobby) { forall rid, sid :: GameAt(l, rid, sid) }

  ghost predicate Inv(l: Lobby) { UsersOk(l) && SessionsOk(l) && NamesOk(l) && GamesOk(l) }
}
