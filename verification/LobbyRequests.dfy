/**
 What a request does for the client that makes it: in which states it is let through, and
 where the client stands once its thread has taken the steps of the handler.
 */
module LobbyRequests {
  import opened Prelude
  import opened Session
  import opened Serving
  import opened Lobby
  import opened LobbySteps
  import opened LobbyRuns
  import opened LobbyHandled
  import opened ServingRuns

  // ----- the state masks ------------------------------------------------------------------------

  const ALL: set<PlayState> := {Online, Idle, Sessional, Ready, Watching, Moving, Pondering}

  /** The states in which a request is let through. */
  function Mask(req: Request): set<PlayState> {
    match req
    case EnterRoom(_) => {Online}
    case LeaveRoom => {Idle}
    case MakeSession => {Idle}
    case EnterSession(_) => {Idle}
    case LeaveSession => {Sessional, Ready, Watching}
    case WatchSession(_) => {Idle}
    case MakeReady => {Sessional}
    case Other(Hello) => ALL
    case Other(MyState) => ALL
    case Other(Logout) => {Online}
    case Other(Move) => {Moving}
    case Other(Draw) => {Moving, Pondering}
    case Other(GiveUp) => {Moving, Pondering}
    case Other(ListRooms) => ALL
    case Other(ListSessions) => {Idle, Sessional, Ready, Watching, Moving, Pondering}
    case Other(SendMessage) => ALL
    case Other(Unknown) => ALL
  }

  /** CClient::state_t's numbers and the table's masks, which checkstate ands. */
  function Code(st: PlayState): bv8 {
    match st
    case Offline => 0
    case Online => 0x01
    case Idle => 0x02
    case Sessional => 0x04
    case Ready => 0x08
    case Watching => 0x10
    case Moving => 0x20
    case Pondering => 0x40
  }

  const CONNECTED: bv8 := 0x01 | 0x02 | 0x04 | 0x08 | 0x10 | 0x20 | 0x40
  const IN_ROOM: bv8 := 0x02 | 0x04 | 0x08 | 0x10 | 0x20 | 0x40
  const IN_SESSION: bv8 := 0x04 | 0x08 | 0x10
  const PLAYING: bv8 := 0x20 | 0x40

  function Vstate(req: Request): bv8 {
    match req
    case EnterRoom(_) => 0x01
    case LeaveRoom => 0x02
    case MakeSession => 0x02
    case EnterSession(_) => 0x02
    case LeaveSession => IN_SESSION
    case WatchSession(_) => 0x02
    case MakeReady => 0x04
    case Other(Hello) => CONNECTED
    case Other(MyState) => CONNECTED
    case Other(Logout) => 0x01
    case Other(Move) => 0x20
    case Other(Draw) => PLAYING
    case Other(GiveUp) => PLAYING
    case Other(ListRooms) => CONNECTED
    case Other(ListSessions) => IN_ROOM
    case Other(SendMessage) => CONNECTED
    case Other(Unknown) => CONNECTED
  }

  lemma MaskIsVstate(req: Request, st: PlayState)
    ensures Code(st) & Vstate(req) != 0 <==> st in Mask(req)
  {
  }

  lemma LetThroughIff(req: Request, st: PlayState)
    ensures Allowed(req, st) <==> Code(st) & Vstate(req) != 0
  {
    MaskIsVstate(req, st);
  }

  /** What a list of one request that is dispatched comes to. */
  function Alone<C(==)>(e: Effect<C>): Ending<C> {
    match e
    case Crash => Halted
    case Served(ret, h, f, posts) => Finished(if ret < 0 then 0 else 1, h, f, posts)
  }

  /** A request alone is dispatched - served, refused by its handler, or the end of the
      process - exactly when the table's mask has the client's state; otherwise the list
      ends with nothing done. */
  lemma DispatchedExactly<C>(h: Hall<C>, f: Local, c: C, req: Request, who: C -> string)
    requires Known(h) && c in h.states
    ensures ServeAll(h, f, c, [req], who) ==
            if Code(h.states[c]) & Vstate(req) != 0 then Alone(Serve(h, f, c, req, who)) else Finished(0, h, f, [])
  {
    LetThroughIff(req, h.states[c]);
    ServeKnown(h, f, c, req, who);
    var e := Serve(h, f, c, req, who);
    if e.Served? {
      NoneLeft(e.hall, e.local, c, [req], who);
      assert e.posts + [] == e.posts;
    }
  }

  lemma NoneLeft<C>(h: Hall<C>, f: Local, c: C, reqs: seq<Request>, who: C -> string)
    requires Known(h) && c in h.states && |reqs| == 1
    ensures ServeAll(h, f, c, reqs[1..], who) == Finished(0, h, f, [])
  {
  }

  /** In the lobby the mask is checked by Ask, and a request that is not let through leaves
      everything as it is. */
  lemma AskedExactly(l: Lobby, c: Cid, req: Request)
    requires Between(l, c)
    ensures Code(l.clients[c].state) & Vstate(req) != 0 ==>
              Next(l, Ask(c, req)) == Put(l, c, l.clients[c].(pc := Checked(req)))
    ensures Code(l.clients[c].state) & Vstate(req) == 0 ==> Run(l, Handled(c, req)) == l
  {
    LetThroughIff(req, l.clients[c].state);
    if !Allowed(req, l.clients[c].state) {
      RefusedRun(l, c, req);
    }
  }

  lemma RefusedRun(l: Lobby, c: Cid, req: Request)
    requires Between(l, c) && !Allowed(req, l.clients[c].state)
    ensures Run(l, Handled(c, req)) == l
  {
    HandledRun(l, c, req);
    assert Next(l, Ask(c, req)) == l;
    assert Next(l, Call(c)) == l;
    PutBack(l, c);
  }

  // ----- where the client stands afterwards ---------------------------------------------------------

  /** The steps of the client's thread, by what they leave. */
  lemma Taken(l: Lobby, c: Cid, req: Request) returns (l': Lobby, e: Effect<Cid>)
    requires Inv(l) && Between(l, c) && l.clients[c].state in Mask(req)
    ensures l' == Run(l, Whole(c, req)) && Inv(l') && e == Serve(HallIn(l), FieldsOf(l, c), c, req, m => "")
    ensures l'.halted <==> e.Crash?
    ensures e.Served? ==>
              && Between(l', c) && l'.rooms == e.hall.rooms && FieldsOf(l', c) == e.local
              && c in e.hall.states && l'.clients[c].state == e.hall.states[c]
  {
    LetThroughIff(req, l.clients[c].state);
    MaskIsVstate(req, l.clients[c].state);
    ServeIsRun(l, c, req, m => "");
    RunInv(l, Whole(c, req));
    l', e := Run(l, Whole(c, req)), Serve(HallIn(l), FieldsOf(l, c), c, req, m => "");
    StatesThere(l', c);
  }

  lemma StatesThere(l: Lobby, c: Cid)
    ensures c in l.clients ==> c in StatesIn(l.clients) && StatesIn(l.clients)[c] == l.clients[c].state
  {
  }

  /** An idle client's fields and its room. */
  lemma IdleThere(l: Lobby, c: Cid)
    requires Inv(l) && Between(l, c) && l.clients[c].state == Idle
    ensures var rid := l.clients[c].roomid;
            rid > 0 && l.clients[c].sessionid == -1 && rid in l.rooms && c in l.rooms[rid].users
  {
    assert ClientAt(l, c);
  }

  /** An online client is let into a room that exists and is not full. */
  lemma EnterRoomDone(l: Lobby, c: Cid, rid: int)
    requires Inv(l) && Between(l, c) && l.clients[c].state == Online
    ensures var l' := Run(l, Handled(c, EnterRoom(rid)));
            && Between(l', c)
            && if rid in l.rooms && |l.rooms[rid].users| < l.rooms[rid].capacity then
                 && l'.clients[c].state == Idle && FieldsOf(l', c) == Local(rid, -1)
                 && l'.rooms == l.rooms[rid := l.rooms[rid].(users := l.rooms[rid].users + {c})]
               else l'.rooms == l.rooms && l'.clients[c].state == Online && FieldsOf(l', c) == FieldsOf(l, c)
  {
    assert ClientAt(l, c) && RoomAt(l, rid);
    var l', e := Taken(l, c, EnterRoom(rid));
  }

  /** An idle client that leaves its room is out of it. */
  lemma LeaveRoomDone(l: Lobby, c: Cid)
    requires Inv(l) && Between(l, c) && l.clients[c].state == Idle
    ensures var l', rid := Run(l, Handled(c, LeaveRoom)), l.clients[c].roomid;
            && Between(l', c) && l'.clients[c].state == Online && FieldsOf(l', c) == Local(-1, -1)
            && rid in l.rooms && c in l.rooms[rid].users
            && l'.rooms == l.rooms[rid := l.rooms[rid].(users := l.rooms[rid].users - {c})]
  {
    IdleThere(l, c);
    var l', e := Taken(l, c, LeaveRoom);
  }

  /** An idle client that makes a session sits alone in it, in the owner's seat. */
  lemma MakeSessionDone(l: Lobby, c: Cid)
    requires Inv(l) && Between(l, c) && l.clients[c].state == Idle
    ensures var l', rid, sid := Run(l, Made(c)), l.clients[c].roomid, (l.seed + 1) % 20000 + 1;
            && Between(l', c) && l'.clients[c].state == Sessional && FieldsOf(l', c) == Local(rid, sid)
            && rid in l.rooms && l'.rooms == l.rooms[rid := l.rooms[rid].(
                 sessions := l.rooms[rid].sessions[sid := Session(Some(c), None, {}, 0, 200, l.seed + 1)])]
  {
    IdleThere(l, c);
    MakeServed(HallIn(l), FieldsOf(l, c), c);
    var l', e := SessionMade(l, c);
  }

  lemma SessionMade(l: Lobby, c: Cid) returns (l': Lobby, e: Effect<Cid>)
    requires Inv(l) && Between(l, c) && l.clients[c].state == Idle
    ensures l' == Run(l, Made(c)) && e == ServeMakeSession(HallIn(l), FieldsOf(l, c), c, l.seed + 1)
    ensures e.Served? ==>
              && Between(l', c) && l'.rooms == e.hall.rooms && FieldsOf(l', c) == e.local
              && c in e.hall.states && l'.clients[c].state == e.hall.states[c]
  {
    l', e := Taken(l, c, MakeSession);
  }

  lemma MakeServed(h: Hall<Cid>, f: Local, c: Cid)
    requires c in h.states && h.states[c] == Idle && f.roomid > 0 && f.roomid in h.rooms && c in h.rooms[f.roomid].users
    ensures var e, r, sid := ServeMakeSession(h, f, c, h.seed + 1), h.rooms[f.roomid], (h.seed + 1) % 20000 + 1;
            && e.Served? && e.local == f.(sessionid := sid) && e.hall.states == h.states[c := Sessional]
            && e.hall.rooms == h.rooms[f.roomid := r.(
                 sessions := r.sessions[sid := Session(Some(c), None, {}, 0, 200, h.seed + 1)])]
  {
  }

  /** An idle client that enters a session of its room takes the free seat, if one is
      taken; a session without players keeps it outside. */
  lemma EnterSessionDone(l: Lobby, c: Cid, sid: int, s: Session<Cid>)
    requires Inv(l) && Between(l, c) && l.clients[c].state == Idle && At(l.rooms, l.clients[c].roomid, sid) == Some(s)
    ensures var l', rid := Run(l, Handled(c, EnterSession(sid))), l.clients[c].roomid;
            && Between(l', c)
            && (s.owner.Some? && s.opponent.Some? ==>
                  l'.rooms == l.rooms && l'.clients[c].state == Idle && FieldsOf(l', c) == FieldsOf(l, c))
            && (s.owner.None? || s.opponent.None? ==>
                  l'.clients[c].state == Sessional && FieldsOf(l', c) == Local(rid, sid) &&
                  At(l'.rooms, rid, sid) == Some(
                    if s.owner.Some? then s.(opponent := Some(c))
                    else if s.opponent.Some? then s.(owner := Some(c)) else s))
  {
    IdleThere(l, c);
    var l', e := Taken(l, c, EnterSession(sid));
  }

  lemma WatchSessionDone(l: Lobby, c: Cid, sid: int, s: Session<Cid>)
    requires Inv(l) && Between(l, c) && l.clients[c].state == Idle && At(l.rooms, l.clients[c].roomid, sid) == Some(s)
    ensures var l', rid := Run(l, Handled(c, WatchSession(sid))), l.clients[c].roomid;
            && Between(l', c)
            && if |s.watchers| < s.watcherCount then
                 && l'.clients[c].state == Watching && FieldsOf(l', c) == Local(rid, sid)
                 && At(l'.rooms, rid, sid) == Some(s.(watchers := s.watchers + {c}))
               else l'.rooms == l.rooms && l'.clients[c].state == Idle && FieldsOf(l', c) == FieldsOf(l, c)
  {
    IdleThere(l, c);
    var l', e := Taken(l, c, WatchSession(sid));
  }

  /** There is no such session. */
  lemma NoSessionDone(l: Lobby, c: Cid, sid: int, req: Request)
    requires Inv(l) && Between(l, c) && l.clients[c].state == Idle && At(l.rooms, l.clients[c].roomid, sid).None?
    requires req == EnterSession(sid) || req == WatchSession(sid)
    ensures var l' := Run(l, Handled(c, req));
            Between(l', c) && l'.rooms == l.rooms && l'.clients[c].state == Idle && FieldsOf(l', c) == FieldsOf(l, c)
  {
    IdleThere(l, c);
    var l', e := Taken(l, c, req);
  }

  /** A player that has not begun to play, or a watcher, whose session knows it and that asks
      to leave is out of it: idle in its room, and a participant nowhere. The others stay
      where they are, and the session goes with its last member. */
  lemma LeaveSessionDone(l: Lobby, c: Cid, s: Session<Cid>)
    requires Inv(l) && Between(l, c) && l.clients[c].state in {Sessional, Ready, Watching}
    requires At(l.rooms, l.clients[c].roomid, l.clients[c].sessionid) == Some(s) && c in Members(s)
    ensures var l', rid, sid := Run(l, Handled(c, LeaveSession)), l.clients[c].roomid, l.clients[c].sessionid;
            && Between(l', c) && l'.clients[c].state == Idle && FieldsOf(l', c) == Local(rid, -1)
            && rid in l'.rooms && l'.rooms[rid].users == l.rooms[rid].users && c in l'.rooms[rid].users
            && (forall r, i :: !In(l', r, i, c))
            && (Members(s) == {c} ==> At(l'.rooms, rid, sid).None?)
            && (Members(s) != {c} ==> At(l'.rooms, rid, sid).Some? && Members(At(l'.rooms, rid, sid).value) == Members(s) - {c})
  {
    assert ClientAt(l, c) && SessionAt(l, l.clients[c].roomid, l.clients[c].sessionid);
    LeaveServed(HallIn(l), FieldsOf(l, c), c, s);
    var l', e := Taken(l, c, LeaveSession);
    NowhereAfter(l', c);
  }

  /** What leaving makes of the room. */
  lemma LeaveServed(h: Hall<Cid>, f: Local, c: Cid, s: Session<Cid>)
    requires Serving.Joined(h, f) == Some(s) && WellFormed(s) && c in Members(s)
    ensures var e, r := ServeLeaveSession(h, f, c, ""), h.rooms[f.roomid];
            && e.Served? && e.local == Local(f.roomid, -1) && e.hall.states == h.states[c := Idle]
            && e.hall.rooms == h.rooms[f.roomid := r.(sessions := e.hall.rooms[f.roomid].sessions)]
            && (Members(s) == {c} ==> e.hall.rooms[f.roomid].sessions == r.sessions - {f.sessionid})
            && (Members(s) != {c} ==>
                  && f.sessionid in e.hall.rooms[f.roomid].sessions
                  && Members(e.hall.rooms[f.roomid].sessions[f.sessionid]) == Members(s) - {c})
  {
    LastOut(s, c);
  }

  lemma LastOut(s: Session<Cid>, c: Cid)
    requires WellFormed(s) && c in Members(s)
    ensures var (ret, t) := Leave(s, c); ret >= 0 && Members(t) == Members(s) - {c} && (ret == 0 <==> Members(s) == {c})
  {
    LeaveRemoves(s, c);
    if Members(s) == {c} {
      assert Members(s) - {c} == {};
    } else {
      var m :| m in Members(s) && m != c;
      assert m in Members(s) - {c};
    }
  }

  lemma NowhereAfter(l: Lobby, c: Cid)
    requires Inv(l) && c in l.clients && l.clients[c].pc.Free? && l.clients[c].sessionid < 0
    ensures forall r, i :: !In(l, r, i, c)
  {
    forall r, i ensures !In(l, r, i, c) {
      if At(l.rooms, r, i).Some? {
        IdPositive(l, r, i);
        Stranger(l, r, i, c);
      }
    }
  }

  /** A player that gets ready is ready, or in the game if that made the game start. */
  lemma MakeReadyDone(l: Lobby, c: Cid, s: Session<Cid>)
    requires Inv(l) && Between(l, c) && l.clients[c].state == Sessional
    requires At(l.rooms, l.clients[c].roomid, l.clients[c].sessionid) == Some(s) && c in Members(s)
    ensures var l' := Run(l, Handled(c, MakeReady));
            && Between(l', c) && l'.rooms == l.rooms && FieldsOf(l', c) == FieldsOf(l, c)
            && l'.clients[c].state in {Ready, Moving, Pondering}
            && (l'.clients[c].state == Ready <==> !RivalReady(l, s, c))
  {
    var k := l.clients[c];
    assert ClientAt(l, c);
    MembersThere(l, k.roomid, k.sessionid, s);
    SessionalPlays(l, c, s);
    ReadyServed(l, c, s);
    var l', e := Taken(l, c, MakeReady);
  }

  lemma MembersThere(l: Lobby, rid: int, sid: int, s: Session<Cid>)
    requires Inv(l) && At(l.rooms, rid, sid) == Some(s)
    ensures WellFormed(s) && forall m :: m in Members(s) ==> m in l.clients && MemberOk(l.clients, rid, sid, s, m)
  {
    assert SessionAt(l, rid, sid);
    forall m | m in Members(s) ensures MemberOk(l.clients, rid, sid, s, m) {
    }
  }

  /** A member that is not watching plays. */
  lemma SessionalPlays(l: Lobby, c: Cid, s: Session<Cid>)
    requires Between(l, c) && l.clients[c].state == Sessional && c in Members(s)
    requires MemberOk(l.clients, l.clients[c].roomid, l.clients[c].sessionid, s, c)
    ensures c in Players(s)
  {
  }

  lemma ReadyServed(l: Lobby, c: Cid, s: Session<Cid>)
    requires c in l.clients && Serving.Joined(HallIn(l), FieldsOf(l, c)) == Some(s) && WellFormed(s) && c in Players(s)
    requires forall m :: m in Players(s) ==> m in l.clients
    ensures var e := ServeReady(HallIn(l), FieldsOf(l, c), c, m => "");
            && e.Served? && e.hall.rooms == l.rooms && e.local == FieldsOf(l, c) && c in e.hall.states
            && (e.hall.states[c] == Ready <==> !RivalReady(l, s, c))
            && e.hall.states[c] in {Ready, Moving, Pondering}
  {
    AfterReadyIs(l.clients, s, c);
  }

  /** A client whose name is free comes in online and in no room; a taken name, or a client
      that is there already, changes nothing. */
  lemma LoginDone(l: Lobby, c: Cid, name: Name)
    requires !l.halted
    ensures var l' := Next(l, Login(c, name));
            if c in l.clients || name in l.names then l' == l
            else
              && Between(l', c) && l'.clients[c].name == name && l'.clients[c].state == Online
              && FieldsOf(l', c) == Local(-1, -1) && l'.names == l.names[name := c]
              && l'.rooms == l.rooms && l'.seed == l.seed && l'.clients - {c} == l.clients
  {
    if c !in l.clients && name !in l.names {
      assert Next(l, Login(c, name)).clients - {c} == l.clients;
    }
  }

  /** An I/O error puts a client that is between two requests on its way out, which it is
      then no more than five steps from. */
  lemma HangupDone(l: Lobby, c: Cid)
    requires Between(l, c)
    ensures var l' := Next(l, Hangup(c));
            && l'.rooms == l.rooms && l'.names == l.names && l'.clients.Keys == l.clients.Keys
            && OnItsWay(l'.clients[c]) && Distance(l'.clients[c]) <= 5
            && (forall d :: d in l.clients && d != c ==> l'.clients[d] == l.clients[d])
  {
  }
}
