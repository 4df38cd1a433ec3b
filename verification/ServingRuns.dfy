/**
 Serving is the lobby undisturbed: a request, and a list of them, do on values what the
 steps of the client's thread do to the lobby when no other thread comes in between.
 */
module ServingRuns {
  import opened Prelude
  import opened Session
  import opened Room
  import opened Serving
  import opened Lobby
  import opened LobbySteps
  import opened LobbyHandled

  function StatesIn(cs: map<Cid, Client>): map<Cid, PlayState> { map c | c in cs :: cs[c].state }

  function HallIn(l: Lobby): Hall<Cid> { Hall(l.rooms, StatesIn(l.clients), l.seed) }

  function FieldsOf(l: Lobby, c: Cid): Local
    requires c in l.clients
  {
    Local(l.clients[c].roomid, l.clients[c].sessionid)
  }

  /** The client is between two requests. */
  predicate Between(l: Lobby, c: Cid) {
    !l.halted && c in l.clients && l.clients[c].pc.Free? && !l.clients[c].closing
  }

  function Whole(c: Cid, req: Request): seq<Event> { if req.MakeSession? then Made(c) else Handled(c, req) }

  /** The lobby after a request is what e says. */
  ghost predicate CameAs(l': Lobby, c: Cid, e: Effect<Cid>) {
    && (l'.halted <==> e.Crash?)
    && (e.Served? ==> Between(l', c) && HallIn(l') == e.hall && FieldsOf(l', c) == e.local)
  }

  lemma StatesPut(cs: map<Cid, Client>, c: Cid, k: Client)
    ensures StatesIn(cs[c := k]) == StatesIn(cs)[c := k.state]
  {
  }

  /** The client's last write, after which it is free again. */
  lemma PutCame(l: Lobby, c: Cid, rid: int, r: Room<Cid>, k: Client)
    requires Between(l, c) && k.pc.Free? && !k.closing
    ensures var l' := Put(PutRoom(l, rid, r), c, k);
            && Between(l', c) && FieldsOf(l', c) == Local(k.roomid, k.sessionid)
            && HallIn(l') == WithState(WithRoom(HallIn(l), rid, r), c, k.state)
  {
    StatesPut(l.clients, c, k);
  }

  lemma PutBack(l: Lobby, c: Cid)
    requires c in l.clients
    ensures Put(l, c, l.clients[c]) == l
  {
    assert l.clients[c := l.clients[c]] == l.clients;
  }

  /** A handler whose call writes nothing has done nothing. */
  lemma DoneRun(l: Lobby, c: Cid, req: Request)
    requires Between(l, c) && Allowed(req, l.clients[c].state)
    requires var l1 := Put(l, c, l.clients[c].(pc := Checked(req))); CallRequest(l1, c, req) == Done(l1, c)
    ensures Run(l, Handled(c, req)) == l
  {
    var k := l.clients[c];
    var l1 := Put(l, c, k.(pc := Checked(req)));
    HandledRun(l, c, req);
    assert Next(l, Ask(c, req)) == l1;
    Overwritten(l.clients, c, k, k.(pc := Checked(req)), k);
    PutBack(l, c);
    assert Next(l1, Call(c)) == l;
    assert Next(l, Commit(c)) == Put(l, c, Written(k));
  }

  /** A failed ASSERT. */
  lemma HaltRun(l: Lobby, c: Cid, req: Request)
    requires Between(l, c) && Allowed(req, l.clients[c].state)
    requires var l1 := Put(l, c, l.clients[c].(pc := Checked(req))); CallRequest(l1, c, req) == Halt(l1)
    ensures Run(l, Handled(c, req)).halted
  {
    HandledRun(l, c, req);
    assert Next(l, Ask(c, req)) == Put(l, c, l.clients[c].(pc := Checked(req)));
  }

  lemma AskedRun(l: Lobby, c: Cid, req: Request)
    requires Between(l, c) && Allowed(req, l.clients[c].state)
    ensures Run(l, Handled(c, req)) ==
            Next(CallRequest(Put(l, c, l.clients[c].(pc := Checked(req))), c, req), Commit(c))
  {
    var l1 := Put(l, c, l.clients[c].(pc := Checked(req)));
    HandledRun(l, c, req);
    assert Next(l, Ask(c, req)) == l1;
    assert Next(l1, Call(c)) == CallRequest(l1, c, req);
  }

  lemma CommitRun(l: Lobby, c: Cid)
    requires !l.halted && c in l.clients
    ensures Next(l, Commit(c)) == Put(l, c, Written(l.clients[c]))
  {
  }

  /** A call that changes one room, and the writes after it. */
  lemma RoomRun(l: Lobby, c: Cid, req: Request, rid: int, r: Room<Cid>, pc: Pc)
    requires Between(l, c) && Allowed(req, l.clients[c].state)
    requires var k1 := l.clients[c].(pc := Checked(req));
             CallRequest(Put(l, c, k1), c, req) == Put(PutRoom(Put(l, c, k1), rid, r), c, k1.(pc := pc))
    requires Written(l.clients[c].(pc := pc)).pc.Free?
    ensures Run(l, Handled(c, req)) == Put(PutRoom(l, rid, r), c, Written(l.clients[c].(pc := pc)))
  {
    var k := l.clients[c];
    var k1, k2 := k.(pc := Checked(req)), k.(pc := pc);
    AskedRun(l, c, req);
    CommitRun(Put(PutRoom(Put(l, c, k1), rid, r), c, k2), c);
    Overwritten(l.clients, c, k1, k2, Written(k2));
  }

  // ----- request by request ------------------------------------------------------------------------

  lemma EnterRoomCame(l: Lobby, c: Cid, rid: int, name: string)
    requires Between(l, c) && Allowed(EnterRoom(rid), l.clients[c].state)
    ensures CameAs(Run(l, Handled(c, EnterRoom(rid))), c, ServeEnterRoom(HallIn(l), FieldsOf(l, c), c, name, rid))
  {
    var k := l.clients[c];
    if rid !in l.rooms || !Admit(l.rooms[rid], c).0 {
      DoneRun(l, c, EnterRoom(rid));
    } else {
      var r := Admit(l.rooms[rid], c).1;
      RoomRun(l, c, EnterRoom(rid), rid, r, InRoom(rid));
      PutCame(l, c, rid, r, k.(state := Idle, roomid := rid));
    }
  }

  lemma LeaveRoomCame(l: Lobby, c: Cid, name: string)
    requires Between(l, c) && Allowed(LeaveRoom, l.clients[c].state)
    ensures CameAs(Run(l, Handled(c, LeaveRoom)), c, ServeLeaveRoom(HallIn(l), FieldsOf(l, c), c, name))
  {
    var k := l.clients[c];
    if !(k.roomid > 0 && k.roomid in l.rooms && c in l.rooms[k.roomid].users) {
      HaltRun(l, c, LeaveRoom);
    } else {
      var r := Dismiss(l.rooms[k.roomid], c).1;
      RoomRun(l, c, LeaveRoom, k.roomid, r, OutOfRoom);
      PutCame(l, c, k.roomid, r, k.(state := Online, roomid := -1));
    }
  }

  lemma EnterSessionCame(l: Lobby, c: Cid, sid: int, name: string)
    requires Between(l, c) && Allowed(EnterSession(sid), l.clients[c].state)
    ensures CameAs(Run(l, Handled(c, EnterSession(sid))), c, ServeEnterSession(HallIn(l), FieldsOf(l, c), c, name, sid))
  {
    var k := l.clients[c];
    if !(k.roomid > 0 && k.sessionid < 0 && k.roomid in l.rooms) {
      HaltRun(l, c, EnterSession(sid));
    } else {
      var (ret, r) := EnterIn(l.rooms[k.roomid], sid, c);
      if ret < 0 {
        DoneRun(l, c, EnterSession(sid));
      } else {
        RoomRun(l, c, EnterSession(sid), k.roomid, r, Seated(sid));
        PutCame(l, c, k.roomid, r, k.(state := Sessional, sessionid := sid));
      }
    }
  }

  lemma WatchSessionCame(l: Lobby, c: Cid, sid: int, name: string)
    requires Between(l, c) && Allowed(WatchSession(sid), l.clients[c].state)
    ensures CameAs(Run(l, Handled(c, WatchSession(sid))), c, ServeWatchSession(HallIn(l), FieldsOf(l, c), c, name, sid))
  {
    var k := l.clients[c];
    if !(k.roomid > 0 && k.sessionid < 0 && k.roomid in l.rooms) {
      HaltRun(l, c, WatchSession(sid));
    } else {
      var (ret, r) := WatchIn(l.rooms[k.roomid], sid, c);
      if ret < 0 {
        DoneRun(l, c, WatchSession(sid));
      } else {
        RoomRun(l, c, WatchSession(sid), k.roomid, r, Watcher(sid));
        PutCame(l, c, k.roomid, r, k.(state := Watching, sessionid := sid));
      }
    }
  }

  lemma LeaveSessionCame(l: Lobby, c: Cid, name: string)
    requires Between(l, c) && Allowed(LeaveSession, l.clients[c].state)
    ensures CameAs(Run(l, Handled(c, LeaveSession)), c, ServeLeaveSession(HallIn(l), FieldsOf(l, c), c, name))
  {
    var k := l.clients[c];
    if !(k.roomid > 0 && k.sessionid > 0 && k.roomid in l.rooms) {
      HaltRun(l, c, LeaveSession);
    } else {
      match LeaveIn(l.rooms[k.roomid], k.sessionid, c)
      case Fails => HaltRun(l, c, LeaveSession);
      case Returns(_, r) =>
        RoomRun(l, c, LeaveSession, k.roomid, r, OutOfSession);
        PutCame(l, c, k.roomid, r, k.(state := Idle, sessionid := -1));
    }
  }

  /** An idle client's ASSERTs hold: its room lists it. */
  lemma MakeSessionCame(l: Lobby, c: Cid)
    requires Inv(l) && Between(l, c) && Allowed(MakeSession, l.clients[c].state)
    ensures CameAs(Run(l, Made(c)), c, ServeMakeSession(HallIn(l), FieldsOf(l, c), c, l.seed + 1))
  {
    var k, n := l.clients[c], l.seed + 1;
    assert ClientAt(l, c);
    MakeRun(l, c, k.roomid);
    var r := WithSession(l.rooms[k.roomid], IdOf(n), NewSession(c, n));
    PutCame(l, c, k.roomid, r, k.(state := Sessional, sessionid := IdOf(n)));
  }

  lemma AfterReadyIs(cs: map<Cid, Client>, s: Session<Cid>, c: Cid)
    requires WellFormed(s) && c in Players(s) && c in cs && (forall m :: m in Players(s) ==> m in cs)
    ensures Starts(s, c, StatesIn(cs)) <==> Rival(s, c).Some? && cs[Rival(s, c).value].state == Ready
    ensures Starts(s, c, StatesIn(cs)) ==>
              && Mover(s).Some? && Waiter(s).Some? && Mover(s) != Waiter(s)
              && AfterReady(s, c, StatesIn(cs)) == StatesIn(cs)[c := Ready][Mover(s).value := Moving][Waiter(s).value := Pondering]
    ensures !Starts(s, c, StatesIn(cs)) ==> AfterReady(s, c, StatesIn(cs)) == StatesIn(cs)[c := Ready]
  {
    assert Rival(s, c).Some? ==> Rival(s, c).value in Players(s) && Rival(s, c).value != c;
  }

  /** The seats' states are written one after the other. */
  lemma SeatsSet(l: Lobby, c: Cid, a: Cid, b: Cid)
    requires c in l.clients && a in l.clients && b in l.clients
    ensures var l1 := Put(l, c, l.clients[c].(state := Ready));
            var l2 := SetState(SetState(l1, a, Moving), b, Pondering);
            && HallIn(l2) == HallIn(l).(states := StatesIn(l.clients)[c := Ready][a := Moving][b := Pondering])
            && c in l2.clients && FieldsOf(l2, c) == FieldsOf(l, c) && l2.clients[c].pc == l.clients[c].pc
            && l2.clients[c].closing == l.clients[c].closing && l2.halted == l.halted
  {
    var l1 := Put(l, c, l.clients[c].(state := Ready));
    StatesPut(l.clients, c, l.clients[c].(state := Ready));
    StatesPut(l1.clients, a, l1.clients[a].(state := Moving));
    var l3 := SetState(l1, a, Moving);
    StatesPut(l3.clients, b, l3.clients[b].(state := Pondering));
  }

  /** The call of a ready, as it were from the state before the request. */
  lemma ReadyCall(l: Lobby, c: Cid, s: Session<Cid>)
    requires Between(l, c) && l.clients[c].state == Sessional
    requires var k := l.clients[c]; k.roomid > 0 && k.sessionid > 0 && At(l.rooms, k.roomid, k.sessionid) == Some(s)
    ensures var k := l.clients[c];
            var l1 := Put(l, c, k.(state := Ready));
            CallMakeReady(Put(l, c, k.(pc := Checked(MakeReady))), c) ==
            if c !in Players(s) then Halt(Put(l, c, k.(pc := Checked(MakeReady))))
            else if RivalReady(l, s, c) then SetSeat(SetSeat(l1, Mover(s), Moving), Waiter(s), Pondering)
            else l1
  {
    var k := l.clients[c];
    Overwritten(l.clients, c, k, k.(pc := Checked(MakeReady)), k.(state := Ready));
  }

  /** The lobby after a seated player's ready. */
  function ReadyWritten(l: Lobby, c: Cid, s: Session<Cid>): Lobby
    requires c in l.clients
  {
    var l1 := Put(l, c, l.clients[c].(state := Ready));
    if RivalReady(l, s, c) then SetSeat(SetSeat(l1, Mover(s), Moving), Waiter(s), Pondering) else l1
  }

  lemma WrittenStates(l: Lobby, c: Cid, s: Session<Cid>)
    requires Between(l, c) && WellFormed(s) && c in Players(s) && (forall m :: m in Players(s) ==> m in l.clients)
    ensures var l2 := ReadyWritten(l, c, s);
            && Between(l2, c) && FieldsOf(l2, c) == FieldsOf(l, c)
            && HallIn(l2) == HallIn(l).(states := AfterReady(s, c, StatesIn(l.clients)))
  {
    AfterReadyIs(l.clients, s, c);
    if RivalReady(l, s, c) {
      SeatsSet(l, c, Mover(s).value, Waiter(s).value);
    } else {
      StatesPut(l.clients, c, l.clients[c].(state := Ready));
    }
  }

  lemma ReadyRun(l: Lobby, c: Cid, s: Session<Cid>)
    requires Between(l, c) && l.clients[c].state == Sessional && c in Players(s) && Between(ReadyWritten(l, c, s), c)
    requires var k := l.clients[c]; k.roomid > 0 && k.sessionid > 0 && At(l.rooms, k.roomid, k.sessionid) == Some(s)
    ensures Run(l, Handled(c, MakeReady)) == ReadyWritten(l, c, s)
  {
    ReadyCall(l, c, s);
    AskedRun(l, c, MakeReady);
    CommitRun(ReadyWritten(l, c, s), c);
    PutBack(ReadyWritten(l, c, s), c);
  }

  lemma ReadyStored(l: Lobby, c: Cid, s: Session<Cid>, who: Cid -> string)
    requires Inv(l) && Between(l, c) && l.clients[c].state == Sessional
    requires var k := l.clients[c]; k.roomid > 0 && k.sessionid > 0 && At(l.rooms, k.roomid, k.sessionid) == Some(s)
    requires c in Players(s)
    ensures CameAs(Run(l, Handled(c, MakeReady)), c, ServeReady(HallIn(l), FieldsOf(l, c), c, who))
  {
    var k := l.clients[c];
    assert SessionAt(l, k.roomid, k.sessionid);
    forall m | m in Players(s) ensures m in l.clients {
      assert MemberOk(l.clients, k.roomid, k.sessionid, s, m);
    }
    WrittenStates(l, c, s);
    ReadyRun(l, c, s);
  }

  lemma ReadyCame(l: Lobby, c: Cid, who: Cid -> string)
    requires Inv(l) && Between(l, c) && Allowed(MakeReady, l.clients[c].state)
    ensures CameAs(Run(l, Handled(c, MakeReady)), c, ServeReady(HallIn(l), FieldsOf(l, c), c, who))
  {
    var k := l.clients[c];
    assert ClientAt(l, c);
    var o := At(l.rooms, k.roomid, k.sessionid);
    if o.Some? && c in Players(o.value) {
      ReadyStored(l, c, o.value, who);
    } else {
      if o.Some? {
        ReadyCall(l, c, o.value);
      }
      HaltRun(l, c, MakeReady);
    }
  }

  lemma PlainCame(l: Lobby, c: Cid, what: Plain)
    requires Between(l, c) && Allowed(Other(what), l.clients[c].state)
    ensures CameAs(Run(l, Handled(c, Other(what))), c, ServePlain(HallIn(l), FieldsOf(l, c), what))
  {
    var k := l.clients[c];
    if what == ListSessions && !(k.roomid > 0 && k.roomid in l.rooms) {
      HaltRun(l, c, Other(what));
    } else {
      DoneRun(l, c, Other(what));
    }
  }

  /** Serving a request is what the client's thread does when it is left alone: the same
      ASSERTs fail, and the same rooms, sessions, states, seed and fields come of it. */
  lemma ServeIsRun(l: Lobby, c: Cid, req: Request, who: Cid -> string)
    requires Inv(l) && Between(l, c) && Allowed(req, l.clients[c].state)
    ensures CameAs(Run(l, Whole(c, req)), c, Serve(HallIn(l), FieldsOf(l, c), c, req, who))
  {
    match req
    case EnterRoom(rid) => EnterRoomCame(l, c, rid, who(c));
    case LeaveRoom => LeaveRoomCame(l, c, who(c));
    case MakeSession => MakeSessionCame(l, c);
    case EnterSession(sid) => EnterSessionCame(l, c, sid, who(c));
    case LeaveSession => LeaveSessionCame(l, c, who(c));
    case WatchSession(sid) => WatchSessionCame(l, c, sid, who(c));
    case MakeReady => ReadyCame(l, c, who);
    case Other(what) => PlainCame(l, c, what);
  }

  // ----- a list of requests ----------------------------------------------------------------------------

  lemma HallKnown(l: Lobby)
    requires Inv(l)
    ensures Known(HallIn(l))
  {
    forall rid, sid | rid in l.rooms && sid in l.rooms[rid].sessions
      ensures Players(l.rooms[rid].sessions[sid]) <= StatesIn(l.clients).Keys {
      var s := l.rooms[rid].sessions[sid];
      assert SessionAt(l, rid, sid) && At(l.rooms, rid, sid) == Some(s);
      forall m | m in Players(s) ensures m in l.clients {
        assert MemberOk(l.clients, rid, sid, s, m);
      }
    }
  }

  /** The events of a client's thread that is left alone with a list of requests: one after
      another, until one is not allowed, returns an error or ends the process. */
  ghost function ListRun(l: Lobby, c: Cid, reqs: seq<Request>): seq<Event>
    decreases |reqs|
  {
    if reqs == [] || !Between(l, c) || !Allowed(reqs[0], l.clients[c].state) then []
    else
      var e := Serve(HallIn(l), FieldsOf(l, c), c, reqs[0], (m: Cid) => "");
      if e.Served? && e.ret >= 0 then Whole(c, reqs[0]) + ListRun(Run(l, Whole(c, reqs[0])), c, reqs[1..])
      else Whole(c, reqs[0])
  }

  /** What does not depend on the names. */
  lemma SameButNames<C>(h: Hall<C>, f: Local, c: C, req: Request, v: C -> string, w: C -> string)
    requires c in h.states
    ensures var e, d := Serve(h, f, c, req, v), Serve(h, f, c, req, w);
            e.Crash? == d.Crash? && (e.Served? ==> e.ret == d.ret && e.hall == d.hall && e.local == d.local)
  {
  }

  /** procMsgs from a reachable lobby is a run of the lobby. */
  lemma {:induction false} ServeAllIsRun(l: Lobby, c: Cid, reqs: seq<Request>, who: Cid -> string)
    requires Inv(l) && Between(l, c)
    ensures Known(HallIn(l))
    ensures var o, l' := ServeAll(HallIn(l), FieldsOf(l, c), c, reqs, who), Run(l, ListRun(l, c, reqs));
            && Inv(l') && (l'.halted <==> o.Halted?)
            && (o.Finished? ==> Between(l', c) && HallIn(l') == o.hall && FieldsOf(l', c) == o.local)
    decreases |reqs|
  {
    HallKnown(l);
    if reqs != [] && Allowed(reqs[0], l.clients[c].state) {
      var e := Serve(HallIn(l), FieldsOf(l, c), c, reqs[0], who);
      SameButNames(HallIn(l), FieldsOf(l, c), c, reqs[0], who, (m: Cid) => "");
      ServeIsRun(l, c, reqs[0], who);
      RunInv(l, Whole(c, reqs[0]));
      var l1 := Run(l, Whole(c, reqs[0]));
      if e.Served? && e.ret >= 0 {
        ServeAllIsRun(l1, c, reqs[1..], who);
        RunSplit(l, Whole(c, reqs[0]), ListRun(l1, c, reqs[1..]));
      }
    }
  }

  /** From the opening on, however the threads have mixed before: what a client's list of
      requests leaves has no session with a client in two places or without a member. */
  lemma ServedHallIsSound(l0: Lobby, es: seq<Event>, c: Cid, reqs: seq<Request>, who: Cid -> string)
    requires Opening(l0) && Between(Run(l0, es), c)
    ensures var l := Run(l0, es);
            Known(HallIn(l)) &&
            var o := ServeAll(HallIn(l), FieldsOf(l, c), c, reqs, who);
            o.Finished? ==> forall rid, sid :: At(o.hall.rooms, rid, sid).Some? ==>
                              WellFormed(At(o.hall.rooms, rid, sid).value) && Members(At(o.hall.rooms, rid, sid).value) != {}
  {
    OpeningInv(l0);
    RunInv(l0, es);
    var l := Run(l0, es);
    ServeAllIsRun(l, c, reqs, who);
    var l' := Run(l, ListRun(l, c, reqs));
    forall rid, sid | At(l'.rooms, rid, sid).Some?
      ensures WellFormed(At(l'.rooms, rid, sid).value) && Members(At(l'.rooms, rid, sid).value) != {} {
      assert SessionAt(l', rid, sid);
    }
  }
}
