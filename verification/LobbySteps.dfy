/** Every step of every client keeps the lobby's invariant. */
module LobbySteps {
  import opened Prelude
  import opened Session
  import opened Lobby

  lemma OpeningInv(l: Lobby)
    requires Opening(l)
    ensures Inv(l)
  {
  }

  // ----- changing one client -----------------------------------------------------------------

  /** The client is where it was and does there what it did. */
  predicate SamePlace(k: Client, k': Client) {
    && RoomOf(k') == RoomOf(k) && SessionOf(k') == SessionOf(k)
    && Plays(k') == Plays(k) && Watches(k') == Watches(k) && k'.name == k.name
  }

  /** Every client m other than c is as it was. */
  ghost predicate OthersKept(cs: map<Cid, Client>, cs': map<Cid, Client>, c: Cid) {
    forall m :: m in cs && m != c ==> m in cs' && cs'[m] == cs[m]
  }

  /** A session none of whose members moved. */
  lemma SessionElsewhere(cs: map<Cid, Client>, cs': map<Cid, Client>, rid: int, sid: int, s: Session<Cid>, c: Cid)
    requires SessionOk(cs, rid, sid, s) && OthersKept(cs, cs', c)
    requires c !in Members(s) || (c in cs && c in cs' && SamePlace(cs[c], cs'[c]))
    ensures SessionOk(cs', rid, sid, s)
  {
    forall m | m in Members(s) ensures MemberOk(cs', rid, sid, s, m) {
      assert MemberOk(cs, rid, sid, s, m);
    }
  }

  /** Seats whose holders kept their states, or calmed down. */
  lemma SeatsElsewhere(cs: map<Cid, Client>, cs': map<Cid, Client>, s: Session<Cid>, c: Cid)
    requires SeatsOk(cs, s) && OthersKept(cs, cs', c) && (forall m :: m in Players(s) ==> m in cs)
    requires c !in Players(s) || (c in cs && c in cs' && (cs'[c].state == cs[c].state || Quiet(cs'[c].state)))
    ensures SeatsOk(cs', s)
  {
    assert s.owner.Some? ==> s.owner.value in Players(s);
    assert s.opponent.Some? ==> s.opponent.value in Players(s);
  }

  /** A state in which a seat can be shared without harm. */
  predicate Quiet(st: PlayState) { st != Ready && st != Moving && st != Pondering }

  lemma PlayersAreClients(cs: map<Cid, Client>, rid: int, sid: int, s: Session<Cid>)
    requires SessionOk(cs, rid, sid, s)
    ensures forall m :: m in Players(s) ==> m in cs
  {
    forall m | m in Players(s) ensures m in cs {
      assert m in Members(s);
      assert MemberOk(cs, rid, sid, s, m);
    }
  }

  /** A member of a stored session knows where it is. */
  lemma MemberIsThere(l: Lobby, rid: int, sid: int, c: Cid)
    requires SessionsOk(l) && At(l.rooms, rid, sid).Some? && c in Members(At(l.rooms, rid, sid).value)
    ensures c in l.clients && RoomOf(l.clients[c]) == rid && SessionOf(l.clients[c]) == sid
  {
    assert SessionAt(l, rid, sid);
    assert MemberOk(l.clients, rid, sid, At(l.rooms, rid, sid).value, c);
  }

  /** c is a member of the session only if that is where it is. */
  lemma Stranger(l: Lobby, rid: int, sid: int, c: Cid)
    requires SessionsOk(l) && At(l.rooms, rid, sid).Some?
    requires c in l.clients ==> RoomOf(l.clients[c]) != rid || SessionOf(l.clients[c]) != sid
    ensures c !in Members(At(l.rooms, rid, sid).value)
  {
    if c in Members(At(l.rooms, rid, sid).value) {
      MemberIsThere(l, rid, sid, c);
    }
  }

  /** A stored session that c is not in survives c's moves. */
  lemma KeepSession(l: Lobby, l': Lobby, c: Cid, rid: int, sid: int)
    requires SessionAt(l, rid, sid) && GameAt(l, rid, sid)
    requires OthersKept(l.clients, l'.clients, c) && At(l'.rooms, rid, sid) == At(l.rooms, rid, sid)
    requires At(l.rooms, rid, sid).Some? ==> c !in Members(At(l.rooms, rid, sid).value)
    ensures SessionAt(l', rid, sid) && GameAt(l', rid, sid)
  {
    var o := At(l.rooms, rid, sid);
    if o.Some? {
      PlayersAreClients(l.clients, rid, sid, o.value);
      assert forall m :: m in Players(o.value) ==> m in Members(o.value);
      SessionElsewhere(l.clients, l'.clients, rid, sid, o.value, c);
      SeatsElsewhere(l.clients, l'.clients, o.value, c);
    }
  }

  lemma PutUsers(l: Lobby, c: Cid, k: Client)
    requires UsersOk(l) && c in l.clients && SamePlace(l.clients[c], k) && ClientOk(k)
    ensures UsersOk(Put(l, c, k))
  {
    forall rid ensures RoomAt(Put(l, c, k), rid) {
      assert RoomAt(l, rid);
    }
    forall d: Cid ensures ClientAt(Put(l, c, k), d) {
      assert ClientAt(l, d);
    }
  }

  lemma PutNames(l: Lobby, c: Cid, k: Client)
    requires NamesOk(l) && c in l.clients && k.name == l.clients[c].name
    ensures NamesOk(Put(l, c, k))
  {
  }

  lemma PutSessions(l: Lobby, c: Cid, k: Client)
    requires SessionsOk(l) && c in l.clients && SamePlace(l.clients[c], k)
    ensures SessionsOk(Put(l, c, k))
  {
    var l' := Put(l, c, k);
    forall rid, sid ensures SessionAt(l', rid, sid) {
      assert SessionAt(l, rid, sid);
      var o := At(l.rooms, rid, sid);
      if o.Some? {
        SessionElsewhere(l.clients, l'.clients, rid, sid, o.value, c);
      }
    }
  }

  lemma PutGames(l: Lobby, c: Cid, k: Client)
    requires SessionsOk(l) && GamesOk(l) && c in l.clients && (k.state == l.clients[c].state || Quiet(k.state))
    ensures GamesOk(Put(l, c, k))
  {
    var l' := Put(l, c, k);
    forall rid, sid ensures GameAt(l', rid, sid) {
      assert SessionAt(l, rid, sid) && GameAt(l, rid, sid);
      var o := At(l.rooms, rid, sid);
      if o.Some? {
        PlayersAreClients(l.clients, rid, sid, o.value);
        SeatsElsewhere(l.clients, l'.clients, o.value, c);
      }
    }
  }

  /** A step that moves nobody keeps everything. */
  lemma PutInv(l: Lobby, c: Cid, k: Client)
    requires Inv(l) && c in l.clients && SamePlace(l.clients[c], k) && ClientOk(k)
    requires k.state == l.clients[c].state || Quiet(k.state)
    ensures Inv(Put(l, c, k))
  {
    PutUsers(l, c, k);
    PutNames(l, c, k);
    PutSessions(l, c, k);
    PutGames(l, c, k);
  }

  lemma AskInv(l: Lobby, c: Cid, req: Request)
    requires Inv(l)
    ensures Inv(Next(l, Ask(c, req)))
  {
    if !l.halted && c in l.clients && l.clients[c].pc.Free? && !l.clients[c].closing && Allowed(req, l.clients[c].state) {
      assert ClientAt(l, c);
      PutInv(l, c, l.clients[c].(pc := Checked(req)));
    }
  }

  lemma DoneInv(l: Lobby, c: Cid)
    requires Inv(l) && c in l.clients && l.clients[c].pc.Checked?
    ensures Inv(Done(l, c))
  {
    assert ClientAt(l, c);
    PutInv(l, c, l.clients[c].(pc := Free));
  }

  /** doListSessions finds the client's room. */
  lemma PlainSucceeds(l: Lobby, c: Cid, what: Plain)
    requires Inv(l) && c in l.clients && l.clients[c].pc == Checked(Other(what))
    ensures CallPlain(l, c, what) == Done(l, c)
  {
    assert ClientAt(l, c);
  }

  /** The writes only make the fields say what the program counter said. */
  lemma WrittenSamePlace(k: Client)
    requires ClientOk(k)
    ensures SamePlace(k, Written(k)) && ClientOk(Written(k))
    ensures Written(k).state == k.state || Quiet(Written(k).state)
  {
  }

  lemma CommitInv(l: Lobby, c: Cid)
    requires Inv(l)
    ensures Inv(Next(l, Commit(c)))
  {
    if c in l.clients && !l.halted {
      assert ClientAt(l, c);
      WrittenSamePlace(l.clients[c]);
      PutInv(l, c, Written(l.clients[c]));
    }
  }

  lemma HangupInv(l: Lobby, c: Cid)
    requires Inv(l)
    ensures Inv(Next(l, Hangup(c)))
  {
    if c in l.clients && l.clients[c].pc.Free? && !l.halted {
      assert ClientAt(l, c);
      PutInv(l, c, l.clients[c].(closing := true));
    }
  }

  // ----- login and the end of a client --------------------------------------------------------

  /** A client in no session can come, go or change: no session has it. */
  lemma OutsiderSessions(l: Lobby, l': Lobby, c: Cid)
    requires SessionsOk(l) && GamesOk(l) && OthersKept(l.clients, l'.clients, c)
    requires c in l.clients ==> SessionOf(l.clients[c]) <= 0
    requires forall rid, sid :: At(l'.rooms, rid, sid) == At(l.rooms, rid, sid)
    ensures SessionsOk(l') && GamesOk(l')
  {
    forall rid, sid ensures SessionAt(l', rid, sid) && GameAt(l', rid, sid) {
      assert SessionAt(l, rid, sid) && GameAt(l, rid, sid);
      if At(l.rooms, rid, sid).Some? {
        IdPositive(l, rid, sid);
        Stranger(l, rid, sid, c);
      }
      KeepSession(l, l', c, rid, sid);
    }
  }

  lemma IdPositive(l: Lobby, rid: int, sid: int)
    requires SessionsOk(l) && At(l.rooms, rid, sid).Some?
    ensures sid > 0
  {
    assert SessionAt(l, rid, sid);
  }

  lemma LoginUsers(l: Lobby, c: Cid, name: Name)
    requires UsersOk(l) && NamesOk(l) && c !in l.clients && name !in l.names && !l.halted
    ensures UsersOk(Next(l, Login(c, name))) && NamesOk(Next(l, Login(c, name)))
  {
    var l' := Next(l, Login(c, name));
    forall rid ensures RoomAt(l', rid) {
      assert RoomAt(l, rid);
    }
    forall d: Cid ensures ClientAt(l', d) {
      assert ClientAt(l, d);
    }
  }

  lemma LoginInv(l: Lobby, c: Cid, name: Name)
    requires Inv(l)
    ensures Inv(Next(l, Login(c, name)))
  {
    if !l.halted && c !in l.clients && name !in l.names {
      LoginUsers(l, c, name);
      OutsiderSessions(l, Next(l, Login(c, name)), c);
    }
  }

  lemma RemoveUsers(l: Lobby, c: Cid)
    requires UsersOk(l) && NamesOk(l) && c in l.clients && RoomOf(l.clients[c]) <= 0
    ensures UsersOk(Remove(l, c)) && NamesOk(Remove(l, c))
  {
    forall rid ensures RoomAt(Remove(l, c), rid) {
      assert RoomAt(l, rid);
    }
    forall d: Cid ensures ClientAt(Remove(l, c), d) {
      assert ClientAt(l, d);
    }
  }

  lemma RemoveInv(l: Lobby, c: Cid)
    requires Inv(l) && c in l.clients && RoomOf(l.clients[c]) <= 0 && SessionOf(l.clients[c]) <= 0
    ensures Inv(Remove(l, c))
  {
    RemoveUsers(l, c);
    OutsiderSessions(l, Remove(l, c), c);
  }

  // ----- entering and leaving rooms -------------------------------------------------------------

  lemma EnterRoomUsers(l: Lobby, c: Cid, rid: int)
    requires UsersOk(l) && c in l.clients && l.clients[c].pc == Checked(EnterRoom(rid)) && rid in l.rooms
    requires |l.rooms[rid].users| < l.rooms[rid].capacity && c !in l.rooms[rid].users
    ensures UsersOk(CallEnterRoom(l, c, rid))
  {
    var l' := CallEnterRoom(l, c, rid);
    assert ClientAt(l, c);
    forall r ensures RoomAt(l', r) {
      assert RoomAt(l, r);
    }
    forall d: Cid ensures ClientAt(l', d) {
      assert ClientAt(l, d);
      assert RoomAt(l, rid);
    }
  }

  lemma EnterRoomInv(l: Lobby, c: Cid, rid: int)
    requires Inv(l) && c in l.clients && l.clients[c].pc == Checked(EnterRoom(rid))
    ensures Inv(CallEnterRoom(l, c, rid))
  {
    assert ClientAt(l, c);
    var l' := CallEnterRoom(l, c, rid);
    if rid !in l.rooms || |l.rooms[rid].users| >= l.rooms[rid].capacity || c in l.rooms[rid].users {
      DoneInv(l, c);
    } else {
      EnterRoomUsers(l, c, rid);
      PutNames(l, c, l'.clients[c]);
      OutsiderSessions(l, l', c);
    }
  }

  /** The client is about to leave its room: by request or on the disconnect path. */
  predicate LeavingRoom(k: Client) {
    k.pc == Checked(LeaveRoom) || (k.pc.Free? && k.closing && k.sessionid <= 0 && k.roomid > 0)
  }

  /** Leaving a room never fails an ASSERT. */
  lemma LeaveRoomSucceeds(l: Lobby, c: Cid)
    requires UsersOk(l) && c in l.clients && LeavingRoom(l.clients[c])
    ensures var k := l.clients[c]; k.roomid > 0 && k.roomid in l.rooms && c in l.rooms[k.roomid].users
    ensures SessionOf(l.clients[c]) <= 0 && l.clients[c].state == Idle
  {
    assert ClientAt(l, c);
  }

  lemma LeaveRoomUsers(l: Lobby, c: Cid)
    requires UsersOk(l) && c in l.clients && LeavingRoom(l.clients[c])
    ensures UsersOk(CallLeaveRoom(l, c))
  {
    LeaveRoomSucceeds(l, c);
    var l' := CallLeaveRoom(l, c);
    var rid := l.clients[c].roomid;
    assert l.rooms[rid].users == (l.rooms[rid].users - {c}) + {c};
    forall r ensures RoomAt(l', r) {
      assert RoomAt(l, r);
    }
    forall d: Cid ensures ClientAt(l', d) {
      assert ClientAt(l, d);
    }
  }

  lemma LeaveRoomInv(l: Lobby, c: Cid)
    requires Inv(l) && c in l.clients && LeavingRoom(l.clients[c])
    ensures Inv(CallLeaveRoom(l, c)) && CallLeaveRoom(l, c).halted == l.halted
  {
    LeaveRoomSucceeds(l, c);
    LeaveRoomUsers(l, c);
    PutNames(l, c, CallLeaveRoom(l, c).clients[c]);
    OutsiderSessions(l, CallLeaveRoom(l, c), c);
  }

  // ----- sessions: creating, entering, watching, leaving -----------------------------------------

  /** Rooms keep their users, c its room: what a session call leaves alone. */
  ghost predicate RoomsKept(l: Lobby, l': Lobby, c: Cid) {
    && l'.rooms.Keys == l.rooms.Keys
    && (forall rid :: rid in l.rooms ==>
          l'.rooms[rid].users == l.rooms[rid].users && l'.rooms[rid].capacity == l.rooms[rid].capacity)
    && c in l.clients && l'.clients.Keys == l.clients.Keys && OthersKept(l.clients, l'.clients, c)
    && l'.names == l.names
    && RoomOf(l'.clients[c]) == RoomOf(l.clients[c]) && l'.clients[c].name == l.clients[c].name
  }

  lemma RoomsKeptUsers(l: Lobby, l': Lobby, c: Cid)
    requires UsersOk(l) && NamesOk(l) && RoomsKept(l, l', c) && ClientOk(l'.clients[c])
    ensures UsersOk(l') && NamesOk(l')
  {
    forall rid ensures RoomAt(l', rid) {
      assert RoomAt(l, rid);
    }
    forall d: Cid ensures ClientAt(l', d) {
      assert ClientAt(l, d);
    }
  }

  /** Only c moves and only one place for a session changes, to something right. */
  lemma OneSessionChanges(l: Lobby, l': Lobby, c: Cid, rid: int, sid: int)
    requires SessionsOk(l) && GamesOk(l) && OthersKept(l.clients, l'.clients, c)
    requires c in l.clients && (SessionOf(l.clients[c]) <= 0 || (RoomOf(l.clients[c]) == rid && SessionOf(l.clients[c]) == sid))
    requires forall r, i :: (r, i) != (rid, sid) ==> At(l'.rooms, r, i) == At(l.rooms, r, i)
    requires SessionAt(l', rid, sid) && GameAt(l', rid, sid)
    ensures SessionsOk(l') && GamesOk(l')
  {
    forall r, i ensures SessionAt(l', r, i) && GameAt(l', r, i) {
      if (r, i) != (rid, sid) {
        assert SessionAt(l, r, i) && GameAt(l, r, i);
        if At(l.rooms, r, i).Some? {
          IdPositive(l, r, i);
          Stranger(l, r, i, c);
        }
        KeepSession(l, l', c, r, i);
      }
    }
  }

  lemma MakeSessionSucceeds(l: Lobby, c: Cid)
    requires UsersOk(l) && c in l.clients && l.clients[c].pc == Checked(MakeSession)
    ensures var k := l.clients[c];
            k.state == Idle && k.roomid > 0 && k.roomid in l.rooms && c in l.rooms[k.roomid].users && k.sessionid == -1
  {
    assert ClientAt(l, c);
  }

  /** The call of a session the client is to join finds its room and is not in one. */
  lemma JoinFindsRoom(l: Lobby, c: Cid)
    requires UsersOk(l) && c in l.clients
    requires l.clients[c].pc.Checked? && (l.clients[c].pc.req.EnterSession? || l.clients[c].pc.req.WatchSession?)
    ensures var k := l.clients[c]; k.state == Idle && k.roomid > 0 && k.sessionid == -1 && k.roomid in l.rooms
    ensures RoomOf(l.clients[c]) == l.clients[c].roomid && SessionOf(l.clients[c]) == -1
  {
    assert ClientAt(l, c);
  }

  /** A session that c joins in some role, all others staying. */
  lemma JoinedSession(l: Lobby, cs': map<Cid, Client>, c: Cid, rid: int, sid: int, s: Session<Cid>, t: Session<Cid>)
    requires SessionOk(l.clients, rid, sid, s) && OthersKept(l.clients, cs', c)
    requires WellFormed(t) && t.birth == s.birth && c !in Members(s)
    requires Members(t) == Members(s) || Members(t) == Members(s) + {c}
    requires Players(t) <= Players(s) + {c} && t.watchers <= s.watchers + {c}
    requires c in Members(t) ==> MemberOk(cs', rid, sid, t, c)
    ensures SessionOk(cs', rid, sid, t)
  {
    forall m | m in Members(t) ensures MemberOk(cs', rid, sid, t, m) {
      if m != c {
        assert m in Members(s);
        assert MemberOk(l.clients, rid, sid, s, m);
      }
    }
  }

  /** A newcomer in the seats brings a quiet state. */
  lemma JoinedSeats(cs: map<Cid, Client>, cs': map<Cid, Client>, c: Cid, s: Session<Cid>, t: Session<Cid>)
    requires SeatsOk(cs, s) && OthersKept(cs, cs', c) && c !in Players(s)
    requires forall m :: m in Players(s) ==> m in cs
    requires (t.owner == s.owner || t.owner == Some(c)) && (t.opponent == s.opponent || t.opponent == Some(c))
    requires c in cs' && Quiet(cs'[c].state)
    ensures SeatsOk(cs', t)
  {
    assert s.owner.Some? ==> s.owner.value in Players(s);
    assert s.opponent.Some? ==> s.opponent.value in Players(s);
  }

  /** Storing a session touches its own place only. */
  lemma PutSessionAt(l: Lobby, c: Cid, k: Client, rid: int, sid: int, t: Session<Cid>)
    requires rid in l.rooms && c in l.clients
    requires RoomOf(k) == RoomOf(l.clients[c]) && k.name == l.clients[c].name
    ensures var l' := Put(PutSession(l, rid, sid, t), c, k);
            && RoomsKept(l, l', c) && At(l'.rooms, rid, sid) == Some(t)
            && forall r, i :: (r, i) != (rid, sid) ==> At(l'.rooms, r, i) == At(l.rooms, r, i)
  {
  }

  /** One place for a session gets one that fits c's new place. */
  lemma ReplacedInv(l: Lobby, c: Cid, k: Client, rid: int, sid: int, t: Session<Cid>)
    requires Inv(l) && c in l.clients && rid in l.rooms && ClientOk(k)
    requires RoomOf(k) == RoomOf(l.clients[c]) && k.name == l.clients[c].name
    requires SessionOf(l.clients[c]) <= 0 || (RoomOf(l.clients[c]) == rid && SessionOf(l.clients[c]) == sid)
    requires SessionOk(l.clients[c := k], rid, sid, t) && SeatsOk(l.clients[c := k], t)
    ensures Inv(Put(PutSession(l, rid, sid, t), c, k))
  {
    var l' := Put(PutSession(l, rid, sid, t), c, k);
    PutSessionAt(l, c, k, rid, sid, t);
    assert RoomsKept(l, l', c);
    RoomsKeptUsers(l, l', c);
    assert l'.clients == l.clients[c := k];
    OneSessionChanges(l, l', c, rid, sid);
  }

  lemma NewSessionOk(cs: map<Cid, Client>, c: Cid, rid: int, n: nat)
    requires c in cs && RoomOf(cs[c]) == rid && SessionOf(cs[c]) == IdOf(n) && Plays(cs[c])
    ensures SessionOk(cs, rid, IdOf(n), NewSession(c, n)) && SeatsOk(cs, NewSession(c, n))
  {
    var s := NewSession(c, n);
    assert c in Members(s);
    forall m | m in Members(s) ensures MemberOk(cs, rid, IdOf(n), s, m) {
      assert m == c;
    }
  }

  lemma MakeSessionInv(l: Lobby, c: Cid)
    requires Inv(l) && c in l.clients && l.clients[c].pc == Checked(MakeSession)
    ensures Inv(CallMakeSession(l, c)) && CallMakeSession(l, c).halted == l.halted
  {
    MakeSessionSucceeds(l, c);
    assert ClientAt(l, c);
    PutInv(l, c, l.clients[c].(pc := Making));
  }

  /** A client on its way through genid. */
  predicate InGenid(k: Client) { k.pc.Making? || k.pc.Loaded? || k.pc.Bumped? || k.pc.Named? }

  lemma MakingFindsRoom(l: Lobby, c: Cid)
    requires UsersOk(l) && c in l.clients && InGenid(l.clients[c])
    ensures var k := l.clients[c];
            k.state == Idle && k.roomid > 0 && k.roomid in l.rooms && k.sessionid == -1 && !k.closing && ClientOk(k)
            && RoomOf(k) == k.roomid && SessionOf(k) == -1
  {
    assert ClientAt(l, c);
  }

  lemma SeedInv(l: Lobby, v: nat)
    requires Inv(l)
    ensures Inv(l.(seed := v))
  {
    var l' := l.(seed := v);
    forall rid ensures RoomAt(l', rid) { assert RoomAt(l, rid); }
    forall c: Cid ensures ClientAt(l', c) { assert ClientAt(l, c); }
    forall rid, sid ensures SessionAt(l', rid, sid) { assert SessionAt(l, rid, sid); }
    forall rid, sid ensures GameAt(l', rid, sid) { assert GameAt(l, rid, sid); }
  }

  /** Storing the session that got its number. */
  lemma StoreInv(l: Lobby, c: Cid, n: nat)
    requires Inv(l) && c in l.clients && l.clients[c].pc == Named(n)
    ensures Inv(CallMaking(l, c)) && CallMaking(l, c).halted == l.halted
  {
    MakingFindsRoom(l, c);
    var k := l.clients[c].(pc := Seated(IdOf(n)));
    NewSessionOk(l.clients[c := k], c, k.roomid, n);
    ReplacedInv(l, c, k, k.roomid, IdOf(n), NewSession(c, n));
  }

  lemma MakingInv(l: Lobby, c: Cid)
    requires Inv(l) && c in l.clients && InGenid(l.clients[c])
    ensures Inv(CallMaking(l, c)) && CallMaking(l, c).halted == l.halted
  {
    MakingFindsRoom(l, c);
    match l.clients[c].pc
    case Making => PutInv(l, c, l.clients[c].(pc := Loaded(l.seed)));
    case Loaded(v) =>
      PutInv(l, c, l.clients[c].(pc := Bumped));
      SeedInv(Put(l, c, l.clients[c].(pc := Bumped)), v + 1);
    case Bumped => PutInv(l, c, l.clients[c].(pc := Named(l.seed)));
    case Named(n) => StoreInv(l, c, n);
  }

  /** What joining a session as a player or watcher gives. */
  predicate Joins(s: Session<Cid>, t: Session<Cid>, c: Cid, k: Client) {
    && WellFormed(t) && t.birth == s.birth
    && (Members(t) == Members(s) || Members(t) == Members(s) + {c})
    && Players(t) <= Players(s) + {c} && t.watchers <= s.watchers + {c}
    && (t.owner == s.owner || t.owner == Some(c)) && (t.opponent == s.opponent || t.opponent == Some(c))
    && (c in Players(t) ==> Plays(k)) && (c in t.watchers ==> Watches(k))
  }

  lemma JoinedInv(l: Lobby, c: Cid, k: Client, rid: int, sid: int, s: Session<Cid>, t: Session<Cid>)
    requires Inv(l) && c in l.clients && At(l.rooms, rid, sid) == Some(s) && ClientOk(k)
    requires RoomOf(k) == rid && RoomOf(l.clients[c]) == rid && k.name == l.clients[c].name
    requires SessionOf(l.clients[c]) <= 0 && SessionOf(k) == sid && Quiet(k.state)
    requires c !in Members(s) && Joins(s, t, c, k)
    ensures Inv(Put(PutSession(l, rid, sid, t), c, k))
  {
    assert SessionAt(l, rid, sid) && GameAt(l, rid, sid);
    var cs' := l.clients[c := k];
    JoinedSession(l, cs', c, rid, sid, s, t);
    PlayersAreClients(l.clients, rid, sid, s);
    JoinedSeats(l.clients, cs', c, s, t);
    ReplacedInv(l, c, k, rid, sid, t);
  }

  lemma EnterJoins(s: Session<Cid>, c: Cid, k: Client)
    requires WellFormed(s) && c !in Members(s) && Plays(k)
    ensures Joins(s, Enter(s, c).1, c, k)
  {
    EnterSeats(s, c);
  }

  lemma WatchJoins(s: Session<Cid>, c: Cid, k: Client)
    requires WellFormed(s) && c !in Members(s) && Watches(k)
    ensures Joins(s, Watch(s, c).1, c, k)
  {
    WatchAdds(s, c);
  }

  /** A client about to join finds the session without it. */
  lemma JoinFindsSession(l: Lobby, c: Cid, rid: int, sid: int)
    requires SessionsOk(l) && At(l.rooms, rid, sid).Some? && c in l.clients && SessionOf(l.clients[c]) == -1
    ensures WellFormed(At(l.rooms, rid, sid).value) && c !in Members(At(l.rooms, rid, sid).value) && sid > 0
  {
    assert SessionAt(l, rid, sid);
    Stranger(l, rid, sid, c);
    IdPositive(l, rid, sid);
  }

  /** The call that succeeds, told by what it stores. */
  lemma EnterEffect(l: Lobby, c: Cid, sid: int)
    requires UsersOk(l) && c in l.clients && l.clients[c].pc == Checked(EnterSession(sid))
    ensures var k := l.clients[c];
            var o := At(l.rooms, k.roomid, sid);
            && k.roomid in l.rooms
            && CallEnterSession(l, c, sid) ==
               if o.None? || Enter(o.value, c).0 < 0 then Done(l, c)
               else Put(PutSession(l, k.roomid, sid, Enter(o.value, c).1), c, k.(pc := Seated(sid)))
  {
    JoinFindsRoom(l, c);
  }

  lemma EnterSessionInv(l: Lobby, c: Cid, sid: int)
    requires Inv(l) && c in l.clients && l.clients[c].pc == Checked(EnterSession(sid))
    ensures Inv(CallEnterSession(l, c, sid)) && CallEnterSession(l, c, sid).halted == l.halted
  {
    JoinFindsRoom(l, c);
    EnterEffect(l, c, sid);
    var k := l.clients[c];
    var o := At(l.rooms, k.roomid, sid);
    if o.None? || Enter(o.value, c).0 < 0 {
      DoneInv(l, c);
    } else {
      var k' := k.(pc := Seated(sid));
      JoinFindsSession(l, c, k.roomid, sid);
      EnterJoins(o.value, c, k');
      JoinedInv(l, c, k', k.roomid, sid, o.value, Enter(o.value, c).1);
    }
  }

  /** The call that succeeds, told by what it stores. */
  lemma WatchEffect(l: Lobby, c: Cid, sid: int)
    requires UsersOk(l) && c in l.clients && l.clients[c].pc == Checked(WatchSession(sid))
    ensures var k := l.clients[c];
            var o := At(l.rooms, k.roomid, sid);
            && k.roomid in l.rooms
            && CallWatchSession(l, c, sid) ==
               if o.None? || Watch(o.value, c).0 < 0 then Done(l, c)
               else Put(PutSession(l, k.roomid, sid, Watch(o.value, c).1), c, k.(pc := Watcher(sid)))
  {
    JoinFindsRoom(l, c);
  }

  lemma WatchSessionInv(l: Lobby, c: Cid, sid: int)
    requires Inv(l) && c in l.clients && l.clients[c].pc == Checked(WatchSession(sid))
    ensures Inv(CallWatchSession(l, c, sid)) && CallWatchSession(l, c, sid).halted == l.halted
  {
    JoinFindsRoom(l, c);
    WatchEffect(l, c, sid);
    var k := l.clients[c];
    var o := At(l.rooms, k.roomid, sid);
    if o.None? || Watch(o.value, c).0 < 0 {
      DoneInv(l, c);
    } else {
      var k' := k.(pc := Watcher(sid));
      JoinFindsSession(l, c, k.roomid, sid);
      WatchJoins(o.value, c, k');
      JoinedInv(l, c, k', k.roomid, sid, o.value, Watch(o.value, c).1);
    }
  }

  /** The client is about to leave its session: by request or on the disconnect path. */
  predicate LeavingSession(k: Client) {
    k.pc == Checked(LeaveSession) || (k.pc.Free? && k.closing && k.sessionid > 0)
  }

  lemma LeaveFindsRoom(l: Lobby, c: Cid)
    requires UsersOk(l) && c in l.clients && LeavingSession(l.clients[c])
    ensures var k := l.clients[c]; k.roomid > 0 && k.sessionid > 0 && k.roomid in l.rooms && ClientOk(k.(pc := OutOfSession))
    ensures RoomOf(l.clients[c]) == l.clients[c].roomid && SessionOf(l.clients[c]) == l.clients[c].sessionid
  {
    assert ClientAt(l, c);
  }

  lemma LeftSession(l: Lobby, cs': map<Cid, Client>, c: Cid, rid: int, sid: int, s: Session<Cid>)
    requires SessionOk(l.clients, rid, sid, s) && OthersKept(l.clients, cs', c) && c in Members(s)
    requires Leave(s, c).0 > 0
    ensures SessionOk(cs', rid, sid, Leave(s, c).1)
  {
    LeaveRemoves(s, c);
    var t := Leave(s, c).1;
    forall m | m in Members(t) ensures MemberOk(cs', rid, sid, t, m) {
      assert MemberOk(l.clients, rid, sid, s, m);
    }
  }

  lemma LeftSeats(cs: map<Cid, Client>, cs': map<Cid, Client>, c: Cid, s: Session<Cid>)
    requires SeatsOk(cs, s) && OthersKept(cs, cs', c) && WellFormed(s)
    requires forall m :: m in Players(s) ==> m in cs
    ensures SeatsOk(cs', Leave(s, c).1) || c !in Members(s)
  {
    assert s.owner.Some? ==> s.owner.value in Players(s);
    assert s.opponent.Some? ==> s.opponent.value in Players(s);
  }

  /** The last participant leaves and the session goes. */
  lemma DropSessionAt(l: Lobby, c: Cid, k: Client, rid: int, sid: int)
    requires rid in l.rooms && c in l.clients
    requires RoomOf(k) == RoomOf(l.clients[c]) && k.name == l.clients[c].name
    ensures var l' := Put(DropSession(l, rid, sid), c, k);
            && RoomsKept(l, l', c) && At(l'.rooms, rid, sid) == None
            && forall r, i :: (r, i) != (rid, sid) ==> At(l'.rooms, r, i) == At(l.rooms, r, i)
  {
  }

  lemma DroppedInv(l: Lobby, c: Cid, k: Client, rid: int, sid: int)
    requires Inv(l) && c in l.clients && rid in l.rooms && ClientOk(k)
    requires RoomOf(k) == RoomOf(l.clients[c]) && k.name == l.clients[c].name
    requires RoomOf(l.clients[c]) == rid && SessionOf(l.clients[c]) == sid
    ensures Inv(Put(DropSession(l, rid, sid), c, k))
  {
    var l' := Put(DropSession(l, rid, sid), c, k);
    DropSessionAt(l, c, k, rid, sid);
    RoomsKeptUsers(l, l', c);
    OneSessionChanges(l, l', c, rid, sid);
  }

  lemma LeftInv(l: Lobby, c: Cid, k: Client, rid: int, sid: int, s: Session<Cid>)
    requires Inv(l) && c in l.clients && At(l.rooms, rid, sid) == Some(s) && ClientOk(k)
    requires RoomOf(k) == RoomOf(l.clients[c]) && k.name == l.clients[c].name
    requires RoomOf(l.clients[c]) == rid && SessionOf(l.clients[c]) == sid
    requires Leave(s, c).0 > 0
    ensures Inv(Put(PutSession(l, rid, sid, Leave(s, c).1), c, k))
  {
    assert SessionAt(l, rid, sid) && GameAt(l, rid, sid);
    LeaveRemoves(s, c);
    LeftSession(l, l.clients[c := k], c, rid, sid, s);
    PlayersAreClients(l.clients, rid, sid, s);
    LeftSeats(l.clients, l.clients[c := k], c, s);
    ReplacedInv(l, c, k, rid, sid, Leave(s, c).1);
  }

  lemma LeaveSessionInv(l: Lobby, c: Cid)
    requires Inv(l) && c in l.clients && LeavingSession(l.clients[c])
    ensures Inv(CallLeaveSession(l, c))
  {
    LeaveFindsRoom(l, c);
    var k := l.clients[c];
    var o := At(l.rooms, k.roomid, k.sessionid);
    if o.None? || Leave(o.value, c).0 < 0 {
      HaltInv(l);
    } else if Leave(o.value, c).0 == 0 {
      DroppedInv(l, c, k.(pc := OutOfSession), k.roomid, k.sessionid);
    } else {
      LeftInv(l, c, k.(pc := OutOfSession), k.roomid, k.sessionid, o.value);
    }
  }

  lemma HaltInv(l: Lobby)
    requires Inv(l)
    ensures Inv(Halt(l))
  {
    forall rid ensures RoomAt(Halt(l), rid) { assert RoomAt(l, rid); }
    forall c: Cid ensures ClientAt(Halt(l), c) { assert ClientAt(l, c); }
    forall rid, sid ensures SessionAt(Halt(l), rid, sid) { assert SessionAt(l, rid, sid); }
    forall rid, sid ensures GameAt(Halt(l), rid, sid) { assert GameAt(l, rid, sid); }
  }

  // ----- becoming ready ------------------------------------------------------------------------

  /** What the clients' states may do outside one session: nothing. */
  ghost predicate StatesKept(cs: map<Cid, Client>, cs': map<Cid, Client>, rid: int, sid: int) {
    forall m :: m in cs ==>
      m in cs' && (cs'[m].state == cs[m].state || (RoomOf(cs[m]) == rid && SessionOf(cs[m]) == sid))
  }

  lemma OtherGames(l: Lobby, l': Lobby, rid: int, sid: int)
    requires SessionsOk(l) && GamesOk(l) && l'.rooms == l.rooms
    requires StatesKept(l.clients, l'.clients, rid, sid) && GameAt(l', rid, sid)
    ensures GamesOk(l')
  {
    forall r, i ensures GameAt(l', r, i) {
      if (r, i) != (rid, sid) && At(l.rooms, r, i).Some? {
        assert SessionAt(l, r, i) && GameAt(l, r, i);
        SameSeats(l.clients, l'.clients, rid, sid, r, i, At(l.rooms, r, i).value);
      }
    }
  }

  lemma SameSeats(cs: map<Cid, Client>, cs': map<Cid, Client>, rid: int, sid: int, r: int, i: int, s: Session<Cid>)
    requires SessionOk(cs, r, i, s) && SeatsOk(cs, s) && (r, i) != (rid, sid) && StatesKept(cs, cs', rid, sid)
    ensures SeatsOk(cs', s)
  {
    forall m | m in Players(s) ensures m in cs && m in cs' && cs'[m].state == cs[m].state {
      assert m in Members(s);
      assert MemberOk(cs, r, i, s, m);
    }
    assert s.owner.Some? ==> s.owner.value in Players(s);
    assert s.opponent.Some? ==> s.opponent.value in Players(s);
  }

  /** The client about to become ready and the session it names. */
  lemma ReadyFinds(l: Lobby, c: Cid)
    requires UsersOk(l) && SessionsOk(l) && c in l.clients && l.clients[c].pc == Checked(MakeReady)
    ensures var k := l.clients[c];
            && k.state == Sessional && k.roomid > 0 && k.sessionid > 0 && k.roomid in l.rooms
            && RoomOf(k) == k.roomid && SessionOf(k) == k.sessionid
            && ClientOk(k.(state := Ready, pc := Free)) && SamePlace(k, k.(state := Ready, pc := Free))
  {
    assert ClientAt(l, c);
  }

  /** A rival that is ready can be given a game. */
  lemma RivalPlays(l: Lobby, rid: int, sid: int, s: Session<Cid>, c: Cid, st: PlayState)
    requires UsersOk(l) && SessionsOk(l) && At(l.rooms, rid, sid) == Some(s) && c in Players(s) && RivalReady(l, s, c)
    requires st == Moving || st == Pondering
    ensures var o := Rival(s, c).value;
            && o != c && o in Players(s) && RoomOf(l.clients[o]) == rid && SessionOf(l.clients[o]) == sid
            && ClientOk(l.clients[o].(state := st)) && SamePlace(l.clients[o], l.clients[o].(state := st))
  {
    var o := Rival(s, c).value;
    assert SessionAt(l, rid, sid) && ClientAt(l, o);
    assert o in Players(s) && o in Members(s);
    assert MemberOk(l.clients, rid, sid, s, o);
  }

  function ReadyStates(s: Session<Cid>, c: Cid): (r: (PlayState, PlayState)) {
    if Mover(s) == Some(c) then (Moving, Pondering) else (Pondering, Moving)
  }

  /** The two players of a game that starts, c's client and its rival's. */
  function Started(l: Lobby, s: Session<Cid>, c: Cid): Lobby
    requires c in l.clients && RivalReady(l, s, c)
  {
    var o := Rival(s, c).value;
    Put(Put(l, c, l.clients[c].(state := ReadyStates(s, c).0, pc := Free)),
        o, l.clients[o].(state := ReadyStates(s, c).1))
  }

  lemma StartEffect(l: Lobby, s: Session<Cid>, c: Cid)
    requires c in l.clients && WellFormed(s) && c in Players(s) && RivalReady(l, s, c)
    ensures SetSeat(SetSeat(Put(l, c, l.clients[c].(state := Ready, pc := Free)), Mover(s), Moving), Waiter(s), Pondering)
         == Started(l, s, c)
  {
    var o := Rival(s, c).value;
    var l1 := Put(l, c, l.clients[c].(state := Ready, pc := Free));
    assert o != c;
    if Mover(s) == Some(c) {
      SeatsPut(l, c, o, l1, Moving, Pondering);
    } else {
      SeatsPut(l, c, o, l1, Pondering, Moving);
    }
  }

  /** Two clients' states written one after the other, in either order. */
  lemma SeatsPut(l: Lobby, c: Cid, o: Cid, l1: Lobby, a: PlayState, b: PlayState)
    requires c in l.clients && o in l.clients && c != o && l1 == Put(l, c, l.clients[c].(state := Ready, pc := Free))
    ensures var cs := l.clients[c := l.clients[c].(state := a, pc := Free)][o := l.clients[o].(state := b)];
            && SetSeat(SetSeat(l1, Some(c), a), Some(o), b) == l.(clients := cs)
            && SetSeat(SetSeat(l1, Some(o), b), Some(c), a) == l.(clients := cs)
  {
    var cs := l.clients[c := l.clients[c].(state := a, pc := Free)][o := l.clients[o].(state := b)];
    assert SetSeat(SetSeat(l1, Some(c), a), Some(o), b).clients == cs;
    assert SetSeat(SetSeat(l1, Some(o), b), Some(c), a).clients == cs;
  }

  lemma ReadyAloneInv(l: Lobby, c: Cid, s: Session<Cid>)
    requires Inv(l) && c in l.clients && l.clients[c].pc == Checked(MakeReady)
    requires At(l.rooms, l.clients[c].roomid, l.clients[c].sessionid) == Some(s) && c in Players(s) && !RivalReady(l, s, c)
    ensures Inv(Put(l, c, l.clients[c].(state := Ready, pc := Free)))
  {
    ReadyFinds(l, c);
    var k := l.clients[c].(state := Ready, pc := Free);
    var l' := Put(l, c, k);
    PutUsers(l, c, k);
    PutNames(l, c, k);
    PutSessions(l, c, k);
    assert SessionAt(l, k.roomid, k.sessionid);
    OtherGames(l, l', k.roomid, k.sessionid);
  }

  /** Two clients change, each staying in its place. */
  lemma TwoPlaced(l: Lobby, c: Cid, k: Client, o: Cid, q: Client)
    requires UsersOk(l) && NamesOk(l) && SessionsOk(l) && c in l.clients && o in l.clients && o != c
    requires SamePlace(l.clients[c], k) && ClientOk(k) && SamePlace(l.clients[o], q) && ClientOk(q)
    ensures var l' := Put(Put(l, c, k), o, q); UsersOk(l') && NamesOk(l') && SessionsOk(l')
  {
    var l1 := Put(l, c, k);
    PutUsers(l, c, k);
    PutNames(l, c, k);
    PutSessions(l, c, k);
    PutUsers(l1, o, q);
    PutNames(l1, o, q);
    PutSessions(l1, o, q);
  }

  /** The game that starts is a right one, and no other seats are touched. */
  lemma StartedGames(l: Lobby, c: Cid, s: Session<Cid>, rid: int, sid: int)
    requires SessionsOk(l) && GamesOk(l) && At(l.rooms, rid, sid) == Some(s) && c in Players(s) && c in l.clients
    requires RivalReady(l, s, c) && Rival(s, c).value != c
    requires RoomOf(l.clients[c]) == rid && SessionOf(l.clients[c]) == sid
    requires var o := Rival(s, c).value; RoomOf(l.clients[o]) == rid && SessionOf(l.clients[o]) == sid
    ensures GamesOk(Started(l, s, c))
  {
    OtherGames(l, Started(l, s, c), rid, sid);
  }

  lemma ReadyStatePlaces(k: Client, st: PlayState)
    requires ClientOk(k) && k.pc == Checked(MakeReady) && (st == Moving || st == Pondering)
    ensures ClientOk(k.(state := st, pc := Free)) && SamePlace(k, k.(state := st, pc := Free))
  {
  }

  lemma GameStartsInv(l: Lobby, c: Cid, s: Session<Cid>)
    requires Inv(l) && c in l.clients && l.clients[c].pc == Checked(MakeReady)
    requires At(l.rooms, l.clients[c].roomid, l.clients[c].sessionid) == Some(s) && c in Players(s) && RivalReady(l, s, c)
    ensures Inv(Started(l, s, c))
  {
    ReadyFinds(l, c);
    assert ClientAt(l, c);
    var k, o := l.clients[c], Rival(s, c).value;
    RivalPlays(l, k.roomid, k.sessionid, s, c, ReadyStates(s, c).1);
    ReadyStatePlaces(k, ReadyStates(s, c).0);
    TwoPlaced(l, c, k.(state := ReadyStates(s, c).0, pc := Free), o, l.clients[o].(state := ReadyStates(s, c).1));
    StartedGames(l, c, s, k.roomid, k.sessionid);
  }

  lemma MakeReadyInv(l: Lobby, c: Cid)
    requires Inv(l) && c in l.clients && l.clients[c].pc == Checked(MakeReady)
    ensures Inv(CallMakeReady(l, c))
  {
    ReadyFinds(l, c);
    var k := l.clients[c];
    var o := At(l.rooms, k.roomid, k.sessionid);
    if o.None? || c !in Players(o.value) {
      HaltInv(l);
    } else if RivalReady(l, o.value, c) {
      assert SessionAt(l, k.roomid, k.sessionid);
      StartEffect(l, o.value, c);
      GameStartsInv(l, c, o.value);
    } else {
      ReadyAloneInv(l, c, o.value);
    }
  }

  // ----- every step and every run ----------------------------------------------------------------

  lemma RequestInv(l: Lobby, c: Cid)
    requires Inv(l) && c in l.clients && l.clients[c].pc.Checked?
    ensures Inv(CallRequest(l, c, l.clients[c].pc.req))
  {
    match l.clients[c].pc.req
    case EnterRoom(rid) => EnterRoomInv(l, c, rid);
    case LeaveRoom => LeaveRoomInv(l, c);
    case MakeSession => MakeSessionInv(l, c);
    case EnterSession(sid) => EnterSessionInv(l, c, sid);
    case LeaveSession => LeaveSessionInv(l, c);
    case WatchSession(sid) => WatchSessionInv(l, c, sid);
    case MakeReady => MakeReadyInv(l, c);
    case Other(what) => PlainSucceeds(l, c, what); DoneInv(l, c);
  }

  lemma CloseInv(l: Lobby, c: Cid)
    requires Inv(l) && c in l.clients && l.clients[c].pc.Free? && l.clients[c].closing
    ensures Inv(CallClose(l, c))
  {
    assert ClientAt(l, c);
    if l.clients[c].sessionid > 0 {
      LeaveSessionInv(l, c);
    } else if l.clients[c].roomid > 0 {
      LeaveRoomInv(l, c);
    } else {
      RemoveInv(l, c);
    }
  }

  lemma CallInv(l: Lobby, c: Cid)
    requires Inv(l)
    ensures Inv(Next(l, Call(c)))
  {
    if !l.halted && c in l.clients {
      if l.clients[c].pc.Checked? {
        RequestInv(l, c);
      } else if l.clients[c].pc.Free? && l.clients[c].closing {
        CloseInv(l, c);
      } else if InGenid(l.clients[c]) {
        MakingInv(l, c);
      }
    }
  }

  lemma StepInv(l: Lobby, ev: Event)
    requires Inv(l)
    ensures Inv(Next(l, ev))
  {
    match ev
    case Login(c, name) => LoginInv(l, c, name);
    case Ask(c, req) => AskInv(l, c, req);
    case Call(c) => CallInv(l, c);
    case Commit(c) => CommitInv(l, c);
    case Hangup(c) => HangupInv(l, c);
  }

  lemma {:induction false} RunInv(l: Lobby, es: seq<Event>)
    requires Inv(l)
    ensures Inv(Run(l, es))
    decreases |es|
  {
    if es != [] {
      StepInv(l, es[0]);
      RunInv(Next(l, es[0]), es[1..]);
    }
  }
}
