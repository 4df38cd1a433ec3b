/**
 What holds over whole runs of the lobby, from the server's opening on: who is where,
 when the two records of membership agree, when an ASSERT fails, when games start and
 what a disconnect leaves behind.
 */
module LobbyRuns {
  import opened Prelude
  import opened Session
  import opened Lobby
  import opened LobbySteps

  // ----- who is where -------------------------------------------------------------------------

  /** c is a participant of the session stored under sid in room rid. */
  predicate In(l: Lobby, rid: int, sid: int, c: Cid) {
    At(l.rooms, rid, sid).Some? && c in Members(At(l.rooms, rid, sid).value)
  }

  lemma MembersKnow(l: Lobby)
    requires Inv(l)
    ensures forall rid, sid, c :: In(l, rid, sid, c) ==> MemberOk(l.clients, rid, sid, At(l.rooms, rid, sid).value, c)
    ensures forall rid, sid :: At(l.rooms, rid, sid).Some? ==> WellFormed(At(l.rooms, rid, sid).value)
  {
    forall rid, sid | At(l.rooms, rid, sid).Some?
      ensures SessionOk(l.clients, rid, sid, At(l.rooms, rid, sid).value) {
      assert SessionAt(l, rid, sid);
    }
  }

  lemma UsersAreThere(l: Lobby)
    requires Inv(l)
    ensures forall rid, c :: rid in l.rooms ==>
              (c in l.rooms[rid].users <==> c in l.clients && RoomOf(l.clients[c]) == rid)
    ensures forall rid :: rid in l.rooms ==> |l.rooms[rid].users| <= l.rooms[rid].capacity
  {
    forall rid | rid in l.rooms ensures |l.rooms[rid].users| <= l.rooms[rid].capacity {
      assert RoomAt(l, rid);
    }
    forall rid, c | rid in l.rooms
      ensures c in l.rooms[rid].users <==> c in l.clients && RoomOf(l.clients[c]) == rid {
      assert RoomAt(l, rid) && ClientAt(l, c);
    }
  }

  /** In every run: a seated player or a watcher of a stored session is a client that
      is in that room and session and plays or watches there; no client has two roles
      anywhere; a room's users are exactly the clients that are in it. */
  lemma RolesAreRight(l0: Lobby, es: seq<Event>)
    requires Opening(l0)
    ensures var l := Run(l0, es);
            && (forall rid, sid, c :: In(l, rid, sid, c) ==>
                  && c in l.clients && RoomOf(l.clients[c]) == rid && SessionOf(l.clients[c]) == sid
                  && (c in Players(At(l.rooms, rid, sid).value) ==> Plays(l.clients[c]))
                  && (c in At(l.rooms, rid, sid).value.watchers ==> Watches(l.clients[c])))
            && (forall r1, s1, r2, s2, c :: In(l, r1, s1, c) && In(l, r2, s2, c) ==> (r1, s1) == (r2, s2))
            && (forall rid, sid :: At(l.rooms, rid, sid).Some? ==> WellFormed(At(l.rooms, rid, sid).value))
            && (forall rid, c :: rid in l.rooms ==>
                  (c in l.rooms[rid].users <==> c in l.clients && RoomOf(l.clients[c]) == rid))
            && (forall rid :: rid in l.rooms ==> |l.rooms[rid].users| <= l.rooms[rid].capacity)
  {
    OpeningInv(l0);
    RunInv(l0, es);
    MembersKnow(Run(l0, es));
    UsersAreThere(Run(l0, es));
  }

  /** Between requests the fields themselves say it. */
  lemma FieldsAreRight(l0: Lobby, es: seq<Event>, rid: int, sid: int, c: Cid)
    requires Opening(l0) && In(Run(l0, es), rid, sid, c)
    requires c in Run(l0, es).clients ==> Run(l0, es).clients[c].pc.Free?
    ensures var l := Run(l0, es);
            && c in l.clients && l.clients[c].roomid == rid && l.clients[c].sessionid == sid
            && (c in Players(At(l.rooms, rid, sid).value) ==>
                  l.clients[c].state in {Sessional, Ready, Moving, Pondering})
            && (c in At(l.rooms, rid, sid).value.watchers ==> l.clients[c].state == Watching)
  {
    RolesAreRight(l0, es);
  }

  // ----- when the two records agree -----------------------------------------------------------

  /** A client that is in a session is one of its participants. */
  predicate Present(l: Lobby, c: Cid) {
    c in l.clients && SessionOf(l.clients[c]) > 0 ==> In(l, RoomOf(l.clients[c]), SessionOf(l.clients[c]), c)
  }

  ghost predicate Agree(l: Lobby) { forall c :: Present(l, c) }

  /** The call enters a session nobody is seated in. */
  predicate EntersSeatless(l: Lobby, ev: Event) {
    && !l.halted && ev.Call? && ev.c in l.clients && l.clients[ev.c].pc.Checked? && l.clients[ev.c].pc.req.EnterSession?
    && var o := At(l.rooms, l.clients[ev.c].roomid, l.clients[ev.c].pc.req.sid);
       o.Some? && Players(o.value) == {}
  }

  /** The insertion of a new session over a stored one that has the id it drew. */
  predicate Overwrites(l: Lobby, ev: Event) {
    && !l.halted && ev.Call? && ev.c in l.clients && l.clients[ev.c].pc.Named?
    && At(l.rooms, l.clients[ev.c].roomid, IdOf(l.clients[ev.c].pc.n)).Some?
  }

  predicate NeverBad(l: Lobby, es: seq<Event>)
    decreases |es|
  {
    es == [] || (!EntersSeatless(l, es[0]) && !Overwrites(l, es[0]) && NeverBad(Next(l, es[0]), es[1..]))
  }

  // ----- what a step leaves alone -------------------------------------------------------------

  /** The clients other than a stay, in their places. */
  ghost predicate Placed(cs: map<Cid, Client>, cs': map<Cid, Client>, a: Cid) {
    && (forall m :: m != a ==> (m in cs' <==> m in cs))
    && (forall m :: m != a && m in cs ==> RoomOf(cs'[m]) == RoomOf(cs[m]) && SessionOf(cs'[m]) == SessionOf(cs[m]))
  }

  ghost predicate Shrunk(l: Lobby, l': Lobby, a: Cid) {
    forall r, i, m :: m != a && In(l', r, i, m) ==> In(l, r, i, m)
  }

  ghost predicate Stayed(l: Lobby, l': Lobby, a: Cid) {
    forall r, i, m :: m != a && In(l, r, i, m) ==> In(l', r, i, m)
  }

  /** Only one place for a session changed, and there only whether a is in. */
  lemma OnePlace(l: Lobby, l': Lobby, a: Cid, rid: int, sid: int)
    requires forall r, i :: (r, i) != (rid, sid) ==> At(l'.rooms, r, i) == At(l.rooms, r, i)
    requires At(l.rooms, rid, sid).Some?
    requires var s := At(l.rooms, rid, sid).value;
             if At(l'.rooms, rid, sid).Some? then Members(At(l'.rooms, rid, sid).value) - {a} == Members(s) - {a}
             else Members(s) <= {a}
    ensures Shrunk(l, l', a) && Stayed(l, l', a)
  {
    var s := At(l.rooms, rid, sid).value;
    forall m | m != a ensures In(l', rid, sid, m) <==> In(l, rid, sid, m) {
      assert m in Members(s) <==> m in Members(s) - {a};
      if At(l'.rooms, rid, sid).Some? {
        var t := At(l'.rooms, rid, sid).value;
        assert m in Members(t) <==> m in Members(t) - {a};
      }
    }
    forall r, i, m | m != a ensures In(l', r, i, m) <==> In(l, r, i, m) {
    }
  }

  /** A step that moves at most a. */
  ghost predicate Undisturbed(l: Lobby, l': Lobby, a: Cid) {
    Placed(l.clients, l'.clients, a) && Shrunk(l, l', a) && Stayed(l, l', a)
  }

  lemma StoredOver(l: Lobby, c: Cid, k: Client, rid: int, sid: int, t: Session<Cid>)
    requires c in l.clients && rid in l.rooms && RoomOf(k) == RoomOf(l.clients[c]) && k.name == l.clients[c].name
    requires At(l.rooms, rid, sid).Some?
    requires Members(t) - {c} == Members(At(l.rooms, rid, sid).value) - {c}
    ensures Undisturbed(l, Put(PutSession(l, rid, sid, t), c, k), c)
    ensures At(Put(PutSession(l, rid, sid, t), c, k).rooms, rid, sid) == Some(t)
  {
    PutSessionAt(l, c, k, rid, sid, t);
    OnePlace(l, Put(PutSession(l, rid, sid, t), c, k), c, rid, sid);
  }

  /** A join leaves the others alone and makes c present exactly when it got a place. */
  lemma JoinOthers(l: Lobby, c: Cid, k: Client, rid: int, sid: int, s: Session<Cid>, t: Session<Cid>)
    requires c in l.clients && At(l.rooms, rid, sid) == Some(s) && Members(t) - {c} == Members(s) - {c}
    requires RoomOf(k) == RoomOf(l.clients[c]) == rid && k.name == l.clients[c].name && SessionOf(k) == sid > 0
    ensures var l' := Put(PutSession(l, rid, sid, t), c, k);
            Undisturbed(l, l', c) && (Present(l', c) <==> c in Members(t))
  {
    StoredOver(l, c, k, rid, sid, t);
  }

  lemma DoneOthers(l: Lobby, c: Cid)
    requires c in l.clients && l.clients[c].pc.Checked?
    ensures Undisturbed(l, Done(l, c), c) && (Present(Done(l, c), c) <==> Present(l, c))
  {
    SameSessions(l, Done(l, c), c);
  }

  lemma EnterMembers(s: Session<Cid>, c: Cid)
    requires WellFormed(s) && c !in Members(s) && Enter(s, c).0 >= 0
    ensures var t := Enter(s, c).1;
            Members(t) - {c} == Members(s) - {c} && (c in Members(t) <==> Players(s) != {})
  {
    EnterSeats(s, c);
  }

  lemma EnterOthers(l: Lobby, c: Cid, sid: int)
    requires Inv(l) && !l.halted && c in l.clients && l.clients[c].pc == Checked(EnterSession(sid))
    ensures var l' := CallEnterSession(l, c, sid);
            Undisturbed(l, l', c) && !l'.halted && (Present(l', c) <==> !EntersSeatless(l, Call(c)))
  {
    JoinFindsRoom(l, c);
    EnterEffect(l, c, sid);
    var k := l.clients[c];
    var o := At(l.rooms, k.roomid, sid);
    if o.None? || Enter(o.value, c).0 < 0 {
      DoneOthers(l, c);
    } else {
      JoinFindsSession(l, c, k.roomid, sid);
      EnterMembers(o.value, c);
      JoinOthers(l, c, k.(pc := Seated(sid)), k.roomid, sid, o.value, Enter(o.value, c).1);
    }
  }

  lemma WatchMembers(s: Session<Cid>, c: Cid)
    requires WellFormed(s) && c !in Members(s) && Watch(s, c).0 >= 0
    ensures var t := Watch(s, c).1; Members(t) - {c} == Members(s) - {c} && c in Members(t)
  {
    WatchAdds(s, c);
  }

  lemma WatchOthers(l: Lobby, c: Cid, sid: int)
    requires Inv(l) && !l.halted && c in l.clients && l.clients[c].pc == Checked(WatchSession(sid))
    ensures var l' := CallWatchSession(l, c, sid); Undisturbed(l, l', c) && !l'.halted && Present(l', c)
  {
    JoinFindsRoom(l, c);
    WatchEffect(l, c, sid);
    var k := l.clients[c];
    var o := At(l.rooms, k.roomid, sid);
    if o.None? || Watch(o.value, c).0 < 0 {
      DoneOthers(l, c);
    } else {
      WatcherOthers(l, c, sid, o.value);
    }
  }

  lemma WatcherOthers(l: Lobby, c: Cid, sid: int, s: Session<Cid>)
    requires Inv(l) && c in l.clients && l.clients[c].pc == Checked(WatchSession(sid))
    requires At(l.rooms, l.clients[c].roomid, sid) == Some(s) && Watch(s, c).0 >= 0
    ensures var k := l.clients[c];
            var l' := Put(PutSession(l, k.roomid, sid, Watch(s, c).1), c, k.(pc := Watcher(sid)));
            Undisturbed(l, l', c) && Present(l', c)
  {
    var k := l.clients[c];
    JoinFindsRoom(l, c);
    JoinFindsSession(l, c, k.roomid, sid);
    WatchMembers(s, c);
    JoinOthers(l, c, k.(pc := Watcher(sid)), k.roomid, sid, s, Watch(s, c).1);
  }

  /** Creating: a new place is taken, or one is taken over. */
  lemma StoredNew(l: Lobby, c: Cid, k: Client, rid: int, sid: int, t: Session<Cid>)
    requires c in l.clients && rid in l.rooms && RoomOf(k) == RoomOf(l.clients[c]) == rid && k.name == l.clients[c].name
    requires Members(t) == {c} && SessionOf(k) == sid
    ensures var l' := Put(PutSession(l, rid, sid, t), c, k);
            && Placed(l.clients, l'.clients, c) && Shrunk(l, l', c) && Present(l', c)
            && (At(l.rooms, rid, sid).None? ==> Stayed(l, l', c)) && At(l'.rooms, rid, sid) == Some(t)
  {
    PutSessionAt(l, c, k, rid, sid, t);
  }

  lemma StoreOthers(l: Lobby, c: Cid, n: nat)
    requires Inv(l) && !l.halted && c in l.clients && l.clients[c].pc == Named(n)
    ensures var l' := CallMaking(l, c);
            && Placed(l.clients, l'.clients, c) && Shrunk(l, l', c) && Present(l', c) && !l'.halted
            && (if Overwrites(l, Call(c)) then !Agree(l') else Stayed(l, l', c))
  {
    MakingFindsRoom(l, c);
    var k := l.clients[c];
    assert Members(NewSession(c, n)) == {c};
    StoredNew(l, c, k.(pc := Seated(IdOf(n))), k.roomid, IdOf(n), NewSession(c, n));
    if At(l.rooms, k.roomid, IdOf(n)).Some? {
      Displaced(l, CallMaking(l, c), c, k.roomid, IdOf(n));
    }
  }

  /** Those of an overwritten session are left with an id that is no longer theirs. */
  lemma Displaced(l: Lobby, l': Lobby, c: Cid, rid: int, sid: int)
    requires SessionsOk(l) && At(l.rooms, rid, sid).Some? && c in l.clients && SessionOf(l.clients[c]) <= 0 && sid > 0
    requires Placed(l.clients, l'.clients, c) && At(l'.rooms, rid, sid).Some?
    requires Members(At(l'.rooms, rid, sid).value) == {c}
    ensures !Agree(l')
  {
    assert SessionAt(l, rid, sid);
    var s := At(l.rooms, rid, sid).value;
    var m :| m in Members(s);
    assert MemberOk(l.clients, rid, sid, s, m);
    assert !Present(l', m);
  }

  lemma LeaveMembers(s: Session<Cid>, c: Cid)
    requires WellFormed(s)
    ensures var (ret, t) := Leave(s, c);
            && (ret < 0 <==> c !in Members(s))
            && Members(t) - {c} == Members(s) - {c}
            && (ret == 0 ==> Members(s) <= {c})
  {
    LeaveRemoves(s, c);
  }

  /** The last one out takes the session away. */
  lemma DropOthers(l: Lobby, c: Cid, k: Client, rid: int, sid: int)
    requires c in l.clients && RoomOf(k) == RoomOf(l.clients[c]) && k.name == l.clients[c].name
    requires At(l.rooms, rid, sid).Some? && Members(At(l.rooms, rid, sid).value) <= {c}
    ensures Undisturbed(l, Put(DropSession(l, rid, sid), c, k), c)
  {
    DropSessionAt(l, c, k, rid, sid);
    OnePlace(l, Put(DropSession(l, rid, sid), c, k), c, rid, sid);
  }

  lemma HaltOthers(l: Lobby, c: Cid)
    ensures Undisturbed(l, Halt(l), c) && (Present(Halt(l), c) <==> Present(l, c))
  {
    SameSessions(l, Halt(l), c);
  }

  lemma LeaveOthers(l: Lobby, c: Cid)
    requires Inv(l) && !l.halted && c in l.clients && LeavingSession(l.clients[c])
    ensures var l' := CallLeaveSession(l, c);
            Undisturbed(l, l', c) && (l'.halted <==> !Present(l, c)) && (Present(l, c) ==> Present(l', c))
  {
    LeaveFindsRoom(l, c);
    var k := l.clients[c];
    var o := At(l.rooms, k.roomid, k.sessionid);
    if o.None? {
      HaltOthers(l, c);
    } else {
      assert SessionAt(l, k.roomid, k.sessionid);
      LeaveMembers(o.value, c);
      if Leave(o.value, c).0 < 0 {
        HaltOthers(l, c);
      } else if Leave(o.value, c).0 == 0 {
        DropOthers(l, c, k.(pc := OutOfSession), k.roomid, k.sessionid);
      } else {
        StoredOver(l, c, k.(pc := OutOfSession), k.roomid, k.sessionid, Leave(o.value, c).1);
      }
    }
  }

  /** A client about to become ready that is in its session is seated there. */
  lemma ReadySeated(l: Lobby, c: Cid)
    requires Inv(l) && c in l.clients && l.clients[c].pc == Checked(MakeReady)
    ensures var k := l.clients[c];
            Present(l, c) <==> At(l.rooms, k.roomid, k.sessionid).Some? && c in Players(At(l.rooms, k.roomid, k.sessionid).value)
  {
    ReadyFinds(l, c);
    var k := l.clients[c];
    if In(l, k.roomid, k.sessionid, c) {
      assert SessionAt(l, k.roomid, k.sessionid);
      assert MemberOk(l.clients, k.roomid, k.sessionid, At(l.rooms, k.roomid, k.sessionid).value, c);
    }
  }

  /** All clients stay where they are. */
  ghost predicate PlacesKept(l: Lobby, l': Lobby) {
    && l'.rooms == l.rooms && l'.clients.Keys == l.clients.Keys && l'.halted == l.halted
    && forall m :: m in l.clients ==>
         RoomOf(l'.clients[m]) == RoomOf(l.clients[m]) && SessionOf(l'.clients[m]) == SessionOf(l.clients[m])
  }

  lemma PlacesKeptOthers(l: Lobby, l': Lobby, c: Cid)
    requires PlacesKept(l, l') && c in l.clients
    ensures Undisturbed(l, l', c) && (Present(l', c) <==> Present(l, c))
  {
  }

  lemma StartedPlaces(l: Lobby, s: Session<Cid>, c: Cid)
    requires c in l.clients && RivalReady(l, s, c) && c != Rival(s, c).value
    requires SamePlace(l.clients[c], l.clients[c].(state := Ready, pc := Free))
    ensures PlacesKept(l, Started(l, s, c))
  {
  }

  /** What becoming ready does when it does not fail. */
  lemma ReadyEffect(l: Lobby, c: Cid)
    requires Inv(l) && c in l.clients && l.clients[c].pc == Checked(MakeReady) && Present(l, c)
    ensures var k := l.clients[c];
            At(l.rooms, k.roomid, k.sessionid).Some? &&
            var s := At(l.rooms, k.roomid, k.sessionid).value;
            && WellFormed(s) && c in Players(s)
            && CallMakeReady(l, c) == if RivalReady(l, s, c) then Started(l, s, c) else Put(l, c, k.(state := Ready, pc := Free))
  {
    ReadySeated(l, c);
    ReadyFinds(l, c);
    var k := l.clients[c];
    var s := At(l.rooms, k.roomid, k.sessionid).value;
    assert SessionAt(l, k.roomid, k.sessionid);
    if RivalReady(l, s, c) {
      StartEffect(l, s, c);
    }
  }

  /** The same with the session named. */
  lemma ReadyOutcome(l: Lobby, c: Cid) returns (s: Session<Cid>)
    requires Inv(l) && c in l.clients && l.clients[c].pc == Checked(MakeReady) && Present(l, c)
    ensures At(l.rooms, l.clients[c].roomid, l.clients[c].sessionid) == Some(s) && WellFormed(s) && c in Players(s)
    ensures CallMakeReady(l, c) ==
            if RivalReady(l, s, c) then Started(l, s, c) else Put(l, c, l.clients[c].(state := Ready, pc := Free))
  {
    ReadyEffect(l, c);
    s := At(l.rooms, l.clients[c].roomid, l.clients[c].sessionid).value;
  }

  lemma ReadyHalts(l: Lobby, c: Cid)
    requires Inv(l) && c in l.clients && l.clients[c].pc == Checked(MakeReady) && !Present(l, c)
    ensures CallMakeReady(l, c) == Halt(l)
  {
    ReadySeated(l, c);
  }

  lemma ReadyOthers(l: Lobby, c: Cid)
    requires Inv(l) && !l.halted && c in l.clients && l.clients[c].pc == Checked(MakeReady)
    ensures var l' := CallMakeReady(l, c);
            Undisturbed(l, l', c) && (l'.halted <==> !Present(l, c)) && (Present(l, c) ==> Present(l', c))
  {
    if !Present(l, c) {
      ReadyHalts(l, c);
      HaltOthers(l, c);
    } else {
      ReadyEffect(l, c);
      ReadyFinds(l, c);
      var s := At(l.rooms, l.clients[c].roomid, l.clients[c].sessionid).value;
      if RivalReady(l, s, c) {
        StartedPlaces(l, s, c);
      }
      PlacesKeptOthers(l, CallMakeReady(l, c), c);
    }
  }

  /** Rooms whose sessions all stayed. */
  lemma SameSessions(l: Lobby, l': Lobby, a: Cid)
    requires forall r, i :: At(l'.rooms, r, i) == At(l.rooms, r, i)
    ensures Shrunk(l, l', a) && Stayed(l, l', a)
  {
  }

  /** The disconnect path or a handler about to use the client's session. */
  predicate NeedsSession(k: Client) {
    k.pc == Checked(LeaveSession) || k.pc == Checked(MakeReady) || (k.pc.Free? && k.closing && k.sessionid > 0)
  }

  function Actor(ev: Event): Cid { ev.c }

  ghost predicate StepFacts(l: Lobby, ev: Event) {
    var l', a := Next(l, ev), Actor(ev);
    && Placed(l.clients, l'.clients, a) && Shrunk(l, l', a)
    && (!Overwrites(l, ev) ==> Stayed(l, l', a))
    && (Overwrites(l, ev) ==> !Agree(l'))
    && (EntersSeatless(l, ev) ==> !Present(l', a))
    && (l'.halted <==> ev.Call? && a in l.clients && NeedsSession(l.clients[a]) && !Present(l, a))
    && (Present(l, a) && !EntersSeatless(l, ev) ==> Present(l', a))
    && (!Present(l, a) && !l'.halted ==> !Present(l', a))
  }

  lemma RequestFacts(l: Lobby, c: Cid)
    requires Inv(l) && !l.halted && c in l.clients && l.clients[c].pc.Checked?
    ensures StepFacts(l, Call(c))
  {
    var req := l.clients[c].pc.req;
    if req.EnterSession? || req.WatchSession? {
      JoinFacts(l, c, req);
    } else if req.LeaveSession? || req.MakeReady? {
      MemberFacts(l, c, req);
    } else {
      RoomFacts(l, c, req);
    }
  }

  lemma JoinFacts(l: Lobby, c: Cid, req: Request)
    requires Inv(l) && !l.halted && c in l.clients && l.clients[c].pc == Checked(req)
    requires req.EnterSession? || req.WatchSession?
    ensures StepFacts(l, Call(c))
  {
    assert ClientAt(l, c);
    if req.EnterSession? {
      EnterOthers(l, c, req.sid);
    } else {
      WatchOthers(l, c, req.sid);
    }
  }

  lemma MemberFacts(l: Lobby, c: Cid, req: Request)
    requires Inv(l) && !l.halted && c in l.clients && l.clients[c].pc == Checked(req)
    requires req.LeaveSession? || req.MakeReady?
    ensures StepFacts(l, Call(c))
  {
    assert ClientAt(l, c);
    if req.LeaveSession? {
      LeaveOthers(l, c);
    } else {
      ReadyOthers(l, c);
    }
  }

  lemma RoomFacts(l: Lobby, c: Cid, req: Request)
    requires Inv(l) && !l.halted && c in l.clients && l.clients[c].pc == Checked(req)
    requires req.EnterRoom? || req.LeaveRoom? || req.MakeSession? || req.Other?
    ensures StepFacts(l, Call(c))
  {
    assert ClientAt(l, c);
    if req.LeaveRoom? {
      LeaveRoomSucceeds(l, c);
    } else if req.MakeSession? {
      MakeSessionSucceeds(l, c);
    } else if req.Other? {
      PlainSucceeds(l, c, req.what);
    }
    SameSessions(l, Next(l, Call(c)), c);
  }

  lemma ClosingFacts(l: Lobby, c: Cid)
    requires Inv(l) && !l.halted && c in l.clients && l.clients[c].pc.Free? && l.clients[c].closing
    ensures StepFacts(l, Call(c))
  {
    assert ClientAt(l, c);
    if l.clients[c].sessionid > 0 {
      LeaveOthers(l, c);
    } else if l.clients[c].roomid > 0 {
      LeaveRoomSucceeds(l, c);
      SameSessions(l, Next(l, Call(c)), c);
    } else {
      SameSessions(l, Next(l, Call(c)), c);
    }
  }

  lemma MakingFacts(l: Lobby, c: Cid)
    requires Inv(l) && !l.halted && c in l.clients && InGenid(l.clients[c])
    ensures StepFacts(l, Call(c))
  {
    MakingFindsRoom(l, c);
    match l.clients[c].pc
    case Making => SameSessions(l, Next(l, Call(c)), c);
    case Loaded(v) => SameSessions(l, Next(l, Call(c)), c);
    case Bumped => SameSessions(l, Next(l, Call(c)), c);
    case Named(n) => StoreOthers(l, c, n);
  }

  lemma CallFacts(l: Lobby, c: Cid)
    requires Inv(l) && !l.halted
    ensures StepFacts(l, Call(c))
  {
    if c in l.clients && l.clients[c].pc.Checked? {
      RequestFacts(l, c);
    } else if c in l.clients && l.clients[c].pc.Free? && l.clients[c].closing {
      ClosingFacts(l, c);
    } else if c in l.clients && InGenid(l.clients[c]) {
      MakingFacts(l, c);
    } else {
      SameSessions(l, Next(l, Call(c)), c);
    }
  }

  lemma CommitFacts(l: Lobby, c: Cid)
    requires Inv(l) && !l.halted
    ensures StepFacts(l, Commit(c))
  {
    if c in l.clients {
      assert ClientAt(l, c);
      WrittenSamePlace(l.clients[c]);
    }
    SameSessions(l, Next(l, Commit(c)), c);
  }

  lemma Facts(l: Lobby, ev: Event)
    requires Inv(l) && !l.halted
    ensures StepFacts(l, ev)
  {
    match ev
    case Call(c) => CallFacts(l, c);
    case Commit(c) => CommitFacts(l, c);
    case Login(_, _) => LoginFacts(l, ev);
    case _ => OwnFacts(l, ev);
  }

  lemma LoginFacts(l: Lobby, ev: Event)
    requires Inv(l) && !l.halted && ev.Login?
    ensures StepFacts(l, ev)
  {
    SameSessions(l, Next(l, ev), ev.c);
  }

  lemma OwnFacts(l: Lobby, ev: Event)
    requires Inv(l) && !l.halted && (ev.Ask? || ev.Hangup?)
    ensures StepFacts(l, ev)
  {
    SameSessions(l, Next(l, ev), ev.c);
  }

  // ----- agreement over runs --------------------------------------------------------------------

  /** An ASSERT fails exactly when a client that is missing from its session leaves it,
      gets ready in it or is disconnected. */
  lemma AssertFailsIff(l: Lobby, ev: Event)
    requires Inv(l) && !l.halted
    ensures Next(l, ev).halted <==>
              ev.Call? && ev.c in l.clients && NeedsSession(l.clients[ev.c]) && !Present(l, ev.c)
  {
    Facts(l, ev);
  }

  lemma AgreeStep(l: Lobby, ev: Event)
    requires Inv(l) && !l.halted && Agree(l) && !EntersSeatless(l, ev) && !Overwrites(l, ev)
    ensures Agree(Next(l, ev)) && !Next(l, ev).halted
  {
    Facts(l, ev);
    assert Present(l, Actor(ev));
    forall c ensures Present(Next(l, ev), c) {
      assert Present(l, c);
    }
  }

  /** A client once missing from its session stays so until the process ends. */
  lemma MissingStays(l: Lobby, ev: Event, c: Cid)
    requires Inv(l) && !l.halted && !Present(l, c)
    ensures Next(l, ev).halted || !Present(Next(l, ev), c)
  {
    Facts(l, ev);
  }

  lemma {:induction false} DisagreementStays(l: Lobby, es: seq<Event>)
    requires Inv(l) && (l.halted || !Agree(l))
    ensures Run(l, es).halted || !Agree(Run(l, es))
    decreases |es|
  {
    if es != [] {
      StepInv(l, es[0]);
      if !l.halted {
        var c :| !Present(l, c);
        MissingStays(l, es[0], c);
      }
      DisagreementStays(Next(l, es[0]), es[1..]);
    }
  }

  lemma {:induction false} AgreementFrom(l: Lobby, es: seq<Event>)
    requires Inv(l) && Agree(l) && !l.halted
    ensures NeverBad(l, es) <==> Agree(Run(l, es)) && !Run(l, es).halted
    decreases |es|
  {
    if es != [] {
      var l' := Next(l, es[0]);
      StepInv(l, es[0]);
      if EntersSeatless(l, es[0]) || Overwrites(l, es[0]) {
        Facts(l, es[0]);
        DisagreementStays(l', es[1..]);
      } else {
        AgreeStep(l, es[0]);
        AgreementFrom(l', es[1..]);
      }
    }
  }

  /** The records agree and no ASSERT has failed exactly when no client ever entered a
      session without players and no new session was ever inserted under the id of a
      stored one. */
  lemma AgreementIff(l0: Lobby, es: seq<Event>)
    requires Opening(l0)
    ensures NeverBad(l0, es) <==> Agree(Run(l0, es)) && !Run(l0, es).halted
  {
    OpeningInv(l0);
    AgreementFrom(l0, es);
  }

  // ----- games ----------------------------------------------------------------------------------

  /** Two seated clients are never in the same stage: never both ready, both moving or
      both pondering. */
  lemma SeatsNeverClash(l0: Lobby, es: seq<Event>, rid: int, sid: int, a: Cid, b: Cid)
    requires Opening(l0) && At(Run(l0, es).rooms, rid, sid).Some?
    requires At(Run(l0, es).rooms, rid, sid).value.owner == Some(a)
    requires At(Run(l0, es).rooms, rid, sid).value.opponent == Some(b)
    ensures var l := Run(l0, es);
            && a != b && a in l.clients && b in l.clients
            && (l.clients[a].state == l.clients[b].state ==> Quiet(l.clients[a].state))
  {
    OpeningInv(l0);
    RunInv(l0, es);
    var l := Run(l0, es);
    var s := At(l.rooms, rid, sid).value;
    assert SessionAt(l, rid, sid) && GameAt(l, rid, sid);
    assert a in Members(s) && b in Members(s);
    assert MemberOk(l.clients, rid, sid, s, a) && MemberOk(l.clients, rid, sid, s, b);
  }

  /** Becoming ready starts a game exactly when the other seat is ready; then the two
      players, and nobody else, get to move and to ponder. */
  lemma GameStartsWhenBothReady(l: Lobby, c: Cid)
    requires Inv(l) && !l.halted && c in l.clients && l.clients[c].pc == Checked(MakeReady) && Present(l, c)
    ensures At(l.rooms, l.clients[c].roomid, l.clients[c].sessionid).Some? &&
            var l' := Next(l, Call(c));
            var s := At(l.rooms, l.clients[c].roomid, l.clients[c].sessionid).value;
            && l'.clients.Keys == l.clients.Keys && l'.rooms == l.rooms
            && (if RivalReady(l, s, c) then
                  && {c, Rival(s, c).value} == Players(s)
                  && Mover(s).Some? && Mover(s).value in Players(s) && l'.clients[Mover(s).value].state == Moving
                  && Waiter(s).Some? && Waiter(s).value in Players(s) && l'.clients[Waiter(s).value].state == Pondering
                  && forall m :: m in l.clients && m !in Players(s) ==> l'.clients[m] == l.clients[m]
                else
                  && l'.clients[c].state == Ready
                  && forall m :: m in l.clients && m != c ==> l'.clients[m] == l.clients[m])
  {
    var s := ReadyOutcome(l, c);
    if RivalReady(l, s, c) {
      StartedSeats(l, s, c);
    }
  }

  lemma StartedSeats(l: Lobby, s: Session<Cid>, c: Cid)
    requires c in l.clients && WellFormed(s) && c in Players(s) && RivalReady(l, s, c)
    ensures var l' := Started(l, s, c);
            && l'.clients.Keys == l.clients.Keys && l'.rooms == l.rooms
            && {c, Rival(s, c).value} == Players(s)
            && Mover(s).Some? && Mover(s).value in Players(s) && l'.clients[Mover(s).value].state == Moving
            && Waiter(s).Some? && Waiter(s).value in Players(s) && l'.clients[Waiter(s).value].state == Pondering
            && forall m :: m in l.clients && m !in Players(s) ==> l'.clients[m] == l.clients[m]
  {
    assert Players(s) == {c, Rival(s, c).value};
  }

  /** Nobody starts to move or to ponder in any other way. */
  lemma GameStartsOnlyThen(l: Lobby, ev: Event, m: Cid)
    requires Inv(l) && !l.halted && m in l.clients && m in Next(l, ev).clients
    requires Next(l, ev).clients[m].state == Moving || Next(l, ev).clients[m].state == Pondering
    requires l.clients[m].state != Next(l, ev).clients[m].state
    ensures ev.Call? && ev.c in l.clients && l.clients[ev.c].pc == Checked(MakeReady) && Present(l, ev.c)
    ensures var k := l.clients[ev.c];
            At(l.rooms, k.roomid, k.sessionid).Some? &&
            var s := At(l.rooms, k.roomid, k.sessionid).value;
            m in Players(s) && RivalReady(l, s, ev.c)
  {
    if ev.Call? && ev.c in l.clients && l.clients[ev.c].pc == Checked(MakeReady) {
      if Present(l, ev.c) {
        ReadyEffect(l, ev.c);
      } else {
        ReadyHalts(l, ev.c);
      }
    } else {
      StatesOtherwise(l, ev, m);
    }
  }

  lemma StatesOtherwise(l: Lobby, ev: Event, m: Cid)
    requires m in l.clients && m in Next(l, ev).clients
    requires !(ev.Call? && ev.c in l.clients && l.clients[ev.c].pc == Checked(MakeReady))
    ensures Next(l, ev).clients[m].state == l.clients[m].state || Quiet(Next(l, ev).clients[m].state)
  {
  }

  // ----- the end of a client --------------------------------------------------------------------

  /** A client that is gone is in no user list, no session and not in the client list;
      and no stored session is without participants. */
  lemma GoneIsGone(l0: Lobby, es: seq<Event>, c: Cid)
    requires Opening(l0) && c !in Run(l0, es).clients
    ensures var l := Run(l0, es);
            && (forall rid :: rid in l.rooms ==> c !in l.rooms[rid].users)
            && (forall rid, sid :: !In(l, rid, sid, c))
            && (forall n :: n in l.names ==> l.names[n] != c)
            && (forall rid, sid :: At(l.rooms, rid, sid).Some? ==> Members(At(l.rooms, rid, sid).value) != {})
  {
    var l := Run(l0, es);
    RolesAreRight(l0, es);
    RunInv(l0, es) by { OpeningInv(l0); }
    forall rid, sid | At(l.rooms, rid, sid).Some? ensures Members(At(l.rooms, rid, sid).value) != {} {
      assert SessionAt(l, rid, sid);
    }
  }

  /** How many calls and writes the disconnect path still has before it. */
  function Distance(k: Client): nat {
    if k.pc.OutOfSession? then 4
    else if k.pc.OutOfRoom? then 2
    else if k.sessionid > 0 then 5
    else if k.roomid > 0 then 3
    else 1
  }

  /** The client's own next step on the disconnect path. */
  function CloseStep(l: Lobby, c: Cid): Event
    requires c in l.clients
  {
    if l.clients[c].pc.Free? then Call(c) else Commit(c)
  }

  predicate OnItsWay(k: Client) { k.closing && (k.pc.Free? || k.pc.OutOfSession? || k.pc.OutOfRoom?) }

  /** All but the play state and the name is as it was. */
  predicate Unmoved(cs: map<Cid, Client>, cs': map<Cid, Client>, c: Cid) {
    && c in cs && c in cs' && cs'[c].pc == cs[c].pc && cs'[c].closing == cs[c].closing
    && cs'[c].roomid == cs[c].roomid && cs'[c].sessionid == cs[c].sessionid
  }

  lemma ReadyUnmoved(l: Lobby, a: Cid, c: Cid)
    requires Inv(l) && a in l.clients && l.clients[a].pc == Checked(MakeReady) && c in l.clients && c != a
    ensures Unmoved(l.clients, CallMakeReady(l, a).clients, c)
  {
    if Present(l, a) {
      var s := ReadyOutcome(l, a);
      if RivalReady(l, s, a) {
        StartedUnmoved(l, s, a, c);
      }
    } else {
      ReadyHalts(l, a);
    }
  }

  lemma StartedUnmoved(l: Lobby, s: Session<Cid>, a: Cid, c: Cid)
    requires a in l.clients && RivalReady(l, s, a) && c in l.clients && c != a
    ensures Unmoved(l.clients, Started(l, s, a).clients, c)
  {
  }

  lemma RequestUnmoved(l: Lobby, a: Cid, c: Cid)
    requires a in l.clients && l.clients[a].pc.Checked? && l.clients[a].pc.req != MakeReady
    requires c in l.clients && c != a
    ensures Unmoved(l.clients, CallRequest(l, a, l.clients[a].pc.req).clients, c)
  {
    match l.clients[a].pc.req
    case EnterRoom(rid) =>
    case LeaveRoom =>
    case MakeSession =>
    case EnterSession(sid) =>
    case LeaveSession =>
    case WatchSession(sid) =>
    case Other(_) =>
  }

  lemma CloseUnmoved(l: Lobby, a: Cid, c: Cid)
    requires a in l.clients && c in l.clients && c != a
    ensures Unmoved(l.clients, CallClose(l, a).clients, c)
  {
  }

  lemma MakingUnmoved(l: Lobby, a: Cid, c: Cid)
    requires a in l.clients && c in l.clients && c != a
    ensures Unmoved(l.clients, CallMaking(l, a).clients, c)
  {
  }

  lemma OthersUnmoved(l: Lobby, ev: Event, c: Cid)
    requires !l.halted && c in l.clients && OnItsWay(l.clients[c]) && ev != CloseStep(l, c)
    requires !(ev.Call? && ev.c in l.clients && l.clients[ev.c].pc == Checked(MakeReady))
    ensures Unmoved(l.clients, Next(l, ev).clients, c)
  {
    match ev
    case Call(a) =>
      if a in l.clients && a != c {
        if l.clients[a].pc.Checked? {
          RequestUnmoved(l, a, c);
        } else {
          CloseUnmoved(l, a, c);
          MakingUnmoved(l, a, c);
        }
      }
    case Login(a, name) =>
    case Ask(a, req) =>
    case Commit(a) =>
    case Hangup(a) =>
  }

  /** The state of a closing client may be changed by another one's getting ready;
      nothing else of it changes but by its own next step. */
  lemma ClosingUntouched(l: Lobby, ev: Event, c: Cid)
    requires Inv(l) && !l.halted && c in l.clients && OnItsWay(l.clients[c]) && ev != CloseStep(l, c)
    ensures Unmoved(l.clients, Next(l, ev).clients, c)
  {
    if ev.Call? && ev.c in l.clients && l.clients[ev.c].pc == Checked(MakeReady) {
      ReadyUnmoved(l, ev.c, c);
    } else {
      OthersUnmoved(l, ev, c);
    }
  }

  lemma ClosingAdvances(l: Lobby, c: Cid)
    requires Inv(l) && !l.halted && c in l.clients && OnItsWay(l.clients[c]) && Present(l, c)
    ensures var l' := Next(l, CloseStep(l, c));
            c in l'.clients ==> OnItsWay(l'.clients[c]) && Distance(l'.clients[c]) < Distance(l.clients[c])
    ensures !Next(l, CloseStep(l, c)).halted
  {
    assert ClientAt(l, c);
    Facts(l, CloseStep(l, c));
    if l.clients[c].pc.Free? && l.clients[c].sessionid <= 0 && l.clients[c].roomid > 0 {
      LeaveRoomSucceeds(l, c);
    }
  }

  /** c's own steps on the disconnect path among the events. */
  ghost function OwnSteps(l: Lobby, es: seq<Event>, c: Cid): nat
    decreases |es|
  {
    if es == [] then 0
    else (if c in l.clients && es[0] == CloseStep(l, c) then 1 else 0) + OwnSteps(Next(l, es[0]), es[1..], c)
  }

  ghost predicate LeavesDuring(l: Lobby, es: seq<Event>, c: Cid)
    decreases |es|
  {
    c !in l.clients || (es != [] && LeavesDuring(Next(l, es[0]), es[1..], c))
  }

  /** However the others' steps fall between its own, a disconnected client is taken out
      of its session, its room and the client list in at most five steps of its own. */
  lemma {:induction false} DisconnectCompletes(l: Lobby, es: seq<Event>, c: Cid)
    requires Inv(l) && Agree(l) && !l.halted && NeverBad(l, es)
    requires c in l.clients && OnItsWay(l.clients[c])
    ensures OwnSteps(l, es, c) >= Distance(l.clients[c]) ==> LeavesDuring(l, es, c)
    decreases |es|
  {
    if es != [] {
      var l' := Next(l, es[0]);
      StepInv(l, es[0]);
      AgreeStep(l, es[0]);
      if es[0] == CloseStep(l, c) {
        assert Present(l, c);
        ClosingAdvances(l, c);
      } else {
        ClosingUntouched(l, es[0], c);
      }
      if c in l'.clients {
        DisconnectCompletes(l', es[1..], c);
      }
    }
  }
}
