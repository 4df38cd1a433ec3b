/**
 Requests that are handled without interruption: what the steps of one client's thread,
 taken one after the other, make of the lobby.
 */
module LobbyHandled {
  import opened Prelude
  import opened Session
  import opened Lobby
  import opened LobbyRuns

  lemma {:induction false} RunSplit(l: Lobby, a: seq<Event>, b: seq<Event>)
    ensures Run(l, a + b) == Run(Run(l, a), b)
    decreases |a|
  {
    if a == [] {
      assert a + b == b;
    } else {
      assert (a + b)[1..] == a[1..] + b;
      RunSplit(Next(l, a[0]), a[1..], b);
    }
  }

  /** A request handled without interruption. */
  function Handled(c: Cid, req: Request): seq<Event> { [Ask(c, req), Call(c), Commit(c)] }

  lemma HandledRun(l: Lobby, c: Cid, req: Request)
    ensures Run(l, Handled(c, req)) == Next(Next(Next(l, Ask(c, req)), Call(c)), Commit(c))
  {
    OneStep(l, Ask(c, req), Next(l, Ask(c, req)), Handled(c, req));
    assert Handled(c, req)[1..] == [Call(c), Commit(c)];
    TwoSteps(Next(l, Ask(c, req)), Call(c), Commit(c));
  }

  /** An idle client in a room. */
  predicate Lone(l: Lobby, c: Cid, rid: int) {
    && !l.halted && c in l.clients && rid > 0 && rid in l.rooms && c in l.rooms[rid].users
    && l.clients[c] == Client(l.clients[c].name, Idle, rid, -1, Free, false)
  }

  /** What a map says of a key is what was written last. */
  lemma Overwritten<K, V>(m: map<K, V>, c: K, a: V, b: V, z: V)
    ensures m[c := a][c := b][c := z] == m[c := z]
  {
  }

  /** A creation as far as the number it has drawn, and to its end. */
  function Drawn(c: Cid): seq<Event> { [Ask(c, MakeSession), Call(c), Call(c), Call(c), Call(c)] }

  function Made(c: Cid): seq<Event> { Drawn(c) + [Call(c), Commit(c)] }

  lemma OneStep(l: Lobby, ev: Event, m: Lobby, es: seq<Event>)
    requires es != [] && es[0] == ev && Next(l, ev) == m
    ensures Run(l, es) == Run(m, es[1..])
  {
  }

  lemma TwoSteps(l: Lobby, a: Event, b: Event)
    ensures Run(l, [a, b]) == Next(Next(l, a), b)
  {
    assert [a, b][1..] == [b];
    assert Run(Next(l, a), [b]) == Next(Next(l, a), b);
  }

  /** Undisturbed, genid's three accesses count the seed up by one. */
  lemma GenidRun(l: Lobby, c: Cid)
    requires !l.halted && c in l.clients && l.clients[c].pc == Making
    ensures Run(l, [Call(c), Call(c), Call(c)]) == Put(l, c, l.clients[c].(pc := Named(l.seed + 1))).(seed := l.seed + 1)
  {
    var k := l.clients[c];
    var l1 := Put(l, c, k.(pc := Loaded(l.seed)));
    var l2 := Put(l, c, k.(pc := Bumped)).(seed := l.seed + 1);
    var l3 := Put(l, c, k.(pc := Named(l.seed + 1))).(seed := l.seed + 1);
    Overwritten(l.clients, c, k, k.(pc := Loaded(l.seed)), k.(pc := Bumped));
    Overwritten(l.clients, c, k, k.(pc := Bumped), k.(pc := Named(l.seed + 1)));
    assert Next(l, Call(c)) == l1;
    assert Next(l1, Call(c)) == l2;
    assert Next(l2, Call(c)) == l3;
    OneStep(l, Call(c), l1, [Call(c), Call(c), Call(c)]);
    TwoSteps(l1, Call(c), Call(c));
  }

  lemma DrawRun(l: Lobby, c: Cid, rid: int)
    requires Lone(l, c, rid)
    ensures Run(l, Drawn(c)) == Put(l, c, l.clients[c].(pc := Named(l.seed + 1))).(seed := l.seed + 1)
  {
    var k := l.clients[c];
    var l1 := Put(l, c, k.(pc := Making));
    TwoSteps(l, Ask(c, MakeSession), Call(c));
    Overwritten(l.clients, c, k, k.(pc := Checked(MakeSession)), k.(pc := Making));
    assert Next(Put(l, c, k.(pc := Checked(MakeSession))), Call(c)) == l1;
    GenidRun(l1, c);
    Overwritten(l.clients, c, k, k.(pc := Making), k.(pc := Named(l.seed + 1)));
    RunSplit(l, [Ask(c, MakeSession), Call(c)], [Call(c), Call(c), Call(c)]);
  }

  lemma MakeRun(l: Lobby, c: Cid, rid: int)
    requires Lone(l, c, rid)
    ensures var n := l.seed + 1;
            Run(l, Made(c)) ==
            Put(PutSession(l, rid, IdOf(n), NewSession(c, n)), c,
                l.clients[c].(state := Sessional, sessionid := IdOf(n))).(seed := n)
  {
    var n, k := l.seed + 1, l.clients[c];
    var l1 := Put(l, c, k.(pc := Named(n))).(seed := n);
    DrawRun(l, c, rid);
    RunSplit(l, Drawn(c), [Call(c), Commit(c)]);
    TwoSteps(l1, Call(c), Commit(c));
    assert Next(l1, Call(c)) == Put(PutSession(l1, rid, IdOf(n), NewSession(c, n)), c, k.(pc := Seated(IdOf(n))));
    Overwritten(l.clients, c, k.(pc := Named(n)), k.(pc := Seated(IdOf(n))), k.(state := Sessional, sessionid := IdOf(n)));
  }

  /** A player leaves a session that has others in it. */
  lemma LeaveStaysRun(l: Lobby, c: Cid, rid: int, sid: int, s: Session<Cid>)
    requires !l.halted && c in l.clients && rid > 0 && sid > 0 && At(l.rooms, rid, sid) == Some(s)
    requires l.clients[c] == Client(l.clients[c].name, Sessional, rid, sid, Free, false) && Leave(s, c).0 > 0
    ensures Run(l, Handled(c, LeaveSession)) ==
            Put(PutSession(l, rid, sid, Leave(s, c).1), c, l.clients[c].(state := Idle, sessionid := -1))
  {
    var k := l.clients[c];
    var k1, k2 := k.(pc := Checked(LeaveSession)), k.(pc := OutOfSession);
    var l1 := Put(l, c, k1);
    assert Next(l, Ask(c, LeaveSession)) == l1;
    assert Next(l1, Call(c)) == Put(PutSession(l1, rid, sid, Leave(s, c).1), c, k2);
    HandledRun(l, c, LeaveSession);
    Overwritten(l.clients, c, k1, k2, k.(state := Idle, sessionid := -1));
  }

  /** An idle client joins a session that takes it. */
  lemma WatchRun(l: Lobby, c: Cid, rid: int, sid: int, s: Session<Cid>)
    requires Lone(l, c, rid) && At(l.rooms, rid, sid) == Some(s) && Watch(s, c).0 >= 0
    ensures Run(l, Handled(c, WatchSession(sid))) ==
            Put(PutSession(l, rid, sid, Watch(s, c).1), c, l.clients[c].(state := Watching, sessionid := sid))
  {
    var k := l.clients[c];
    var k1, k2 := k.(pc := Checked(WatchSession(sid))), k.(pc := Watcher(sid));
    var l1 := Put(l, c, k1);
    assert Next(l, Ask(c, WatchSession(sid))) == l1;
    assert Next(l1, Call(c)) == Put(PutSession(l1, rid, sid, Watch(s, c).1), c, k2);
    HandledRun(l, c, WatchSession(sid));
    Overwritten(l.clients, c, k1, k2, k.(state := Watching, sessionid := sid));
  }

  lemma EnterRun(l: Lobby, c: Cid, rid: int, sid: int, s: Session<Cid>)
    requires Lone(l, c, rid) && At(l.rooms, rid, sid) == Some(s) && Enter(s, c).0 >= 0
    ensures Run(l, Handled(c, EnterSession(sid))) ==
            Put(PutSession(l, rid, sid, Enter(s, c).1), c, l.clients[c].(state := Sessional, sessionid := sid))
  {
    var k := l.clients[c];
    var k1, k2 := k.(pc := Checked(EnterSession(sid))), k.(pc := Seated(sid));
    var l1 := Put(l, c, k1);
    assert Next(l, Ask(c, EnterSession(sid))) == l1;
    assert Next(l1, Call(c)) == Put(PutSession(l1, rid, sid, Enter(s, c).1), c, k2);
    HandledRun(l, c, EnterSession(sid));
    Overwritten(l.clients, c, k1, k2, k.(state := Sessional, sessionid := sid));
  }

  /** A client whose session does not know it cannot leave it. */
  lemma LeaveHalts(l: Lobby, c: Cid, rid: int, sid: int)
    requires !l.halted && c in l.clients && rid > 0 && sid > 0 && At(l.rooms, rid, sid).Some? && !In(l, rid, sid, c)
    requires l.clients[c] == Client(l.clients[c].name, Sessional, rid, sid, Free, false)
    ensures Run(l, Handled(c, LeaveSession)).halted
  {
    var l1 := Put(l, c, l.clients[c].(pc := Checked(LeaveSession)));
    assert Next(l, Ask(c, LeaveSession)) == l1;
    assert Next(l1, Call(c)) == Halt(l1);
    HandledRun(l, c, LeaveSession);
  }
}
