/**
 The ways in which the records come to disagree, each reached from an empty lobby:
 entering a session of watchers only, two creations that draw one id at the same time,
 and a session id that comes round again.
 */
module LobbyFlaws {
  import opened Prelude
  import opened Session
  import opened Room
  import opened Lobby
  import opened LobbySteps
  import opened LobbyRuns
  import opened LobbyIds
  import opened LobbyHandled

  // ----- three clients in one room ------------------------------------------------------------------

  const EMPTY := Lobby(map[], map[1 := Room(10, {}, map[])], map[], 0, false)

  function Within(name: Name, st: PlayState, sid: int): Client { Client(name, st, 1, sid, Free, false) }

  /** The only room with these users and sessions. */
  function Hall(cs: map<Cid, Client>, us: set<Cid>, ss: map<int, Session<Cid>>, names: map<Name, Cid>, seed: nat): Lobby {
    Lobby(cs, map[1 := Room(10, us, ss)], names, seed, false)
  }

  function Arrival(c: Cid, name: Name): seq<Event> { [Login(c, name)] + Handled(c, EnterRoom(1)) }

  lemma EnterRoomRun(l: Lobby, c: Cid)
    requires !l.halted && c in l.clients && 1 in l.rooms
    requires l.clients[c] == Client(l.clients[c].name, Online, -1, -1, Free, false)
    requires |l.rooms[1].users| < l.rooms[1].capacity && c !in l.rooms[1].users
    ensures Run(l, Handled(c, EnterRoom(1))) ==
            Put(PutRoom(l, 1, l.rooms[1].(users := l.rooms[1].users + {c})), c, l.clients[c].(state := Idle, roomid := 1))
  {
    var k := l.clients[c];
    var k1, k2 := k.(pc := Checked(EnterRoom(1))), k.(pc := InRoom(1));
    var l1 := Put(l, c, k1);
    assert Next(l, Ask(c, EnterRoom(1))) == l1;
    assert Next(l1, Call(c)) == Put(PutRoom(l1, 1, l.rooms[1].(users := l.rooms[1].users + {c})), c, k2);
    HandledRun(l, c, EnterRoom(1));
    Overwritten(l.clients, c, k1, k2, k.(state := Idle, roomid := 1));
  }

  lemma Arrives(cs: map<Cid, Client>, us: set<Cid>, names: map<Name, Cid>, c: Cid, name: Name)
    requires c !in cs && name !in names && |us| < 10 && c !in us
    ensures Run(Hall(cs, us, map[], names, 0), Arrival(c, name)) ==
            Hall(cs[c := Within(name, Idle, -1)], us + {c}, map[], names[name := c], 0)
  {
    var l := Hall(cs, us, map[], names, 0);
    var k := Client(name, Online, -1, -1, Free, false);
    var l1 := Hall(cs[c := k], us, map[], names[name := c], 0);
    RunSplit(l, [Login(c, name)], Handled(c, EnterRoom(1)));
    assert Run(l, [Login(c, name)]) == l1;
    EnterRoomRun(l1, c);
    Overwritten(cs, c, k, k, Within(name, Idle, -1));
  }

  const ARRIVALS: seq<Event> := Arrival(1, "a") + Arrival(2, "b") + Arrival(3, "c")

  /** Three clients in the only room, with what they are doing. */
  function Three(k1: Client, k2: Client, k3: Client, ss: map<int, Session<Cid>>, seed: nat): Lobby {
    Hall(map[1 := k1, 2 := k2, 3 := k3], {1, 2, 3}, ss, map["a" := 1, "b" := 2, "c" := 3], seed)
  }

  const A := Within("a", Idle, -1)
  const B := Within("b", Idle, -1)
  const C := Within("c", Idle, -1)
  const START := Three(A, B, C, map[], 0)

  lemma ArrivalsRun()
    ensures Run(EMPTY, ARRIVALS) == START
  {
    Arrives(map[], {}, map[], 1, "a");
    Arrives(map[1 := A], {1}, map["a" := 1], 2, "b");
    Arrives(map[1 := A, 2 := B], {1, 2}, map["a" := 1, "b" := 2], 3, "c");
    RunSplit(EMPTY, Arrival(1, "a") + Arrival(2, "b"), Arrival(3, "c"));
    RunSplit(EMPTY, Arrival(1, "a"), Arrival(2, "b"));
    Singles();
  }

  lemma Singles()
    ensures {} + {1} == {1} && {1} + {2} == {1, 2} && {1, 2} + {3} == {1, 2, 3}
  {
  }

  /** Writing one of the three clients. */
  lemma PutThree(k1: Client, k2: Client, k3: Client, ss: map<int, Session<Cid>>, seed: nat, k: Client)
    ensures var l := Three(k1, k2, k3, ss, seed);
            && Put(l, 1, k) == Three(k, k2, k3, ss, seed)
            && Put(l, 2, k) == Three(k1, k, k3, ss, seed)
            && Put(l, 3, k) == Three(k1, k2, k, ss, seed)
  {
    var cs := map[1 := k1, 2 := k2, 3 := k3];
    assert cs[1 := k] == map[1 := k, 2 := k2, 3 := k3];
    assert cs[2 := k] == map[1 := k1, 2 := k, 3 := k3];
    assert cs[3 := k] == map[1 := k1, 2 := k2, 3 := k];
  }

  lemma PutSessionThree(k1: Client, k2: Client, k3: Client, ss: map<int, Session<Cid>>, seed: nat, s: Session<Cid>)
    ensures PutSession(Three(k1, k2, k3, ss, seed), 1, 2, s) == Three(k1, k2, k3, ss[2 := s], seed)
  {
    var r := Room(10, {1, 2, 3}, ss);
    assert map[1 := r][1 := WithSession(r, 2, s)] == map[1 := WithSession(r, 2, s)];
  }

  // ----- watchers only ----------------------------------------------------------------------------

  const OWNED := Session(Some(1), None, {}, 0, 200, 1)
  const WATCHED := Session(Some(1), None, {2}, 0, 200, 1)
  const SEATLESS := Session(None, None, {2}, 0, 200, 1)

  const A2 := Within("a", Sessional, 2)
  const B2 := Within("b", Watching, 2)
  const C2 := Within("c", Sessional, 2)

  const PLAYING := Three(A2, B, C, map[2 := OWNED], 1)
  const OBSERVED := Three(A2, B2, C, map[2 := WATCHED], 1)
  const ABANDONED := Three(A, B2, C, map[2 := SEATLESS], 1)
  const MISLED := Three(A, B2, C2, map[2 := SEATLESS], 1)

  lemma FirstMakes()
    ensures Run(START, Made(1)) == PLAYING
  {
    assert IdOf(1) == 2;
    MakeRun(START, 1, 1);
    PutSessionThree(A, B, C, map[], 0, OWNED);
    PutThree(A, B, C, map[2 := OWNED], 0, A2);
  }

  lemma SecondWatches()
    ensures Run(PLAYING, Handled(2, WatchSession(2))) == OBSERVED
  {
    WatchRun(PLAYING, 2, 1, 2, OWNED);
    assert Watch(OWNED, 2).1 == WATCHED;
    PutSessionThree(A2, B, C, map[2 := OWNED], 1, WATCHED);
    assert map[2 := OWNED][2 := WATCHED] == map[2 := WATCHED];
    PutThree(A2, B, C, map[2 := WATCHED], 1, B2);
  }

  lemma FirstLeaves()
    ensures Run(OBSERVED, Handled(1, LeaveSession)) == ABANDONED
  {
    assert Leave(WATCHED, 1) == (1, SEATLESS);
    LeaveStaysRun(OBSERVED, 1, 1, 2, WATCHED);
    PutSessionThree(A2, B2, C, map[2 := WATCHED], 1, SEATLESS);
    assert map[2 := WATCHED][2 := SEATLESS] == map[2 := SEATLESS];
    PutThree(A2, B2, C, map[2 := SEATLESS], 1, A);
  }

  lemma ThirdEnters()
    ensures Run(ABANDONED, Handled(3, EnterSession(2))) == MISLED
  {
    EnterRun(ABANDONED, 3, 1, 2, SEATLESS);
    PutSessionThree(A, B2, C, map[2 := SEATLESS], 1, SEATLESS);
    assert map[2 := SEATLESS][2 := SEATLESS] == map[2 := SEATLESS];
    PutThree(A, B2, C, map[2 := SEATLESS], 1, C2);
  }

  const WATCHERS_ONLY: seq<Event> :=
    ((ARRIVALS + Made(1)) + Handled(2, WatchSession(2)) + Handled(1, LeaveSession)) + Handled(3, EnterSession(2))

  lemma Reaches(l: Lobby, a: seq<Event>, m: Lobby, b: seq<Event>, n: Lobby)
    requires Run(l, a) == m && Run(m, b) == n
    ensures Run(l, a + b) == n
  {
    RunSplit(l, a, b);
  }

  lemma PlayingReached()
    ensures Run(EMPTY, ARRIVALS + Made(1)) == PLAYING
  {
    ArrivalsRun();
    FirstMakes();
    Reaches(EMPTY, ARRIVALS, START, Made(1), PLAYING);
  }

  lemma ObservedReached()
    ensures Run(EMPTY, (ARRIVALS + Made(1)) + Handled(2, WatchSession(2))) == OBSERVED
  {
    PlayingReached();
    SecondWatches();
    Reaches(EMPTY, ARRIVALS + Made(1), PLAYING, Handled(2, WatchSession(2)), OBSERVED);
  }

  lemma MisledReached()
    ensures Run(EMPTY, WATCHERS_ONLY) == MISLED
  {
    ObservedReached();
    FirstLeaves();
    ThirdEnters();
    var es := (ARRIVALS + Made(1)) + Handled(2, WatchSession(2));
    Reaches(EMPTY, es, OBSERVED, Handled(1, LeaveSession), ABANDONED);
    Reaches(EMPTY, es + Handled(1, LeaveSession), ABANDONED, Handled(3, EnterSession(2)), MISLED);
  }

  /** A player makes a session, another client watches it, the player goes and a third
      client enters: it is told that it is in, sits nowhere, and ends the process when
      it leaves. */
  lemma WatchersOnlyHalts()
    ensures Opening(EMPTY)
    ensures !Run(EMPTY, WATCHERS_ONLY).halted && !Present(Run(EMPTY, WATCHERS_ONLY), 3)
    ensures Run(EMPTY, WATCHERS_ONLY + Handled(3, LeaveSession)).halted
  {
    MisledReached();
    LeaveHalts(MISLED, 3, 1, 2);
    RunSplit(EMPTY, WATCHERS_ONLY, Handled(3, LeaveSession));
  }

  // ----- two creations at the same time ---------------------------------------------------------------

  /** Both have passed the locked look at the user list. */
  const DOORS: seq<Event> := [Ask(1, MakeSession), Call(1), Ask(2, MakeSession), Call(2)]

  /** Both load the seed, then both store it one up, then both read it. */
  const RACE: seq<Event> := [Call(1), Call(2), Call(1), Call(2), Call(1), Call(2)]

  lemma DoorRun(k1: Client, k2: Client, c: Cid)
    requires (c == 1 && k1 == A) || (c == 2 && k2 == B)
    ensures var l := Three(k1, k2, C, map[], 0);
            Run(l, [Ask(c, MakeSession), Call(c)]) ==
            if c == 1 then Three(A.(pc := Making), k2, C, map[], 0) else Three(k1, B.(pc := Making), C, map[], 0)
  {
    var l := Three(k1, k2, C, map[], 0);
    var k := l.clients[c];
    TwoSteps(l, Ask(c, MakeSession), Call(c));
    var l1 := Put(l, c, k.(pc := Checked(MakeSession)));
    assert Next(l, Ask(c, MakeSession)) == l1;
    assert Next(l1, Call(c)) == Put(l1, c, k.(pc := Making));
    Overwritten(l.clients, c, k, k.(pc := Checked(MakeSession)), k.(pc := Making));
    PutThree(k1, k2, C, map[], 0, k.(pc := Making));
  }

  /** A client on its way through genid does its next access. */
  lemma RaceStep(k1: Client, k2: Client, seed: nat, c: Cid)
    requires c == 1 || c == 2
    requires var k := if c == 1 then k1 else k2; k.pc.Making? || k.pc.Loaded? || k.pc.Bumped?
    ensures var k := if c == 1 then k1 else k2;
            var m := k.(pc := if k.pc.Making? then Loaded(seed) else if k.pc.Loaded? then Bumped else Named(seed));
            var seed' := if k.pc.Loaded? then k.pc.v + 1 else seed;
            Next(Three(k1, k2, C, map[], seed), Call(c)) ==
            if c == 1 then Three(m, k2, C, map[], seed') else Three(k1, m, C, map[], seed')
  {
    var k := if c == 1 then k1 else k2;
    var m := k.(pc := if k.pc.Making? then Loaded(seed) else if k.pc.Loaded? then Bumped else Named(seed));
    PutThree(k1, k2, C, map[], seed, m);
  }

  function At1(pc: Pc): Client { A.(pc := pc) }

  function At2(pc: Pc): Client { B.(pc := pc) }

  lemma RaceRun()
    ensures Run(Three(At1(Making), At2(Making), C, map[], 0), RACE) == Three(At1(Named(1)), At2(Named(1)), C, map[], 1)
  {
    RaceStep(At1(Making), At2(Making), 0, 1);
    RaceStep(At1(Loaded(0)), At2(Making), 0, 2);
    RaceStep(At1(Loaded(0)), At2(Loaded(0)), 0, 1);
    RaceStep(At1(Bumped), At2(Loaded(0)), 1, 2);
    RaceStep(At1(Bumped), At2(Bumped), 1, 1);
    RaceStep(At1(Named(1)), At2(Bumped), 1, 2);
    SixSteps(Three(At1(Making), At2(Making), C, map[], 0), Call(1), Call(2), Call(1), Call(2), Call(1), Call(2));
  }

  lemma SixSteps(l: Lobby, a: Event, b: Event, c: Event, d: Event, e: Event, f: Event)
    ensures Run(l, [a, b, c, d, e, f]) == Next(Next(Next(Next(Next(Next(l, a), b), c), d), e), f)
  {
    TwoSteps(l, a, b);
    var l2 := Next(Next(l, a), b);
    TwoSteps(l2, c, d);
    TwoSteps(Next(Next(l2, c), d), e, f);
    RunSplit(l, [a, b], [c, d, e, f]);
    RunSplit(l2, [c, d], [e, f]);
    assert [a, b] + [c, d, e, f] == [a, b, c, d, e, f];
    assert [c, d] + [e, f] == [c, d, e, f];
  }

  /** A client inserts its session under id 2 and writes its fields. */
  lemma InsertRun(k1: Client, k2: Client, ss: map<int, Session<Cid>>, c: Cid)
    requires (c == 1 && k1 == At1(Named(1))) || (c == 2 && k2 == At2(Named(1)))
    ensures var l := Three(k1, k2, C, ss, 1);
            Run(l, [Call(c), Commit(c)]) ==
            if c == 1 then Three(A2, k2, C, ss[2 := NewSession(1, 1)], 1)
            else Three(k1, Within("b", Sessional, 2), C, ss[2 := NewSession(2, 1)], 1)
  {
    var l := Three(k1, k2, C, ss, 1);
    var k := l.clients[c];
    assert IdOf(1) == 2;
    TwoSteps(l, Call(c), Commit(c));
    var l1 := Put(PutSession(l, 1, 2, NewSession(c, 1)), c, k.(pc := Seated(2)));
    assert Next(l, Call(c)) == l1;
    Overwritten(l.clients, c, k, k.(pc := Seated(2)), Within(k.name, Sessional, 2));
    PutSessionThree(k1, k2, C, ss, 1, NewSession(c, 1));
    PutThree(k1, k2, C, ss[2 := NewSession(c, 1)], 1, Within(k.name, Sessional, 2));
  }

  const RACED: seq<Event> := ((ARRIVALS + DOORS) + RACE) + [Call(1), Commit(1)]

  lemma DoorsRun()
    ensures Run(START, DOORS) == Three(At1(Making), At2(Making), C, map[], 0)
  {
    DoorRun(A, B, 1);
    DoorRun(At1(Making), B, 2);
    Reaches(START, [Ask(1, MakeSession), Call(1)], Three(At1(Making), B, C, map[], 0),
            [Ask(2, MakeSession), Call(2)], Three(At1(Making), At2(Making), C, map[], 0));
    assert DOORS == [Ask(1, MakeSession), Call(1)] + [Ask(2, MakeSession), Call(2)];
  }

  lemma RacedReached()
    ensures Run(EMPTY, RACED) == Three(A2, At2(Named(1)), C, map[2 := NewSession(1, 1)], 1)
  {
    ArrivalsRun();
    DoorsRun();
    RaceRun();
    InsertRun(At1(Named(1)), At2(Named(1)), map[], 1);
    Reaches(EMPTY, ARRIVALS, START, DOORS, Three(At1(Making), At2(Making), C, map[], 0));
    Reaches(EMPTY, ARRIVALS + DOORS, Three(At1(Making), At2(Making), C, map[], 0), RACE,
            Three(At1(Named(1)), At2(Named(1)), C, map[], 1));
    Reaches(EMPTY, (ARRIVALS + DOORS) + RACE, Three(At1(Named(1)), At2(Named(1)), C, map[], 1), [Call(1), Commit(1)],
            Three(A2, At2(Named(1)), C, map[2 := NewSession(1, 1)], 1));
  }

  const DUPED := Three(A2, Within("b", Sessional, 2), C, map[2 := NewSession(2, 1)], 1)

  lemma SecondInserts()
    ensures Run(Three(A2, At2(Named(1)), C, map[2 := NewSession(1, 1)], 1), [Call(2), Commit(2)]) == DUPED
  {
    InsertRun(A2, At2(Named(1)), map[2 := NewSession(1, 1)], 2);
    assert map[2 := NewSession(1, 1)][2 := NewSession(2, 1)] == map[2 := NewSession(2, 1)];
  }

  /** Two clients of one room create a session at the same time, no id has come round and
      nobody ever watched: both draw the first id, the second insertion puts the first
      client out, and the process ends when that one leaves. */
  lemma RacingDuplicateHalts()
    ensures Repeats(Run(EMPTY, RACED), Call(2))
    ensures var l := Run(EMPTY, RACED + [Call(2), Commit(2)]); !l.halted && !Present(l, 1)
    ensures Run(EMPTY, (RACED + [Call(2), Commit(2)]) + Handled(1, LeaveSession)).halted
  {
    RacedReached();
    assert IdOf(1) == 2;
    SecondInserts();
    Reaches(EMPTY, RACED, Three(A2, At2(Named(1)), C, map[2 := NewSession(1, 1)], 1), [Call(2), Commit(2)], DUPED);
    LeaveHalts(DUPED, 1, 1, 2);
    RunSplit(EMPTY, RACED + [Call(2), Commit(2)], Handled(1, LeaveSession));
  }

  // ----- an id that comes round ----------------------------------------------------------------------

  /** Make a session and leave it again. */
  function MakeAndLeave(c: Cid): seq<Event> { Made(c) + Handled(c, LeaveSession) }

  function Repeated(c: Cid, n: nat): seq<Event> {
    if n == 0 then [] else MakeAndLeave(c) + Repeated(c, n - 1)
  }

  lemma LeaveRun(l: Lobby, c: Cid, rid: int, sid: int, n: nat)
    requires !l.halted && c in l.clients && rid > 0 && sid > 0 && At(l.rooms, rid, sid) == Some(NewSession(c, n))
    requires l.clients[c] == Client(l.clients[c].name, Sessional, rid, sid, Free, false)
    ensures Run(l, Handled(c, LeaveSession)) ==
            Put(DropSession(l, rid, sid), c, l.clients[c].(state := Idle, sessionid := -1))
  {
    var k := l.clients[c];
    var k1, k2 := k.(pc := Checked(LeaveSession)), k.(pc := OutOfSession);
    var l1 := Put(l, c, k1);
    assert Next(l, Ask(c, LeaveSession)) == l1;
    assert Next(l1, Call(c)) == Put(DropSession(l1, rid, sid), c, k2);
    HandledRun(l, c, LeaveSession);
    Overwritten(l.clients, c, k1, k2, k.(state := Idle, sessionid := -1));
  }

  lemma MakeAndLeaveRun(l: Lobby, c: Cid, rid: int)
    requires Lone(l, c, rid) && At(l.rooms, rid, IdOf(l.seed + 1)).None?
    ensures Run(l, MakeAndLeave(c)) == l.(seed := l.seed + 1)
  {
    var n := l.seed + 1;
    var l1 := Run(l, Made(c));
    RunSplit(l, Made(c), Handled(c, LeaveSession));
    MakeRun(l, c, rid);
    LeaveRun(l1, c, rid, IdOf(n), n);
    assert l1.rooms[rid].sessions - {IdOf(n)} == l.rooms[rid].sessions;
    assert Run(l, MakeAndLeave(c)).rooms == l.rooms;
    assert Run(l, MakeAndLeave(c)).clients == l.clients;
  }

  lemma {:induction false} RepeatedRun(l: Lobby, c: Cid, rid: int, n: nat)
    requires Lone(l, c, rid) && forall i :: l.seed < i <= l.seed + n ==> At(l.rooms, rid, IdOf(i)).None?
    ensures Run(l, Repeated(c, n)) == l.(seed := l.seed + n)
    decreases n
  {
    if n > 0 {
      RunSplit(l, MakeAndLeave(c), Repeated(c, n - 1));
      MakeAndLeaveRun(l, c, rid);
      RepeatedRun(l.(seed := l.seed + 1), c, rid, n - 1);
    }
  }

  /** While one client sits in a session, another makes and leaves 19999 sessions in the
      same room: its next one takes the first one's place. */
  lemma IdComesRound(l: Lobby, c: Cid, rid: int, birth: nat)
    requires Lone(l, c, rid) && l.seed == birth && l.rooms[rid].sessions.Keys == {IdOf(birth)}
    ensures var l' := Run(l, Repeated(c, 19999) + Drawn(c));
            l'.seed == birth + 20000 && Overwrites(l', Call(c))
  {
    forall i | l.seed < i <= l.seed + 19999 ensures At(l.rooms, rid, IdOf(i)).None? {
      IdsRepeat(birth, i);
    }
    RepeatedRun(l, c, rid, 19999);
    RunSplit(l, Repeated(c, 19999), Drawn(c));
    var l1 := l.(seed := l.seed + 19999);
    DrawRun(l1, c, rid);
    IdsRepeat(birth, birth + 20000);
  }

  /** The events of such a run from the empty lobby. */
  function WrapRun(): seq<Event> {
    (ARRIVALS + Made(1)) + (Repeated(2, 19999) + Drawn(2))
  }

  /** It happens: the first client sits in its session, and the second one's next
      creation puts it out without its knowing. */
  lemma IdWrapReached()
    ensures Overwrites(Run(EMPTY, WrapRun()), Call(2))
    ensures !Agree(Next(Run(EMPTY, WrapRun()), Call(2)))
  {
    PlayingReached();
    RunSplit(EMPTY, ARRIVALS + Made(1), Repeated(2, 19999) + Drawn(2));
    assert IdOf(1) == 2 && PLAYING.rooms[1].sessions.Keys == {2};
    IdComesRound(PLAYING, 2, 1, 1);
    OpeningInv(EMPTY);
    RunInv(EMPTY, WrapRun());
    Facts(Run(EMPTY, WrapRun()), Call(2));
  }
}
