/**
 What session ids are worth. genid is called with no lock held: it loads the seed, stores
 it one up and reads it again, and other creations may come in between anywhere. The
 number a creation reads is the session's birth, and its id that number's remainder.
 */
module LobbyIds {
  import opened Session
  import opened Lobby
  import opened LobbySteps
  import opened LobbyRuns

  /** Two numbers give one id exactly when they are a multiple of the range apart. */
  lemma IdsRepeat(i: nat, j: nat)
    ensures 1 <= IdOf(i) <= ID_RANGE
    ensures IdOf(i) == IdOf(j) <==> (j - i) % ID_RANGE == 0
    ensures i < j < i + ID_RANGE ==> IdOf(i) != IdOf(j)
  {
  }

  /** An insertion overwrites exactly when a session of the room was born under a number a
      multiple of the range away. */
  lemma OverwritesIff(l: Lobby, c: Cid, n: nat)
    requires Inv(l) && !l.halted && c in l.clients && l.clients[c].pc == Named(n)
    ensures Overwrites(l, Call(c)) <==>
              exists sid :: At(l.rooms, l.clients[c].roomid, sid).Some?
                         && (n - At(l.rooms, l.clients[c].roomid, sid).value.birth) % ID_RANGE == 0
  {
    var rid := l.clients[c].roomid;
    forall sid | At(l.rooms, rid, sid).Some?
      ensures sid == IdOf(n) <==> (n - At(l.rooms, rid, sid).value.birth) % ID_RANGE == 0 {
      assert SessionAt(l, rid, sid);
      IdsRepeat(At(l.rooms, rid, sid).value.birth, n);
    }
  }

  // ----- when ids have not come round ----------------------------------------------------------

  /** The insertion of a session with the very number a stored session of the room has. */
  predicate Repeats(l: Lobby, ev: Event) {
    Overwrites(l, ev) &&
    At(l.rooms, l.clients[ev.c].roomid, IdOf(l.clients[ev.c].pc.n)).value.birth == l.clients[ev.c].pc.n
  }

  /** No session of the room is 20000 numbers or more away from the one inserted. */
  predicate Near(l: Lobby, ev: Event) {
    Overwrites(l, ev) ==>
      var n, b := l.clients[ev.c].pc.n, At(l.rooms, l.clients[ev.c].roomid, IdOf(l.clients[ev.c].pc.n)).value.birth;
      n - ID_RANGE < b < n + ID_RANGE
  }

  lemma NearOverwritesIff(l: Lobby, ev: Event)
    requires Inv(l) && Near(l, ev)
    ensures Overwrites(l, ev) <==> Repeats(l, ev)
  {
    if Overwrites(l, ev) {
      var n, rid := l.clients[ev.c].pc.n, l.clients[ev.c].roomid;
      assert SessionAt(l, rid, IdOf(n));
      var b := At(l.rooms, rid, IdOf(n)).value.birth;
      IdsRepeat(b, n);
      IdsRepeat(n, b);
    }
  }

  predicate NearRun(l: Lobby, es: seq<Event>)
    decreases |es|
  {
    es == [] || (Near(l, es[0]) && NearRun(Next(l, es[0]), es[1..]))
  }

  predicate NeverRepeats(l: Lobby, es: seq<Event>)
    decreases |es|
  {
    es == [] || (!EntersSeatless(l, es[0]) && !Repeats(l, es[0]) && NeverRepeats(Next(l, es[0]), es[1..]))
  }

  lemma {:induction false} NearNeverBad(l: Lobby, es: seq<Event>)
    requires Inv(l) && NearRun(l, es)
    ensures NeverBad(l, es) <==> NeverRepeats(l, es)
    decreases |es|
  {
    if es != [] {
      NearOverwritesIff(l, es[0]);
      StepInv(l, es[0]);
      NearNeverBad(Next(l, es[0]), es[1..]);
    }
  }

  /** While ids have not come round, the records agree and no ASSERT fails exactly when
      nobody entered a session of watchers only and no session was inserted with the same
      number as a stored one of its room. */
  lemma ShortLivedSessionsAgreeIff(l0: Lobby, es: seq<Event>)
    requires Opening(l0) && NearRun(l0, es)
    ensures NeverRepeats(l0, es) <==> Agree(Run(l0, es)) && !Run(l0, es).halted
  {
    OpeningInv(l0);
    NearNeverBad(l0, es);
    AgreementIff(l0, es);
  }

  // ----- genid calls that do not overlap ----------------------------------------------------------

  /** Between its load of the seed and its second reading. */
  predicate InWindow(k: Client) { k.pc.Loaded? || k.pc.Bumped? }

  /** A creation loads the seed while another is between its load and its reading. */
  ghost predicate Overlaps(l: Lobby, ev: Event) {
    && !l.halted && ev.Call? && ev.c in l.clients && l.clients[ev.c].pc.Making?
    && exists d :: d in l.clients && d != ev.c && InWindow(l.clients[d])
  }

  ghost predicate Alone(l: Lobby, c: Cid) {
    forall d :: d in l.clients && d != c ==> !InWindow(l.clients[d])
  }

  /** A number that a session has, or is about to get. */
  ghost predicate Bounded(l: Lobby, x: nat) {
    x <= l.seed && forall d :: d in l.clients && l.clients[d].pc.Bumped? ==> x < l.seed
  }

  ghost predicate WindowAt(l: Lobby, c: Cid) {
    c in l.clients ==>
      && (InWindow(l.clients[c]) ==> Alone(l, c))
      && (l.clients[c].pc.Loaded? ==> l.clients[c].pc.v == l.seed)
      && (l.clients[c].pc.Named? ==> Bounded(l, l.clients[c].pc.n))
  }

  ghost predicate BirthAt(l: Lobby, rid: int, sid: int) {
    At(l.rooms, rid, sid).Some? ==> Bounded(l, At(l.rooms, rid, sid).value.birth)
  }

  /** No stored session has the number that c is about to use, nor has another client. */
  ghost predicate FreshAt(l: Lobby, c: Cid) {
    c in l.clients && l.clients[c].pc.Named? ==>
      && (forall rid, sid :: At(l.rooms, rid, sid).Some? ==> At(l.rooms, rid, sid).value.birth != l.clients[c].pc.n)
      && (forall d :: d in l.clients && d != c && l.clients[d].pc.Named? ==> l.clients[d].pc.n != l.clients[c].pc.n)
  }

  ghost predicate Serial(l: Lobby) {
    && (forall c :: WindowAt(l, c)) && (forall rid, sid :: BirthAt(l, rid, sid)) && (forall c :: FreshAt(l, c))
  }

  /** What a step does to the numbers: none is new but the one inserted. */
  ghost predicate BirthsKept(l: Lobby, l': Lobby) {
    forall rid, sid :: At(l'.rooms, rid, sid).Some? ==>
      At(l.rooms, rid, sid).Some? && At(l'.rooms, rid, sid).value.birth == At(l.rooms, rid, sid).value.birth
  }

  ghost predicate PcsKept(l: Lobby, l': Lobby, a: Cid) {
    forall d :: d in l'.clients && d != a ==> d in l.clients && l'.clients[d].pc == l.clients[d].pc
  }

  lemma StoredBirths(l: Lobby, c: Cid, k: Client, rid: int, sid: int, t: Session<Cid>)
    requires At(l.rooms, rid, sid).Some? && t.birth == At(l.rooms, rid, sid).value.birth && c in l.clients
    ensures var l' := Put(PutSession(l, rid, sid, t), c, k); BirthsKept(l, l') && PcsKept(l, l', c)
  {
  }

  lemma DroppedBirths(l: Lobby, c: Cid, k: Client, rid: int, sid: int)
    requires rid in l.rooms && c in l.clients
    ensures var l' := Put(DropSession(l, rid, sid), c, k); BirthsKept(l, l') && PcsKept(l, l', c)
  {
  }

  lemma LeaveBirths(l: Lobby, c: Cid)
    requires c in l.clients
    ensures BirthsKept(l, CallLeaveSession(l, c)) && PcsKept(l, CallLeaveSession(l, c), c)
    ensures CallLeaveSession(l, c).seed == l.seed && c in CallLeaveSession(l, c).clients
    ensures CallLeaveSession(l, c).clients[c].pc in {l.clients[c].pc, OutOfSession}
  {
    var k := l.clients[c];
    var o := At(l.rooms, k.roomid, k.sessionid);
    if o.Some? {
      DroppedBirths(l, c, k.(pc := OutOfSession), k.roomid, k.sessionid);
      StoredBirths(l, c, k.(pc := OutOfSession), k.roomid, k.sessionid, Leave(o.value, c).1);
    }
  }

  lemma EnterBirths(l: Lobby, c: Cid, sid: int)
    requires UsersOk(l) && c in l.clients && l.clients[c].pc == Checked(EnterSession(sid))
    ensures Quiet(l, CallEnterSession(l, c, sid), c)
  {
    EnterEffect(l, c, sid);
    var k := l.clients[c];
    var o := At(l.rooms, k.roomid, sid);
    if o.Some? {
      StoredBirths(l, c, k.(pc := Seated(sid)), k.roomid, sid, Enter(o.value, c).1);
    }
  }

  lemma WatchBirths(l: Lobby, c: Cid, sid: int)
    requires UsersOk(l) && c in l.clients && l.clients[c].pc == Checked(WatchSession(sid))
    ensures Quiet(l, CallWatchSession(l, c, sid), c)
  {
    WatchEffect(l, c, sid);
    var k := l.clients[c];
    var o := At(l.rooms, k.roomid, sid);
    if o.Some? {
      StoredBirths(l, c, k.(pc := Watcher(sid)), k.roomid, sid, Watch(o.value, c).1);
    }
  }

  lemma ReadyBirths(l: Lobby, c: Cid)
    requires Inv(l) && c in l.clients && l.clients[c].pc == Checked(MakeReady)
    ensures Quiet(l, CallMakeReady(l, c), c)
  {
    if Present(l, c) {
      var s := ReadyOutcome(l, c);
      if RivalReady(l, s, c) {
        StartedQuiet(l, s, c);
      }
    } else {
      ReadyHalts(l, c);
    }
  }

  lemma StartedQuiet(l: Lobby, s: Session<Cid>, c: Cid)
    requires c in l.clients && RivalReady(l, s, c) && Rival(s, c).value != c
    ensures Quiet(l, Started(l, s, c), c)
  {
  }

  /** The numbers stay and the actor is outside genid, or at its door. */
  ghost predicate Quiet(l: Lobby, l': Lobby, c: Cid) {
    && BirthsKept(l, l') && PcsKept(l, l', c) && l'.seed == l.seed
    && (c in l'.clients ==> l'.clients[c].pc.Making? || !InGenid(l'.clients[c]))
  }

  lemma QuietStep(l: Lobby, l': Lobby, a: Cid)
    requires Serial(l) && Quiet(l, l', a)
    ensures Serial(l')
  {
    forall c: Cid ensures WindowAt(l', c) && FreshAt(l', c) {
      assert WindowAt(l, c) && FreshAt(l, c);
    }
    forall rid, sid ensures BirthAt(l', rid, sid) {
      assert BirthAt(l, rid, sid);
    }
  }

  lemma RoomBirths(l: Lobby, c: Cid, req: Request)
    requires c in l.clients && l.clients[c].pc == Checked(req)
    requires req.EnterRoom? || req.LeaveRoom? || req.MakeSession? || req.Other?
    ensures Quiet(l, CallRequest(l, c, req), c)
  {
  }

  lemma RequestQuiet(l: Lobby, c: Cid, req: Request)
    requires Inv(l) && c in l.clients && l.clients[c].pc == Checked(req)
    ensures Quiet(l, CallRequest(l, c, req), c)
  {
    match req {
      case EnterSession(sid) => EnterBirths(l, c, sid);
      case LeaveSession => LeaveBirths(l, c);
      case WatchSession(sid) => WatchBirths(l, c, sid);
      case MakeReady => ReadyBirths(l, c);
      case _ => RoomBirths(l, c, req);
    }
  }

  lemma RequestSerial(l: Lobby, c: Cid)
    requires Inv(l) && Serial(l) && c in l.clients && l.clients[c].pc.Checked?
    ensures Serial(CallRequest(l, c, l.clients[c].pc.req))
  {
    RequestQuiet(l, c, l.clients[c].pc.req);
    QuietStep(l, CallRequest(l, c, l.clients[c].pc.req), c);
  }

  lemma CloseSerial(l: Lobby, c: Cid)
    requires Serial(l) && c in l.clients && l.clients[c].pc.Free?
    ensures Serial(CallClose(l, c))
  {
    if l.clients[c].sessionid > 0 {
      LeaveBirths(l, c);
    }
    QuietStep(l, CallClose(l, c), c);
  }

  lemma LoadSerial(l: Lobby, c: Cid)
    requires Serial(l) && c in l.clients && l.clients[c].pc.Making? && Alone(l, c)
    ensures Serial(CallMaking(l, c))
  {
    var l' := CallMaking(l, c);
    forall d: Cid ensures WindowAt(l', d) && FreshAt(l', d) {
      assert WindowAt(l, d) && FreshAt(l, d);
    }
    forall rid, sid ensures BirthAt(l', rid, sid) {
      assert BirthAt(l, rid, sid);
    }
  }

  lemma BumpSerial(l: Lobby, c: Cid)
    requires Serial(l) && c in l.clients && l.clients[c].pc.Loaded?
    ensures Serial(CallMaking(l, c))
  {
    var l' := CallMaking(l, c);
    assert WindowAt(l, c);
    forall x: nat | Bounded(l, x) ensures Bounded(l', x) {
    }
    forall d: Cid ensures WindowAt(l', d) {
      assert WindowAt(l, d);
    }
    forall d: Cid ensures FreshAt(l', d) {
      assert FreshAt(l, d);
      assert l'.rooms == l.rooms;
    }
    forall rid, sid ensures BirthAt(l', rid, sid) {
      assert BirthAt(l, rid, sid);
    }
  }

  lemma ReadSerial(l: Lobby, c: Cid)
    requires Serial(l) && c in l.clients && l.clients[c].pc.Bumped?
    ensures Serial(CallMaking(l, c))
  {
    var l' := CallMaking(l, c);
    assert WindowAt(l, c);
    forall rid, sid ensures BirthAt(l', rid, sid) {
      assert BirthAt(l, rid, sid);
    }
    forall rid, sid | At(l.rooms, rid, sid).Some? ensures At(l.rooms, rid, sid).value.birth < l.seed {
      assert BirthAt(l, rid, sid);
    }
    forall d: Cid | d in l.clients && l.clients[d].pc.Named? ensures l.clients[d].pc.n < l.seed {
      assert WindowAt(l, d);
    }
    forall d: Cid ensures WindowAt(l', d) {
      assert WindowAt(l, d);
    }
    forall d: Cid ensures FreshAt(l', d) {
      assert FreshAt(l, d);
    }
  }

  lemma StoreSerial(l: Lobby, c: Cid, n: nat)
    requires Inv(l) && Serial(l) && c in l.clients && l.clients[c].pc == Named(n)
    ensures Serial(CallMaking(l, c))
  {
    var l' := CallMaking(l, c);
    StoreWrites(l, c, n);
    assert WindowAt(l, c) && FreshAt(l, c);
    forall rid, sid ensures BirthAt(l', rid, sid) {
      assert BirthAt(l, rid, sid);
    }
    forall d: Cid ensures WindowAt(l', d) && FreshAt(l', d) {
      assert WindowAt(l, d) && FreshAt(l, d);
    }
  }

  /** One number comes into the rooms, and its maker lets go of it. */
  lemma StoreWrites(l: Lobby, c: Cid, n: nat)
    requires Inv(l) && c in l.clients && l.clients[c].pc == Named(n)
    ensures var l' := CallMaking(l, c);
            && l'.seed == l.seed && l'.clients.Keys == l.clients.Keys && l'.clients[c].pc.Seated? && PcsKept(l, l', c)
            && forall rid, sid :: At(l'.rooms, rid, sid).Some? ==>
                 At(l'.rooms, rid, sid).value.birth == n ||
                 (At(l.rooms, rid, sid).Some? && At(l'.rooms, rid, sid).value.birth == At(l.rooms, rid, sid).value.birth)
  {
    MakingFindsRoom(l, c);
    var k := l.clients[c];
    PutSessionAt(l, c, k.(pc := Seated(IdOf(n))), k.roomid, IdOf(n), NewSession(c, n));
  }

  lemma MakingSerial(l: Lobby, c: Cid)
    requires Inv(l) && Serial(l) && c in l.clients && InGenid(l.clients[c])
    requires l.clients[c].pc.Making? ==> Alone(l, c)
    ensures Serial(CallMaking(l, c))
  {
    match l.clients[c].pc
    case Making => LoadSerial(l, c);
    case Loaded(v) => BumpSerial(l, c);
    case Bumped => ReadSerial(l, c);
    case Named(n) => StoreSerial(l, c, n);
  }

  lemma CallSerial(l: Lobby, c: Cid)
    requires Inv(l) && Serial(l) && !l.halted && !Overlaps(l, Call(c))
    ensures Serial(Next(l, Call(c)))
  {
    if c in l.clients {
      if l.clients[c].pc.Checked? {
        RequestSerial(l, c);
      } else if l.clients[c].pc.Free? && l.clients[c].closing {
        CloseSerial(l, c);
      } else if InGenid(l.clients[c]) {
        MakingSerial(l, c);
      }
    }
  }

  lemma CommitSerial(l: Lobby, c: Cid)
    requires Serial(l) && !l.halted && c in l.clients
    ensures Serial(Next(l, Commit(c)))
  {
    if InGenid(l.clients[c]) {
      assert Next(l, Commit(c)).clients == l.clients;
    } else {
      QuietStep(l, Next(l, Commit(c)), c);
    }
  }

  lemma StepSerial(l: Lobby, ev: Event)
    requires Inv(l) && Serial(l) && !Overlaps(l, ev)
    ensures Serial(Next(l, ev))
  {
    if !l.halted && Next(l, ev) != l {
      match ev
      case Call(c) => CallSerial(l, c);
      case Commit(c) => CommitSerial(l, c);
      case Login(c, name) => QuietStep(l, Next(l, ev), c);
      case Ask(c, req) => QuietStep(l, Next(l, ev), c);
      case Hangup(c) => QuietStep(l, Next(l, ev), c);
    }
  }

  lemma FreshDiffers(l: Lobby, c: Cid, rid: int, sid: int)
    requires Serial(l) && c in l.clients && l.clients[c].pc.Named? && At(l.rooms, rid, sid).Some?
    ensures At(l.rooms, rid, sid).value.birth != l.clients[c].pc.n
  {
    assert FreshAt(l, c);
  }

  /** Numbers drawn one after the other never repeat. */
  lemma SerialNeverRepeats(l: Lobby, ev: Event)
    requires Serial(l)
    ensures !Repeats(l, ev)
  {
    if Overwrites(l, ev) {
      FreshDiffers(l, ev.c, l.clients[ev.c].roomid, IdOf(l.clients[ev.c].pc.n));
    }
  }

  // ----- sessions that do not live too long -----------------------------------------------------------

  /** Every session stored and every number drawn and not used yet is among the last 20000. */
  ghost predicate Recent(l: Lobby) {
    && (forall rid, sid :: At(l.rooms, rid, sid).Some? ==> l.seed - At(l.rooms, rid, sid).value.birth < ID_RANGE)
    && (forall c :: c in l.clients && l.clients[c].pc.Named? ==> l.seed - l.clients[c].pc.n < ID_RANGE)
  }

  lemma RecentIsNear(l: Lobby, ev: Event)
    requires Serial(l) && Recent(l)
    ensures Near(l, ev)
  {
    if Overwrites(l, ev) {
      assert WindowAt(l, ev.c) && BirthAt(l, l.clients[ev.c].roomid, IdOf(l.clients[ev.c].pc.n));
    }
  }

  ghost predicate QuietRun(l: Lobby, es: seq<Event>)
    decreases |es|
  {
    es == [] ||
    (Recent(l) && !Overlaps(l, es[0]) && !EntersSeatless(l, es[0]) && QuietRun(Next(l, es[0]), es[1..]))
  }

  lemma {:induction false} QuietNeverBad(l: Lobby, es: seq<Event>)
    requires Inv(l) && Serial(l) && QuietRun(l, es)
    ensures NeverBad(l, es)
    decreases |es|
  {
    if es != [] {
      RecentIsNear(l, es[0]);
      NearOverwritesIff(l, es[0]);
      SerialNeverRepeats(l, es[0]);
      StepInv(l, es[0]);
      StepSerial(l, es[0]);
      QuietNeverBad(Next(l, es[0]), es[1..]);
    }
  }

  /** If no session outlives 19999 later creations, no two calls of genid overlap and no
      client enters a session of watchers only, then every client with a session is in it
      and no ASSERT fails. */
  lemma ShortLivedSessionsAgree(l0: Lobby, es: seq<Event>)
    requires Opening(l0) && QuietRun(l0, es)
    ensures Agree(Run(l0, es)) && !Run(l0, es).halted
  {
    OpeningInv(l0);
    QuietNeverBad(l0, es);
    AgreementIff(l0, es);
  }
}
