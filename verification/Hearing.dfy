/**
 What a request answers and who hears of it, client by client: the return codes, the words
 that reach each client and by which way, and how the requests of a list add up.
 */
module Hearing {
  import opened Prelude
  import opened Session
  import opened Room
  import opened Batches
  import opened Serving
  import L = Lobby

  function Times(n: nat, says: seq<Message>): seq<Message> { if n == 0 then [] else says + Times(n - 1, says) }

  /** What the jobs tell a client, in order. */
  function Heard<C(==)>(posts: seq<Post<C>>, x: C): seq<Message> {
    if posts == [] then [] else Times(posts[0].to[x], posts[0].says) + Heard(posts[1..], x)
  }

  /** News of a room goes out by broadcast, news of a session by notification. */
  predicate OfRoom(m: Message) { m.EnteredRoom? || m.LeftRoom? || m.NewSessionIn? || m.SessionGone? }

  ghost predicate RightWay<C>(posts: seq<Post<C>>) {
    forall p, m :: p in posts && m in p.says ==> (OfRoom(m) <==> p.ToUsers?)
  }

  lemma JobHeard<C>(p: Post<C>, to: set<C>, x: C)
    requires p.to == multiset(to)
    ensures Heard([p], x) == if x in to then p.says else []
  {
    assert [p][1..] == [] && Times(1, p.says) == p.says + Times(0, p.says);
  }

  lemma NotifyHeard<C>(to: set<C>, says: seq<Message>, x: C)
    ensures Heard(Notify(multiset(to), says), x) == if x in to then says else []
    ensures Heard(Broadcast(multiset(to), says), x) == if x in to then says else []
  {
    if to == {} {
      assert multiset(to) == multiset{};
    } else {
      var y :| y in to;
      assert y in multiset(to);
      JobHeard(ToMembers(multiset(to), says), to, x);
      JobHeard(ToUsers(multiset(to), says), to, x);
    }
  }

  lemma {:induction false} HeardBoth<C>(p: seq<Post<C>>, q: seq<Post<C>>, x: C)
    ensures Heard(p + q, x) == Heard(p, x) + Heard(q, x)
    decreases |p|
  {
    if p == [] {
      assert p + q == q;
    } else {
      assert (p + q)[1..] == p[1..] + q;
      HeardBoth(p[1..], q, x);
    }
  }

  // ----- rooms ------------------------------------------------------------------------------------

  /** Entering a room: the three refusals, or the users before hear of it. */
  lemma EnterRoomTold<C>(h: Hall<C>, f: Local, c: C, rid: int, who: C -> string, x: C)
    requires c in h.states
    ensures var e := Serve(h, f, c, L.EnterRoom(rid), who);
            && e.Served? && RightWay(e.posts) && e.ret in {0, -1, -2, -3}
            && (e.ret == -1 <==> h.states[c] != Online)
            && (e.ret == -2 <==> h.states[c] == Online && rid !in h.rooms)
            && (e.ret == -3 <==>
                  && h.states[c] == Online && rid in h.rooms
                  && (|h.rooms[rid].users| >= h.rooms[rid].capacity || c in h.rooms[rid].users))
            && Heard(e.posts, x) == if e.ret == 0 && x in h.rooms[rid].users then [EnteredRoom(who(c))] else []
  {
    if rid in h.rooms {
      NotifyHeard(h.rooms[rid].users, [EnteredRoom(who(c))], x);
    }
  }

  lemma LeaveRoomTold<C>(h: Hall<C>, f: Local, c: C, who: C -> string, x: C)
    requires c in h.states && Granted(h, f, c, L.LeaveRoom)
    ensures var e := Serve(h, f, c, L.LeaveRoom, who);
            && e.Served? && RightWay(e.posts) && e.ret == 0
            && Heard(e.posts, x) == if x in h.rooms[f.roomid].users && x != c then [LeftRoom(who(c))] else []
  {
    NotifyHeard(h.rooms[f.roomid].users - {c}, [LeftRoom(who(c))], x);
  }

  // ----- sessions ---------------------------------------------------------------------------------

  /** The rest of the room hears of a new session by its id. */
  lemma MakeSessionTold<C>(h: Hall<C>, f: Local, c: C, who: C -> string, x: C)
    requires c in h.states && Granted(h, f, c, L.MakeSession)
    ensures var e, sid := Serve(h, f, c, L.MakeSession, who), (h.seed + 1) % 20000 + 1;
            && e.Served? && RightWay(e.posts) && e.ret == 0 && e.local.sessionid == sid
            && Heard(e.posts, x) == if x in h.rooms[f.roomid].users && x != c then [NewSessionIn(sid)] else []
  {
    NotifyHeard(h.rooms[f.roomid].users - {c}, [NewSessionIn(IdOf(h.seed + 1))], x);
  }

  /** Entering a session: no such one, no free seat, or its members hear of it. */
  lemma EnterSessionTold<C>(h: Hall<C>, f: Local, c: C, sid: int, who: C -> string, x: C)
    requires c in h.states && Granted(h, f, c, L.EnterSession(sid)) && Sound(h, f, c, L.EnterSession(sid))
    ensures var e, ss := Serve(h, f, c, L.EnterSession(sid), who), h.rooms[f.roomid].sessions;
            && e.Served? && RightWay(e.posts) && e.ret in {0, -2, -3}
            && (e.ret == -2 <==> sid !in ss)
            && (e.ret == -3 <==> sid in ss && ss[sid].owner.Some? && ss[sid].opponent.Some?)
            && Heard(e.posts, x) == if e.ret == 0 && x in Members(ss[sid]) then [EnteredSession(who(c))] else []
  {
    var ss := h.rooms[f.roomid].sessions;
    if sid in ss {
      HeadcountIsSize(ss[sid]);
      NotifyHeard(Members(ss[sid]), [EnteredSession(who(c))], x);
    }
  }

  lemma WatchSessionTold<C>(h: Hall<C>, f: Local, c: C, sid: int, who: C -> string, x: C)
    requires c in h.states && Granted(h, f, c, L.WatchSession(sid)) && Sound(h, f, c, L.WatchSession(sid))
    ensures var e, ss := Serve(h, f, c, L.WatchSession(sid), who), h.rooms[f.roomid].sessions;
            && e.Served? && RightWay(e.posts) && e.ret in {0, -2, -3}
            && (e.ret == -2 <==> sid !in ss)
            && (e.ret == -3 <==> sid in ss && |ss[sid].watchers| >= ss[sid].watcherCount)
            && Heard(e.posts, x) == if e.ret == 0 && x in Members(ss[sid]) then [WatchedSession(who(c))] else []
  {
    var ss := h.rooms[f.roomid].sessions;
    if sid in ss {
      HeadcountIsSize(ss[sid]);
      NotifyHeard(Members(ss[sid]), [WatchedSession(who(c))], x);
    }
  }

  /** What leaving tells: the room of the end of a session that loses its last member, the
      other members otherwise. */
  function LeaveWords<C(==)>(r: Room<C>, sid: int, s: Session<C>, c: C, name: string, x: C): seq<Message> {
    if Members(s) == {c} then if x in r.users then [SessionGone(sid)] else []
    else if x in Members(s) && x != c then [LeftSession(name)] else []
  }

  lemma LeftHeard<C>(r: Room<C>, sid: int, c: C, name: string, x: C)
    requires sid in r.sessions && WellFormed(r.sessions[sid]) && c in Members(r.sessions[sid])
    ensures LeaveIn(r, sid, c).Returns? && LeaveIn(r, sid, c).ret == |Members(r.sessions[sid]) - {c}|
    ensures RightWay(LeftPosts(r, sid, c, name))
    ensures Heard(LeftPosts(r, sid, c, name), x) == LeaveWords(r, sid, r.sessions[sid], c, name, x)
  {
    var s := r.sessions[sid];
    LeaveRemoves(s, c);
    var first := if Members(s) == {c} then Broadcast(multiset(r.users), [SessionGone(sid)]) else [];
    var others := Notify(multiset(Members(s) - {c}), [LeftSession(name)]);
    NoneStay(Members(s), c);
    assert LeftPosts(r, sid, c, name) == first + others;
    NotifyHeard(Members(s) - {c}, [LeftSession(name)], x);
    NotifyHeard(r.users, [SessionGone(sid)], x);
    HeardBoth(first, others, x);
  }

  lemma NoneStay<C>(xs: set<C>, c: C)
    requires c in xs
    ensures |xs - {c}| == 0 <==> xs == {c}
  {
    assert |xs - {c}| == 0 <==> xs - {c} == {};
    assert xs == (xs - {c}) + {c};
  }

  lemma LeaveSessionTold<C>(h: Hall<C>, f: Local, c: C, s: Session<C>, who: C -> string, x: C)
    requires c in h.states && Joined(h, f) == Some(s) && WellFormed(s) && c in Members(s)
    ensures var e := Serve(h, f, c, L.LeaveSession, who);
            && e.Served? && RightWay(e.posts) && e.ret == 0
            && Heard(e.posts, x) == LeaveWords(h.rooms[f.roomid], f.sessionid, s, c, who(c), x)
  {
    LeftHeard(h.rooms[f.roomid], f.sessionid, c, who(c), x);
  }

  // ----- ready ------------------------------------------------------------------------------------

  /** The start of a game: the owner has red and the first move where `red` is 0. */
  function StartWords<C>(s: Session<C>, who: C -> string): seq<Message>
    requires s.owner.Some? && s.opponent.Some?
  {
    if s.red == 0 then [GameStarts(who(s.owner.value), who(s.opponent.value))]
    else [GameStarts(who(s.opponent.value), who(s.owner.value))]
  }

  /** Both seats are taken, and the player in the one that is not c's is ready. */
  predicate OtherReady<C(==)>(s: Session<C>, c: C, states: map<C, PlayState>) {
    && s.owner.Some? && s.opponent.Some?
    && exists y :: y in Players(s) && y != c && y in states && states[y] == Ready
  }

  lemma StartsIff<C>(s: Session<C>, c: C, states: map<C, PlayState>)
    requires WellFormed(s) && c in Players(s)
    ensures Starts(s, c, states) <==> OtherReady(s, c, states)
  {
    if s.owner.Some? && s.opponent.Some? {
      assert Players(s) == {s.owner.value, s.opponent.value};
    }
  }

  /** Who is doing what after a player got ready. */
  lemma ReadyStates<C>(h: Hall<C>, f: Local, c: C, s: Session<C>, who: C -> string)
    requires c in h.states && Joined(h, f) == Some(s) && WellFormed(s) && c in Players(s)
    ensures var e := Serve(h, f, c, L.MakeReady, who);
            && e.Served? && e.ret == 0 && e.local == f && e.hall.rooms == h.rooms && e.hall.seed == h.seed
            && e.hall.states ==
               if !OtherReady(s, c, h.states) then h.states[c := Ready]
               else if s.red == 0 then h.states[s.owner.value := Moving][s.opponent.value := Pondering]
               else h.states[s.owner.value := Pondering][s.opponent.value := Moving]
  {
    StartsIff(s, c, h.states);
  }

  /** The other members hear that the client is ready, and they and the client itself of the
      start, if it made the game start. */
  lemma ReadyTold<C>(h: Hall<C>, f: Local, c: C, s: Session<C>, who: C -> string, x: C)
    requires c in h.states && Joined(h, f) == Some(s) && WellFormed(s) && c in Players(s)
    ensures var e := Serve(h, f, c, L.MakeReady, who);
            var start := if OtherReady(s, c, h.states) then StartWords(s, who) else [];
            && e.Served? && RightWay(e.posts)
            && Heard(e.posts, x) ==
               if x == c then start else if x in Members(s) then [BecameReady(who(c))] + start else []
  {
    StartsIff(s, c, h.states);
    PostsHeard(s, c, Starts(s, c, h.states), who, x);
  }

  lemma PostsHeard<C>(s: Session<C>, c: C, starts: bool, who: C -> string, x: C)
    requires WellFormed(s) && c in Players(s) && (starts ==> s.owner.Some? && s.opponent.Some?)
    ensures var ps, start := ReadyPosts(s, c, starts, who), if starts then StartWords(s, who) else [];
            && RightWay(ps)
            && Heard(ps, x) ==
               if x == c then start else if x in Members(s) then [BecameReady(who(c))] + start else []
  {
    ReadyWay(s, c, starts, who);
    var own, others := ReadyParts(s, c, starts, who, x);
    HeardBoth(own, others, x);
  }

  lemma ReadyWay<C>(s: Session<C>, c: C, starts: bool, who: C -> string)
    ensures RightWay(ReadyPosts(s, c, starts, who))
  {
  }

  /** The client's own job, and the one to the others. */
  lemma ReadyParts<C>(s: Session<C>, c: C, starts: bool, who: C -> string, x: C)
    returns (own: seq<Post<C>>, others: seq<Post<C>>)
    requires WellFormed(s) && c in Players(s) && (starts ==> s.owner.Some? && s.opponent.Some?)
    ensures ReadyPosts(s, c, starts, who) == own + others
    ensures Heard(own, x) == if starts && x == c then StartWords(s, who) else []
    ensures Heard(others, x) == if x in Members(s) - {c} then ReadyWords(s, c, starts, who) else []
  {
    own := if starts then [ToMembers(multiset{c}, [GameStart(s, who)])] else [];
    others := Notify(multiset(Members(s) - {c}), ReadyWords(s, c, starts, who));
    ReadyTells(s, c);
    OwnHeard(s, c, starts, who, x);
    NotifyHeard(Members(s) - {c}, ReadyWords(s, c, starts, who), x);
  }

  lemma OwnHeard<C>(s: Session<C>, c: C, starts: bool, who: C -> string, x: C)
    requires starts ==> s.owner.Some? && s.opponent.Some?
    ensures var own := if starts then [ToMembers(multiset{c}, [GameStart(s, who)])] else [];
            Heard(own, x) == if starts && x == c then StartWords(s, who) else []
  {
    if starts {
      assert multiset{c} == multiset({c});
      JobHeard(ToMembers(multiset{c}, [GameStart(s, who)]), {c}, x);
    }
  }

  // ----- the rest -----------------------------------------------------------------------------------

  /** The other requests change nothing and nobody hears of them; the list of sessions alone
      asks that the client be in a room. */
  lemma PlainTold<C>(h: Hall<C>, f: Local, c: C, what: L.Plain, who: C -> string)
    requires c in h.states
    ensures Serve(h, f, c, L.Other(what), who).Crash? <==> what == L.ListSessions && (f.roomid <= 0 || f.roomid !in h.rooms)
    ensures Serve(h, f, c, L.Other(what), who) in {Crash, Served(0, h, f, [])}
  {
  }

  /** On the way out of a client that is where its fields say, its session hears like of a
      leave, and then its room. */
  lemma CloseTold<C>(h: Hall<C>, f: Local, c: C, name: string, x: C)
    requires (forall rid :: rid in h.rooms ==> AllWellFormed(h.rooms[rid])) && Found(h, f, c)
    ensures var e := Close(h, f, c, name);
            && e.Served?
            && Heard(e.posts, x) ==
               (if f.sessionid > 0 then
                  LeaveWords(h.rooms[f.roomid], f.sessionid, h.rooms[f.roomid].sessions[f.sessionid], c, name, x) else [])
               + (if f.roomid > 0 && x in h.rooms[f.roomid].users && x != c then [LeftRoom(name)] else [])
  {
    DisconnectedIsGone(h, f, c, name);
    var e1 := CloseSession(h, f, c, name);
    var e2 := CloseRoom(e1.hall, e1.local, c, name);
    HeardBoth(e1.posts, e2.posts, x);
    if f.sessionid > 0 {
      CloseSessionLeaves(h, f, c, name);
      LeftHeard(h.rooms[f.roomid], f.sessionid, c, name, x);
    }
    if f.roomid > 0 {
      NotifyHeard(h.rooms[f.roomid].users - {c}, [LeftRoom(name)], x);
    }
  }

  // ----- a list of requests ----------------------------------------------------------------------------

  /** When the first k requests of a list were all served, the rest is served from where they
      led, and the jobs of the rest come after theirs. */
  lemma {:induction false} ServeAllSplits<C>(h: Hall<C>, f: Local, c: C, reqs: seq<L.Request>, k: nat, who: C -> string)
    requires Known(h) && c in h.states && k <= |reqs|
    requires ServeAll(h, f, c, reqs[..k], who).Finished? && ServeAll(h, f, c, reqs[..k], who).count == k
    ensures var o := ServeAll(h, f, c, reqs[..k], who);
            && Known(o.hall) && c in o.hall.states
            && match ServeAll(o.hall, o.local, c, reqs[k..], who)
               case Halted => ServeAll(h, f, c, reqs, who).Halted?
               case Finished(n, h2, f2, more) => ServeAll(h, f, c, reqs, who) == Finished(k + n, h2, f2, o.posts + more)
    decreases k
  {
    if k == 0 {
      assert reqs[k..] == reqs;
      var o := ServeAll(h, f, c, reqs, who);
      assert o.Finished? ==> [] + o.posts == o.posts;
    } else {
      var e := Serve(h, f, c, reqs[0], who);
      ServeKnown(h, f, c, reqs[0], who);
      assert reqs[..k][1..] == reqs[1..][..k - 1] && reqs[k..] == reqs[1..][k - 1..];
      ServeAllSplits(e.hall, e.local, c, reqs[1..], k - 1, who);
      var o, rest := ServeAll(e.hall, e.local, c, reqs[1..][..k - 1], who), ServeAll(h, f, c, reqs, who);
      if rest.Finished? {
        Grouped(e.posts, o.posts, ServeAll(o.hall, o.local, c, reqs[k..], who).posts);
      }
    }
  }

  lemma Grouped<T>(a: seq<T>, b: seq<T>, c: seq<T>)
    ensures a + (b + c) == (a + b) + c
  {
  }
}
