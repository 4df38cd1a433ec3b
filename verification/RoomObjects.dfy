/**
 CSession and CRoom on their objects: seats, watchers, users and sessions changed in
 place, loops over the sets filling the batches, each method proved to do what the
 functions of Session and Room say and to tell exactly the right clients.
 */
module RoomObjects {
  import opened Prelude
  import opened Session
  import opened Room
  import opened Batches
  import opened Serving

  function AsOption(c: CClientPeer?): Option<CClientPeer> { if c == null then None else Some(c) }

  function NameOf(c: CClientPeer): string { c.uname }

  /** The elements a loop over a set has listed so far: those visited, but for some it
      passes over. */
  ghost predicate Listed<T>(s: seq<T>, all: set<T>, rest: set<T>, but: set<T>) {
    multiset(s) == multiset(all - rest - but)
  }

  lemma ListMore<T>(s: seq<T>, all: set<T>, rest: set<T>, but: set<T>, u: T)
    requires Listed(s, all, rest, but) && u in rest && rest <= all
    ensures Listed(if u in but then s else s + [u], all, rest - {u}, but)
  {
    if u in but {
      assert all - (rest - {u}) - but == all - rest - but;
    } else {
      assert all - (rest - {u}) - but == (all - rest - but) + {u};
    }
  }

  lemma ListStart<T>(all: set<T>, but: set<T>)
    ensures Listed([], all, all, but)
  {
    assert all - all - but == {};
  }

  lemma ListEnd<T>(was: seq<T>, s: seq<T>, all: set<T>, but: set<T>)
    requires Listed(s, all, {}, but)
    ensures multiset(was + s) == multiset(was) + multiset(all - but)
  {
    assert all - {} - but == all - but;
  }

  /** genid's static; `seed` is what it would be had it never been reduced. */
  class CIdSeed {
    var idseed: nat
    ghost var seed: nat

    ghost predicate Valid()
      reads this
    {
      idseed == seed % ID_RANGE
    }

    constructor ()
      ensures Valid() && seed == 0
    {
      idseed, seed := 0, 0;
    }

    /** The static is loaded, stored one up and loaded again, without a lock; `meanwhile`
        is what another thread stored last in between, if one did. The id is that of the
        number read last. */
    method GenId(meanwhile: Option<nat>) returns (id: int)
      requires Valid()
      modifies this
      ensures Valid() && seed == (if meanwhile.Some? then meanwhile.value else old(seed) + 1) && id == IdOf(seed)
    {
      idseed := (idseed + 1) % ID_RANGE;
      seed := seed + 1;
      if meanwhile.Some? {
        idseed := meanwhile.value % ID_RANGE;
        seed := meanwhile.value;
      }
      id := idseed + 1;
    }
  }

  class CSession {
    const id: int
    const red: int
    const watcherCount: nat
    ghost const birth: nat
    var owner: CClientPeer?
    var opponent: CClientPeer?
    var watchers: set<CClientPeer>

    ghost function View(): Session<CClientPeer>
      reads this
    {
      Session(AsOption(owner), AsOption(opponent), watchers, red, watcherCount, birth)
    }

    constructor (ow: CClientPeer, gen: CIdSeed, meanwhile: Option<nat>)
      requires gen.Valid()
      modifies gen
      ensures gen.Valid() && gen.seed == (if meanwhile.Some? then meanwhile.value else old(gen.seed) + 1)
      ensures id == IdOf(gen.seed) && View() == NewSession(ow, gen.seed)
    {
      red, watcherCount := DEFAULT_RED, DEFAULT_WATCHERS;
      owner, opponent, watchers := ow, null, {};
      var n := gen.GenId(meanwhile);
      id, birth := n, gen.seed;
    }

    /** The loop over _watchers that ends every method. */
    method NotifyWatchers(notier: CNotifier) returns (count: nat)
      modifies notier`clis
      ensures multiset(notier.clis) == multiset(old(notier.clis)) + multiset(watchers)
      ensures count == |watchers|
    {
      var rest := watchers;
      ghost var listed := [];
      ListStart(watchers, {});
      count := 0;
      while rest != {}
        invariant rest <= watchers && count == |watchers| - |rest|
        invariant notier.clis == old(notier.clis) + listed && Listed(listed, watchers, rest, {})
        decreases |rest|
      {
        var w :| w in rest;
        ListMore(listed, watchers, rest, {}, w);
        notier.AddNotifiee(w);
        listed := listed + [w];
        count := count + 1;
        rest := rest - {w};
      }
      ListEnd(old(notier.clis), listed, watchers, {});
      assert watchers - {} == watchers;
    }

    /** Adds the client if there is one. */
    method NotifySeat(c: CClientPeer?, notier: CNotifier) returns (count: nat)
      modifies notier`clis
      ensures multiset(notier.clis) == multiset(old(notier.clis)) + Once(AsOption(c))
      ensures count == |Seat(AsOption(c))|
    {
      count := 0;
      if c != null {
        notier.AddNotifiee(c);
        count := 1;
      }
    }

    /** The owner, the opponent and the watchers. */
    method NotifyAll(notier: CNotifier) returns (count: nat)
      modifies notier`clis
      ensures multiset(notier.clis) == multiset(old(notier.clis)) + Everyone(View())
      ensures count == Headcount(View())
    {
      var a := NotifySeat(owner, notier);
      var b := NotifySeat(opponent, notier);
      var w := NotifyWatchers(notier);
      count := a + b + w;
    }

    /** Takes the client out of its place. */
    method Vacate(c: CClientPeer) returns (found: bool)
      modifies this
      ensures var (ret, t) := Leave(old(View()), c);
              View() == t && (if found then ret == Headcount(t) else ret == -1)
    {
      if owner == c {
        owner := null;
      } else if opponent == c {
        opponent := null;
      } else if c in watchers {
        watchers := watchers - {c};
      } else {
        return false;
      }
      return true;
    }

    method LeaveBy(c: CClientPeer, notier: CNotifier) returns (ret: int)
      modifies this, notier`clis
      ensures (ret, View()) == Leave(old(View()), c)
      ensures multiset(notier.clis) ==
              multiset(old(notier.clis)) + (if ret < 0 then multiset{} else Everyone(View()))
      ensures ret < 0 ==> notier.clis == old(notier.clis)
    {
      var found := Vacate(c);
      if !found {
        return -1;
      }
      ret := NotifyAll(notier);
    }

    method WatchBy(c: CClientPeer, notier: CNotifier) returns (ret: int)
      modifies this, notier`clis
      ensures (ret, View()) == Watch(old(View()), c)
      ensures multiset(notier.clis) ==
              multiset(old(notier.clis)) + (if ret < 0 then multiset{} else Everyone(old(View())))
      ensures ret < 0 ==> notier.clis == old(notier.clis)
    {
      if |watchers| >= watcherCount {
        return -3;
      }
      var count := NotifyAll(notier);
      watchers := watchers + {c};
      return 0;
    }

    method EnterBy(c: CClientPeer, notier: CNotifier) returns (ret: int)
      modifies this, notier`clis
      ensures (ret, View()) == Enter(old(View()), c)
      ensures multiset(notier.clis) ==
              multiset(old(notier.clis)) + (if ret < 0 then multiset{} else Everyone(old(View())))
      ensures ret < 0 ==> notier.clis == old(notier.clis)
    {
      if owner != null && opponent != null {
        return -3;
      }
      if owner != null {
        notier.AddNotifiee(owner);
        opponent := c;
      } else if opponent != null {
        notier.AddNotifiee(opponent);
        owner := c;
      }
      var w := NotifyWatchers(notier);
      return 0;
    }

    /** updatePlayersState: the owner is written first; the game's two names. */
    method UpdatePlayersState(ghost cs: set<CClientPeer>) returns (redn: string, bkn: string)
      requires owner != null && opponent != null && owner in cs && opponent in cs
      modifies owner`state, opponent`state
      ensures StatesOf(cs) == old(StatesOf(cs))[owner := if red == 0 then Moving else Pondering]
                                               [opponent := if red == 0 then Pondering else Moving]
      ensures redn == Mover(View()).value.uname && bkn == Waiter(View()).value.uname
    {
      if red == 0 {
        owner.SetState(Moving, cs);
        opponent.SetState(Pondering, cs);
        redn := owner.uname;
        bkn := opponent.uname;
      } else {
        owner.SetState(Pondering, cs);
        opponent.SetState(Moving, cs);
        bkn := owner.uname;
        redn := opponent.uname;
      }
    }

    /** The player in the other seat is told, and the game starts if it is ready. */
    method MeetRival(rival: CClientPeer?, notier: CNotifier, ghost cs: set<CClientPeer>)
      returns (ret: int, redn: string, bkn: string)
      requires rival != null ==> owner != null && opponent != null && rival in {owner, opponent} && {owner, opponent} <= cs
      modifies Players(View())`state, notier`clis
      ensures ret == if rival != null && old(StatesOf(cs))[rival] == PlayState.Ready then 1 else 0
      ensures ret == 0 ==> StatesOf(cs) == old(StatesOf(cs))
      ensures ret == 1 ==>
                && StatesOf(cs) == old(StatesOf(cs))[owner := if red == 0 then Moving else Pondering]
                                                    [opponent := if red == 0 then Pondering else Moving]
                && redn == Mover(View()).value.uname && bkn == Waiter(View()).value.uname
      ensures multiset(notier.clis) == multiset(old(notier.clis)) + Once(AsOption(rival))
    {
      ret, redn, bkn := 0, "", "";
      if rival != null {
        notier.AddNotifiee(rival);
        if rival.state == PlayState.Ready {
          redn, bkn := UpdatePlayersState(cs);
          ret := 1;
        }
      }
    }

    /** `ok` tells that the ASSERT held; cs are the clients there are. */
    method ReadyBy(c: CClientPeer, notier: CNotifier, ghost cs: set<CClientPeer>)
      returns (ok: bool, ret: int, redn: string, bkn: string)
      requires c in cs && Players(View()) <= cs
      modifies ({c} + Players(View()))`state, notier`clis
      ensures ok <==> c in Players(View())
      ensures ok ==>
                && ret == (if Starts(View(), c, old(StatesOf(cs))) then 1 else 0)
                && StatesOf(cs) == AfterReady(View(), c, old(StatesOf(cs)))
                && (ret == 1 ==> GameStarts(redn, bkn) == GameStart(View(), NameOf))
      ensures ok ==> multiset(notier.clis) ==
                multiset(old(notier.clis)) + Once(Rival(View(), c)) + multiset(watchers)
    {
      ok, ret, redn, bkn := true, 0, "", "";
      c.SetState(PlayState.Ready, cs);
      if owner == c {
        ret, redn, bkn := MeetRival(opponent, notier, cs);
      } else if opponent == c {
        ret, redn, bkn := MeetRival(owner, notier, cs);
      } else {
        ok := false;
        return;
      }
      var w := NotifyWatchers(notier);
    }
  }

  class CRoom {
    const id: int
    const capacity: nat
    var usrlist: set<CClientPeer>
    var sessions: map<int, CSession>

    /** No session object is stored twice. */
    ghost predicate Valid()
      reads this`sessions
    {
      forall i, j :: i in sessions && j in sessions && i != j ==> sessions[i] != sessions[j]
    }

    ghost function Stored(): map<int, Session<CClientPeer>>
      reads this`sessions, sessions.Values
    {
      map i | i in sessions :: sessions[i].View()
    }

    ghost function View(): Room<CClientPeer>
      reads this, sessions.Values
    {
      Room(capacity, usrlist, Stored())
    }

    constructor (i: int, cap: nat)
      ensures Valid() && id == i && View() == Room(cap, {}, map[])
    {
      id, capacity, usrlist, sessions := i, cap, {}, map[];
    }

    /** One turn of the loop over _usrlist. */
    static method Visit(u: CClientPeer, but: CClientPeer?, bd: CBroadCaster, ghost listed: seq<CClientPeer>)
      returns (ghost more: seq<CClientPeer>)
      requires bd.Valid()
      modifies bd`broadcaster, bd`audience
      ensures bd.Valid() && more == (if u in Seat(AsOption(but)) then listed else listed + [u])
      ensures forall was :: old(bd.audience) == was + listed ==> bd.audience == was + more
    {
      more := listed;
      if u != but {
        bd.InsertAddr(u);
        more := listed + [u];
      }
    }

    /** The loop over _usrlist: all users but one, or all. */
    method Announce(but: CClientPeer?, bd: CBroadCaster)
      requires bd.Valid()
      modifies bd`broadcaster, bd`audience
      ensures bd.Valid()
      ensures multiset(bd.audience) == multiset(old(bd.audience)) + multiset(usrlist - Seat(AsOption(but)))
    {
      var rest := usrlist;
      ghost var out, listed := Seat(AsOption(but)), [];
      ListStart(usrlist, out);
      while rest != {}
        invariant bd.Valid() && rest <= usrlist
        invariant bd.audience == old(bd.audience) + listed && Listed(listed, usrlist, rest, out)
        decreases |rest|
      {
        var u :| u in rest;
        ListMore(listed, usrlist, rest, out, u);
        listed := Visit(u, but, bd, listed);
        rest := rest - {u};
      }
      ListEnd(old(bd.audience), listed, usrlist, out);
    }

    method EnterBy(c: CClientPeer, bd: CBroadCaster) returns (ok: bool)
      requires bd.Valid()
      modifies this`usrlist, bd`broadcaster, bd`audience
      ensures bd.Valid() && (ok, View()) == Admit(old(View()), c)
      ensures multiset(bd.audience) ==
              multiset(old(bd.audience)) + (if ok then multiset(old(usrlist)) else multiset{})
      ensures !ok ==> bd.audience == old(bd.audience)
    {
      if |usrlist| >= capacity {
        return false;
      }
      if c in usrlist {
        return false;
      }
      usrlist := usrlist + {c};
      Announce(c, bd);
      assert usrlist - {c} == old(usrlist);
      return true;
    }

    method LeaveBy(c: CClientPeer, bd: CBroadCaster) returns (ok: bool)
      requires bd.Valid()
      modifies this`usrlist, bd`broadcaster, bd`audience
      ensures bd.Valid() && (ok, View()) == Dismiss(old(View()), c)
      ensures multiset(bd.audience) ==
              multiset(old(bd.audience)) + (if ok then multiset(usrlist) else multiset{})
    {
      if c in usrlist {
        usrlist := usrlist - {c};
        Announce(null, bd);
        return true;
      }
      return false;
    }

    /** createSession's first locked part: the others hear of it. */
    method CheckCreator(c: CClientPeer, bd: CBroadCaster) returns (ok: bool)
      requires bd.Valid()
      modifies bd`broadcaster, bd`audience
      ensures bd.Valid() && (ok <==> c in usrlist)
      ensures ok ==> multiset(bd.audience) == multiset(old(bd.audience)) + multiset(usrlist - {c})
    {
      ok := c in usrlist;
      if ok {
        Announce(c, bd);
      }
    }

    /** createSession: null when the ASSERT fails. The id is drawn between the two locked
        parts, when others may be drawing too. */
    method CreateSession(c: CClientPeer, gen: CIdSeed, meanwhile: Option<nat>, bd: CBroadCaster) returns (s: CSession?)
      requires Valid() && gen.Valid() && bd.Valid()
      modifies this`sessions, gen, bd`broadcaster, bd`audience
      ensures Valid() && gen.Valid() && bd.Valid()
      ensures s == null <==> c !in usrlist
      ensures s == null ==> sessions == old(sessions)
      ensures s != null ==>
                && fresh(s) && sessions == old(sessions)[s.id := s]
                && gen.seed == (if meanwhile.Some? then meanwhile.value else old(gen.seed) + 1) && s.id == IdOf(gen.seed)
                && View() == WithSession(old(View()), s.id, NewSession(c, gen.seed))
                && multiset(bd.audience) == multiset(old(bd.audience)) + multiset(usrlist - {c})
    {
      var ok := CheckCreator(c, bd);
      if !ok {
        return null;
      }
      s := new CSession(c, gen, meanwhile);
      Store(s);
    }

    /** The second locked part. */
    method Store(s: CSession)
      requires Valid() && s !in sessions.Values
      modifies this`sessions
      ensures Valid() && View() == WithSession(old(View()), s.id, s.View()) && sessions == old(sessions)[s.id := s]
    {
      sessions := sessions[s.id := s];
      assert Stored() == old(Stored())[s.id := s.View()];
    }

    method EnterStored(sid: int, c: CClientPeer, noti: CNotifier) returns (ret: int)
      requires Valid() && sid in sessions
      modifies sessions[sid], noti`clis
      ensures Valid()
      ensures var (n, t) := Enter(old(sessions[sid].View()), c);
              ret == n && View() == WithSession(old(View()), sid, t)
      ensures multiset(noti.clis) == multiset(old(noti.clis)) +
                (if ret < 0 then multiset{} else Everyone(old(sessions[sid].View())))
      ensures ret < 0 ==> noti.clis == old(noti.clis)
    {
      ghost var others := OthersAt(sid);
      ret := sessions[sid].EnterBy(c, noti);
      OneStored(sid, old(Stored()), others);
    }

    method EnterSession(sid: int, c: CClientPeer, noti: CNotifier) returns (ret: int)
      requires Valid()
      modifies if sid in sessions then {sessions[sid]} else {}, noti`clis
      ensures Valid() && (ret, View()) == EnterIn(old(View()), sid, c)
      ensures multiset(noti.clis) == multiset(old(noti.clis)) +
                (if ret < 0 then multiset{} else Everyone(old(View()).sessions[sid]))
      ensures ret < 0 ==> noti.clis == old(noti.clis)
    {
      if sid !in sessions {
        return -2;
      }
      ghost var before := View();
      ret := EnterStored(sid, c, noti);
      if ret < 0 {
        StoredAgain(before, sid);
      }
    }

    method WatchStored(sid: int, c: CClientPeer, noti: CNotifier) returns (ret: int)
      requires Valid() && sid in sessions
      modifies sessions[sid], noti`clis
      ensures Valid()
      ensures var (n, t) := Watch(old(sessions[sid].View()), c);
              ret == n && View() == WithSession(old(View()), sid, t)
      ensures multiset(noti.clis) == multiset(old(noti.clis)) +
                (if ret < 0 then multiset{} else Everyone(old(sessions[sid].View())))
      ensures ret < 0 ==> noti.clis == old(noti.clis)
    {
      ghost var others := OthersAt(sid);
      ret := sessions[sid].WatchBy(c, noti);
      OneStored(sid, old(Stored()), others);
    }

    method WatchSession(sid: int, c: CClientPeer, noti: CNotifier) returns (ret: int)
      requires Valid()
      modifies if sid in sessions then {sessions[sid]} else {}, noti`clis
      ensures Valid() && (ret, View()) == WatchIn(old(View()), sid, c)
      ensures multiset(noti.clis) == multiset(old(noti.clis)) +
                (if ret < 0 then multiset{} else Everyone(old(View()).sessions[sid]))
      ensures ret < 0 ==> noti.clis == old(noti.clis)
    {
      if sid !in sessions {
        return -2;
      }
      ghost var before := View();
      ret := WatchStored(sid, c, noti);
      if ret < 0 {
        StoredAgain(before, sid);
      }
    }

    /** The stored session's leave. */
    method LeaveStored(sid: int, c: CClientPeer, noti: CNotifier) returns (ret: int)
      requires Valid() && sid in sessions
      modifies sessions[sid], noti`clis
      ensures Valid()
      ensures var (n, t) := Leave(old(sessions[sid].View()), c);
              && ret == n && View() == WithSession(old(View()), sid, t) && sessions[sid].View() == t
              && (ret >= 0 ==> multiset(noti.clis) == multiset(old(noti.clis)) + Everyone(t))
    {
      ghost var others := OthersAt(sid);
      ret := sessions[sid].LeaveBy(c, noti);
      OneStored(sid, old(Stored()), others);
    }

    /** Erases the session and tells all users. */
    method Drop(sid: int, bd: CBroadCaster)
      requires Valid() && bd.Valid()
      modifies this`sessions, bd`broadcaster, bd`audience
      ensures Valid() && bd.Valid() && View() == WithoutSession(old(View()), sid) && sessions == old(sessions) - {sid}
      ensures multiset(bd.audience) == multiset(old(bd.audience)) + multiset(usrlist)
    {
      sessions := sessions - {sid};
      assert Stored() == old(Stored()) - {sid};
      Announce(null, bd);
      assert usrlist - Seat(AsOption(null)) == usrlist;
    }

    /** leaveSession: `ok` tells that both ASSERTs held. */
    method LeaveSession(sid: int, c: CClientPeer, noti: CNotifier, bd: CBroadCaster) returns (ok: bool)
      requires Valid() && bd.Valid()
      modifies this`sessions, if sid in sessions then {sessions[sid]} else {}, noti`clis, bd`broadcaster, bd`audience
      ensures Valid() && bd.Valid() && sessions.Values <= old(sessions.Values)
      ensures ok <==> LeaveIn(old(View()), sid, c).Returns?
      ensures ok ==>
                var r := LeaveIn(old(View()), sid, c);
                && View() == r.room
                && multiset(noti.clis) == multiset(old(noti.clis)) + Everyone(Leave(old(View()).sessions[sid], c).1)
                && multiset(bd.audience) ==
                   multiset(old(bd.audience)) + (if r.ret == 0 then multiset(usrlist) else multiset{})
    {
      if sid !in sessions {
        return false;
      }
      ghost var before := View();
      var ret := LeaveStored(sid, c, noti);
      if ret < 0 {
        return false;
      }
      if ret == 0 {
        DropReplaced(before, sid, sessions[sid].View());
        Drop(sid, bd);
      }
      return true;
    }

    /** The sessions stored under other ids. */
    ghost function OthersAt(sid: int): map<int, Session<CClientPeer>>
      reads this`sessions, set s | s in sessions.Values && (sid !in sessions || s != sessions[sid])
    {
      map i | i in sessions && (sid !in sessions || sessions[i] != sessions[sid]) :: sessions[i].View()
    }

    lemma OneStored(sid: int, before: map<int, Session<CClientPeer>>, others: map<int, Session<CClientPeer>>)
      requires Valid() && sid in sessions && others == OthersAt(sid)
      requires before.Keys == sessions.Keys && forall i :: i in before && i != sid ==> i in others && before[i] == others[i]
      ensures Stored() == before[sid := sessions[sid].View()]
    {
      var after := before[sid := sessions[sid].View()];
      forall i | i in sessions ensures i in after && Stored()[i] == after[i] {
        if i != sid {
          assert i in before && others[i] == sessions[i].View();
        }
      }
    }

    static lemma StoredAgain(r: Room<CClientPeer>, sid: int)
      requires sid in r.sessions
      ensures WithSession(r, sid, r.sessions[sid]) == r
    {
      assert r.sessions[sid := r.sessions[sid]] == r.sessions;
    }

    static lemma DropReplaced(r: Room<CClientPeer>, sid: int, t: Session<CClientPeer>)
      ensures WithoutSession(WithSession(r, sid, t), sid) == WithoutSession(r, sid)
    {
      assert WithoutSession(WithSession(r, sid, t), sid).sessions == WithoutSession(r, sid).sessions;
    }

    /** ready: -2 for an unknown id. */
    method Ready(sid: int, c: CClientPeer, noti: CNotifier, ghost cs: set<CClientPeer>)
      returns (ok: bool, ret: int, redn: string, bkn: string)
      requires c in cs && (sid in sessions ==> Players(sessions[sid].View()) <= cs)
      modifies ({c} + (if sid in sessions then Players(sessions[sid].View()) else {}))`state, noti`clis
      ensures ok && ret >= 0 <==> sid in sessions && c in Players(sessions[sid].View())
      ensures sid !in sessions ==> ok && ret == -2
      ensures ok && ret >= 0 ==>
                var s := sessions[sid];
                && ret == (if Starts(s.View(), c, old(StatesOf(cs))) then 1 else 0)
                && StatesOf(cs) == AfterReady(s.View(), c, old(StatesOf(cs)))
                && (ret == 1 ==> GameStarts(redn, bkn) == GameStart(s.View(), NameOf))
                && multiset(noti.clis) == multiset(old(noti.clis)) + Once(Rival(s.View(), c)) + multiset(s.watchers)
    {
      if sid !in sessions {
        return true, -2, "", "";
      }
      ok, ret, redn, bkn := sessions[sid].ReadyBy(c, noti, cs);
    }
  }

  // ----- who is told --------------------------------------------------------------------------

  /** After a leave that succeeds, the notifier has each member that stays exactly once. */
  lemma LeaveTellsOthers(s: Session<CClientPeer>, c: CClientPeer, list: seq<CClientPeer>, x: CClientPeer)
    requires WellFormed(s) && c in Members(s) && multiset(list) == Everyone(Leave(s, c).1)
    ensures Count(list, x) == if x in Members(s) && x != c then 1 else 0
  {
    LeaveRemoves(s, c);
    ListOfSet(list, Members(s) - {c});
  }

  /** Those told of a newcomer are the members it finds, each once. */
  lemma JoinTellsMembers(s: Session<CClientPeer>, list: seq<CClientPeer>, x: CClientPeer)
    requires WellFormed(s) && multiset(list) == Everyone(s)
    ensures Count(list, x) == if x in Members(s) then 1 else 0
  {
    HeadcountIsSize(s);
    ListOfSet(list, Members(s));
  }

  lemma ReadyTellsOthers(s: Session<CClientPeer>, c: CClientPeer, list: seq<CClientPeer>, x: CClientPeer)
    requires WellFormed(s) && c in Players(s) && multiset(list) == Once(Rival(s, c)) + multiset(s.watchers)
    ensures Count(list, x) == if x in Members(s) && x != c then 1 else 0
  {
    ReadyTells(s, c);
    ListOfSet(list, Members(s) - {c});
  }

  /** The users with an address under a socket. */
  ghost function UsersAt(users: set<CClientPeer>, u: Udp, a: Addr): set<CClientPeer> {
    set c | c in users && c.udpsock == u && c.udpaddr == a
  }

  /** A broadcast reaches every user it is for under the user's own socket, once for each
      user with that address, and nobody else. */
  lemma BroadcastReachesUsers(users: set<CClientPeer>, audience: seq<CClientPeer>, u: Udp, a: Addr)
    requires multiset(audience) == multiset(users)
    ensures var book := Grouped(Addresses(audience));
            if u in book then Count(book[u], a) == |UsersAt(users, u, a)| else UsersAt(users, u, a) == {}
  {
    var ps := Addresses(audience);
    GroupedKeepsEach(ps, u);
    UnderCounts(ps, u, a);
    CountAddresses(audience, users, u, a);
  }

  lemma LastOfSet<T>(s: seq<T>, xs: set<T>)
    requires multiset(s) == multiset(xs) && s != []
    ensures var x := s[|s| - 1]; x in xs && multiset(s[..|s| - 1]) == multiset(xs - {x})
  {
    var x := s[|s| - 1];
    assert s == s[..|s| - 1] + [x];
    assert multiset(s)[x] >= 1;
    assert multiset(xs - {x}) == multiset(xs) - multiset{x};
  }

  lemma EmptyOfSet<T>(xs: set<T>)
    requires multiset(xs) == multiset{}
    ensures xs == {}
  {
    forall x ensures x !in xs {
      assert x in multiset(xs) <==> x in xs;
    }
  }

  lemma UsersAtWithout(users: set<CClientPeer>, c: CClientPeer, u: Udp, a: Addr)
    requires c in users
    ensures |UsersAt(users, u, a)| ==
            |UsersAt(users - {c}, u, a)| + (if c.udpsock == u && c.udpaddr == a then 1 else 0)
  {
    if c.udpsock == u && c.udpaddr == a {
      assert UsersAt(users, u, a) == UsersAt(users - {c}, u, a) + {c};
    } else {
      assert UsersAt(users, u, a) == UsersAt(users - {c}, u, a);
    }
  }

  lemma {:induction false} CountAddresses(audience: seq<CClientPeer>, users: set<CClientPeer>, u: Udp, a: Addr)
    requires multiset(audience) == multiset(users)
    ensures Count(Addresses(audience), (u, a)) == |UsersAt(users, u, a)|
  {
    if audience == [] {
      EmptyOfSet(users);
    } else {
      var c, rest := audience[|audience| - 1], audience[..|audience| - 1];
      LastOfSet(audience, users);
      CountAddresses(rest, users - {c}, u, a);
      UsersAtWithout(users, c, u, a);
      var ps := Addresses(audience);
      assert ps[..|ps| - 1] == Addresses(rest) && ps[|ps| - 1] == (c.udpsock, c.udpaddr);
    }
  }
}
