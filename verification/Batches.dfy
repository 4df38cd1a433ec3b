/**
 The two kinds of batch a handler fills: the notifier's list of clients and the
 broadcaster's addresses, grouped by UDP socket; and the fan-out of a notifier.
 */
module Batches {
  import opened Prelude
  import opened Session

  type Udp = nat
  type Addr = nat

  /** The XML messages, by what they say. */
  datatype Message =
    | EnteredRoom(name: string) | LeftRoom(name: string) | NewSessionIn(sid: int) | SessionGone(sid: int)
    | EnteredSession(name: string) | WatchedSession(name: string) | LeftSession(name: string)
    | BecameReady(name: string) | GameStarts(red: string, black: string)

  /** CClient as its peers see it; `inbox` is its list of queued notifications. */
  class CClientPeer {
    const uname: string
    const udpsock: Udp
    const udpaddr: Addr
    var state: PlayState
    var inbox: seq<seq<Message>>

    constructor (n: string, u: Udp, a: Addr)
      ensures uname == n && udpsock == u && udpaddr == a && state == Online && inbox == []
    {
      uname, udpsock, udpaddr := n, u, a;
      state, inbox := Online, [];
    }

    method SetState(st: PlayState, ghost cs: set<CClientPeer>)
      modifies this`state
      ensures state == st
      ensures this in cs ==> StatesOf(cs) == old(StatesOf(cs))[this := st]
    {
      state := st;
    }

    method QueueNotification(msg: seq<Message>)
      modifies this`inbox
      ensures inbox == old(inbox) + [msg]
    {
      inbox := inbox + [msg];
    }
  }

  /** What the clients are doing. */
  ghost function StatesOf(cs: set<CClientPeer>): map<CClientPeer, PlayState>
    reads cs`state
  {
    map c | c in cs :: c.state
  }

  // ----- the notifier -------------------------------------------------------------------------

  function Copies<T>(x: T, n: nat): (r: seq<T>)
    ensures |r| == n && forall i :: 0 <= i < n ==> r[i] == x
  {
    if n == 0 then [] else Copies(x, n - 1) + [x]
  }

  class CNotifier {
    var msg: seq<Message>
    var clis: seq<CClientPeer>

    constructor ()
      ensures msg == [] && clis == []
    {
      msg, clis := [], [];
    }

    predicate Empty()
      reads this
    {
      clis == []
    }

    method Append(m: Message)
      modifies this`msg
      ensures msg == old(msg) + [m]
    {
      msg := msg + [m];
    }

    method AddNotifiee(c: CClientPeer)
      modifies this`clis
      ensures clis == old(clis) + [c]
    {
      clis := clis + [c];
    }

    /** Every client on the list gets the message as often as it is there. */
    method Run()
      modifies clis`inbox
      ensures forall c :: c in clis ==> c.inbox == old(c.inbox) + Copies(msg, Count(clis, c))
    {
      var i := 0;
      while i < |clis|
        invariant 0 <= i <= |clis|
        invariant forall c :: c in clis ==> c.inbox == old(c.inbox) + Copies(msg, Count(clis[..i], c))
      {
        ghost var at := clis[i];
        assert clis[..i + 1][..i] == clis[..i];
        clis[i].QueueNotification(msg);
        i := i + 1;
      }
      assert clis[..i] == clis;
    }
  }

  /** A list that is a set of clients in some order reaches each of them once. */
  lemma {:induction false} ListOfSet<T>(s: seq<T>, xs: set<T>)
    requires multiset(s) == multiset(xs)
    ensures forall x :: Count(s, x) == if x in xs then 1 else 0
  {
    forall x ensures Count(s, x) == if x in xs then 1 else 0 {
      CountIsMultiplicity(s, x);
    }
  }

  lemma {:induction false} CountIsMultiplicity<T>(s: seq<T>, x: T)
    ensures Count(s, x) == multiset(s)[x]
  {
    if s != [] {
      CountIsMultiplicity(s[..|s| - 1], x);
      assert s == s[..|s| - 1] + [s[|s| - 1]];
    }
  }

  /** A notifier whose list is a set of clients gives each of them the message once. */
  method RunOnce(n: CNotifier, ghost xs: set<CClientPeer>)
    requires multiset(n.clis) == multiset(xs)
    modifies xs`inbox
    ensures forall c :: c in xs ==> c.inbox == old(c.inbox) + [n.msg]
  {
    ListOfSet(n.clis, xs);
    forall c | c in n.clis ensures c in xs {
      assert c in multiset(n.clis);
    }
    forall c | c in xs ensures c in n.clis && Copies(n.msg, Count(n.clis, c)) == [n.msg] {
      assert c in multiset(xs);
      assert Copies(n.msg, 0) == [];
    }
    n.Run();
  }

  // ----- the broadcaster ------------------------------------------------------------------------

  /** The addresses under each socket, in the order they came. */
  function Grouped(ps: seq<(Udp, Addr)>): map<Udp, seq<Addr>> {
    if ps == [] then map[]
    else
      var m, p := Grouped(ps[..|ps| - 1]), ps[|ps| - 1];
      if p.0 in m then m[p.0 := m[p.0] + [p.1]] else m[p.0 := [p.1]]
  }

  function Under(ps: seq<(Udp, Addr)>, u: Udp): seq<Addr> {
    if ps == [] then []
    else
      var p := ps[|ps| - 1];
      Under(ps[..|ps| - 1], u) + (if p.0 == u then [p.1] else [])
  }

  /** Nothing is lost, moved to another socket, repeated or reordered. */
  lemma {:induction false} GroupedKeepsEach(ps: seq<(Udp, Addr)>, u: Udp)
    ensures u in Grouped(ps) <==> Under(ps, u) != []
    ensures u in Grouped(ps) ==> Grouped(ps)[u] == Under(ps, u)
  {
    if ps != [] {
      GroupedKeepsEach(ps[..|ps| - 1], u);
    }
  }

  /** An address is under a socket as often as it was inserted with it. */
  lemma {:induction false} UnderCounts(ps: seq<(Udp, Addr)>, u: Udp, a: Addr)
    ensures Count(Under(ps, u), a) == Count(ps, (u, a))
  {
    if ps != [] {
      var p, q := ps[|ps| - 1], ps[..|ps| - 1];
      UnderCounts(q, u, a);
      if p.0 == u {
        assert (Under(q, u) + [p.1])[..|Under(q, u)|] == Under(q, u);
      } else {
        assert Under(q, u) + [] == Under(q, u);
      }
    }
  }

  lemma GroupedEmpty(ps: seq<(Udp, Addr)>)
    ensures Grouped(ps) == map[] <==> ps == []
  {
    if ps != [] {
      assert ps[|ps| - 1].0 in Grouped(ps);
    }
  }

  function Addresses(cs: seq<CClientPeer>): (r: seq<(Udp, Addr)>) {
    if cs == [] then [] else Addresses(cs[..|cs| - 1]) + [(cs[|cs| - 1].udpsock, cs[|cs| - 1].udpaddr)]
  }

  lemma AddressesOneMore(cs: seq<CClientPeer>, c: CClientPeer)
    ensures Addresses(cs + [c]) == Addresses(cs) + [(c.udpsock, c.udpaddr)]
  {
    assert (cs + [c])[..|cs|] == cs;
  }

  lemma GroupedOneMore(ps: seq<(Udp, Addr)>, p: (Udp, Addr))
    ensures Grouped(ps + [p]) ==
            var m := Grouped(ps); if p.0 in m then m[p.0 := m[p.0] + [p.1]] else m[p.0 := [p.1]]
  {
    assert (ps + [p])[..|ps|] == ps;
  }

  class CBroadCaster {
    var msg: seq<Message>
    var broadcaster: map<Udp, seq<Addr>>
    /** The clients whose addresses were inserted, in order. */
    ghost var audience: seq<CClientPeer>

    ghost predicate Valid()
      reads this
    {
      broadcaster == Grouped(Addresses(audience))
    }

    constructor ()
      ensures Valid() && msg == [] && audience == []
    {
      msg, broadcaster, audience := [], map[], [];
    }

    predicate Empty()
      reads this
      requires Valid()
      ensures Empty() <==> audience == []
    {
      GroupedEmpty(Addresses(audience));
      broadcaster == map[]
    }

    method Append(m: Message)
      modifies this`msg
      ensures msg == old(msg) + [m]
    {
      msg := msg + [m];
    }

    /** insertaddr, called with a client's socket and address. */
    method InsertAddr(c: CClientPeer)
      requires Valid()
      modifies this`broadcaster, this`audience
      ensures Valid() && audience == old(audience) + [c]
    {
      var udp, addr := c.udpsock, c.udpaddr;
      if udp !in broadcaster {
        broadcaster := broadcaster[udp := [addr]];
      } else {
        broadcaster := broadcaster[udp := broadcaster[udp] + [addr]];
      }
      AddressesOneMore(audience, c);
      GroupedOneMore(Addresses(audience), (udp, addr));
      audience := audience + [c];
    }
  }
}
