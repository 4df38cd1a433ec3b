/**
 CSession: two seats and a set of watchers. The functions are its critical sections
 on values; RoomObjects runs them on the fields.
 */
module Session {
  import opened Prelude

  /** The identity of a CClient object. */
  type Cid = nat

  /** CClient::state_t. */
  datatype PlayState = Offline | Online | Idle | Sessional | Ready | Watching | Moving | Pondering

  /** The fields of CSession with the two configured values its methods read;
      `birth` is the number of the genid call that named it. */
  datatype Session<C(==)> = Session(
    owner: Option<C>, opponent: Option<C>, watchers: set<C>, red: int, watcherCount: nat, birth: nat)

  /** CSessionConfig's defaults, the only ones in use. */
  const DEFAULT_RED := 0
  const DEFAULT_WATCHERS := 200

  const ID_RANGE: nat := 20000

  /** The k-th id genid hands out, k counted from 1. */
  function IdOf(k: nat): int { k % ID_RANGE + 1 }

  function NewSession<C(==)>(c: C, birth: nat): Session<C> {
    Session(Some(c), None, {}, DEFAULT_RED, DEFAULT_WATCHERS, birth)
  }

  function Seat<C(==)>(o: Option<C>): set<C> { if o.Some? then {o.value} else {} }

  function Players<C(==)>(s: Session<C>): set<C> { Seat(s.owner) + Seat(s.opponent) }

  function Members<C(==)>(s: Session<C>): set<C> { Players(s) + s.watchers }

  /** Nobody has two places in the session. */
  predicate WellFormed<C(==)>(s: Session<C>) {
    && Seat(s.owner) !! Seat(s.opponent)
    && Players(s) !! s.watchers
    && |s.watchers| <= s.watcherCount
  }

  // ----- who is put on the notifier's list, with repetition ---------------------------

  function Once<C(==)>(o: Option<C>): multiset<C> { if o.Some? then multiset{o.value} else multiset{} }

  /** The owner, the opponent and the watchers, each pushed where it stands. */
  function Everyone<C(==)>(s: Session<C>): multiset<C> { Once(s.owner) + Once(s.opponent) + multiset(s.watchers) }

  function Headcount<C(==)>(s: Session<C>): nat {
    |Seat(s.owner)| + |Seat(s.opponent)| + |s.watchers|
  }

  // ----- the operations --------------------------------------------------------------------

  /** leave: -1 for a stranger, else the number of those who remain. */
  function Leave<C(==)>(s: Session<C>, c: C): (r: (int, Session<C>)) {
    if s.owner == Some(c) then var t := s.(owner := None); (Headcount(t) as int, t)
    else if s.opponent == Some(c) then var t := s.(opponent := None); (Headcount(t) as int, t)
    else if c in s.watchers then var t := s.(watchers := s.watchers - {c}); (Headcount(t) as int, t)
    else (-1, s)
  }

  /** enter: -3 when both seats are taken. With neither taken, nobody is seated. */
  function Enter<C(==)>(s: Session<C>, c: C): (r: (int, Session<C>)) {
    if s.owner.Some? && s.opponent.Some? then (-3, s)
    else if s.owner.Some? then (0, s.(opponent := Some(c)))
    else if s.opponent.Some? then (0, s.(owner := Some(c)))
    else (0, s)
  }

  /** watch: -3 when the watchers are full. */
  function Watch<C(==)>(s: Session<C>, c: C): (r: (int, Session<C>)) {
    if |s.watchers| >= s.watcherCount then (-3, s) else (0, s.(watchers := s.watchers + {c}))
  }

  /** The player in the other seat. */
  function Rival<C(==)>(s: Session<C>, c: C): Option<C> {
    if s.owner == Some(c) then s.opponent else if s.opponent == Some(c) then s.owner else None
  }

  /** updatePlayersState: red 0 gives the owner the first move. */
  function Mover<C(==)>(s: Session<C>): Option<C> { if s.red == 0 then s.owner else s.opponent }

  function Waiter<C(==)>(s: Session<C>): Option<C> { if s.red == 0 then s.opponent else s.owner }

  // ----- what they do to the membership ----------------------------------------------------

  lemma HeadcountIsSize<C>(s: Session<C>)
    requires WellFormed(s)
    ensures Headcount(s) == |Members(s)|
    ensures Everyone(s) == multiset(Members(s))
  {
    assert Members(s) == Seat(s.owner) + (Seat(s.opponent) + s.watchers);
    UnionSize(Seat(s.opponent), s.watchers);
    UnionSize(Seat(s.owner), Seat(s.opponent) + s.watchers);
    OnceIsSeat(s.owner);
    OnceIsSeat(s.opponent);
  }

  lemma UnionSize<C>(a: set<C>, b: set<C>)
    requires a !! b
    ensures |a + b| == |a| + |b|
    ensures multiset(a + b) == multiset(a) + multiset(b)
  {
  }

  lemma OnceIsSeat<C>(o: Option<C>)
    ensures Once(o) == multiset(Seat(o))
  {
  }

  lemma OwnerGone<C>(s: Session<C>, c: C)
    requires WellFormed(s) && s.owner == Some(c)
    ensures var t := s.(owner := None);
            WellFormed(t) && Players(t) == Players(s) - {c} && Members(t) == Members(s) - {c}
  {
    assert Players(s) == {c} + Seat(s.opponent) && c !in Seat(s.opponent) && c !in s.watchers;
  }

  lemma OpponentGone<C>(s: Session<C>, c: C)
    requires WellFormed(s) && s.opponent == Some(c)
    ensures var t := s.(opponent := None);
            WellFormed(t) && Players(t) == Players(s) - {c} && Members(t) == Members(s) - {c}
  {
    assert Players(s) == Seat(s.owner) + {c} && c !in Seat(s.owner) && c !in s.watchers;
  }

  lemma WatcherGone<C>(s: Session<C>, c: C)
    requires WellFormed(s) && c in s.watchers
    ensures var t := Leave(s, c).1;
            WellFormed(t) && Players(t) == Players(s) && t.watchers == s.watchers - {c} && Members(t) == Members(s) - {c}
  {
    assert s.watchers == (s.watchers - {c}) + {c};
    assert |s.watchers| == |s.watchers - {c}| + 1;
  }

  lemma LeaveCounts<C>(s: Session<C>, c: C)
    ensures var (ret, t) := Leave(s, c);
            if c in Members(s) then ret == Headcount(t) else ret == -1 && t == s
  {
  }

  /** Leaving takes out exactly the one who leaves, and those told are exactly the
      others, each once; it fails exactly for strangers. */
  lemma LeaveRemoves<C>(s: Session<C>, c: C)
    requires WellFormed(s)
    ensures var (ret, t) := Leave(s, c);
            && WellFormed(t)
            && (ret < 0 <==> c !in Members(s))
            && (ret < 0 ==> t == s)
            && (c in Members(s) ==>
                  Members(t) == Members(s) - {c} && ret == |Members(t)| && Everyone(t) == multiset(Members(s) - {c}))
            && Players(t) <= Players(s) && t.watchers <= s.watchers && t.birth == s.birth
  {
    LeaveCounts(s, c);
    if s.owner == Some(c) {
      OwnerGone(s, c);
    } else if s.opponent == Some(c) {
      OpponentGone(s, c);
    } else if c in s.watchers {
      WatcherGone(s, c);
    }
    HeadcountIsSize(Leave(s, c).1);
  }

  function Without<C(==)>(o: Option<C>, c: C): Option<C> { if o == Some(c) then None else o }

  /** And everybody else keeps the place they had. */
  lemma OthersKeepPlaces<C>(s: Session<C>, c: C)
    requires WellFormed(s)
    ensures Leave(s, c).1 ==
            s.(owner := Without(s.owner, c), opponent := Without(s.opponent, c), watchers := s.watchers - {c})
  {
    assert c !in s.watchers ==> s.watchers - {c} == s.watchers;
  }

  lemma SeatTaken<C>(s: Session<C>, c: C)
    requires WellFormed(s) && c !in Members(s)
    ensures var (ret, t) := Enter(s, c);
            && WellFormed(t) && t.watchers == s.watchers && t.birth == s.birth
            && (ret < 0 <==> s.owner.Some? && s.opponent.Some?)
            && (ret < 0 || Players(s) == {} ==> t == s)
            && (ret >= 0 && Players(s) != {} ==> Players(t) == Players(s) + {c})
  {
  }

  /** Entering seats a newcomer exactly when one seat is taken; those told are exactly
      the members before. */
  lemma EnterSeats<C>(s: Session<C>, c: C)
    requires WellFormed(s) && c !in Members(s)
    ensures var (ret, t) := Enter(s, c);
            && WellFormed(t) && t.watchers == s.watchers && t.birth == s.birth
            && (ret < 0 <==> s.owner.Some? && s.opponent.Some?)
            && (ret < 0 ==> t == s)
            && (ret >= 0 && Players(s) != {} ==> Players(t) == Players(s) + {c} && Members(t) == Members(s) + {c})
            && (ret >= 0 && Players(s) == {} ==> t == s)
    ensures Everyone(s) == multiset(Members(s))
  {
    HeadcountIsSize(s);
    SeatTaken(s, c);
    SeatedMembers(s, Enter(s, c).1, c);
  }

  lemma SeatedMembers<C>(s: Session<C>, t: Session<C>, c: C)
    requires t.watchers == s.watchers
    ensures Players(t) == Players(s) + {c} ==> Members(t) == Members(s) + {c}
  {
  }

  lemma WatcherAdded<C>(s: Session<C>, c: C)
    requires WellFormed(s) && c !in Members(s) && |s.watchers| < s.watcherCount
    ensures var t := s.(watchers := s.watchers + {c});
            WellFormed(t) && Players(t) == Players(s) && Members(t) == Members(s) + {c}
  {
    assert |s.watchers + {c}| == |s.watchers| + 1;
  }

  lemma WatchAdds<C>(s: Session<C>, c: C)
    requires WellFormed(s) && c !in Members(s)
    ensures var (ret, t) := Watch(s, c);
            && WellFormed(t) && Players(t) == Players(s) && t.birth == s.birth
            && t.owner == s.owner && t.opponent == s.opponent
            && (ret < 0 <==> |s.watchers| == s.watcherCount)
            && (ret < 0 ==> t == s)
            && (ret >= 0 ==> t.watchers == s.watchers + {c} && Members(t) == Members(s) + {c})
    ensures Everyone(s) == multiset(Members(s))
  {
    HeadcountIsSize(s);
    if |s.watchers| < s.watcherCount {
      WatcherAdded(s, c);
    }
  }

  lemma RivalAndWatchers<C>(s: Session<C>, c: C)
    requires WellFormed(s) && c in Players(s)
    ensures Seat(Rival(s, c)) !! s.watchers && Seat(Rival(s, c)) + s.watchers == Members(s) - {c}
  {
    if s.owner == Some(c) {
      OwnerGone(s, c);
    } else {
      OpponentGone(s, c);
    }
  }

  /** Those told of a player's getting ready are the other members, each once. */
  lemma ReadyTells<C>(s: Session<C>, c: C)
    requires WellFormed(s) && c in Players(s)
    ensures Once(Rival(s, c)) + multiset(s.watchers) == multiset(Members(s) - {c})
  {
    RivalAndWatchers(s, c);
    UnionSize(Seat(Rival(s, c)), s.watchers);
    OnceIsSeat(Rival(s, c));
  }
}
