/** CRoom on values: its users and its sessions, and what its critical sections do to them. */
module Room {
  import opened Session

  datatype Room<C(==)> = Room(capacity: nat, users: set<C>, sessions: map<int, Session<C>>)

  /** What a call on a session that must be there comes to; Fails is a failed ASSERT. */
  datatype Outcome<C(==)> = Fails | Returns(ret: int, room: Room<C>)

  function WithSession<C(==)>(r: Room<C>, sid: int, s: Session<C>): Room<C> {
    r.(sessions := r.sessions[sid := s])
  }

  function WithoutSession<C(==)>(r: Room<C>, sid: int): Room<C> {
    r.(sessions := r.sessions - {sid})
  }

  /** enter: refused when the room is full or has the client already. */
  function Admit<C(==)>(r: Room<C>, c: C): (bool, Room<C>) {
    if |r.users| >= r.capacity || c in r.users then (false, r) else (true, r.(users := r.users + {c}))
  }

  function Dismiss<C(==)>(r: Room<C>, c: C): (bool, Room<C>) {
    if c in r.users then (true, r.(users := r.users - {c})) else (false, r)
  }

  /** leaveSession: the session goes with its last participant. */
  function LeaveIn<C(==)>(r: Room<C>, sid: int, c: C): Outcome<C> {
    if sid !in r.sessions then Fails
    else
      var (ret, t) := Leave(r.sessions[sid], c);
      if ret < 0 then Fails
      else Returns(ret, if ret == 0 then WithoutSession(r, sid) else WithSession(r, sid, t))
  }

  /** enterSession and watchSession: -2 for an unknown id, -3 when there is no place. */
  function EnterIn<C(==)>(r: Room<C>, sid: int, c: C): (int, Room<C>) {
    if sid !in r.sessions then (-2, r)
    else
      var (ret, t) := Enter(r.sessions[sid], c);
      if ret < 0 then (ret, r) else (ret, WithSession(r, sid, t))
  }

  function WatchIn<C(==)>(r: Room<C>, sid: int, c: C): (int, Room<C>) {
    if sid !in r.sessions then (-2, r)
    else
      var (ret, t) := Watch(r.sessions[sid], c);
      if ret < 0 then (ret, r) else (ret, WithSession(r, sid, t))
  }
}
