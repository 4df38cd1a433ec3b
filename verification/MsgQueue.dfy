/**
 CCMsgQueue: a FIFO list under one event. The class runs send and the looping
 receive; the system below shares one queue between any number of receivers and
 senders, with spurious wakeups.
 */
module MsgQueue {
  import opened Prelude

  /** A void pointer put in the queue. */
  type Msg = nat

  /** One message off the queue, if there is one. */
  function Taken(data: seq<Msg>): (Option<Msg>, seq<Msg>) {
    if data == [] then (None, []) else (Some(data[0]), data[1..])
  }

  class CCMsgQueue {
    var data: seq<Msg>

    constructor ()
      ensures data == []
    {
      data := [];
    }

    method Send(m: Msg)
      modifies this
      ensures data == old(data) + [m]
    {
      data := data + [m];
    }

    /** receive(): `wakeups` lists the data found after each wait; a call that runs
        out of wakeups is still asleep and has taken nothing. */
    method Receive(wakeups: seq<seq<Msg>>) returns (r: Option<Msg>, waits: nat)
      modifies this
      ensures waits <= |wakeups|
      ensures forall k :: 0 <= k < waits ==> ([old(data)] + wakeups)[k] == []
      ensures (r, data) == Taken(([old(data)] + wakeups)[waits]) && (r == None ==> waits == |wakeups|)
    {
      ghost var found := [data] + wakeups;
      waits := 0;
      while data == [] && waits < |wakeups|
        invariant waits <= |wakeups|
        invariant data == found[waits]
        invariant forall k :: 0 <= k < waits ==> found[k] == []
      {
        data := wakeups[waits];
        waits := waits + 1;
      }
      if data == [] {
        return None, waits;
      }
      r := Some(data[0]);
      data := data[1..];
    }
  }

  /** Testing is the head of receive()'s loop, where a notified sleeper also is. */
  datatype Pc = Away | Testing | Waiting

  /** `sent` and `got` are history; got pairs each message with its receiver. */
  datatype State = State(data: seq<Msg>, pcs: seq<Pc>, sent: seq<Msg>, got: seq<(nat, Msg)>)

  datatype Event = Send(m: Msg) | Call(c: nat) | Test(c: nat) | Spurious(c: nat)

  function Init(n: nat): State { State([], seq(n, i => Away), [], []) }

  function WakeAll(pcs: seq<Pc>): (r: seq<Pc>)
    ensures |r| == |pcs| && Waiting !in r
    ensures forall i :: 0 <= i < |r| ==> r[i] == if pcs[i] == Waiting then Testing else pcs[i]
  {
    seq(|pcs|, i requires 0 <= i < |pcs| => if pcs[i] == Waiting then Testing else pcs[i])
  }

  function Next(s: State, e: Event): State {
    match e
    case Send(m) => s.(data := s.data + [m], sent := s.sent + [m], pcs := WakeAll(s.pcs))
    case Call(c) => if c < |s.pcs| && s.pcs[c] == Away then s.(pcs := s.pcs[c := Testing]) else s
    case Test(c) =>
      if !(c < |s.pcs| && s.pcs[c] == Testing) then s
      else
        var (m, rest) := Taken(s.data);
        if m == None then s.(pcs := s.pcs[c := Waiting])
        else s.(pcs := s.pcs[c := Away], data := rest, got := s.got + [(c, m.value)])
    case Spurious(c) => if c < |s.pcs| && s.pcs[c] == Waiting then s.(pcs := s.pcs[c := Testing]) else s
  }

  function Run(s: State, es: seq<Event>): State
    decreases |es|
  {
    if es == [] then s else Run(Next(s, es[0]), es[1..])
  }

  function Messages(got: seq<(nat, Msg)>): (r: seq<Msg>)
    ensures |r| == |got| && forall i :: 0 <= i < |r| ==> r[i] == got[i].1
  {
    seq(|got|, i requires 0 <= i < |got| => got[i].1)
  }

  ghost predicate Inv(s: State) {
    && s.sent == Messages(s.got) + s.data
    && (Waiting in s.pcs ==> s.data == [])
  }

  lemma StepInv(s: State, e: Event)
    requires Inv(s)
    ensures Inv(Next(s, e))
  {
    if e.Test? && e.c < |s.pcs| && s.pcs[e.c] == Testing && s.data != [] {
      assert Messages(s.got + [(e.c, s.data[0])]) == Messages(s.got) + [s.data[0]];
      assert s.data == [s.data[0]] + s.data[1..];
    }
  }

  lemma {:induction false} RunInv(s: State, es: seq<Event>)
    requires Inv(s)
    ensures Inv(Run(s, es))
    decreases |es|
  {
    if es != [] {
      StepInv(s, es[0]);
      RunInv(Next(s, es[0]), es[1..]);
    }
  }

  /** Whatever the interleaving, the k-th receive to return yields the k-th message
      sent, the rest is still queued, and a receiver sleeps un-notified only while
      the queue is empty. */
  lemma FifoAndNoLostWakeup(n: nat, es: seq<Event>)
    ensures var s := Run(Init(n), es);
            && |s.got| <= |s.sent|
            && (forall k :: 0 <= k < |s.got| ==> s.got[k].1 == s.sent[k])
            && s.data == s.sent[|s.got|..]
            && (Waiting in s.pcs ==> s.data == [])
  {
    RunInv(Init(n), es);
    var s := Run(Init(n), es);
    assert forall k :: 0 <= k < |s.got| ==> Messages(s.got)[k] == s.got[k].1;
  }

  // ----- receive() over runs -----------------------------------------------------------

  /** The messages sent in a series of events. */
  function SentIn(es: seq<Event>): seq<Msg> {
    if es == [] then [] else (if es[0].Send? then [es[0].m] else []) + SentIn(es[1..])
  }

  lemma {:induction false} RunSent(s: State, es: seq<Event>)
    ensures Run(s, es).sent == s.sent + SentIn(es) && |Run(s, es).pcs| == |s.pcs|
    decreases |es|
  {
    if es == [] {
      assert s.sent + [] == s.sent;
    } else {
      RunSent(Next(s, es[0]), es[1..]);
      SentRegroup(s.sent, if es[0].Send? then [es[0].m] else [], SentIn(es[1..]));
    }
  }

  lemma SentRegroup(a: seq<Msg>, b: seq<Msg>, c: seq<Msg>)
    ensures a + (b + c) == (a + b) + c && a + [] == a
  {
  }

  /** Two events after each other. */
  lemma RunTwo(s: State, d: Event, e: Event)
    ensures Run(s, [d, e]) == Next(Next(s, d), e)
  {
    assert [d, e][1..] == [e] && [e][1..] == [];
    assert Run(Next(s, d), [e]) == Run(Next(Next(s, d), e), []);
  }

  /** In every run, as long as something was sent that nobody has received, a receive()
      that is called, or has just been woken, returns at its next look, and with the oldest
      such message; and a sleeper receives the next message sent, if it looks first. */
  lemma ReceiveReturns(n: nat, es: seq<Event>, c: nat, m: Msg)
    requires c < n
    ensures var s := Run(Init(n), es);
            && s.sent == SentIn(es) && |s.got| <= |s.sent| && |s.pcs| == n
            && (|s.got| < |s.sent| && s.pcs[c] == Away ==>
                  var r := Run(s, [Call(c), Test(c)]);
                  r.got == s.got + [(c, s.sent[|s.got|])] && r.pcs == s.pcs)
            && (|s.got| < |s.sent| && s.pcs[c] == Testing ==>
                  Next(s, Test(c)).got == s.got + [(c, s.sent[|s.got|])] && Next(s, Test(c)).pcs == s.pcs[c := Away])
            && (|s.got| == |s.sent| && s.pcs[c] == Testing ==> Next(s, Test(c)) == s.(pcs := s.pcs[c := Waiting]))
            && (s.pcs[c] == Waiting ==>
                  |s.got| == |s.sent| && Run(s, [Send(m), Test(c)]).got == s.got + [(c, m)])
  {
    var s := Run(Init(n), es);
    RunSent(Init(n), es);
    SentRegroup([], SentIn(es), []);
    FifoAndNoLostWakeup(n, es);
    if |s.got| < |s.sent| {
      Receives(s, c);
    }
    if s.pcs[c] == Waiting {
      WokenBySend(s, c, m);
    }
  }

  /** The first of what is left. */
  lemma Receives(s: State, c: nat)
    requires c < |s.pcs| && |s.got| < |s.sent| && s.data == s.sent[|s.got|..]
    ensures s.pcs[c] == Away ==>
              Run(s, [Call(c), Test(c)]).got == s.got + [(c, s.sent[|s.got|])] && Run(s, [Call(c), Test(c)]).pcs == s.pcs
    ensures s.pcs[c] == Testing ==>
              Next(s, Test(c)).got == s.got + [(c, s.sent[|s.got|])] && Next(s, Test(c)).pcs == s.pcs[c := Away]
  {
    RunTwo(s, Call(c), Test(c));
    assert s.data[0] == s.sent[|s.got|];
    assert s.pcs[c := Testing][c := Away] == s.pcs[c := Away] && (s.pcs[c] == Away ==> s.pcs[c := Away] == s.pcs);
  }

  lemma WokenBySend(s: State, c: nat, m: Msg)
    requires c < |s.pcs| && s.pcs[c] == Waiting && s.data == []
    ensures Run(s, [Send(m), Test(c)]).got == s.got + [(c, m)]
  {
    RunTwo(s, Send(m), Test(c));
  }

  /** A sleeper woken for no reason looks, finds nothing and goes back to sleep. */
  lemma WokenForNothing(n: nat, es: seq<Event>, c: nat)
    requires c < n
    ensures var s := Run(Init(n), es);
            |s.pcs| == n &&
            (s.pcs[c] == Waiting ==> Next(s, Spurious(c)).pcs == s.pcs[c := Testing] && Run(s, [Spurious(c), Test(c)]) == s)
  {
    var s := Run(Init(n), es);
    RunSent(Init(n), es);
    FifoAndNoLostWakeup(n, es);
    RunTwo(s, Spurious(c), Test(c));
    if s.pcs[c] == Waiting {
      assert s.pcs[c := Testing][c := Waiting] == s.pcs;
    }
  }
}
