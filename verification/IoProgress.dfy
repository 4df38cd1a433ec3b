/**
 What one doWork does in each state, told by what the socket takes and brings, and that the
 client gets on: a frame under way is finished in no more calls than it has bytes left, and
 the client comes back to waiting for the next request.
 */
module IoProgress {
  import opened Prelude
  import opened Header
  import opened Framing
  import opened FrameStream
  import opened ClientIo

  // ----- what the socket does -------------------------------------------------------------------

  /** How many of n bytes offered the socket takes. */
  function Accepts(io: Io, n: nat): nat {
    match io
    case Moves(most) => if most == 0 then Min(1, n) else Min(most, n)
    case _ => 0
  }

  /** Offering n bytes fails; offering none does unless the socket is busy. */
  predicate Rejects(io: Io, n: nat) { io.Broken? || io.Closed? || (io.Moves? && n == 0) }

  /** What a send gives of a frame of `size` bytes from byte k on: the header is offered
      first, and the body in a second call once all of the header is out. */
  function Gives(k: nat, size: nat, s1: Io, s2: Io): (n: nat)
    requires k <= size && HEADER_LEN <= size
    ensures k + n <= size
  {
    if k >= HEADER_LEN then Accepts(s1, size - k)
    else if Accepts(s1, HEADER_LEN - k) < HEADER_LEN - k then Accepts(s1, HEADER_LEN - k)
    else HEADER_LEN - k + Accepts(s2, size - HEADER_LEN)
  }

  predicate Breaks(k: nat, size: nat, s1: Io, s2: Io)
    requires k <= size && HEADER_LEN <= size
  {
    if k >= HEADER_LEN then Rejects(s1, size - k)
    else Rejects(s1, HEADER_LEN - k) || (Accepts(s1, HEADER_LEN - k) == HEADER_LEN - k && Rejects(s2, size - HEADER_LEN))
  }

  lemma CallGives(io: Io, n: nat)
    ensures SendCall(io, n) == if Rejects(io, n) then Failed else if Accepts(io, n) == 0 then WouldBlock else Did(Accepts(io, n))
  {
  }

  lemma BodyGives(p: Packer, io: Io)
    requires PackerOk(p) && p.st == SdBd
    ensures Sent(p) <= |Frame(p)| && HEADER_LEN <= Sent(p)
    ensures var (q, out) := SendBody(p, io);
            && |out| == Accepts(io, |Frame(p)| - Sent(p))
            && (q.st == SdError <==> Rejects(io, |Frame(p)| - Sent(p)))
            && (q.st == SdOk <==> |out| > 0 && Sent(p) + |out| == |Frame(p)|)
  {
    CallGives(io, BodyLen(p.head) - p.pos);
  }

  lemma HeadGives(p: Packer, s1: Io, s2: Io)
    requires PackerOk(p) && p.st == SdHd
    ensures Sent(p) < HEADER_LEN <= |Frame(p)|
    ensures var (q, out) := SendHead(p, s1, s2);
            && |out| == Gives(Sent(p), |Frame(p)|, s1, s2)
            && (q.st == SdError <==> Breaks(Sent(p), |Frame(p)|, s1, s2))
            && (q.st == SdOk <==> Sent(p) + |out| == |Frame(p)| && |Frame(p)| > HEADER_LEN)
  {
    SendHeadIs(p, s1, s2);
    CallGives(s1, HEADER_LEN - p.pos);
    var mid := p.(pos := 0, st := SdBd);
    assert Frame(mid) == Frame(p);
    BodyGives(mid, s2);
  }

  /** The packer's send, by bytes: the next ones of the frame, as many as the socket takes. */
  lemma SendGives(p: Packer, s1: Io, s2: Io)
    requires PackerOk(p) && (p.st == SdHd || p.st == SdBd)
    ensures Sent(p) <= |Frame(p)| && HEADER_LEN <= |Frame(p)|
    ensures var (q, out) := Send(p, s1, s2);
            var f, k := Frame(p), Sent(p);
            var n := Gives(k, |f|, s1, s2);
            && PackerOk(q) && out == f[k..k + n]
            && (q.st == SdError <==> Breaks(k, |f|, s1, s2))
            && (q.st == SdOk <==> !Breaks(k, |f|, s1, s2) && k + n == |f| && |f| > HEADER_LEN)
            && (q.st == SdHd || q.st == SdBd ==> Frame(q) == f && Sent(q) == k + n)
  {
    SendContinuesFrame(p, s1, s2);
    if p.st == SdHd {
      HeadGives(p, s1, s2);
    } else {
      BodyGives(p, s1);
    }
  }

  // ----- one doWork ------------------------------------------------------------------------------

  /** A connection as it can come to be, still alive. */
  ghost predicate Live(c: Conn) { WireOk(c) && QueueOk(c) && c.alive }

  /** What a response under way is, and how much of it is out. */
  ghost predicate SendingAt(c: Conn, f: seq<byte>, k: nat) {
    && Live(c) && c.core.phase == Sending && HEADER_LEN <= |f| && k <= |f|
    && Frame(c.core.packer) == f && c.wire == Join(c.frames) + f[..k]
  }

  /** Every live client in iostSending is in the middle of one response. */
  lemma SendingSomewhere(c: Conn) returns (f: seq<byte>, k: nat)
    requires Live(c) && c.core.phase == Sending
    ensures SendingAt(c, f, k) && k == Sent(c.core.packer)
  {
    f, k := Frame(c.core.packer), Sent(c.core.packer);
    SendGives(c.core.packer, Again, Again);
  }

  lemma SameLength(a: seq<byte>, f: seq<byte>, j: nat, k: nat)
    requires j <= |f| && k <= |f| && a + f[..j] == a + f[..k]
    ensures j == k
  {
    assert |a + f[..j]| == |a| + j && |a + f[..k]| == |a| + k;
  }

  lemma SendingPosition(c: Conn, f: seq<byte>, k: nat)
    requires SendingAt(c, f, k)
    ensures PackerOk(c.core.packer) && k == Sent(c.core.packer) && (c.core.packer.st == SdHd || c.core.packer.st == SdBd)
  {
    var f', k' := SendingSomewhere(c);
    SameLength(Join(c.frames), f, k', k);
  }

  /** The connection at the moment its response is out, about to notify. */
  function Replied(c: Conn, f: seq<byte>, k: nat): Conn
    requires k <= |f|
  {
    c.(core := Answered(c.core).(phase := Notifing), wire := c.wire + f[k..], frames := c.frames + [Response(f)])
  }

  lemma RepliedLive(c: Conn, f: seq<byte>, k: nat)
    requires SendingAt(c, f, k)
    ensures Live(Replied(c, f, k))
  {
    RestSent(Join(c.frames), f, k);
    JoinAppend(c.frames, Response(f));
    RepliedOk(c, f, k);
  }

  lemma RestSent(a: seq<byte>, f: seq<byte>, k: nat)
    requires k <= |f|
    ensures (a + f[..k]) + f[k..] == a + f
  {
    SplitAt(f, k);
    Regroup(a, f[..k], f[k..]);
  }

  lemma RepliedOk(c: Conn, f: seq<byte>, k: nat)
    requires Live(c) && c.core.phase == Sending && k <= |f| && Replied(c, f, k).wire == Join(Replied(c, f, k).frames)
    ensures Live(Replied(c, f, k))
  {
    NotifingOk(Replied(c, f, k).core);
    WholeWire(Replied(c, f, k));
  }

  lemma NotifyWhatever(c: Core, io: Io)
    requires NoticesOk(c.notices)
    ensures DoNotify(c.(phase := Notifing), io) == DoNotify(c, io)
  {
  }

  /** A step whose effect is one of the core alone. */
  lemma WorkIs(c: Conn, a: Answers, e: Effect)
    requires CoreOk(c.core) && c.alive && e == DoWork(c.core, c.inbox, a) && e.request == None
    ensures Next(c, Work(a)) == Apply(c, e).(alive := e.ret)
  {
    assert c.texts + [] == c.texts;
  }

  /** A response completed in a call leaves the rest of that call to donotify, as if the
      client had come to it in iostNotifing. */
  lemma FinishThenNotify(c: Conn, a: Answers, f: seq<byte>, k: nat)
    requires SendingAt(c, f, k) && |f| > HEADER_LEN
    requires !Breaks(k, |f|, a.s1, a.s2) && k + Gives(k, |f|, a.s1, a.s2) == |f|
    ensures Live(Replied(c, f, k)) && Next(c, Work(a)) == Next(Replied(c, f, k), Work(a))
  {
    RepliedLive(c, f, k);
    SendingPosition(c, f, k);
    SendGives(c.core.packer, a.s1, a.s2);
    FinishedSend(c.core, a.s1, a.s2, a.n);
    RepliedNotifies(c, a, f, k, DoNotify(Answered(c.core), a.n));
  }

  lemma RepliedNotifies(c: Conn, a: Answers, f: seq<byte>, k: nat, e1: Effect)
    requires SendingAt(c, f, k) && k == Sent(c.core.packer) && CanSend(c) && Live(Replied(c, f, k))
    requires e1 == DoNotify(Answered(c.core), a.n)
    requires DoSend(c.core, a.s1, a.s2, a.n) == e1.(out := f[k..] + e1.out, replied := Some(f))
    ensures Next(c, Work(a)) == Next(Replied(c, f, k), Work(a))
  {
    NotifyWhatever(Answered(c.core), a.n);
    WorkIs(c, a, DoSend(c.core, a.s1, a.s2, a.n));
    WorkIs(Replied(c, f, k), a, e1);
    RepliedApply(c, e1, f, k);
  }

  lemma RepliedApply(c: Conn, e1: Effect, f: seq<byte>, k: nat)
    requires k <= |f| && e1.replied == None
    ensures Apply(c, e1.(out := f[k..] + e1.out, replied := Some(f))) == Apply(Replied(c, f, k), e1)
  {
    var c1 := Replied(c, f, k);
    Regroup(c.wire, f[k..], e1.out);
    Regroup(c.frames, [Response(f)], Completed(c1, e1));
  }

  /** A send that fails, or that leaves something of the response. */
  lemma UnfinishedIs(c: Core, a: Answers, f: seq<byte>, k: nat) returns (q: Packer)
    requires MaySend(c) && f == Frame(c.packer) && k == Sent(c.packer) && HEADER_LEN <= |f|
    requires Breaks(k, |f|, a.s1, a.s2) || k + Gives(k, |f|, a.s1, a.s2) < |f| || |f| == HEADER_LEN
    ensures DoSend(c, a.s1, a.s2, a.n) ==
            Effect(c.(phase := Sending, packer := q), f[k..k + Gives(k, |f|, a.s1, a.s2)], 0, !Breaks(k, |f|, a.s1, a.s2),
                   None, None, None)
    ensures PackerOk(q) && (!Breaks(k, |f|, a.s1, a.s2) ==> Frame(q) == f)
  {
    SendGives(c.packer, a.s1, a.s2);
    SendMoves(c.packer, a.s1, a.s2);
    q := Send(c.packer, a.s1, a.s2).0;
  }

  lemma UnfinishedNext(c: Conn, a: Answers, f: seq<byte>, k: nat)
    requires SendingAt(c, f, k)
    requires Breaks(k, |f|, a.s1, a.s2) || k + Gives(k, |f|, a.s1, a.s2) < |f| || |f| == HEADER_LEN
    ensures var d, n := Next(c, Work(a)), Gives(k, |f|, a.s1, a.s2);
            && d.wire == c.wire + f[k..k + n] && d.frames == c.frames && d.requests == c.requests && d.inbox == c.inbox
            && d.core.phase == Sending && d.core.notices == c.core.notices
            && d.alive == !Breaks(k, |f|, a.s1, a.s2) && (d.alive ==> PackerOk(d.core.packer) && Frame(d.core.packer) == f)
  {
    SendingPosition(c, f, k);
    var q := UnfinishedIs(c.core, a, f, k);
    var e := DoSend(c.core, a.s1, a.s2, a.n);
    WorkIs(c, a, e);
    NothingCompleted(c, e);
  }

  /** In iostSending doWork gives the socket the next bytes of the response, all it takes:
      a part of them leaves the response further on, */
  lemma SendingGoesOn(c: Conn, a: Answers, f: seq<byte>, k: nat)
    requires SendingAt(c, f, k) && !Breaks(k, |f|, a.s1, a.s2)
    requires k + Gives(k, |f|, a.s1, a.s2) < |f| || |f| == HEADER_LEN
    ensures var d, n := Next(c, Work(a)), Gives(k, |f|, a.s1, a.s2);
            && SendingAt(d, f, k + n) && d.wire == c.wire + f[k..k + n] && d.frames == c.frames
            && d.core.notices == c.core.notices && d.requests == c.requests && d.inbox == c.inbox
  {
    StepWire(c, Work(a));
    UnfinishedNext(c, a, f, k);
    Adjacent(f, 0, k, Gives(k, |f|, a.s1, a.s2));
    Regroup(Join(c.frames), f[..k], f[k..k + Gives(k, |f|, a.s1, a.s2)]);
  }

  /** and a failure ends the connection with the bytes that the socket took before it. */
  lemma SendingBreaks(c: Conn, a: Answers, f: seq<byte>, k: nat)
    requires SendingAt(c, f, k) && Breaks(k, |f|, a.s1, a.s2)
    ensures var d, n := Next(c, Work(a)), Gives(k, |f|, a.s1, a.s2);
            !d.alive && d.wire == c.wire + f[k..k + n] && d.frames == c.frames && d.requests == c.requests && d.inbox == c.inbox
  {
    UnfinishedNext(c, a, f, k);
  }

  /** In iostNotifing doWork gives the socket the next bytes of the first notification, all
      it takes, and goes on to the next one when they are the last. */
  lemma NotifingWork(c: Conn, a: Answers)
    requires Live(c) && c.core.phase == Notifing && c.core.notices != []
    ensures var d, m := Next(c, Work(a)), c.core.notices[0];
            var left := |m.buf| - m.pos;
            var n := Accepts(a.n, left);
            && m.pos <= |m.buf| && d.wire == c.wire + m.buf[m.pos..m.pos + n] && d.requests == c.requests && d.inbox == c.inbox
            && (m.buf != [] && Rejects(a.n, left) ==>
                  !d.alive && d.frames == c.frames && d.core.notices == c.core.notices[1..])
            && (m.buf != [] && !Rejects(a.n, left) && n < left ==>
                  && d.alive && d.core.phase == Notifing && d.frames == c.frames && d.fates == c.fates
                  && d.core.notices == [Notice(m.buf, m.pos + n)] + c.core.notices[1..])
            && (m.buf == [] || (!Rejects(a.n, left) && n == left) ==>
                  && d.alive && d.frames == c.frames + [Notification(|c.fates|, m.buf)]
                  && d.core.notices == c.core.notices[1..]
                  && d.core.phase == if |c.core.notices| == 1 then Idle else Notifing)
  {
    var m := c.core.notices[0];
    if m.buf != [] {
      CallGives(a.n, |m.buf| - m.pos);
    }
  }

  /** Nothing to notify: the client waits for a request again. */
  lemma NothingToNotify(c: Conn, a: Answers)
    requires Live(c) && c.core.phase == Notifing && c.core.notices == []
    ensures var d := Next(c, Work(a));
            d.alive && d.core.phase == Idle && d.wire == c.wire && d.frames == c.frames && d.requests == c.requests && d.inbox == c.inbox
  {
  }

  // ----- reading ------------------------------------------------------------------------------------

  /** How many bytes a read of n brings when `avail` have arrived. */
  function Brings(io: Io, n: nat, avail: nat): nat { if io.Moves? then Min(Accepts(io, n), avail) else 0 }

  /** The connection is lost: an error, the peer's close, or a read that asks for nothing. */
  predicate Loses(io: Io, n: nat) { io.Broken? || io.Closed? || n == 0 }

  lemma CallBrings(io: Io, n: nat, avail: nat)
    ensures ReadCall(io, n, avail) ==
            if io.Broken? then Failed else if Loses(io, n) then Did(0)
            else if Brings(io, n, avail) == 0 then WouldBlock else Did(Brings(io, n, avail))
  {
  }

  /** The parser in the middle of a body: an error, nothing new, a piece, or the rest. */
  lemma BodyBrings(p: Parser, inbox: seq<byte>, io: Io)
    requires ParserOk(p) && p.st == RdBd
    ensures |p.hd| == HEADER_LEN && |p.body| < BodyLen(p.hd)
    ensures var want := BodyLen(p.hd) - |p.body|;
            var n := Brings(io, want, |inbox|);
            && n <= |inbox|
            && ReadBody(p, inbox, io) ==
               if Loses(io, want) then (p.(st := RdError), 0)
               else (Parser(if n < want then RdBd else RdOk, p.hd, p.body + inbox[..n]), n)
  {
    CallBrings(io, BodyLen(p.hd) - |p.body|, |inbox|);
    assert p.body + inbox[..0] == p.body;
  }

  /** The parser at or within a header: an error, nothing new, a piece, or the rest of it,
      which is judged at once and, if good, followed by the body in the same call. */
  lemma HeadBrings(had: seq<byte>, inbox: seq<byte>, io1: Io, io2: Io)
    requires |had| < HEADER_LEN
    ensures var n := Brings(io1, HEADER_LEN - |had|, |inbox|);
            && n <= |inbox|
            && (Loses(io1, HEADER_LEN - |had|) ==>
                  Read(Parser(RdHd, had, []), inbox, io1, io2) == (Parser(RdError, had, []), 0))
            && (!Loses(io1, HEADER_LEN - |had|) && n < HEADER_LEN - |had| ==>
                  Read(Parser(RdHd, had, []), inbox, io1, io2) == (Parser(RdHd, had + inbox[..n], []), n))
            && (!Loses(io1, HEADER_LEN - |had|) && n == HEADER_LEN - |had| ==>
                  Read(Parser(RdHd, had, []), inbox, io1, io2) == HeadIn(had + inbox[..n], inbox[n..], n, io2))
  {
    CallBrings(io1, HEADER_LEN - |had|, |inbox|);
    HeadIs(had, inbox, io1, io2);
    assert had + inbox[..0] == had;
  }

  /** A whole header, the last n bytes of which this call has read. */
  function HeadIn(hd: seq<byte>, rest: seq<byte>, n: nat, io2: Io): (Parser, nat)
    requires |hd| == HEADER_LEN
  {
    if !HeaderOk(hd) then (Parser(HdError, hd, []), n)
    else var (q, m) := ReadBody(Parser(RdBd, hd, []), rest, io2); (q, n + m)
  }

  /** The bytes of the body still to come. */
  function Want(c: Core): nat
    requires CoreOk(c) && c.phase == Reading && c.parser.st == RdBd
  {
    BodyLen(c.parser.hd) - |c.parser.body|
  }

  ghost predicate ReadingAt(c: Conn) { Live(c) && c.core.phase == Reading }

  /** A call that dispatches nothing. */
  lemma UndispatchedIs(c: Conn, a: Answers, e: Effect, q: Parser, n: nat)
    requires ReadingAt(c) && n <= |c.inbox| && (q, n) == ReadBody(c.core.parser, c.inbox, a.r1)
    requires q.st == RdBd || q.st == RdError || (q.st == RdOk && !a.xmlOk)
    requires e == Effect(c.core.(parser := q), [], n, q.st == RdBd, None, None, None)
    ensures Next(c, Work(a)) == c.(core := c.core.(parser := q), inbox := c.inbox[n..], alive := q.st == RdBd)
  {
    assert DoWork(c.core, c.inbox, a) == e;
    WorkIs(c, a, e);
    NothingCompleted(c, e);
    assert c.wire + [] == c.wire && c.requests + [] == c.requests && c.fates + [] == c.fates;
  }

  /** In iostReading doWork takes the bytes of the body that are there, as far as it needs
      them and the read brings them: a part of them leaves the request further on, */
  lemma ReadingGoesOn(c: Conn, a: Answers)
    requires ReadingAt(c) && !Loses(a.r1, Want(c.core)) && Brings(a.r1, Want(c.core), |c.inbox|) < Want(c.core)
    ensures var n := Brings(a.r1, Want(c.core), |c.inbox|);
            && n <= |c.inbox|
            && Next(c, Work(a)) == c.(core := c.core.(parser := c.core.parser.(body := c.core.parser.body + c.inbox[..n])),
                                      inbox := c.inbox[n..])
            && ReadingAt(Next(c, Work(a)))
  {
    StepWire(c, Work(a));
    BodyBrings(c.core.parser, c.inbox, a.r1);
    var (q, n) := ReadBody(c.core.parser, c.inbox, a.r1);
    UndispatchedIs(c, a, Effect(c.core.(parser := q), [], n, true, None, None, None), q, n);
  }

  /** a failure, or a text that does not parse, ends the connection and writes nothing, */
  lemma ReadingBreaks(c: Conn, a: Answers)
    requires ReadingAt(c)
    requires Loses(a.r1, Want(c.core)) || (Brings(a.r1, Want(c.core), |c.inbox|) == Want(c.core) && !a.xmlOk)
    ensures var d := Next(c, Work(a)); !d.alive && d.wire == c.wire && d.frames == c.frames && d.requests == c.requests
  {
    BodyBrings(c.core.parser, c.inbox, a.r1);
    var (q, n) := ReadBody(c.core.parser, c.inbox, a.r1);
    UndispatchedIs(c, a, Effect(c.core.(parser := q), [], n, false, None, None, None), q, n);
  }

  /** The connection at the moment its request is dispatched, about to send the response. */
  function Asked(c: Conn, a: Answers): Conn
    requires ReadingAt(c) && Want(c.core) <= |c.inbox|
  {
    var q := c.core.parser;
    var h := Decode(q.hd);
    c.(core := c.core.(phase := Sending, parser := Parser(RdOk, q.hd, q.body + c.inbox[..Want(c.core)]),
                       packer := Pack(a.reply, h.seqno, h.udata, h.secret1, h.secret2)),
       inbox := c.inbox[Want(c.core)..], requests := c.requests + [h], texts := c.texts + [a.reply])
  }

  lemma AskedSending(c: Conn, a: Answers)
    requires ReadingAt(c) && Want(c.core) <= |c.inbox|
    ensures SendingAt(Asked(c, a), ResponseFrame(Decode(c.core.parser.hd), a.reply), 0)
  {
    var d := Asked(c, a);
    PackStart(a.reply, Decode(c.core.parser.hd));
    assert Frame(d.core.packer)[..0] == [] && Join(c.frames) + [] == c.wire;
    assert Progress(d.core) == [];
    WholeWire(d);
  }

  lemma AnyPhaseSends(c: Core, a: Answers)
    requires NoticesOk(c.notices) && PackerOk(c.packer)
    ensures DoSend(c.(phase := Reading), a.s1, a.s2, a.n) == DoSend(c.(phase := Sending), a.s1, a.s2, a.n)
  {
  }

  lemma DispatchIs(c: Conn, a: Answers, h: Header)
    requires ReadingAt(c) && Want(c.core) <= |c.inbox| && h == Decode(c.core.parser.hd) && CoreOk(Asked(c, a).core)
    requires !Loses(a.r1, Want(c.core)) && Brings(a.r1, Want(c.core), |c.inbox|) == Want(c.core) && a.xmlOk
    ensures DoWork(c.core, c.inbox, a) == DoWork(Asked(c, a).core, [], a).(took := Want(c.core), request := Some(h))
  {
    BodyBrings(c.core.parser, c.inbox, a.r1);
    AnyPhaseSends(Asked(c, a).core, a);
  }

  /** and the last of them dispatch the request: its response begins in the same call, as if
      the client had come to it in iostSending. */
  lemma ReadThenSend(c: Conn, a: Answers)
    requires ReadingAt(c) && Want(c.core) <= |c.inbox|
    requires !Loses(a.r1, Want(c.core)) && Brings(a.r1, Want(c.core), |c.inbox|) == Want(c.core) && a.xmlOk
    ensures SendingAt(Asked(c, a), ResponseFrame(Decode(c.core.parser.hd), a.reply), 0)
    ensures Next(c, Work(a)) == Next(Asked(c, a), Work(a))
  {
    AskedSending(c, a);
    var h := Decode(c.core.parser.hd);
    DispatchIs(c, a, h);
    SendNoRequest(Asked(c, a), a);
    AskedApply(c, a, DoWork(c.core, c.inbox, a), DoWork(Asked(c, a).core, [], a), h);
    WorkIs(Asked(c, a), a, DoWork(Asked(c, a).core, [], a));
  }

  lemma SendNoRequest(c: Conn, a: Answers)
    requires Live(c) && c.core.phase == Sending
    ensures DoWork(c.core, c.inbox, a) == DoWork(c.core, [], a)
    ensures DoWork(c.core, [], a).request == None && DoWork(c.core, [], a).took == 0
  {
    MaySendNow(c.core);
    SendPays(c.core, a.s1, a.s2, a.n);
  }

  lemma AskedApply(c: Conn, a: Answers, e: Effect, e1: Effect, h: Header)
    requires ReadingAt(c) && Want(c.core) <= |c.inbox| && h == Decode(c.core.parser.hd)
    requires e == e1.(took := Want(c.core), request := Some(h)) && e1.took == 0 && e1.request == None
    requires e == DoWork(c.core, c.inbox, a)
    ensures Next(c, Work(a)) == Apply(Asked(c, a), e1).(alive := e1.ret)
  {
    var d := Asked(c, a);
    assert Completed(d, e1) == Completed(c, e);
    assert d.requests + [] == d.requests && d.inbox[0..] == d.inbox;
  }

  /** The connection at the moment a good header is in, about to read the body. */
  function Headed(c: Conn): Conn
    requires HEADER_LEN <= |c.inbox|
  {
    c.(core := c.core.(phase := Reading, parser := Parser(RdBd, c.inbox[..HEADER_LEN], [])), inbox := c.inbox[HEADER_LEN..])
  }

  /** In iostIdle a header that comes in one read, good and with a body to follow, lets the
      same call go on as if the client had come to it in iostReading, the second read of the
      call being the first there. */
  lemma HeadThenRead(c: Conn, a: Answers)
    requires Live(c) && c.core.phase == Idle && HEADER_LEN <= |c.inbox|
    requires a.r1.Moves? && Accepts(a.r1, HEADER_LEN) == HEADER_LEN
    requires HeaderOk(c.inbox[..HEADER_LEN]) && 0 < BodyLen(c.inbox[..HEADER_LEN])
    ensures ReadingAt(Headed(c)) && Next(c, Work(a)) == Next(Headed(c), Work(a.(r1 := a.r2)))
  {
    HeadedReading(c);
    HeadRead(c.inbox, a);
    HeadedEffect(c, a);
    HeadedApply(c, a, DoWork(c.core, c.inbox, a), DoWork(Headed(c).core, c.inbox[HEADER_LEN..], a.(r1 := a.r2)));
  }

  lemma HeadedReading(c: Conn)
    requires Live(c) && c.core.phase == Idle && HEADER_LEN <= |c.inbox| && 0 < BodyLen(c.inbox[..HEADER_LEN])
    ensures ReadingAt(Headed(c))
  {
    assert Progress(c.core) == [] && Join(c.frames) + [] == Join(c.frames);
    WholeWire(Headed(c));
  }

  lemma HeadedApply(c: Conn, a: Answers, e: Effect, e1: Effect)
    requires Live(c) && HEADER_LEN <= |c.inbox| && ReadingAt(Headed(c))
    requires e1 == DoWork(Headed(c).core, c.inbox[HEADER_LEN..], a.(r1 := a.r2))
    requires e == DoWork(c.core, c.inbox, a) && e == e1.(took := HEADER_LEN + e1.took)
    ensures Next(c, Work(a)) == Next(Headed(c), Work(a.(r1 := a.r2)))
  {
    assert Completed(c, e) == Completed(Headed(c), e1);
    SkipTwice(c.inbox, HEADER_LEN, e1.took);
    assert Apply(c, e) == Apply(Headed(c), e1);
  }

  lemma SkipTwice<T>(s: seq<T>, i: nat, j: nat)
    requires i <= |s| && j <= |s| - i
    ensures s[i..][j..] == s[i + j..]
  {
  }

  lemma HeadRead(inbox: seq<byte>, a: Answers)
    requires HEADER_LEN <= |inbox| && a.r1.Moves? && Accepts(a.r1, HEADER_LEN) == HEADER_LEN
    requires HeaderOk(inbox[..HEADER_LEN])
    ensures var p := Parser(RdBd, inbox[..HEADER_LEN], []);
            var (q, m) := ReadBody(p, inbox[HEADER_LEN..], a.r2);
            Read(FREE_PARSER, inbox, a.r1, a.r2) == (q, HEADER_LEN + m)
  {
    CallBrings(a.r1, HEADER_LEN, |inbox|);
    assert [] + inbox[..HEADER_LEN] == inbox[..HEADER_LEN];
  }

  lemma HeadedEffect(c: Conn, a: Answers)
    requires Live(c) && c.core.phase == Idle && HEADER_LEN <= |c.inbox| && CoreOk(Headed(c).core)
    requires var p := Parser(RdBd, c.inbox[..HEADER_LEN], []);
             var (q, m) := ReadBody(p, c.inbox[HEADER_LEN..], a.r2);
             Read(FREE_PARSER, c.inbox, a.r1, a.r2) == (q, HEADER_LEN + m)
    ensures var e := DoWork(Headed(c).core, c.inbox[HEADER_LEN..], a.(r1 := a.r2));
            DoWork(c.core, c.inbox, a) == e.(took := HEADER_LEN + e.took)
  {
  }

  /** Anything else in iostIdle ends the connection, and nothing is written or dispatched. */
  lemma IdleBreaks(c: Conn, a: Answers)
    requires Live(c) && c.core.phase == Idle
    requires !(a.r1.Moves? && Brings(a.r1, HEADER_LEN, |c.inbox|) == HEADER_LEN
               && HeaderOk(c.inbox[..HEADER_LEN]) && 0 < BodyLen(c.inbox[..HEADER_LEN]))
    ensures var d := Next(c, Work(a)); !d.alive && d.wire == c.wire && d.frames == c.frames && d.requests == c.requests
  {
    CallBrings(a.r1, HEADER_LEN, |c.inbox|);
    HeaderMustArriveWhole(c.core, c.inbox, a);
    IdleIgnores(c.core, c.inbox, a);
    var e := DoWork(c.core, c.inbox, a);
    WorkIs(c, a, e);
    NothingCompleted(c, e);
  }

  lemma IdleIgnores(c: Core, inbox: seq<byte>, a: Answers)
    requires PhaseOk(c, true) && c.phase == Idle && !DoWork(c, inbox, a).ret
    requires !(ReadCall(a.r1, HEADER_LEN, |inbox|) == Did(HEADER_LEN) && HeaderOk(inbox[..HEADER_LEN])
               && 0 < BodyLen(inbox[..HEADER_LEN]))
    ensures var e := DoWork(c, inbox, a); e.out == [] && e.request == None && e.replied == None && e.fate == None
  {
    if ReadCall(a.r1, HEADER_LEN, |inbox|) == Did(HEADER_LEN) && HeaderOk(inbox[..HEADER_LEN]) {
      GoodHead(inbox, a.r1, a.r2);
    } else {
      BadHead(inbox, a.r1, a.r2);
    }
  }

  // ----- queueing -----------------------------------------------------------------------------------

  /** A notification queued on an idle client is sent at once, as if the client had come to
      it in iostNotifing, but that a failure is told to nobody; on a client with something
      under way it waits at the end of the list. */
  lemma QueueGoesOut(c: Conn, buf: seq<byte>, a: Answers)
    requires Live(c)
    ensures var d := Listed(c, buf);
            if c.core.phase == Idle then
              && Live(d.(core := d.core.(phase := Notifing)))
              && Next(c, Queue(buf, a.n)) == Next(d.(core := d.core.(phase := Notifing)), Work(a)).(alive := true)
            else Next(c, Queue(buf, a.n)) == d
  {
    var d := Listed(c, buf);
    StepWire(c, Queue(buf, a.n));
    if c.core.phase == Idle {
      ListedLive(c, buf);
      NotifyWhatever(d.core, a.n);
      var e := DoNotify(d.core, a.n);
      NotifyWire(d.core, a.n);
      WorkIs(d.(core := d.core.(phase := Notifing)), a, e);
      assert Completed(d, e) == Completed(d.(core := d.core.(phase := Notifing)), e);
    } else {
      var e := QueueNotification(c.core, buf, a.n);
      NothingCompleted(c.(queued := c.queued + [buf]), e);
      assert c.wire + [] == c.wire && c.requests + [] == c.requests && c.fates + [] == c.fates && c.inbox[0..] == c.inbox;
    }
  }

  lemma ListedLive(c: Conn, buf: seq<byte>)
    requires Live(c) && c.core.phase == Idle
    ensures var d := Listed(c, buf); Live(d.(core := d.core.(phase := Notifing)))
  {
    var d := Listed(c, buf);
    QueueIdleNext(c, buf, Again);
    NotifingOk(d.core.(phase := Notifing));
    WholeWire(d.(core := d.core.(phase := Notifing)));
  }

  // ----- getting on, over runs -----------------------------------------------------------------

  /** A doWork whose every read and send moves something and whose request parses; the text
      of a response is one that has a length on the wire. */
  predicate Moving(ev: Event) {
    ev.Work? ==> ev.a.r1.Moves? && ev.a.s1.Moves? && ev.a.s2.Moves? && ev.a.n.Moves? && ev.a.xmlOk && |ev.a.reply| % 0x1_0000 > 0
  }

  predicate AllMoving(es: seq<Event>) { forall ev :: ev in es ==> Moving(ev) }

  function Works(es: seq<Event>): nat {
    if es == [] then 0 else (if es[0].Work? then 1 else 0) + Works(es[1..])
  }

  /** The calls a notification can take: one for each byte left, and one for none. */
  function Left(m: Notice): nat
    requires m.pos <= |m.buf|
  {
    if m.buf == [] then 1 else |m.buf| - m.pos
  }

  function Load(ms: seq<Notice>): nat
    requires NoticesOk(ms)
  {
    if ms == [] then 0 else NoticesShift(ms, ms[0]); Left(ms[0]) + Load(ms[1..])
  }

  /** The calls the notifications of a list of events can take. */
  function Queued(es: seq<Event>): nat {
    if es == [] then 0
    else (match es[0] case Queue(buf, _) => Left(Notice(buf, 0)) case _ => 0) + Queued(es[1..])
  }

  /** The calls that what a client has begun can take, a response having at most 65535 bytes
      of text. */
  function Due(c: Conn): nat
    requires CoreOk(c.core)
  {
    match c.core.phase
    case Idle => 0
    case Reading => if c.core.parser.st == RdBd then Want(c.core) + HEADER_LEN + 0xFFFF + Load(c.core.notices) else 0
    case Sending =>
      (if Sent(c.core.packer) <= |Frame(c.core.packer)| then |Frame(c.core.packer)| - Sent(c.core.packer) else 0)
      + Load(c.core.notices)
    case Notifing => if c.core.notices == [] then 1 else Load(c.core.notices)
  }

  /** Nothing written or dispatched is lost on the way from c to d, and a request being read
      is still being read or dispatched next. */
  ghost predicate GotOn(c: Conn, d: Conn) {
    && c.frames <= d.frames && c.requests <= d.requests
    && (c.core.phase == Reading ==>
          || (d.core.phase == Reading && d.core.parser.hd == c.core.parser.hd && d.requests == c.requests)
          || (|c.core.parser.hd| == HEADER_LEN && c.requests + [Decode(c.core.parser.hd)] <= d.requests))
  }

  /** A live client with something begun that it can finish: a response with a text, a
      request whose bytes have all arrived. */
  ghost predicate Busy(c: Conn) {
    && Live(c) && c.core.phase != Idle
    && (c.core.phase == Sending ==> |Frame(c.core.packer)| > HEADER_LEN)
    && (c.core.phase == Reading ==> Want(c.core) <= |c.inbox|)
  }

  lemma NotifingStep(c: Conn, a: Answers)
    requires Live(c) && c.core.phase == Notifing && a.n.Moves?
    ensures var d := Next(c, Work(a));
            && Live(d) && (d.core.phase == Idle || d.core.phase == Notifing) && Due(d) < Due(c)
            && c.frames <= d.frames && d.requests == c.requests
  {
    StepWire(c, Work(a));
    if c.core.notices == [] {
      NothingToNotify(c, a);
    } else {
      NotifingWork(c, a);
      NotifingDue(c.core.notices, Next(c, Work(a)).core.notices);
    }
  }

  /** The first of the notifications gets shorter or leaves. */
  lemma NotifingDue(ms: seq<Notice>, left: seq<Notice>)
    requires NoticesOk(ms) && ms != [] && NoticesOk(left)
    requires left == ms[1..] || (left != [] && left[1..] == ms[1..] && left[0].buf == ms[0].buf && left[0].pos > ms[0].pos)
    ensures Load(left) < Load(ms) && (left == [] <==> Load(left) == 0)
  {
    assert NoticeOk(ms[0]);
    if left != [] {
      assert NoticeOk(left[0]);
    }
  }

  lemma SendingStep(c: Conn, a: Answers, f: seq<byte>, k: nat)
    requires SendingAt(c, f, k) && |f| > HEADER_LEN && a.s1.Moves? && a.s2.Moves?
    ensures k < |f|
    ensures var d := Next(c, Work(a));
            || (SendingAt(d, f, k + Gives(k, |f|, a.s1, a.s2)) && Gives(k, |f|, a.s1, a.s2) > 0
                && d.core.notices == c.core.notices && d.frames == c.frames && d.requests == c.requests)
            || (Live(Replied(c, f, k)) && d == Next(Replied(c, f, k), Work(a)))
  {
    SendingPosition(c, f, k);
    SendGives(c.core.packer, a.s1, a.s2);
    assert k < |f|;
    if k + Gives(k, |f|, a.s1, a.s2) < |f| {
      SendingGoesOn(c, a, f, k);
    } else {
      FinishThenNotify(c, a, f, k);
    }
  }

  lemma LoadCounts(ms: seq<Notice>)
    requires NoticesOk(ms)
    ensures ms == [] <==> Load(ms) == 0
  {
    if ms != [] {
      assert NoticeOk(ms[0]);
    }
  }

  /** A step out of Sending, by what is due. */
  lemma SendingDue(c: Conn, a: Answers)
    requires Busy(c) && c.core.phase == Sending && Moving(Work(a))
    ensures var d := Next(c, Work(a));
            && Live(d) && (d.core.phase == Idle || Busy(d)) && Due(d) < Due(c)
            && c.frames <= d.frames && d.requests == c.requests
  {
    var f, k := SendingSomewhere(c);
    DueWhileSending(c, f, k);
    SendingStep(c, a, f, k);
    var d, n := Next(c, Work(a)), Gives(k, |f|, a.s1, a.s2);
    if SendingAt(d, f, k + n) && n > 0 && d.core.notices == c.core.notices && d.frames == c.frames && d.requests == c.requests {
      DueWhileSending(d, f, k + n);
    } else {
      RepliedDue(c, f, k);
      NotifingStep(Replied(c, f, k), a);
    }
  }

  lemma DueWhileSending(c: Conn, f: seq<byte>, k: nat)
    requires SendingAt(c, f, k) && |f| > HEADER_LEN
    ensures Due(c) == |f| - k + Load(c.core.notices) && Busy(c)
  {
    SendingPosition(c, f, k);
  }

  lemma RepliedDue(c: Conn, f: seq<byte>, k: nat)
    requires SendingAt(c, f, k) && k < |f| && Live(Replied(c, f, k))
    ensures Due(Replied(c, f, k)) <= |f| - k + Load(c.core.notices)
    ensures c.frames <= Replied(c, f, k).frames && Replied(c, f, k).requests == c.requests
  {
    LoadCounts(c.core.notices);
  }

  lemma ReadingDue(c: Conn, a: Answers)
    requires Busy(c) && c.core.phase == Reading && Moving(Work(a))
    ensures var d := Next(c, Work(a));
            Live(d) && (d.core.phase == Idle || Busy(d)) && Due(d) < Due(c) && GotOn(c, d)
  {
    if Brings(a.r1, Want(c.core), |c.inbox|) < Want(c.core) {
      ReadingGoesOn(c, a);
    } else {
      ReadThenSend(c, a);
      AskedBusy(c, a);
      SendingDue(Asked(c, a), a);
    }
  }

  /** A response is never longer than what was due for it. */
  lemma AskedBusy(c: Conn, a: Answers)
    requires Busy(c) && c.core.phase == Reading && |a.reply| % 0x1_0000 > 0
    requires SendingAt(Asked(c, a), ResponseFrame(Decode(c.core.parser.hd), a.reply), 0)
    ensures Busy(Asked(c, a)) && Due(Asked(c, a)) < Due(c)
  {
    FrameAnswers(Decode(c.core.parser.hd), a.reply);
    SendingPosition(Asked(c, a), ResponseFrame(Decode(c.core.parser.hd), a.reply), 0);
  }

  /** Each doWork that moves something takes off at least one of the calls due. */
  lemma BusyWork(c: Conn, a: Answers)
    requires Busy(c) && Moving(Work(a))
    ensures var d := Next(c, Work(a));
            Live(d) && (d.core.phase == Idle || Busy(d)) && Due(d) < Due(c) && GotOn(c, d)
  {
    match c.core.phase
    case Reading => ReadingDue(c, a);
    case Sending => SendingDue(c, a);
    case Notifing => NotifingStep(c, a);
  }

  lemma {:induction false} LoadAppend(ms: seq<Notice>, m: Notice)
    requires NoticesOk(ms) && NoticesOk(ms + [m])
    ensures NoticeOk(m) && Load(ms + [m]) == Load(ms) + Left(m)
    decreases |ms|
  {
    assert (ms + [m])[|ms|] == m;
    if ms == [] {
      assert [m][1..] == [];
      assert ms + [m] == [m];
    } else {
      NoticesShift(ms, ms[0]);
      NoticesShift(ms + [m], m);
      assert (ms + [m])[1..] == ms[1..] + [m];
      LoadAppend(ms[1..], m);
    }
  }

  lemma BusyQueue(c: Conn, buf: seq<byte>, n: Io)
    requires Busy(c)
    ensures var d := Next(c, Queue(buf, n));
            Busy(d) && Due(d) <= Due(c) + Left(Notice(buf, 0)) && GotOn(c, d)
  {
    StepWire(c, Queue(buf, n));
    NothingCompleted(c.(queued := c.queued + [buf]), QueueNotification(c.core, buf, n));
    LoadAppend(c.core.notices, Notice(buf, 0));
    LoadCounts(c.core.notices);
  }

  lemma BusyArrive(c: Conn, b: seq<byte>)
    requires Busy(c)
    ensures Busy(Next(c, Arrive(b))) && Due(Next(c, Arrive(b))) == Due(c) && GotOn(c, Next(c, Arrive(b)))
  {
    StepWire(c, Arrive(b));
  }

  /** Whatever is queued and arrives in between, a live client that moves something in every
      call is back in iostIdle after at most as many calls as it has bytes left, to read, to
      send and to notify. */
  lemma {:induction false} ComesBack(c: Conn, es: seq<Event>) returns (j: nat)
    requires Live(c) && (c.core.phase == Idle || Busy(c)) && AllMoving(es)
    requires Works(es) >= Due(c) + Queued(es)
    ensures j <= |es|
    ensures var d := Run(c, es[..j]); Live(d) && d.core.phase == Idle && GotOn(c, d)
    decreases |es|
  {
    if c.core.phase == Idle {
      return 0;
    }
    BusyDue(c);
    assert es != [] && Moving(es[0]);
    assert [es[0]][1..] == [];
    var d := Next(c, es[0]);
    BusyStep(c, es[0]);
    var i := ComesBack(d, es[1..]);
    RunFirst(c, es, i);
    GotOnThrough(c, d, Run(d, es[1..][..i]));
    return i + 1;
  }

  lemma RunFirst(c: Conn, es: seq<Event>, i: nat)
    requires Live(c) && es != [] && i < |es| && Live(Next(c, es[0]))
    ensures Run(c, es[..i + 1]) == Run(Next(c, es[0]), es[1..][..i])
  {
    assert es[..i + 1][1..] == es[1..][..i] && es[..i + 1][0] == es[0];
  }

  lemma GotOnThrough(c: Conn, m: Conn, d: Conn)
    requires GotOn(c, m) && GotOn(m, d)
    ensures GotOn(c, d)
  {
  }

  lemma BusyStep(c: Conn, ev: Event)
    requires Busy(c) && Moving(ev)
    ensures var d := Next(c, ev);
            Live(d) && (d.core.phase == Idle || Busy(d)) && GotOn(c, d) && Due(d) + Works([ev]) <= Due(c) + Queued([ev])
  {
    assert [ev][1..] == [];
    match ev
    case Work(a) => BusyWork(c, a);
    case Queue(buf, n) => BusyQueue(c, buf, n);
    case Arrive(b) => BusyArrive(c, b);
  }

  lemma BusyDue(c: Conn)
    requires Busy(c)
    ensures Due(c) > 0
  {
    match c.core.phase
    case Reading =>
    case Sending =>
      var f, k := SendingSomewhere(c);
      SendGives(c.core.packer, Again, Again);
      SendingUnfinished(c.core.packer);
    case Notifing => LoadCounts(c.core.notices);
  }

  lemma SendingUnfinished(p: Packer)
    requires PackerOk(p) && (p.st == SdHd || p.st == SdBd) && |Frame(p)| > HEADER_LEN
    ensures Sent(p) < |Frame(p)|
  {
  }

  lemma StepGrows(c: Conn, ev: Event)
    requires PhaseOk(c.core, c.alive)
    ensures c.frames <= Next(c, ev).frames && c.requests <= Next(c, ev).requests
  {
  }

  lemma {:induction false} RunGrows(c: Conn, es: seq<Event>)
    requires PhaseOk(c.core, c.alive)
    ensures c.frames <= Run(c, es).frames && c.requests <= Run(c, es).requests
    decreases |es|
  {
    if es != [] {
      StepGrows(c, es[0]);
      StepPhase(c, es[0]);
      RunGrows(Next(c, es[0]), es[1..]);
    }
  }

  predicate ResponseMoves(ev: Event) { ev.Work? ==> ev.a.s1.Moves? && ev.a.s2.Moves? }

  /** As long as each call moves a byte, a response under way is complete after at most as
      many calls as it has bytes left, whatever notifications are queued meanwhile. */
  lemma {:induction false} ResponseCompletes(c: Conn, es: seq<Event>, f: seq<byte>, k: nat)
    requires SendingAt(c, f, k) && |f| > HEADER_LEN && Works(es) >= |f| - k
    requires forall ev :: ev in es ==> ResponseMoves(ev)
    ensures c.frames + [Response(f)] <= Run(c, es).frames
    decreases |es|
  {
    SendingPosition(c, f, k);
    SendingUnfinished(c.core.packer);
    assert ResponseMoves(es[0]);
    StepWire(c, es[0]);
    var d := Next(c, es[0]);
    if es[0].Work? {
      SendingStep(c, es[0].a, f, k);
      if d.core.phase == Sending && SendingAt(d, f, k + Gives(k, |f|, es[0].a.s1, es[0].a.s2)) && d.frames == c.frames {
        ResponseCompletes(d, es[1..], f, k + Gives(k, |f|, es[0].a.s1, es[0].a.s2));
      } else {
        StepGrows(Replied(c, f, k), es[0]);
        RunGrows(d, es[1..]);
      }
    } else {
      SendingWaits(c, es[0], f, k);
      ResponseCompletes(d, es[1..], f, k);
    }
  }

  /** What arrives or is queued leaves the response where it is. */
  lemma SendingWaits(c: Conn, ev: Event, f: seq<byte>, k: nat)
    requires SendingAt(c, f, k) && !ev.Work?
    ensures SendingAt(Next(c, ev), f, k) && Next(c, ev).frames == c.frames
  {
    StepWire(c, ev);
    if ev.Queue? {
      QueueBehind(c, ev.buf, ev.n);
    }
  }

  predicate NoticeMoves(ev: Event) { ev.Work? ==> ev.a.n.Moves? }

  /** The same of a notification under way. */
  lemma {:induction false} NoticeCompletes(c: Conn, es: seq<Event>)
    requires Live(c) && c.core.phase == Notifing && c.core.notices != [] && Works(es) >= Left(c.core.notices[0])
    requires forall ev :: ev in es ==> NoticeMoves(ev)
    ensures c.frames + [Notification(|c.fates|, c.core.notices[0].buf)] <= Run(c, es).frames
    decreases |es|
  {
    var m := c.core.notices[0];
    assert NoticeOk(m);
    assert es != [] && NoticeMoves(es[0]);
    StepWire(c, es[0]);
    var d := Next(c, es[0]);
    match es[0] {
      case Work(a) => NotifingWork(c, a);
      case Queue(buf, n) => QueueBehind(c, buf, n);
      case Arrive(_) =>
    }
    if d.frames == c.frames {
      NoticeWaits(c, es[0], m);
      NoticeCompletes(d, es[1..]);
    } else {
      RunGrows(d, es[1..]);
    }
  }

  /** The notification is first in d too, with no more left of it. */
  ghost predicate StillFirst(c: Conn, d: Conn, m: Notice, done: nat) {
    && d.alive && d.core.phase == Notifing && d.fates == c.fates && d.core.notices != []
    && d.core.notices[0].buf == m.buf && NoticeOk(m) && NoticeOk(d.core.notices[0])
    && Left(d.core.notices[0]) + done <= Left(m)
  }

  lemma NoticeWaits(c: Conn, ev: Event, m: Notice)
    requires Live(c) && c.core.phase == Notifing && c.core.notices != [] && m == c.core.notices[0] && NoticeMoves(ev)
    requires Next(c, ev).frames == c.frames && NoticesOk(Next(c, ev).core.notices)
    ensures StillFirst(c, Next(c, ev), m, if ev.Work? then 1 else 0)
  {
    match ev
    case Work(a) => PartSent(c, a, m);
    case Queue(buf, n) => QueueBehind(c, buf, n); FirstStays(c, buf, n);
    case Arrive(_) =>
  }

  lemma PartSent(c: Conn, a: Answers, m: Notice)
    requires Live(c) && c.core.phase == Notifing && c.core.notices != [] && m == c.core.notices[0] && a.n.Moves?
    requires Next(c, Work(a)).frames == c.frames && NoticesOk(Next(c, Work(a)).core.notices)
    ensures StillFirst(c, Next(c, Work(a)), m, 1)
  {
    NotifingWork(c, a);
    OneMore(c.frames, Notification(|c.fates|, m.buf));
    assert NoticeOk(m);
  }

  lemma OneMore(ps: seq<Piece>, p: Piece)
    ensures ps + [p] != ps
  {
    assert |ps + [p]| == |ps| + 1;
  }

  lemma FirstStays(c: Conn, buf: seq<byte>, n: Io)
    requires CoreOk(c.core) && c.core.phase == Notifing && c.core.notices != []
    ensures var d := Next(c, Queue(buf, n));
            d.core.phase == Notifing && d.core.notices != [] && d.core.notices[0] == c.core.notices[0]
  {
  }

  predicate RequestMoves(ev: Event) { ev.Work? ==> ev.a.r1.Moves? && ev.a.xmlOk }

  /** As long as each call reads a byte, a request whose bytes have arrived is dispatched
      after at most as many calls as its body lacks bytes. */
  lemma {:induction false} RequestDispatched(c: Conn, es: seq<Event>)
    requires ReadingAt(c) && Want(c.core) <= |c.inbox| && Works(es) >= Want(c.core)
    requires forall ev :: ev in es ==> RequestMoves(ev)
    ensures c.requests + [Decode(c.core.parser.hd)] <= Run(c, es).requests
    decreases |es|
  {
    assert es != [] && RequestMoves(es[0]);
    StepWire(c, es[0]);
    var d := Next(c, es[0]);
    ReadingStep(c, es[0]);
    if c.requests + [Decode(c.core.parser.hd)] <= d.requests {
      RunGrows(d, es[1..]);
    } else {
      RequestDispatched(d, es[1..]);
    }
  }

  lemma ReadingStep(c: Conn, ev: Event)
    requires ReadingAt(c) && Want(c.core) <= |c.inbox| && RequestMoves(ev)
    ensures var d := Next(c, ev);
            || c.requests + [Decode(c.core.parser.hd)] <= d.requests
            || (ReadingAt(d) && d.requests == c.requests && d.core.parser.hd == c.core.parser.hd && Want(d.core) <= |d.inbox|
                && Want(d.core) + (if ev.Work? then 1 else 0) <= Want(c.core))
  {
    match ev
    case Arrive(b) => StepWire(c, ev);
    case Queue(buf, n) => StepWire(c, ev); QueueBehind(c, buf, n);
    case Work(a) =>
      if Brings(a.r1, Want(c.core), |c.inbox|) == Want(c.core) {
        ReadThenSend(c, a);
        StepGrows(Asked(c, a), ev);
      } else {
        ReadingGoesOn(c, a);
      }
  }

  /** A request served: from iostIdle, with a good header whole in the first read and its
      body arrived, a client that moves something in every call dispatches it, answers it
      with its own fields and is idle again. */
  lemma RequestServed(c: Conn, es: seq<Event>, a: Answers) returns (j: nat)
    requires Live(c) && c.core.phase == Idle && RepliesOk(c) && HEADER_LEN <= |c.inbox|
    requires HeaderOk(c.inbox[..HEADER_LEN]) && 0 < BodyLen(c.inbox[..HEADER_LEN]) <= |c.inbox| - HEADER_LEN
    requires es != [] && es[0] == Work(a) && Accepts(a.r1, HEADER_LEN) == HEADER_LEN && a.r2.Moves? && AllMoving(es)
    requires Works(es) >= BodyLen(c.inbox[..HEADER_LEN]) + HEADER_LEN + 0xFFFF + Queued(es)
    ensures 0 < j <= |es|
    ensures var d, i := Run(c, es[..j]), |c.requests|;
            && Live(d) && d.core.phase == Idle && c.frames <= d.frames
            && i < |d.requests| == |d.texts| == |Replies(d.frames)|
            && d.requests[i] == Decode(c.inbox[..HEADER_LEN])
            && AnswersRequest(Replies(d.frames)[i], Decode(c.inbox[..HEADER_LEN]), d.texts[i])
  {
    HeadThenRead(c, a);
    HeadedBusy(c);
    var fs := FromBody(es, a);
    j := ComesBack(Headed(c), fs);
    assert j > 0;
    SameTail(es, fs, j);
    Served(c, es[..j], fs[..j]);
  }

  lemma SameTail(es: seq<Event>, fs: seq<Event>, j: nat)
    requires es != [] && fs != [] && es[1..] == fs[1..] && 0 < j <= |es|
    ensures |fs| == |es| && es[..j][1..] == fs[..j][1..] && es[..j][0] == es[0] && fs[..j][0] == fs[0]
  {
    assert |es[1..]| == |fs[1..]|;
    assert es[..j][1..] == es[1..][..j - 1];
    assert fs[..j][1..] == fs[1..][..j - 1];
  }

  lemma HeadedBusy(c: Conn)
    requires HEADER_LEN <= |c.inbox| && ReadingAt(Headed(c)) && BodyLen(c.inbox[..HEADER_LEN]) <= |c.inbox| - HEADER_LEN
    requires c.core.notices == []
    ensures Busy(Headed(c)) && Due(Headed(c)) == BodyLen(c.inbox[..HEADER_LEN]) + HEADER_LEN + 0xFFFF
  {
  }

  /** The events as they are met once the header is in. */
  lemma FromBody(es: seq<Event>, a: Answers) returns (fs: seq<Event>)
    requires es != [] && es[0] == Work(a) && a.r2.Moves? && AllMoving(es)
    ensures |fs| == |es| && fs[0] == Work(a.(r1 := a.r2)) && fs[1..] == es[1..]
    ensures Works(es) == Works(fs) && Queued(es) == Queued(fs) && AllMoving(fs)
  {
    fs := [Work(a.(r1 := a.r2))] + es[1..];
    assert fs[1..] == es[1..] && Moving(es[0]);
    SameAfterFirst(es, fs);
  }

  lemma SameAfterFirst(es: seq<Event>, fs: seq<Event>)
    requires es != [] && fs != [] && es[0].Work? && fs[0].Work? && es[1..] == fs[1..] && AllMoving(es) && Moving(fs[0])
    ensures Works(es) == Works(fs) && Queued(es) == Queued(fs) && AllMoving(fs)
  {
    forall ev | ev in fs
      ensures Moving(ev)
    {
      if ev != fs[0] {
        assert ev in fs[1..];
      }
    }
  }

  lemma Served(c: Conn, es: seq<Event>, fs: seq<Event>)
    requires Live(c) && c.core.phase == Idle && RepliesOk(c) && HEADER_LEN <= |c.inbox| && ReadingAt(Headed(c))
    requires es != [] && fs != [] && es[1..] == fs[1..] && Next(c, es[0]) == Next(Headed(c), fs[0])
    requires var d := Run(Headed(c), fs); Live(d) && d.core.phase == Idle && GotOn(Headed(c), d)
    ensures var d, i := Run(c, es), |c.requests|;
            && d == Run(Headed(c), fs)
            && i < |d.requests| == |d.texts| == |Replies(d.frames)|
            && d.requests[i] == Decode(c.inbox[..HEADER_LEN])
            && AnswersRequest(Replies(d.frames)[i], Decode(c.inbox[..HEADER_LEN]), d.texts[i])
  {
    var d, i := Run(c, es), |c.requests|;
    RunReplies(c, es);
    assert (c.requests + [Decode(c.inbox[..HEADER_LEN])])[i] == d.requests[i];
    FrameAnswers(d.requests[i], d.texts[i]);
  }

  lemma {:induction false} RunReplies(c: Conn, es: seq<Event>)
    requires WireOk(c) && QueueOk(c) && RepliesOk(c)
    ensures RepliesOk(Run(c, es))
    decreases |es|
  {
    if es != [] {
      StepWire(c, es[0]);
      StepReplies(c, es[0]);
      RunReplies(Next(c, es[0]), es[1..]);
    }
  }
}
