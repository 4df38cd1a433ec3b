/**
 The I/O machine of CClient: one socket carries the response to the current request
 and the notifications queued by others. Every entry point runs under _iolk, so
 each call is one step.
 */
module ClientIo {
  import opened Prelude
  import opened Header
  import opened Framing
  import opened FrameStream

  datatype Phase = Idle | Reading | Sending | Notifing

  /** The fields of CClient that I/O uses. */
  datatype Core = Core(phase: Phase, parser: Parser, packer: Packer, notices: seq<Notice>)

  /** What one call did: the new fields, the bytes given to and taken from the
      socket, the return value, the request it dispatched, the response frame it
      completed, and whether the first notification left whole or was dropped. */
  datatype Effect = Effect(
    core: Core, out: seq<byte>, took: nat, ret: bool,
    request: Option<Header>, replied: Option<seq<byte>>, fate: Option<bool>)

  /** Answers of the environment during one doWork: two reads, the outcome of the
      XML parse, the text of the response, two sends of it, one of a notification. */
  datatype Answers = Answers(r1: Io, r2: Io, xmlOk: bool, reply: seq<byte>, s1: Io, s2: Io, n: Io)

  const NEW_CORE: Core := Core(Idle, FREE_PARSER, Packer(Encode(BLANK), [], 0, SdHd), [])

  predicate NoticesOk(ms: seq<Notice>) {
    forall i :: 0 <= i < |ms| ==> NoticeOk(ms[i]) && (i > 0 ==> ms[i].pos == 0)
  }

  function DoNotify(c: Core, io: Io): Effect
    requires NoticesOk(c.notices)
  {
    if c.notices == [] then Effect(c.(phase := Idle), [], 0, true, None, None, None)
    else
      var (m, out, st) := SendNotice(c.notices[0], io);
      match st
      case NoticeError =>
        Effect(c.(phase := Notifing, notices := c.notices[1..]), out, 0, false, None, None, Some(false))
      case NoticeDone =>
        var rest := c.notices[1..];
        Effect(c.(phase := if rest == [] then Idle else Notifing, notices := rest), out, 0, true, None, None, Some(true))
      case NoticeAgain =>
        Effect(c.(phase := Notifing, notices := c.notices[0 := m]), out, 0, true, None, None, None)
  }

  function DoSend(c: Core, s1: Io, s2: Io, n: Io): Effect
    requires NoticesOk(c.notices) && PackerOk(c.packer)
  {
    var (q, out) := Send(c.packer, s1, s2);
    if q.st == SdError then Effect(c.(phase := Sending, packer := q), out, 0, false, None, None, None)
    else if q.st == SdOk then
      var e := DoNotify(c.(phase := Sending, packer := Packer(q.head, [], 0, SdHd), parser := FREE_PARSER), n);
      e.(out := out + e.out, replied := Some(Frame(c.packer)))
    else Effect(c.(phase := Sending, packer := q), out, 0, true, None, None, None)
  }

  /** doread. The test for "wait for more" compares with st_rdbd and then takes the
      constant st_rdhd for a truth value, which is zero: a header that has not
      arrived whole goes on to parse() and is refused. */
  function DoRead(c: Core, inbox: seq<byte>, a: Answers): (e: Effect)
    requires NoticesOk(c.notices) && ParserOk(c.parser)
    ensures e.took <= |inbox|
  {
    var (q, n) := Read(c.parser, inbox, a.r1, a.r2);
    var read := c.(phase := Reading, parser := q);
    if q.st == RdError || q.st == HdError then Effect(read, [], n, false, None, None, None)
    else if q.st == RdBd then Effect(read, [], n, true, None, None, None)
    else if q.st != RdOk || |q.hd| != HEADER_LEN || !a.xmlOk then Effect(read, [], n, false, None, None, None)
    else
      var h := Decode(q.hd);
      PackIsOk(a.reply, h);
      var e := DoSend(read.(packer := Pack(a.reply, h.seqno, h.udata, h.secret1, h.secret2)), a.s1, a.s2, a.n);
      e.(took := n, request := Some(h))
  }

  lemma PackIsOk(text: seq<byte>, h: Header)
    ensures PackerOk(Pack(text, h.seqno, h.udata, h.secret1, h.secret2))
  {
    PackedTextArrivesIff(text, h.seqno, h.udata, h.secret1, h.secret2);
  }

  predicate CoreOk(c: Core) {
    && NoticesOk(c.notices) && ParserOk(c.parser)
    && (c.phase == Sending ==> PackerOk(c.packer))
  }

  function DoWork(c: Core, inbox: seq<byte>, a: Answers): (e: Effect)
    requires CoreOk(c)
    ensures e.took <= |inbox|
  {
    match c.phase
    case Idle => DoRead(c, inbox, a)
    case Reading => DoRead(c, inbox, a)
    case Sending => DoSend(c, a.s1, a.s2, a.n)
    case Notifing => DoNotify(c, a.n)
  }

  function QueueNotification(c: Core, buf: seq<byte>, n: Io): Effect
    requires CoreOk(c)
  {
    var q := c.(notices := c.notices + [Notice(buf, 0)]);
    if c.phase == Idle then DoNotify(q, n) else Effect(q, [], 0, true, None, None, None)
  }

  // ----- a connection over its whole life ---------------------------------------------

  datatype Piece = Response(bytes: seq<byte>) | Notification(k: nat, bytes: seq<byte>)

  /** The client and the history of its connection: what is still to be read, all
      that was written, the frames completed in it, the requests dispatched with the
      texts of their responses, and what became of the notifications queued. */
  datatype Conn = Conn(
    core: Core, alive: bool, inbox: seq<byte>, wire: seq<byte>, frames: seq<Piece>,
    requests: seq<Header>, texts: seq<seq<byte>>, queued: seq<seq<byte>>, fates: seq<bool>)

  datatype Event = Arrive(bytes: seq<byte>) | Work(a: Answers) | Queue(buf: seq<byte>, n: Io)

  const NEW_CONN: Conn := Conn(NEW_CORE, true, [], [], [], [], [], [], [])

  /** The frames an effect completes. */
  function Completed(c: Conn, e: Effect): seq<Piece> {
    var note :=
      if e.fate == Some(true) && |c.fates| < |c.queued| then [Notification(|c.fates|, c.queued[|c.fates|])] else [];
    if e.replied.Some? then [Response(e.replied.value)] + note else note
  }

  function Apply(c: Conn, e: Effect): Conn {
    c.(core := e.core, wire := c.wire + e.out, frames := c.frames + Completed(c, e),
       inbox := if e.took <= |c.inbox| then c.inbox[e.took..] else [],
       requests := c.requests + (if e.request.Some? then [e.request.value] else []),
       fates := c.fates + (if e.fate.Some? then [e.fate.value] else []))
  }

  /** doWork is not called again once it has returned false; notifications can still
      be queued, and what their first send returns is ignored. */
  function Next(c: Conn, ev: Event): Conn
    requires CoreOk(c.core)
  {
    match ev
    case Arrive(b) => c.(inbox := c.inbox + b)
    case Work(a) =>
      if !c.alive then c
      else
        var e := DoWork(c.core, c.inbox, a);
        Apply(c, e).(alive := e.ret, texts := c.texts + (if e.request.Some? then [a.reply] else []))
    case Queue(buf, n) => Apply(c.(queued := c.queued + [buf]), QueueNotification(c.core, buf, n))
  }

  function Join(ps: seq<Piece>): seq<byte> {
    if ps == [] then [] else Join(ps[..|ps| - 1]) + ps[|ps| - 1].bytes
  }

  lemma JoinAppend(ps: seq<Piece>, p: Piece)
    ensures Join(ps + [p]) == Join(ps) + p.bytes
  {
    assert (ps + [p])[..|ps|] == ps;
  }

  /** What is on the wire of the frame being sent. */
  function Progress(c: Core): seq<byte>
    requires CoreOk(c)
  {
    match c.phase
    case Sending => Frame(c.packer)[..Min(Sent(c.packer), |Frame(c.packer)|)]
    case Notifing => if c.notices == [] then [] else c.notices[0].buf[..c.notices[0].pos]
    case _ => []
  }

  // ----- the phases ----------------------------------------------------------------------

  /** The phase says what is under way. */
  ghost predicate PhaseOk(c: Core, alive: bool) {
    && CoreOk(c)
    && (c.phase == Idle ==> c.notices == [] && alive)
    && (alive && c.phase != Notifing && c.notices != [] ==> c.notices[0].pos == 0)
    && (alive ==>
          match c.phase
          case Idle => c.parser == FREE_PARSER
          case Reading => c.parser.st == RdBd
          case Sending => c.packer.st == SdHd || c.packer.st == SdBd
          case Notifing => c.parser == FREE_PARSER)
  }

  lemma NoticesShift(ms: seq<Notice>, m: Notice)
    requires NoticesOk(ms) && ms != []
    ensures NoticesOk(ms[1..]) && (NoticeOk(m) ==> NoticesOk(ms[0 := m]))
  {
  }

  lemma NotifingOk(c: Core)
    requires NoticesOk(c.notices) && c.parser == FREE_PARSER && c.phase == Notifing
    ensures PhaseOk(c, true) && PhaseOk(c, false)
  {
  }

  lemma IdleOk(c: Core)
    requires c.notices == [] && c.parser == FREE_PARSER && c.phase == Idle
    ensures PhaseOk(c, true)
  {
  }

  lemma NotifyPhase(c: Core, io: Io)
    requires NoticesOk(c.notices) && c.parser == FREE_PARSER
    ensures PhaseOk(DoNotify(c, io).core, DoNotify(c, io).ret)
    ensures PhaseOk(DoNotify(c, io).core, true)
  {
    var d := DoNotify(c, io).core;
    if c.notices != [] {
      SendNoticeContinues(c.notices[0], io);
      NoticesShift(c.notices, SendNotice(c.notices[0], io).0);
    }
    if d.phase == Idle {
      IdleOk(d);
    } else {
      NotifingOk(d);
    }
  }

  lemma SendPhase(c: Core, s1: Io, s2: Io, n: Io)
    requires NoticesOk(c.notices) && PackerOk(c.packer) && ParserOk(c.parser)
    requires c.packer.st == SdHd || c.packer.st == SdBd
    requires c.notices != [] ==> c.notices[0].pos == 0
    ensures PhaseOk(DoSend(c, s1, s2, n).core, DoSend(c, s1, s2, n).ret)
  {
    SendContinuesFrame(c.packer, s1, s2);
    var (q, _) := Send(c.packer, s1, s2);
    if q.st == SdOk {
      NotifyPhase(c.(phase := Sending, packer := Packer(q.head, [], 0, SdHd), parser := FREE_PARSER), n);
    }
  }

  lemma ReadPhase(c: Core, inbox: seq<byte>, a: Answers)
    requires CoreOk(c) && (c.notices != [] ==> c.notices[0].pos == 0)
    ensures PhaseOk(DoRead(c, inbox, a).core, DoRead(c, inbox, a).ret)
  {
    var q := Read(c.parser, inbox, a.r1, a.r2).0;
    if q.st == RdOk && |q.hd| == HEADER_LEN && a.xmlOk {
      var h := Decode(q.hd);
      PackIsOk(a.reply, h);
      SendPhase(c.(phase := Reading, parser := q, packer := Pack(a.reply, h.seqno, h.udata, h.secret1, h.secret2)),
                a.s1, a.s2, a.n);
    }
  }

  lemma WorkPhase(c: Core, inbox: seq<byte>, a: Answers)
    requires PhaseOk(c, true)
    ensures PhaseOk(DoWork(c, inbox, a).core, DoWork(c, inbox, a).ret)
  {
    match c.phase
    case Idle => ReadPhase(c, inbox, a);
    case Reading => ReadPhase(c, inbox, a);
    case Sending => SendPhase(c, a.s1, a.s2, a.n);
    case Notifing => NotifyPhase(c, a.n);
  }

  lemma QueuePhase(c: Core, alive: bool, buf: seq<byte>, n: Io)
    requires PhaseOk(c, alive)
    ensures PhaseOk(QueueNotification(c, buf, n).core, alive)
  {
    if c.phase == Idle {
      NotifyPhase(c.(notices := c.notices + [Notice(buf, 0)]), n);
    }
  }

  lemma StepPhase(c: Conn, ev: Event)
    requires PhaseOk(c.core, c.alive)
    ensures PhaseOk(Next(c, ev).core, Next(c, ev).alive)
  {
    match ev
    case Arrive(_) =>
    case Work(a) =>
      if c.alive {
        WorkPhase(c.core, c.inbox, a);
      }
    case Queue(buf, n) => QueuePhase(c.core, c.alive, buf, n);
  }

  function Run(c: Conn, es: seq<Event>): Conn
    requires PhaseOk(c.core, c.alive)
    decreases |es|
  {
    if es == [] then c else StepPhase(c, es[0]); Run(Next(c, es[0]), es[1..])
  }

  // ----- whole frames on the wire ---------------------------------------------------------

  /** The frame a connection was sending when it died. */
  function Doomed(c: Conn): seq<byte>
    requires c.core.phase == Sending ==> PackerOk(c.core.packer)
  {
    match c.core.phase
    case Sending => Frame(c.core.packer)
    case Notifing => if 0 < |c.fates| <= |c.queued| then c.queued[|c.fates| - 1] else []
    case _ => []
  }

  /** The list of notifications is the end of what was queued. */
  ghost predicate QueueOk(c: Conn) {
    && |c.queued| == |c.fates| + |c.core.notices|
    && forall i :: 0 <= i < |c.core.notices| ==> c.core.notices[i].buf == c.queued[|c.fates| + i]
  }

  /** Whole frames, then the beginning of at most one more. */
  ghost predicate WireOk(c: Conn) {
    && PhaseOk(c.core, c.alive)
    && Join(c.frames) <= c.wire
    && (c.alive ==> c.wire == Join(c.frames) + Progress(c.core))
    && (!c.alive ==> c.wire[|Join(c.frames)|..] <= Doomed(c))
  }

  /** What is on the wire of the first notification. */
  function FirstSent(c: Core): seq<byte>
    requires NoticesOk(c.notices)
  {
    if c.notices == [] then [] else c.notices[0].buf[..c.notices[0].pos]
  }

  /** What donotify may do to the wire and the list. */
  ghost predicate NotifyFits(c: Core, e: Effect)
    requires NoticesOk(c.notices)
  {
    && PhaseOk(e.core, e.ret) && PhaseOk(e.core, true)
    && e.request == None && e.replied == None
    && match e.fate
       case None =>
         && e.ret && FirstSent(c) + e.out == Progress(e.core)
         && |e.core.notices| == |c.notices|
         && forall i :: 0 <= i < |c.notices| ==> e.core.notices[i].buf == c.notices[i].buf
       case Some(whole) =>
         && c.notices != [] && e.core.notices == c.notices[1..] && e.ret == whole
         && if whole then FirstSent(c) + e.out == c.notices[0].buf && Progress(e.core) == []
            else e.out == [] && e.core.phase == Notifing
  }

  lemma NotifyWire(c: Core, io: Io)
    requires NoticesOk(c.notices) && c.parser == FREE_PARSER
    ensures NotifyFits(c, DoNotify(c, io))
  {
    NotifyPhase(c, io);
    if c.notices != [] {
      SendNoticeContinues(c.notices[0], io);
    }
  }

  lemma QueueShift(c: Conn, e: Effect)
    requires QueueOk(c) && NoticesOk(c.core.notices) && NotifyFits(c.core, e)
    ensures QueueOk(Apply(c, e))
  {
  }

  lemma NothingCompleted(c: Conn, e: Effect)
    requires e.replied == None && e.fate != Some(true)
    ensures c.frames + Completed(c, e) == c.frames
  {
    assert Completed(c, e) == [];
  }

  lemma NotifyAgainWire(c: Conn, e: Effect)
    requires QueueOk(c) && NoticesOk(c.core.notices) && NotifyFits(c.core, e) && e.fate == None
    requires c.wire == Join(c.frames) + FirstSent(c.core)
    ensures WireOk(Apply(c, e).(alive := e.ret)) && WireOk(Apply(c, e).(alive := true))
  {
    NothingCompleted(c, e);
  }

  lemma NotifyDoneWire(c: Conn, e: Effect)
    requires QueueOk(c) && NoticesOk(c.core.notices) && NotifyFits(c.core, e) && e.fate == Some(true)
    requires c.wire == Join(c.frames) + FirstSent(c.core)
    ensures WireOk(Apply(c, e).(alive := e.ret)) && WireOk(Apply(c, e).(alive := true))
  {
    var p := Notification(|c.fates|, c.queued[|c.fates|]);
    assert Completed(c, e) == [p];
    JoinAppend(c.frames, p);
    Regroup(Join(c.frames), FirstSent(c.core), e.out);
    WholeWire(Apply(c, e).(alive := e.ret));
    WholeWire(Apply(c, e).(alive := true));
  }

  /** Nothing but whole frames is well formed. */
  lemma WholeWire(c: Conn)
    requires PhaseOk(c.core, c.alive) && c.alive && c.wire == Join(c.frames) && Progress(c.core) == []
    ensures WireOk(c)
  {
  }

  /** Whole frames and a part of the doomed one. */
  lemma DeadWire(c: Conn, part: seq<byte>)
    requires PhaseOk(c.core, c.alive) && !c.alive && c.wire == Join(c.frames) + part && part <= Doomed(c)
    ensures WireOk(c)
  {
    TakeDrop(Join(c.frames), part);
  }

  lemma NotifyDroppedWire(c: Conn, e: Effect)
    requires QueueOk(c) && NoticesOk(c.core.notices) && NotifyFits(c.core, e) && e.fate == Some(false)
    requires c.wire == Join(c.frames) + FirstSent(c.core)
    ensures WireOk(Apply(c, e).(alive := e.ret))
    ensures c.core.notices[0].pos == 0 ==> WireOk(Apply(c, e).(alive := true))
  {
    NothingCompleted(c, e);
    NotifyDroppedNext(c, e);
    var d := Apply(c, e);
    assert d.wire == c.wire;
    DeadWire(d.(alive := e.ret), FirstSent(c.core));
    if c.core.notices[0].pos == 0 {
      WholeWire(d.(alive := true));
    }
  }

  /** The notification after a dropped one starts from its beginning. */
  lemma NotifyDroppedNext(c: Conn, e: Effect)
    requires NoticesOk(c.core.notices) && NotifyFits(c.core, e) && e.fate == Some(false)
    ensures Progress(e.core) == []
  {
  }

  lemma NotifyWireOk(c: Conn, n: Io)
    requires QueueOk(c) && NoticesOk(c.core.notices) && c.core.parser == FREE_PARSER
    requires c.wire == Join(c.frames) + FirstSent(c.core)
    ensures var e := DoNotify(c.core, n);
            && WireOk(Apply(c, e).(alive := e.ret)) && QueueOk(Apply(c, e))
            && (c.core.notices != [] && c.core.notices[0].pos == 0 ==> WireOk(Apply(c, e).(alive := true)))
  {
    NotifyWire(c.core, n);
    var e := DoNotify(c.core, n);
    QueueShift(c, e);
    match e.fate
    case None => NotifyAgainWire(c, e);
    case Some(whole) =>
      if whole {
        NotifyDoneWire(c, e);
      } else {
        NotifyDroppedWire(c, e);
      }
  }

  /** The fields between a completed response and donotify. */
  function Answered(c: Core): Core {
    c.(phase := Sending, packer := Packer(c.packer.head, [], 0, SdHd), parser := FREE_PARSER)
  }

  predicate MaySend(c: Core) {
    && NoticesOk(c.notices) && ParserOk(c.parser) && PackerOk(c.packer)
    && (c.packer.st == SdHd || c.packer.st == SdBd)
    && Sent(c.packer) <= |Frame(c.packer)|
    && (c.notices != [] ==> c.notices[0].pos == 0)
  }

  /** Sending can begin or go on: everything before is whole frames and the part of
      the response already sent. */
  ghost predicate CanSend(c: Conn) {
    && QueueOk(c) && MaySend(c.core)
    && c.wire == Join(c.frames) + Frame(c.core.packer)[..Sent(c.core.packer)]
  }

  /** One send in terms of the frame alone. */
  lemma SendMoves(p: Packer, s1: Io, s2: Io)
    requires PackerOk(p) && (p.st == SdHd || p.st == SdBd) && Sent(p) <= |Frame(p)|
    ensures var (q, out) := Send(p, s1, s2);
            && PackerOk(q) && Frame(q) == Frame(p) && Sent(p) + |out| <= |Frame(p)|
            && Frame(p)[..Sent(p)] + out == Frame(p)[..Sent(p) + |out|]
            && (q.st == SdOk ==> Sent(p) + |out| == |Frame(p)|)
            && (q.st == SdHd || q.st == SdBd ==> Sent(q) == Sent(p) + |out|)
  {
    SendContinuesFrame(p, s1, s2);
  }

  /** What dosend may do when it does not finish the response. */
  ghost predicate UnfinishedFits(c: Core, e: Effect)
    requires MaySend(c)
  {
    && PhaseOk(e.core, e.ret) && e.core.phase == Sending && e.core.notices == c.notices
    && e.request == None && e.replied == None && e.fate == None
    && Frame(e.core.packer) == Frame(c.packer)
    && Frame(c.packer)[..Sent(c.packer)] + e.out <= Frame(c.packer)
    && (e.ret ==> Frame(c.packer)[..Sent(c.packer)] + e.out == Progress(e.core))
  }

  lemma UnfinishedSend(c: Core, s1: Io, s2: Io, n: Io)
    requires MaySend(c) && Send(c.packer, s1, s2).0.st != SdOk
    ensures UnfinishedFits(c, DoSend(c, s1, s2, n))
  {
    SendMoves(c.packer, s1, s2);
    SendPhase(c, s1, s2, n);
  }

  /** Finishing the response is sending the rest of its frame, then donotify. */
  lemma FinishedSend(c: Core, s1: Io, s2: Io, n: Io)
    requires MaySend(c) && Send(c.packer, s1, s2).0.st == SdOk
    ensures var f, e1 := Frame(c.packer), DoNotify(Answered(c), n);
            DoSend(c, s1, s2, n) == e1.(out := f[Sent(c.packer)..] + e1.out, replied := Some(f))
  {
    SendMoves(c.packer, s1, s2);
    SendContinuesFrame(c.packer, s1, s2);
    var (q, out) := Send(c.packer, s1, s2);
    assert out == Frame(c.packer)[Sent(c.packer)..];
  }

  lemma UnfinishedWire(c: Conn, e: Effect)
    requires CanSend(c) && UnfinishedFits(c.core, e)
    ensures WireOk(Apply(c, e).(alive := e.ret))
  {
    var part := Frame(c.core.packer)[..Sent(c.core.packer)] + e.out;
    assert Completed(c, e) == [] && c.frames + [] == c.frames;
    assert c.wire + e.out == Join(c.frames) + part;
    assert (Join(c.frames) + part)[|Join(c.frames)|..] == part;
  }

  lemma UnfinishedQueue(c: Conn, e: Effect)
    requires CanSend(c) && UnfinishedFits(c.core, e)
    ensures QueueOk(Apply(c, e))
  {
  }

  lemma Regroup<T>(a: seq<T>, b: seq<T>, x: seq<T>)
    ensures a + (b + x) == (a + b) + x
  {
  }

  /** The rest of a frame after its beginning is the frame. */
  lemma SendRest(a: seq<byte>, f: seq<byte>, k: nat, x: seq<byte>)
    requires k <= |f|
    ensures (a + f[..k]) + (f[k..] + x) == (a + f) + x
  {
    SplitAt(f, k);
    Regroup(a + f[..k], f[k..], x);
    Regroup(a, f[..k], f[k..]);
  }

  /** A response completed and a notification effect, applied one after the other. */
  lemma AnsweredApply(c: Conn, e1: Effect)
    requires CanSend(c) && e1.replied == None
    ensures var f := Frame(c.core.packer);
            var c1 := c.(core := Answered(c.core), wire := Join(c.frames) + f, frames := c.frames + [Response(f)]);
            && c1.wire == Join(c1.frames)
            && Apply(c, e1.(out := f[Sent(c.core.packer)..] + e1.out, replied := Some(f))) == Apply(c1, e1)
  {
    var f := Frame(c.core.packer);
    var r := Response(f);
    var e := e1.(out := f[Sent(c.core.packer)..] + e1.out, replied := Some(f));
    var c1 := c.(core := Answered(c.core), wire := Join(c.frames) + f, frames := c.frames + [r]);
    JoinAppend(c.frames, r);
    SendRest(Join(c.frames), f, Sent(c.core.packer), e1.out);
    Regroup(c.frames, [r], Completed(c1, e1));
  }

  lemma SendWireOk(c: Conn, s1: Io, s2: Io, n: Io)
    requires CanSend(c)
    ensures var e := DoSend(c.core, s1, s2, n);
            WireOk(Apply(c, e).(alive := e.ret)) && QueueOk(Apply(c, e))
  {
    if Send(c.core.packer, s1, s2).0.st == SdOk {
      FinishedSend(c.core, s1, s2, n);
      var f, e1 := Frame(c.core.packer), DoNotify(Answered(c.core), n);
      NotifyWire(Answered(c.core), n);
      AnsweredApply(c, e1);
      var c1 := c.(core := Answered(c.core), wire := Join(c.frames) + f, frames := c.frames + [Response(f)]);
      assert c1.wire == Join(c1.frames) + [];
      NotifyWireOk(c1, n);
    } else {
      UnfinishedSend(c.core, s1, s2, n);
      UnfinishedWire(c, DoSend(c.core, s1, s2, n));
      UnfinishedQueue(c, DoSend(c.core, s1, s2, n));
    }
  }

  lemma PackStart(text: seq<byte>, h: Header)
    ensures var p := Pack(text, h.seqno, h.udata, h.secret1, h.secret2);
            PackerOk(p) && p.st == SdHd && Sent(p) == 0
  {
    PackIsOk(text, h);
  }

  /** The fields with which the response to a dispatched request starts. */
  function Dispatched(c: Core, inbox: seq<byte>, a: Answers): Core
    requires ParserOk(c.parser) && |Read(c.parser, inbox, a.r1, a.r2).0.hd| == HEADER_LEN
  {
    var q := Read(c.parser, inbox, a.r1, a.r2).0;
    var h := Decode(q.hd);
    c.(phase := Reading, parser := q, packer := Pack(a.reply, h.seqno, h.udata, h.secret1, h.secret2))
  }

  lemma DispatchSplits(c: Core, inbox: seq<byte>, a: Answers)
    requires CoreOk(c) && (c.notices != [] ==> c.notices[0].pos == 0)
    requires DoRead(c, inbox, a).request.Some?
    ensures |Read(c.parser, inbox, a.r1, a.r2).0.hd| == HEADER_LEN
    ensures MaySend(Dispatched(c, inbox, a)) && Sent(Dispatched(c, inbox, a).packer) == 0
    ensures var e := DoRead(c, inbox, a);
            e == DoSend(Dispatched(c, inbox, a), a.s1, a.s2, a.n).(took := e.took, request := e.request)
  {
    PackStart(a.reply, Decode(Read(c.parser, inbox, a.r1, a.r2).0.hd));
  }

  /** What a call read does not matter to the wire. */
  lemma ReadingIgnored(c: Conn, core: Core, e: Effect, e1: Effect)
    requires e == e1.(took := e.took, request := e.request)
    requires var d := Apply(c.(core := core), e1).(alive := e1.ret); WireOk(d) && QueueOk(d)
    ensures WireOk(Apply(c, e).(alive := e.ret)) && QueueOk(Apply(c, e))
  {
    assert Completed(c, e) == Completed(c.(core := core), e1);
    SameWire(Apply(c.(core := core), e1).(alive := e1.ret), Apply(c, e).(alive := e.ret));
  }

  lemma DispatchCanSend(c: Conn, a: Answers)
    requires WireOk(c) && QueueOk(c) && c.alive && (c.core.phase == Idle || c.core.phase == Reading)
    requires DoRead(c.core, c.inbox, a).request.Some?
    ensures |Read(c.core.parser, c.inbox, a.r1, a.r2).0.hd| == HEADER_LEN
    ensures CanSend(c.(core := Dispatched(c.core, c.inbox, a)))
  {
    DispatchSplits(c.core, c.inbox, a);
    assert Frame(Dispatched(c.core, c.inbox, a).packer)[..0] == [];
    assert Join(c.frames) + [] == c.wire;
  }

  /** A request that is dispatched: its response starts from the first byte. */
  lemma DispatchWire(c: Conn, core: Core, e: Effect, s1: Io, s2: Io, n: Io)
    requires CanSend(c.(core := core))
    requires e == DoSend(core, s1, s2, n).(took := e.took, request := e.request)
    ensures WireOk(Apply(c, e).(alive := e.ret)) && QueueOk(Apply(c, e))
  {
    SendWireOk(c.(core := core), s1, s2, n);
    ReadingIgnored(c, core, e, DoSend(core, s1, s2, n));
  }

  lemma ReadWireOk(c: Conn, a: Answers)
    requires WireOk(c) && QueueOk(c) && c.alive && (c.core.phase == Idle || c.core.phase == Reading)
    ensures var e := DoRead(c.core, c.inbox, a);
            WireOk(Apply(c, e).(alive := e.ret)) && QueueOk(Apply(c, e))
  {
    var e := DoRead(c.core, c.inbox, a);
    if e.request.Some? {
      DispatchCanSend(c, a);
      DispatchSplits(c.core, c.inbox, a);
      DispatchWire(c, Dispatched(c.core, c.inbox, a), e, a.s1, a.s2, a.n);
    } else {
      ReadPhase(c.core, c.inbox, a);
      assert Completed(c, e) == [] && c.frames + [] == c.frames;
      assert c.wire == Join(c.frames);
    }
  }

  /** The wire's condition looks only at the wire, the frames and the queue. */
  lemma SameWire(c: Conn, d: Conn)
    requires WireOk(c) && QueueOk(c)
    requires c.core == d.core && c.alive == d.alive && c.wire == d.wire && c.frames == d.frames
    requires c.queued == d.queued && c.fates == d.fates
    ensures WireOk(d) && QueueOk(d)
  {
  }

  lemma WorkEffectWireOk(c: Conn, a: Answers)
    requires WireOk(c) && QueueOk(c) && c.alive
    ensures var e := DoWork(c.core, c.inbox, a);
            WireOk(Apply(c, e).(alive := e.ret)) && QueueOk(Apply(c, e))
  {
    match c.core.phase
    case Idle => ReadWireOk(c, a);
    case Reading => ReadWireOk(c, a);
    case Sending => SendingCanSend(c); SendWireOk(c, a.s1, a.s2, a.n);
    case Notifing => NotifyWireOk(c, a.n);
  }

  lemma WorkWireOk(c: Conn, a: Answers)
    requires WireOk(c) && QueueOk(c) && c.alive
    ensures WireOk(Next(c, Work(a))) && QueueOk(Next(c, Work(a)))
  {
    WorkEffectWireOk(c, a);
    var e := DoWork(c.core, c.inbox, a);
    SameWire(Apply(c, e).(alive := e.ret), Next(c, Work(a)));
  }

  lemma SendingCanSend(c: Conn)
    requires WireOk(c) && QueueOk(c) && c.alive && c.core.phase == Sending
    ensures CanSend(c)
  {
  }

  lemma QueueIdleOk(c: Conn, buf: seq<byte>, n: Io)
    requires WireOk(c) && QueueOk(c) && c.core.phase == Idle
    ensures WireOk(Next(c, Queue(buf, n))) && QueueOk(Next(c, Queue(buf, n)))
  {
    QueuePhase(c.core, c.alive, buf, n);
    var c1 := Listed(c, buf);
    QueueIdleNext(c, buf, n);
    NotifyWireOk(c1, n);
    SameWire(Apply(c1, DoNotify(c1.core, n)).(alive := true), Next(c, Queue(buf, n)));
  }

  /** The connection with one more notification on the list. */
  function Listed(c: Conn, buf: seq<byte>): Conn {
    c.(core := c.core.(notices := c.core.notices + [Notice(buf, 0)]), queued := c.queued + [buf])
  }

  lemma QueueIdleNext(c: Conn, buf: seq<byte>, n: Io)
    requires WireOk(c) && QueueOk(c) && c.core.phase == Idle
    ensures var c1 := Listed(c, buf);
            && NoticesOk(c1.core.notices) && QueueOk(c1) && c1.core.parser == FREE_PARSER
            && c1.wire == Join(c1.frames) + FirstSent(c1.core)
            && (var d, d' := Apply(c1, DoNotify(c1.core, n)), Next(c, Queue(buf, n));
                d'.core == d.core && d'.alive && d'.wire == d.wire && d'.frames == d.frames &&
                d'.queued == d.queued && d'.fates == d.fates)
  {
  }

  lemma QueueWireOk(c: Conn, buf: seq<byte>, n: Io)
    requires WireOk(c) && QueueOk(c)
    ensures WireOk(Next(c, Queue(buf, n))) && QueueOk(Next(c, Queue(buf, n)))
  {
    if c.core.phase == Idle {
      QueueIdleOk(c, buf, n);
    } else {
      QueuePhase(c.core, c.alive, buf, n);
      var e := QueueNotification(c.core, buf, n);
      assert Completed(c.(queued := c.queued + [buf]), e) == [] && c.frames + [] == c.frames;
      QueueBehind(c, buf, n);
    }
  }

  /** Queueing behind something under way writes nothing. */
  lemma QueueBehind(c: Conn, buf: seq<byte>, n: Io)
    requires WireOk(c) && QueueOk(c) && c.core.phase != Idle
    ensures var d := Next(c, Queue(buf, n));
            && d.wire == c.wire && d.frames == c.frames && d.alive == c.alive && d.fates == c.fates
            && CoreOk(d.core) && Progress(d.core) == Progress(c.core) && Doomed(d) == Doomed(c) && QueueOk(d)
  {
  }

  lemma StepWire(c: Conn, ev: Event)
    requires WireOk(c) && QueueOk(c)
    ensures WireOk(Next(c, ev)) && QueueOk(Next(c, ev))
  {
    match ev
    case Arrive(_) => SameWire(c, Next(c, ev));
    case Work(a) =>
      if c.alive {
        WorkWireOk(c, a);
      }
    case Queue(buf, n) => QueueWireOk(c, buf, n);
  }

  lemma NewConnOk()
    ensures PhaseOk(NEW_CONN.core, NEW_CONN.alive) && WireOk(NEW_CONN) && QueueOk(NEW_CONN)
  {
  }

  lemma {:induction false} RunWire(c: Conn, es: seq<Event>)
    requires WireOk(c) && QueueOk(c)
    ensures WireOk(Run(c, es)) && QueueOk(Run(c, es))
    decreases |es|
  {
    if es != [] {
      StepWire(c, es[0]);
      RunWire(Next(c, es[0]), es[1..]);
    }
  }

  /** Whatever mix of doWork and queueNotification, whatever the socket does: the
      bytes written are whole frames and the beginning of at most one more, a response
      only in Sending and a notification only in Notifing; an idle client owes
      nothing. */
  lemma WholeFrames(es: seq<Event>)
    ensures PhaseOk(NEW_CONN.core, NEW_CONN.alive)
    ensures var c := Run(NEW_CONN, es);
            && Join(c.frames) <= c.wire
            && (var rest := c.wire[|Join(c.frames)|..];
                match c.core.phase
                case Idle => c.alive && rest == [] && c.core.notices == []
                case Reading => rest == []
                case Sending => PackerOk(c.core.packer) && rest <= Frame(c.core.packer)
                case Notifing =>
                  if c.alive then if c.core.notices == [] then rest == [] else rest <= c.core.notices[0].buf
                  else rest <= Doomed(c))
  {
    NewConnOk();
    RunWire(NEW_CONN, es);
  }

  // ----- which response, which notification -----------------------------------------------

  /** The frame that answers a request with a text. */
  function ResponseFrame(h: Header, text: seq<byte>): seq<byte> {
    PackIsOk(text, h);
    Frame(Pack(text, h.seqno, h.udata, h.secret1, h.secret2))
  }

  function Replies(ps: seq<Piece>): seq<seq<byte>> {
    if ps == [] then []
    else Replies(ps[..|ps| - 1]) + (if ps[|ps| - 1].Response? then [ps[|ps| - 1].bytes] else [])
  }

  function Notes(ps: seq<Piece>): seq<nat> {
    if ps == [] then []
    else Notes(ps[..|ps| - 1]) + (if ps[|ps| - 1].Notification? then [ps[|ps| - 1].k] else [])
  }

  /** The positions whose fate is to leave whole. */
  function Kept(fates: seq<bool>): seq<nat> {
    if fates == [] then []
    else Kept(fates[..|fates| - 1]) + (if fates[|fates| - 1] then [|fates| - 1] else [])
  }

  lemma PiecesAppend(ps: seq<Piece>, p: Piece)
    ensures Replies(ps + [p]) == Replies(ps) + (if p.Response? then [p.bytes] else [])
    ensures Notes(ps + [p]) == Notes(ps) + (if p.Notification? then [p.k] else [])
  {
    assert (ps + [p])[..|ps|] == ps;
  }

  lemma KeptAppend(fates: seq<bool>, b: bool)
    ensures Kept(fates + [b]) == Kept(fates) + (if b then [|fates|] else [])
  {
    assert (fates + [b])[..|fates|] == fates;
  }

  lemma {:induction false} KeptAscends(fates: seq<bool>)
    ensures forall i, j :: 0 <= i < j < |Kept(fates)| ==> Kept(fates)[i] < Kept(fates)[j]
    ensures forall k: nat :: k in Kept(fates) <==> k < |fates| && fates[k]
  {
    if fates != [] {
      var init := fates[..|fates| - 1];
      KeptAscends(init);
      assert forall i :: 0 <= i < |Kept(init)| ==> Kept(init)[i] in Kept(init);
      assert forall k: nat :: k < |init| ==> init[k] == fates[k];
    }
  }

  /** Every response completed answers its request, and the one under way the last. */
  ghost predicate Account(replies: seq<seq<byte>>, requests: seq<Header>, texts: seq<seq<byte>>, core: Core) {
    && |texts| == |requests|
    && |replies| + (if core.phase == Sending then 1 else 0) == |requests|
    && (forall k :: 0 <= k < |replies| ==> replies[k] == ResponseFrame(requests[k], texts[k]))
    && (core.phase == Sending ==>
          PackerOk(core.packer) && Frame(core.packer) == ResponseFrame(requests[|requests| - 1], texts[|texts| - 1]))
  }

  ghost predicate RepliesOk(c: Conn) { Account(Replies(c.frames), c.requests, c.texts, c.core) }

  ghost predicate NotesOk(c: Conn) {
    && Notes(c.frames) == Kept(c.fates)
    && |c.fates| <= |c.queued|
    && forall p :: p in c.frames && p.Notification? ==> p.k < |c.fates| && p.bytes == c.queued[p.k]
  }

  /** The frame this call owes, if any, is either completed by it or under way. */
  ghost predicate Pays(c: Core, e: Effect, owed: Option<seq<byte>>) {
    match owed
    case None => e.replied == None && e.core.phase != Sending
    case Some(f) =>
      || (e.replied == Some(f) && e.core.phase != Sending)
      || (e.replied == None && e.core.phase == Sending && PackerOk(e.core.packer) && Frame(e.core.packer) == f)
  }

  lemma SendPays(c: Core, s1: Io, s2: Io, n: Io)
    requires MaySend(c)
    ensures Pays(c, DoSend(c, s1, s2, n), Some(Frame(c.packer)))
    ensures DoSend(c, s1, s2, n).request == None
  {
    if Send(c.packer, s1, s2).0.st == SdOk {
      FinishedSend(c, s1, s2, n);
      NotifyWire(Answered(c), n);
    } else {
      UnfinishedSend(c, s1, s2, n);
    }
  }

  lemma ReadPays(c: Core, inbox: seq<byte>, a: Answers)
    requires CoreOk(c) && (c.notices != [] ==> c.notices[0].pos == 0)
    ensures var e := DoRead(c, inbox, a);
            Pays(c, e, if e.request.Some? then Some(ResponseFrame(e.request.value, a.reply)) else None)
  {
    if DoRead(c, inbox, a).request.Some? {
      DispatchSplits(c, inbox, a);
      SendPays(Dispatched(c, inbox, a), a.s1, a.s2, a.n);
    }
  }

  lemma SplitLast(ps: seq<Piece>, qs: seq<Piece>) returns (init: seq<Piece>, last: Piece)
    requires qs != []
    ensures |init| < |qs| && qs == init + [last] && ps + qs == (ps + init) + [last]
  {
    init, last := qs[..|qs| - 1], qs[|qs| - 1];
  }

  lemma {:induction false} RepliesConcat(ps: seq<Piece>, qs: seq<Piece>)
    ensures Replies(ps + qs) == Replies(ps) + Replies(qs)
    decreases |qs|
  {
    if qs == [] {
      assert ps + qs == ps;
    } else {
      var init, last := SplitLast(ps, qs);
      RepliesConcat(ps, init);
      PiecesAppend(ps + init, last);
      PiecesAppend(init, last);
    }
  }

  lemma {:induction false} NotesConcat(ps: seq<Piece>, qs: seq<Piece>)
    ensures Notes(ps + qs) == Notes(ps) + Notes(qs)
    decreases |qs|
  {
    if qs == [] {
      assert ps + qs == ps;
    } else {
      var init, last := SplitLast(ps, qs);
      NotesConcat(ps, init);
      PiecesAppend(ps + init, last);
      PiecesAppend(init, last);
    }
  }

  lemma CompletedPieces(c: Conn, e: Effect)
    ensures Replies(Completed(c, e)) == if e.replied.Some? then [e.replied.value] else []
    ensures Notes(Completed(c, e)) == if e.fate == Some(true) && |c.fates| < |c.queued| then [|c.fates|] else []
  {
    var f1 := if e.replied.Some? then [Response(e.replied.value)] else [];
    var f2 := if e.fate == Some(true) && |c.fates| < |c.queued| then [Notification(|c.fates|, c.queued[|c.fates|])] else [];
    RepliesConcat(f1, f2);
    NotesConcat(f1, f2);
    assert [] + f2 == f2;
    assert f1 != [] ==> f1[..0] == [];
    assert f2 != [] ==> f2[..0] == [];
  }

  lemma ApplyReplies(c: Conn, e: Effect)
    ensures Replies(Apply(c, e).frames) == Replies(c.frames) + (if e.replied.Some? then [e.replied.value] else [])
    ensures Notes(Apply(c, e).frames)
         == Notes(c.frames) + (if e.fate == Some(true) && |c.fates| < |c.queued| then [|c.fates|] else [])
  {
    RepliesConcat(c.frames, Completed(c, e));
    NotesConcat(c.frames, Completed(c, e));
    CompletedPieces(c, e);
  }

  lemma OldPaid(replies: seq<seq<byte>>, requests: seq<Header>, texts: seq<seq<byte>>, c: Core, e: Effect)
    requires Account(replies, requests, texts, c)
    requires Pays(c, e, if c.phase == Sending then Some(Frame(c.packer)) else None)
    ensures Account(replies + (if e.replied.Some? then [e.replied.value] else []), requests, texts, e.core)
  {
  }

  lemma NewPaid(replies: seq<seq<byte>>, requests: seq<Header>, texts: seq<seq<byte>>, c: Core, e: Effect,
                h: Header, text: seq<byte>)
    requires Account(replies, requests, texts, c) && c.phase != Sending
    requires Pays(c, e, Some(ResponseFrame(h, text)))
    ensures Account(replies + (if e.replied.Some? then [e.replied.value] else []), requests + [h], texts + [text], e.core)
  {
  }

  /** A call that dispatches nothing keeps the account of responses. */
  lemma PayOldReply(c: Conn, e: Effect)
    requires RepliesOk(c) && e.request == None
    requires Pays(c.core, e, if c.core.phase == Sending then Some(Frame(c.core.packer)) else None)
    ensures RepliesOk(Apply(c, e))
  {
    ApplyReplies(c, e);
    assert c.requests + [] == c.requests;
    OldPaid(Replies(c.frames), c.requests, c.texts, c.core, e);
  }

  lemma PayNewReply(c: Conn, e: Effect, text: seq<byte>)
    requires RepliesOk(c) && e.request.Some? && c.core.phase != Sending
    requires Pays(c.core, e, Some(ResponseFrame(e.request.value, text)))
    ensures RepliesOk(Apply(c, e).(texts := c.texts + [text]))
  {
    ApplyReplies(c, e);
    NewPaid(Replies(c.frames), c.requests, c.texts, c.core, e, e.request.value, text);
  }

  /** What a doWork owes at its end: the response it was sending, or the one to the
      request it dispatched. */
  function Owed(c: Core, e: Effect, text: seq<byte>): Option<seq<byte>>
    requires c.phase == Sending ==> PackerOk(c.packer)
  {
    if c.phase == Sending then Some(Frame(c.packer))
    else if e.request.Some? then Some(ResponseFrame(e.request.value, text))
    else None
  }

  lemma WorkPays(c: Core, inbox: seq<byte>, a: Answers)
    requires PhaseOk(c, true)
    ensures var e := DoWork(c, inbox, a);
            Pays(c, e, Owed(c, e, a.reply)) && (e.request.Some? ==> c.phase == Idle || c.phase == Reading)
  {
    match c.phase
    case Idle => ReadPays(c, inbox, a);
    case Reading => ReadPays(c, inbox, a);
    case Sending => MaySendNow(c); SendPays(c, a.s1, a.s2, a.n);
    case Notifing => NotifyWire(c, a.n);
  }

  lemma PayReply(c: Conn, e: Effect, text: seq<byte>)
    requires PhaseOk(c.core, true) && RepliesOk(c)
    requires Pays(c.core, e, Owed(c.core, e, text)) && (e.request.Some? ==> c.core.phase != Sending)
    ensures RepliesOk(Apply(c, e).(alive := e.ret, texts := c.texts + (if e.request.Some? then [text] else [])))
  {
    if e.request.Some? {
      PayNewReply(c, e, text);
    } else {
      PayOldReply(c, e);
      assert c.texts + [] == c.texts;
    }
  }

  lemma WorkReplies(c: Conn, a: Answers)
    requires PhaseOk(c.core, c.alive) && RepliesOk(c) && c.alive
    ensures RepliesOk(Next(c, Work(a)))
  {
    WorkPays(c.core, c.inbox, a);
    PayReply(c, DoWork(c.core, c.inbox, a), a.reply);
  }

  lemma QueueReplies(c: Conn, buf: seq<byte>, n: Io)
    requires WireOk(c) && QueueOk(c) && RepliesOk(c)
    ensures RepliesOk(Next(c, Queue(buf, n)))
  {
    var d := c.(queued := c.queued + [buf]);
    if c.core.phase == Idle {
      NotifyWire(c.core.(notices := c.core.notices + [Notice(buf, 0)]), n);
    }
    PayOldReply(d, QueueNotification(c.core, buf, n));
  }

  lemma StepReplies(c: Conn, ev: Event)
    requires WireOk(c) && QueueOk(c) && RepliesOk(c)
    ensures RepliesOk(Next(c, ev))
  {
    match ev
    case Arrive(_) =>
    case Work(a) =>
      if c.alive {
        WorkReplies(c, a);
      }
    case Queue(buf, n) => QueueReplies(c, buf, n);
  }

  lemma ApplyPieces(c: Conn, e: Effect)
    requires NotesOk(c) && (e.fate.Some? ==> |c.fates| < |c.queued|)
    ensures forall p :: p in Apply(c, e).frames && p.Notification? ==>
              p.k < |Apply(c, e).fates| && p.bytes == c.queued[p.k]
  {
    forall p | p in Apply(c, e).frames && p.Notification?
      ensures p.k < |Apply(c, e).fates| && p.bytes == c.queued[p.k]
    {
      if p !in c.frames {
        assert p in Completed(c, e);
      }
    }
  }

  /** An effect that has a notification to account for accounts for the first one. */
  lemma ApplyNotes(c: Conn, e: Effect)
    requires NotesOk(c) && (e.fate.Some? ==> |c.fates| < |c.queued|)
    ensures NotesOk(Apply(c, e))
  {
    ApplyReplies(c, e);
    ApplyPieces(c, e);
    if e.fate.Some? {
      KeptAppend(c.fates, e.fate.value);
    } else {
      assert c.fates + [] == c.fates;
    }
  }

  lemma SendFate(c: Core, s1: Io, s2: Io, n: Io)
    requires MaySend(c)
    ensures DoSend(c, s1, s2, n).fate.Some? ==> c.notices != []
  {
    if Send(c.packer, s1, s2).0.st == SdOk {
      FinishedSend(c, s1, s2, n);
      NotifyWire(Answered(c), n);
    }
  }

  lemma WorkFate(c: Core, inbox: seq<byte>, a: Answers)
    requires PhaseOk(c, true)
    ensures DoWork(c, inbox, a).fate.Some? ==> c.notices != []
  {
    match c.phase {
      case Sending => MaySendNow(c); SendFate(c, a.s1, a.s2, a.n);
      case Notifing => NotifyWire(c, a.n);
      case _ =>
        if DoRead(c, inbox, a).request.Some? {
          DispatchSplits(c, inbox, a);
          SendFate(Dispatched(c, inbox, a), a.s1, a.s2, a.n);
        }
    }
  }

  lemma MaySendNow(c: Core)
    requires PhaseOk(c, true) && c.phase == Sending
    ensures MaySend(c)
  {
  }

  lemma StepNotes(c: Conn, ev: Event)
    requires WireOk(c) && QueueOk(c) && NotesOk(c)
    ensures NotesOk(Next(c, ev))
  {
    match ev
    case Arrive(_) =>
    case Work(a) =>
      if c.alive {
        WorkFate(c.core, c.inbox, a);
        ApplyNotes(c, DoWork(c.core, c.inbox, a));
      }
    case Queue(buf, n) =>
      var d := c.(queued := c.queued + [buf]);
      assert NotesOk(d);
      ApplyNotes(d, QueueNotification(c.core, buf, n));
  }

  lemma {:induction false} RunHistory(c: Conn, es: seq<Event>)
    requires WireOk(c) && QueueOk(c) && RepliesOk(c) && NotesOk(c)
    ensures QueueOk(Run(c, es)) && RepliesOk(Run(c, es)) && NotesOk(Run(c, es))
    decreases |es|
  {
    if es != [] {
      StepWire(c, es[0]);
      StepReplies(c, es[0]);
      StepNotes(c, es[0]);
      RunHistory(Next(c, es[0]), es[1..]);
    }
  }

  /** The k-th response frame answers the k-th request with its own seq, user data
      and secrets; a response is owed only while it is being sent, so no request is
      dispatched over an unfinished one. */
  lemma ResponsesMatchRequests(es: seq<Event>)
    ensures PhaseOk(NEW_CONN.core, NEW_CONN.alive)
    ensures var c := Run(NEW_CONN, es);
            && |c.texts| == |c.requests|
            && |Replies(c.frames)| + (if c.core.phase == Sending then 1 else 0) == |c.requests|
            && forall k :: 0 <= k < |Replies(c.frames)| ==>
                 Replies(c.frames)[k] == ResponseFrame(c.requests[k], c.texts[k])
  {
    NewConnOk();
    RunHistory(NEW_CONN, es);
  }

  /** What stands on the wire of a response, told without the packer: the request's own
      sequence number, user data and secrets, version 1.0, the text and its length, both cut
      to 16 bits. */
  ghost predicate AnswersRequest(r: seq<byte>, h: Header, text: seq<byte>) {
    && |r| == 32 + |text| % 0x1_0000
    && Le32(r, 6) == h.seqno && Le32(r, 10) == h.udata && Le64(r, 14) == h.secret1 && Le64(r, 22) == h.secret2
    && r[0] == 32 && r[1] == 1 && r[2] == 0 && Le16(r, 4) == |text| % 0x1_0000
    && r[32..] == text[..|text| % 0x1_0000]
    && var d := Decode(r[..32]);
       && d.seqno == h.seqno && d.udata == h.udata && d.secret1 == h.secret1 && d.secret2 == h.secret2
       && d.verMajor == 1 && d.verMinor == 0 && d.datalen == |text| % 0x1_0000
  }

  /** What pack() writes into the header. */
  lemma PackedHead(h: Header, text: seq<byte>) returns (head: seq<byte>)
    ensures |head| == 32 && ResponseFrame(h, text) == head + text[..|text| % 0x1_0000]
    ensures Le32(head, 6) == h.seqno && Le32(head, 10) == h.udata && Le64(head, 14) == h.secret1 && Le64(head, 22) == h.secret2
    ensures head[0] == 32 && head[1] == 1 && head[2] == 0 && Le16(head, 4) == |text| % 0x1_0000
    ensures Decode(head) == Header(32, 1, 0, 0, |text| % 0x1_0000, h.seqno, h.udata, h.secret1, h.secret2, 0)
  {
    head := Pack(text, h.seqno, h.udata, h.secret1, h.secret2).head;
    PackIsOk(text, h);
    PackedLength(text, h.seqno, h.udata, h.secret1, h.secret2);
    DecodeEncode(PackedHeader(|text|, h.seqno, h.udata, h.secret1, h.secret2));
    FieldsStand(head);
  }

  lemma FrameAnswers(h: Header, text: seq<byte>)
    ensures AnswersRequest(ResponseFrame(h, text), h, text)
  {
    var head := PackedHead(h, text);
    HeadAndText(ResponseFrame(h, text), head, text[..|text| % 0x1_0000]);
    SameFields(ResponseFrame(h, text), head);
  }

  lemma HeadAndText(r: seq<byte>, head: seq<byte>, text: seq<byte>)
    requires r == head + text && |head| == 32
    ensures |r| == 32 + |text| && r[..32] == head && r[32..] == text
  {
  }

  /** A frame's first bytes are its header's. */
  lemma SameFields(r: seq<byte>, head: seq<byte>)
    requires |head| == 32 <= |r| && r[..32] == head
    ensures r[0] == head[0] && r[1] == head[1] && r[2] == head[2] && Le16(r, 4) == Le16(head, 4)
    ensures Le32(r, 6) == Le32(head, 6) && Le32(r, 10) == Le32(head, 10)
    ensures Le64(r, 14) == Le64(head, 14) && Le64(r, 22) == Le64(head, 22)
  {
    assert forall i :: 0 <= i < 32 ==> r[i] == head[i];
  }

  /** In every run the k-th response on the wire answers the k-th request so. */
  lemma ResponsesCarryFields(es: seq<Event>, k: nat)
    ensures PhaseOk(NEW_CONN.core, NEW_CONN.alive)
    ensures var c := Run(NEW_CONN, es);
            k < |Replies(c.frames)| ==>
              k < |c.requests| && k < |c.texts| && AnswersRequest(Replies(c.frames)[k], c.requests[k], c.texts[k])
  {
    ResponsesMatchRequests(es);
    var c := Run(NEW_CONN, es);
    if k < |Replies(c.frames)| {
      FrameAnswers(c.requests[k], c.texts[k]);
    }
  }

  /** Notifications leave in the order in which they were queued, each at most once; those
      that left are exactly those whose send did not fail hard, and the rest still wait. */
  ghost predicate NotesInOrder(c: Conn) {
    && Notes(c.frames) == Kept(c.fates)
    && (forall i, j :: 0 <= i < j < |Notes(c.frames)| ==> Notes(c.frames)[i] < Notes(c.frames)[j])
    && |c.queued| == |c.fates| + |c.core.notices|
    && (forall i :: 0 <= i < |c.core.notices| ==> c.core.notices[i].buf == c.queued[|c.fates| + i])
    && (forall p :: p in c.frames && p.Notification? ==> p.k < |c.queued| && p.bytes == c.queued[p.k])
    && (forall k: nat :: k < |c.fates| ==> (k in Notes(c.frames) <==> c.fates[k]))
  }

  lemma AccountInOrder(c: Conn)
    requires NotesOk(c) && QueueOk(c)
    ensures NotesInOrder(c)
  {
    KeptAscends(c.fates);
  }

  /** In every run of a connection. */
  lemma NotificationsInOrder(es: seq<Event>)
    ensures PhaseOk(NEW_CONN.core, NEW_CONN.alive)
    ensures NotesInOrder(Run(NEW_CONN, es))
  {
    NewConnOk();
    RunHistory(NEW_CONN, es);
    AccountInOrder(Run(NEW_CONN, es));
  }

  /** No notification's send fails hard. */
  predicate GentleEvent(ev: Event) {
    match ev
    case Arrive(_) => true
    case Work(a) => !Fails(a.n)
    case Queue(_, n) => !Fails(n)
  }

  lemma GentleNotify(c: Core, io: Io)
    requires NoticesOk(c.notices) && !Fails(io)
    ensures DoNotify(c, io).fate != Some(false)
  {
  }

  lemma GentleSend(c: Core, s1: Io, s2: Io, n: Io)
    requires NoticesOk(c.notices) && PackerOk(c.packer) && !Fails(n)
    ensures DoSend(c, s1, s2, n).fate != Some(false)
  {
    var q := Send(c.packer, s1, s2).0;
    GentleNotify(c.(phase := Sending, packer := Packer(q.head, [], 0, SdHd), parser := FREE_PARSER), n);
  }

  lemma GentleWork(c: Core, inbox: seq<byte>, a: Answers)
    requires CoreOk(c) && !Fails(a.n)
    ensures DoWork(c, inbox, a).fate != Some(false)
  {
    match c.phase {
      case Sending => GentleSend(c, a.s1, a.s2, a.n);
      case Notifing => GentleNotify(c, a.n);
      case _ =>
        if DoRead(c, inbox, a).request.Some? {
          var core := Dispatched(c, inbox, a);
          PackIsOk(a.reply, Decode(core.parser.hd));
          GentleSend(core, a.s1, a.s2, a.n);
        }
    }
  }

  lemma {:induction false} NoneDropped(c: Conn, es: seq<Event>)
    requires PhaseOk(c.core, c.alive) && (forall ev :: ev in es ==> GentleEvent(ev))
    requires forall k :: 0 <= k < |c.fates| ==> c.fates[k]
    ensures forall k :: 0 <= k < |Run(c, es).fates| ==> Run(c, es).fates[k]
    decreases |es|
  {
    if es != [] {
      assert GentleEvent(es[0]);
      match es[0] {
        case Arrive(_) =>
        case Work(a) => GentleWork(c.core, c.inbox, a);
        case Queue(buf, n) => GentleNotify(c.core.(notices := c.core.notices + [Notice(buf, 0)]), n);
      }
      StepPhase(c, es[0]);
      NoneDropped(Next(c, es[0]), es[1..]);
    }
  }

  /** Without hard failures each notification leaves exactly once: those sent and
      those still listed are all that were queued. */
  lemma NotificationsExactlyOnce(es: seq<Event>)
    requires forall ev :: ev in es ==> GentleEvent(ev)
    ensures PhaseOk(NEW_CONN.core, NEW_CONN.alive)
    ensures var c := Run(NEW_CONN, es);
            forall k: nat :: k in Notes(c.frames) <==> k + |c.core.notices| < |c.queued|
  {
    NewConnOk();
    NoneDropped(NEW_CONN, es);
    NotificationsInOrder(es);
    KeptAscends(Run(NEW_CONN, es).fates);
  }

  // ----- a request must bring its header in one piece ----------------------------------------

  /** The response's two sends do not fail hard: the second is made only when the first
      took the whole header, and asks for the text's length cut to 16 bits. */
  predicate AnswerGoes(a: Answers) {
    match SendCall(a.s1, HEADER_LEN)
    case WouldBlock => true
    case Failed => false
    case Did(n) => n < HEADER_LEN || !SendCall(a.s2, |a.reply| % 0x1_0000).Failed?
  }

  lemma PackerGoes(a: Answers, h: Header)
    ensures var p := Pack(a.reply, h.seqno, h.udata, h.secret1, h.secret2);
            PackerOk(p) && (Send(p, a.s1, a.s2).0.st != SdError <==> AnswerGoes(a))
  {
    PackIsOk(a.reply, h);
    PackedLength(a.reply, h.seqno, h.udata, h.secret1, h.secret2);
  }

  /** With nothing to notify, dosend returns false exactly for a failed send. */
  lemma SendReturns(c: Core, a: Answers)
    requires NoticesOk(c.notices) && PackerOk(c.packer) && c.notices == []
    ensures DoSend(c, a.s1, a.s2, a.n).ret <==> Send(c.packer, a.s1, a.s2).0.st != SdError
  {
  }

  /** The first read of a request brings a good header: the body decides. */
  lemma GoodHead(inbox: seq<byte>, r1: Io, r2: Io)
    requires ReadCall(r1, HEADER_LEN, |inbox|) == Did(HEADER_LEN) && HeaderOk(inbox[..HEADER_LEN])
    ensures var q := Read(FREE_PARSER, inbox, r1, r2).0;
            var want := BodyLen(inbox[..HEADER_LEN]);
            var body := ReadCall(r2, want, |inbox| - HEADER_LEN);
            && |q.hd| == HEADER_LEN
            && (q.st == RdBd <==> body.WouldBlock? || (body.Did? && 0 < body.n < want))
            && (q.st == RdOk <==> body.Did? && 0 < body.n == want)
  {
    assert [] + inbox[..HEADER_LEN] == inbox[..HEADER_LEN];
  }

  lemma BadHead(inbox: seq<byte>, r1: Io, r2: Io)
    requires !(ReadCall(r1, HEADER_LEN, |inbox|) == Did(HEADER_LEN) && HeaderOk(inbox[..HEADER_LEN]))
    ensures var q := Read(FREE_PARSER, inbox, r1, r2).0; q.st != RdBd && q.st != RdOk
  {
    if ReadCall(r1, HEADER_LEN, |inbox|) == Did(HEADER_LEN) {
      assert [] + inbox[..HEADER_LEN] == inbox[..HEADER_LEN];
    }
  }

  /** doread by the state of the parser. */
  lemma DispatchReturns(c: Core, inbox: seq<byte>, a: Answers)
    requires CoreOk(c) && c.notices == []
    ensures var q := Read(c.parser, inbox, a.r1, a.r2).0;
            DoRead(c, inbox, a).ret <==> q.st == RdBd || (q.st == RdOk && |q.hd| == HEADER_LEN && a.xmlOk && AnswerGoes(a))
  {
    if DoRead(c, inbox, a).request.Some? {
      var core := Dispatched(c, inbox, a);
      DispatchSplits(c, inbox, a);
      PackerGoes(a, Decode(core.parser.hd));
      SendReturns(core, a);
    }
  }

  /** A client at the start of a request survives doWork exactly when one read brings
      the whole header, it verifies, it announces a body, and the body is still to
      come or is good and its answer can be sent: pieces of a body are waited for,
      pieces of a header are not. */
  lemma HeaderMustArriveWhole(c: Core, inbox: seq<byte>, a: Answers)
    requires PhaseOk(c, true) && c.phase == Idle
    ensures DoWork(c, inbox, a).ret <==>
              && ReadCall(a.r1, HEADER_LEN, |inbox|) == Did(HEADER_LEN)
              && HeaderOk(inbox[..HEADER_LEN])
              && (var want := BodyLen(inbox[..HEADER_LEN]);
                  var body := ReadCall(a.r2, want, |inbox| - HEADER_LEN);
                  body.WouldBlock? || (body.Did? && 0 < body.n && (body.n < want || (a.xmlOk && AnswerGoes(a)))))
  {
    DispatchReturns(c, inbox, a);
    if ReadCall(a.r1, HEADER_LEN, |inbox|) == Did(HEADER_LEN) && HeaderOk(inbox[..HEADER_LEN]) {
      GoodHead(inbox, a.r1, a.r2);
    } else {
      BadHead(inbox, a.r1, a.r2);
    }
  }

  /** A good header that comes in two halves ends a new connection, whatever the rest. */
  lemma HalvedHeaderEnds(hd: seq<byte>, a: Answers)
    requires |hd| == HEADER_LEN && HeaderOk(hd)
    ensures PhaseOk(NEW_CONN.core, NEW_CONN.alive)
    ensures !Run(NEW_CONN, [Arrive(hd[..16]), Work(a)]).alive
  {
    NewConnOk();
    var c := Next(NEW_CONN, Arrive(hd[..16]));
    HeaderMustArriveWhole(c.core, c.inbox, a);
    assert Run(c, [Work(a)]) == Next(c, Work(a));
  }
}
