/**
 CCNI framing over a non-blocking byte stream: CCNIMsgPacker and CCNINotification
 send a frame in as many pieces as the socket takes, CCNIMsgParser collects one
 in as many pieces as it gets.
 */
module Framing {
  import opened Header

  /** What the socket does with one ::send or ::read: EAGAIN, a hard error, the
      peer's close, or some number of bytes of those asked for. */
  datatype Io = Again | Broken | Closed | Moves(most: nat)

  /** The return of the system call. */
  datatype Outcome = WouldBlock | Failed | Did(n: nat)

  function Min(a: nat, b: nat): nat { if a <= b then a else b }

  /** ::send of n bytes. Asking for none returns 0, with errno left as it was. */
  function SendCall(io: Io, n: nat): (r: Outcome)
    ensures r.Did? ==> 1 <= r.n <= n
  {
    match io
    case Again => WouldBlock
    case Moves(most) => if n == 0 then Failed else Did(Min(if most == 0 then 1 else most, n))
    case _ => Failed
  }

  /** ::read of n bytes when `avail` have arrived. */
  function ReadCall(io: Io, n: nat, avail: nat): (r: Outcome)
    ensures r.Did? ==> r.n <= n && r.n <= avail
  {
    if io.Broken? then Failed
    else if io.Closed? || n == 0 then Did(0)
    else if io.Again? || avail == 0 then WouldBlock
    else Did(Min(Min(if io.most == 0 then 1 else io.most, n), avail))
  }

  // ----- sending -----------------------------------------------------------------

  datatype SendState = SdHd | SdBd | SdOk | SdError

  /** The packer: its header, the dumped text it sends from, and how far it is. */
  datatype Packer = Packer(head: seq<byte>, text: seq<byte>, pos: nat, st: SendState)

  /** What pack() writes over the blank header: the text's length cut to 16 bits and
      the fields copied from the request. */
  function PackedHeader(len: nat, seqno: u32, udata: u32, k1: u64, k2: u64): Header {
    BLANK.(datalen := len % 0x1_0000, seqno := seqno, udata := udata, secret1 := k1, secret2 := k2)
  }

  function Pack(text: seq<byte>, seqno: u32, udata: u32, k1: u64, k2: u64): Packer {
    Packer(Encode(PackedHeader(|text|, seqno, udata, k1, k2)), text, 0, SdHd)
  }

  predicate PackerOk(p: Packer) {
    && |p.head| == HEADER_LEN
    && BodyLen(p.head) <= |p.text|
    && (p.st == SdHd ==> p.pos < HEADER_LEN)
    && (p.st == SdBd ==> p.pos <= BodyLen(p.head) && (BodyLen(p.head) > 0 ==> p.pos < BodyLen(p.head)))
  }

  /** All the packer will ever send. */
  function Frame(p: Packer): seq<byte>
    requires |p.head| == HEADER_LEN && BodyLen(p.head) <= |p.text|
  {
    p.head + p.text[..BodyLen(p.head)]
  }

  /** How much of the frame has been sent. */
  function Sent(p: Packer): nat
    requires |p.head| == HEADER_LEN
  {
    match p.st
    case SdHd => p.pos
    case SdBd => HEADER_LEN + p.pos
    case SdOk => HEADER_LEN + BodyLen(p.head)
    case SdError => 0
  }

  function SendBody(p: Packer, io: Io): (r: (Packer, seq<byte>))
    requires PackerOk(p) && p.st == SdBd
  {
    match SendCall(io, BodyLen(p.head) - p.pos)
    case WouldBlock => (p, [])
    case Failed => (p.(st := SdError), [])
    case Did(n) =>
      if n < BodyLen(p.head) - p.pos then (p.(pos := p.pos + n), p.text[p.pos..p.pos + n])
      else (p.(st := SdOk), p.text[p.pos..p.pos + n])
  }

  function SendHead(p: Packer, io1: Io, io2: Io): (r: (Packer, seq<byte>))
    requires PackerOk(p) && p.st == SdHd
  {
    match SendCall(io1, HEADER_LEN - p.pos)
    case WouldBlock => (p, [])
    case Failed => (p.(st := SdError), [])
    case Did(n) =>
      if n < HEADER_LEN - p.pos then (p.(pos := p.pos + n), p.head[p.pos..p.pos + n])
      else
        var (q, out) := SendBody(p.(pos := 0, st := SdBd), io2);
        (q, p.head[p.pos..p.pos + n] + out)
  }

  /** CCNIMsgPacker::send: the new packer and the bytes given to the socket. */
  function Send(p: Packer, io1: Io, io2: Io): (r: (Packer, seq<byte>))
    requires PackerOk(p)
  {
    match p.st
    case SdHd => SendHead(p, io1, io2)
    case SdBd => SendBody(p, io1)
    case _ => (p, [])
  }

  /** q has sent `out` beyond what p had: they are the next bytes of one frame, and
      q says done exactly when the frame is complete. */
  ghost predicate Continues(p: Packer, q: Packer, out: seq<byte>)
    requires PackerOk(p)
  {
    && PackerOk(q) && q.head == p.head && q.text == p.text
    && Sent(p) + |out| <= |Frame(p)|
    && out == Frame(p)[Sent(p)..Sent(p) + |out|]
    && (q.st != SdError ==> Sent(q) == Sent(p) + |out|)
    && (q.st == SdHd || q.st == SdBd ==> BodyLen(p.head) > 0 ==> Sent(q) < |Frame(p)|)
  }

  lemma SliceOfSecond(a: seq<byte>, b: seq<byte>, i: nat, n: nat)
    requires i + n <= |b|
    ensures (a + b)[|a| + i..|a| + i + n] == b[i..i + n]
  {
  }

  lemma SliceOfFirst(a: seq<byte>, b: seq<byte>, i: nat, n: nat)
    requires i + n <= |a|
    ensures (a + b)[i..i + n] == a[i..i + n]
  {
  }

  lemma SendBodyContinues(p: Packer, io: Io)
    requires PackerOk(p) && p.st == SdBd
    ensures var (q, out) := SendBody(p, io); Continues(p, q, out)
  {
    var (q, out) := SendBody(p, io);
    SliceOfSecond(p.head, p.text[..BodyLen(p.head)], p.pos, |out|);
    SliceOfFirst(p.text[..BodyLen(p.head)], p.text[BodyLen(p.head)..], p.pos, |out|);
    assert p.text == p.text[..BodyLen(p.head)] + p.text[BodyLen(p.head)..];
  }

  /** The part of SendHead that ends inside the header. */
  lemma SendPartOfHead(p: Packer, n: nat)
    requires PackerOk(p) && p.st == SdHd && 0 < n < HEADER_LEN - p.pos
    ensures Continues(p, p.(pos := p.pos + n), p.head[p.pos..p.pos + n])
  {
    SliceOfFirst(p.head, p.text[..BodyLen(p.head)], p.pos, n);
  }

  lemma Adjacent(s: seq<byte>, i: nat, j: nat, n: nat)
    requires i <= j && j + n <= |s|
    ensures s[i..j] + s[j..j + n] == s[i..j + n]
  {
  }

  /** Header finished, then a piece of the body. */
  lemma HeadThenBodyPiece(p: Packer, mid: Packer, q: Packer, out: seq<byte>)
    requires PackerOk(p) && p.st == SdHd && mid == p.(pos := 0, st := SdBd) && Continues(mid, q, out)
    ensures Continues(p, q, p.head[p.pos..] + out)
  {
    SliceOfFirst(p.head, p.text[..BodyLen(p.head)], p.pos, HEADER_LEN - p.pos);
    Adjacent(Frame(p), p.pos, HEADER_LEN, |out|);
  }

  /** The header goes out whole and the body follows at once. */
  lemma SendHeadAndBody(p: Packer, io2: Io)
    requires PackerOk(p) && p.st == SdHd
    ensures var (q, out) := SendBody(p.(pos := 0, st := SdBd), io2); Continues(p, q, p.head[p.pos..] + out)
  {
    var mid := p.(pos := 0, st := SdBd);
    SendBodyContinues(mid, io2);
    var (q, out) := SendBody(mid, io2);
    HeadThenBodyPiece(p, mid, q, out);
  }

  /** SendHead by the outcome of its first send. */
  lemma SendHeadIs(p: Packer, io1: Io, io2: Io)
    requires PackerOk(p) && p.st == SdHd
    ensures var o := SendCall(io1, HEADER_LEN - p.pos);
            SendHead(p, io1, io2) ==
            if o.WouldBlock? then (p, []) else if o.Failed? then (p.(st := SdError), [])
            else if o.n < HEADER_LEN - p.pos then (p.(pos := p.pos + o.n), p.head[p.pos..p.pos + o.n])
            else
              var (q, out) := SendBody(p.(pos := 0, st := SdBd), io2);
              (q, p.head[p.pos..p.pos + o.n] + out)
  {
  }

  lemma NothingContinues(p: Packer)
    requires PackerOk(p) && p.st == SdHd
    ensures Continues(p, p, []) && Continues(p, p.(st := SdError), [])
  {
  }

  lemma SendHeadContinues(p: Packer, io1: Io, io2: Io)
    requires PackerOk(p) && p.st == SdHd
    ensures var (q, out) := SendHead(p, io1, io2); Continues(p, q, out)
  {
    SendHeadIs(p, io1, io2);
    NothingContinues(p);
    var o := SendCall(io1, HEADER_LEN - p.pos);
    if o.Did? && o.n < HEADER_LEN - p.pos {
      SendPartOfHead(p, o.n);
    } else if o.Did? {
      SendHeadAndBody(p, io2);
      assert p.head[p.pos..p.pos + o.n] == p.head[p.pos..];
    }
  }

  /** However the socket splits it, each send continues the frame where the last
      one stopped. */
  lemma SendContinuesFrame(p: Packer, io1: Io, io2: Io)
    requires PackerOk(p) && p.st != SdError
    ensures var (q, out) := Send(p, io1, io2); Continues(p, q, out)
  {
    match p.st
    case SdHd => SendHeadContinues(p, io1, io2);
    case SdBd => SendBodyContinues(p, io1);
    case SdOk =>
  }

  /** A notification: a flat buffer shared by its receivers and a private position. */
  datatype Notice = Notice(buf: seq<byte>, pos: nat)

  datatype NoticeState = NoticeDone | NoticeAgain | NoticeError

  /** CCNINotification::send. */
  function SendNotice(m: Notice, io: Io): (r: (Notice, seq<byte>, NoticeState))
    requires m.pos <= |m.buf|
  {
    if |m.buf| == 0 then (m, [], NoticeDone)
    else
      match SendCall(io, |m.buf| - m.pos)
      case WouldBlock => (m, [], NoticeAgain)
      case Failed => (m, [], NoticeError)
      case Did(n) =>
        (m.(pos := m.pos + n), m.buf[m.pos..m.pos + n], if m.pos + n >= |m.buf| then NoticeDone else NoticeAgain)
  }

  predicate NoticeOk(m: Notice) { m.pos <= |m.buf| && (m.buf != [] ==> m.pos < |m.buf|) }

  lemma TakeThen(s: seq<byte>, i: nat, n: nat)
    requires i + n <= |s|
    ensures s[..i] + s[i..i + n] == s[..i + n] && s[..|s|] == s
  {
  }

  lemma SendNoticeContinues(m: Notice, io: Io)
    requires NoticeOk(m)
    ensures var (m', out, st) := SendNotice(m, io);
            && m'.buf == m.buf
            && (st == NoticeDone ==> m.buf[..m.pos] + out == m.buf)
            && (st == NoticeAgain ==> NoticeOk(m') && m.buf[..m.pos] + out == m.buf[..m'.pos])
            && (st == NoticeError ==> out == [])
  {
    if m.buf != [] {
      match SendCall(io, |m.buf| - m.pos)
      case WouldBlock => TakeThen(m.buf, m.pos, 0);
      case Failed =>
      case Did(n) => TakeThen(m.buf, m.pos, n);
    }
  }

  // ----- reading -------------------------------------------------------------------

  datatype ReadState = RdHd | RdBd | RdOk | RdError | HdError

  /** The parser: the header bytes and the body bytes it holds. */
  datatype Parser = Parser(st: ReadState, hd: seq<byte>, body: seq<byte>)

  const FREE_PARSER: Parser := Parser(RdHd, [], [])

  predicate ParserOk(p: Parser) {
    && (p.st == RdHd ==> |p.hd| < HEADER_LEN && p.body == [])
    && (p.st == RdBd || p.st == RdOk ==> |p.hd| == HEADER_LEN)
    && (p.st == RdBd ==> |p.body| < BodyLen(p.hd))
  }

  function ReadBody(p: Parser, incoming: seq<byte>, io: Io): (r: (Parser, nat))
    requires p.st == RdBd && |p.hd| == HEADER_LEN && |p.body| <= BodyLen(p.hd)
    ensures r.1 <= |incoming| && ParserOk(r.0)
  {
    var want := BodyLen(p.hd) - |p.body|;
    match ReadCall(io, want, |incoming|)
    case WouldBlock => (p, 0)
    case Failed => (p.(st := RdError), 0)
    case Did(n) =>
      if n == 0 then (p.(st := RdError), 0)
      else (p.(body := p.body + incoming[..n], st := if n < want then RdBd else RdOk), n)
  }

  function ReadHead(p: Parser, incoming: seq<byte>, io1: Io, io2: Io): (r: (Parser, nat))
    requires ParserOk(p) && p.st == RdHd
    ensures r.1 <= |incoming| && ParserOk(r.0)
  {
    var want := HEADER_LEN - |p.hd|;
    match ReadCall(io1, want, |incoming|)
    case WouldBlock => (p, 0)
    case Failed => (p.(st := RdError), 0)
    case Did(n) =>
      if n == 0 then (p.(st := RdError), 0)
      else if n < want then (p.(hd := p.hd + incoming[..n]), n)
      else
        var hd := p.hd + incoming[..n];
        if !HeaderOk(hd) then (Parser(HdError, hd, []), n)
        else
          var (q, m) := ReadBody(Parser(RdBd, hd, []), incoming[n..], io2);
          (q, n + m)
  }

  /** CCNIMsgParser::read: the new parser and how many bytes it took. */
  function Read(p: Parser, incoming: seq<byte>, io1: Io, io2: Io): (r: (Parser, nat))
    requires ParserOk(p)
    ensures r.1 <= |incoming| && ParserOk(r.0)
  {
    match p.st
    case RdHd => ReadHead(p, incoming, io1, io2)
    case RdBd => ReadBody(p, incoming, io1)
    case _ => (p, 0)
  }

  /** The parser after consuming exactly these bytes of one frame, whatever calls
      brought them. An empty body fails at once: its read asks for no bytes. */
  function ParserAfter(b: seq<byte>): Parser {
    if |b| < HEADER_LEN then Parser(RdHd, b, [])
    else if !HeaderOk(b[..HEADER_LEN]) then Parser(HdError, b[..HEADER_LEN], [])
    else
      var n := BodyLen(b[..HEADER_LEN]);
      Parser(if n == 0 then RdError else if |b| < HEADER_LEN + n then RdBd else RdOk, b[..HEADER_LEN], b[HEADER_LEN..])
  }

  predicate Reading(st: ReadState) { st == RdHd || st == RdBd }

  /** The socket fails in this call. */
  predicate Fails(io: Io) { io.Broken? || io.Closed? }

  /** Where the frame these bytes begin ends, as far as they tell. */
  function FrameEnd(b: seq<byte>): nat {
    if |b| < HEADER_LEN || !HeaderOk(b[..HEADER_LEN]) then HEADER_LEN
    else HEADER_LEN + BodyLen(b[..HEADER_LEN])
  }

  /** After b, a call took x and left q: the parser of b and x together, unless the
      socket failed, which it can only between or before pieces. */
  ghost predicate GoesTo(b: seq<byte>, x: seq<byte>, q: Parser, failing: bool) {
    && |b| + |x| <= FrameEnd(b + x)
    && (q == ParserAfter(b + x)
        || (failing && q.st == RdError && (x == [] || |b| + |x| <= HEADER_LEN)))
  }

  lemma ReadBodyGoes(b: seq<byte>, incoming: seq<byte>, io: Io)
    requires HEADER_LEN <= |b| && HeaderOk(b[..HEADER_LEN])
    requires |b| == HEADER_LEN || |b| < FrameEnd(b)
    ensures var (q, n) := ReadBody(Parser(RdBd, b[..HEADER_LEN], b[HEADER_LEN..]), incoming, io);
            GoesTo(b, incoming[..n], q, Fails(io))
  {
    var (q, n) := ReadBody(Parser(RdBd, b[..HEADER_LEN], b[HEADER_LEN..]), incoming, io);
    var b' := b + incoming[..n];
    assert b'[..HEADER_LEN] == b[..HEADER_LEN];
    assert b'[HEADER_LEN..] == b[HEADER_LEN..] + incoming[..n];
  }

  lemma GoesToRegroup(b: seq<byte>, x: seq<byte>, hd: seq<byte>, y: seq<byte>, q: Parser, failing: bool)
    requires b + x == hd + y && |hd| == HEADER_LEN && GoesTo(hd, y, q, failing)
    ensures GoesTo(b, x, q, failing)
  {
    assert |b| + |x| == |b + x| && |hd| + |y| == |hd + y|;
  }

  lemma JoinPieces(b: seq<byte>, s: seq<byte>, k: nat, m: nat)
    requires k + m <= |s|
    ensures (b + s[..k]) + s[k..][..m] == b + s[..k + m]
  {
  }

  /** The call that completes a good header goes on to the body. */
  lemma HeadThenBody(b: seq<byte>, hd: seq<byte>, incoming: seq<byte>, k: nat, io: Io)
    requires k <= |incoming| && hd == b + incoming[..k] && |hd| == HEADER_LEN && HeaderOk(hd)
    ensures var (q, m) := ReadBody(Parser(RdBd, hd, []), incoming[k..], io);
            GoesTo(b, incoming[..k + m], q, Fails(io))
  {
    assert hd[..HEADER_LEN] == hd && hd[HEADER_LEN..] == [];
    ReadBodyGoes(hd, incoming[k..], io);
    var (q, m) := ReadBody(Parser(RdBd, hd, []), incoming[k..], io);
    JoinPieces(b, incoming, k, m);
    GoesToRegroup(b, incoming[..k + m], hd, incoming[k..][..m], q, Fails(io));
  }

  /** Nothing came. */
  lemma NothingGoes(b: seq<byte>)
    requires |b| < HEADER_LEN
    ensures GoesTo(b, [], Parser(RdHd, b, []), false) && GoesTo(b, [], Parser(RdError, b, []), true)
  {
    assert b + [] == b;
  }

  /** A piece of the header came, or all of a bad one. */
  lemma HeadPieceGoes(b: seq<byte>, x: seq<byte>, failing: bool)
    requires |b| + |x| < HEADER_LEN
    ensures GoesTo(b, x, Parser(RdHd, b + x, []), failing)
  {
  }

  lemma BadHeadGoes(b: seq<byte>, x: seq<byte>, failing: bool)
    requires |b| + |x| == HEADER_LEN && !HeaderOk(b + x)
    ensures GoesTo(b, x, Parser(HdError, b + x, []), failing)
  {
    assert (b + x)[..HEADER_LEN] == b + x;
  }

  /** ReadBody by the outcome of its read. */
  lemma BodyIs(h: seq<byte>, had: seq<byte>, inc: seq<byte>, io: Io)
    requires |h| == HEADER_LEN && |had| <= BodyLen(h)
    ensures var o := ReadCall(io, BodyLen(h) - |had|, |inc|);
            ReadBody(Parser(RdBd, h, had), inc, io) ==
            if o.WouldBlock? then (Parser(RdBd, h, had), 0)
            else if o.Failed? || o.n == 0 then (Parser(RdError, h, had), 0)
            else (Parser(if o.n < BodyLen(h) - |had| then RdBd else RdOk, h, had + inc[..o.n]), o.n)
  {
  }

  /** ReadHead by the outcome of its first read. */
  lemma HeadIs(had: seq<byte>, inc: seq<byte>, io1: Io, io2: Io)
    requires |had| < HEADER_LEN
    ensures var o := ReadCall(io1, HEADER_LEN - |had|, |inc|);
            ReadHead(Parser(RdHd, had, []), inc, io1, io2) ==
            if o.WouldBlock? then (Parser(RdHd, had, []), 0)
            else if o.Failed? || o.n == 0 then (Parser(RdError, had, []), 0)
            else if o.n < HEADER_LEN - |had| then (Parser(RdHd, had + inc[..o.n], []), o.n)
            else if !HeaderOk(had + inc[..o.n]) then (Parser(HdError, had + inc[..o.n], []), o.n)
            else
              var (q, m) := ReadBody(Parser(RdBd, had + inc[..o.n], []), inc[o.n..], io2);
              (q, o.n + m)
  {
  }

  lemma ReadHeadGoes(b: seq<byte>, incoming: seq<byte>, io1: Io, io2: Io)
    requires |b| < HEADER_LEN
    ensures var (q, n) := ReadHead(Parser(RdHd, b, []), incoming, io1, io2);
            GoesTo(b, incoming[..n], q, Fails(io1) || Fails(io2))
  {
    HeadIs(b, incoming, io1, io2);
    var o := ReadCall(io1, HEADER_LEN - |b|, |incoming|);
    if o.Did? && o.n == HEADER_LEN - |b| {
      WholeHeadGoes(b, incoming, o.n, io1, io2);
    } else {
      PartHeadGoes(b, incoming, o, Fails(io1) || Fails(io2));
    }
  }

  lemma WholeHeadGoes(b: seq<byte>, incoming: seq<byte>, k: nat, io1: Io, io2: Io)
    requires |b| < HEADER_LEN && k == HEADER_LEN - |b| <= |incoming|
    ensures var hd := b + incoming[..k];
            if HeaderOk(hd) then
              var (q, m) := ReadBody(Parser(RdBd, hd, []), incoming[k..], io2);
              GoesTo(b, incoming[..k + m], q, Fails(io1) || Fails(io2))
            else GoesTo(b, incoming[..k], Parser(HdError, hd, []), Fails(io1) || Fails(io2))
  {
    if HeaderOk(b + incoming[..k]) {
      HeadThenBody(b, b + incoming[..k], incoming, k, io2);
    } else {
      BadHeadGoes(b, incoming[..k], Fails(io1) || Fails(io2));
    }
  }

  lemma PartHeadGoes(b: seq<byte>, incoming: seq<byte>, o: Outcome, failing: bool)
    requires |b| < HEADER_LEN && (o.Failed? || (o.Did? && o.n == 0) ==> failing)
    requires o.Did? ==> o.n < HEADER_LEN - |b| && o.n <= |incoming|
    ensures o.WouldBlock? ==> GoesTo(b, incoming[..0], Parser(RdHd, b, []), failing)
    ensures o.Failed? || (o.Did? && o.n == 0) ==> GoesTo(b, incoming[..0], Parser(RdError, b, []), failing)
    ensures o.Did? && o.n > 0 ==> GoesTo(b, incoming[..o.n], Parser(RdHd, b + incoming[..o.n], []), failing)
  {
    assert incoming[..0] == [];
    NothingGoes(b);
    if o.Did? && o.n > 0 {
      HeadPieceGoes(b, incoming[..o.n], failing);
    }
  }

  /** One read call leaves the parser where its bytes say, whatever their grouping,
      and never takes a byte beyond the current frame; only a failing socket can
      make it otherwise. */
  lemma ReadFollowsBytes(b: seq<byte>, incoming: seq<byte>, io1: Io, io2: Io)
    requires Reading(ParserAfter(b).st)
    ensures ParserOk(ParserAfter(b))
    ensures var (q, n) := Read(ParserAfter(b), incoming, io1, io2);
            GoesTo(b, incoming[..n], q, Fails(io1) || Fails(io2))
  {
    if |b| < HEADER_LEN {
      ReadHeadGoes(b, incoming, io1, io2);
    } else {
      ReadBodyGoes(b, incoming, io1);
    }
  }
}
