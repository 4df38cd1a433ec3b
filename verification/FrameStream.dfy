/**
 Whole streams of frames: what a parser that is freed after each message makes of
 any bytes, in any grouping, and that it undoes what the packers send.
 */
module FrameStream {
  import opened Header
  import opened Framing

  datatype Msg = Msg(header: Header, body: seq<byte>)

  // ----- the messages in a string of bytes -------------------------------------------

  predicate FrameDone(b: seq<byte>) {
    && |b| >= HEADER_LEN && HeaderOk(b[..HEADER_LEN])
    && BodyLen(b[..HEADER_LEN]) > 0 && |b| >= FrameEnd(b)
  }

  function FirstMsg(b: seq<byte>): Msg
    requires FrameDone(b)
  {
    Msg(Decode(b[..HEADER_LEN]), b[HEADER_LEN..FrameEnd(b)])
  }

  /** The complete frames at the front of the bytes. */
  function Messages(b: seq<byte>): seq<Msg>
    decreases |b|
  {
    if FrameDone(b) then [FirstMsg(b)] + Messages(b[FrameEnd(b)..]) else []
  }

  /** What follows them. */
  function Leftover(b: seq<byte>): seq<byte>
    decreases |b|
  {
    if FrameDone(b) then Leftover(b[FrameEnd(b)..]) else b
  }

  lemma {:induction false} LeftoverNotDone(b: seq<byte>)
    ensures !FrameDone(Leftover(b))
    decreases |b|
  {
    if FrameDone(b) {
      LeftoverNotDone(b[FrameEnd(b)..]);
    }
  }

  lemma FirstFrameAppend(b: seq<byte>, x: seq<byte>)
    requires FrameDone(b)
    ensures FrameDone(b + x) && FrameEnd(b + x) == FrameEnd(b) && FirstMsg(b + x) == FirstMsg(b)
    ensures (b + x)[FrameEnd(b)..] == b[FrameEnd(b)..] + x
  {
    assert (b + x)[..HEADER_LEN] == b[..HEADER_LEN];
    assert (b + x)[HEADER_LEN..FrameEnd(b)] == b[HEADER_LEN..FrameEnd(b)];
  }

  /** More bytes only add to the messages already there. */
  lemma {:induction false} MessagesAppend(b: seq<byte>, x: seq<byte>)
    ensures Messages(b + x) == Messages(b) + Messages(Leftover(b) + x)
    ensures Leftover(b + x) == Leftover(Leftover(b) + x)
    decreases |b|
  {
    if FrameDone(b) {
      FirstFrameAppend(b, x);
      MessagesAppend(b[FrameEnd(b)..], x);
    }
  }

  // ----- a parser driven over a stream ----------------------------------------------

  /** The parser and the messages it has handed on, each followed by free(). */
  datatype Reader = Reader(parser: Parser, delivered: seq<Msg>)

  const START: Reader := Reader(FREE_PARSER, [])

  function ReadOnce(r: Reader, incoming: seq<byte>, io1: Io, io2: Io): (res: (Reader, nat))
    requires ParserOk(r.parser)
    ensures res.1 <= |incoming| && ParserOk(res.0.parser)
  {
    var (q, n) := Read(r.parser, incoming, io1, io2);
    if Reading(r.parser.st) && q.st == RdOk && |q.hd| == HEADER_LEN
    then (Reader(FREE_PARSER, r.delivered + [Msg(Decode(q.hd), q.body)]), n)
    else (Reader(q, r.delivered), n)
  }

  /** The reader stands where the bytes it consumed put it, or its socket failed. */
  ghost predicate Follows(r: Reader, consumed: seq<byte>, failed: bool) {
    && r.delivered == Messages(consumed)
    && ParserOk(r.parser)
    && (r.parser == ParserAfter(Leftover(consumed)) || (failed && r.parser.st == RdError))
  }

  /** One call that completes, continues or breaks off the current frame. */
  lemma FrameStep(b: seq<byte>, x: seq<byte>, q: Parser)
    requires !FrameDone(b) && Reading(ParserAfter(b).st)
    requires |b| + |x| <= FrameEnd(b + x) && q == ParserAfter(b + x)
    ensures q.st == RdOk ==> |q.hd| == HEADER_LEN && Messages(b + x) == [Msg(Decode(q.hd), q.body)] && Leftover(b + x) == []
    ensures q.st != RdOk ==> Messages(b + x) == [] && Leftover(b + x) == b + x
  {
    var c := b + x;
    if q.st == RdOk {
      assert FrameEnd(c) == |c|;
      assert c[HEADER_LEN..FrameEnd(c)] == c[HEADER_LEN..];
      assert c[FrameEnd(c)..] == [];
      assert Messages([]) == [];
    }
  }

  lemma FramelessAppend(b: seq<byte>, x: seq<byte>)
    requires !FrameDone(b) && (x == [] || |b + x| <= HEADER_LEN)
    ensures Messages(b + x) == [] && Leftover(b + x) == b + x
  {
    if x == [] {
      assert b + x == b;
    }
  }

  lemma ReadingFollows(r: Reader, b: seq<byte>, incoming: seq<byte>, io1: Io, io2: Io)
    requires !FrameDone(b) && ParserOk(r.parser) && r.parser == ParserAfter(b) && Reading(r.parser.st)
    ensures var (r', n) := ReadOnce(r, incoming, io1, io2);
            && r'.delivered == r.delivered + Messages(b + incoming[..n])
            && ParserOk(r'.parser)
            && (r'.parser == ParserAfter(Leftover(b + incoming[..n]))
                || ((Fails(io1) || Fails(io2)) && r'.parser.st == RdError))
  {
    var (q, n) := Read(r.parser, incoming, io1, io2);
    ReadFollowsBytes(b, incoming, io1, io2);
    if q == ParserAfter(b + incoming[..n]) {
      FrameStep(b, incoming[..n], q);
    } else {
      FramelessAppend(b, incoming[..n]);
    }
  }

  lemma ReadOnceFollows(r: Reader, consumed: seq<byte>, incoming: seq<byte>, io1: Io, io2: Io, failed: bool)
    requires Follows(r, consumed, failed)
    ensures var (r', n) := ReadOnce(r, incoming, io1, io2);
            Follows(r', consumed + incoming[..n], failed || Fails(io1) || Fails(io2))
  {
    var n := ReadOnce(r, incoming, io1, io2).1;
    LeftoverNotDone(consumed);
    if Reading(r.parser.st) {
      MessagesAppend(consumed, incoming[..n]);
      ReadingFollows(r, Leftover(consumed), incoming, io1, io2);
    } else {
      assert consumed + incoming[..0] == consumed;
    }
  }

  /** A whole series of read calls, each with its two socket answers. */
  function ReadAll(r: Reader, stream: seq<byte>, at: nat, script: seq<(Io, Io)>): (res: (Reader, nat))
    requires ParserOk(r.parser) && at <= |stream|
    ensures at <= res.1 <= |stream|
    decreases |script|
  {
    if script == [] then (r, at)
    else
      var (q, n) := ReadOnce(r, stream[at..], script[0].0, script[0].1);
      ReadAll(q, stream, at + n, script[1..])
  }

  /** Some answer of the script is a failure. */
  predicate ScriptFails(script: seq<(Io, Io)>) {
    script != [] && (Fails(script[0].0) || Fails(script[0].1) || ScriptFails(script[1..]))
  }

  lemma TakeOn(s: seq<byte>, i: nat, n: nat)
    requires i + n <= |s|
    ensures s[..i] + s[i..][..n] == s[..i + n]
  {
  }

  lemma SplitAt(s: seq<byte>, i: nat)
    requires i <= |s|
    ensures s[..i] + s[i..] == s
    ensures i == |s| ==> s[..i] == s
  {
  }

  lemma FollowsStep(r: Reader, stream: seq<byte>, at: nat, io: (Io, Io), failed: bool)
    requires at <= |stream| && Follows(r, stream[..at], failed)
    ensures var (q, n) := ReadOnce(r, stream[at..], io.0, io.1);
            Follows(q, stream[..at + n], failed || Fails(io.0) || Fails(io.1))
  {
    var (q, n) := ReadOnce(r, stream[at..], io.0, io.1);
    TakeOn(stream, at, n);
    ReadOnceFollows(r, stream[..at], stream[at..], io.0, io.1, failed);
  }

  /** The reader stands where the first n bytes of the stream put it. */
  ghost predicate Stands(r: Reader, stream: seq<byte>, n: nat, failed: bool) {
    n <= |stream| && Follows(r, stream[..n], failed)
  }

  /** The first call of a series, and the series after it. */
  lemma ReadAllStep(r: Reader, stream: seq<byte>, at: nat, script: seq<(Io, Io)>, failed: bool)
    returns (q: Reader, n: nat, fails: bool)
    requires Stands(r, stream, at, failed) && script != []
    ensures Stands(q, stream, at + n, fails) && (fails || ScriptFails(script[1..]) <==> failed || ScriptFails(script))
    ensures ReadAll(r, stream, at, script) == ReadAll(q, stream, at + n, script[1..])
  {
    FollowsStep(r, stream, at, script[0], failed);
    q, n := ReadOnce(r, stream[at..], script[0].0, script[0].1).0, ReadOnce(r, stream[at..], script[0].0, script[0].1).1;
    fails := failed || Fails(script[0].0) || Fails(script[0].1);
  }

  lemma {:induction false} ReadAllFollows(r: Reader, stream: seq<byte>, at: nat, script: seq<(Io, Io)>, failed: bool)
    requires Stands(r, stream, at, failed)
    ensures var (q, n) := ReadAll(r, stream, at, script); Stands(q, stream, n, failed || ScriptFails(script))
    decreases |script|
  {
    if script != [] {
      var q, n, fails := ReadAllStep(r, stream, at, script, failed);
      ReadAllFollows(q, stream, at + n, script[1..], fails);
    }
  }

  /** What a reader holds and has handed on is a function of the bytes it consumed:
      two runs over one stream that consumed as much, in whatever pieces, agree. */
  lemma ChunkingDoesNotMatter(stream: seq<byte>, s1: seq<(Io, Io)>, s2: seq<(Io, Io)>)
    ensures var (r1, n1) := ReadAll(START, stream, 0, s1);
            var (r2, n2) := ReadAll(START, stream, 0, s2);
            n1 == n2 ==>
              && r1.delivered == r2.delivered
              && (!ScriptFails(s1) && !ScriptFails(s2) ==> r1.parser == r2.parser)
  {
    assert stream[..0] == [];
    ReadAllFollows(START, stream, 0, s1, false);
    ReadAllFollows(START, stream, 0, s2, false);
  }

  // ----- what was sent is what is read ---------------------------------------------------

  predicate Sendable(m: Msg) {
    Verify(m.header) && |m.body| == m.header.datalen && m.header.datalen > 0
  }

  function Bytes(m: Msg): seq<byte> { Encode(m.header) + m.body }

  function Stream(ms: seq<Msg>): seq<byte> {
    if ms == [] then [] else Bytes(ms[0]) + Stream(ms[1..])
  }

  lemma BytesAreOneFrame(m: Msg)
    requires Sendable(m)
    ensures FrameDone(Bytes(m)) && FrameEnd(Bytes(m)) == |Bytes(m)| && FirstMsg(Bytes(m)) == m
  {
    var b := Bytes(m);
    assert b[..HEADER_LEN] == Encode(m.header);
    assert b[HEADER_LEN..|b|] == m.body;
    DecodeEncode(m.header);
    RawFields(Encode(m.header));
  }

  lemma {:induction false} MessagesOfStream(ms: seq<Msg>)
    requires forall i :: 0 <= i < |ms| ==> Sendable(ms[i])
    ensures Messages(Stream(ms)) == ms && Leftover(Stream(ms)) == []
  {
    if ms != [] {
      BytesAreOneFrame(ms[0]);
      FirstFrameAppend(Bytes(ms[0]), Stream(ms[1..]));
      assert Bytes(ms[0])[|Bytes(ms[0])|..] + Stream(ms[1..]) == Stream(ms[1..]);
      MessagesOfStream(ms[1..]);
    }
  }

  /** For every sequence of messages and every regrouping of their bytes, the reader
      hands on a prefix of them, unchanged and in order, and all of them once it has
      consumed the stream. */
  lemma ReaderYieldsMessages(ms: seq<Msg>, script: seq<(Io, Io)>)
    requires forall i :: 0 <= i < |ms| ==> Sendable(ms[i])
    ensures var (r, n) := ReadAll(START, Stream(ms), 0, script);
            && r.delivered <= ms
            && (n == |Stream(ms)| ==> r.delivered == ms)
            && (r.parser.st == RdError ==> ScriptFails(script))
            && r.parser.st != HdError
  {
    var s := Stream(ms);
    assert s[..0] == [];
    ReadAllFollows(START, s, 0, script, false);
    var (r, n) := ReadAll(START, s, 0, script);
    MessagesOfStream(ms);
    SplitAt(s, n);
    MessagesAppend(s[..n], s[n..]);
    PartialIsReading(s[..n], s[n..]);
  }

  lemma HeaderOfAppend(b: seq<byte>, x: seq<byte>)
    requires |b| >= HEADER_LEN
    ensures (b + x)[..HEADER_LEN] == b[..HEADER_LEN]
  {
  }

  /** The unfinished end of a good stream never looks broken. */
  lemma PartialIsReading(b: seq<byte>, x: seq<byte>)
    requires Leftover(b + x) == []
    ensures Reading(ParserAfter(Leftover(b)).st)
  {
    var l := Leftover(b);
    MessagesAppend(b, x);
    LeftoverNotDone(b);
    if |l| >= HEADER_LEN {
      HeaderOfAppend(l, x);
    }
  }

  /** The text that goes through pack() and the wire comes back whole exactly when
      its length is between 1 and 32767; any other is refused, never ends, or is cut. */
  lemma PackedTextArrivesIff(text: seq<byte>, seqno: u32, udata: u32, k1: u64, k2: u64)
    ensures PackerOk(Pack(text, seqno, udata, k1, k2))
    ensures Messages(Frame(Pack(text, seqno, udata, k1, k2))) == [Msg(PackedHeader(|text|, seqno, udata, k1, k2), text)]
            <==> 1 <= |text| < MAX_LEN
  {
    var h := PackedHeader(|text|, seqno, udata, k1, k2);
    DecodeEncode(h);
    RawFields(Encode(h));
    var kept := text[..h.datalen];
    OneFrame(Encode(h), kept);
    assert Frame(Pack(text, seqno, udata, k1, k2)) == Encode(h) + kept;
    if |text| < 0x1_0000 {
      assert kept == text;
    } else {
      assert |kept| < |text|;
    }
  }

  lemma PackedLength(text: seq<byte>, seqno: u32, udata: u32, k1: u64, k2: u64)
    ensures BodyLen(Pack(text, seqno, udata, k1, k2).head) == |text| % 0x1_0000
  {
    var h := PackedHeader(|text|, seqno, udata, k1, k2);
    DecodeEncode(h);
    RawFields(Encode(h));
  }

  /** A header with the bytes it announces is one message, if it is good and they
      are any; otherwise it is none. */
  lemma OneFrame(head: seq<byte>, body: seq<byte>)
    requires |head| == HEADER_LEN && BodyLen(head) == |body|
    ensures Messages(head + body)
         == if HeaderOk(head) && |body| > 0 then [Msg(Decode(head), body)] else []
  {
    var f := head + body;
    TakeDrop(head, body);
    if FrameDone(f) {
      assert FrameEnd(f) == |f|;
      assert f[HEADER_LEN..|f|] == body;
      assert f[|f|..] == [];
      assert Messages([]) == [];
    }
  }
}
