/** The peer's view of a connection: its parser reads back the responses and
    notifications, in the order in which they were completed. */
module EndToEnd {
  import opened Header
  import opened Framing
  import opened FrameStream
  import opened ClientIo

  /** The bytes are one good frame with a body. */
  predicate IsFrame(b: seq<byte>) { FrameDone(b) && FrameEnd(b) == |b| }

  /** Every response text fits a frame and every queued buffer is a frame. */
  ghost predicate GoodTraffic(c: Conn) {
    && (forall t :: t in c.texts ==> 1 <= |t| < MAX_LEN)
    && (forall b :: b in c.queued ==> IsFrame(b))
  }

  lemma ResponseIsFrame(h: Header, text: seq<byte>)
    requires 1 <= |text| < MAX_LEN
    ensures IsFrame(ResponseFrame(h, text))
  {
    PackIsOk(text, h);
    PackedLength(text, h.seqno, h.udata, h.secret1, h.secret2);
    var p := Pack(text, h.seqno, h.udata, h.secret1, h.secret2);
    var packed := PackedHeader(|text|, h.seqno, h.udata, h.secret1, h.secret2);
    DecodeEncode(packed);
    RawFields(p.head);
    assert text[..BodyLen(p.head)] == text;
    TakeDrop(p.head, text);
  }

  lemma {:induction false} ReplyIndex(ps: seq<Piece>, i: nat) returns (k: nat)
    requires i < |ps| && ps[i].Response?
    ensures k < |Replies(ps)| && Replies(ps)[k] == ps[i].bytes
  {
    var n := |ps| - 1;
    if i == n {
      k := |Replies(ps)| - 1;
    } else {
      assert ps[..n][i] == ps[i];
      k := ReplyIndex(ps[..n], i);
    }
  }

  lemma PiecesAreFrames(c: Conn, i: nat)
    requires RepliesOk(c) && NotesOk(c) && GoodTraffic(c) && i < |c.frames|
    ensures IsFrame(c.frames[i].bytes)
  {
    if c.frames[i].Response? {
      var k := ReplyIndex(c.frames, i);
      ResponseIsFrame(c.requests[k], c.texts[k]);
    } else {
      assert c.frames[i] in c.frames;
    }
  }

  predicate AllFrames(ps: seq<Piece>) {
    forall i :: 0 <= i < |ps| ==> IsFrame(ps[i].bytes)
  }

  function FrameMsg(b: seq<byte>): Msg
    requires IsFrame(b)
  {
    FirstMsg(b)
  }

  function MessagesOf(ps: seq<Piece>): (ms: seq<Msg>)
    requires AllFrames(ps)
    ensures |ms| == |ps| && forall i :: 0 <= i < |ms| ==> ms[i] == FrameMsg(ps[i].bytes)
  {
    seq(|ps|, i requires 0 <= i < |ps| => FrameMsg(ps[i].bytes))
  }

  lemma FrameMessages(b: seq<byte>)
    requires IsFrame(b)
    ensures Messages(b) == [FrameMsg(b)] && Leftover(b) == []
  {
    assert b[|b|..] == [];
    assert Messages([]) == [] && Leftover([]) == [];
  }

  lemma MessagesOfAppend(ps: seq<Piece>)
    requires AllFrames(ps) && ps != []
    ensures AllFrames(ps[..|ps| - 1]) && IsFrame(ps[|ps| - 1].bytes)
    ensures MessagesOf(ps) == MessagesOf(ps[..|ps| - 1]) + [FrameMsg(ps[|ps| - 1].bytes)]
  {
  }

  /** A frame after complete frames is one more message. */
  lemma OneMoreFrame(b: seq<byte>, frame: seq<byte>)
    requires Leftover(b) == [] && IsFrame(frame)
    ensures Messages(b + frame) == Messages(b) + [FrameMsg(frame)] && Leftover(b + frame) == []
  {
    FrameMessages(frame);
    MessagesAppend(b, frame);
    assert [] + frame == frame;
  }

  /** Joined frames read back as the frames. */
  lemma {:induction false} JoinedMessages(ps: seq<Piece>)
    requires AllFrames(ps)
    ensures Messages(Join(ps)) == MessagesOf(ps) && Leftover(Join(ps)) == []
  {
    if ps != [] {
      MessagesOfAppend(ps);
      JoinedMessages(ps[..|ps| - 1]);
      OneMoreFrame(Join(ps[..|ps| - 1]), ps[|ps| - 1].bytes);
    }
  }

  /** An unfinished frame holds no message. */
  lemma PartHoldsNone(frame: seq<byte>, n: nat)
    requires IsFrame(frame) && n < |frame|
    ensures Messages(frame[..n]) == []
  {
    if n >= HEADER_LEN {
      assert frame[..n][..HEADER_LEN] == frame[..HEADER_LEN];
    }
  }

  lemma ProgressHoldsNone(c: Conn)
    requires c.alive && PhaseOk(c.core, true) && QueueOk(c) && RepliesOk(c) && GoodTraffic(c)
    ensures Messages(Progress(c.core)) == []
  {
    if c.core.phase == Sending {
      var k := |c.requests| - 1;
      assert c.texts[k] in c.texts;
      ResponseIsFrame(c.requests[k], c.texts[k]);
      SendingUnfinished(c.core.packer);
      PartHoldsNone(Frame(c.core.packer), Sent(c.core.packer));
    } else if c.core.phase == Notifing && c.core.notices != [] {
      assert c.queued[|c.fates|] in c.queued;
      PartHoldsNone(c.core.notices[0].buf, c.core.notices[0].pos);
    }
  }

  lemma SendingUnfinished(p: Packer)
    requires PackerOk(p) && (p.st == SdHd || p.st == SdBd) && IsFrame(Frame(p))
    ensures Sent(p) < |Frame(p)|
  {
    TakeDrop(p.head, p.text[..BodyLen(p.head)]);
  }

  lemma RestMessages(b: seq<byte>, rest: seq<byte>)
    requires Leftover(b) == []
    ensures Messages(b + rest) == Messages(b) + Messages(rest)
  {
    MessagesAppend(b, rest);
    assert [] + rest == rest;
  }

  lemma LiveWireMessages(c: Conn)
    requires WireOk(c) && QueueOk(c) && RepliesOk(c) && GoodTraffic(c) && AllFrames(c.frames) && c.alive
    ensures Messages(c.wire) == MessagesOf(c.frames)
  {
    JoinedMessages(c.frames);
    ProgressHoldsNone(c);
    RestMessages(Join(c.frames), Progress(c.core));
  }

  lemma DeadWireMessages(c: Conn)
    requires AllFrames(c.frames) && Join(c.frames) <= c.wire
    ensures MessagesOf(c.frames) <= Messages(c.wire)
  {
    JoinedMessages(c.frames);
    var rest := RestOf(Join(c.frames), c.wire);
    RestMessages(Join(c.frames), rest);
  }

  lemma RestOf(a: seq<byte>, w: seq<byte>) returns (rest: seq<byte>)
    requires a <= w
    ensures w == a + rest
  {
    rest := w[|a|..];
  }

  lemma WireMessages(c: Conn)
    requires WireOk(c) && QueueOk(c) && RepliesOk(c) && NotesOk(c) && GoodTraffic(c)
    ensures AllFrames(c.frames)
    ensures MessagesOf(c.frames) <= Messages(c.wire)
    ensures c.alive ==> Messages(c.wire) == MessagesOf(c.frames)
  {
    forall i | 0 <= i < |c.frames| ensures IsFrame(c.frames[i].bytes) {
      PiecesAreFrames(c, i);
    }
    if c.alive {
      LiveWireMessages(c);
    } else {
      DeadWireMessages(c);
    }
  }

  /** From server to peer, over every run of the client and every regrouping of its
      bytes on the way: the peer's parser hands on nothing but the frames completed by
      the client, in their order and unchanged; while the client lives, a peer that has
      read everything has them all. */
  lemma PeerReadsFrames(es: seq<Event>, script: seq<(Io, Io)>)
    requires PhaseOk(NEW_CONN.core, NEW_CONN.alive) && GoodTraffic(Run(NEW_CONN, es)) && Run(NEW_CONN, es).alive
    ensures var c := Run(NEW_CONN, es);
            var (r, n) := ReadAll(START, c.wire, 0, script);
            && AllFrames(c.frames)
            && r.delivered <= MessagesOf(c.frames)
            && (n == |c.wire| ==> r.delivered == MessagesOf(c.frames))
  {
    var c := Run(NEW_CONN, es);
    NewConnOk();
    RunWire(NEW_CONN, es);
    RunHistory(NEW_CONN, es);
    WireMessages(c);
    assert c.wire[..0] == [];
    ReadAllFollows(START, c.wire, 0, script, false);
    var (r, n) := ReadAll(START, c.wire, 0, script);
    SplitAt(c.wire, n);
    MessagesAppend(c.wire[..n], c.wire[n..]);
  }
}
