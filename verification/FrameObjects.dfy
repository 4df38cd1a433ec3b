/**
 The framing objects with their buffers: each method runs the source's statements
 in place and is proved to compute the corresponding function of Framing.
 */
module FrameObjects {
  import opened Header
  import opened Framing

  /** A connected socket: bytes that have arrived, bytes that were given to it. */
  class CSocket {
    var incoming: seq<byte>
    var outgoing: seq<byte>

    constructor (arrived: seq<byte>)
      ensures incoming == arrived && outgoing == []
    {
      incoming, outgoing := arrived, [];
    }

    method Send(buf: array<byte>, off: nat, n: nat, io: Io) returns (o: Outcome)
      requires off + n <= buf.Length
      modifies this
      ensures o == SendCall(io, n)
      ensures incoming == old(incoming)
      ensures outgoing == old(outgoing) + (if o.Did? then buf[off..off + o.n] else [])
    {
      o := SendCall(io, n);
      if o.Did? {
        outgoing := outgoing + buf[off..off + o.n];
      }
    }

    method Read(buf: array<byte>, off: nat, n: nat, io: Io) returns (o: Outcome)
      requires off + n <= buf.Length
      modifies this, buf
      ensures o == ReadCall(io, n, |old(incoming)|)
      ensures outgoing == old(outgoing)
      ensures incoming == old(incoming)[if o.Did? then o.n else 0..]
      ensures buf[..off] == old(buf[..off])
      ensures o.Did? ==> buf[off..off + o.n] == old(incoming)[..o.n]
      ensures !o.Did? ==> buf[..] == old(buf[..])
    {
      o := ReadCall(io, n, |incoming|);
      if o.Did? {
        forall i | 0 <= i < o.n {
          buf[off + i] := incoming[i];
        }
        incoming := incoming[o.n..];
      } else {
        assert incoming[0..] == incoming;
      }
    }
  }

  class CCNIMsgPacker {
    const hd: array<byte>
    var data: array?<byte>
    var pos: nat
    var st: SendState

    ghost predicate Valid()
      reads this, hd, data
    {
      hd.Length == HEADER_LEN && data != hd && PackerOk(View())
    }

    function View(): Packer
      reads this, hd, data
    {
      Packer(hd[..], if data == null then [] else data[..], pos, st)
    }

    constructor ()
      ensures Valid() && fresh(hd) && data == null
      ensures View() == Packer(Encode(BLANK), [], 0, SdHd)
    {
      var h := new byte[HEADER_LEN](i => 0);
      var e := Encode(BLANK);
      forall i | 0 <= i < HEADER_LEN {
        h[i] := e[i];
      }
      hd, data, pos, st := h, null, 0, SdHd;
      new;
      assert hd[..] == e;
      assert e[4..6] == ToBytes(0, 2);
      assert BodyLen(e) == 0;
    }

    method Free()
      modifies this
      ensures data == null && pos == 0 && st == SdHd
    {
      data, pos, st := null, 0, SdHd;
    }

    /** pack(): the dumped text becomes the body, its length narrowed to 16 bits. */
    method PackText(text: array<byte>, seqno: u32, udata: u32, k1: u64, k2: u64)
      requires hd.Length == HEADER_LEN && text != hd
      modifies this, hd
      ensures Valid() && data == text
      ensures View() == Pack(text[..], seqno, udata, k1, k2)
      ensures var h := Decode(hd[..]);
              && h.seqno == seqno && h.udata == udata && h.secret1 == k1 && h.secret2 == k2
              && h.hdlen == 32 && h.verMajor == 1 && h.verMinor == 0 && h.datalen == text.Length % 0x1_0000
    {
      var e := Encode(PackedHeader(text.Length, seqno, udata, k1, k2));
      forall i | 0 <= i < HEADER_LEN {
        hd[i] := e[i];
      }
      data, pos, st := text, 0, SdHd;
      assert hd[..] == e;
      DecodeEncode(PackedHeader(text.Length, seqno, udata, k1, k2));
      RawFields(e);
    }

    method SendBodyTo(sock: CSocket, io: Io) returns (r: SendState)
      requires Valid() && data != null && st == SdBd
      modifies this, sock
      ensures Valid() && data == old(data)
      ensures var (q, out) := SendBody(old(View()), io);
              View() == q && r == q.st && sock.outgoing == old(sock.outgoing) + out
      ensures sock.incoming == old(sock.incoming)
    {
      var left := BodyLen(hd[..]) - pos;
      var o := sock.Send(data, pos, left, io);
      if !o.Did? {
        if o.Failed? {
          st := SdError;
        }
        return st;
      }
      if o.n < left {
        pos := pos + o.n;
        return st;
      }
      st := SdOk;
      return st;
    }

    method SendHeadTo(sock: CSocket, io1: Io, io2: Io) returns (r: SendState)
      requires Valid() && data != null && st == SdHd
      modifies this, sock
      ensures Valid() && data == old(data)
      ensures var (q, out) := SendHead(old(View()), io1, io2);
              View() == q && r == q.st && sock.outgoing == old(sock.outgoing) + out
      ensures sock.incoming == old(sock.incoming)
    {
      SendHeadIs(View(), io1, io2);
      var left := HEADER_LEN - pos;
      var o := sock.Send(hd, pos, left, io1);
      if !o.Did? {
        if o.Failed? {
          st := SdError;
        }
        return st;
      }
      if o.n < left {
        pos := pos + o.n;
        return st;
      }
      pos, st := 0, SdBd;
      r := SendBodyTo(sock, io2);
    }

    method SendTo(sock: CSocket, io1: Io, io2: Io) returns (r: SendState)
      requires Valid() && data != null
      modifies this, sock
      ensures Valid() && data == old(data)
      ensures var (q, out) := Send(old(View()), io1, io2);
              View() == q && r == q.st && sock.outgoing == old(sock.outgoing) + out
      ensures sock.incoming == old(sock.incoming)
    {
      if st == SdHd {
        r := SendHeadTo(sock, io1, io2);
      } else if st == SdBd {
        r := SendBodyTo(sock, io1);
      } else {
        r := st;
      }
    }
  }

  class CCNIMsgParser {
    const hd: array<byte>
    var data: array?<byte>
    var pos: nat
    var st: ReadState

    /** The body buffer has one byte more than the body, for the closing zero. */
    ghost predicate Valid()
      reads this, hd, data
    {
      && hd.Length == HEADER_LEN && data != hd
      && (data == null ==> pos < HEADER_LEN && (st == RdHd || st == RdError || st == HdError))
      && (data != null ==> st != RdHd && st != HdError && data.Length == BodyLen(hd[..]) + 1 && pos <= BodyLen(hd[..]))
      && (st == RdBd ==> pos < BodyLen(hd[..]))
    }

    function View(): Parser
      requires hd.Length == HEADER_LEN && data != hd
      requires data == null ==> pos < HEADER_LEN
      requires data != null ==> data.Length == BodyLen(hd[..]) + 1 && pos <= BodyLen(hd[..])
      reads this, hd, data
    {
      if data == null then Parser(st, if st == HdError then hd[..] else hd[..pos], [])
      else Parser(st, hd[..], if st == RdOk then data[..BodyLen(hd[..])] else data[..pos])
    }

    lemma ViewOk()
      requires Valid()
      ensures ParserOk(View())
    {
    }

    constructor ()
      ensures Valid() && fresh(hd) && View() == FREE_PARSER
    {
      hd := new byte[HEADER_LEN](i => 0);
      data, pos, st := null, 0, RdHd;
    }

    /** free() rewinds only a parser that has a body buffer. */
    method Free()
      requires Valid()
      modifies this
      ensures Valid()
      ensures old(data) != null ==> View() == FREE_PARSER
      ensures old(data) == null ==> View() == old(View())
    {
      if data != null {
        data, pos, st := null, 0, RdHd;
      }
    }

    /** ::read into the body buffer: what it got, and the body as far as it is in. */
    method FillBody(sock: CSocket, io: Io) returns (o: Outcome)
      requires data != null && hd.Length == HEADER_LEN && data.Length == BodyLen(hd[..]) + 1 && pos <= BodyLen(hd[..])
      modifies data, sock
      ensures o == ReadCall(io, BodyLen(old(hd[..])) - pos, |old(sock.incoming)|)
      ensures data[..pos + (if o.Did? then o.n else 0)]
           == old(data[..pos]) + old(sock.incoming)[..if o.Did? then o.n else 0]
      ensures sock.incoming == old(sock.incoming)[if o.Did? then o.n else 0..]
      ensures sock.outgoing == old(sock.outgoing)
    {
      ghost var had := data[..pos];
      o := sock.Read(data, pos, BodyLen(hd[..]) - pos, io);
      assert data[..pos] == had;
    }

    /** What _readRdbd makes of the read. */
    method KeepBody(o: Outcome) returns (r: ReadState)
      requires hd.Length == HEADER_LEN && data != null && data != hd && st == RdBd
      requires data.Length == BodyLen(hd[..]) + 1 && pos <= BodyLen(hd[..])
      requires o.Did? ==> o.n <= BodyLen(hd[..]) - pos
      requires o.WouldBlock? ==> pos < BodyLen(hd[..])
      modifies this, data
      ensures Valid() && data == old(data)
      ensures View() == (if o.WouldBlock? then Parser(RdBd, hd[..], old(data[..pos]))
                         else if o.Failed? || o.n == 0 then Parser(RdError, hd[..], old(data[..pos]))
                         else Parser(if o.n < BodyLen(hd[..]) - old(pos) then RdBd else RdOk,
                                     hd[..], old(data[..pos + o.n])))
      ensures r == View().st
    {
      if o.WouldBlock? {
        return st;
      }
      if o.Failed? || o.n == 0 {
        st := RdError;
        return st;
      }
      if o.n < BodyLen(hd[..]) - pos {
        pos := pos + o.n;
        return st;
      }
      data[BodyLen(hd[..])] := 0;
      st := RdOk;
      return st;
    }

    method ReadBodyFrom(sock: CSocket, io: Io) returns (r: ReadState)
      requires hd.Length == HEADER_LEN && data != null && data != hd && st == RdBd
      requires data.Length == BodyLen(hd[..]) + 1 && pos <= BodyLen(hd[..])
      modifies this, data, sock
      ensures Valid() && data == old(data)
      ensures var (q, n) := ReadBody(old(View()), old(sock.incoming), io);
              View() == q && r == q.st && sock.incoming == old(sock.incoming)[n..]
      ensures sock.outgoing == old(sock.outgoing)
    {
      ghost var had, inc := data[..pos], sock.incoming;
      BodyIs(hd[..], had, inc, io);
      var o := FillBody(sock, io);
      assert !o.Did? || o.n == 0 ==> had + inc[..0] == had;
      r := KeepBody(o);
    }

    /** The tail of _readRdhd once the header is in and verified. */
    method StartBody(sock: CSocket, io: Io) returns (r: ReadState)
      requires hd.Length == HEADER_LEN
      modifies this, sock
      ensures Valid() && fresh(data) && hd[..] == old(hd[..])
      ensures var (q, n) := ReadBody(Parser(RdBd, hd[..], []), old(sock.incoming), io);
              View() == q && r == q.st && sock.incoming == old(sock.incoming)[n..]
      ensures sock.outgoing == old(sock.outgoing)
    {
      data := new byte[BodyLen(hd[..]) + 1](i => 0);
      pos, st := 0, RdBd;
      assert data[..0] == [];
      r := ReadBodyFrom(sock, io);
    }

    /** The header is in: a bad one is refused, a good one is followed by its body. */
    method CheckHead(sock: CSocket, io: Io) returns (r: ReadState)
      requires hd.Length == HEADER_LEN && st == RdHd && data == null && pos < HEADER_LEN
      modifies this, sock
      ensures Valid() && (data == old(data) || fresh(data)) && hd[..] == old(hd[..])
      ensures if HeaderOk(hd[..]) then
                var (q, n) := ReadBody(Parser(RdBd, hd[..], []), old(sock.incoming), io);
                View() == q && r == q.st && sock.incoming == old(sock.incoming)[n..]
              else View() == Parser(HdError, hd[..], []) && r == HdError && sock.incoming == old(sock.incoming)
      ensures sock.outgoing == old(sock.outgoing)
    {
      if !HeaderOk(hd[..]) {
        st := HdError;
        return st;
      }
      r := StartBody(sock, io);
    }

    /** ::read into the header buffer: what it got, and the header as far as it is in. */
    method FillHead(sock: CSocket, io: Io) returns (o: Outcome)
      requires hd.Length == HEADER_LEN && pos < HEADER_LEN
      modifies hd, sock
      ensures o == ReadCall(io, HEADER_LEN - pos, |old(sock.incoming)|)
      ensures hd[..pos + (if o.Did? then o.n else 0)]
           == old(hd[..pos]) + old(sock.incoming)[..if o.Did? then o.n else 0]
      ensures sock.incoming == old(sock.incoming)[if o.Did? then o.n else 0..]
      ensures sock.outgoing == old(sock.outgoing)
    {
      ghost var had := hd[..pos];
      o := sock.Read(hd, pos, HEADER_LEN - pos, io);
      assert hd[..pos] == had;
    }

    /** The last read of a header that came in pieces, and what follows it. */
    method ReadRest(sock: CSocket, ghost had: seq<byte>, ghost inc: seq<byte>, ghost k: nat, io: Io) returns (r: ReadState)
      requires hd.Length == HEADER_LEN && st == RdHd && data == null && pos < HEADER_LEN
      requires k <= |inc| && hd[..] == had + inc[..k] && sock.incoming == inc[k..]
      modifies this, sock
      ensures Valid() && (data == old(data) || fresh(data)) && sock.outgoing == old(sock.outgoing)
      ensures var head := had + inc[..k];
              if HeaderOk(head) then
                var (q, m) := ReadBody(Parser(RdBd, head, []), inc[k..], io);
                View() == q && r == q.st && sock.incoming == inc[k + m..]
              else View() == Parser(HdError, head, []) && r == HdError && sock.incoming == inc[k..]
    {
      r := CheckHead(sock, io);
      ghost var m := ReadBody(Parser(RdBd, had + inc[..k], []), inc[k..], io).1;
      assert inc[k..][m..] == inc[k + m..];
    }

    /** A read that did not complete the header. */
    method KeepHead(o: Outcome, ghost had: seq<byte>, ghost inc: seq<byte>) returns (r: ReadState)
      requires hd.Length == HEADER_LEN && st == RdHd && data == null && |had| == pos < HEADER_LEN
      requires !o.Did? ==> hd[..pos] == had
      requires o.Did? ==> o.n <= |inc| && o.n < HEADER_LEN - pos && hd[..pos + o.n] == had + inc[..o.n]
      modifies this
      ensures Valid() && data == null
      ensures View() == (if o.WouldBlock? then Parser(RdHd, had, [])
                         else if o.Failed? || o.n == 0 then Parser(RdError, had, [])
                         else Parser(RdHd, had + inc[..o.n], []))
      ensures r == View().st
    {
      if o.Did? && o.n > 0 {
        pos := pos + o.n;
        return st;
      }
      assert hd[..pos] == had;
      if !o.WouldBlock? {
        st := RdError;
      }
      return st;
    }

    method ReadHeadFrom(sock: CSocket, io1: Io, io2: Io) returns (r: ReadState)
      requires Valid() && st == RdHd
      modifies this, hd, sock
      ensures Valid() && (data == old(data) || fresh(data))
      ensures var (q, n) := ReadHead(old(View()), old(sock.incoming), io1, io2);
              View() == q && r == q.st && sock.incoming == old(sock.incoming)[n..]
      ensures sock.outgoing == old(sock.outgoing)
    {
      ghost var had, inc := hd[..pos], sock.incoming;
      assert View() == Parser(RdHd, had, []);
      HeadIs(had, inc, io1, io2);
      var o := FillHead(sock, io1);
      if o.Did? && o.n == HEADER_LEN - pos {
        assert hd[..] == hd[..pos + o.n];
        r := ReadRest(sock, had, inc, o.n, io2);
      } else {
        assert !o.Did? || o.n == 0 ==> had + inc[..0] == had && hd[..pos] == had;
        r := KeepHead(o, had, inc);
      }
    }

    method ReadFrom(sock: CSocket, io1: Io, io2: Io) returns (r: ReadState)
      requires Valid()
      modifies this, hd, data, sock
      ensures Valid() && (data == old(data) || fresh(data))
      ensures var (q, n) := Read(old(View()), old(sock.incoming), io1, io2);
              View() == q && r == q.st && sock.incoming == old(sock.incoming)[n..]
      ensures sock.outgoing == old(sock.outgoing)
    {
      if st == RdHd {
        r := ReadHeadFrom(sock, io1, io2);
      } else if st == RdBd {
        r := ReadBodyFrom(sock, io1);
      } else {
        r := st;
        assert sock.incoming[0..] == sock.incoming;
      }
    }
  }

  lemma SliceOfSlice(s: seq<byte>, n: nat, i: nat, k: nat)
    requires i + k <= n <= |s|
    ensures s[..n][i..i + k] == s[i..i + k]
  {
  }

  /** CFlatMsgBuf: a frame in a buffer that is longer by a closing zero. */
  datatype CFlatMsgBuf = CFlatMsgBuf(data: array<byte>, len: nat) {
    predicate Whole() { len <= data.Length }

    function Bytes(): seq<byte>
      reads data
    {
      if Whole() then data[..len] else []
    }
  }

  /** CCNINotification: the buffer is shared and never written. */
  class CCNINotification {
    const msg: CFlatMsgBuf
    var pos: nat

    ghost predicate Valid()
      reads this, msg.data
    {
      msg.Whole() && NoticeOk(View())
    }

    function View(): Notice
      reads this, msg.data
    {
      Notice(msg.Bytes(), pos)
    }

    constructor (m: CFlatMsgBuf)
      requires m.Whole()
      ensures Valid() && msg == m && View() == Notice(m.Bytes(), 0)
    {
      msg, pos := m, 0;
    }

    method SendTo(sock: CSocket, io: Io) returns (r: NoticeState)
      requires Valid()
      modifies this, sock
      ensures var (m', out, st) := SendNotice(old(View()), io);
              View() == m' && r == st && sock.outgoing == old(sock.outgoing) + out
      ensures sock.incoming == old(sock.incoming)
      ensures r != NoticeDone ==> Valid()
    {
      var len := msg.len;
      if len <= 0 {
        return NoticeDone;
      }
      var o := sock.Send(msg.data, pos, len - pos, io);
      if !o.Did? {
        return if o.WouldBlock? then NoticeAgain else NoticeError;
      }
      SliceOfSlice(msg.data[..], len, pos, o.n);
      pos := pos + o.n;
      return if pos >= len then NoticeDone else NoticeAgain;
    }
  }
}
