/**
 Sending without resuming: tcp_write's loop, block_send for the answers given at
 login, and packToFlat, which makes the one buffer all notified clients share.
 */
module BlockSend {
  import opened Header
  import opened Framing
  import opened FrameObjects

  /** How tcp_write stands when the socket has given the answers of a script: all was
      taken, an error, or it is still trying. */
  datatype Progress = All | Error | Trying

  /** The number of answers that took bytes. */
  function Moving(script: seq<Io>): nat {
    if script == [] then 0
    else Moving(script[..|script| - 1]) + (if script[|script| - 1].Moves? then 1 else 0)
  }

  /** What comes of n bytes when every answer is asked to take all that is left of them: the
      outcome, the answers used and the bytes taken. */
  function Offered(script: seq<Io>, n: nat): (r: (Progress, nat, nat))
    ensures r.1 <= |script| && r.2 <= n
    decreases |script|
  {
    if n == 0 then (All, 0, 0)
    else if script == [] then (Trying, 0, 0)
    else
      var o := SendCall(script[0], n);
      if o.Failed? then (Error, 1, 0)
      else
        var k := if o.Did? then o.n else 0;
        var r := Offered(script[1..], n - k);
        (r.0, 1 + r.1, k + r.2)
  }

  lemma OneAnswer(script: seq<Io>, used: nat, n: nat, m: nat)
    requires used < |script| && n < m
    ensures var o := SendCall(script[used], m - n);
            && (o.Failed? ==> Total(script, used, n, m) == (Error, used + 1, n))
            && (o.WouldBlock? ==> Total(script, used, n, m) == Total(script, used + 1, n, m))
            && (o.Did? ==> Total(script, used, n, m) == Total(script, used + 1, n + o.n, m))
  {
    assert script[used..][1..] == script[used + 1..];
  }

  /** The whole, when `used` answers have taken n of m bytes. */
  function Total(script: seq<Io>, used: nat, n: nat, m: nat): (Progress, nat, nat)
    requires used <= |script| && n <= m
  {
    var o := Offered(script[used..], m - n);
    (o.0, used + o.1, n + o.2)
  }

  lemma {:induction false} MovingFirst(script: seq<Io>)
    requires script != []
    ensures Moving(script) == (if script[0].Moves? then 1 else 0) + Moving(script[1..])
  {
    var n := |script| - 1;
    if n > 0 {
      MovingFirst(script[..n]);
      assert script[..n][1..] == script[1..][..n - 1];
    }
  }

  /** Every answer that takes anything gets on, and only a hard failure stops. */
  lemma {:induction false} OfferedSays(script: seq<Io>, n: nat)
    ensures var (r, used, k) := Offered(script, n);
            && (r == All <==> k == n)
            && (r == Error ==> used >= 1 && Fails(script[used - 1]))
            && (forall i :: 0 <= i < used && Fails(script[i]) ==> r == Error && i == used - 1)
            && (r == Trying ==> used == |script| && Moving(script) < n)
    decreases |script|
  {
    if n > 0 && script != [] {
      var o := SendCall(script[0], n);
      MovingFirst(script);
      if !o.Failed? {
        var k := if o.Did? then o.n else 0;
        OfferedSays(script[1..], n - k);
        var (r, used, _) := Offered(script[1..], n - k);
        forall i | 0 <= i < used + 1 && Fails(script[i]) ensures r == Error && i == used {
          assert i > 0 && script[1..][i - 1] == script[i];
        }
      }
    }
  }

  /** The loop gives the socket the buffer's bytes in order and none twice, stops at the
      first error, and gets on with every answer that takes anything: it never needs more
      of those than there are bytes. */
  method TcpWrite(sock: CSocket, buf: array<byte>, len: nat, script: seq<Io>)
    returns (r: Progress, used: nat, ghost wlen: nat)
    requires len <= buf.Length
    modifies sock
    ensures used <= |script| && wlen <= len && (r, used, wlen) == Offered(script, len)
    ensures sock.outgoing == old(sock.outgoing) + buf[..wlen] && sock.incoming == old(sock.incoming)
    ensures r == All <==> wlen == len
    ensures r == Error ==> used >= 1 && Fails(script[used - 1])
    ensures forall i :: 0 <= i < used && Fails(script[i]) ==> r == Error && i == used - 1
    ensures r == Trying ==> used == |script| && Moving(script) < len
  {
    used := 0;
    var n: nat := 0;
    assert script[0..] == script;
    OfferedSays(script, len);
    while n < len && used < |script|
      invariant n <= len && used <= |script|
      invariant sock.outgoing == old(sock.outgoing) + buf[..n] && sock.incoming == old(sock.incoming)
      invariant Offered(script, len) == Total(script, used, n, len)
      decreases |script| - used
    {
      var o := sock.Send(buf, n, len - n, script[used]);
      OneAnswer(script, used, n, len);
      used := used + 1;
      if o.Failed? {
        return Error, used, n;
      }
      if o.Did? {
        assert buf[..n + o.n] == buf[..n] + buf[n..n + o.n];
        n := n + o.n;
      }
    }
    wlen := n;
    if n < len {
      return Trying, used, n;
    }
    return All, used, n;
  }

  /** One of the first n answers of a script fails hard. */
  predicate FailsWithin(script: seq<Io>, n: nat) { exists i :: 0 <= i < n && i < |script| && Fails(script[i]) }

  /** block_send: the header, and when all of it is out, the body. It gives up exactly when
      an answer it used fails hard, and without one it is done as soon as both scripts have
      enough answers that take something. */
  method BlockSend(p: CCNIMsgPacker, sock: CSocket, s1: seq<Io>, s2: seq<Io>)
    returns (r: Progress, used1: nat, used2: nat, ghost sent: nat)
    requires p.Valid() && p.data != null
    modifies sock
    ensures sent <= |Frame(p.View())| && used1 <= |s1| && used2 <= |s2| && (sent < HEADER_LEN ==> used2 == 0)
    ensures sock.outgoing == old(sock.outgoing) + Frame(p.View())[..sent] && sock.incoming == old(sock.incoming)
    ensures r == All <==> sent == |Frame(p.View())|
    ensures var (r1, n1, k1) := Offered(s1, HEADER_LEN);
            var (r2, n2, k2) := Offered(s2, |Frame(p.View())| - HEADER_LEN);
            (r, used1, used2, sent) == if r1 == All then (r2, n1, n2, k1 + k2) else (r1, n1, 0, k1)
    ensures r == Error <==> FailsWithin(s1, used1) || FailsWithin(s2, used2)
    ensures r == Trying ==>
              || (sent < HEADER_LEN && used1 == |s1| && Moving(s1) < HEADER_LEN)
              || (sent >= HEADER_LEN && used2 == |s2| && Moving(s2) < |Frame(p.View())| - HEADER_LEN)
    ensures (&& !FailsWithin(s1, |s1|) && Moving(s1) >= HEADER_LEN
             && !FailsWithin(s2, |s2|) && Moving(s2) >= |Frame(p.View())| - HEADER_LEN) ==> r == All
  {
    ghost var frame := Frame(p.View());
    used2 := 0;
    r, used1, sent := TcpWrite(sock, p.hd, HEADER_LEN, s1);
    assert p.hd[..sent] == frame[..sent];
    if r != All {
      assert r == Error ==> Fails(s1[used1 - 1]);
      return;
    }
    ghost var m;
    r, used2, m := TcpWrite(sock, p.data, BodyLen(p.hd[..]), s2);
    sent := HEADER_LEN + m;
    assert frame[..sent] == p.hd[..HEADER_LEN] + p.data[..m];
    assert r == Error ==> Fails(s2[used2 - 1]);
  }

  /** packToFlat: the frame of the text with all-zero request fields, and a final zero. */
  method PackToFlat(p: CCNIMsgPacker, text: array<byte>) returns (flat: CFlatMsgBuf)
    requires p.hd.Length == HEADER_LEN && text != p.hd
    modifies p, p.hd
    ensures fresh(flat.data) && flat.data.Length == flat.len + 1 && flat.data[flat.len] == 0
    ensures PackerOk(Pack(text[..], 0, 0, 0, 0)) && flat.Bytes() == Frame(Pack(text[..], 0, 0, 0, 0))
  {
    p.PackText(text, 0, 0, 0, 0);
    var n := BodyLen(p.hd[..]);
    var data := Joined(p.hd, text, n);
    flat := CFlatMsgBuf(data, HEADER_LEN + n);
  }

  /** The header's bytes, n bytes of the text and a zero, in a new buffer. */
  method Joined(hd: array<byte>, text: array<byte>, n: nat) returns (flat: array<byte>)
    requires hd.Length == HEADER_LEN && n <= text.Length
    ensures fresh(flat) && flat.Length == HEADER_LEN + n + 1 && flat[HEADER_LEN + n] == 0
    ensures flat[..HEADER_LEN + n] == hd[..] + text[..n]
  {
    flat := new byte[HEADER_LEN + n + 1](i => 0);
    forall i | 0 <= i < HEADER_LEN {
      flat[i] := hd[i];
    }
    forall i | 0 <= i < n {
      flat[HEADER_LEN + i] := text[i];
    }
  }
}
