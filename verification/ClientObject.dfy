/**
 CClient's I/O members on their objects: the parser, the packer, the list of
 notifications and the socket, changed in place, each method proved to do what the
 corresponding function of ClientIo says.
 */
module ClientObject {
  import opened Header
  import opened Framing
  import opened FrameObjects
  import opened ClientIo

  function ViewsOf(ms: seq<CCNINotification>): (r: seq<Notice>)
    reads ms, set m | m in ms :: m.msg.data
    ensures |r| == |ms| && forall i :: 0 <= i < |r| ==> r[i] == ms[i].View()
  {
    seq(|ms|, i requires 0 <= i < |ms| reads ms, set m | m in ms :: m.msg.data => ms[i].View())
  }

  class CClientIo {
    const sock: CSocket
    const curmsg: CCNIMsgParser
    const resmsg: CCNIMsgPacker
    var pstate: Phase
    var notimsgs: seq<CCNINotification>

    /** A notification's buffer is none of those the client writes. */
    predicate Apart(buf: CFlatMsgBuf)
      reads this, curmsg
    {
      buf.Whole() && buf.data != curmsg.hd && buf.data != resmsg.hd && buf.data != curmsg.data
    }

    /** The buffers the client writes are its own; notification buffers are shared
        and only read. */
    ghost predicate Separate()
      reads this, curmsg, resmsg
    {
      && curmsg.hd != resmsg.hd
      && curmsg.data != resmsg.hd
      && (curmsg.data != null ==> curmsg.data != resmsg.data)
      && resmsg.data != curmsg.hd
      && (forall m :: m in notimsgs ==> Apart(m.msg))
      && (forall i, j :: 0 <= i < j < |notimsgs| ==> notimsgs[i] != notimsgs[j])
    }

    ghost predicate Valid()
      reads this, curmsg, curmsg.hd, curmsg.data, resmsg, resmsg.hd, resmsg.data
      reads notimsgs, set m | m in notimsgs :: m.msg.data
    {
      && Separate()
      && curmsg.Valid()
      && resmsg.hd.Length == HEADER_LEN && resmsg.data != resmsg.hd
      && CoreOk(View())
      && (pstate == Sending ==> resmsg.data != null && curmsg.data != null)
    }

    function Notices(): (r: seq<Notice>)
      reads this, notimsgs, set m | m in notimsgs :: m.msg.data
      ensures |r| == |notimsgs| && forall i :: 0 <= i < |r| ==> r[i] == notimsgs[i].View()
    {
      ViewsOf(notimsgs)
    }

    function View(): Core
      requires curmsg.Valid()
      reads this, curmsg, curmsg.hd, curmsg.data, resmsg, resmsg.hd, resmsg.data
      reads notimsgs, set m | m in notimsgs :: m.msg.data
    {
      Core(pstate, curmsg.View(), resmsg.View(), Notices())
    }

    constructor (s: CSocket)
      ensures Valid() && sock == s && View() == NEW_CORE
      ensures fresh(curmsg) && fresh(resmsg) && fresh(curmsg.hd) && fresh(resmsg.hd)
    {
      sock := s;
      curmsg := new CCNIMsgParser();
      resmsg := new CCNIMsgPacker();
      pstate, notimsgs := Idle, [];
    }

    /** The send of the first notification: it alone moves. */
    method SendFirst(io: Io) returns (st: NoticeState)
      requires Separate() && NoticesOk(Notices()) && notimsgs != []
      modifies sock, notimsgs[0]
      ensures var (m, out, st') := SendNotice(old(Notices())[0], io);
              && Notices() == old(Notices())[0 := m] && st == st'
              && sock.outgoing == old(sock.outgoing) + out
      ensures sock.incoming == old(sock.incoming)
    {
      ghost var before, ms := Notices(), notimsgs;
      assert forall i :: 0 < i < |ms| ==> ms[i] != ms[0];
      st := notimsgs[0].SendTo(sock, io);
      assert forall i :: 0 < i < |ms| ==> ms[i].View() == before[i];
      Replaced(before, Notices(), SendNotice(before[0], io).0);
    }

    /** Erases the first notification. */
    method DropFirst()
      requires notimsgs != []
      modifies this`notimsgs
      ensures notimsgs == old(notimsgs)[1..] && Notices() == old(Notices())[1..]
      ensures old(Separate()) ==> Separate()
    {
      notimsgs := notimsgs[1..];
    }

    /** What donotify does with the outcome of a send. */
    method FinishNotify(st: NoticeState) returns (ret: bool)
      requires notimsgs != []
      modifies this`pstate, this`notimsgs
      ensures notimsgs == (if st == NoticeAgain then old(notimsgs) else old(notimsgs)[1..])
      ensures Notices() == if st == NoticeAgain then old(Notices()) else old(Notices())[1..]
      ensures old(Separate()) ==> Separate()
      ensures pstate == if st == NoticeDone && notimsgs == [] then Idle else old(pstate)
      ensures ret == (st != NoticeError)
    {
      if st == NoticeError {
        DropFirst();
        return false;
      }
      if st == NoticeDone {
        DropFirst();
        if notimsgs == [] {
          pstate := Idle;
        }
      }
      return true;
    }

    /** The branch of donotify with something to send. */
    method NotifyFirst(io: Io) returns (ret: bool)
      requires Separate() && NoticesOk(Notices()) && notimsgs != []
      modifies this`pstate, this`notimsgs, sock, notimsgs
      ensures Separate()
      ensures var (m, out, st) := SendNotice(old(Notices())[0], io);
              && Notices() == (if st == NoticeAgain then old(Notices())[0 := m] else old(Notices())[1..])
              && pstate == (if st == NoticeDone && |old(Notices())| == 1 then Idle else Notifing)
              && ret == (st != NoticeError) && sock.outgoing == old(sock.outgoing) + out
      ensures sock.incoming == old(sock.incoming)
      ensures notimsgs == old(notimsgs) || notimsgs == old(notimsgs)[1..]
    {
      ghost var before := Notices();
      pstate := Notifing;
      assert Notices() == before && Separate();
      var st := SendFirst(io);
      assert Separate();
      DropUpdated(before, SendNotice(before[0], io).0);
      ret := FinishNotify(st);
    }

    /** The same in terms of the whole client: parser and packer stay. */
    method NotifyListed(io: Io) returns (ret: bool)
      requires Separate() && curmsg.Valid() && NoticesOk(Notices()) && notimsgs != []
      modifies this`pstate, this`notimsgs, sock, notimsgs
      ensures Separate() && curmsg.Valid()
      ensures var (m, out, st) := SendNotice(old(Notices())[0], io);
              && View() == old(View()).(
                   phase := if st == NoticeDone && |old(Notices())| == 1 then Idle else Notifing,
                   notices := if st == NoticeAgain then old(Notices())[0 := m] else old(Notices())[1..])
              && ret == (st != NoticeError) && sock.outgoing == old(sock.outgoing) + out
      ensures sock.incoming == old(sock.incoming)
      ensures notimsgs == old(notimsgs) || notimsgs == old(notimsgs)[1..]
    {
      ghost var parser, packer := curmsg.View(), resmsg.View();
      ret := NotifyFirst(io);
      assert curmsg.View() == parser && resmsg.View() == packer;
    }

    method DoNotify(io: Io) returns (ret: bool)
      requires Valid0() && curmsg.View() == FREE_PARSER
      modifies this`pstate, this`notimsgs, sock, notimsgs
      ensures Valid()
      ensures var e := ClientIo.DoNotify(old(View()), io);
              View() == e.core && ret == e.ret && sock.outgoing == old(sock.outgoing) + e.out
      ensures sock.incoming == old(sock.incoming)
      ensures notimsgs == old(notimsgs) || (old(notimsgs) != [] && notimsgs == old(notimsgs)[1..])
    {
      NotifyPhase(View(), io);
      NotifyEffect(View(), io);
      if notimsgs == [] {
        pstate := Idle;
        assert Notices() == [];
        return true;
      }
      ret := NotifyListed(io);
    }

    /** The frees between a completed response and donotify. */
    method FreeMessages()
      requires Valid0() && pstate == Sending && curmsg.data != null
      modifies curmsg, resmsg
      ensures Valid0() && curmsg.View() == FREE_PARSER
      ensures View() == Answered(old(View()))
    {
      ghost var notices := Notices();
      resmsg.Free();
      curmsg.Free();
      assert Notices() == notices;
    }

    /** Valid but for the packer, which has been freed. */
    ghost predicate Valid0()
      reads this, curmsg, curmsg.hd, curmsg.data, resmsg, resmsg.hd, resmsg.data
      reads notimsgs, set m | m in notimsgs :: m.msg.data
    {
      && Separate() && curmsg.Valid()
      && resmsg.hd.Length == HEADER_LEN && resmsg.data != resmsg.hd
      && NoticesOk(View().notices)
    }

    /** The send of the response: the packer alone moves. */
    method SendResponse(s1: Io, s2: Io) returns (st: SendState)
      requires Valid0() && PackerOk(resmsg.View()) && resmsg.data != null
      modifies this`pstate, sock, resmsg
      ensures Valid0() && resmsg.data == old(resmsg.data)
      ensures var (q, out) := Send(old(resmsg.View()), s1, s2);
              && View() == old(View()).(phase := Sending, packer := q)
              && PackerOk(q) && st == q.st && sock.outgoing == old(sock.outgoing) + out
      ensures sock.incoming == old(sock.incoming)
    {
      pstate := Sending;
      ghost var notices := Notices();
      st := resmsg.SendTo(sock, s1, s2);
      assert Notices() == notices;
    }

    /** The response is out: free both messages and go on to the notifications. */
    method AfterResponse(n: Io) returns (ret: bool)
      requires Valid0() && pstate == Sending && curmsg.data != null
      modifies this`pstate, this`notimsgs, sock, notimsgs, curmsg, resmsg
      ensures Valid()
      ensures var e := ClientIo.DoNotify(Answered(old(View())), n);
              View() == e.core && ret == e.ret && sock.outgoing == old(sock.outgoing) + e.out
      ensures sock.incoming == old(sock.incoming)
    {
      FreeMessages();
      ret := DoNotify(n);
    }

    /** dosend with its effect told by cases. */
    method DoSendByCases(s1: Io, s2: Io, n: Io) returns (ret: bool, ghost q: Packer, ghost out: seq<byte>)
      requires Valid0() && PackerOk(resmsg.View()) && resmsg.data != null && curmsg.data != null
      modifies this`pstate, this`notimsgs, sock, notimsgs, curmsg, resmsg
      ensures Valid() && (q, out) == Send(old(resmsg.View()), s1, s2)
      ensures q.st == SdOk ==>
                var e := ClientIo.DoNotify(Answered(old(View()).(phase := Sending, packer := q)), n);
                View() == e.core && ret == e.ret && sock.outgoing == (old(sock.outgoing) + out) + e.out
      ensures q.st != SdOk ==>
                && View() == old(View()).(phase := Sending, packer := q)
                && ret == (q.st != SdError) && sock.outgoing == old(sock.outgoing) + out
      ensures sock.incoming == old(sock.incoming)
    {
      q, out := Send(resmsg.View(), s1, s2).0, Send(resmsg.View(), s1, s2).1;
      var st := SendResponse(s1, s2);
      curmsg.ViewOk();
      if st == SdOk {
        ret := AfterResponse(n);
      } else {
        ret := st != SdError;
      }
    }

    method DoSend(s1: Io, s2: Io, n: Io) returns (ret: bool)
      requires Valid0() && PackerOk(resmsg.View()) && resmsg.data != null && curmsg.data != null
      modifies this`pstate, this`notimsgs, sock, notimsgs, curmsg, resmsg
      ensures Valid()
      ensures var e := ClientIo.DoSend(old(View()), s1, s2, n);
              View() == e.core && ret == e.ret && sock.outgoing == old(sock.outgoing) + e.out
      ensures sock.incoming == old(sock.incoming)
    {
      SendEffect(View(), s1, s2, n);
      ghost var before, q, out := sock.outgoing, resmsg.View(), [];
      ret, q, out := DoSendByCases(s1, s2, n);
      if q.st == SdOk {
        Regroup(before, out, ClientIo.DoNotify(Answered(old(View()).(phase := Sending, packer := q)), n).out);
      }
    }

    method ReadParser(r1: Io, r2: Io) returns (st: ReadState)
      requires Valid0()
      modifies sock, curmsg, curmsg.hd, curmsg.data
      ensures Separate() && curmsg.Valid() && Notices() == old(Notices()) && resmsg.View() == old(resmsg.View())
      ensures curmsg.data == old(curmsg.data) || fresh(curmsg.data)
      ensures ParserOk(old(curmsg.View()))
      ensures var (q, n) := Read(old(curmsg.View()), old(sock.incoming), r1, r2);
              curmsg.View() == q && ParserOk(q) && st == q.st && sock.incoming == old(sock.incoming)[n..]
      ensures st == RdOk ==> curmsg.data != null
      ensures sock.outgoing == old(sock.outgoing)
    {
      curmsg.ViewOk();
      st := curmsg.ReadFrom(sock, r1, r2);
      curmsg.ViewOk();
    }

    /** The read of a request: the parser alone moves. */
    method ReadRequest(r1: Io, r2: Io) returns (st: ReadState)
      requires Valid()
      modifies this`pstate, sock, curmsg, curmsg.hd, curmsg.data
      ensures Valid0() && (curmsg.data == old(curmsg.data) || fresh(curmsg.data))
      ensures var (q, n) := Read(old(curmsg.View()), old(sock.incoming), r1, r2);
              && View() == old(View()).(phase := Reading, parser := q)
              && ParserOk(q) && st == q.st && sock.incoming == old(sock.incoming)[n..]
      ensures st == RdOk ==> curmsg.data != null
      ensures sock.outgoing == old(sock.outgoing)
    {
      pstate := Reading;
      ghost var before := Notices();
      st := ReadParser(r1, r2);
      assert View() == Core(Reading, curmsg.View(), resmsg.View(), before);
    }

    /** procMsgs ends by packing the response with the request's own fields. */
    method PackReply(reply: array<byte>)
      requires Valid0() && curmsg.data != null && curmsg.hd.Length == HEADER_LEN
      requires reply != curmsg.hd && reply != resmsg.hd && reply != curmsg.data
      modifies resmsg, resmsg.hd
      ensures Valid0() && resmsg.data == reply && PackerOk(resmsg.View())
      ensures var h := Decode(curmsg.hd[..]);
              View() == old(View()).(packer := Pack(reply[..], h.seqno, h.udata, h.secret1, h.secret2))
    {
      ghost var notices, parser := Notices(), curmsg.View();
      var h := Decode(curmsg.hd[..]);
      resmsg.PackText(reply, h.seqno, h.udata, h.secret1, h.secret2);
      assert Notices() == notices && curmsg.View() == parser;
    }

    /** The packed response is sent at once. */
    method Answer(a: Answers, reply: array<byte>) returns (ret: bool)
      requires Valid0() && curmsg.data != null && curmsg.hd.Length == HEADER_LEN && reply[..] == a.reply
      requires reply != curmsg.hd && reply != resmsg.hd && reply != curmsg.data
      modifies this`pstate, this`notimsgs, sock, notimsgs, curmsg, resmsg, resmsg.hd
      ensures Valid()
      ensures var h := Decode(old(curmsg.hd[..]));
              var c := old(View()).(packer := Pack(a.reply, h.seqno, h.udata, h.secret1, h.secret2));
              PackerOk(c.packer) &&
              var e := ClientIo.DoSend(c, a.s1, a.s2, a.n);
              View() == e.core && ret == e.ret && sock.outgoing == old(sock.outgoing) + e.out
      ensures sock.incoming == old(sock.incoming)
    {
      PackReply(reply);
      ret := DoSend(a.s1, a.s2, a.n);
    }

    /** doread with its effect told by cases; `goes` when the request is dispatched. */
    method DoReadByCases(a: Answers, reply: array<byte>) returns (ret: bool, ghost goes: bool)
      requires Valid() && reply[..] == a.reply
      requires reply != curmsg.hd && reply != resmsg.hd && reply != curmsg.data
      modifies this`pstate, this`notimsgs, sock, notimsgs, curmsg, curmsg.hd, curmsg.data, resmsg, resmsg.hd
      ensures Valid()
      ensures ParserOk(old(curmsg.View()))
      ensures var (q, n) := Read(old(curmsg.View()), old(sock.incoming), a.r1, a.r2);
              && sock.incoming == old(sock.incoming)[n..]
              && goes == (q.st == RdOk && a.xmlOk)
              && (!goes ==> View() == old(View()).(phase := Reading, parser := q)
                            && ret == (q.st == RdBd) && sock.outgoing == old(sock.outgoing))
              && (goes ==> |q.hd| == HEADER_LEN && PackerOk(Dispatched(old(View()), old(sock.incoming), a).packer))
      ensures goes ==>
                var e := ClientIo.DoSend(Dispatched(old(View()), old(sock.incoming), a), a.s1, a.s2, a.n);
                View() == e.core && ret == e.ret && sock.outgoing == old(sock.outgoing) + e.out
    {
      curmsg.ViewOk();
      var st := ReadRequest(a.r1, a.r2);
      goes := st == RdOk && a.xmlOk;
      if st == RdError {
        return false, goes;
      }
      if st == HdError {
        return false, goes;
      }
      if st == RdBd {
        return true, goes;
      }
      if st != RdOk || !a.xmlOk {
        return false, goes;
      }
      ret := Answer(a, reply);
    }

    method DoRead(a: Answers, reply: array<byte>) returns (ret: bool)
      requires Valid() && reply[..] == a.reply
      requires reply != curmsg.hd && reply != resmsg.hd && reply != curmsg.data
      modifies this`pstate, this`notimsgs, sock, notimsgs, curmsg, curmsg.hd, curmsg.data, resmsg, resmsg.hd
      ensures Valid()
      ensures var e := ClientIo.DoRead(old(View()), old(sock.incoming), a);
              && View() == e.core && ret == e.ret
              && sock.outgoing == old(sock.outgoing) + e.out && sock.incoming == old(sock.incoming)[e.took..]
    {
      ReadEffect(View(), sock.incoming, a);
      ghost var goes;
      ret, goes := DoReadByCases(a, reply);
    }

    /** doWork up to its return value; what follows a false one is the lobby's. */
    method DoWork(a: Answers, reply: array<byte>) returns (ret: bool)
      requires Ready() && reply[..] == a.reply
      requires reply != curmsg.hd && reply != resmsg.hd && reply != curmsg.data
      modifies this`pstate, this`notimsgs, sock, notimsgs, curmsg, curmsg.hd, curmsg.data, resmsg, resmsg.hd
      ensures Valid() && (ret ==> Ready())
      ensures var e := ClientIo.DoWork(old(View()), old(sock.incoming), a);
              && View() == e.core && ret == e.ret
              && sock.outgoing == old(sock.outgoing) + e.out && sock.incoming == old(sock.incoming)[e.took..]
    {
      WorkPhase(View(), sock.incoming, a);
      WorkTakes(View(), sock.incoming, a);
      match pstate {
        case Idle => ret := DoRead(a, reply);
        case Reading => ret := DoRead(a, reply);
        case Sending => ret := DoSend(a.s1, a.s2, a.n);
        case Notifing => ret := DoNotify(a.n);
      }
    }

    /** A live client between two calls. */
    ghost predicate Ready()
      reads this, curmsg, curmsg.hd, curmsg.data, resmsg, resmsg.hd, resmsg.data
      reads notimsgs, set m | m in notimsgs :: m.msg.data
    {
      Valid() && PhaseOk(View(), true)
    }

    /** notimsgs.push_back. */
    method AppendNotice(m: CCNINotification)
      requires Separate() && m !in notimsgs && Apart(m.msg)
      modifies this`notimsgs
      ensures Separate() && notimsgs == old(notimsgs) + [m]
      ensures Notices() == old(Notices()) + [m.View()]
    {
      notimsgs := notimsgs + [m];
    }

    /** Puts a new notification at the end of the list. */
    method PushNotice(buf: CFlatMsgBuf) returns (m: CCNINotification)
      requires Valid() && Apart(buf)
      modifies this`notimsgs
      ensures Valid() && fresh(m) && notimsgs == old(notimsgs) + [m]
      ensures View() == old(View()).(notices := old(View()).notices + [Notice(buf.Bytes(), 0)])
    {
      ghost var core := View();
      m := new CCNINotification(buf);
      AppendNotice(m);
      NoticesAppend(core.notices, buf.Bytes());
      assert View() == core.(notices := core.notices + [Notice(buf.Bytes(), 0)]);
    }

    /** queueNotification: only an idle client sends at once, and what that returns is
        ignored. */
    method QueueNotification(buf: CFlatMsgBuf, n: Io)
      requires Valid() && Apart(buf) && (pstate == Idle ==> curmsg.View() == FREE_PARSER)
      modifies this`pstate, this`notimsgs, sock, notimsgs
      ensures Valid()
      ensures var e := ClientIo.QueueNotification(old(View()), buf.Bytes(), n);
              View() == e.core && sock.outgoing == old(sock.outgoing) + e.out
      ensures sock.incoming == old(sock.incoming)
    {
      var m := PushNotice(buf);
      if pstate == Idle {
        var ignored := DoNotify(n);
      }
    }
  }

  lemma NoticesAppend(ms: seq<Notice>, buf: seq<byte>)
    requires NoticesOk(ms)
    ensures NoticesOk(ms + [Notice(buf, 0)])
  {
  }

  /** donotify with something to send. */
  lemma NotifyEffect(c: Core, io: Io)
    requires NoticesOk(c.notices)
    ensures c.notices != [] ==>
              var (m, out, st) := SendNotice(c.notices[0], io);
              var e := ClientIo.DoNotify(c, io);
              && e.core == c.(phase := if st == NoticeDone && |c.notices| == 1 then Idle else Notifing,
                              notices := if st == NoticeAgain then c.notices[0 := m] else c.notices[1..])
              && e.out == out && e.ret == (st != NoticeError)
  {
  }

  /** dosend in its two cases. */
  lemma SendEffect(c: Core, s1: Io, s2: Io, n: Io)
    requires NoticesOk(c.notices) && PackerOk(c.packer)
    ensures var (q, out) := Send(c.packer, s1, s2);
            var e := ClientIo.DoSend(c, s1, s2, n);
            if q.st == SdOk then
              var e1 := ClientIo.DoNotify(Answered(c.(phase := Sending, packer := q)), n);
              e.core == e1.core && e.out == out + e1.out && e.ret == e1.ret
            else
              e.core == c.(phase := Sending, packer := q) && e.out == out && e.ret == (q.st != SdError)
  {
  }

  /** doread in its cases. */
  lemma ReadEffect(c: Core, inbox: seq<byte>, a: Answers)
    requires NoticesOk(c.notices) && ParserOk(c.parser)
    ensures var (q, n) := Read(c.parser, inbox, a.r1, a.r2);
            var e := ClientIo.DoRead(c, inbox, a);
            && e.took == n
            && (!(q.st == RdOk && a.xmlOk) ==>
                  e.core == c.(phase := Reading, parser := q) && e.out == [] && e.ret == (q.st == RdBd))
    ensures var q := Read(c.parser, inbox, a.r1, a.r2).0;
            q.st == RdOk && a.xmlOk && |q.hd| == HEADER_LEN && PackerOk(Dispatched(c, inbox, a).packer) ==>
              var e := ClientIo.DoRead(c, inbox, a);
              var e1 := ClientIo.DoSend(Dispatched(c, inbox, a), a.s1, a.s2, a.n);
              e.core == e1.core && e.out == e1.out && e.ret == e1.ret
  {
  }

  lemma WorkTakes(c: Core, inbox: seq<byte>, a: Answers)
    requires CoreOk(c)
    ensures c.phase == Sending || c.phase == Notifing ==> inbox[ClientIo.DoWork(c, inbox, a).took..] == inbox
  {
    if c.phase == Sending {
      SendEffect(c, a.s1, a.s2, a.n);
    }
  }

  lemma Replaced(ns: seq<Notice>, ns': seq<Notice>, m: Notice)
    requires ns != [] && |ns'| == |ns| && ns'[0] == m && forall i :: 0 < i < |ns| ==> ns'[i] == ns[i]
    ensures ns' == ns[0 := m]
  {
  }

  lemma DropUpdated(ns: seq<Notice>, m: Notice)
    requires ns != []
    ensures ns[0 := m][1..] == ns[1..]
  {
  }
}
