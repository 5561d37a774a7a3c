/** One socket as the driver keeps it: mirrored registers, flat send and receive buffers that
    are written in place, and a queue of segments for each. Each method does to the record
    that the socket stands for what the function of DriverSpec does. */
module Sockets {
  import opened Bytes
  import opened Options
  import opened Queues
  import opened RingAlloc
  import opened DriverSpec
  import opened Calls

  /** getTXBufferIndex and getRXBufferIndex on a queue: only its two ends are looked at. */
  method PlaceFor(q: Queue<Seg>, bufLen: nat, len: u16) returns (at: int)
    requires q.Valid()
    ensures at == BufferIndex(q.Contents(), bufLen, len)
    ensures var segs := q.Contents();
            Layout(segs, bufLen) && bufLen <= 32767 && !Full(segs) && len > 0 ==>
              var end := NewestEnd(segs);
              at == if Fits(segs, end, len, bufLen) then end else if Fits(segs, 0, len, bufLen) then 0 else -1
  {
    ghost var segs := q.Contents();
    if Layout(segs, bufLen) && bufLen <= 32767 && !Full(segs) && len > 0 { PlaceFoundIff(segs, bufLen, len); }
    hide Fits, Layout;
    if q.IsEmpty() {
      return if len <= bufLen then 0 else -1;
    }
    var front, back := q.PeekFront(), q.PeekBack();
    var queueStart := ToInt16(front.value.start);
    var queueEnd := ToInt16(back.value.end);
    if queueEnd >= queueStart {
      var spaceAtEnd := ToInt16(bufLen - queueEnd);
      if len <= spaceAtEnd { return queueEnd; }
      if len <= queueStart { return 0; }
      return -1;
    }
    at := if len <= queueStart - queueEnd then queueEnd else -1;
  }

  /** memcpy into a buffer; bytes outside it are not part of the state. */
  method CopyIn(buf: array<byte>, at: int, data: seq<byte>)
    modifies buf
    ensures buf[..] == Put(old(buf[..]), at, data)
  {
    forall i | 0 <= i < buf.Length && at <= i < at + |data| { buf[i] := data[i - at]; }
  }

  class Socket {
    var reg: Regs
    const txKb: nat
    const txBuf: array<byte>
    const txq: Queue<Seg>
    const rxBuf: array<byte>
    const rxq: Queue<Seg>
    var sending: bool
    var receiving: bool
    ghost var clash: bool

    /** The objects that make up the socket. */
    ghost const objects: set<object>

    ghost predicate Valid()
      reads this, objects
    {
      && objects == {this, txBuf, rxBuf, txq, txq.data, rxq, rxq.data}
      && txBuf != rxBuf && txq != rxq && txq.data != rxq.data
      && txq.Valid() && rxq.Valid()
      && txq.data.Length == SOCKET_QUEUE_SIZE == rxq.data.Length
    }

    /** The record of DriverSpec that the socket stands for. */
    ghost function View(): (s: Sock)
      requires Valid()
      reads this, objects
    {
      Sock(reg, txKb, txBuf[..], txq.Contents(), rxBuf[..], rxq.Contents(), sending, receiving, clash)
    }

    constructor (r: Regs, kb: nat, txLen: nat, rxLen: nat)
      ensures Valid() && fresh(objects)
      ensures View() == Sock(r, kb, View().txBuf, [], View().rxBuf, [], false, false, false)
      ensures |View().txBuf| == txLen && |View().rxBuf| == rxLen
    {
      var sendBuffer, receiveBuffer := new byte[txLen], new byte[rxLen];
      var sends: Queue<Seg> := new Queue(SOCKET_QUEUE_SIZE);
      var receives: Queue<Seg> := new Queue(SOCKET_QUEUE_SIZE);
      reg, txKb := r, kb;
      txBuf, rxBuf, txq, rxq := sendBuffer, receiveBuffer, sends, receives;
      sending, receiving, clash := false, false, false;
      objects := {this, sendBuffer, receiveBuffer, sends, sends.data, receives, receives.data};
    }

    method SetReg(r: Regs)
      requires Valid()
      modifies this
      ensures Valid() && View() == old(View()).(reg := r)
    {
      reg := r;
    }

    /** Segment production of send and sendto. */
    method Enqueue(buf: seq<byte>, addr: seq<byte>, port: u16) returns (ret: Ret)
      requires Valid() && |buf| < 65536
      modifies objects
      ensures Valid() && (View(), ret) == DriverSpec.Enqueue(old(View()), buf, addr, port)
    {
      hide BufferIndex, Put, Full;
      ghost var before := View();
      var len: int := |buf|;
      var at := PlaceFor(txq, txBuf.Length, ToU16(len + 3));
      if at == -1 { return TXBUF_FULL; }
      var success, _ := txq.PushBack(Seg(ToU16(at), ToU16(at + len + 3), addr, port));
      if !success { return QUEUE_FULL; }
      CopyIn(txBuf, at + 3, buf);
      clash := clash || Full(before.txq);
      ret := SOCK_OK;
    }

    /** The header goes in front of the oldest payload. */
    method PutTxHeader(start: nat, h: seq<byte>)
      requires Valid()
      modifies objects
      ensures Valid() && View() == old(View()).(txBuf := Put(old(View()).txBuf, start, h))
    {
      hide Put;
      CopyIn(txBuf, start, h);
    }

    /** The place for a receive transfer gets its header. */
    method PutRxHeader(at: int, h: seq<byte>)
      requires Valid()
      modifies objects
      ensures Valid()
      ensures var sk := old(View());
              View() == sk.(rxBuf := Put(sk.rxBuf, at, h), clash := sk.clash || Full(sk.rxq))
    {
      hide Put, Full;
      ghost var before := View();
      CopyIn(rxBuf, at, h);
      clash := clash || Full(before.rxq);
    }

    method SetSending(b: bool)
      requires Valid()
      modifies this
      ensures Valid() && View() == old(View()).(sending := b)
    {
      sending := b;
    }

    method SetReceiving(b: bool)
      requires Valid()
      modifies this
      ensures Valid() && View() == old(View()).(receiving := b)
    {
      receiving := b;
    }

    /** The sent segment is dropped. */
    method PopSent()
      requires Valid()
      modifies objects
      ensures Valid() && View() == DriverSpec.PopSent(old(View()))
    {
      var sent := txq.PopFront();
      sending := false;
    }

    /** A TCP timeout clears the send queue. */
    method ClearSends()
      requires Valid()
      modifies objects
      ensures Valid() && View() == old(View()).(sending := false, txq := [])
    {
      sending := false;
      txq.Clear();
    }

    /** READ_BUF: the bytes are in place and the segment is queued, if there is room for it. */
    method BufferRead(start: int, len: nat, bytes: seq<byte>) returns (queued: bool)
      requires Valid()
      modifies objects
      ensures Valid() && queued == (|old(View()).rxq| < SOCKET_QUEUE_SIZE)
      ensures var sk := old(View()).(rxBuf := Put(old(View()).rxBuf, start, bytes));
              View() == if queued then sk.(rxq := sk.rxq + [Fetched(start, len)]) else sk
    {
      hide Put;
      CopyIn(rxBuf, start, bytes);
      var pushed, _ := rxq.PushBack(Fetched(start, len));
      queued := pushed;
    }

    /** recv: whole segments are copied out while they fit. */
    method CopyOut(len: u16) returns (data: seq<byte>)
      requires Valid()
      modifies objects
      ensures Valid() && (View(), data) == RecvCopy(old(View()), len)
      ensures ReceiveRing(old(View())) ==> exists k :: HandsOut(old(View()), len, View().rxq, data, k)
    {
      hide Take, DataLen, ReceiveRing, HandsOut;
      data := [];
      ghost var before := View();
      var room: nat := len;
      assert [] + RecvCopy(before, len).1 == RecvCopy(before, len).1;
      while room > 0
        invariant Valid() && room <= len
        invariant var (sk, rest) := RecvCopy(View(), room);
                  RecvCopy(before, len) == (sk, data + rest)
        decreases |rxq.Contents()|
      {
        ghost var now := View();
        var front := rxq.PeekFront();
        if front == None { break; }
        var n := DataLen(front.value);
        if n > room { break; }
        var copied := Take(rxBuf[..], front.value.start + 3, n);
        CopyStep(data, copied, RecvCopy(now.(rxq := now.rxq[1..]), room - n).1);
        data := data + copied;
        room := room - n;
        var popped := rxq.PopFront();
        assert View() == now.(rxq := now.rxq[1..]);
      }
      assert data + [] == data;
      if ReceiveRing(before) {
        ghost var k := CopyHandsOut(before, len);
        assert HandsOut(before, len, View().rxq, data, k);
      }
    }

    /** recvfrom on the front segment. */
    method TakeDatagram(len: u16) returns (dg: Option<Datagram>)
      requires Valid()
      modifies objects
      ensures Valid() && (View(), dg) == DriverSpec.TakeDatagram(old(View()), len)
    {
      hide Take, GetU16, ToU16;
      ghost var before := View();
      dg := None;
      var front := rxq.PeekFront();
      if front == None { return; }
      var seg := front.value;
      var at := seg.start + 3;
      if ToU16(seg.end - seg.start) < 11 || at + 8 > rxBuf.Length { return; }
      var packetLen: nat := GetU16(rxBuf[at + 6..at + 8]);
      if packetLen > len { return; }
      dg := Some(Datagram(rxBuf[at..at + 4], GetU16(rxBuf[at + 4..at + 6]), Take(rxBuf[..], at + 8, packetLen)));
      var newStart: nat := ToU16(seg.start + ToU16(3 + 8 + packetLen));
      var popped := rxq.PopFront();
      if newStart + 8 < seg.end {
        var pushed, _ := rxq.PushFront(seg.(start := ToU16(newStart - 3)));
      }
    }
  }

  lemma CopyStep(data: seq<byte>, copied: seq<byte>, rest: seq<byte>)
    ensures data + (copied + rest) == (data + copied) + rest
  {
  }
}
