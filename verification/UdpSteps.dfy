/** recvfrom on the front segment: one record comes off, the rest stays in place. */
module UdpSteps {
  import opened Bytes
  import opened Options
  import opened Spi
  import opened RingAlloc
  import opened DriverSpec
  import opened World
  import opened LocalInv
  import opened Records
  import opened TxSteps
  import opened RxSteps

  /** Bytes of the first record. */
  function FirstSize(b: seq<byte>): nat
    requires |b| >= 8
  {
    8 + DataSize(b)
  }

  lemma OneRecord(a: seq<byte>)
    requires |a| >= 9 && FirstSize(a) == |a|
    ensures Whole(a) && Parse(a) == [First(a)]
  {
    hide DataSize, First;
    assert a[FirstSize(a)..] == [];
    assert Parse([]) == [];
  }

  lemma FirstRecord(b: seq<byte>)
    requires Whole(b) && b != []
    ensures |b| >= 9 && FirstSize(b) <= |b|
    ensures Whole(b[..FirstSize(b)]) && Parse(b[..FirstSize(b)]) == [First(b)]
    ensures Whole(b[FirstSize(b)..]) && (b[FirstSize(b)..] == [] || |b| >= FirstSize(b) + 9)
  {
    hide DataSize, First, Parse;
    SameFirst(b[..FirstSize(b)], b);
    OneRecord(b[..FirstSize(b)]);
  }

  /** The bytes of a front segment as recvfrom sees them. */
  lemma FrontBytes(sk: Sock)
    requires sk.rxq != [] && Layout(sk.rxq, |sk.rxBuf|) && Filled(sk.rxq)
    ensures var g, b := sk.rxq[0], Payload(sk.rxBuf, sk.rxq[0]);
            b != [] && g.start + 3 + |b| == g.end <= |sk.rxBuf| && b == sk.rxBuf[g.start + 3..g.end]
  {
    EachPlace(sk.rxq, |sk.rxBuf|, 0);
  }

  /** What stays of the queue when the first k bytes of the front payload are used up. */
  function Shortened(q: seq<Seg>, k: nat): seq<Seg>
    requires q != []
  {
    if q[0].start + 3 + k < q[0].end then [q[0].(start := q[0].start + k)] + q[1..] else q[1..]
  }

  /** A record too large for the caller's buffer is left alone; otherwise exactly the first
      record is returned, and the segment goes exactly when no record is left in it. */
  lemma DatagramTaken(sk: Sock, len: u16)
    requires sk.rxq != [] && Layout(sk.rxq, |sk.rxBuf|) && Filled(sk.rxq) && |sk.rxBuf| <= 32767
    requires Whole(Payload(sk.rxBuf, sk.rxq[0]))
    ensures var b := Payload(sk.rxBuf, sk.rxq[0]);
            && |b| >= 9
            && TakeDatagram(sk, len) == if DataSize(b) > len then (sk, None)
                                        else (sk.(rxq := Shortened(sk.rxq, FirstSize(b))), Some(First(b)))
  {
    hide Layout, Payload, Whole, Parse, GetU16, First, DataSize, Take, ToU16;
    FrontBytes(sk);
    var g, b := sk.rxq[0], Payload(sk.rxBuf, sk.rxq[0]);
    FirstRecord(b);
    FieldsInPlace(sk.rxBuf, g.start + 3, b);
    var k := FirstSize(b);
    NoWrap(g.end - g.start);
    NoWrap(3 + k);
    NoWrap(g.start + 3 + k);
    NoWrap(g.start + k);
  }

  lemma NoWrap(v: nat)
    requires v < 65536
    ensures ToU16(v) == v
  {
  }

  lemma FieldsInPlace(buf: seq<byte>, at: nat, b: seq<byte>)
    requires |b| >= 9 && at + |b| <= |buf| && b == buf[at..at + |b|] && FirstSize(b) <= |b|
    ensures DataSize(b) == GetU16(buf[at + 6..at + 8])
    ensures First(b) == Datagram(buf[at..at + 4], GetU16(buf[at + 4..at + 6]), Take(buf, at + 8, DataSize(b)))
  {
    hide GetU16;
    SlicePart(buf, at, |b|, 0, 4);
    SlicePart(buf, at, |b|, 4, 6);
    SlicePart(buf, at, |b|, 6, 8);
    SlicePart(buf, at, |b|, 8, FirstSize(b));
  }

  /** n calls of recvfrom with a buffer of len bytes: the socket afterwards and what they
      returned. */
  function Drain(sk: Sock, len: u16, n: nat): (Sock, seq<Datagram>)
    decreases n
  {
    if n == 0 then (sk, [])
    else
      var (sk1, dg) := TakeDatagram(sk, len);
      var (sk2, rest) := Drain(sk1, len, n - 1);
      (sk2, (if dg == None then [] else [dg.value]) + rest)
  }

  /** The bytes removed are the first record. */
  lemma ShortenedPayloads(buf: seq<byte>, q: seq<Seg>, k: nat)
    requires q != [] && q[0].start + 3 < q[0].end <= |buf| && 0 < k <= q[0].end - q[0].start - 3
    ensures Payloads(buf, q) == Payload(buf, q[0])[..k] + Payloads(buf, Shortened(q, k))
  {
    hide Payload, Payloads;
    PayloadFrom(buf, q[0], k);
    PayloadsHead(buf, q);
    var b := Payload(buf, q[0]);
    var t := Shortened(q, k);
    if q[0].start + 3 + k < q[0].end {
      assert t[1..] == q[1..];
      PayloadsHead(buf, t);
      SplitFront(b, k, Payloads(buf, q[1..]));
    } else {
      assert b[..k] == b;
    }
  }

  lemma PayloadsHead(buf: seq<byte>, q: seq<Seg>)
    requires q != []
    ensures Payloads(buf, q) == Payload(buf, q[0]) + Payloads(buf, q[1..])
  {
    hide Payload;
  }

  lemma SplitFront(b: seq<byte>, k: nat, rest: seq<byte>)
    requires k <= |b|
    ensures b + rest == b[..k] + (b[k..] + rest)
  {
  }

  lemma PayloadFrom(buf: seq<byte>, g: Seg, k: nat)
    requires g.start + 3 < g.end <= |buf| && k <= g.end - g.start - 3
    ensures |Payload(buf, g)| == g.end - g.start - 3 && Payload(buf, g.(start := g.start + k)) == Payload(buf, g)[k..]
  {
  }

  lemma ShortenedLayout(q: seq<Seg>, n: nat, k: nat)
    requires q != [] && Layout(q, n) && Filled(q)
    ensures Layout(Shortened(q, k), n) && Filled(Shortened(q, k))
  {
    hide Layout;
    if q[0].start + 3 + k < q[0].end { TrimKeepsLayout(q, n, q[0].start + k); } else { PopKeepsLayout(q, n); }
  }

  function AfterRecvFrom(l: Local, len: u16): Local {
    var r := TakeDatagram(l.sk, len);
    if r.1 == None then l
    else l.(sk := r.0, h := l.h.(taken := l.h.taken + Removed(l.sk, r.0), datagrams := l.h.datagrams + [r.1.value]))
  }

  function WithoutFirst(l: Local, k: nat): Local
    requires l.sk.rxq != [] && k <= |Payload(l.sk.rxBuf, l.sk.rxq[0])|
  {
    AfterTaken(l, l.sk.(rxq := Shortened(l.sk.rxq, k)), Payload(l.sk.rxBuf, l.sk.rxq[0])[..k])
  }

  lemma RemovedIs(before: Sock, after: Sock, data: seq<byte>)
    requires Payloads(before.rxBuf, before.rxq) == data + Payloads(before.rxBuf, after.rxq)
    ensures Removed(before, after) == data
  {
    hide Payloads;
  }

  lemma WithoutFirstKeeps(s: SockNo, l: Local, k: nat, p: RxPoint)
    requires RxAt(s, l, p) && Filled(l.sk.rxq) && l.sk.rxq != []
    requires 0 < k <= |Payload(l.sk.rxBuf, l.sk.rxq[0])|
    ensures RxAt(s, WithoutFirst(l, k), p) && Filled(Shortened(l.sk.rxq, k))
    ensures Removed(l.sk, WithoutFirst(l, k).sk) == Payload(l.sk.rxBuf, l.sk.rxq[0])[..k]
  {
    hide RxAt, Layout, Payload, Payloads, Removed, Taken;
    var q, b := l.sk.rxq, Payload(l.sk.rxBuf, l.sk.rxq[0]);
    RxLayout(s, l, p);
    FrontBytes(l.sk);
    ShortenedLayout(q, |l.sk.rxBuf|, k);
    ShortenedPayloads(l.sk.rxBuf, q, k);
    RemovedIs(l.sk, WithoutFirst(l, k).sk, b[..k]);
    if p.Reserved? {
      var g := Seg(p.at, p.at + p.n + 3, [], 0);
      ReservedFollows(s, l, p);
      ShortenedLayout(q + [g], |l.sk.rxBuf|, k);
      assert Shortened(q + [g], k) == Shortened(q, k) + [g] by { assert (q + [g])[1..] == q[1..] + [g]; }
    }
    FrontTakenKeeps(s, l, Shortened(q, k), b[..k], p);
  }

  lemma ReservedFollows(s: SockNo, l: Local, p: RxPoint)
    requires RxAt(s, l, p) && p.Reserved? && Filled(l.sk.rxq)
    ensures var t := l.sk.rxq + [Seg(p.at, p.at + p.n + 3, [], 0)]; Layout(t, |l.sk.rxBuf|) && Filled(t)
  {
    hide Layout, Taken, Take;
  }

  /** The rest of the segment is still whole records. */
  lemma ShortenedWhole(buf: seq<byte>, q: seq<Seg>)
    requires q != [] && AllWhole(buf, q) && q[0].start + 3 < q[0].end <= |buf|
    ensures |Payload(buf, q[0])| >= 9 && AllWhole(buf, Shortened(q, FirstSize(Payload(buf, q[0]))))
  {
    hide Whole, Parse, Payload, DataSize;
    var b := Payload(buf, q[0]);
    PayloadFrom(buf, q[0], 0);
    FirstRecord(b);
    PayloadFrom(buf, q[0], FirstSize(b));
    var t := Shortened(q, FirstSize(b));
    forall i | 0 <= i < |t|
      ensures Whole(Payload(buf, t[i]))
    {
      if |t| < |q| { assert t[i] == q[i + 1]; } else if i > 0 { assert t[i] == q[i]; }
    }
  }

  lemma RecordDelivered(l: Local, p: RxPoint)
    requires l.ch.mode == Udp && UdpAt(l, p) && l.sk.rxq != []
    requires l.sk.rxq[0].start + 3 < l.sk.rxq[0].end <= |l.sk.rxBuf|
    ensures |Payload(l.sk.rxBuf, l.sk.rxq[0])| >= 9
    ensures var b := Payload(l.sk.rxBuf, l.sk.rxq[0]);
            var l1 := WithoutFirst(l, FirstSize(b));
            UdpAt(l1.(h := l1.h.(datagrams := l.h.datagrams + [First(b)])), p)
  {
    hide Whole, Parse, Payload;
    var b := Payload(l.sk.rxBuf, l.sk.rxq[0]);
    PayloadFrom(l.sk.rxBuf, l.sk.rxq[0], 0);
    FirstRecord(b);
    ShortenedWhole(l.sk.rxBuf, l.sk.rxq);
    WholeJoin(l.h.taken, b[..FirstSize(b)]);
  }

  lemma RecvFromDelivers(s: SockNo, l: Local, len: u16, p: RxPoint)
    requires StaticInv(l) && l.ch.mode == Udp && RxAt(s, l, p) && UdpAt(l, p)
    ensures var l' := AfterRecvFrom(l, len); RxAt(s, l', p) && UdpAt(l', p) && Filled(l'.sk.rxq)
  {
    hide RxAt, Whole, Parse, Payload, Payloads, Layout, Removed, TakeDatagram, Shortened;
    if l.sk.rxq != [] {
      RxLayout(s, l, p);
      FrontBytes(l.sk);
      DatagramTaken(l.sk, len);
      var b := Payload(l.sk.rxBuf, l.sk.rxq[0]);
      FirstRecord(b);
      WithoutFirstKeeps(s, l, FirstSize(b), p);
      RecordDelivered(l, p);
      if DataSize(b) <= len { CountedOnly(s, WithoutFirst(l, FirstSize(b)), AfterRecvFrom(l, len), p); }
    } else {
      NothingQueued(l, len);
    }
  }

  lemma NothingQueued(l: Local, len: u16)
    requires l.sk.rxq == []
    ensures AfterRecvFrom(l, len) == l
  {
  }

  lemma CountedOnly(s: SockNo, l: Local, l': Local, p: RxPoint)
    requires RxAt(s, l, p) && l' == l.(h := l.h.(datagrams := l'.h.datagrams))
    ensures RxAt(s, l', p)
  {
    hide Layout, Payloads, Take;
  }

  lemma {:induction false} RecvFromKeeps(s: SockNo, l: Local, len: u16)
    requires LInv(s, l) && l.ch.mode == Udp
    ensures LInv(s, AfterRecvFrom(l, len))
  {
    hide RxAt, UdpAt, RxMemory, TxStage, TxCarried, TakeDatagram, Removed;
    var p :| RxAt(s, l, p) && UdpAt(l, p);
    RecvFromDelivers(s, l, len, p);
    OnlyQueueTaken(l.sk, len);
    TxFrame(s, l, AfterRecvFrom(l, len));
  }

  lemma OnlyQueueTaken(sk: Sock, len: u16)
    ensures var r := TakeDatagram(sk, len).0; r == sk.(rxq := r.rxq)
  {
  }

  /** A segment of records, read with large enough buffers, yields its records in order and is
      dropped with the last one, not before. */
  lemma {:induction false} SegmentDrained(sk: Sock, len: u16, gs: seq<Datagram>, k: nat)
    requires sk.rxq != [] && Layout(sk.rxq, |sk.rxBuf|) && Filled(sk.rxq) && |sk.rxBuf| <= 32767
    requires k <= |gs| && gs != [] && (forall i :: 0 <= i < |gs| ==> Proper(gs[i]) && |gs[i].data| <= len)
    requires Payload(sk.rxBuf, sk.rxq[0]) == SerialAll(gs)
    ensures var r := Drain(sk, len, k);
            && r.1 == gs[..k]
            && (k < |gs| ==> |r.0.rxq| == |sk.rxq|)
            && (k == |gs| ==> r.0 == sk.(rxq := sk.rxq[1..]))
    decreases |gs|
  {
    hide Layout, Payload, Serial, Whole, Parse, Proper, TakeDatagram, DataSize, First, SerialAll;
    if k > 0 {
      FirstDrained(sk, len, gs);
      assert forall i :: 0 <= i < |gs[1..]| ==> gs[1..][i] == gs[i + 1];
      var sk1 := TakeDatagram(sk, len).0;
      if |gs| > 1 {
        SegmentDrained(sk1, len, gs[1..], k - 1);
        assert [gs[0]] + gs[1..][..k - 1] == gs[..k];
      } else {
        assert gs[..1] == [gs[0]];
      }
    }
  }

  /** One call takes off the first record. */
  lemma {:induction false} FirstDrained(sk: Sock, len: u16, gs: seq<Datagram>)
    requires sk.rxq != [] && Layout(sk.rxq, |sk.rxBuf|) && Filled(sk.rxq) && |sk.rxBuf| <= 32767
    requires gs != [] && (forall i :: 0 <= i < |gs| ==> Proper(gs[i]) && |gs[i].data| <= len)
    requires Payload(sk.rxBuf, sk.rxq[0]) == SerialAll(gs)
    ensures TakeDatagram(sk, len).1 == Some(gs[0])
    ensures |gs| == 1 ==> TakeDatagram(sk, len).0 == sk.(rxq := sk.rxq[1..])
    ensures |gs| > 1 ==>
              var sk1 := TakeDatagram(sk, len).0;
              && sk1 == sk.(rxq := sk1.rxq) && |sk1.rxq| == |sk.rxq| && sk1.rxq[1..] == sk.rxq[1..]
              && Layout(sk1.rxq, |sk.rxBuf|) && Filled(sk1.rxq) && Payload(sk.rxBuf, sk1.rxq[0]) == SerialAll(gs[1..])
  {
    hide Layout, Payload, Serial, Whole, Parse, TakeDatagram, DataSize, First;
    var b := Payload(sk.rxBuf, sk.rxq[0]);
    FrontBytes(sk);
    ParseSerial(gs);
    assert Proper(gs[0]);
    SerialParts(gs[0], SerialAll(gs[1..]));
    DatagramTaken(sk, len);
    FirstRecord(b);
    ShortenedLayout(sk.rxq, |sk.rxBuf|, FirstSize(b));
    PayloadFrom(sk.rxBuf, sk.rxq[0], FirstSize(b));
    if |gs| > 1 { SerialNotEmpty(gs[1..]); }
  }

  lemma SerialNotEmpty(gs: seq<Datagram>)
    requires gs != []
    ensures SerialAll(gs) != []
  {
    assert |Serial(gs[0])| >= 4;
  }
}
