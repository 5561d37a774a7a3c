/** WebSocket frames with a 7-bit or 16-bit payload length (sections 5.2 and 5.3 of RFC 6455). */
module WebSocket {
  import opened Buffers
  import opened Bytes

  const OPCODE_TEXT: byte := 1
  const OPCODE_BINARY: byte := 2
  const MAX_HEADER: nat := 14
  const RX_TEMP: nat := 2048

  // ---- Masking -----------------------------------------------------------------------------

  function Pow2(n: nat): (r: nat)
    ensures r > 0
  {
    if n == 0 then 1 else 2 * Pow2(n - 1)
  }

  /** Bit k of a number, counted from the lowest. */
  function BitOf(x: nat, k: nat): nat { x / Pow2(k) % 2 }

  predicate Bit(x: byte, k: nat) { BitOf(x as int, k) == 1 }

  /** Bitwise exclusive or of the n lowest bits. */
  function XorBits(a: nat, b: nat, n: nat): (r: nat)
    ensures r < Pow2(n)
  {
    if n == 0 then 0 else (a % 2 + b % 2) % 2 + 2 * XorBits(a / 2, b / 2, n - 1)
  }

  lemma HalfBelow(a: nat, n: nat)
    requires n > 0 && a < Pow2(n)
    ensures a / 2 < Pow2(n - 1)
  {
  }

  lemma XorUnfolds(a: nat, b: nat, n: nat)
    requires n > 0
    ensures XorBits(a, b, n) == (a % 2 + b % 2) % 2 + 2 * XorBits(a / 2, b / 2, n - 1)
  {
  }

  /** The lowest bit of c is that of a and b combined. */
  lemma XorStep(c: nat, high: nat, a: nat, b: nat)
    requires c == (a % 2 + b % 2) % 2 + 2 * high
    ensures c / 2 == high && c % 2 == (a % 2 + b % 2) % 2
  {
  }

  lemma Pow2Of8()
    ensures Pow2(8) == 256
  {
    assert Pow2(4) == 16;
  }

  function Xor(a: byte, b: byte): byte {
    Pow2Of8();
    XorBits(a as int, b as int, 8) as byte
  }

  lemma HalfThenRest(x: nat, k: nat)
    requires k > 0
    ensures BitOf(x, k) == BitOf(x / 2, k - 1)
  {
    var p := Pow2(k - 1);
    assert x / 2 == x / 2 / p * p + x / 2 % p;
    assert x == x / 2 / p * (2 * p) + (2 * (x / 2 % p) + x % 2);
    ModUnique(x, x / 2 / p, 2 * (x / 2 % p) + x % 2, 2 * p);
  }

  lemma LowestBit(x: nat)
    ensures BitOf(x, 0) == x % 2
  {
  }

  lemma {:induction false} XorBitsBit(a: nat, b: nat, n: nat, k: nat)
    requires k < n
    ensures BitOf(XorBits(a, b, n), k) == (BitOf(a, k) + BitOf(b, k)) % 2
  {
    XorUnfolds(a, b, n);
    hide XorBits, BitOf, Pow2;
    var c := XorBits(a, b, n);
    if k == 0 {
      LowestBit(a);
      LowestBit(b);
      LowestBit(c);
    } else {
      XorStep(c, XorBits(a / 2, b / 2, n - 1), a, b);
      HalfThenRest(c, k);
      HalfThenRest(a, k);
      HalfThenRest(b, k);
      XorBitsBit(a / 2, b / 2, n - 1, k - 1);
    }
  }

  /** Xor is the exclusive or: a bit is set in the result if and only if it is set in exactly
      one of the two octets. */
  lemma XorIsExclusiveOr(a: byte, b: byte, k: nat)
    requires k < 8
    ensures Bit(Xor(a, b), k) <==> Bit(a, k) != Bit(b, k)
  {
    hide XorBits, Pow2;
    XorBitsBit(a as int, b as int, 8, k);
  }

  lemma {:induction false} SameBits(a: nat, b: nat, n: nat)
    requires a < Pow2(n) && b < Pow2(n) && forall k :: 0 <= k < n ==> BitOf(a, k) == BitOf(b, k)
    ensures a == b
  {
    if n > 0 {
      HalfBelow(a, n);
      HalfBelow(b, n);
      hide BitOf, Pow2;
      forall k | 0 <= k < n - 1
        ensures BitOf(a / 2, k) == BitOf(b / 2, k)
      {
        HalfThenRest(a, k + 1);
        HalfThenRest(b, k + 1);
        assert BitOf(a, k + 1) == BitOf(b, k + 1);
      }
      SameBits(a / 2, b / 2, n - 1);
      LowestBit(a);
      LowestBit(b);
      assert BitOf(a, 0) == BitOf(b, 0);
    }
  }

  lemma BitOfTwo(x: nat, k: nat)
    ensures BitOf(x, k) == 0 || BitOf(x, k) == 1
  {
  }

  lemma SameOctet(x: byte, y: byte)
    requires forall k :: 0 <= k < 8 ==> (Bit(x, k) <==> Bit(y, k))
    ensures x == y
  {
    Pow2Of8();
    hide BitOf, Pow2;
    var a: nat, b: nat := x as int, y as int;
    forall k | 0 <= k < 8
      ensures BitOf(a, k) == BitOf(b, k)
    {
      BitOfTwo(a, k);
      BitOfTwo(b, k);
      assert Bit(x, k) <==> Bit(y, k);
    }
    SameBits(a, b, 8);
  }

  /** Bit by bit, each octet of before is combined with the key octet whose turn it is. */
  ghost predicate MasksBits(before: seq<byte>, after: seq<byte>, key: seq<byte>)
    requires |key| == 4
  {
    && |after| == |before|
    && forall i, k :: 0 <= i < |before| && 0 <= k < 8 ==>
         (Bit(after[i], k) <==> Bit(before[i], k) != Bit(key[i % 4], k))
  }

  lemma MaskedBits(p: seq<byte>, key: seq<byte>)
    requires |key| == 4
    ensures MasksBits(p, Masked(p, key), key)
  {
    hide Bit, Xor;
    forall i, k | 0 <= i < |p| && 0 <= k < 8
      ensures Bit(Masked(p, key)[i], k) <==> Bit(p[i], k) != Bit(key[i % 4], k)
    {
      XorIsExclusiveOr(p[i], key[i % 4], k);
    }
  }

  function Masked(p: seq<byte>, key: seq<byte>): (r: seq<byte>)
    requires |key| == 4
    ensures |r| == |p|
    ensures forall i :: 0 <= i < |p| ==> r[i] == Xor(p[i], key[i % 4])
  {
    seq(|p|, i requires 0 <= i < |p| => Xor(p[i], key[i % 4]))
  }

  /** Only the masked payload is related to it in that way. */
  lemma MaskedUnique(p: seq<byte>, q: seq<byte>, key: seq<byte>)
    requires |key| == 4 && MasksBits(p, q, key)
    ensures q == Masked(p, key)
  {
    hide Bit, Xor;
    MaskedBits(p, key);
    forall i | 0 <= i < |p|
      ensures q[i] == Masked(p, key)[i]
    {
      var m := Masked(p, key);
      forall k | 0 <= k < 8
        ensures Bit(q[i], k) <==> Bit(m[i], k)
      {
        assert Bit(q[i], k) <==> Bit(p[i], k) != Bit(key[i % 4], k);
        assert Bit(m[i], k) <==> Bit(p[i], k) != Bit(key[i % 4], k);
      }
      SameOctet(q[i], m[i]);
    }
  }

  lemma MasksBack(p: seq<byte>, q: seq<byte>, key: seq<byte>)
    requires |key| == 4 && MasksBits(p, q, key)
    ensures MasksBits(q, p, key)
  {
    hide Bit;
    forall i, k | 0 <= i < |q| && 0 <= k < 8
      ensures Bit(p[i], k) <==> Bit(q[i], k) != Bit(key[i % 4], k)
    {
      assert Bit(q[i], k) <==> Bit(p[i], k) != Bit(key[i % 4], k);
    }
  }

  /** Masking twice with the same key gives the payload back. */
  lemma MaskingUndoesItself(p: seq<byte>, key: seq<byte>)
    requires |key| == 4
    ensures Masked(Masked(p, key), key) == p
  {
    hide Masked, MasksBits;
    MaskedBits(p, key);
    MasksBack(p, Masked(p, key), key);
    MaskedUnique(Masked(p, key), p, key);
  }

  /** ws_mask_payload on the len bytes from at on. */
  method MaskPayload(mem: array<byte>, at: nat, len: u16, key: seq<byte>)
    requires |key| == 4 && at + len <= mem.Length
    modifies mem
    ensures mem[at..at + len] == Masked(old(mem[at..at + len]), key)
    ensures MasksBits(old(mem[at..at + len]), mem[at..at + len], key)
    ensures forall k :: 0 <= k < at || at + len <= k < mem.Length ==> mem[k] == old(mem[k])
  {
    hide Xor, MasksBits;
    ghost var before := mem[at..at + len];
    MaskedBits(before, key);
    for i := 0 to len
      invariant forall k :: at <= k < at + i ==> mem[k] == Xor(old(mem[k]), key[(k - at) % 4])
      invariant forall k :: 0 <= k < mem.Length && !(at <= k < at + i) ==> mem[k] == old(mem[k])
    {
      mem[at + i] := Xor(mem[at + i], key[i % 4]);
    }
    assert mem[at..at + len] == Masked(before, key);
  }

  // ---- Frame header -------------------------------------------------------------------------

  function LengthBytes(n: u16, mask: bool): seq<byte> {
    var bit := if mask then 128 else 0;
    if n < 126 then [(bit + n) as byte] else [(bit + 126) as byte] + SetU16(n)
  }

  function FrameHeader(opcode: byte, n: u16, mask: bool, key: seq<byte>): seq<byte>
    requires |key| == 4
  {
    [(128 + opcode as int % 16) as byte] + LengthBytes(n, mask) + if mask then key else []
  }

  /** The length that the sender computes before writing the header. */
  function SentHeaderLen(n: u16): nat {
    if n >= 126 then 2 + 2 + 4 else 2 + 4
  }

  /** ws_create_frame_header, writing from index at on. */
  method CreateFrameHeader(mem: array<byte>, at: nat, opcode: byte, n: u16, mask: bool, key: seq<byte>)
      returns (len: nat)
    requires |key| == 4 && at + |FrameHeader(opcode, n, mask, key)| <= mem.Length
    modifies mem
    ensures len == |FrameHeader(opcode, n, mask, key)|
    ensures WrittenFrom(mem[..], old(mem[..]), at, FrameHeader(opcode, n, mask, key))
  {
    hide WrittenFrom;
    ghost var before := mem[..];
    ghost var h: seq<byte> := [];
    UntouchedYet(before, at);
    var pos := at;
    var bit := if mask then 128 else 0;
    Append(mem, pos, [(128 + opcode as int % 16) as byte], before, at, h);
    pos, h := pos + 1, h + [(128 + opcode as int % 16) as byte];
    if n < 126 {
      Append(mem, pos, [(bit + n) as byte], before, at, h);
      pos, h := pos + 1, h + [(bit + n) as byte];
    } else {
      Append(mem, pos, [(bit + 126) as byte], before, at, h);
      pos, h := pos + 1, h + [(bit + 126) as byte];
      Append(mem, pos, [((n / 256) % 256) as byte], before, at, h);
      pos, h := pos + 1, h + [((n / 256) % 256) as byte];
      Append(mem, pos, [(n % 256) as byte], before, at, h);
      pos, h := pos + 1, h + [(n % 256) as byte];
    }
    if mask {
      Append(mem, pos, key, before, at, h);
      pos, h := pos + 4, h + key;
    }
    assert h == FrameHeader(opcode, n, mask, key);
    len := pos - at;
  }

  /** The bytes of a frame on the wire. */
  function Frame(opcode: byte, payload: seq<byte>, mask: bool, key: seq<byte>): seq<byte>
    requires |key| == 4 && |payload| < 65536
  {
    FrameHeader(opcode, |payload|, mask, key) + if mask then Masked(payload, key) else payload
  }

  /** The octets of a frame as section 5.2 of RFC 6455 lays them out: opcode; the MASK bit and the
      length in 7 or, after 126, in 16 bits; if MASK is set the key and the masked payload, else
      the payload. FIN and the reserved bits are left open. */
  ghost predicate Carries(f: seq<byte>, long: bool, opcode: byte, payload: seq<byte>, mask: bool, key: seq<byte>)
    requires |key| == 4
  {
    var n, pos := |payload|, if long then 4 else 2;
    && |f| == pos + (if mask then 4 else 0) + n && f[0] as int % 16 == opcode as int
    && (f[1] as int / 128 == 1 <==> mask)
    && (if long then f[1] as int % 128 == 126 && f[2] as int * 256 + f[3] as int == n
        else n < 126 && f[1] as int % 128 == n)
    && (if mask then f[pos..pos + 4] == key && MasksBits(payload, f[pos + 4..], key) else f[pos..] == payload)
  }

  /** A frame as the client has to send it: FIN set, no reserved bit, the shortest length. */
  ghost predicate OnWire(f: seq<byte>, opcode: byte, payload: seq<byte>, mask: bool, key: seq<byte>)
    requires |key| == 4
  {
    && Carries(f, |payload| >= 126, (opcode as int % 16) as byte, payload, mask, key)
    && f[0] as int / 128 == 1 && f[0] as int / 16 % 8 == 0
  }

  lemma FrameOnWire(opcode: byte, payload: seq<byte>, mask: bool, key: seq<byte>)
    requires |key| == 4 && |payload| < 65536
    ensures OnWire(Frame(opcode, payload, mask, key), opcode, payload, mask, key)
  {
    hide Masked, MasksBits, LengthBytes;
    var n := |payload|;
    LengthOctets(n, mask);
    FirstOctet(opcode);
    MaskedBits(payload, key);
    var body := if mask then Masked(payload, key) else payload;
    FrameParts((128 + opcode as int % 16) as byte, LengthBytes(n, mask), if mask then key else [], body,
               Frame(opcode, payload, mask, key));
  }

  lemma FirstOctet(opcode: byte)
    ensures var b := 128 + opcode as int % 16; b / 128 == 1 && b / 16 % 8 == 0 && b % 16 == opcode as int % 16
  {
  }

  lemma FrameParts(first: byte, length: seq<byte>, key: seq<byte>, body: seq<byte>, f: seq<byte>)
    requires f == [first] + length + key + body
    ensures var pos := 1 + |length|;
            && |f| == pos + |key| + |body| && f[0] == first && f[1..pos] == length
            && f[pos..pos + |key|] == key && f[pos + |key|..] == body
            && forall i :: 1 <= i < pos ==> f[i] == length[i - 1]
  {
  }

  lemma LengthOctets(n: u16, mask: bool)
    ensures var h := LengthBytes(n, mask);
            && |h| == (if n < 126 then 1 else 3) && (h[0] as int / 128 == 1 <==> mask)
            && (if n < 126 then h[0] as int % 128 == n
                else h[0] as int % 128 == 126 && h[1] as int * 256 + h[2] as int == n)
  {
    U16RoundTrip(n);
  }

  lemma HeaderLenAgrees(opcode: byte, n: u16, key: seq<byte>)
    requires |key| == 4
    ensures |FrameHeader(opcode, n, true, key)| == SentHeaderLen(n) <= MAX_HEADER
  {
  }

  /** ws_client_send_binary and ws_client_send_text: the payload is in place from index at on
      with room for a header before it. The result is what send gets: the frame begins
      exactly where the precomputed header length says and header and payload are contiguous;
      the length given to send is 16 bits wide, so that the frame is complete exactly when
      header and payload together stay below 65536 bytes. */
  method SendFrame(mem: array<byte>, at: nat, n: u16, opcode: byte, key: seq<byte>) returns (frame: seq<byte>)
    requires |key| == 4 && MAX_HEADER <= at && at + n <= mem.Length
    modifies mem
    ensures var whole := Frame(opcode, old(mem[at..at + n]), true, key);
            && frame == whole[..ToU16(|whole|)]
            && (frame == whole <==> n <= 65527)
            && (n <= 65527 ==> OnWire(frame, opcode, old(mem[at..at + n]), true, key))
    ensures forall k :: 0 <= k < at - SentHeaderLen(n) || at + n <= k < mem.Length ==> mem[k] == old(mem[k])
  {
    hide FrameHeader, Masked, ToU16, OnWire;
    FrameOnWire(opcode, mem[at..at + n], true, key);
    HeaderLenAgrees(opcode, n, key);
    Truncated(SentHeaderLen(n) + n);
    var start := at - SentHeaderLen(n);
    ghost var payload := mem[at..at + n];
    var headerLen := CreateFrameHeader(mem, start, opcode, n, true, key);
    ghost var header := FrameHeader(opcode, n, true, key);
    assert mem[start..at] == header && mem[at..at + n] == payload;
    ghost var framed := mem[..];
    MaskPayload(mem, at, n, key);
    var total := ToU16(headerLen + n);
    frame := mem[start..start + total];
    SentBytes(framed, mem[..], start, at, n, total);
  }

  lemma Truncated(n: nat)
    ensures ToU16(n) <= n && (ToU16(n) == n <==> n < 65536)
  {
  }

  /** The frame stands in one piece in front of and in the payload's place. */
  lemma SentBytes(framed: seq<byte>, now: seq<byte>, start: nat, at: nat, n: nat, total: nat)
    requires start <= at && at + n <= |framed| == |now| && start + total <= at + n
    requires forall k :: start <= k < at ==> now[k] == framed[k]
    ensures now[start..start + total] == (framed[start..at] + now[at..at + n])[..total]
  {
    var whole := framed[start..at] + now[at..at + n];
    assert forall k :: 0 <= k < total ==> now[start..start + total][k] == whole[k];
  }

  // ---- Receiving ----------------------------------------------------------------------------

  /** Outcome for one received chunk: nothing came, the frame is malformed or incomplete, the
      caller's buffer is too small, a payload, or a frame without a payload to hand over. */
  datatype Received =
    | Nothing
    | Invalid
    | TooSmall(opcode: byte)
    | Payload(opcode: byte, data: seq<byte>)
    | NoPayload(opcode: byte)

  predicate IsData(opcode: byte) {
    opcode == OPCODE_TEXT || opcode == OPCODE_BINARY
  }

  function Opcode(b: seq<byte>): byte
    requires b != []
  {
    (b[0] as int % 16) as byte
  }

  function ParseFrame(b: seq<byte>, room: nat, wanted: bool): Received {
    if b == [] then Nothing
    else if |b| < 2 then Invalid
    else
      var mask, short := b[1] as int >= 128, b[1] as int % 128;
      if short == 127 || (short == 126 && |b| < 4) then Invalid
      else
        var n: nat := if short == 126 then GetU16(b[2..4]) else short;
        var pos := if short == 126 then 4 else 2;
        if mask && |b| < pos + 4 then Invalid
        else
          var start := if mask then pos + 4 else pos;
          if |b| < start + n then Invalid
          else if !IsData(Opcode(b)) || !wanted then NoPayload(Opcode(b))
          else if n > room then TooSmall(Opcode(b))
          else
            var data := b[start..start + n];
            Payload(Opcode(b), if mask then Masked(data, b[pos..pos + 4]) else data)
  }

  lemma LengthRead(f: seq<byte>, tail: seq<byte>)
    requires |f| >= 4
    ensures GetU16((f + tail)[2..4]) == f[2] as int * 256 + f[3] as int
  {
  }

  /** Whatever FIN and the reserved bits, however the length is written and whatever follows, a
      frame is received: a text or binary payload that the caller wants and has room for is handed
      over as it was before masking. */
  lemma FrameReceived(f: seq<byte>, long: bool, opcode: byte, payload: seq<byte>, mask: bool, key: seq<byte>,
                      tail: seq<byte>, room: nat, wanted: bool)
    requires |key| == 4 && Carries(f, long, opcode, payload, mask, key)
    ensures ParseFrame(f + tail, room, wanted)
            == (if (opcode != 1 && opcode != 2) || !wanted then NoPayload(opcode)
                else if |payload| > room then TooSmall(opcode)
                else Payload(opcode, payload))
  {
    hide GetU16, Masked, MasksBits;
    var b, pos := f + tail, if long then 4 else 2;
    var start := if mask then pos + 4 else pos;
    if long { LengthRead(f, tail); }
    assert b[start..start + |payload|] == f[start..];
    if mask {
      assert b[pos..pos + 4] == f[pos..pos + 4];
      MasksBack(payload, f[start..], key);
      MaskedUnique(f[start..], payload, key);
    }
  }

  /** What the sender writes, masked or not, is received. */
  lemma FrameRoundTrip(opcode: byte, payload: seq<byte>, mask: bool, key: seq<byte>, tail: seq<byte>, room: nat)
    requires |key| == 4 && (opcode == 1 || opcode == 2) && |payload| < 65536 && |payload| <= room
    ensures ParseFrame(Frame(opcode, payload, mask, key) + tail, room, true) == Payload(opcode, payload)
  {
    hide Carries, Frame, ParseFrame;
    FrameOnWire(opcode, payload, mask, key);
    FrameReceived(Frame(opcode, payload, mask, key), |payload| >= 126, opcode, payload, mask, key, tail, room, true);
  }

  /** An incomplete frame is never taken for a complete one. */
  lemma IncompleteRefused(f: seq<byte>, long: bool, opcode: byte, payload: seq<byte>, mask: bool, key: seq<byte>,
                          k: nat,
                          room: nat, wanted: bool)
    requires |key| == 4 && Carries(f, long, opcode, payload, mask, key) && 0 < k < |f|
    ensures ParseFrame(f[..k], room, wanted) == Invalid
  {
    hide GetU16, Masked, MasksBits;
    if long && k >= 4 {
      assert f[..k] == f[..4] + f[4..k];
      LengthRead(f[..4], f[4..k]);
    }
  }

  /** A 64-bit length is refused. */
  lemma LongFrameRefused(b: seq<byte>, room: nat, wanted: bool)
    requires |b| >= 2 && b[1] as int % 128 == 127
    ensures ParseFrame(b, room, wanted) == Invalid
  {
  }

  lemma ArraySlice(a: array<byte>, n: nat, lo: nat, hi: nat)
    requires lo <= hi <= n <= a.Length
    ensures a[..n][lo..hi] == a[lo..hi]
  {
  }

  /** The payload is copied and then unmasked in place. */
  method HandOver(rx: array<byte>, pos: nat, n: u16, buffer: array<byte>, mask: bool, key: seq<byte>)
    requires |key| == 4 && pos + n <= rx.Length && rx != buffer && n <= buffer.Length
    modifies buffer
    ensures buffer[..n] == if mask then Masked(rx[pos..pos + n], key) else rx[pos..pos + n]
    ensures buffer[n..] == old(buffer[n..])
  {
    hide Masked;
    forall i | 0 <= i < n { buffer[i] := rx[pos + i]; }
    assert buffer[..n] == buffer[0..n] == rx[pos..pos + n];
    if mask {
      MaskPayload(buffer, 0, n, key);
      assert buffer[0..n] == buffer[..n];
    }
  }

  /** The parsing part of ws_process_internal: rx is the receive buffer with what recv put
      there; a text or binary payload is copied to the caller's buffer and unmasked there. */
  method Process(rx: array<byte>, received: nat, buffer: array<byte>, room: u16, wanted: bool) returns (r: Received)
    requires rx.Length == RX_TEMP && received <= rx.Length && rx != buffer && room <= buffer.Length
    modifies buffer
    ensures r == ParseFrame(rx[..received], room, wanted)
    ensures r.Payload? ==>
              && |r.data| <= buffer.Length && buffer[..|r.data|] == r.data
              && buffer[|r.data|..] == old(buffer[|r.data|..])
    ensures !r.Payload? ==> buffer[..] == old(buffer[..])
  {
    hide GetU16, Masked;
    if received == 0 { return Nothing; }
    if received < 2 { return Invalid; }
    var pos := 0;
    var opcode := (rx[pos] as int % 16) as byte;
    pos := pos + 1;
    var mask := rx[pos] as int >= 128;
    var payloadLen: nat := rx[pos] as int % 128;
    pos := pos + 1;
    if payloadLen == 126 {
      if received < pos + 2 { return Invalid; }
      ArraySlice(rx, received, pos, pos + 2);
      payloadLen := GetU16(rx[pos..pos + 2]);
      pos := pos + 2;
    } else if payloadLen == 127 {
      return Invalid;
    }
    var key: seq<byte> := [0, 0, 0, 0];
    if mask {
      if received < pos + 4 { return Invalid; }
      key := rx[pos..pos + 4];
      ArraySlice(rx, received, pos, pos + 4);
      pos := pos + 4;
    }
    if received < pos + payloadLen { return Invalid; }
    if !IsData(opcode) || !wanted { return NoPayload(opcode); }
    if payloadLen > room { return TooSmall(opcode); }
    ArraySlice(rx, received, pos, pos + payloadLen);
    HandOver(rx, pos, payloadLen, buffer, mask, key);
    r := Payload(opcode, buffer[..payloadLen]);
  }
}
