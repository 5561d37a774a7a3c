/** Placement of segments in a socket's send or receive buffer.

    Only the start of the oldest segment and the end of the newest are looked at, so that
    every live segment is safe is a fact about the whole list. */
module RingAlloc {
  import opened Bytes

  const SOCKET_QUEUE_SIZE: nat := 15

  datatype Seg = Seg(start: nat, end: nat, addr: seq<byte>, port: u16)

  /** getTXBufferIndex and getRXBufferIndex: they differ only in the buffer they are given. */
  function BufferIndex(segs: seq<Seg>, bufLen: nat, len: u16): int {
    if segs == [] then
      if len <= bufLen then 0 else -1
    else
      var queueStart := ToInt16(segs[0].start);
      var queueEnd := ToInt16(segs[|segs| - 1].end);
      if queueEnd >= queueStart then
        var spaceAtEnd := ToInt16(bufLen - queueEnd);
        if len <= spaceAtEnd then queueEnd
        else if len <= queueStart then 0
        else -1
      else
        if len <= queueStart - queueEnd then queueEnd else -1
  }

  predicate Disjoint(a: Seg, b: Seg) {
    a.end <= b.start || b.end <= a.start
  }

  ghost predicate PairwiseDisjoint(segs: seq<Seg>) {
    forall i, j :: 0 <= i < j < |segs| ==> Disjoint(segs[i], segs[j])
  }

  /** Where a segment lies when the ring is unrolled from the oldest start. */
  function Unrolled(base: nat, s: Seg, n: nat): nat {
    if s.start >= base then s.start else s.start + n
  }

  predicate InBounds(s: Seg, n: nat) {
    s.start < s.end <= n
  }

  /** The newer segment b begins where the older a ended, or at the start of the buffer. */
  predicate Follows(base: nat, a: Seg, b: Seg, n: nat) {
    && (b.start == a.end || b.start == 0)
    && Unrolled(base, a, n) + (a.end - a.start) <= Unrolled(base, b, n)
  }

  /** The newest end has not passed the oldest start a second time. */
  predicate Room(base: nat, s: Seg, n: nat) {
    Unrolled(base, s, n) + (s.end - s.start) <= base + n
  }

  predicate PlaceOk(segs: seq<Seg>, i: nat, n: nat)
    requires i < |segs|
  {
    InBounds(segs[i], n) && Room(segs[0].start, segs[i], n)
  }

  predicate LinkOk(segs: seq<Seg>, i: nat, n: nat)
    requires 0 < i < |segs|
  {
    Follows(segs[0].start, segs[i - 1], segs[i], n)
  }

  /** Segments lie one after another around the ring with at most one wrap. */
  ghost predicate Layout(segs: seq<Seg>, n: nat) {
    && (forall i :: 0 <= i < |segs| ==> PlaceOk(segs, i, n))
    && (forall i :: 0 < i < |segs| ==> LinkOk(segs, i, n))
  }

  /** The gap between the newest end and the oldest start has been filled exactly. */
  predicate Full(segs: seq<Seg>) {
    segs != [] && segs[|segs| - 1].end == segs[0].start
  }

  lemma {:induction false} LayoutAscends(segs: seq<Seg>, n: nat, i: nat, j: nat)
    requires Layout(segs, n) && i < j < |segs|
    ensures var b := segs[0].start;
            Unrolled(b, segs[i], n) + (segs[i].end - segs[i].start) <= Unrolled(b, segs[j], n)
  {
    assert LinkOk(segs, j, n);
    if i < j - 1 {
      LayoutAscends(segs, n, i, j - 1);
      assert PlaceOk(segs, j - 1, n);
    }
  }

  lemma LayoutDisjoint(segs: seq<Seg>, n: nat)
    requires Layout(segs, n)
    ensures PairwiseDisjoint(segs)
  {
    forall i, j | 0 <= i < j < |segs|
      ensures Disjoint(segs[i], segs[j])
    {
      LayoutAscends(segs, n, i, j);
      assert PlaceOk(segs, i, n) && PlaceOk(segs, j, n);
    }
  }

  /** A ring whose newest segment has wrapped holds a segment at index 0. */
  lemma {:induction false} WrappedStartsAtZero(segs: seq<Seg>, n: nat, j: nat) returns (k: nat)
    requires Layout(segs, n) && 0 < j < |segs| && segs[j].start < segs[0].start
    ensures 0 < k <= j && segs[k].start == 0
  {
    assert LinkOk(segs, j, n);
    if segs[j].start == 0 {
      k := j;
    } else {
      assert PlaceOk(segs, j - 1, n);
      k := WrappedStartsAtZero(segs, n, j - 1);
    }
  }

  /** A successful placement is safe exactly when the ring was not exactly full. */
  lemma AllocateSafeIffNotFull(segs: seq<Seg>, n: nat, len: u16)
    requires Layout(segs, n) && n <= 32767 && len > 0
    requires BufferIndex(segs, n, len) >= 0
    ensures var s := Seg(BufferIndex(segs, n, len), BufferIndex(segs, n, len) + len, [], 0);
            (forall i :: 0 <= i < |segs| ==> Disjoint(segs[i], s)) <==> !Full(segs)
  {
    var at := BufferIndex(segs, n, len);
    var s := Seg(at, at + len, [], 0);
    if Full(segs) {
      var last := |segs| - 1;
      assert PlaceOk(segs, 0, n) && PlaceOk(segs, last, n);
      if at == 0 {
        var k := WrappedStartsAtZero(segs, n, last);
        assert PlaceOk(segs, k, n) && !Disjoint(segs[k], s);
      } else {
        assert !Disjoint(segs[0], s);
      }
    } else {
      AllocateKeepsLayout(segs, n, s);
      LayoutDisjoint(segs + [s], n);
      forall i | 0 <= i < |segs|
        ensures Disjoint(segs[i], s)
      {
        assert Disjoint((segs + [s])[i], (segs + [s])[|segs|]);
      }
    }
  }

  lemma AllocateKeepsLayout(segs: seq<Seg>, n: nat, s: Seg)
    requires Layout(segs, n) && n <= 32767 && !Full(segs)
    requires s.start < s.end && s.end - s.start < 65536
    requires BufferIndex(segs, n, s.end - s.start) == s.start
    ensures Layout(segs + [s], n)
  {
    var t := segs + [s];
    if segs != [] {
      var b, last := segs[0].start, segs[|segs| - 1];
      assert PlaceOk(segs, 0, n) && PlaceOk(segs, |segs| - 1, n);
      assert InBounds(s, n) && Room(b, s, n) && Follows(b, last, s, n);
    }
    forall i | 0 <= i < |t|
      ensures PlaceOk(t, i, n)
    {
      if i < |segs| { assert PlaceOk(segs, i, n); }
    }
    forall i | 0 < i < |t|
      ensures LinkOk(t, i, n)
    {
      if i < |segs| { assert LinkOk(segs, i, n); }
    }
  }

  // ---- When there is a place ---------------------------------------------------------------

  /** Right behind the newest segment. */
  function NewestEnd(segs: seq<Seg>): nat {
    if segs == [] then 0 else segs[|segs| - 1].end
  }

  /** A segment of len bytes at index at continues the layout. */
  ghost predicate Fits(segs: seq<Seg>, at: nat, len: nat, n: nat) {
    Layout(segs + [Seg(at, at + len, [], 0)], n)
  }

  lemma FitsIff(segs: seq<Seg>, at: nat, len: nat, n: nat)
    requires Layout(segs, n)
    ensures var s := Seg(at, at + len, [], 0);
            Fits(segs, at, len, n)
            <==> InBounds(s, n)
                 && (segs != [] ==> Room(segs[0].start, s, n) && Follows(segs[0].start, segs[|segs| - 1], s, n))
  {
    var s := Seg(at, at + len, [], 0);
    var t := segs + [s];
    assert PlaceOk(t, |segs|, n) ==> InBounds(s, n);
    if segs != [] {
      assert t[0] == segs[0];
      assert PlaceOk(t, |segs|, n) <==> InBounds(s, n) && Room(segs[0].start, s, n);
      assert LinkOk(t, |segs|, n) <==> Follows(segs[0].start, segs[|segs| - 1], s, n);
    }
    assert forall i :: 0 <= i < |segs| ==> (PlaceOk(t, i, n) <==> PlaceOk(segs, i, n));
    assert forall i :: 0 < i < |segs| ==> (LinkOk(t, i, n) <==> LinkOk(segs, i, n));
  }

  /** The allocator finds a place whenever there is one: behind the newest segment, else at the
      start of the buffer, and it gives up only when neither continues the layout. */
  lemma PlaceFoundIff(segs: seq<Seg>, n: nat, len: u16)
    requires Layout(segs, n) && n <= 32767 && !Full(segs) && len > 0
    ensures var end := NewestEnd(segs);
            BufferIndex(segs, n, len)
            == (if Fits(segs, end, len, n) then end else if Fits(segs, 0, len, n) then 0 else -1)
  {
    FitsIff(segs, NewestEnd(segs), len, n);
    FitsIff(segs, 0, len, n);
    if segs != [] { assert PlaceOk(segs, 0, n) && PlaceOk(segs, |segs| - 1, n); }
  }

  /** An exactly full ring is taken for one that is free on both sides of the place where it
      is joined. */
  lemma FullRingPlace(segs: seq<Seg>, n: nat, len: u16)
    requires Layout(segs, n) && n <= 32767 && Full(segs) && len > 0
    ensures var end := NewestEnd(segs);
            BufferIndex(segs, n, len) == (if end + len <= n then end else if len <= end then 0 else -1)
  {
    assert PlaceOk(segs, 0, n) && PlaceOk(segs, |segs| - 1, n);
  }

  /** There is a place for len bytes, or the allocator takes an exactly full ring to have one. */
  ghost predicate Placeable(segs: seq<Seg>, len: nat, n: nat) {
    var end := NewestEnd(segs);
    if Full(segs) then end + len <= n || len <= end
    else Fits(segs, end, len, n) || Fits(segs, 0, len, n)
  }

  lemma PlacedIffPlaceable(segs: seq<Seg>, n: nat, len: u16)
    requires Layout(segs, n) && n <= 32767 && len > 0
    ensures BufferIndex(segs, n, len) == -1 <==> !Placeable(segs, len, n)
  {
    hide BufferIndex, Fits;
    if Full(segs) { FullRingPlace(segs, n, len); } else { PlaceFoundIff(segs, n, len); }
  }

  lemma PopKeepsLayout(segs: seq<Seg>, n: nat)
    requires Layout(segs, n) && segs != []
    ensures Layout(segs[1..], n)
  {
    var t := segs[1..];
    if t != [] {
      LayoutAscends(segs, n, 0, 1);
      assert PlaceOk(segs, 0, n) && PlaceOk(segs, 1, n);
    }
    forall i | 0 <= i < |t|
      ensures PlaceOk(t, i, n)
    {
      assert PlaceOk(segs, i + 1, n);
      if i > 0 { LayoutAscends(segs, n, 1, i + 1); }
    }
    forall i | 0 < i < |t|
      ensures LinkOk(t, i, n)
    {
      assert PlaceOk(segs, i, n) && PlaceOk(segs, i + 1, n) && LinkOk(segs, i + 1, n);
      LayoutAscends(segs, n, 1, i + 1);
      if i > 1 { LayoutAscends(segs, n, 1, i); }
    }
  }

  /** recvfrom moves the start of the oldest segment past a consumed record. */
  lemma TrimKeepsLayout(segs: seq<Seg>, n: nat, start: nat)
    requires Layout(segs, n) && segs != [] && segs[0].start <= start < segs[0].end
    ensures Layout([segs[0].(start := start)] + segs[1..], n)
  {
    var t := [segs[0].(start := start)] + segs[1..];
    assert PlaceOk(segs, 0, n);
    forall i | 0 <= i < |t|
      ensures PlaceOk(t, i, n)
    {
      if i > 0 {
        assert PlaceOk(segs, i, n);
        LayoutAscends(segs, n, 0, i);
      }
    }
    forall i | 0 < i < |t|
      ensures LinkOk(t, i, n)
    {
      assert PlaceOk(segs, i, n) && LinkOk(segs, i, n);
      LayoutAscends(segs, n, 0, i);
      if i > 1 {
        assert PlaceOk(segs, i - 1, n);
        LayoutAscends(segs, n, 0, i - 1);
      }
    }
  }

  /** Dropping the newest segment. */
  lemma OlderKeepLayout(segs: seq<Seg>, n: nat, s: Seg)
    requires Layout(segs + [s], n)
    ensures Layout(segs, n)
  {
    var t := segs + [s];
    forall i | 0 <= i < |segs|
      ensures PlaceOk(segs, i, n)
    {
      assert PlaceOk(t, i, n);
    }
    forall i | 0 < i < |segs|
      ensures LinkOk(segs, i, n)
    {
      assert LinkOk(t, i, n);
    }
  }

  // ---- Whole runs ----------------------------------------------------------------

  /** One use of the buffer: a placement, dropping the oldest segment, or trimming it. */
  datatype RingOp = Allocate(len: u16) | Pop | Trim(start: nat)

  predicate Allowed(segs: seq<Seg>, op: RingOp) {
    match op
    case Allocate(len) => len > 0
    case Pop => true
    case Trim(start) => segs != [] && segs[0].start <= start < segs[0].end
  }

  function Apply(segs: seq<Seg>, n: nat, op: RingOp): seq<Seg>
    requires Allowed(segs, op)
  {
    match op
    case Allocate(len) =>
      var at := BufferIndex(segs, n, len);
      if at == -1 then segs else segs + [Seg(ToU16(at), ToU16(at + len), [], 0)]
    case Pop => if segs == [] then segs else segs[1..]
    case Trim(start) => [segs[0].(start := start)] + segs[1..]
  }

  /** A use in which no placement succeeds while the ring is exactly full. */
  predicate SafeStep(a: seq<Seg>, op: RingOp, b: seq<Seg>, n: nat) {
    && Allowed(a, op)
    && b == Apply(a, n, op)
    && (op.Allocate? && BufferIndex(a, n, op.len) != -1 ==> !Full(a))
  }

  ghost predicate SafeRun(states: seq<seq<Seg>>, ops: seq<RingOp>, n: nat) {
    && |states| == |ops| + 1
    && states[0] == []
    && forall i :: 0 <= i < |ops| ==> SafeStep(states[i], ops[i], states[i + 1], n)
  }

  lemma SafeStepKeepsLayout(a: seq<Seg>, op: RingOp, b: seq<Seg>, n: nat)
    requires SafeStep(a, op, b, n) && Layout(a, n) && n <= 32767
    ensures Layout(b, n)
  {
    match op {
      case Allocate(len) =>
        var at := BufferIndex(a, n, len);
        IndexInside(a, n, len);
        if at != -1 { AllocateKeepsLayout(a, n, Seg(at, at + len, [], 0)); }
      case Pop =>
        if a != [] { PopKeepsLayout(a, n); }
      case Trim(start) =>
        TrimKeepsLayout(a, n, start);
    }
  }

  lemma {:induction false} SafeRunsStayDisjoint(states: seq<seq<Seg>>, ops: seq<RingOp>, n: nat, i: nat)
    requires SafeRun(states, ops, n) && n <= 32767 && i < |states|
    ensures Layout(states[i], n) && PairwiseDisjoint(states[i])
  {
    if i > 0 {
      SafeRunsStayDisjoint(states, ops, n, i - 1);
      assert SafeStep(states[i - 1], ops[i - 1], states[i - 1 + 1], n);
      SafeStepKeepsLayout(states[i - 1], ops[i - 1], states[i], n);
    }
    LayoutDisjoint(states[i], n);
  }

  /** An answer that the callers can work with: -1 or a place inside the buffer. */
  predicate Inside(segs: seq<Seg>, n: nat, len: u16) {
    var at := BufferIndex(segs, n, len);
    at == -1 || (0 <= at && at + len <= n)
  }

  /** In a buffer of at most 32767 bytes every answer is of that kind. */
  lemma IndexInside(segs: seq<Seg>, n: nat, len: u16)
    requires Layout(segs, n) && n <= 32767
    ensures Inside(segs, n, len)
  {
    if segs != [] { assert PlaceOk(segs, 0, n) && PlaceOk(segs, |segs| - 1, n); }
  }

  /** Indices are 16-bit signed: one segment that ends at 32768 makes the answer for one byte
      negative and different from -1. */
  lemma LongBufferEscapes(n: nat)
    requires n > 32767
    ensures Layout([Seg(0, 32768, [], 0)], n) && BufferIndex([Seg(0, 32768, [], 0)], n, 1) < -1
  {
  }

  /** Which buffer lengths are safe for every laid-out ring, whether or not the driver can come
      to hold it (RingLengths has the rings that it can). */
  lemma InsideIffShort(n: nat)
    ensures (forall segs, len: u16 :: Layout(segs, n) ==> Inside(segs, n, len)) <==> n <= 32767
  {
    if n <= 32767 {
      forall segs, len: u16 | Layout(segs, n)
        ensures Inside(segs, n, len)
      {
        IndexInside(segs, n, len);
      }
    } else {
      LongBufferEscapes(n);
      assert !Inside([Seg(0, 32768, [], 0)], n, 1);
    }
  }

  /** The side condition is needed: four placements and one pop on a 20-byte buffer put two
      live segments on the same bytes. */
  lemma FullRingOverlaps()
    ensures var ops := [Allocate(10), Allocate(10), Pop, Allocate(10), Allocate(10)];
            var s1 := Apply([], 20, ops[0]);
            var s2 := Apply(s1, 20, ops[1]);
            var s3 := Apply(s2, 20, ops[2]);
            var s4 := Apply(s3, 20, ops[3]);
            && Full(s4) && PairwiseDisjoint(s4)
            && !PairwiseDisjoint(Apply(s4, 20, ops[4]))
  {
    var s2 := [Seg(0, 10, [], 0), Seg(10, 20, [], 0)];
    assert Apply(Apply([], 20, Allocate(10)), 20, Allocate(10)) == s2;
    var s4 := [Seg(10, 20, [], 0), Seg(0, 10, [], 0)];
    assert Apply(Apply(s2, 20, Pop), 20, Allocate(10)) == s4;
    var s5 := Apply(s4, 20, Allocate(10));
    assert s5 == s4 + [Seg(10, 20, [], 0)];
    assert !Disjoint(s5[0], s5[2]);
  }
}
