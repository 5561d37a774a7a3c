/** Which lengths of a socket buffer the placement code can work with, when no placement is
    larger than the socket's memory in the chip and three SPI bytes. */
module RingLengths {
  import opened Bytes
  import opened RingAlloc

  /** Three SPI bytes and at least one byte of payload. */
  const MIN_PLACE: nat := 4

  predicate Sized(len: u16, cap: nat) {
    MIN_PLACE <= len <= cap
  }

  predicate SizedStep(a: seq<Seg>, op: RingOp, b: seq<Seg>, n: nat, cap: nat) {
    && Allowed(a, op) && (op.Allocate? ==> Sized(op.len, cap))
    && b == Apply(a, n, op) && |b| <= SOCKET_QUEUE_SIZE
  }

  /** Any use of one buffer of n bytes from the empty queue on, exact fills included. */
  ghost predicate SizedRun(states: seq<seq<Seg>>, ops: seq<RingOp>, n: nat, cap: nat) {
    && |states| == |ops| + 1 && states[0] == []
    && forall i :: 0 <= i < |ops| ==> SizedStep(states[i], ops[i], states[i + 1], n, cap)
  }

  /** In every use every placement is answered with -1 or a place inside the buffer. */
  ghost predicate NeverEscapes(n: nat, cap: nat) {
    forall states, ops, len: u16 :: SizedRun(states, ops, n, cap) && Sized(len, cap) ==> Inside(states[|ops|], n, len)
  }

  ghost predicate Within(segs: seq<Seg>, bound: nat) {
    forall i :: 0 <= i < |segs| ==> segs[i].start <= segs[i].end <= bound
  }

  /** How far a segment can extend: in a short buffer to its end; in a long one no placement goes
      behind the one at the start, because the space there does not fit 16 signed bits. */
  function Extent(n: nat, cap: nat): nat {
    if n <= 32767 then n else cap
  }

  predicate Safe(n: nat, cap: nat) {
    n <= 32767 || 32768 + cap <= n
  }

  lemma PlacedWithin(segs: seq<Seg>, n: nat, len: u16, cap: nat)
    requires Safe(n, cap) && n < 65536 && Within(segs, Extent(n, cap)) && Sized(len, cap)
    ensures var at := BufferIndex(segs, n, len); at == -1 || (0 <= at && at + len <= Extent(n, cap) <= n)
  {
  }

  lemma StepWithin(a: seq<Seg>, op: RingOp, b: seq<Seg>, n: nat, cap: nat)
    requires Safe(n, cap) && n < 65536 && Within(a, Extent(n, cap)) && SizedStep(a, op, b, n, cap)
    ensures Within(b, Extent(n, cap))
  {
    hide BufferIndex;
    match op {
      case Allocate(len) => PlacedWithin(a, n, len, cap);
      case Pop =>
      case Trim(start) =>
    }
  }

  lemma {:induction false} RunWithin(states: seq<seq<Seg>>, ops: seq<RingOp>, n: nat, cap: nat, i: nat)
    requires Safe(n, cap) && n < 65536 && SizedRun(states, ops, n, cap) && i < |states|
    ensures Within(states[i], Extent(n, cap))
  {
    hide SizedStep, Within;
    if i == 0 {
      NoneWithin(Extent(n, cap));
    } else {
      RunWithin(states, ops, n, cap, i - 1);
      assert SizedStep(states[i - 1], ops[i - 1], states[i - 1 + 1], n, cap);
      StepWithin(states[i - 1], ops[i - 1], states[i], n, cap);
    }
  }

  lemma NoneWithin(bound: nat)
    ensures Within([], bound)
  {
  }

  // ---- Lengths in between ------------------------------------------------------------------------

  lemma RunOn(states: seq<seq<Seg>>, ops: seq<RingOp>, n: nat, cap: nat, op: RingOp, b: seq<Seg>)
    requires SizedRun(states, ops, n, cap) && SizedStep(states[|ops|], op, b, n, cap)
    ensures SizedRun(states + [b], ops + [op], n, cap)
  {
    hide SizedStep;
    var states', ops' := states + [b], ops + [op];
    forall i | 0 <= i < |ops'|
      ensures SizedStep(states'[i], ops'[i], states'[i + 1], n, cap)
    {
      if i < |ops| { assert SizedStep(states[i], ops[i], states[i + 1], n, cap); }
    }
  }

  /** A placement behind the only segment and the release of that segment. */
  lemma MoveOn(states: seq<seq<Seg>>, ops: seq<RingOp>, n: nat, cap: nat, g: Seg, len: u16)
      returns (states': seq<seq<Seg>>, ops': seq<RingOp>)
    requires SizedRun(states, ops, n, cap) && states[|ops|] == [g] && Sized(len, cap) && n < 65536
    requires g.start < g.end && n - 32767 <= g.end < 32768 && g.end + len <= 32768 <= n
    ensures SizedRun(states', ops', n, cap) && states'[|ops'|] == [Seg(g.end, g.end + len, [], 0)]
  {
    var h := Seg(g.end, g.end + len, [], 0);
    assert BufferIndex([g], n, len) == g.end;
    assert SizedStep([g], Allocate(len), [g] + [h], n, cap);
    RunOn(states, ops, n, cap, Allocate(len), [g] + [h]);
    assert ([g] + [h])[1..] == [h];
    assert SizedStep([g] + [h], Pop, [h], n, cap);
    RunOn(states + [[g] + [h]], ops + [Allocate(len)], n, cap, Pop, [h]);
    states', ops' := states + [[g] + [h]] + [[h]], ops + [Allocate(len)] + [Pop];
  }

  /** The only segment creeps up to index 32768. */
  lemma {:induction false} CreepUp(states: seq<seq<Seg>>, ops: seq<RingOp>, n: nat, cap: nat, g: Seg)
      returns (states': seq<seq<Seg>>, ops': seq<RingOp>, h: Seg)
    requires SizedRun(states, ops, n, cap) && states[|ops|] == [g]
    requires 2 * MIN_PLACE <= cap && 32768 <= n < 32768 + cap && n < 65536
    requires g.start < g.end && cap <= g.end && (g.end == 32768 || g.end + MIN_PLACE <= 32768)
    ensures SizedRun(states', ops', n, cap) && states'[|ops'|] == [h] && h.start < h.end == 32768
    decreases 32768 - g.end
  {
    hide SizedRun;
    if g.end == 32768 {
      states', ops', h := states, ops, g;
    } else {
      var rest := 32768 - g.end;
      var len: u16 := if rest <= cap then rest else MIN_PLACE;
      var states1, ops1 := MoveOn(states, ops, n, cap, g, len);
      states', ops', h := CreepUp(states1, ops1, n, cap, Seg(g.end, g.end + len, [], 0));
    }
  }

  /** A use in which the next placement is answered with a negative index other than -1. */
  lemma EscapeReached(n: nat, cap: nat) returns (states: seq<seq<Seg>>, ops: seq<RingOp>)
    requires 2 * MIN_PLACE <= cap <= 32764 && 32768 <= n < 32768 + cap && n < 65536
    ensures SizedRun(states, ops, n, cap) && BufferIndex(states[|ops|], n, MIN_PLACE) == -32768
  {
    var g := Seg(0, cap, [], 0);
    assert SizedRun([[]], [], n, cap);
    assert SizedStep([], Allocate(cap), [g], n, cap);
    RunOn([[]], [], n, cap, Allocate(cap), [g]);
    assert [[]] + [[g]] == [[], [g]] && [] + [Allocate(cap)] == [Allocate(cap)];
    var h;
    states, ops, h := CreepUp([[], [g]], [Allocate(cap)], n, cap, g);
  }

  /** The exact lengths: with m bytes of chip memory no use gets an index that its caller takes
      for a place outside the buffer if and only if the buffer is at most 32767 bytes long or
      longer than 32767 bytes by more than the largest placement. */
  lemma NeverEscapesIff(m: nat, n: nat)
    requires MemSize(m) && n < 65536
    ensures NeverEscapes(n, m + 3) <==> n <= 32767 || 32768 + m + 3 <= n
  {
    hide BufferIndex, Inside;
    var cap := m + 3;
    if Safe(n, cap) {
      forall states, ops, len: u16 | SizedRun(states, ops, n, cap) && Sized(len, cap)
        ensures Inside(states[|ops|], n, len)
      {
        RunWithin(states, ops, n, cap, |ops|);
        AnswerInside(states[|ops|], n, len, cap);
      }
    } else {
      var states, ops := EscapeReached(n, cap);
      AnswerOutside(states[|ops|], n, MIN_PLACE);
      assert SizedRun(states, ops, n, cap) && Sized(MIN_PLACE, cap);
    }
  }

  lemma AnswerInside(segs: seq<Seg>, n: nat, len: u16, cap: nat)
    requires Safe(n, cap) && n < 65536 && Within(segs, Extent(n, cap)) && Sized(len, cap)
    ensures Inside(segs, n, len)
  {
    hide BufferIndex;
    PlacedWithin(segs, n, len, cap);
  }

  lemma AnswerOutside(segs: seq<Seg>, n: nat, len: u16)
    requires BufferIndex(segs, n, len) == -32768
    ensures !Inside(segs, n, len)
  {
    hide BufferIndex;
  }
}
