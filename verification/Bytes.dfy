/** Bytes, 16-bit register values, flat buffers and the chip's circular memories.

    Chip pointers are kept as unbounded counters; the 16-bit register shows the counter
    modulo 65536 and a register write moves the counter forward to the next value that
    shows the written number. */
module Bytes {
  newtype byte = x: int | 0 <= x < 256
  type u16 = x: int | 0 <= x < 65536

  function ToU16(v: int): u16 { v % 65536 }

  /** A uint16_t read into an int16_t variable. */
  function ToInt16(v: int): (r: int)
    ensures 0 <= v < 32768 ==> r == v
  {
    var w := v % 65536;
    if w < 32768 then w else w - 65536
  }

  /** SET_U16: the two bytes of a 16-bit value, most significant first. */
  function SetU16(v: int): (b: seq<byte>)
    ensures |b| == 2
  {
    [((v / 256) % 256) as byte, (v % 256) as byte]
  }

  /** GET_U16. */
  function GetU16(b: seq<byte>): u16
    requires |b| >= 2
  {
    b[0] as int * 256 + b[1] as int
  }

  /** Most significant byte first, written and read. */
  lemma U16RoundTrip(v: int)
    ensures SetU16(v)[0] as int * 256 + SetU16(v)[1] as int == ToU16(v) == GetU16(SetU16(v))
  {
    assert v == (v / 256) * 256 + v % 256;
  }

  /** A chip pointer register at counter p takes the written value w. */
  function Advance(p: nat, w: u16): nat {
    p + (w - p) % 65536
  }

  lemma AdvanceShown(p: nat, n: nat)
    requires n < 65536
    ensures Advance(p, ToU16(ToU16(p) + n)) == p + n
  {
    var w := ToU16(ToU16(p) + n);
    assert (w - p) % 65536 == n by {
      ModUnique(w - p, (ToU16(p) + n) / 65536 * -1 - p / 65536, n, 65536);
    }
  }

  lemma ModUnique(x: int, q: int, r: nat, m: nat)
    requires 0 <= r < m && x == q * m + r
    ensures x % m == r && x / m == q
  {
    assert x == (x / m) * m + x % m;
    MulApart(q, x / m, m);
  }

  /** Distinct multiples of m are at least m apart. */
  lemma MulApart(a: int, b: int, m: nat)
    ensures a > b ==> a * m - b * m >= m
    ensures b > a ==> b * m - a * m >= m
  {
    if a > b {
      MulAtLeast(a - b, m);
      assert (a - b) * m == a * m - b * m;
    } else if b > a {
      MulAtLeast(b - a, m);
      assert (b - a) * m == b * m - a * m;
    }
  }

  lemma MulAtLeast(a: int, m: nat)
    requires a >= 1
    ensures a * m >= m
  {
    assert a * m == m + (a - 1) * m;
    if a > 1 { MulAtLeast(a - 1, m); }
  }

  lemma AddMultiple(x: int, k: int, m: nat)
    requires m > 0
    ensures (x + k * m) % m == x % m
  {
    assert x == (x / m) * m + x % m;
    assert x + k * m == (x / m + k) * m + x % m;
    ModUnique(x + k * m, x / m + k, x % m, m);
  }

  /** Moving one summand to its residue does not change the residue of the sum. */
  lemma ModShift(a: int, b: int, m: nat)
    requires m > 0
    ensures (a % m + b) % m == (a + b) % m
  {
    assert a == (a / m) * m + a % m;
    assert a + b == (a % m + b) + (a / m) * m;
    AddMultiple(a % m + b, a / m, m);
  }

  // ---- Flat buffers -------------------------------------------------------------

  /** A copy of data into buf at index at. */
  function Splice(buf: seq<byte>, at: nat, data: seq<byte>): (r: seq<byte>)
    requires at + |data| <= |buf|
    ensures |r| == |buf|
    ensures r[at..at + |data|] == data
    ensures forall i :: 0 <= i < |buf| && (i < at || at + |data| <= i) ==> r[i] == buf[i]
  {
    buf[..at] + data + buf[at + |data|..]
  }

  lemma SlicePart(buf: seq<byte>, at: nat, n: nat, lo: nat, hi: nat)
    requires at + n <= |buf| && lo <= hi <= n
    ensures buf[at..at + n][lo..hi] == buf[at + lo..at + hi]
  {
    var a, b := buf[at..at + n][lo..hi], buf[at + lo..at + hi];
    assert |a| == |b| && forall i :: 0 <= i < |a| ==> a[i] == b[i];
  }

  lemma TailOf(a: seq<byte>, from: nat, at: nat)
    requires from <= at <= |a|
    ensures a[from..|a|][at - from..|a| - from] == a[at..]
  {
    SlicePart(a, from, |a| - from, at - from, |a| - from);
  }

  // ---- Circular memories --------------------------------------------------------

  /** A W5500 socket memory: 1, 2, 4, 8 or 16 KB. */
  predicate MemSize(n: nat) {
    n == 1024 || n == 2048 || n == 4096 || n == 8192 || n == 16384
  }

  /** The cell that the counter value a addresses. */
  function Cell(m: seq<byte>, a: int): byte
    requires |m| > 0
  {
    m[a % |m|]
  }

  function RingRead(m: seq<byte>, at: nat, n: nat): (r: seq<byte>)
    requires |m| > 0
    ensures |r| == n
    ensures forall k :: 0 <= k < n ==> r[k] == Cell(m, at + k)
  {
    seq(n, k requires 0 <= k => Cell(m, at + k))
  }

  /** Cell i keeps its value unless it is one of the |data| cells from at on. */
  function RingWriteCell(m: seq<byte>, at: nat, data: seq<byte>, i: nat): byte
    requires i < |m|
  {
    var k := (i - at) % |m|;
    if k < |data| then data[k] else m[i]
  }

  function RingWrite(m: seq<byte>, at: nat, data: seq<byte>): (r: seq<byte>)
    requires |m| > 0
    ensures |r| == |m|
    ensures forall i :: 0 <= i < |m| ==> r[i] == RingWriteCell(m, at, data, i)
  {
    seq(|m|, i requires 0 <= i < |m| => RingWriteCell(m, at, data, i))
  }

  lemma RingReadPart(m: seq<byte>, at: nat, n: nat, lo: nat, hi: nat)
    requires |m| > 0 && lo <= hi <= n
    ensures RingRead(m, at, n)[lo..hi] == RingRead(m, at + lo, hi - lo)
  {
  }

  lemma RingReadJoin(m: seq<byte>, at: nat, a: nat, b: nat)
    requires |m| > 0
    ensures RingRead(m, at, a + b) == RingRead(m, at, a) + RingRead(m, at + a, b)
  {
  }

  /** The chip's address counter is 16 bits wide; every memory size divides 65536. */
  lemma RingAddress16(m: seq<byte>, at: nat, n: nat)
    requires MemSize(|m|)
    ensures RingRead(m, at % 65536, n) == RingRead(m, at, n)
  {
    forall k | 0 <= k < n
      ensures RingRead(m, at % 65536, n)[k] == RingRead(m, at, n)[k]
    {
      Residue16(at, k, |m|);
    }
  }

  lemma Residue16(at: int, k: int, size: nat)
    requires MemSize(size)
    ensures (at % 65536 + k) % size == (at + k) % size
  {
    var q := at / 65536;
    assert at + k == (at % 65536 + k) + (q * (65536 / size)) * size by {
      assert (65536 / size) * size == 65536;
      assert q * (65536 / size) * size == q * 65536;
    }
    AddMultiple(at % 65536 + k, q * (65536 / size), size);
  }

  lemma RingWriteAddress16(m: seq<byte>, at: nat, data: seq<byte>)
    requires MemSize(|m|)
    ensures RingWrite(m, at % 65536, data) == RingWrite(m, at, data)
  {
    var x, y := RingWrite(m, at % 65536, data), RingWrite(m, at, data);
    forall i | 0 <= i < |m|
      ensures x[i] == y[i]
    {
      assert (i - at % 65536) % |m| == (i - at) % |m| by {
        var q := at / 65536;
        assert i - at % 65536 == (i - at) + (q * (65536 / |m|)) * |m| by {
          assert (65536 / |m|) * |m| == 65536;
          assert q * (65536 / |m|) * |m| == q * 65536;
        }
        AddMultiple(i - at, q * (65536 / |m|), |m|);
      }
    }
  }

  lemma RingWriteAt(m: seq<byte>, at: nat, data: seq<byte>, a: nat, k: nat)
    requires 0 < |m| && k < |m| && (a - at) % |m| == k
    ensures Cell(RingWrite(m, at, data), a) == if k < |data| then data[k] else Cell(m, a)
  {
    ModShift(a, 0 - at, |m|);
    assert RingWrite(m, at, data)[a % |m|] == RingWriteCell(m, at, data, a % |m|);
  }

  /** What was written is read back, when it does not lap itself. */
  lemma RingReadWritten(m: seq<byte>, at: nat, data: seq<byte>)
    requires 0 < |m| && |data| <= |m|
    ensures RingRead(RingWrite(m, at, data), at, |data|) == data
  {
    var w := RingWrite(m, at, data);
    forall k | 0 <= k < |data|
      ensures RingRead(w, at, |data|)[k] == data[k]
    {
      ModUnique(k, 0, k, |m|);
      RingWriteAt(m, at, data, at + k, k);
    }
  }

  /** A write just after a region leaves the region alone when both fit in the memory. */
  lemma RingReadBefore(m: seq<byte>, from: nat, at: nat, data: seq<byte>)
    requires 0 < |m| && from <= at && at + |data| - from <= |m|
    ensures RingRead(RingWrite(m, at, data), from, at - from) == RingRead(m, from, at - from)
  {
    var w := RingWrite(m, at, data);
    var n := at - from;
    forall k | 0 <= k < n
      ensures RingRead(w, from, n)[k] == RingRead(m, from, n)[k]
    {
      var d := at - from - k;
      ModUnique(0 - d, -1, |m| - d, |m|);
      RingWriteAt(m, at, data, from + k, |m| - d);
    }
  }

  /** A write just after a region extends what is read. */
  lemma RingAppend(m: seq<byte>, from: nat, at: nat, data: seq<byte>)
    requires 0 < |m| && from <= at && at + |data| - from <= |m|
    ensures RingRead(RingWrite(m, at, data), from, at + |data| - from) == RingRead(m, from, at - from) + data
  {
    hide RingRead, RingWrite;
    RingReadBefore(m, from, at, data);
    RingReadWritten(m, at, data);
    RingReadJoin(RingWrite(m, at, data), from, at - from, |data|);
  }
}
