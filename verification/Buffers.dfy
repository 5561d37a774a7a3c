/** Writing to a byte array piece by piece from some index on. */
module Buffers {
  import opened Bytes

  /** The bytes written so far from index at on; everything else is as before. */
  predicate WrittenFrom(now: seq<byte>, before: seq<byte>, at: nat, bytes: seq<byte>)
    ensures WrittenFrom(now, before, at, bytes) ==> |now| == |before| && at + |bytes| <= |before|
  {
    at + |bytes| <= |before| && now == before[..at] + bytes + before[at + |bytes|..]
  }

  lemma UntouchedYet(before: seq<byte>, at: nat)
    requires at <= |before|
    ensures WrittenFrom(before, before, at, [])
  {
  }

  lemma OneMore(now: seq<byte>, next: seq<byte>, before: seq<byte>, at: nat, bytes: seq<byte>, more: seq<byte>)
    requires WrittenFrom(now, before, at, bytes) && at + |bytes| + |more| <= |before|
    requires next == now[..at + |bytes|] + more + now[at + |bytes| + |more|..]
    ensures WrittenFrom(next, before, at, bytes + more)
  {
    assert now[..at + |bytes|] == before[..at] + bytes;
    assert now[at + |bytes| + |more|..] == before[at + |bytes| + |more|..];
  }

  /** memcpy of some more bytes to the write position. */
  method Append(mem: array<byte>, pos: nat, more: seq<byte>, ghost before: seq<byte>, ghost at: nat,
                ghost bytes: seq<byte>)
    requires WrittenFrom(mem[..], before, at, bytes) && pos == at + |bytes| && pos + |more| <= mem.Length
    modifies mem
    ensures WrittenFrom(mem[..], before, at, bytes + more)
  {
    hide WrittenFrom;
    ghost var now := mem[..];
    forall i | pos <= i < pos + |more| { mem[i] := more[i - pos]; }
    assert mem[..] == now[..pos] + more + now[pos + |more|..];
    OneMore(now, mem[..], before, at, bytes, more);
  }
}
