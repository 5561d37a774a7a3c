/** UDP records as the chip stores them: 4 bytes source address, 2 bytes port, 2 bytes
    length, then the data. */
module Records {
  import opened Bytes
  import opened DriverSpec

  /** A concatenation of whole records with non-empty data. */
  predicate Whole(b: seq<byte>)
    decreases |b|
  {
    b == [] || (|b| >= 8 && 0 < DataSize(b) <= |b| - 8 && Whole(b[8 + DataSize(b)..]))
  }

  function DataSize(b: seq<byte>): u16
    requires |b| >= 8
  {
    GetU16(b[6..8])
  }

  function First(b: seq<byte>): Datagram
    requires |b| >= 8 && DataSize(b) <= |b| - 8
  {
    Datagram(b[..4], GetU16(b[4..6]), b[8..8 + DataSize(b)])
  }

  /** The datagrams of a concatenation of records, in order. */
  function Parse(b: seq<byte>): seq<Datagram>
    requires Whole(b)
    decreases |b|
  {
    if b == [] then [] else [First(b)] + Parse(b[8 + DataSize(b)..])
  }

  /** One record as bytes. */
  function Serial(g: Datagram): seq<byte> {
    g.addr + SetU16(g.port) + SetU16(|g.data|) + g.data
  }

  predicate Proper(g: Datagram) {
    |g.addr| == 4 && 0 < |g.data| < 65536
  }

  function SerialAll(gs: seq<Datagram>): seq<byte> {
    if gs == [] then [] else Serial(gs[0]) + SerialAll(gs[1..])
  }

  lemma SerialParts(g: Datagram, rest: seq<byte>)
    requires Proper(g)
    ensures var b := Serial(g) + rest;
            |b| >= 8 && DataSize(b) == |g.data| <= |b| - 8 && First(b) == g && b[8 + DataSize(b)..] == rest
  {
    var b := Serial(g) + rest;
    U16RoundTrip(g.port);
    U16RoundTrip(|g.data|);
    assert b[..4] == g.addr;
    assert b[4..6] == SetU16(g.port);
    assert b[6..8] == SetU16(|g.data|);
    assert b[8..8 + |g.data|] == g.data;
    assert b[8 + |g.data|..] == rest;
  }

  /** Any list of datagrams with non-empty data is read back from its bytes. */
  lemma {:induction false} ParseSerial(gs: seq<Datagram>)
    requires forall i :: 0 <= i < |gs| ==> Proper(gs[i])
    ensures Whole(SerialAll(gs)) && Parse(SerialAll(gs)) == gs
  {
    if gs == [] {
    } else {
      assert Proper(gs[0]);
      assert forall i :: 0 <= i < |gs[1..]| ==> gs[1..][i] == gs[i + 1];
      ParseSerial(gs[1..]);
      SerialParts(gs[0], SerialAll(gs[1..]));
    }
  }

  /** The first record depends on its own bytes only. */
  lemma SameFirst(a: seq<byte>, c: seq<byte>)
    requires |a| >= 8 && a <= c
    ensures DataSize(c) == DataSize(a) && (DataSize(a) <= |a| - 8 ==> First(c) == First(a))
  {
    hide GetU16;
    assert c[6..8] == a[6..8] && c[..4] == a[..4] && c[4..6] == a[4..6];
    if DataSize(a) <= |a| - 8 { assert c[8..8 + DataSize(a)] == a[8..8 + DataSize(a)]; }
  }

  lemma DropJoined(a: seq<byte>, b: seq<byte>, k: nat)
    requires k <= |a|
    ensures (a + b)[k..] == a[k..] + b
  {
  }

  lemma {:induction false} WholeJoin(a: seq<byte>, b: seq<byte>)
    requires Whole(a) && Whole(b)
    ensures Whole(a + b) && Parse(a + b) == Parse(a) + Parse(b)
    decreases |a|
  {
    hide DataSize, First;
    if a == [] {
      assert a + b == b;
    } else {
      SameFirst(a, a + b);
      var k := 8 + DataSize(a);
      DropJoined(a, b, k);
      WholeJoin(a[k..], b);
      assert [First(a)] + (Parse(a[k..]) + Parse(b)) == [First(a)] + Parse(a[k..]) + Parse(b);
    }
  }

  lemma {:induction false} WholeRest(a: seq<byte>, b: seq<byte>)
    requires Whole(a) && Whole(a + b)
    ensures Whole(b)
    decreases |a|
  {
    hide DataSize, First;
    if a == [] {
      assert a + b == b;
    } else {
      SameFirst(a, a + b);
      var k := 8 + DataSize(a);
      DropJoined(a, b, k);
      WholeRest(a[k..], b);
    }
  }
}
