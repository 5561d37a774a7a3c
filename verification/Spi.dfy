/** SPI frame headers and the driver's test for a write to a socket command register. */
module Spi {
  import opened Bytes

  const SOCKETS: nat := 8

  type SockNo = s: nat | s < SOCKETS

  // Register offsets inside a socket block.
  const Sn_CR: u16 := 0x01
  const Sn_IR: u16 := 0x02
  const Sn_SR: u16 := 0x03
  const Sn_DIPR: u16 := 0x0C
  const Sn_DPORT: u16 := 0x10
  const Sn_TX_WR: u16 := 0x24
  const Sn_RX_RD: u16 := 0x28

  /** Block select of a socket's registers, or of the common registers. */
  function RegBlock(sn: nat): (b: nat)
    ensures b < 32
  {
    if sn < SOCKETS then 1 + 4 * sn else 0
  }

  function TxBlock(sn: nat): nat { 2 + 4 * sn }

  function RxBlock(sn: nat): nat { 3 + 4 * sn }

  /** Address high, address low, control (block select, read/write, variable length). */
  function Header(off: u16, block: nat, write: bool): (h: seq<byte>)
    requires block < 32
    ensures |h| == 3
  {
    [(off / 256) as byte, (off % 256) as byte, (block * 8 + if write then 4 else 0) as byte]
  }

  /** What the chip takes from a header. */
  function HeaderOffset(h: seq<byte>): u16
    requires |h| >= 3
  {
    h[0] as int * 256 + h[1] as int
  }

  function HeaderBlock(h: seq<byte>): nat
    requires |h| >= 3
  {
    h[2] as int / 8
  }

  function HeaderWrite(h: seq<byte>): bool
    requires |h| >= 3
  {
    (h[2] as int / 4) % 2 == 1
  }

  lemma HeaderRoundTrip(off: u16, block: nat, write: bool)
    requires block < 32
    ensures var h := Header(off, block, write);
            HeaderOffset(h) == off && HeaderBlock(h) == block && HeaderWrite(h) == write
  {
  }

  /** The control byte of each kind of transfer, as the W5500 numbers them: 32 for each socket,
      plus 8 for its registers, 16 for its send memory, 24 for its receive memory, plus 4 for a
      write. */
  lemma ControlBytes(off: u16, sn: SockNo)
    ensures Header(off, RegBlock(sn), false)[2] as int == 32 * sn + 0x08
    ensures Header(off, RegBlock(sn), true)[2] as int == 32 * sn + 0x0C
    ensures Header(off, TxBlock(sn), true)[2] as int == 32 * sn + 0x14
    ensures Header(off, RxBlock(sn), false)[2] as int == 32 * sn + 0x18
    ensures Header(off, RegBlock(SOCKETS), false)[2] == 0x00 && Header(off, RegBlock(SOCKETS), true)[2] == 0x04
  {
  }

  /** The bit test on the first three bytes of a queued register write. */
  predicate IsCrHeader(h: seq<byte>, sn: nat)
    requires |h| >= 3
  {
    h[0] == 0 && h[1] == 1 && (h[2] as int / 4) % 8 == 3 && sn < SOCKETS
  }

  /** The test picks out the writes to Sn_CR of the eight sockets and nothing else. */
  lemma CrTestExact(sn: nat, off: u16)
    ensures IsCrHeader(Header(off, RegBlock(sn), true), sn) <==> sn < SOCKETS && off == Sn_CR
  {
    if sn < SOCKETS {
      assert (RegBlock(sn) * 8 + 4) / 4 == 2 * RegBlock(sn) + 1;
      assert (2 * (1 + 4 * sn) + 1) % 8 == 3;
    }
  }
}
