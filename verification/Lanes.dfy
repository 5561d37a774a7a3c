/** The list of commands still to be carried out, and its sub-lists per purpose. */
module Lanes {
  import opened Spi
  import opened DriverSpec
  import opened World

  /** The running command and then the queue. While a busy command register is polled, the
      command itself is back in the queue. */
  function Pending(d: Drv): seq<Cmd> {
    if d.running.Idle? || Polling(d) then d.queue else [d.running] + d.queue
  }

  /** A read of a socket's command register into its mirror. */
  predicate IsCrRead(c: Cmd, s: nat) {
    c.ReadReg? && c.sn == s && c.off == Sn_CR && c.count == 1
  }

  datatype Lane = RxLane(sn: nat) | TxLane(sn: nat) | CrLane(sn: nat) | BackLane

  /** Which commands belong to the receive batch, the send batch and the command-register
      traffic of a socket, and which were pushed to the back. */
  predicate On(c: Cmd, lane: Lane) {
    match lane
    case RxLane(s) =>
      || (c.ReadBuf? && c.sn == s)
      || (c.CheckRcv? && c.sn == s)
      || (c.WriteReg? && c.sn == s && (c.off == Sn_RX_RD || (c.off == Sn_CR && c.data == [CR_RECV])))
    case TxLane(s) =>
      || (c.WriteBuf? && c.sn == s)
      || (c.WriteReg? && c.sn == s &&
          (c.off == Sn_DIPR || c.off == Sn_DPORT || c.off == Sn_TX_WR || (c.off == Sn_CR && c.data == [CR_SEND])))
    case CrLane(s) =>
      || IsCrRead(c, s)
      || (c.WriteReg? && c.sn == s && c.off == Sn_CR)
    case BackLane => FromBack(c)
  }

  function Sel(p: seq<Cmd>, lane: Lane): seq<Cmd> {
    if p == [] then []
    else if On(p[0], lane) then [p[0]] + Sel(p[1..], lane)
    else Sel(p[1..], lane)
  }

  lemma {:induction false} SelJoin(a: seq<Cmd>, b: seq<Cmd>, lane: Lane)
    ensures Sel(a + b, lane) == Sel(a, lane) + Sel(b, lane)
  {
    if a == [] {
      assert a + b == b;
    } else {
      SelJoin(a[1..], b, lane);
      assert (a + b)[1..] == a[1..] + b;
    }
  }

  lemma {:induction false} SelNone(a: seq<Cmd>, lane: Lane)
    requires forall i :: 0 <= i < |a| ==> !On(a[i], lane)
    ensures Sel(a, lane) == []
  {
    if a != [] { SelNone(a[1..], lane); }
  }

  lemma {:induction false} SelAll(a: seq<Cmd>, lane: Lane)
    requires forall i :: 0 <= i < |a| ==> On(a[i], lane)
    ensures Sel(a, lane) == a
  {
    if a != [] { SelAll(a[1..], lane); }
  }

  /** A command that is not on the lane may be inserted anywhere. */
  lemma SelInsert(p: seq<Cmd>, k: nat, c: Cmd, lane: Lane)
    requires k <= |p| && !On(c, lane)
    ensures Sel(p[..k] + [c] + p[k..], lane) == Sel(p, lane)
  {
    SelJoin(p[..k] + [c], p[k..], lane);
    SelJoin(p[..k], [c], lane);
    SelNone([c], lane);
    SelJoin(p[..k], p[k..], lane);
    assert p == p[..k] + p[k..];
  }
}
