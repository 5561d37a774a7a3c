/** The invariant of the whole system and how it is put together from the eight sockets. */
module Invariant {
  import opened Spi
  import opened DriverSpec
  import opened Chip
  import opened World
  import opened Lanes
  import opened LocalInv
  import opened RegSteps
  import opened Scheduling

  /** The flags that a pending Sn_IR write at the head of the list will clear. */
  function AckOf(p: seq<Cmd>, s: nat): set<Flag> {
    if p != [] && p[0].ClearIr? && p[0].sn == s then p[0].flags else {}
  }

  function LocalOf(w: World, s: SockNo): Local
    requires Shape(w)
  {
    var p := Pending(w.d);
    Local(Sel(p, RxLane(s)), Sel(p, TxLane(s)), Sel(p, CrLane(s)), CrFlying(w.d, s), AckOf(p, s),
          w.d.socks[s], w.chips[s], w.hist[s])
  }

  /** Interrupt service comes first: a Sn_IR write is the very next command, READ_SOC
      commands precede all others, each for a different socket whose flags are still raised. */
  ghost predicate ServiceInv(p: seq<Cmd>, chips: seq<ChipSock>)
    requires |chips| == SOCKETS
  {
    && (forall i :: 0 <= i < |p| && p[i].ClearIr? ==>
          i == 0 && p[0].sn < SOCKETS && p[0].flags != {} && p[0].flags <= chips[p[0].sn].ir)
    && (forall i :: 0 <= i < |p| && p[i].ReadSoc? ==> p[i].sn < SOCKETS && chips[p[i].sn].ir != {})
    && (forall i, j :: 0 <= i < j < |p| && p[j].ReadSoc? ==>
          (p[i].ReadSoc? || p[i].ClearIr?) && p[i].sn != p[j].sn)
  }

  ghost predicate Inv(w: World) {
    && Shape(w) && SchedInv(w.d)
    && ServiceInv(Pending(w.d), w.chips)
    && forall s: SockNo :: LInv(s, LocalOf(w, s))
  }

  /** No command was lost to a full queue, no asynchronous error hit a command-register
      poll, and no placement succeeded in an exactly full ring. */
  ghost predicate Clean(w: World) {
    w.d.fails == 0 && !w.pollFailed && forall s :: 0 <= s < |w.d.socks| ==> !w.d.socks[s].clash
  }

  // ---- Starting the next command -----------------------------------------------------------

  /** No interrupt service is pending behind an ordinary command. */
  lemma OrdinaryHead(p: seq<Cmd>, chips: seq<ChipSock>)
    requires |chips| == SOCKETS && ServiceInv(p, chips) && p != [] && !p[0].ReadSoc? && !p[0].ClearIr?
    ensures forall i :: 0 <= i < |p| ==> !p[i].ReadSoc? && !p[i].ClearIr?
  {
  }

  lemma ReadCrLane(s: SockNo, lane: Lane)
    ensures On(ReadCr(s), lane) <==> lane == CrLane(s)
  {
  }

  lemma ReadBackLane(p: seq<Cmd>, s: SockNo, lane: Lane)
    requires p != []
    ensures var p' := [p[0], ReadCr(s)] + p[1..];
            Sel(p', lane) == if lane == CrLane(s) && On(p[0], lane) then [p[0], ReadCr(s)] + Sel(p, lane)[1..]
                             else if lane == CrLane(s) then [ReadCr(s)] + Sel(p, lane) else Sel(p, lane)
  {
    ReadCrLane(s, lane);
    hide On;
    var p' := [p[0], ReadCr(s)] + p[1..];
    assert p'[1..] == [ReadCr(s)] + p[1..];
    assert p'[1..][1..] == p[1..];
  }

  lemma StartLocal(w: World, ok: bool, s: SockNo)
    requires Shape(w) && SchedInv(w.d) && Resting(w.d)
    ensures var w' := w.(d := Start(w.d, ok));
            LocalOf(w', s) == if ok && CrReady(w.d) && w.d.queue[0].sn == s then AfterCrStart(s, LocalOf(w, s))
                else LocalOf(w, s)
  {
    var w' := w.(d := Start(w.d, ok));
    StartPending(w.d, ok);
    if ok && CrReady(w.d) {
      var q := w.d.queue;
      ReadBackLane(q, q[0].sn, RxLane(s));
      ReadBackLane(q, q[0].sn, TxLane(s));
      ReadBackLane(q, q[0].sn, CrLane(s));
    }
  }

  lemma StartKeeps(w: World, ok: bool)
    requires Inv(w) && Resting(w.d)
    ensures Inv(w.(d := Start(w.d, ok)))
  {
    hide LInv, LocalOf, Start, AfterCrStart;
    var w' := w.(d := Start(w.d, ok));
    StartPending(w.d, ok);
    StartService(w, ok);
    forall s: SockNo
      ensures LInv(s, LocalOf(w', s))
    {
      StartLocal(w, ok, s);
      if ok && CrReady(w.d) && w.d.queue[0].sn == s { StartedKeeps(w, s); }
    }
  }

  lemma StartedKeeps(w: World, s: SockNo)
    requires Inv(w) && Resting(w.d) && CrReady(w.d) && w.d.queue[0].sn == s
    ensures LInv(s, AfterCrStart(s, LocalOf(w, s)))
  {
    hide LInv, AfterCrStart;
    assert LInv(s, LocalOf(w, s));
    assert LocalOf(w, s).cr[0] == w.d.queue[0];
    CrStartKeeps(s, LocalOf(w, s));
  }

  lemma StartService(w: World, ok: bool)
    requires Inv(w) && Resting(w.d)
    ensures ServiceInv(Pending(Start(w.d, ok)), w.chips)
  {
    hide LInv, SchedInv, Start, ServiceInv;
    StartPending(w.d, ok);
    if ok && CrReady(w.d) { ReadBackService(w.d.queue, w.d.queue[0].sn, w.chips); }
  }

  lemma ReadBackService(p: seq<Cmd>, s: nat, chips: seq<ChipSock>)
    requires |chips| == SOCKETS && ServiceInv(p, chips) && p != [] && IsCrWrite(p[0])
    ensures ServiceInv([p[0], ReadCr(s)] + p[1..], chips)
  {
    hide IsCrWrite;
    OrdinaryHead(p, chips);
    var q := [p[0], ReadCr(s)] + p[1..];
    assert forall i :: 0 <= i < |q| ==> q[i] == if i == 0 then p[0] else if i == 1 then ReadCr(s) else p[i - 1];
  }
}
