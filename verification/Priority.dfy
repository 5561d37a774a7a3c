/** An interrupt is served before everything that has not started: from an INT edge that finds
    room in the queue until its READ_SIR has completed, no command pushed to the back starts. */
module Priority {
  import opened Spi
  import opened DriverSpec
  import opened Chip
  import opened World
  import opened Lanes
  import opened LocalInv
  import opened Scheduling
  import opened Invariant
  import opened Appending
  import opened TaskSteps
  import opened Completion
  import opened ReadCompletion
  import opened Growth
  import opened Runs
  import opened Theorems
  import opened Order
  import opened Limits
  import opened Starting

  // ---- One step ------------------------------------------------------------------------------------

  /** A READ_SIR that the INT callback pushed completes. */
  predicate SirCompletes(w: World, ev: Event) {
    ev.Complete? && InFlight(w.d) && w.d.running == ReadSir(false)
  }

  function SirCount(w: World, ev: Event): nat {
    if SirCompletes(w, ev) then 1 else 0
  }

  /** Interrupt service goes in front. */
  lemma UrgentLanded(fs: seq<Cmd>, f: seq<Cmd>, x: seq<Cmd>, n: nat)
    requires Urgent(f, x, n) && forall i :: 0 <= i < |fs| ==> fs[i].ReadSoc? || fs[i].ClearIr?
    ensures Urgent(fs + f, x, n)
  {
    SelJoin(fs, f, BackLane);
    SelNone(fs, BackLane);
    SirsJoin(fs, f);
  }

  /** The first command leaves. */
  lemma UrgentPopped(f: seq<Cmd>, x: seq<Cmd>, n: nat)
    requires Urgent(f, x, n) && |x| <= 1 && f != [] && n > 0
    ensures Urgent(f[1..], x, if f[0] == ReadSir(false) then n - 1 else n)
  {
  }

  lemma LandedBehind(w: World, d': Drv, fs: seq<Cmd>, cs: seq<Cmd>, b: seq<Cmd>, x: seq<Cmd>, n: nat)
    requires Inv(w) && w.d.dma != NoDma && LandsAs(w, d', fs, cs) && Resting(d') && |x| <= 1
    requires Behind(Pending(w.d), b, x, n) && n > SirCount(w, Complete(true))
    ensures Behind(Pending(d'), b + cs, x, n - SirCount(w, Complete(true)))
  {
    hide LInv, SchedInv, ServiceInv, CrMirrored, Urgent, Behind;
    var f := BehindParts(Pending(w.d), b, x, n);
    var g := f;
    if InFlight(w.d) {
      InFlightHead(w);
      UrgentPopped(f, x, n);
      g := f[1..];
      assert f[0] == Pending(w.d)[0] == w.d.running;
      assert w.d.queue == Pending(w.d)[1..] == g + b;
    }
    var m := n - SirCount(w, Complete(true));
    UrgentLanded(fs, g, x, m);
    assert Pending(d') == fs + (g + b) + cs == (fs + g) + (b + cs);
    BehindIff(fs + g, b + cs, x, m);
  }

  lemma CompleteBehind(w: World, ok: bool, b: seq<Cmd>, x: seq<Cmd>, n: nat)
    requires Inv(w) && Clean(w) && Enabled(w, Complete(ok)) && Clean(Step(w, Complete(ok))) && |x| <= 1
    requires Behind(Pending(w.d), b, x, n) && n > SirCount(w, Complete(ok))
    ensures Behind(Pending(Step(w, Complete(ok)).d), b + PushedByRead(w), x, n - SirCount(w, Complete(ok)))
  {
    hide Inv, Start, DmaRxComplete, ChipsAfter, ReplyOf, Landed, LandsAs, SchedInv, Behind, PushedByRead, Pending,
         InFlight;
    InvIsShape(w);
    CompletionSplits(w, ok);
    var d1 := Landed(w).d;
    StartGrows(d1, ok);
    LandedGrows(w);
    var fs := LandedLands(w);
    LandedKeeps(w);
    InvIsShape(Landed(w));
    LandedBehind(w, d1, fs, PushedByRead(w), b, x, n);
    StartOnward(d1, ok);
    OnwardBehind(d1, Start(d1, ok), [], b + PushedByRead(w), x, n - SirCount(w, Complete(ok)));
    assert b + PushedByRead(w) + [] == b + PushedByRead(w);
  }

  lemma OnwardBehind(d: Drv, d': Drv, cs: seq<Cmd>, b: seq<Cmd>, x: seq<Cmd>, n: nat)
    requires Onward(d, d', cs) && n > 0 && Behind(Pending(d), b, x, n)
    ensures Behind(Pending(d'), b + cs, x, n)
  {
    hide Behind, SchedInv, Sel, Pending, CrHeld;
  }

  /** Whatever happens, what is behind a READ_SIR of the INT callback stays behind it. */
  lemma StepBehind(w: World, ev: Event, b: seq<Cmd>, x: seq<Cmd>, n: nat)
    requires Inv(w) && Clean(w) && Enabled(w, ev) && Clean(Step(w, ev)) && |x| <= 1
    requires Behind(Pending(w.d), b, x, n) && n > SirCount(w, ev)
    ensures Behind(Pending(Step(w, ev).d), b + PushedBy(w, ev), x, n - SirCount(w, ev))
  {
    hide Inv, Step, Clean, Behind, Pending, Onward;
    InvIsShape(w);
    if ev.Complete? {
      CompleteBehind(w, ev.ok, b, x, n);
    } else {
      hide PushedBy;
      OtherOnward(w, ev);
      OnwardBehind(w.d, Step(w, ev).d, PushedBy(w, ev), b, x, n);
    }
  }

  // ---- Over runs -----------------------------------------------------------------------------------

  ghost predicate Steps(states: seq<World>, events: seq<Event>, i: nat, j: nat) {
    i <= j < |states| && j <= |events| && forall k :: i <= k < j ==> OneStep(states[k], events[k], states[k + 1])
  }

  /** What the events from number i on and before number j push to the back. */
  ghost function PushedSince(states: seq<World>, events: seq<Event>, i: nat, j: nat): seq<Cmd>
    requires Steps(states, events, i, j)
    decreases j
  {
    if j == i then []
    else
      assert OneStep(states[j - 1], events[j - 1], states[j - 1 + 1]);
      PushedSince(states, events, i, j - 1) + PushedBy(states[j - 1], events[j - 1])
  }

  /** How many READ_SIR commands of the INT callback complete meanwhile. */
  ghost function SirsSince(states: seq<World>, events: seq<Event>, i: nat, j: nat): nat
    requires Steps(states, events, i, j)
    decreases j
  {
    if j == i then 0 else SirsSince(states, events, i, j - 1) + SirCount(states[j - 1], events[j - 1])
  }

  /** Event i raises INT, its edge is seen and its READ_SIR finds room in the queue. */
  ghost predicate Raised(states: seq<World>, events: seq<Event>, i: nat) {
    && i < |states| && i < |events| && Shape(states[i]) && Enabled(states[i], events[i])
    && RaisesInt(states[i], events[i]) && |states[i].d.queue| < COMMAND_QUEUE_SIZE
  }

  /** The command in flight, if it was pushed to the back. */
  function Flying(d: Drv): (x: seq<Cmd>)
    ensures |x| <= 1
  {
    if InFlight(d) && FromBack(d.running) then [d.running] else []
  }

  /** The READ_SIR that completes next may be one that is in flight already. */
  function SirsAhead(d: Drv): nat {
    if InFlight(d) && d.running == ReadSir(false) then 2 else 1
  }

  lemma EdgeBehind(d: Drv, ok: bool)
    requires SchedInv(d) && |d.queue| < COMMAND_QUEUE_SIZE
    ensures Behind(Pending(InterruptCallback(d, ok)), d.queue, Flying(d), SirsAhead(d))
  {
    hide PushFront, Behind, Urgent;
    var k := PushFrontPending(d, ReadSir(false), ok);
    EdgeUrgent(d.running);
    if d.running.Idle? || Polling(d) {
      assert Pending(d) == d.queue;
      BehindIff([ReadSir(false)], d.queue, [], 1);
    } else {
      var f := [d.running, ReadSir(false)];
      assert Pending(InterruptCallback(d, ok)) == f + d.queue;
      BehindIff(f, d.queue, Flying(d), SirsAhead(d));
    }
  }

  lemma EdgeUrgent(c: Cmd)
    ensures Urgent([ReadSir(false)], [], 1)
    ensures Urgent([c, ReadSir(false)], if FromBack(c) then [c] else [], if c == ReadSir(false) then 2 else 1)
  {
    var f := [c, ReadSir(false)];
    assert f[1..] == [ReadSir(false)] && f[1..][1..] == [];
  }

  lemma {:induction false} StillBehind(states: seq<World>, events: seq<Event>, i: nat, j: nat)
    requires Reached(states, events, j) && i < j && Raised(states, events, i) && Steps(states, events, i + 1, j)
    requires SirsSince(states, events, i + 1, j) < SirsAhead(states[i].d)
    ensures Behind(Pending(states[j].d), states[i].d.queue + PushedSince(states, events, i + 1, j), Flying(states[i].d),
                   SirsAhead(states[i].d) - SirsSince(states, events, i + 1, j))
    decreases j - i
  {
    hide Clean, Step, Enabled, Inv, Behind, Pending, Flying, PushedBy, SirCount, Reached, RaisesInt, PushedSince,
         SirsSince, SirsAhead, CleanStep, Steps;
    EarlierReached(states, events, j);
    ReachedInv(states, events, j - 1, 0);
    SinceStep(states, events, i + 1, j);
    var d := states[i].d;
    if j == i + 1 {
      EdgeStep(states[i], events[i], states[j]);
      assert d.queue + [] == d.queue;
    } else {
      StillBehind(states, events, i, j - 1);
      var ps, n := PushedSince(states, events, i + 1, j - 1), SirsAhead(d) - SirsSince(states, events, i + 1, j - 1);
      BehindAfter(states[j - 1], events[j - 1], states[j], d.queue, ps, Flying(d), n);
    }
  }

  lemma EdgeStep(w: World, ev: Event, w': World)
    requires Inv(w) && CleanStep(w, ev, w') && RaisesInt(w, ev) && |w.d.queue| < COMMAND_QUEUE_SIZE
    ensures Behind(Pending(w'.d), w.d.queue, Flying(w.d), SirsAhead(w.d))
  {
    hide Behind, Pending, Flying, SirsAhead, Inv, Clean, RaisesInt, Step, Enabled;
    EdgeTaken(w, ev);
  }

  lemma BehindAfter(w: World, ev: Event, w': World, q: seq<Cmd>, ps: seq<Cmd>, x: seq<Cmd>, n: nat)
    requires Inv(w) && CleanStep(w, ev, w') && |x| <= 1
    requires Behind(Pending(w.d), q + ps, x, n) && n > SirCount(w, ev)
    ensures Behind(Pending(w'.d), q + (ps + PushedBy(w, ev)), x, n - SirCount(w, ev))
  {
    hide Behind, Pending, Inv, Clean, Step, Enabled, PushedBy, SirCount;
    StepBehind(w, ev, q + ps, x, n);
    Regrouped(q, ps, PushedBy(w, ev));
  }

  lemma SinceStep(states: seq<World>, events: seq<Event>, i: nat, j: nat)
    requires Steps(states, events, i, j)
    ensures j < |states| && j <= |events|
    ensures i == j ==> PushedSince(states, events, i, j) == [] && SirsSince(states, events, i, j) == 0
    ensures i < j ==>
              && Steps(states, events, i, j - 1)
              && OneStep(states[j - 1], events[j - 1], states[j])
              && PushedSince(states, events, i, j)
                 == PushedSince(states, events, i, j - 1) + PushedBy(states[j - 1], events[j - 1])
              && SirsSince(states, events, i, j)
                 == SirsSince(states, events, i, j - 1) + SirCount(states[j - 1], events[j - 1])
  {
    hide Step, Enabled, PushedBy, SirCount;
    if i < j { assert OneStep(states[j - 1], events[j - 1], states[j - 1 + 1]); }
  }

  lemma EdgeTaken(w: World, ev: Event)
    requires Inv(w) && Enabled(w, ev) && RaisesInt(w, ev) && |w.d.queue| < COMMAND_QUEUE_SIZE
    ensures Behind(Pending(Step(w, ev).d), w.d.queue, Flying(w.d), SirsAhead(w.d))
  {
    hide Behind, Pending, Flying, SirsAhead, LInv, ServiceInv, SchedInv, InterruptCallback, AfterEvent, StaleRecv, Sir;
    EdgeBehind(w.d, ev.ok);
  }

  lemma UrgentMeans(f: seq<Cmd>, x: seq<Cmd>, n: nat)
    requires Urgent(f, x, n) && n > 0
    ensures ReadSir(false) in f && f != [] && (Sel(f, BackLane) == [] || Sel(f, BackLane) == x)
    ensures FromBack(f[0]) ==> x != [] && x[0] == f[0]
  {
    if f[0] != ReadSir(false) { SirsInside(f[1..]); }
  }

  lemma {:induction false} SirsInside(f: seq<Cmd>)
    requires Sirs(f) > 0
    ensures ReadSir(false) in f
  {
    if f[0] != ReadSir(false) { SirsInside(f[1..]); }
  }

  /** Main result. From an INT edge that is seen and finds room until its READ_SIR has completed,
      everything that had not started at the edge and everything pushed to the back since is
      still pending, in order, behind a READ_SIR; ahead of it stands, of the commands pushed to
      the back, at most the one that was in flight at the edge. So no other such command starts;
      that one may start again when the HAL refuses or the bus fails. */
  lemma InterruptGoesFirst(states: seq<World>, events: seq<Event>, i: nat, j: nat) returns (f: seq<Cmd>)
    requires Reached(states, events, j) && i < j && Raised(states, events, i) && Steps(states, events, i + 1, j)
    requires SirsSince(states, events, i + 1, j) < SirsAhead(states[i].d)
    ensures Pending(states[j].d) == f + (states[i].d.queue + PushedSince(states, events, i + 1, j))
    ensures ReadSir(false) in f && (Sel(f, BackLane) == [] || Sel(f, BackLane) == Flying(states[i].d))
    ensures InFlight(states[j].d) && FromBack(states[j].d.running) ==> Flying(states[i].d) == [states[j].d.running]
  {
    hide Clean, Init, Step, Enabled, Inv, PushedSince, SirsSince, SirsAhead, Raised, Behind, Urgent, FromBack, LInv;
    StillBehind(states, events, i, j);
    ReachedInv(states, events, j, 0);
    var x := Flying(states[i].d);
    var n := SirsAhead(states[i].d) - SirsSince(states, events, i + 1, j);
    f := BehindParts(Pending(states[j].d), states[i].d.queue + PushedSince(states, events, i + 1, j), x, n);
    UrgentMeans(f, x, n);
    if InFlight(states[j].d) {
      InFlightHead(states[j]);
      assert Pending(states[j].d)[0] == f[0];
    }
  }

  // ---- Service -----------------------------------------------------------------------------------------

  lemma {:induction false} SocsComplete(flagged: set<nat>, i: nat, s: nat)
    ensures ReadSoc(s) in Socs(flagged, i) <==> s < i && s in flagged
  {
    if i > 0 { SocsComplete(flagged, i - 1, s); }
  }

  /** READ_SOC commands for different sockets, the highest first. */
  ghost predicate Falling(cs: seq<Cmd>) {
    && (forall j :: 0 <= j < |cs| ==> cs[j].ReadSoc?)
    && forall j, k :: 0 <= j < k < |cs| ==> cs[j].sn > cs[k].sn
  }

  lemma {:induction false} SocsFall(flagged: set<nat>, i: nat)
    ensures Falling(Socs(flagged, i))
  {
    SocsAre(flagged, i);
    if i > 0 {
      SocsFall(flagged, i - 1);
      SocsAre(flagged, i - 1);
    }
  }

  /** The next command to start is interrupt service. */
  lemma ServiceStarts(d: Drv, ok: bool)
    requires SchedInv(d) && Resting(d) && d.queue != [] && (d.queue[0].ReadSoc? || d.queue[0].ClearIr?)
    ensures Pending(Start(d, ok)) == d.queue
  {
    hide SchedInv, Start;
    SchedWf(d);
    StartPending(d, ok);
  }

  lemma LandedSched(w: World, ok: bool)
    requires Inv(w) && Clean(w) && Enabled(w, Complete(ok)) && Clean(Step(w, Complete(ok)))
    ensures Wf(Landed(w).d) && Landed(w).d.fails == w.d.fails && SchedInv(Landed(w).d) && Resting(Landed(w).d)
    ensures Step(w, Complete(ok)).d == Start(Landed(w).d, ok)
  {
    hide LInv, ServiceInv, SchedInv, Start, Landed, TransferComplete, ReplyOf, ChipsAfter;
    InvIsShape(w);
    CompletionSplits(w, ok);
    StartGrows(Landed(w).d, ok);
    LandedGrows(w);
    LandedKeeps(w);
  }

  /** A READ_SIR that finds raised flags leaves, before everything else, one READ_SOC for each
      flagged socket, the highest first, and none for any other. */
  lemma FlaggedSocketsRead(w: World, ok: bool) returns (socs: seq<Cmd>)
    requires Inv(w) && Clean(w) && Enabled(w, Complete(ok)) && Clean(Step(w, Complete(ok)))
    requires InFlight(w.d) && w.d.running.ReadSir? && Sir(w.chips) != {}
    ensures Pending(Step(w, Complete(ok)).d) == socs + w.d.queue
    ensures Falling(socs) && forall s: SockNo :: ReadSoc(s) in socs <==> w.chips[s].ir != {}
  {
    hide LInv, ServiceInv, SchedInv, Start, ReadDone, TransferComplete, Socs, CrMirrored, Clean, Pending;
    InvIsShape(w);
    InFlightHead(w);
    LandedSched(w, ok);
    var flagged := Sir(w.chips);
    SirLands(w);
    socs := Socs(flagged, SOCKETS);
    SocsAre(flagged, SOCKETS);
    SocsFall(flagged, SOCKETS);
    forall s: SockNo
      ensures ReadSoc(s) in socs <==> w.chips[s].ir != {}
    {
      SocsComplete(flagged, SOCKETS, s);
    }
    var s :| s in flagged;
    SocsComplete(flagged, SOCKETS, s);
    assert socs + w.d.queue + [] == socs + w.d.queue;
    ServiceStarts(ReadDone(w).d, ok);
  }

  lemma SocPlanOrder(sk: Sock, s: SockNo)
    ensures var cs := SocPlan(sk, s).1; cs == Sel(cs, RxLane(s)) + Sel(cs, TxLane(s))
  {
    hide ReceivePlan, SendPlan, Sel, Ended;
    var (sk1, cs1) := if RECV in sk.reg.ir then ReceivePlan(sk, s) else (sk, []);
    var cs2 := if Ended(sk.reg.ir) then SendPlan(PopSent(sk1), s).1 else [];
    ReceivePlanLanes(sk, s);
    SendPlanLanes(PopSent(sk1), s);
    NoneSelected(RxLane(s));
    NoneSelected(TxLane(s));
    SelJoin(cs1, cs2, RxLane(s));
    SelJoin(cs1, cs2, TxLane(s));
    assert cs1 + [] == cs1 && [] + cs2 == cs2;
  }

  /** A READ_SOC leaves, before everything else, the acknowledgement of all the flags that it has
      seen, and behind everything the batches that they ask for, the fetch first. */
  lemma SeenFlagsCleared(w: World, ok: bool, s: SockNo)
    requires Inv(w) && Clean(w) && Enabled(w, Complete(ok)) && Clean(Step(w, Complete(ok)))
    requires InFlight(w.d) && w.d.running == ReadSoc(s)
    ensures Pending(Step(w, Complete(ok)).d) == [ClearIr(s, w.chips[s].ir)] + w.d.queue + PushedByRead(w)
    ensures PushedByRead(w) == Sel(PushedByRead(w), RxLane(s)) + Sel(PushedByRead(w), TxLane(s))
  {
    hide LInv, ServiceInv, SchedInv, Start, ReadDone, TransferComplete, CrMirrored, Clean, Pending, SocPlan;
    SocPlanOrder(w.d.socks[s].(reg := ShownRegs(w.chips[s])), s);
    InvIsShape(w);
    InFlightHead(w);
    LandedSched(w, ok);
    SocLands(w, s);
    ServiceStarts(ReadDone(w).d, ok);
  }
}
