/** A concrete run of an input processor on the transport: what an overrun of the motion ring does to back-pressure. */
module PointerRuns {
  import opened Words
  import opened TransportModel
  import opened SlotRuns
  import opened Pointer
  import RP = RetransmitProofs

  /** Some run of one input processor, which alone sends mouse reports, ends in `w`. */
  ghost predicate Happens(c: Config, pc: IpConfig, w: World)
    requires ValidIp(pc)
  {
    exists ops :: OnlyProcessorsPoint(ops) && WorldRun(c, pc, 1, ops) == w
  }

  lemma BootHappens(c: Config, pc: IpConfig, none: seq<WorldOp>)
    requires ValidIp(pc) && none == []
    ensures Happens(c, pc, World(Reset(c), Idle(1), STILL, STILL))
  {
    assert WorldRun(c, pc, 1, none) == World(Reset(c), Idle(1), STILL, STILL);
  }

  lemma StepHappens(c: Config, pc: IpConfig, w: World, op: WorldOp)
    requires ValidIp(pc) && Happens(c, pc, w) && (op.OpTransport? ==> !Points(op.op))
    ensures Happens(c, pc, WorldStep(c, pc, w, op))
  {
    var ops :| OnlyProcessorsPoint(ops) && WorldRun(c, pc, 1, ops) == w;
    assert (ops + [op])[..|ops|] == ops;
    assert WorldRun(c, pc, 1, ops + [op]) == WorldStep(c, pc, w, op);
  }

  /** Some world that happens has this transport. */
  ghost predicate TransportHappens(c: Config, pc: IpConfig, t: Transport)
    requires ValidIp(pc)
  {
    exists w :: Happens(c, pc, w) && w.s.t == t
  }

  lemma OpHappens(c: Config, pc: IpConfig, t: Transport, op: Op)
    requires ValidIp(pc) && TransportHappens(c, pc, t) && !Points(op)
    ensures TransportHappens(c, pc, StepOn(c, t, op))
  {
    var w :| Happens(c, pc, w) && w.s.t == t;
    StepHappens(c, pc, w, OpTransport(op));
    BooksOnlyWatch(c, w.s, op);
    assert WorldStep(c, pc, w, OpTransport(op)).s.t == StepOn(c, t, op);
  }

  lemma KeysHappen(c: Config, pc: IpConfig, t: Transport, keys: Payload, now: U32)
    requires ValidIp(pc) && TransportHappens(c, pc, t) && IsKeys(keys)
    ensures TransportHappens(c, pc, SendOn(c, MadeRoom(c, t), keys, now, false))
  {
    hide TransportHappens, SendOn, SlotStartOn, SlotStopOn;
    OpHappens(c, pc, t, OpSlotStop);
    OpHappens(c, pc, SlotStopOn(t), OpSlotStart(true));
    OpHappens(c, pc, MadeRoom(c, t), OpSend(keys, now, false));
  }

  lemma {:induction false} CrowdHappens(c: Config, pc: IpConfig, t: Transport, keys: Payload, now: U32, n: nat)
    requires ValidIp(pc) && TransportHappens(c, pc, t) && IsKeys(keys)
    ensures TransportHappens(c, pc, Crowded(c, t, keys, now, n))
  {
    if n > 0 {
      CrowdHappens(c, pc, t, keys, now, n - 1);
      KeysHappen(c, pc, Crowded(c, t, keys, now, n - 1), keys, now);
    }
  }

  /** The pointer moves by ten. */
  function Nudge(now: U32): WorldOp {
    OpInput(0, Rel(RelX, 10, true), true, now, [])
  }

  const NUDGED := MouseReport(0, TEN)

  lemma NudgeTurn(pc: IpConfig, w: World, op: WorldOp)
    requires ValidIp(pc) && w.ips == [FRESH] && op.OpInput? && 0 < op.now && op == Nudge(op.now) && !HeldBack(pc, w.s.t, op.now)
    ensures TurnOf(pc, w, op).out == [NUDGED]
  {
    var d := Accumulate(FRESH, op.ev, op.now);
    assert d.accum == TEN && d.buttons == 0 && d.pending == [];
    assert Replay(d.pending) == [];
    assert !Stale(pc, d, op.now);
    assert Submit(pc, d, false, false, op.now) == Emit(d.(pending := []), []);
  }

  lemma OneReport(c: Config, s: State, out: seq<MouseReport>, now: U32, idles: seq<bool>)
    requires |out| == 1 && idles == []
    ensures SendReports(c, s, out, now, idles) == Send(c, s, Raw(c, out[0]), now, false)
  {
    hide Send, Raw;
    assert out[..0] == [];
    assert SendReports(c, s, out[..0], now, idles) == s;
  }

  lemma NudgeSends(c: Config, pc: IpConfig, w: World, op: WorldOp, move: Payload)
    requires ValidIp(pc) && w.ips == [FRESH] && op.OpInput? && 0 < op.now && op == Nudge(op.now) && !HeldBack(pc, w.s.t, op.now)
    requires move == Raw(c, NUDGED)
    ensures WorldStep(c, pc, w, op).s.t == SendOn(c, w.s.t, move, op.now, false)
  {
    NudgeTurn(pc, w, op);
    OneReport(c, w.s, [NUDGED], op.now, op.idles);
    BooksOnlyWatch(c, w.s, OpSend(move, op.now, false));
    hide TurnOf, SendReports, Send, SendOn;
  }

  lemma FirstMoveHappens(c: Config, pc: IpConfig, move: Payload, now: U32)
    requires ValidIp(pc) && move == Raw(c, NUDGED) && 0 < now
    ensures TransportHappens(c, pc, SendOn(c, Up(c), move, now, false))
  {
    var boot := World(Reset(c), Idle(1), STILL, STILL);
    BootHappens(c, pc, []);
    var started := WorldStep(c, pc, boot, OpTransport(OpSlotStart(true)));
    StepHappens(c, pc, boot, OpTransport(OpSlotStart(true)));
    assert started.s.t == Up(c);
    IdleIsFresh(1, 0);
    StepHappens(c, pc, started, Nudge(now));
    NudgeSends(c, pc, started, Nudge(now), move);
  }

  /** The proviso about overruns of the motion ring is needed. One mouse report, then as many keyboard reports as the ring has
      slots, with the endpoint deactivated and activated again whenever the FIFO is full: the in-flight counter stays at
      one, below any cap, and no live slot carries motion. */
  lemma OverrunBreaksCount(c: Config, pc: IpConfig, keys: Payload, now: U32)
    requires TakesMoves(c) && c.maxLen == 32 && !c.criticalRetransmit && ValidIp(pc) && IsKeys(keys) && 0 < now
    ensures exists w :: Happens(c, pc, w) && w.s.t.inflight == 1 && RP.Moving(w.s.t.motion.live) == 0
  {
    var move := Raw(c, NUDGED);
    assert IsMove(move);
    FirstMoveHappens(c, pc, move, now);
    Empty(c);
    OneMove(c, Up(c), 0, move, now, false);
    var t := SendOn(c, Up(c), move, now, false);
    assert Behind(c, t, 0);
    CrowdHappens(c, pc, t, keys, now, c.motionSize);
    MoveOverwritten(c, t, keys, now);
  }
}
