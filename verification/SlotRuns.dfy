/** Concrete runs: what slot changes, sends to a library that is down, and refused restorations leave behind. */
module SlotRuns {
  import opened Arith
  import opened Words
  import opened TransportModel
  import opened TransportProofs
  import opened RetransmitProofs
  import opened MotionProofs
  import opened Ledgers
  import opened FateProofs
  import opened RefundProofs
  import R = Rings

  // ----- Reachable transports -----

  ghost predicate Reachable(c: Config, t: Transport) {
    exists ops :: Run(c, ops).t == t
  }

  lemma ResetReachable(c: Config, none: seq<Op>)
    requires none == []
    ensures Reachable(c, Reset(c).t)
  {
    assert Run(c, none).t == Reset(c).t;
  }

  lemma StepReachable(c: Config, t: Transport, op: Op)
    requires Reachable(c, t)
    ensures Reachable(c, StepOn(c, t, op))
  {
    var ops :| Run(c, ops).t == t;
    assert (ops + [op])[..|ops|] == ops;
    BooksOnlyWatch(c, Run(c, ops), op);
    assert Run(c, ops + [op]).t == StepOn(c, t, op);
  }

  lemma SendReachable(c: Config, t: Transport, p: Payload, now: U32, idle: bool)
    requires Reachable(c, t)
    ensures Reachable(c, SendOn(c, t, p, now, idle))
  {
    StepReachable(c, t, OpSend(p, now, idle));
  }

  lemma SuccessReachable(c: Config, t: Transport, now: U32, idle: bool)
    requires Reachable(c, t)
    ensures Reachable(c, SuccessOn(c, t, now, idle))
  {
    StepReachable(c, t, OpSuccess(now, idle));
  }

  lemma SlotsReachable(c: Config, t: Transport, ok: bool)
    requires Reachable(c, t)
    ensures Reachable(c, SlotStartOn(c, t, ok)) && Reachable(c, SlotStopOn(t))
  {
    StepReachable(c, t, OpSlotStart(ok));
    StepReachable(c, t, OpSlotStop);
  }

  /** The transport after the first slot start. */
  function Up(c: Config): Transport {
    SlotStartOn(c, Reset(c).t, true)
  }

  lemma UpReachable(c: Config)
    ensures Reachable(c, Reset(c).t) && Reachable(c, Up(c))
  {
    ResetReachable(c, []);
    SlotsReachable(c, Reset(c).t, true);
  }

  // ----- Moves -----

  /** The payloads below fit the radio. */
  predicate TakesMoves(c: Config) {
    RingsFit(c) && 32 <= c.maxLen && 2 <= c.pipes
  }

  lemma ShippedTakesMoves(c: Config)
    requires c == SHIPPED
    ensures TakesMoves(c)
  {
    ShippedFits(c);
  }

  const TEN := Motion(10, 0, 0, 0)

  predicate IsMove(p: Payload) {
    p == Move(10)
  }

  /** A keyboard report. */
  predicate IsKeys(p: Payload) {
    p == Payload(1, 32, HID_REPORT, 0, 0, STILL)
  }

  /** The slot of a mouse report of ten steps. */
  function MoveSlot(c: Config): Slot {
    Slot(TEN, !c.hidNoack)
  }

  /** The transport takes sends directly, and no motion waits to be refunded. */
  predicate Quiet(t: Transport) {
    !t.sync && t.quietUntil == 0 && t.pool == STILL && t.stamp == 0
  }

  /** `n` moves were sent to a quiet transport with empty rings. */
  ghost predicate Holds(c: Config, t: Transport, n: nat) {
    && Quiet(t) && t.inflight == n && t.motion.tail == 0 && |t.motion.live| == n
    && (forall i | 0 <= i < n :: t.motion.live[i] == MoveSlot(c))
    && |t.fifo| == if t.up then n else 0
  }

  lemma PreparedMove(c: Config, t: Transport, p: Payload, now: U32, idle: bool)
    requires TakesMoves(c) && Quiet(t) && IsMove(p)
    ensures var k := Prepare(c, t, p, now, idle);
            k.refund == Refund(TEN, STILL, 0, STILL) && Slot(k.refund.out, k.pointer) == MoveSlot(c)
  {
  }

  /** From tail 0 the slots of a window no longer than the ring are its own indices. */
  lemma IndexIsSlot(size: R.Positive, i: nat)
    requires i < size <= 64
    ensures R.SlotOf(0x1_0000_0000, size, 0, i) == i
  {
  }

  lemma LengthIsFirst(size: R.Positive)
    requires size <= 64
    ensures R.SlotOf(0x1_0000_0000, size, 0, size) == 0
  {
    DivModOf(size, 1, size, 0);
  }

  lemma RoomForMotion(c: Config, t: Transport)
    requires ValidConfig(c) && t.motion.tail == 0 && |t.motion.live| < c.motionSize
    ensures R.HasRoom(0x1_0000_0000, c.motionSize, t.motion)
  {
    IndexIsSlot(c.motionSize, |t.motion.live|);
    forall i | 0 <= i < |t.motion.live|
      ensures R.SlotOf(0x1_0000_0000, c.motionSize, t.motion.tail, i)
              != R.SlotOf(0x1_0000_0000, c.motionSize, t.motion.tail, |t.motion.live|)
    {
      IndexIsSlot(c.motionSize, i);
    }
  }

  lemma OneMove(c: Config, t: Transport, n: nat, p: Payload, now: U32, idle: bool)
    requires TakesMoves(c) && Holds(c, t, n) && n < c.motionSize && (t.up ==> n < c.fifoDepth) && IsMove(p)
    ensures var u := SendOn(c, t, p, now, idle);
            Holds(c, u, n + 1) && u.up == t.up && SendVerdict(c, t, p, now) == Direct
  {
    var k := Prepare(c, Awake(t), p, now, idle);
    PreparedMove(c, Awake(t), p, now, idle);
    RoomForMotion(c, t);
    R.PushedWithRoom(0x1_0000_0000, c.motionSize, t.motion, MoveSlot(c));
    assert SendOn(c, t, p, now, idle) == Push(c, Awake(t), p, k);
  }

  /** The transport after `n` more sends of `p`. */
  function Sent(c: Config, t: Transport, p: Payload, now: U32, n: nat): Transport {
    if n == 0 then t else SendOn(c, Sent(c, t, p, now, n - 1), p, now, false)
  }

  lemma MoreHold(c: Config, t: Transport, u: Transport, n: nat, p: Payload, now: U32)
    requires TakesMoves(c) && Holds(c, t, n) && n < c.motionSize && (t.up ==> n < c.fifoDepth) && IsMove(p)
    requires u == SendOn(c, t, p, now, false)
    ensures Holds(c, u, n + 1) && u.up == t.up
  {
    OneMove(c, t, n, p, now, false);
  }

  lemma {:induction false} MovesHold(c: Config, t: Transport, n: nat, p: Payload, now: U32)
    requires TakesMoves(c) && Holds(c, t, 0) && n <= c.motionSize && (t.up ==> n <= c.fifoDepth) && IsMove(p)
    ensures var u := Sent(c, t, p, now, n); Holds(c, u, n) && u.up == t.up
  {
    hide Holds, SendOn;
    if n > 0 {
      MovesHold(c, t, n - 1, p, now);
      MoreHold(c, Sent(c, t, p, now, n - 1), Sent(c, t, p, now, n), n - 1, p, now);
    }
  }

  lemma {:induction false} SentReachable(c: Config, t: Transport, n: nat, p: Payload, now: U32)
    requires Reachable(c, t)
    ensures Reachable(c, Sent(c, t, p, now, n))
  {
    if n > 0 {
      SentReachable(c, t, n - 1, p, now);
      SendReachable(c, Sent(c, t, p, now, n - 1), p, now, false);
    }
  }

  lemma {:induction false} AllMoving(c: Config, live: seq<Slot>)
    requires forall i | 0 <= i < |live| :: live[i] == MoveSlot(c)
    ensures Moving(live) == |live|
  {
    if live != [] {
      AllMoving(c, live[1..]);
    }
  }

  lemma Empty(c: Config)
    requires TakesMoves(c)
    ensures Holds(c, Reset(c).t, 0) && !Reset(c).t.up
    ensures Holds(c, Up(c), 0) && Up(c).up && Lockstep(c, Up(c)) && Lockstep(c, SlotStopOn(Up(c)))
    ensures Holds(c, SlotStopOn(Up(c)), 0)
  {
  }

  // ----- A slot change with packets in flight -----

  /** Deactivated and activated again. */
  function Switched(c: Config, t: Transport): Transport {
    SlotStartOn(c, SlotStopOn(t), true)
  }

  lemma SwitchStrands(c: Config, t: Transport, n: nat)
    requires Holds(c, t, n)
    ensures var u := Switched(c, t);
            && u.up && u.fifo == [] && Quiet(u)
            && u.inflight == n == |u.motion.live| == Moving(u.motion.live) && (n > 0 ==> !Mirrored(c, u))
  {
    AllMoving(c, t.motion.live);
  }

  /** The endpoint is activated, sends `n` mouse reports, is deactivated before they are acknowledged, and is activated
      again. Everything but the FIFO survives: with nothing left to be acknowledged the in-flight counter and the
      motion ring still show `n` reports. At the Kconfig defaults five of them reach the back-pressure threshold. */
  lemma SlotChangeStrandsReports(c: Config, n: nat, p: Payload, now: U32)
    requires TakesMoves(c) && n <= c.fifoDepth && IsMove(p)
    ensures var u := Switched(c, Sent(c, Up(c), p, now, n));
            && Reachable(c, u) && u.up && u.fifo == [] && Quiet(u)
            && u.inflight == n == |u.motion.live| == Moving(u.motion.live) && (n > 0 ==> !Mirrored(c, u))
  {
    Empty(c);
    MovesHold(c, Up(c), n, p, now);
    var t := Sent(c, Up(c), p, now, n);
    SwitchStrands(c, t, n);
    UpReachable(c);
    SentReachable(c, Up(c), n, p, now);
    SlotsReachable(c, t, true);
    SlotsReachable(c, SlotStopOn(t), true);
  }

  lemma KeysSent(c: Config, t: Transport, p: Payload, now: U32, idle: bool)
    requires TakesMoves(c) && Quiet(t) && t.up && !Full(c, t) && !c.criticalRetransmit && IsKeys(p)
    requires t.motion.tail == 0 && |t.motion.live| < c.motionSize
    ensures var u := SendOn(c, t, p, now, idle);
            && u.motion == R.Window(0, t.motion.live + [Slot(STILL, false)])
            && u.critical == t.critical && u.fifo == t.fifo + [Packet(p, false, false, false)]
            && u.inflight == t.inflight && u.count == t.count && Quiet(u) && u.up && u.adaptive == t.adaptive
  {
    RoomForMotion(c, t);
    R.PushedWithRoom(0x1_0000_0000, c.motionSize, t.motion, Slot(STILL, false));
    assert SendVerdict(c, t, p, now) == Direct;
  }

  lemma MoveSent(c: Config, t: Transport, p: Payload, now: U32)
    requires TakesMoves(c) && Quiet(t) && t.up && t.fifo == [] && !c.criticalRetransmit && !c.hidNoack && IsMove(p)
    requires t.motion.tail == 0 && |t.motion.live| < c.motionSize
    ensures var u := SendOn(c, t, p, now, true);
            && u.motion == R.Window(0, t.motion.live + [MoveSlot(c)])
            && u.critical == t.critical && u.fifo == [Packet(p, false, false, true)]
            && u.count == c.pointerCount && Quiet(u) && u.up && u.adaptive == t.adaptive
  {
    RoomForMotion(c, t);
    R.PushedWithRoom(0x1_0000_0000, c.motionSize, t.motion, MoveSlot(c));
    PreparedMove(c, Awake(t), p, now, true);
    assert SendVerdict(c, t, p, now) == Direct;
  }

  /** A stale slot hides the override of a later packet: a keyboard report, a slot change, a mouse report and its
      acknowledgement, with the radio idle at every step and nothing refused, leave the FIFO empty and the count at
      the pointer's. */
  lemma StaleSlotHidesOverride(c: Config, keys: Payload, move: Payload, now: U32)
    requires c == SHIPPED && IsKeys(keys) && IsMove(move)
    ensures var t1 := Switched(c, SendOn(c, Up(c), keys, now, true));
            var t2 := SuccessOn(c, SendOn(c, t1, move, now, true), now, true);
            && Reachable(c, t2) && t2.fifo == [] && !NoneStale(t2)
            && t2.count == c.pointerCount != Steady(c, t2)
  {
    ShippedTakesMoves(c);
    HidingRun(c, keys, move, now);
  }

  lemma HidingRun(c: Config, keys: Payload, move: Payload, now: U32)
    requires TakesMoves(c) && !c.criticalRetransmit && !c.hidNoack && IsKeys(keys) && IsMove(move)
    ensures var t1 := Switched(c, SendOn(c, Up(c), keys, now, true));
            var t2 := SuccessOn(c, SendOn(c, t1, move, now, true), now, true);
            && Reachable(c, t2) && t2.fifo == [] && !NoneStale(t2)
            && t2.count == c.pointerCount && Steady(c, t2) == c.baseCount
  {
    Empty(c);
    var t0 := SendOn(c, Up(c), keys, now, true);
    KeysSent(c, Up(c), keys, now, true);
    var t1 := Switched(c, t0);
    MoveSent(c, t1, move, now);
    var m := SendOn(c, t1, move, now, true);
    assert NextSlot(m) == Slot(STILL, false) && !NextCritical(m);
    UpReachable(c);
    SendReachable(c, Up(c), keys, now, true);
    SlotsReachable(c, t0, true);
    SlotsReachable(c, SlotStopOn(t0), true);
    SendReachable(c, t1, move, now, true);
    SuccessReachable(c, m, now, true);
  }

  // ----- A failure behind a stale slot -----

  /** The report is sent at once, and waits. */
  lemma SentAtOnce(c: Config, s: State, p: Payload, now: U32, idle: bool)
    requires TakesMoves(c) && Quiet(s.t) && s.t.up && s.t.fifo == [] && Ledgered(s) && (IsMove(p) || IsKeys(p))
    requires |s.t.motion.live| < c.fifoDepth && !c.criticalRetransmit
    ensures var u, l := Step(c, s, OpSend(p, now, idle)), s.b.ledger;
            && Quiet(u.t) && u.t.up && |u.t.fifo| == 1 && u.t.fifo[0].payload == p
            && |u.t.motion.live| == |s.t.motion.live| + 1
            && u.t.motion.live[|s.t.motion.live|].motion == MotionOf(p)
            && (forall i | 0 <= i < |s.t.motion.live| :: u.t.motion.live[i] == s.t.motion.live[i])
            && u.b.ledger == Booked(l, true, MotionOf(p), false)
            && u.b.submitted == Add(s.b.submitted, MotionOf(p)) && u.b.delivered == s.b.delivered
  {
    R.RoomBelowCap(0x1_0000_0000, c.motionSize, c.fifoDepth, s.t.motion);
    var k := Prepare(c, s.t, p, now, idle);
    assert k.refund.out == MotionOf(p) && k.refund.pool == STILL && k.refund.stamp == 0;
    R.PushedWithRoom(0x1_0000_0000, c.motionSize, s.t.motion, Slot(k.refund.out, k.pointer));
    DirectSend(c, s, p, now, idle);
    EnqueuedLedger(c, s, p, now, idle);
  }

  /** A keyboard report was sent, and a slot change has stranded its slot. */
  ghost predicate Stranded(c: Config, s: State) {
    && Quiet(s.t) && s.t.up && s.t.fifo == [] && Ledgered(s) && Single(s.b.ledger)
    && |s.t.motion.live| == 1 && s.t.motion.live[0].motion == STILL
    && s.b.submitted == STILL && s.b.delivered == STILL
  }

  lemma SwitchKeeps(c: Config, s: State)
    requires Quiet(s.t) && Ledgered(s) && Single(s.b.ledger)
    ensures var u := Step(c, Step(c, s, OpSlotStop), OpSlotStart(true));
            && Ledgered(u) && Single(u.b.ledger) && Quiet(u.t) && u.t.up && u.t.fifo == [] && u.t.motion == s.t.motion
            && u.b.submitted == s.b.submitted && u.b.delivered == s.b.delivered
  {
    StaysSingle(c, s, OpSlotStop);
    StaysSingle(c, Step(c, s, OpSlotStop), OpSlotStart(true));
    hide Ledgered, Single, Emptied;
  }

  lemma KeysStranded(c: Config, keys: Payload, now: U32)
    requires TakesMoves(c) && !c.criticalRetransmit && IsKeys(keys)
    ensures var s1 := Step(c, Reset(c), OpSlotStart(true));
            var s2 := Step(c, s1, OpSend(keys, now, true));
            Stranded(c, Step(c, Step(c, s2, OpSlotStop), OpSlotStart(true)))
  {
    FirstStart(c);
    StaysSingle(c, Reset(c), OpSlotStart(true));
    hide Step, Ledgered, Single, Lockstep, RingsFit;
    var s1 := Step(c, Reset(c), OpSlotStart(true));
    SentAtOnce(c, s1, keys, now, true);
    AddStill(STILL);
    StaysSingle(c, s1, OpSend(keys, now, true));
    SwitchKeeps(c, Step(c, s1, OpSend(keys, now, true)));
  }

  lemma StaysSingle(c: Config, s: State, op: Op)
    requires Ledgered(s) && Single(s.b.ledger) && !op.OpFailed?
    ensures Ledgered(Step(c, s, op)) && Single(Step(c, s, op).b.ledger)
  {
    StepLedgered(c, s, op);
    CopiesExactly(c, s, op);
    hide Ledgered, Single, Step;
  }

  /** The packet that was delivered has the oldest live slot. */
  ghost predicate SlotOutlives(s: State, m: Motion) {
    && Quiet(s.t) && s.t.up && Ledgered(s) && Single(s.b.ledger)
    && s.t.motion.live != [] && s.t.motion.live[0].motion == m && s.b.ledger.slots != []
    && FateOf(s.b.ledger, s.b.ledger.slots[0]) == Arrived && s.b.ledger.slots[0] < |s.b.ledger.fates|
    && s.b.submitted == m && s.b.delivered == m
  }

  lemma MoveOutlived(c: Config, s: State, move: Payload, now: U32)
    requires TakesMoves(c) && !c.criticalRetransmit && IsMove(move) && Stranded(c, s) && 2 <= c.fifoDepth
    ensures var u := Step(c, Step(c, s, OpSend(move, now, true)), OpSuccess(now, true));
            SlotOutlives(u, TEN) && u.t.fifo == [] && |u.t.motion.live| == 1
  {
    SentAtOnce(c, s, move, now, true);
    var v := Step(c, s, OpSend(move, now, true));
    StaysSingle(c, s, OpSend(move, now, true));
    StaysSingle(c, v, OpSuccess(now, true));
    DirectSuccess(c, v, now, true);
    PoppedLedger(c, Deliver(v), false, now, true);
    AddStill(TEN);
    LandedOutlives(s.b.ledger, TEN);
    hide Ledgered, Single, Step, Booked, Landed;
  }

  lemma LandedOutlives(l: Ledger, m: Motion)
    requires Sound(l, 0) && Slotted(l, 1)
    ensures var u := SlotsPopped(Landed(Booked(l, true, m, false)));
            u.slots == [|l.fates|] && FateOf(u, |l.fates|) == Arrived && |u.fates| == |l.fates| + 1
  {
  }

  lemma StillOutlives(c: Config, s: State, keys: Payload, now: U32)
    requires TakesMoves(c) && !c.criticalRetransmit && IsKeys(keys) && SlotOutlives(s, TEN) && 2 <= c.fifoDepth
    requires s.t.fifo == [] && |s.t.motion.live| == 1
    ensures var u := Step(c, s, OpSend(keys, now, true));
            SlotOutlives(u, TEN) && |u.t.fifo| == 1 && |u.t.motion.live| == 2
  {
    SentAtOnce(c, s, keys, now, true);
    StaysSingle(c, s, OpSend(keys, now, true));
    AddStill(TEN);
    hide Ledgered, Single, Step;
  }

  lemma FailureRefundsDelivered(c: Config, s: State, now: U32)
    requires TakesMoves(c) && SlotOutlives(s, TEN) && !c.failedLeaves && 2 <= c.fifoDepth
    requires |s.t.fifo| == 1 && |s.t.motion.live| == 2
    ensures var u := Step(c, s, OpFailed(now, true));
            u.b.submitted == TEN && u.b.delivered == TEN && u.t.pool == TEN && Copied(u.b) == TEN
    ensures FateAtFailure(c, s) == Arrived && !Spared(c, s, OpFailed(now, true))
  {
    SmallApart(c, s.t);
    PoppedIsOldest(c, s.t, s.b.ledger);
    SingleState(s);
    FailureCopies(c, s, OpFailed(now, true));
    KeptFailure(c, s, now, true);
    PopPool(c, s, now, true);
    AddStill(TEN);
    AddStill(STILL);
    CopiesExactly(c, s, OpFailed(now, true));
    hide Ledgered, Single, Apart, PoppedId, Copied, RefoundIn, Spared;
  }

  lemma SmallApart(c: Config, t: Transport)
    requires RingsFit(c) && |t.motion.live| <= c.fifoDepth
    ensures Apart(c, t.motion)
  {
    forall i, j | 0 <= i < j < |t.motion.live|
      ensures R.SlotOf(0x1_0000_0000, c.motionSize, t.motion.tail, i)
              != R.SlotOf(0x1_0000_0000, c.motionSize, t.motion.tail, j)
    {
      R.SlotsDistinct(0x1_0000_0000, c.motionSize, c.fifoDepth, t.motion.tail, i, j);
    }
  }

  /** A stale slot makes a failure refund a packet that was delivered: a keyboard report, a slot change, a mouse report and its
      acknowledgement, and a keyboard report that fails. Ten steps were submitted, ten reached the host, and ten more wait for
      the next report. */
  lemma StaleSlotRefundsDelivered(c: Config, keys: Payload, move: Payload, now: U32)
    requires c == SHIPPED && IsKeys(keys) && IsMove(move)
    ensures var s2 := Step(c, Step(c, Reset(c), OpSlotStart(true)), OpSend(keys, now, true));
            var s4 := Step(c, Step(c, s2, OpSlotStop), OpSlotStart(true));
            var s6 := Step(c, Step(c, s4, OpSend(move, now, true)), OpSuccess(now, true));
            var s7 := Step(c, s6, OpSend(keys, now, true));
            var s8 := Step(c, s7, OpFailed(now, true));
            && !Spared(c, s7, OpFailed(now, true))
            && s8.b.submitted.dx == 10 && s8.b.delivered.dx == 10 && s8.t.pool.dx == 10 && Copied(s8.b).dx == 10
  {
    ShippedTakesMoves(c);
    KeysStranded(c, keys, now);
    var s2 := Step(c, Step(c, Reset(c), OpSlotStart(true)), OpSend(keys, now, true));
    var s4 := Step(c, Step(c, s2, OpSlotStop), OpSlotStart(true));
    var s6 := Step(c, Step(c, s4, OpSend(move, now, true)), OpSuccess(now, true));
    hide Step, Stranded, Copied, Spared, FateAtFailure;
    MoveOutlived(c, s4, move, now);
    StillOutlives(c, s6, keys, now);
    FailureRefundsDelivered(c, Step(c, s6, OpSend(keys, now, true)), now);
  }

  // ----- Sends while the library is down -----

  /** After the endpoint is deactivated a mouse report, from the retry work of the input processor for one, still pushes
      the rings and counts as in flight, although it is well formed and the library turns it down. */
  lemma PhantomSlot(c: Config, p: Payload, now: U32, idle: bool)
    requires TakesMoves(c) && IsMove(p)
    ensures var t := SlotStopOn(Up(c));
            var u := SendOn(c, t, p, now, idle);
            && Reachable(c, t) && Lockstep(c, t) && Writable(c, p) && SendVerdict(c, t, p, now) == Direct
            && u.fifo == [] && |u.motion.live| == 1 == u.inflight && !Lockstep(c, u)
  {
    Empty(c);
    OneMove(c, SlotStopOn(Up(c)), 0, p, now, idle);
    UpReachable(c);
    SlotsReachable(c, Up(c), true);
  }

  lemma FullWindow(n: R.Positive, w: R.Window<Slot>, x: Slot)
    requires n <= 64 && w.tail == 0 && |w.live| == n
    ensures R.Pushed(0x1_0000_0000, n, w, x).live == [x] + w.live[1..] + [x]
  {
    var o := R.Overlaid(0x1_0000_0000, n, w, x);
    LengthIsFirst(n);
    forall i | 0 <= i < n
      ensures o[i] == ([x] + w.live[1..])[i]
    {
      IndexIsSlot(n, i);
    }
    assert o == [x] + w.live[1..];
  }

  // ----- A ring that overruns -----

  /** A move whose slot is the oldest, and `n` keyboard reports behind it, none of them acknowledged. */
  ghost predicate Behind(c: Config, t: Transport, n: nat) {
    && Quiet(t) && t.up && t.inflight == 1 && t.motion.tail == 0 && |t.motion.live| == n + 1
    && t.motion.live[0] == MoveSlot(c)
    && forall i | 1 <= i <= n :: t.motion.live[i] == Slot(STILL, false)
  }

  /** The FIFO has room, if need be because the endpoint was deactivated and activated again. */
  function MadeRoom(c: Config, t: Transport): Transport {
    if Full(c, t) then Switched(c, t) else t
  }

  /** `n` more keyboard reports, with a slot change whenever the FIFO is full. */
  function Crowded(c: Config, t: Transport, keys: Payload, now: U32, n: nat): Transport {
    if n == 0 then t else SendOn(c, MadeRoom(c, Crowded(c, t, keys, now, n - 1)), keys, now, false)
  }

  lemma OneMoreBehind(c: Config, t: Transport, n: nat, keys: Payload, now: U32)
    requires TakesMoves(c) && !c.criticalRetransmit && IsKeys(keys) && Behind(c, t, n) && n + 1 < c.motionSize
    ensures Behind(c, SendOn(c, MadeRoom(c, t), keys, now, false), n + 1)
  {
    KeysSent(c, MadeRoom(c, t), keys, now, false);
  }

  lemma {:induction false} CrowdBehind(c: Config, t: Transport, keys: Payload, now: U32, n: nat)
    requires TakesMoves(c) && !c.criticalRetransmit && IsKeys(keys) && Behind(c, t, 0) && n < c.motionSize
    ensures Behind(c, Crowded(c, t, keys, now, n), n)
  {
    if n > 0 {
      CrowdBehind(c, t, keys, now, n - 1);
      OneMoreBehind(c, Crowded(c, t, keys, now, n - 1), n - 1, keys, now);
    }
  }

  lemma {:induction false} AllResting(live: seq<Slot>)
    requires forall i | 0 <= i < |live| :: live[i] == Slot(STILL, false)
    ensures Moving(live) == 0
  {
    if live != [] {
      assert live[0] == Slot(STILL, false);
      AllResting(live[1..]);
    }
  }

  lemma LastOverruns(c: Config, t: Transport, keys: Payload, now: U32)
    requires TakesMoves(c) && IsKeys(keys) && Quiet(t) && t.up && !Full(c, t) && t.inflight == 1
    requires t.motion.tail == 0 && |t.motion.live| == c.motionSize
    requires forall i | 1 <= i < c.motionSize :: t.motion.live[i] == Slot(STILL, false)
    ensures var u := SendOn(c, t, keys, now, false); u.inflight == 1 && Moving(u.motion.live) == 0
  {
    var u := SendOn(c, t, keys, now, false);
    assert SendVerdict(c, t, keys, now) == Direct;
    FullWindow(c.motionSize, t.motion, Slot(STILL, false));
    assert u.motion == R.Pushed(0x1_0000_0000, c.motionSize, t.motion, Slot(STILL, false));
    AllResting(u.motion.live);
  }

  /** As many keyboard reports as the motion ring has slots overwrite the slot of the move: the counter still shows it, and
      the ring does not. */
  lemma MoveOverwritten(c: Config, t: Transport, keys: Payload, now: U32)
    requires TakesMoves(c) && !c.criticalRetransmit && IsKeys(keys) && Behind(c, t, 0)
    ensures var u := Crowded(c, t, keys, now, c.motionSize); u.inflight == 1 && Moving(u.motion.live) == 0
  {
    var n := c.motionSize - 1;
    CrowdBehind(c, t, keys, now, n);
    LastOverruns(c, MadeRoom(c, Crowded(c, t, keys, now, n)), keys, now);
  }

  // ----- A refused restoration -----

  /** At the Kconfig defaults, with the radio as idle or busy as the library in vendor/ has it: a mouse report, a keyboard
      report behind it, and both acknowledged leave nothing outstanding and the count at the pointer's. */
  lemma RefusedRestorationSticks(c: Config, move: Payload, keys: Payload, now: U32)
    requires c == SHIPPED && IsMove(move) && IsKeys(keys)
    ensures var t2 := SendOn(c, SendOn(c, Up(c), move, now, true), keys, now, false);
            var t3 := SuccessOn(c, t2, now, false);
            var t4 := SuccessOn(c, t3, now, true);
            && AsShipped(t2, OpSuccess(now, false)) && AsShipped(t3, OpSuccess(now, true)) && Reachable(c, t4)
            && t4.fifo == [] && t4.motion.live == [] && NoOverride(t4) && t4.count == c.pointerCount != Steady(c, t4)
  {
    ShippedTakesMoves(c);
    StickingRun(c, move, keys, now);
  }

  lemma StickingRun(c: Config, move: Payload, keys: Payload, now: U32)
    requires TakesMoves(c) && !c.criticalRetransmit && !c.hidNoack && 2 <= c.fifoDepth && IsMove(move) && IsKeys(keys)
    ensures var t2 := SendOn(c, SendOn(c, Up(c), move, now, true), keys, now, false);
            var t3 := SuccessOn(c, t2, now, false);
            var t4 := SuccessOn(c, t3, now, true);
            && |t2.fifo| == 2 && |t3.fifo| == 1 && Reachable(c, t4)
            && t4.fifo == [] && t4.motion.live == [] && NoOverride(t4)
            && t4.count == c.pointerCount && Steady(c, t4) == c.baseCount
  {
    Empty(c);
    var t1 := SendOn(c, Up(c), move, now, true);
    MoveSent(c, Up(c), move, now);
    var t2 := SendOn(c, t1, keys, now, false);
    KeysSent(c, t1, keys, now, false);
    var t3 := SuccessOn(c, t2, now, false);
    assert t3.motion.live == [Slot(STILL, false)] && t3.count == c.pointerCount;
    UpReachable(c);
    SendReachable(c, Up(c), move, now, true);
    SendReachable(c, t1, keys, now, false);
    SuccessReachable(c, t2, now, false);
    SuccessReachable(c, t3, now, true);
  }
}
