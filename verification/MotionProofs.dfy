/** Where submitted pointer motion goes: conservation over every run of the transport. */
module MotionProofs {
  import opened Words
  import opened TransportModel
  import opened TransportProofs
  import opened Ledgers
  import opened FateProofs
  import opened RefundProofs
  import RP = RetransmitProofs
  import R = Rings

  lemma {:induction false} RingMotionAppend(ring: seq<Slot>, x: Slot)
    ensures RingMotion(ring + [x]) == Add(RingMotion(ring), x.motion)
  {
    if ring != [] {
      RingMotionAppend(ring[1..], x);
      assert (ring + [x])[1..] == ring[1..] + [x];
    }
  }

  lemma {:induction false} FifoMotionAppend(fifo: seq<Packet>, k: Packet)
    ensures FifoMotion(fifo + [k]) == Add(FifoMotion(fifo), MotionOf(k.payload))
  {
    if fifo != [] {
      FifoMotionAppend(fifo[1..], k);
      assert (fifo + [k])[1..] == fifo[1..] + [k];
    }
  }

  // ----- The two balances -----

  /** The firmware's own books: what was submitted was confirmed, waits in a ring slot, waits in the refund
      pool, was dropped, or was overwritten in a ring that overran. */
  predicate RingsBalance(s: State, a: Axis) {
    On(a, s.b.submitted)
    == On(a, s.b.confirmed) + On(a, RingMotion(s.t.motion.live)) + On(a, s.t.pool) + On(a, s.b.dropped)
       + On(a, s.b.overwritten)
  }

  /** The motion that exists twice: refunded for a packet that is in the FIFO, was delivered, or had been refunded. */
  function Copied(b: Books): Motion {
    Copies(b.ledger)
  }

  /** The motion that is gone: lost with no packet, or missing of one that left the FIFO undelivered. */
  function Lost(b: Books): Motion {
    Add(b.lapsed, Missing(b.ledger.fates))
  }

  /** What happens on the air: what was submitted, and the copies that failures made of it, was delivered,
      waits in the FIFO, waits in the refund pool, or was lost. */
  predicate AirBalance(s: State, a: Axis) {
    On(a, s.b.submitted) + On(a, Copied(s.b))
    == On(a, s.b.delivered) + On(a, FifoMotion(s.t.fifo)) + On(a, s.t.pool) + On(a, Lost(s.b))
  }

  predicate Balanced(s: State, a: Axis) {
    RingsBalance(s, a) && AirBalance(s, a)
  }

  lemma RefundBalance(c: Config, pool: Motion, stamp: U32, m: Deltas, now: U32, a: Axis)
    ensures var r := ApplyRefund(c, pool, stamp, m, now);
            On(a, m) + On(a, pool) == On(a, r.out) + On(a, r.pool) + On(a, r.stale)
  {
  }

  lemma PushedMotion(c: Config, t: Transport, p: Payload, k: Prepared, a: Axis)
    requires IsMouse(p) || k.refund.out == STILL
    ensures On(a, FifoMotion(Push(c, t, p, k).fifo))
            == On(a, FifoMotion(t.fifo)) + if Accepts(c, t, p) then On(a, k.refund.out) else 0
  {
    FifoMotionAppend(t.fifo, Packet(p.(motion := k.refund.out), k.noack, k.critical, k.pointer));
  }

  lemma PreparedMotion(c: Config, t: Transport, p: Payload, now: U32, idle: bool, a: Axis)
    ensures var r := Prepare(c, t, p, now, idle).refund;
            && (IsMouse(p) || r.out == STILL)
            && On(a, MotionOf(p)) + On(a, t.pool) == On(a, r.out) + On(a, r.pool) + On(a, r.stale)
  {
    RefundBalance(c, t.pool, t.stamp, p.motion, now, a);
  }

  lemma EnqueueRings(c: Config, s: State, p: Payload, now: U32, idle: bool, a: Axis)
    requires RingsBalance(s, a)
    ensures RingsBalance(Enqueue(c, s, p, now, idle), a)
  {
    PreparedMotion(c, s.t, p, now, idle, a);
    hide Prepare, Booked, R.Pushed, RingMotion;
  }

  lemma EnqueueAir(c: Config, s: State, p: Payload, now: U32, idle: bool, a: Axis)
    requires AirBalance(s, a)
    ensures AirBalance(Enqueue(c, s, p, now, idle), a)
  {
    var k := Prepare(c, s.t, p, now, idle);
    PreparedMotion(c, s.t, p, now, idle, a);
    PushedMotion(c, s.t, p, k, a);
    BookedMotion(s.b.ledger, Accepts(c, s.t, p), k.refund.out, |s.t.motion.live| + 1 == 0x1_0000_0000);
    hide Prepare, Booked, R.Pushed, RingMotion, FifoMotion, Copies, Missing;
  }

  lemma EnqueueBalanced(c: Config, s: State, p: Payload, now: U32, idle: bool, a: Axis)
    requires Balanced(s, a)
    ensures Balanced(Enqueue(c, s, p, now, idle), a)
  {
    EnqueueRings(c, s, p, now, idle, a);
    EnqueueAir(c, s, p, now, idle, a);
    hide Enqueue, RingsBalance, AirBalance;
  }

  /** Emptying the FIFO. */
  lemma EmptiedAir(s: State, u: State, a: Axis)
    requires Ledgered(s) && AirBalance(s, a) && u.t.fifo == [] && u.t.pool == s.t.pool
    requires u.b.ledger.fates == Emptied(s.b.ledger, s.t.fifo).fates
    requires u.b.ledger.doubled == Emptied(s.b.ledger, s.t.fifo).doubled
    requires u.b.submitted == s.b.submitted && u.b.delivered == s.b.delivered && u.b.lapsed == s.b.lapsed
    ensures AirBalance(u, a)
  {
    EmptiedMotion(s.b.ledger, s.t.fifo);
    assert FifoMotion(u.t.fifo) == STILL;
    hide Emptied, FifoMotion, RefoundIn, Missing, Again, Sound, Slotted;
  }

  lemma FlushBalanced(c: Config, s: State, idle: bool, a: Axis)
    requires Ledgered(s) && Balanced(s, a)
    ensures Balanced(Flush(c, s, idle), a)
  {
    EmptiedAir(s, Flush(c, s, idle), a);
    hide AirBalance, Emptied, Ledgered;
  }

  lemma SwallowBalanced(s: State, p: Payload, a: Axis)
    requires Balanced(s, a)
    ensures Balanced(Swallow(s, p), a)
  {
  }

  lemma SendBalanced(c: Config, s: State, p: Payload, now: U32, idle: bool, a: Axis)
    requires Ledgered(s) && Balanced(s, a)
    ensures Balanced(Send(c, s, p, now, idle), a)
  {
    var awake := s.(t := Awake(s.t));
    AwakeLedgered(s, awake);
    SameBalanced(s, awake, a);
    hide Balanced, Enqueue, Flush, Ledgered, Swallow;
    match SendVerdict(c, s.t, p, now) {
      case Swallowed => SwallowBalanced(s, p, a);
      case Direct => EnqueueBalanced(c, awake, p, now, idle, a);
      case AfterFlush =>
        FlushBalanced(c, awake, idle, a);
        EnqueueBalanced(c, Flush(c, awake, idle), p, now, idle, a);
      case _ =>
    }
  }

  lemma DeliverBalanced(s: State, a: Axis)
    requires Ledgered(s) && Balanced(s, a) && s.t.fifo != []
    ensures Balanced(Deliver(s), a)
  {
    LandedMotion(s.b.ledger, |s.t.fifo|);
    hide Landed, Copies, Missing, Sound, Slotted;
  }

  lemma GiveUpBalanced(c: Config, s: State, a: Axis)
    requires Ledgered(s) && Balanced(s, a) && s.t.fifo != []
    ensures Balanced(GiveUp(c, s), a)
  {
    ShedMotion(s.b.ledger, |s.t.fifo|, MotionOf(s.t.fifo[0].payload));
    hide Shed, Copies, Missing, Sound, Slotted, Refound;
  }

  lemma PopRingsBalance(c: Config, s: State, failed: bool, now: U32, idle: bool, a: Axis)
    requires RingsBalance(s, a)
    ensures RingsBalance(PopRings(c, s, failed, now, idle), a)
  {
    hide Credited, PoppedId, SlotsPopped;
    var live := s.t.motion.live;
    if live != [] {
      assert RingMotion(live) == Add(live[0].motion, RingMotion(live[1..]));
    }
  }

  /** What an event does to copies and losses. */
  lemma PopMotion(c: Config, s: State, failed: bool, now: U32, idle: bool)
    ensures var u, l, m := PopRings(c, s, failed, now, idle), s.b.ledger, NextSlot(s.t).motion;
            && u.b.lapsed == s.b.lapsed
            && (if !failed || m == STILL then Copied(u.b) == Copied(s.b) && Lost(u.b) == Lost(s.b)
                else if Misses(l, PoppedId(c, s.t, l), m) then Copied(u.b) == Copied(s.b) && Lost(u.b) == Sub(Lost(s.b), m)
                else Copied(u.b) == Add(Copied(s.b), m) && Lost(u.b) == Lost(s.b))
  {
    var l, m := s.b.ledger, NextSlot(s.t).motion;
    PoppedLedger(c, s, failed, now, idle);
    CreditedMotion(l, PoppedId(c, s.t, l), m);
    hide Credited, PoppedId, Missing, Again, Misses;
  }

  lemma PopAir(c: Config, s: State, failed: bool, now: U32, idle: bool, a: Axis)
    requires AirBalance(s, a)
    ensures AirBalance(PopRings(c, s, failed, now, idle), a)
  {
    PopMotion(c, s, failed, now, idle);
    hide Credited, PoppedId, SlotsPopped, Copied, Lost, Misses;
  }

  lemma PopBalanced(c: Config, s: State, failed: bool, now: U32, idle: bool, a: Axis)
    requires Balanced(s, a)
    ensures Balanced(PopRings(c, s, failed, now, idle), a)
  {
    PopRingsBalance(c, s, failed, now, idle, a);
    PopAir(c, s, failed, now, idle, a);
    hide PopRings, RingsBalance, AirBalance;
  }

  lemma EventBalanced(c: Config, s: State, op: Op, a: Axis)
    requires Ledgered(s) && Balanced(s, a) && (op.OpSuccess? || op.OpFailed?)
    ensures Balanced(Step(c, s, op), a)
  {
    hide Balanced, PopRings, Deliver, GiveUp, Flush, Ledgered;
    if s.t.fifo != [] {
      if op.OpSuccess? {
        DeliverBalanced(s, a);
        PopBalanced(c, Deliver(s), false, op.now, op.idle, a);
      } else if s.t.sync {
        var v := s.(t := s.t.(sync := false));
        AwakeLedgered(s, v);
        SameBalanced(s, v, a);
        FlushBalanced(c, v, op.idle, a);
      } else {
        var g := GiveUp(c, s);
        GiveUpBalanced(c, s, a);
        GiveUpLedgered(c, s);
        PopBalanced(c, g, true, op.now, op.idle, a);
        PopLedgered(c, g, true, op.now, op.idle);
        FlushBalanced(c, PopRings(c, g, true, op.now, op.idle), op.idle, a);
      }
    }
  }

  lemma SideTripBalanced(c: Config, s: State, channel: nat, p: Payload, idle: bool, a: Axis)
    requires Ledgered(s) && Balanced(s, a)
    ensures Balanced(SideTrip(c, s, channel, p, idle), a)
  {
    var f := Flush(c, s, idle);
    FlushBalanced(c, s, idle, a);
    var k := Packet(p, false, false, false);
    FifoMotionAppend([], k);
    assert [] + [k] == [k];
    VisitingMotion(f.b.ledger);
    hide Emptied, Visiting, Copies, Missing, Ledgered;
  }

  lemma SetChannelBalanced(c: Config, s: State, channel: nat, now: U32, idle: bool, a: Axis)
    requires Ledgered(s) && Balanced(s, a)
    ensures Balanced(SetChannel(c, s, channel, now, idle), a)
  {
    FlushBalanced(c, s, idle, a);
    hide Emptied, Copies, Missing, Ledgered;
  }

  lemma SameBalanced(s: State, u: State, a: Axis)
    requires Balanced(s, a) && u.t.fifo == s.t.fifo && u.t.motion == s.t.motion && u.t.pool == s.t.pool
    requires u.b == s.b.(refused := u.b.refused)
    ensures Balanced(u, a)
  {
  }

  lemma SlotBalanced(c: Config, s: State, ok: bool, a: Axis)
    requires Ledgered(s) && Balanced(s, a)
    ensures Balanced(SlotStart(c, s, ok), a) && Balanced(SlotStop(s), a)
  {
    EmptiedAir(s, SlotStart(c, s, ok), a);
    EmptiedAir(s, SlotStop(s), a);
    hide AirBalance, Emptied, Ledgered;
  }

  lemma StepBalanced(c: Config, s: State, op: Op, a: Axis)
    requires Ledgered(s) && Balanced(s, a)
    ensures Balanced(Step(c, s, op), a)
  {
    hide Send, TxSuccess, TxFailed, SetChannel, SideTrip, Flush, SlotStart, SlotStop, Balanced, Ledgered;
    match op {
      case OpSend(p, now, idle) => SendBalanced(c, s, p, now, idle, a);
      case OpSuccess(_, _) => EventBalanced(c, s, op, a);
      case OpFailed(_, _) => EventBalanced(c, s, op, a);
      case OpFlush(idle) => FlushBalanced(c, s, idle, a);
      case OpSetChannel(channel, now, idle) => SetChannelBalanced(c, s, channel, now, idle, a);
      case OpSideTrip(channel, p, idle) => SideTripBalanced(c, s, channel, p, idle, a);
      case OpSlotStart(ok) => SlotBalanced(c, s, ok, a);
      case OpSlotStop => SlotBalanced(c, s, true, a);
      case _ => SameBalanced(s, Step(c, s, op), a);
    }
  }

  /** Both balances hold on every axis in every run, whatever the radio does. */
  lemma {:induction false} MotionBalances(c: Config, ops: seq<Op>, a: Axis)
    ensures Balanced(Run(c, ops), a)
  {
    if ops != [] {
      OneFateEach(c, ops[..|ops| - 1]);
      MotionBalances(c, ops[..|ops| - 1], a);
      StepBalanced(c, Run(c, ops[..|ops| - 1]), ops[|ops| - 1], a);
    }
  }

  // ----- When motion is lost -----

  /** The packet whose slot the next event pops. */
  function PoppedPacket(c: Config, s: State): nat {
    PoppedId(c, s.t, s.b.ledger)
  }

  /** As much as the failure refunds is missing of the packet it refunds: it was discarded undelivered. */
  predicate FindsAgain(c: Config, s: State) {
    Misses(s.b.ledger, PoppedPacket(c, s), NextSlot(s.t).motion)
  }

  /** A failure removes exactly the packet it refunds, or neither: what it takes from the FIFO, net of what was refunded
      for it before, is what it finds again. */
  predicate Offsets(c: Config, s: State)
    requires s.t.fifo != []
  {
    var m := MotionOf(s.t.fifo[0].payload);
    var removed := if c.failedLeaves then Sub(m, Refound(s.b.ledger, m)) else STILL;
    removed == if FindsAgain(c, GiveUp(c, s)) then NextSlot(s.t).motion else STILL
  }

  /** The steps that may lose motion: a flush, a stale refund, a swallowed send, a channel change, a payload
      the radio turns down, a slot change, and a failure that removes one packet and refunds another. */
  predicate CanLose(c: Config, s: State, op: Op) {
    var t := s.t;
    match op
    case OpSend(p, now, _) =>
      var v := SendVerdict(c, t, p, now);
      v == Swallowed || v == AfterFlush
      || (v == Direct && (!Accepts(c, t, p) || (t.stamp != 0 && Wrap32(now - t.stamp) >= c.staleMs)))
    case OpFailed(_, _) => t.fifo != [] && (t.sync || Full(c, GivenUp(c, t)) || !Offsets(c, s))
    case OpFlush(_) => true
    case OpSetChannel(_, _, _) => t.configured
    case OpSideTrip(_, _, _) => true
    case OpSlotStart(_) => true
    case OpSlotStop => true
    case _ => false
  }

  lemma EnqueueLosesNothing(c: Config, s: State, p: Payload, now: U32, idle: bool)
    requires Accepts(c, s.t, p) && !(s.t.stamp != 0 && Wrap32(now - s.t.stamp) >= c.staleMs)
    ensures Lost(Enqueue(c, s, p, now, idle).b) == Lost(s.b)
  {
    var k := Prepare(c, s.t, p, now, idle);
    assert k.refund.stale == STILL;
    AddStill(s.b.lapsed);
    BookedMotion(s.b.ledger, true, k.refund.out, |s.t.motion.live| + 1 == 0x1_0000_0000);
    hide Prepare, Booked, Missing;
  }

  lemma DirectlyEnqueued(c: Config, s: State, p: Payload, now: U32, idle: bool)
    requires SendVerdict(c, s.t, p, now) == Direct
    ensures Send(c, s, p, now, idle) == Enqueue(c, s.(t := Awake(s.t)), p, now, idle)
  {
  }

  lemma SendLosesNothing(c: Config, s: State, p: Payload, now: U32, idle: bool)
    requires !CanLose(c, s, OpSend(p, now, idle))
    ensures Lost(Send(c, s, p, now, idle).b) == Lost(s.b)
  {
    if SendVerdict(c, s.t, p, now) == Direct {
      DirectlyEnqueued(c, s, p, now, idle);
      EnqueueLosesNothing(c, s.(t := Awake(s.t)), p, now, idle);
    }
    hide Enqueue, Lost;
  }

  lemma SuccessLosesNothing(c: Config, s: State, now: U32, idle: bool)
    requires Ledgered(s)
    ensures Lost(TxSuccess(c, s, now, idle).b) == Lost(s.b)
  {
    if s.t.fifo != [] {
      LandedMotion(s.b.ledger, |s.t.fifo|);
      PopMotion(c, Deliver(s), false, now, idle);
    }
    hide PopRings, Landed, Missing, Ledgered;
  }

  /** What the library's verdict on the front packet does to copies and losses. */
  lemma GiveUpMotion(c: Config, s: State)
    requires Ledgered(s) && s.t.fifo != []
    ensures var g, m := GiveUp(c, s), MotionOf(s.t.fifo[0].payload);
            var r := Refound(s.b.ledger, m);
            if c.failedLeaves then Copied(g.b) == Sub(Copied(s.b), r) && Lost(g.b) == Add(Lost(s.b), Sub(m, r))
            else g == s
  {
    ShedMotion(s.b.ledger, |s.t.fifo|, MotionOf(s.t.fifo[0].payload));
    hide Shed, Missing, Again, Refound, Sound, Slotted;
  }

  lemma FailureLosesNothing(c: Config, s: State, now: U32, idle: bool)
    requires Ledgered(s) && !CanLose(c, s, OpFailed(now, idle))
    ensures Lost(TxFailed(c, s, now, idle).b) == Lost(s.b)
  {
    if s.t.fifo != [] {
      var g, m := GiveUp(c, s), NextSlot(s.t).motion;
      GiveUpMotion(c, s);
      PopMotion(c, g, true, now, idle);
      FailureRefunds(c, s, now, idle);
      hide Ledgered, PopRings, Shed, Misses, Lost, Copied, Refound, PoppedId;
      TakeBack(Lost(s.b), m);
      AddStill(Lost(s.b));
    }
  }

  lemma TakeBack(x: Motion, m: Motion)
    ensures Sub(Add(x, m), m) == x
  {
  }

  lemma NothingLostElsewhere(c: Config, s: State, op: Op)
    requires Ledgered(s) && !CanLose(c, s, op)
    ensures Lost(Step(c, s, op).b) == Lost(s.b)
  {
    match op {
      case OpSend(p, now, idle) => SendLosesNothing(c, s, p, now, idle);
      case OpSuccess(now, idle) => SuccessLosesNothing(c, s, now, idle);
      case OpFailed(now, idle) => FailureLosesNothing(c, s, now, idle);
      case _ =>
    }
    hide Send, TxSuccess, TxFailed, Lost, Ledgered;
  }

  /** A refund takes off the losses what was booked there for its packet, all of it or nothing, and leaves the fates of all
      other packets alone. */
  lemma RefundTakesWhatWasBooked(c: Config, s: State, now: U32, idle: bool)
    ensures var u, l, id := PopRings(c, s, true, now, idle), s.b.ledger, PoppedPacket(c, s);
            var before, after := MissingOf(FateOf(l, id)), MissingOf(FateOf(u.b.ledger, id));
            && Lost(u.b) == Sub(Lost(s.b), Sub(before, after)) && (after == before || after == STILL)
            && forall other: nat | other != id :: FateOf(u.b.ledger, other) == FateOf(l, other)
  {
    var l, m, id := s.b.ledger, NextSlot(s.t).motion, PoppedPacket(c, s);
    PoppedLedger(c, s, true, now, idle);
    CreditedMotion(l, id, m);
    PopMotion(c, s, true, now, idle);
    AddStill(Lost(s.b));
    AddStill(MissingOf(FateOf(l, id)));
    AddStill(m);
    hide Missing, Again, PoppedId, PopRings;
  }

  // ----- What each step does to the refunds -----

  /** The step discards what is in the FIFO, other than by delivering or giving up its front packet. */
  predicate Discards(c: Config, t: Transport, op: Op) {
    match op
    case OpSend(p, now, _) => SendVerdict(c, t, p, now) == AfterFlush
    case OpFailed(_, _) => t.fifo != [] && (t.sync || Full(c, GivenUp(c, t)))
    case OpFlush(_) => true
    case OpSetChannel(_, _, _) => t.configured
    case OpSideTrip(_, p, _) => p.len <= c.maxLen && t.configured && !t.sync
    case OpSlotStart(_) => true
    case OpSlotStop => true
    case _ => false
  }

  /** A failure outside side-trips: the library's verdict, the refund, and the flush of a full FIFO. */
  lemma FailureRefunds(c: Config, s: State, now: U32, idle: bool)
    requires s.t.fifo != [] && !s.t.sync
    ensures var r := PopRings(c, GiveUp(c, s), true, now, idle);
            TxFailed(c, s, now, idle) == if Full(c, GivenUp(c, s.t)) then Flush(c, r, idle) else r
  {
  }

  /** What a failure pops for a packet that has not left the FIFO undelivered, less what it had been refunded if it leaves
      now. */
  function FailureKeeps(c: Config, s: State): Motion
    requires s.t.fifo != []
  {
    var m := NextSlot(s.t).motion;
    Sub(if m == STILL || FindsAgain(c, GiveUp(c, s)) then STILL else m,
        if c.failedLeaves then Refound(s.b.ledger, MotionOf(s.t.fifo[0].payload)) else STILL)
  }

  /** The failure happens outside side-trips. */
  predicate Fails(s: State, op: Op) {
    op.OpFailed? && s.t.fifo != [] && !s.t.sync
  }

  /** The copies that a step adds: what a failure pops for a packet of which it is not missing, less the refunds of the
      packets that leave the FIFO undelivered. */
  ghost function KeptBy(c: Config, s: State, op: Op): Motion {
    if Fails(s, op) then
      var r := PopRings(c, GiveUp(c, s), true, op.now, op.idle);
      Sub(FailureKeeps(c, s), if Discards(c, s.t, op) then RefoundIn(r.b.ledger, r.t.fifo) else STILL)
    else Sub(STILL, if Discards(c, s.t, op) then RefoundIn(s.b.ledger, s.t.fifo) else STILL)
  }

  lemma FlushCopies(c: Config, s: State, idle: bool)
    requires Ledgered(s)
    ensures Copied(Flush(c, s, idle).b) == Sub(Copied(s.b), RefoundIn(s.b.ledger, s.t.fifo))
    ensures Lost(Flush(c, s, idle).b)
            == Add(Lost(s.b), Sub(FifoMotion(s.t.fifo), RefoundIn(s.b.ledger, s.t.fifo)))
  {
    EmptiedMotion(s.b.ledger, s.t.fifo);
    hide Emptied, RefoundIn, Missing, Again, Sound, Slotted, FifoMotion;
  }

  lemma EnqueueCopies(c: Config, s: State, p: Payload, now: U32, idle: bool)
    ensures Copied(Enqueue(c, s, p, now, idle).b) == Copied(s.b)
  {
    var k := Prepare(c, s.t, p, now, idle);
    BookedMotion(s.b.ledger, Accepts(c, s.t, p), k.refund.out, |s.t.motion.live| + 1 == 0x1_0000_0000);
    hide Prepare, Booked, Copies;
  }

  lemma SumsOfNothing(x: Motion, r: Motion)
    ensures Add(x, Sub(STILL, r)) == Sub(x, r) && Add(x, Sub(STILL, STILL)) == x
  {
  }

  lemma SentCopies(c: Config, s: State, p: Payload, now: U32, idle: bool)
    requires Ledgered(s)
    ensures Copied(Send(c, s, p, now, idle).b)
            == if SendVerdict(c, s.t, p, now) == AfterFlush then Sub(Copied(s.b), RefoundIn(s.b.ledger, s.t.fifo))
               else Copied(s.b)
  {
    var awake := s.(t := Awake(s.t));
    hide Enqueue, Flush, Copies, RefoundIn, Ledgered;
    match SendVerdict(c, s.t, p, now) {
      case Direct => EnqueueCopies(c, awake, p, now, idle);
      case AfterFlush =>
        AwakeLedgered(s, awake);
        FlushCopies(c, awake, idle);
        EnqueueCopies(c, Flush(c, awake, idle), p, now, idle);
      case _ =>
    }
  }

  lemma SendCopies(c: Config, s: State, op: Op)
    requires Ledgered(s) && op.OpSend?
    ensures Copied(Step(c, s, op).b) == Add(Copied(s.b), KeptBy(c, s, op))
  {
    hide Send, Copied, RefoundIn, Ledgered, SendVerdict;
    SentCopies(c, s, op.p, op.now, op.idle);
    SumsOfNothing(Copied(s.b), RefoundIn(s.b.ledger, s.t.fifo));
  }

  lemma SameCopies(s: State, u: State)
    requires u.b.ledger == s.b.ledger
    ensures Copied(u.b) == Copied(s.b) && Add(Copied(s.b), Sub(STILL, STILL)) == Copied(s.b)
  {
  }

  lemma SuccessCopies(c: Config, s: State, op: Op)
    requires Ledgered(s) && op.OpSuccess?
    ensures Copied(Step(c, s, op).b) == Add(Copied(s.b), KeptBy(c, s, op))
  {
    SumsOfNothing(Copied(s.b), STILL);
    if s.t.fifo != [] {
      LandedMotion(s.b.ledger, |s.t.fifo|);
      PopMotion(c, Deliver(s), false, op.now, op.idle);
    }
    hide PopRings, Landed, Copies, Ledgered;
  }

  lemma RefundCopies(c: Config, s: State, now: U32, idle: bool)
    requires Ledgered(s) && s.t.fifo != []
    ensures var r := PopRings(c, GiveUp(c, s), true, now, idle);
            Ledgered(r) && Copied(r.b) == Add(Copied(s.b), FailureKeeps(c, s))
  {
    var g, m := GiveUp(c, s), NextSlot(s.t).motion;
    GiveUpMotion(c, s);
    GiveUpLedgered(c, s);
    PopMotion(c, g, true, now, idle);
    PopLedgered(c, g, true, now, idle);
    assert NextSlot(g.t) == NextSlot(s.t);
    AddStill(Copied(s.b));
    AddStill(m);
    var left := if c.failedLeaves then Refound(s.b.ledger, MotionOf(s.t.fifo[0].payload)) else STILL;
    AddStill(Sub(Copied(s.b), left));
    NetOf(Copied(s.b), left, m);
    NetOf(Copied(s.b), left, STILL);
    hide Copied, Lost, PopRings, GiveUp, Refound, Misses, PoppedId, Ledgered, FateOf;
  }

  lemma FailureCopies(c: Config, s: State, op: Op)
    requires Ledgered(s) && Fails(s, op)
    ensures Copied(Step(c, s, op).b) == Add(Copied(s.b), KeptBy(c, s, op))
  {
    hide Copied, FailureKeeps, Flush, RefoundIn, Ledgered, TxFailed, PopRings, GiveUp, GivenUp, Full;
    var r := PopRings(c, GiveUp(c, s), true, op.now, op.idle);
    RefundCopies(c, s, op.now, op.idle);
    FlushCopies(c, r, op.idle);
    FailureRefunds(c, s, op.now, op.idle);
    AddStill(FailureKeeps(c, s));
    AddThenTake(Copied(s.b), FailureKeeps(c, s), RefoundIn(r.b.ledger, r.t.fifo));
    assert Discards(c, s.t, op) == Full(c, GivenUp(c, s.t));
  }

  lemma NetOf(x: Motion, left: Motion, kept: Motion)
    ensures Add(Sub(x, left), kept) == Add(x, Sub(kept, left))
  {
  }

  lemma AddThenTake(x: Motion, k: Motion, r: Motion)
    ensures Sub(Add(x, k), r) == Add(x, Sub(k, r))
  {
  }

  lemma SideTripCopies(c: Config, s: State, op: Op)
    requires Ledgered(s) && op.OpSideTrip?
    ensures Copied(Step(c, s, op).b) == Add(Copied(s.b), KeptBy(c, s, op))
  {
    hide Flush, RefoundIn, Copies, Ledgered, Visiting, Flushed;
    SumsOfNothing(Copied(s.b), RefoundIn(s.b.ledger, s.t.fifo));
    FlushCopies(c, s, op.idle);
    VisitingMotion(Flush(c, s, op.idle).b.ledger);
  }

  lemma SlotCopies(c: Config, s: State, op: Op)
    requires Ledgered(s) && (op.OpSlotStart? || op.OpSlotStop?)
    ensures Copied(Step(c, s, op).b) == Add(Copied(s.b), KeptBy(c, s, op))
  {
    SumsOfNothing(Copied(s.b), RefoundIn(s.b.ledger, s.t.fifo));
    EmptiedMotion(s.b.ledger, s.t.fifo);
    hide Emptied, RefoundIn, Copies, Sound, Slotted;
  }

  lemma FlushesCopies(c: Config, s: State, op: Op)
    requires Ledgered(s) && (op.OpFlush? || op.OpSetChannel? || (op.OpFailed? && s.t.sync && s.t.fifo != []))
    ensures Copied(Step(c, s, op).b) == Add(Copied(s.b), KeptBy(c, s, op))
  {
    hide Flush, RefoundIn, Copies, Ledgered, Flushed;
    var v := s.(t := s.t.(sync := false));
    SumsOfNothing(Copied(s.b), RefoundIn(s.b.ledger, s.t.fifo));
    AwakeLedgered(s, v);
    FlushCopies(c, s, op.idle);
    FlushCopies(c, v, op.idle);
  }

  lemma OtherCopies(c: Config, s: State, op: Op)
    requires Ledgered(s) && !op.OpSend? && !op.OpSuccess? && !Fails(s, op)
    ensures Copied(Step(c, s, op).b) == Add(Copied(s.b), KeptBy(c, s, op))
  {
    match op {
      case OpFlush(_) => FlushesCopies(c, s, op);
      case OpFailed(_, _) =>
        if s.t.fifo != [] {
          FlushesCopies(c, s, op);
        } else {
          SameCopies(s, s);
        }
      case OpSetChannel(_, _, _) => FlushesCopies(c, s, op);
      case OpSideTrip(_, _, _) => SideTripCopies(c, s, op);
      case OpSlotStart(_) => SlotCopies(c, s, op);
      case OpSlotStop => SlotCopies(c, s, op);
      case _ => SameCopies(s, Step(c, s, op));
    }
    hide Copied, RefoundIn, Ledgered, Flush;
  }

  lemma StepCopies(c: Config, s: State, op: Op)
    requires Ledgered(s)
    ensures Copied(Step(c, s, op).b) == Add(Copied(s.b), KeptBy(c, s, op))
  {
    hide KeptBy, Step, Copied, Ledgered;
    if op.OpSend? {
      SendCopies(c, s, op);
    } else if op.OpSuccess? {
      SuccessCopies(c, s, op);
    } else if Fails(s, op) {
      FailureCopies(c, s, op);
    } else {
      OtherCopies(c, s, op);
    }
  }

  /** The motion that failures have popped for packets that had not left the FIFO undelivered, less the refunds of those that
      did so afterwards. */
  ghost function KeptMotion(c: Config, ops: seq<Op>): Motion {
    if ops == [] then STILL
    else Add(KeptMotion(c, ops[..|ops| - 1]), KeptBy(c, Run(c, ops[..|ops| - 1]), ops[|ops| - 1]))
  }

  /** The copies are exactly that, in every run and with either kind of library. */
  lemma {:induction false} CopiesAreKeptMotion(c: Config, ops: seq<Op>)
    ensures Copied(Run(c, ops).b) == KeptMotion(c, ops)
  {
    if ops != [] {
      CopiesAreKeptMotion(c, ops[..|ops| - 1]);
      OneFateEach(c, ops[..|ops| - 1]);
      StepCopies(c, Run(c, ops[..|ops| - 1]), ops[|ops| - 1]);
      hide KeptBy, Step, Copied, Ledgered;
    } else {
      AddStill(STILL);
    }
  }

  // ----- When motion is duplicated -----

  /** No packet in the FIFO has been refunded, and no refund was doubled. */
  ghost predicate Single(l: Ledger) {
    l.doubled == STILL && Untouched(l)
  }

  lemma SingleMeansNoCopies(l: Ledger, n: nat)
    requires Sound(l, n) && Single(l)
    ensures Copies(l) == STILL
  {
    forall id | 0 <= id < |l.fates|
      ensures AgainOf(l.fates[id]) == STILL
    {
      if l.fates[id].Waiting? {
        assert id in l.queue;
        var i :| 0 <= i < n && l.queue[i] == id;
        assert AgainOf(FateOf(l, l.queue[i])) == STILL;
      }
    }
    NothingAgain(l.fates);
    AddStill(STILL);
  }

  /** One more packet, for which nothing was refunded. */
  lemma LongerUntouched(l: Ledger, n: nat, u: Ledger)
    requires Sound(l, n) && Untouched(l) && |u.fates| == |l.fates| + 1 && u.fates[..|l.fates|] == l.fates
    requires AgainOf(u.fates[|l.fates|]) == STILL && (u.queue == l.queue || u.queue == l.queue + [|l.fates|])
    ensures Untouched(u)
  {
    forall i | 0 <= i < |u.queue|
      ensures AgainOf(FateOf(u, u.queue[i])) == STILL
    {
      if i < n {
        assert AgainOf(FateOf(l, l.queue[i])) == STILL && u.fates[..|l.fates|][l.queue[i]] == u.fates[l.queue[i]];
      }
    }
  }

  lemma BookedSingle(l: Ledger, n: nat, written: bool, out: Motion, wraps: bool)
    requires Sound(l, n) && Single(l)
    ensures Single(Booked(l, written, out, wraps)) && Single(Visiting(l))
  {
    LongerUntouched(l, n, Booked(l, written, out, wraps));
    LongerUntouched(l, n, Visiting(l));
    hide Untouched, Sound;
  }

  lemma FrontSingle(l: Ledger, n: nat, m: Motion)
    requires Sound(l, n) && 0 < n && Single(l)
    ensures Single(Landed(l)) && Single(Shed(l, m))
  {
    assert AgainOf(FateOf(l, l.queue[0])) == STILL;
    assert forall i | 0 < i < n :: l.queue[0] < l.queue[i];
    AddStill(STILL);
  }

  /** Once the FIFO is emptied, there are no copies exactly if no refund was doubled. */
  lemma EmptiedSingle(l: Ledger, fifo: seq<Packet>)
    requires Sound(l, |fifo|)
    ensures var u := Emptied(l, fifo); Single(u) <==> Copies(u) == STILL
    ensures Single(l) ==> Single(Emptied(l, fifo))
  {
    EmptiedSound(l, fifo);
    EmptyCopies(Emptied(l, fifo));
    if Single(l) {
      EmptiedMotion(l, fifo);
      NoneRefound(l, fifo);
      SingleMeansNoCopies(l, |fifo|);
      AddStill(STILL);
    }
    hide Emptied, Copies, RefoundIn, Missing, FifoMotion;
  }

  lemma FoundSingle(l: Ledger, n: nat, id: nat, m: Motion)
    requires Sound(l, n) && Single(l) && Misses(l, id, m)
    ensures Single(Credited(l, id, m))
  {
  }

  /** A refund of motion that is not missing touches its packet, if that is in the FIFO. */
  lemma CreditedTouches(l: Ledger, n: nat, id: nat, m: Motion)
    requires Sound(l, n) && Single(l) && m != STILL && !Misses(l, id, m)
    ensures var u := Credited(l, id, m);
            && (forall i | 0 <= i < n && l.queue[i] == id :: i < |u.queue| && TouchedAt(u, i))
            && (id !in l.queue ==> Untouched(u))
  {
    var u := Credited(l, id, m);
    AddStill(m);
    forall i | 0 <= i < n && l.queue[i] == id
      ensures i < |u.queue| && TouchedAt(u, i)
    {
      assert AgainOf(FateOf(l, l.queue[i])) == STILL;
      forall j | 0 <= j < n && j != i
        ensures AgainOf(FateOf(u, u.queue[j])) == STILL
      {
        assert if i < j then l.queue[i] < l.queue[j] else l.queue[j] < l.queue[i];
        assert AgainOf(FateOf(l, l.queue[j])) == STILL;
      }
    }
  }

  /** The packet with this number waits in the FIFO and carries this motion. */
  ghost predicate Carries(l: Ledger, fifo: seq<Packet>, id: nat, m: Motion) {
    exists i :: 0 <= i < |fifo| && i < |l.queue| && l.queue[i] == id && MotionOf(fifo[i].payload) == m
  }

  /** A failure duplicates no motion: it pops none, or what is missing of a packet that was discarded undelivered, or that of
      a packet in a full FIFO, which is flushed at once. */
  ghost predicate Spared(c: Config, s: State, op: Op) {
    Fails(s, op) ==>
      var g, m := GiveUp(c, s), NextSlot(s.t).motion;
      || m == STILL || FindsAgain(c, g)
      || (Full(c, g.t) && Carries(g.b.ledger, g.t.fifo, PoppedPacket(c, g), m))
  }

  /** Emptying a FIFO right after a refund that makes a copy. */
  lemma TouchedFlush(l: Ledger, fifo: seq<Packet>, id: nat, m: Motion)
    requires Sound(l, |fifo|) && Single(l) && m != STILL && !Misses(l, id, m)
    ensures Sub(m, RefoundIn(Credited(l, id, m), fifo)) == STILL <==> Carries(l, fifo, id, m)
  {
    var u, n := Credited(l, id, m), |fifo|;
    CreditedSound(l, n, id, m);
    CreditedTouches(l, n, id, m);
    if id in l.queue {
      var i :| 0 <= i < n && l.queue[i] == id;
      CarriesAt(l, fifo, i, m);
      hide Credited, Misses, Single, Sound, Carries;
      OneRefound(u, fifo, i);
      NoDifference(m, MotionOf(fifo[i].payload));
    } else {
      hide Credited, Misses, Single, Sound;
      NoneRefound(u, fifo);
      AddStill(m);
    }
  }

  lemma CarriesAt(l: Ledger, fifo: seq<Packet>, i: nat, m: Motion)
    requires Sound(l, |fifo|) && i < |fifo|
    ensures Carries(l, fifo, l.queue[i], m) <==> MotionOf(fifo[i].payload) == m
  {
    assert forall j | 0 <= j < |fifo| && j != i :: if i < j then l.queue[i] < l.queue[j] else l.queue[j] < l.queue[i];
  }

  lemma NoDifference(m: Motion, n: Motion)
    ensures Sub(m, n) == STILL <==> m == n
  {
  }

  lemma PoppedSlots(l: Ledger, fifo: seq<Packet>)
    ensures RefoundIn(SlotsPopped(l), fifo) == RefoundIn(l, fifo) && Copies(SlotsPopped(l)) == Copies(l)
    ensures Single(SlotsPopped(l)) <==> Single(l)
  {
    SlotsAside(l, fifo, SlotsPopped(l).slots);
  }

  lemma {:induction false} SlotsAside(l: Ledger, fifo: seq<Packet>, slots: seq<nat>)
    ensures RefoundIn(l.(slots := slots), fifo) == RefoundIn(l, fifo)
    decreases |fifo|
  {
    if fifo != [] {
      var m := MotionOf(fifo[0].payload);
      SlotsAside(Shed(l, m), fifo[1..], slots);
      assert Shed(l.(slots := slots), m) == Shed(l, m).(slots := slots);
    }
  }

  /** The refund of a failure, from a state without copies. */
  lemma RefundSingle(c: Config, s: State, now: U32, idle: bool)
    requires Ledgered(s) && Single(s.b.ledger)
    ensures var r, m := PopRings(c, s, true, now, idle), NextSlot(s.t).motion;
            if m == STILL || FindsAgain(c, s) then Single(r.b.ledger)
            else Copied(r.b) == m
                 && (Sub(m, RefoundIn(r.b.ledger, r.t.fifo)) == STILL
                     <==> Carries(s.b.ledger, s.t.fifo, PoppedPacket(c, s), m))
  {
    var l, m, id := s.b.ledger, NextSlot(s.t).motion, PoppedPacket(c, s);
    hide PopRings, Credited, Single, RefoundIn, Carries, PoppedId, Misses, SlotsPopped;
    PoppedLedger(c, s, true, now, idle);
    PoppedSlots(Refunded(c, s, true), s.t.fifo);
    if m != STILL {
      if FindsAgain(c, s) {
        FoundSingle(l, |s.t.fifo|, id, m);
      } else {
        PopMotion(c, s, true, now, idle);
        SingleMeansNoCopies(l, |s.t.fifo|);
        AddStill(m);
        TouchedFlush(l, s.t.fifo, id, m);
      }
    }
  }

  lemma GiveUpSingle(c: Config, s: State)
    requires Ledgered(s) && Single(s.b.ledger) && s.t.fifo != []
    ensures Single(GiveUp(c, s).b.ledger) && Ledgered(GiveUp(c, s))
    ensures NextSlot(GiveUp(c, s).t) == NextSlot(s.t)
  {
    GiveUpLedgered(c, s);
    FrontSingle(s.b.ledger, |s.t.fifo|, MotionOf(s.t.fifo[0].payload));
    hide Single, Shed, Ledgered;
  }

  lemma FlushSingle(c: Config, s: State, idle: bool)
    requires Ledgered(s)
    ensures var u := Flush(c, s, idle);
            && (Single(u.b.ledger) <==> Copied(u.b) == STILL) && (Single(s.b.ledger) ==> Single(u.b.ledger))
  {
    EmptiedSingle(s.b.ledger, s.t.fifo);
    hide Emptied, Again;
  }

  lemma FailureSpared(c: Config, s: State, op: Op)
    requires Ledgered(s) && Single(s.b.ledger) && Fails(s, op)
    ensures Copied(Step(c, s, op).b) == STILL <==> Spared(c, s, op)
    ensures Spared(c, s, op) ==> Single(Step(c, s, op).b.ledger)
  {
    hide GiveUp, PopRings, Flush, Single, Ledgered, Copied, RefoundIn, Carries, FindsAgain, TxFailed, PoppedPacket;
    var g := GiveUp(c, s);
    GiveUpSingle(c, s);
    var r := PopRings(c, g, true, op.now, op.idle);
    RefundSingle(c, g, op.now, op.idle);
    PopLedgered(c, g, true, op.now, op.idle);
    FailureRefunds(c, s, op.now, op.idle);
    GiveUpTransport(c, s);
    FlushSingle(c, r, op.idle);
    FlushCopies(c, r, op.idle);
    SingleState(r);
  }

  lemma GiveUpTransport(c: Config, s: State)
    requires s.t.fifo != []
    ensures GiveUp(c, s).t == GivenUp(c, s.t)
  {
  }

  lemma SingleState(s: State)
    requires Ledgered(s)
    ensures Single(s.b.ledger) ==> Copied(s.b) == STILL && RefoundIn(s.b.ledger, s.t.fifo) == STILL
  {
    if Single(s.b.ledger) {
      SingleMeansNoCopies(s.b.ledger, |s.t.fifo|);
      NoneRefound(s.b.ledger, s.t.fifo);
    }
  }

  lemma SendSingle(c: Config, s: State, p: Payload, now: U32, idle: bool)
    requires Ledgered(s) && Single(s.b.ledger)
    ensures Single(Send(c, s, p, now, idle).b.ledger)
  {
    hide Enqueue, Flush, Single, Ledgered;
    var awake := s.(t := Awake(s.t));
    AwakeLedgered(s, awake);
    match SendVerdict(c, s.t, p, now) {
      case Direct => EnqueueSingle(c, awake, p, now, idle);
      case AfterFlush =>
        FlushLedgered(c, awake, idle);
        FlushSingle(c, awake, idle);
        EnqueueSingle(c, Flush(c, awake, idle), p, now, idle);
      case _ =>
    }
  }

  lemma EnqueueSingle(c: Config, s: State, p: Payload, now: U32, idle: bool)
    requires Ledgered(s) && Single(s.b.ledger)
    ensures Single(Enqueue(c, s, p, now, idle).b.ledger)
  {
    var out := Prepare(c, s.t, p, now, idle).refund.out;
    EnqueuedLedger(c, s, p, now, idle);
    BookedSingle(s.b.ledger, |s.t.fifo|, Accepts(c, s.t, p), out, |s.t.motion.live| + 1 == 0x1_0000_0000);
    hide Single, Enqueue, Booked;
  }

  lemma SuccessSingle(c: Config, s: State, now: U32, idle: bool)
    requires Ledgered(s) && Single(s.b.ledger)
    ensures Single(TxSuccess(c, s, now, idle).b.ledger)
  {
    if s.t.fifo != [] {
      FrontSingle(s.b.ledger, |s.t.fifo|, STILL);
      PoppedLedger(c, Deliver(s), false, now, idle);
      PoppedSlots(Landed(s.b.ledger), []);
    }
    hide Single, Landed, SlotsPopped, PopRings;
  }

  lemma OthersKeepSingle(c: Config, s: State, op: Op)
    requires Ledgered(s) && Single(s.b.ledger) && !Fails(s, op)
    ensures Single(Step(c, s, op).b.ledger)
  {
    hide Send, TxSuccess, Single, Ledgered, Flush, Emptied;
    match op {
      case OpSend(p, now, idle) => SendSingle(c, s, p, now, idle);
      case OpSuccess(now, idle) => SuccessSingle(c, s, now, idle);
      case OpFailed(_, idle) =>
        AwakeLedgered(s, s.(t := s.t.(sync := false)));
        FlushSingle(c, s.(t := s.t.(sync := false)), idle);
      case OpFlush(idle) => FlushSingle(c, s, idle);
      case OpSetChannel(_, _, idle) => FlushSingle(c, s, idle);
      case OpSideTrip(_, _, idle) =>
        var f := Flush(c, s, idle);
        FlushSingle(c, s, idle);
        FlushLedgered(c, s, idle);
        VisitSingle(f);
      case OpSlotStart(_) => SlotSingle(s);
      case OpSlotStop => SlotSingle(s);
      case _ =>
    }
  }

  lemma VisitSingle(s: State)
    requires Ledgered(s) && Single(s.b.ledger)
    ensures Single(Visiting(s.b.ledger))
  {
    BookedSingle(s.b.ledger, |s.t.fifo|, true, STILL, false);
    hide Single;
  }

  lemma SlotSingle(s: State)
    requires Ledgered(s) && Single(s.b.ledger)
    ensures Single(Emptied(s.b.ledger, s.t.fifo))
  {
    EmptiedSingle(s.b.ledger, s.t.fifo);
    hide Single;
  }

  /** From a state without copies a step makes one if and only if it is a failure that is not spared. */
  lemma CopiesExactly(c: Config, s: State, op: Op)
    requires Ledgered(s) && Single(s.b.ledger)
    ensures Copied(Step(c, s, op).b) == STILL <==> Spared(c, s, op)
    ensures Spared(c, s, op) ==> Single(Step(c, s, op).b.ledger)
  {
    if Fails(s, op) {
      FailureSpared(c, s, op);
    } else {
      OthersKeepSingle(c, s, op);
      StepLedgered(c, s, op);
      SingleState(Step(c, s, op));
    }
    hide Single, Ledgered, Copied, Step;
  }

  ghost predicate AlwaysSpared(c: Config, ops: seq<Op>) {
    forall i | 0 <= i < |ops| :: Spared(c, Run(c, ops[..i]), ops[i])
  }

  ghost predicate NeverCopied(c: Config, ops: seq<Op>) {
    forall n | 0 <= n <= |ops| :: Copied(Run(c, ops[..n]).b) == STILL
  }

  lemma RunCopies(c: Config, ops: seq<Op>, n: nat)
    requires n < |ops| && Single(Run(c, ops[..n]).b.ledger)
    ensures Copied(Run(c, ops[..n + 1]).b) == STILL <==> Spared(c, Run(c, ops[..n]), ops[n])
    ensures Spared(c, Run(c, ops[..n]), ops[n]) ==> Single(Run(c, ops[..n + 1]).b.ledger)
  {
    OneFateEach(c, ops[..n]);
    RunStep(c, ops, n);
    CopiesExactly(c, Run(c, ops[..n]), ops[n]);
    hide Single, Copied, Spared, Step, Ledgered;
  }

  lemma {:induction false} SparedPrefix(c: Config, ops: seq<Op>, n: nat)
    requires n <= |ops| && (AlwaysSpared(c, ops) || NeverCopied(c, ops))
    ensures Single(Run(c, ops[..n]).b.ledger)
  {
    if n > 0 {
      SparedPrefix(c, ops, n - 1);
      hide Single, Copied, Spared;
      RunCopies(c, ops, n - 1);
      assert AlwaysSpared(c, ops) ==> Spared(c, Run(c, ops[..n - 1]), ops[n - 1]);
      assert NeverCopied(c, ops) ==> Copied(Run(c, ops[..n]).b) == STILL;
    }
  }

  /** Throughout a run there are no copies if and only if every failure is spared, whatever the library does with a failed
      packet. */
  lemma NoCopies(c: Config, ops: seq<Op>)
    ensures NeverCopied(c, ops) <==> AlwaysSpared(c, ops)
  {
    hide Single, Copied, Spared, Ledgered, Run;
    if AlwaysSpared(c, ops) {
      forall n | 0 <= n <= |ops|
        ensures Copied(Run(c, ops[..n]).b) == STILL
      {
        SparedPrefix(c, ops, n);
        OneFateEach(c, ops[..n]);
        SingleState(Run(c, ops[..n]));
      }
    }
    if NeverCopied(c, ops) {
      forall i | 0 <= i < |ops|
        ensures Spared(c, Run(c, ops[..i]), ops[i])
      {
        SparedPrefix(c, ops, i);
        RunCopies(c, ops, i);
        assert Copied(Run(c, ops[..i + 1]).b) == STILL;
      }
    }
  }

  // ----- Being spared, packet by packet -----

  lemma PoppedFate(c: Config, s: State)
    requires Ledgered(s) && Traced(c, s) && s.t.fifo != [] && s.t.motion.live != []
    ensures var g := GiveUp(c, s);
            && Ledgered(g) && Traced(c, g) && PoppedPacket(c, g) == s.b.ledger.slots[0] == g.b.ledger.slots[0]
            && NextSlot(g.t) == NextSlot(s.t) == s.t.motion.live[0]
  {
    GiveUpLedgered(c, s);
    FrontTraced(c, s);
    PoppedIsOldest(c, GiveUp(c, s).t, GiveUp(c, s).b.ledger);
    hide Apart, Traces, Sound, Shed;
  }

  /** As long as slots tell the truth, what is missing of a packet is found again, and a packet that waits carries what is
      popped for it. */
  lemma FateDecides(c: Config, s: State)
    requires Ledgered(s) && Traced(c, s) && s.t.motion.live != [] && NextSlot(s.t).motion != STILL
    requires PoppedPacket(c, s) == s.b.ledger.slots[0]
    ensures var f, m := FateOf(s.b.ledger, PoppedPacket(c, s)), NextSlot(s.t).motion;
            && (FindsAgain(c, s) <==> f.Gone?)
            && (Carries(s.b.ledger, s.t.fifo, PoppedPacket(c, s), m) <==> f.Waiting?)
  {
    var l, id := s.b.ledger, s.b.ledger.slots[0];
    assert Tells(FateOf(l, l.slots[0]), s.t.motion.live[0].motion);
    if FateOf(l, id).Waiting? {
      assert id in l.queue;
      var i :| 0 <= i < |s.t.fifo| && l.queue[i] == id;
      assert l.queue[i] == l.slots[0] ==> MotionOf(s.t.fifo[i].payload) == s.t.motion.live[0].motion;
    }
    hide PoppedId, Apart;
  }

  /** The fate of the packet whose slot a failure pops, after the library's verdict on the front packet. */
  function FateAtFailure(c: Config, s: State): Fate
    requires s.t.fifo != []
  {
    FateOf(GiveUp(c, s).b.ledger, PoppedPacket(c, GiveUp(c, s)))
  }

  lemma FateSpares(c: Config, s: State, op: Op)
    requires Ledgered(s) && Traced(c, s) && Fails(s, op)
    ensures Spared(c, s, op)
            <==> NextSlot(s.t).motion == STILL || FateAtFailure(c, s).Gone?
                 || (FateAtFailure(c, s).Waiting? && Full(c, GivenUp(c, s.t)))
  {
    if NextSlot(s.t).motion != STILL {
      PoppedFate(c, s);
      FateDecides(c, GiveUp(c, s));
      GiveUpTransport(c, s);
      hide GiveUp, Ledgered, Traced, PoppedPacket, FindsAgain, Carries, Full;
    }
  }

  /** Unless the motion ring has overrun since the last flush, what decides is the fate of the packet whose slot is popped: a
      failure that pops motion is spared if that packet was discarded undelivered, or waits in a FIFO that is full, and
      never if it was delivered. */
  lemma SparedByFate(c: Config, ops: seq<Op>, op: Op)
    requires Fails(Run(c, ops), op) && !Run(c, ops).b.motionOverrun
    ensures var s := Run(c, ops);
            Spared(c, s, op)
            <==> NextSlot(s.t).motion == STILL
                 || match FateAtFailure(c, s)
                    case Gone(_) => true
                    case Waiting(_) => Full(c, GivenUp(c, s.t))
                    case Arrived => false
  {
    SlotsTellTheTruth(c, ops);
    FateSpares(c, Run(c, ops), op);
    hide Spared, FateAtFailure, Traced, Ledgered;
  }

  /** What being spared means for the packets of the FIFO: the FIFO is full, no packet has a slot any more, the packet whose
      slot is popped carries no motion, or it is the failed one and the library removes it. */
  predicate SparedInFifo(c: Config, t: Transport, op: Op)
    requires 0 <= Skew(t)
  {
    op.OpFailed? && t.fifo != [] && !t.sync ==>
      || Full(c, GivenUp(c, t)) || Skew(t) == |t.fifo|
      || MotionOf(t.fifo[Skew(t)].payload) == STILL || (Skew(t) == 0 && c.failedLeaves)
  }

  lemma ShedFate(l: Ledger, n: nat, m: Motion, k: nat)
    requires Sound(l, n) && k < n
    ensures FateOf(l, l.queue[k]).Waiting?
    ensures var f := FateOf(Shed(l, m), l.queue[k]); if k == 0 then f.Gone? else f.Waiting?
  {
    assert 0 < k ==> l.queue[0] < l.queue[k];
  }

  /** Without stale slots that packet is `Skew` places from the front, and still waits unless it leaves now. */
  lemma OldestWaits(c: Config, s: State)
    requires Ledgered(s) && Traced(c, s) && Paired(s.b.ledger) && s.t.fifo != [] && s.t.motion.live != [] && 0 <= Skew(s.t)
    ensures s.b.ledger.slots[0] == s.b.ledger.queue[Skew(s.t)]
    ensures FateAtFailure(c, s).Waiting? || FateAtFailure(c, s).Gone?
    ensures FateAtFailure(c, s).Gone? <==> Skew(s.t) == 0 && c.failedLeaves
  {
    var l := s.b.ledger;
    hide Traced, PoppedPacket, Shed, FateOf, Sound;
    PoppedFate(c, s);
    assert |l.queue| == |s.t.fifo| && |l.slots| == |s.t.motion.live| by { LedgeredLengths(s); }
    assert PairedAt(l, |s.t.motion.live|);
    ShedFate(l, |s.t.fifo|, MotionOf(s.t.fifo[0].payload), Skew(s.t));
  }

  lemma LedgeredLengths(s: State)
    requires Ledgered(s)
    ensures |s.b.ledger.queue| == |s.t.fifo| && |s.b.ledger.slots| == |s.t.motion.live|
  {
  }

  lemma SparedExactly(c: Config, s: State, op: Op)
    requires RingsFit(c) && Mirrored(c, s.t) && Known(c, s)
    ensures Spared(c, s, op) <==> SparedInFifo(c, s.t, op)
  {
    if Fails(s, op) {
      FateSpares(c, s, op);
      if s.t.motion.live != [] {
        EventConsumesSlot(c, s.t);
        OldestWaits(c, s);
      }
    }
    hide FateAtFailure, Ledgered, Traced, Paired, Full;
  }

  lemma CleanKnown(c: Config, ops: seq<Op>, i: nat)
    requires RingsFit(c) && WellFormedRun(c, ops) && CleanRun(c, ops) && i <= |ops|
    ensures Mirrored(c, Run(c, ops[..i]).t) && Known(c, Run(c, ops[..i])) && Tracked(Run(c, ops[..i]))
  {
    CleanPrefix(c, ops, i);
    RP.CleanRunsNeverOverrun(c, ops, i);
    RefundedAtMostOnce(c, ops[..i]);
    hide Mirrored, Known, Tracked, Run;
  }

  /** So in runs without stale slots the exact condition is one on the FIFO: each failure finds it full, or fails a packet
      without motion behind the ones that are out of step, or a packet in step that the library removes. */
  lemma NoCopiesInFifo(c: Config, ops: seq<Op>)
    requires RingsFit(c) && WellFormedRun(c, ops) && CleanRun(c, ops)
    ensures forall i | 0 <= i < |ops| :: 0 <= Skew(Run(c, ops[..i]).t)
    ensures NeverCopied(c, ops) <==> forall i | 0 <= i < |ops| :: SparedInFifo(c, Run(c, ops[..i]).t, ops[i])
  {
    forall i | 0 <= i < |ops|
      ensures 0 <= Skew(Run(c, ops[..i]).t)
      ensures Spared(c, Run(c, ops[..i]), ops[i]) <==> SparedInFifo(c, Run(c, ops[..i]).t, ops[i])
    {
      CleanKnown(c, ops, i);
      SparedExactly(c, Run(c, ops[..i]), ops[i]);
    }
    hide Spared, SparedInFifo, NeverCopied;
    NoCopies(c, ops);
  }

  lemma InStepSpared(c: Config, s: State, op: Op)
    requires RingsFit(c) && InStep(c, s.t) && Harmless(c, s.t, op) && Known(c, s)
    ensures Spared(c, s, op)
  {
    SparedExactly(c, s, op);
    hide Spared, Known;
  }

  /** In a run that stays in lockstep every failure is spared, whatever the library does with a failed packet. */
  lemma LockstepSpares(c: Config, ops: seq<Op>)
    requires RingsFit(c) && WellFormedRun(c, ops) && HarmlessRun(c, ops)
    ensures AlwaysSpared(c, ops)
  {
    forall i | 0 <= i < |ops|
      ensures Spared(c, Run(c, ops[..i]), ops[i])
    {
      assert CleanRun(c, ops);
      CleanKnown(c, ops, i);
      HarmlessPrefix(c, ops, i);
      InStepSpared(c, Run(c, ops[..i]), ops[i]);
    }
  }

  // ----- One failure from lockstep -----

  lemma LockstepUntouched(c: Config, s: State)
    requires Lockstep(c, s.t) && Tracked(s)
    ensures Untouched(s.b.ledger)
  {
  }

  /** From lockstep the popped slot is that of the failed packet. */
  lemma LockstepPops(c: Config, s: State)
    requires RingsFit(c) && Lockstep(c, s.t) && Known(c, s) && s.t.fifo != []
    ensures var l, g, m := s.b.ledger, GiveUp(c, s), MotionOf(s.t.fifo[0].payload);
            && NextSlot(s.t).motion == m && Untouched(l) && Ledgered(s)
            && PoppedPacket(c, g) == l.queue[0] < |l.fates|
            && FateOf(g.b.ledger, l.queue[0]) == if c.failedLeaves then Gone(m) else Waiting(STILL)
  {
    EventConsumesSlot(c, s.t);
    PairedTracked(c, s);
    LockstepUntouched(c, s);
    OldestWaits(c, s);
    PoppedFate(c, s);
    assert AgainOf(FateOf(s.b.ledger, s.b.ledger.queue[0])) == STILL;
    hide Traced, Paired, Mirrored, PoppedPacket, Tracked;
  }

  /** What the refund does to copies and losses. */
  lemma LockstepRefund(c: Config, s: State, now: U32, idle: bool)
    requires RingsFit(c) && Lockstep(c, s.t) && Known(c, s) && s.t.fifo != []
    ensures var r, m := PopRings(c, GiveUp(c, s), true, now, idle), MotionOf(s.t.fifo[0].payload);
            && Lost(r.b) == Lost(s.b) && Copied(r.b) == (if c.failedLeaves then Copied(s.b) else Add(Copied(s.b), m))
            && r.t.pool == Add(s.t.pool, m) && r.b.delivered == s.b.delivered && Ledgered(r)
            && r.t.fifo == if c.failedLeaves then s.t.fifo[1..] else s.t.fifo
  {
    var g, m := GiveUp(c, s), MotionOf(s.t.fifo[0].payload);
    LockstepPops(c, s);
    assert Refound(s.b.ledger, m) == STILL;
    hide Known, Lockstep, PoppedId, Copied, Lost, Shed, Refound, Untouched, PopRings, RingsFit;
    GiveUpMotion(c, s);
    GiveUpLedgered(c, s);
    GiveUpPool(c, s);
    PopMotion(c, g, true, now, idle);
    PopLedgered(c, g, true, now, idle);
    PopPool(c, g, now, idle);
    hide Ledgered, GiveUp;
    NoMoreThanThat(Lost(s.b), Copied(s.b), m);
  }

  lemma NoMoreThanThat(x: Motion, y: Motion, m: Motion)
    ensures Sub(Add(x, Sub(m, STILL)), m) == x && Sub(y, STILL) == y
    ensures m == STILL ==> Add(x, Sub(m, STILL)) == x && Add(y, m) == y
  {
  }

  lemma PopPool(c: Config, s: State, now: U32, idle: bool)
    ensures var r := PopRings(c, s, true, now, idle);
            && r.t.pool == Add(s.t.pool, NextSlot(s.t).motion) && r.b.delivered == s.b.delivered && r.t.fifo == s.t.fifo
  {
    AddStill(s.t.pool);
    hide SlotsPopped, Credited, PoppedId;
  }

  lemma GiveUpPool(c: Config, s: State)
    requires s.t.fifo != []
    ensures var g := GiveUp(c, s);
            && g.t.pool == s.t.pool && g.b.delivered == s.b.delivered && NextSlot(g.t) == NextSlot(s.t)
            && g.t.fifo == if c.failedLeaves then s.t.fifo[1..] else s.t.fifo
  {
  }

  /** What a flush right after it finds refunded, if the library keeps the packet. */
  lemma LockstepRefound(c: Config, s: State, now: U32, idle: bool)
    requires RingsFit(c) && Lockstep(c, s.t) && Known(c, s) && s.t.fifo != [] && !c.failedLeaves
    ensures var r := PopRings(c, s, true, now, idle); RefoundIn(r.b.ledger, r.t.fifo) == MotionOf(s.t.fifo[0].payload)
  {
    var l, id, m := s.b.ledger, s.b.ledger.queue[0], MotionOf(s.t.fifo[0].payload);
    LockstepPops(c, s);
    PoppedLedger(c, s, true, now, idle);
    PoppedSlots(Refunded(c, s, true), s.t.fifo);
    if m == STILL {
      NoneRefound(l, s.t.fifo);
    } else {
      assert Refunded(c, s, true) == Credited(l, id, m);
      CreditedSound(l, |s.t.fifo|, id, m);
      FrontTouched(l, |s.t.fifo|, m);
      OneRefound(Credited(l, id, m), s.t.fifo, 0);
    }
    hide Ledgered, Traced, Paired, Mirrored, PoppedPacket, Credited, SlotsPopped, RefoundIn;
  }

  lemma FrontTouched(l: Ledger, n: nat, m: Motion)
    requires Sound(l, n) && 0 < n && Untouched(l) && m != STILL
    ensures var u := Credited(l, l.queue[0], m); |u.queue| == n && TouchedAt(u, 0)
  {
    AddStill(m);
    assert AgainOf(FateOf(l, l.queue[0])) == STILL;
    assert forall i | 0 < i < n :: l.queue[0] < l.queue[i];
  }

  lemma NeverFullOnceGone(c: Config, t: Transport)
    requires RingsFit(c) && Aligned(c, t) && t.fifo != [] && c.failedLeaves
    ensures !Full(c, GivenUp(c, t))
  {
  }

  /** From lockstep, a failure makes a second copy of some motion if and only if the library keeps the failed
      packet, the packet carries motion, and the FIFO is not full: a full one is flushed in the same step, which leaves
      the motion in the pool only. And it loses nothing unless it flushes. */
  lemma FailureDuplicates(c: Config, s: State, now: U32, idle: bool)
    requires RingsFit(c) && Lockstep(c, s.t) && Known(c, s) && s.t.fifo != [] && !s.t.sync
    ensures Copied(TxFailed(c, s, now, idle).b) != Copied(s.b)
            <==> !c.failedLeaves && MotionOf(s.t.fifo[0].payload) != STILL && !Full(c, s.t)
    ensures !Full(c, GivenUp(c, s.t)) ==> Lost(TxFailed(c, s, now, idle).b) == Lost(s.b)
  {
    var r := PopRings(c, GiveUp(c, s), true, now, idle);
    FailureRefunds(c, s, now, idle);
    LockstepRefund(c, s, now, idle);
    FlushCopies(c, r, idle);
    if c.failedLeaves {
      NeverFullOnceGone(c, s.t);
    } else {
      LockstepRefound(c, s, now, idle);
      AddsSomething(Copied(s.b), MotionOf(s.t.fifo[0].payload));
    }
    hide Copied, Lost, Flush, PopRings, TxFailed, Known, Lockstep, RefoundIn, Full;
  }

  lemma AddsSomething(x: Motion, m: Motion)
    ensures Add(x, m) == x <==> m == STILL
    ensures Sub(Add(x, m), m) == x
  {
  }

  /** After the failure of the front packet of `s`: it is in the pool and nowhere else, and the others are lost. */
  predicate CountsOnce(s: State, u: State)
    requires s.t.fifo != []
  {
    var m := MotionOf(s.t.fifo[0].payload);
    && u.t.fifo == [] && u.t.pool == Add(s.t.pool, m) && u.b.delivered == s.b.delivered
    && Copied(u.b) == Copied(s.b) && Lost(u.b) == Add(Lost(s.b), Sub(FifoMotion(s.t.fifo), m))
  }

  lemma FlushEmpties(c: Config, s: State, idle: bool)
    ensures var u := Flush(c, s, idle); u.t.fifo == [] && u.t.pool == s.t.pool && u.b.delivered == s.b.delivered
  {
  }

  lemma FlushedOnce(c: Config, s: State, now: U32, idle: bool, later: bool)
    requires RingsFit(c) && !c.failedLeaves && Lockstep(c, s.t) && Known(c, s) && s.t.fifo != []
    ensures CountsOnce(s, Flush(c, PopRings(c, s, true, now, idle), later))
  {
    hide Copied, Lost, PopRings, Known, Lockstep, RefoundIn, FifoMotion, Emptied, Flush;
    var r := PopRings(c, s, true, now, idle);
    LockstepRefund(c, s, now, idle);
    LockstepRefound(c, s, now, idle);
    FlushCopies(c, r, later);
    FlushEmpties(c, r, later);
    AddsSomething(Copied(s.b), MotionOf(s.t.fifo[0].payload));
  }

  /** A failure that meets a full FIFO refunds its packet and drops it in the same step. */
  lemma FullFailureCountsOnce(c: Config, s: State, now: U32, idle: bool)
    requires RingsFit(c) && !c.failedLeaves && Lockstep(c, s.t) && Known(c, s) && Full(c, s.t) && !s.t.sync
    ensures CountsOnce(s, TxFailed(c, s, now, idle))
  {
    FailureRefunds(c, s, now, idle);
    FlushedOnce(c, s, now, idle, idle);
    hide CountsOnce, Known, Lockstep, Flush, PopRings;
  }

  /** Nor does a kept packet count twice if a flush takes it before it is acknowledged. */
  lemma FlushedPacketCountsOnce(c: Config, s: State, now: U32, idle: bool, later: bool)
    requires RingsFit(c) && !c.failedLeaves && Lockstep(c, s.t) && Known(c, s) && s.t.fifo != [] && !Full(c, s.t) && !s.t.sync
    ensures CountsOnce(s, Flush(c, TxFailed(c, s, now, idle), later))
  {
    FailureRefunds(c, s, now, idle);
    FlushedOnce(c, s, now, idle, later);
    hide CountsOnce, Known, Lockstep, Flush, PopRings;
  }

  /** No step of the run is one that may lose motion. */
  ghost predicate Lossless(c: Config, ops: seq<Op>)
  {
    ops == [] || (Lossless(c, ops[..|ops| - 1]) && !CanLose(c, Run(c, ops[..|ops| - 1]), ops[|ops| - 1]))
  }

  lemma {:induction false} NothingLost(c: Config, ops: seq<Op>)
    requires Lossless(c, ops)
    ensures Lost(Run(c, ops).b) == STILL
  {
    if ops != [] {
      NothingLost(c, ops[..|ops| - 1]);
      OneFateEach(c, ops[..|ops| - 1]);
      NothingLostElsewhere(c, Run(c, ops[..|ops| - 1]), ops[|ops| - 1]);
      hide Lost, Ledgered, CanLose, Step;
    } else {
      AddStill(STILL);
    }
  }

  /** Everything submitted was delivered, is on its way, or was lost. */
  predicate Accounted(s: State, a: Axis) {
    On(a, s.b.submitted)
    == On(a, s.b.delivered) + On(a, FifoMotion(s.t.fifo)) + On(a, s.t.pool) + On(a, Lost(s.b))
  }

  ghost predicate AlwaysAccounted(c: Config, ops: seq<Op>) {
    forall n, a: Axis | 0 <= n <= |ops| :: Accounted(Run(c, ops[..n]), a)
  }

  lemma AccountedExactly(c: Config, ops: seq<Op>)
    ensures (forall a: Axis :: Accounted(Run(c, ops), a)) <==> Copied(Run(c, ops).b) == STILL
  {
    hide Run, Copied, Lost, FifoMotion;
    forall a: Axis
      ensures Accounted(Run(c, ops), a) <==> On(a, Copied(Run(c, ops).b)) == 0
    {
      MotionBalances(c, ops, a);
    }
    var m := Copied(Run(c, ops).b);
    if m != STILL {
      assert On(X, m) != 0 || On(Y, m) != 0 || On(ScrollX, m) != 0 || On(ScrollY, m) != 0;
    }
  }

  /** Conservation: throughout a run submitted motion is delivered, in the FIFO, in the pool or lost, neither invented nor
      duplicated, if and only if every failure is spared; so it is as long as the rings stay in lockstep, whether the
      library removes failed packets or not. Without the steps that may lose it, none is lost, saturation notwithstanding. */
  lemma MotionConserved(c: Config, ops: seq<Op>)
    ensures AlwaysAccounted(c, ops) <==> AlwaysSpared(c, ops)
    ensures RingsFit(c) && WellFormedRun(c, ops) && HarmlessRun(c, ops) ==> AlwaysAccounted(c, ops)
    ensures Lossless(c, ops) ==> Lost(Run(c, ops).b) == STILL
  {
    hide Spared, Accounted, Copied;
    NoCopies(c, ops);
    forall n | 0 <= n <= |ops|
      ensures (forall a: Axis :: Accounted(Run(c, ops[..n]), a)) <==> Copied(Run(c, ops[..n]).b) == STILL
    {
      AccountedExactly(c, ops[..n]);
    }
    assert AlwaysAccounted(c, ops) <==> NeverCopied(c, ops);
    if RingsFit(c) && WellFormedRun(c, ops) && HarmlessRun(c, ops) {
      LockstepSpares(c, ops);
    }
    if Lossless(c, ops) {
      NothingLost(c, ops);
    }
  }

  // ----- Rings that overrun -----

  lemma RoomKeepsMotion(c: Config, s: State, p: Payload, now: U32, idle: bool)
    requires MotionRoom(c, s.t)
    ensures Enqueue(c, s, p, now, idle).b.overwritten == s.b.overwritten
  {
    var k := Prepare(c, s.t, p, now, idle);
    var slot := Slot(k.refund.out, k.pointer);
    R.PushedWithRoom(0x1_0000_0000, c.motionSize, s.t.motion, slot);
    RingMotionAppend(s.t.motion.live, slot);
  }

  lemma EnqueueKeepsMotion(c: Config, s: State, p: Payload, now: U32, idle: bool)
    requires !Enqueue(c, s, p, now, idle).b.motionOverrun
    ensures Enqueue(c, s, p, now, idle).b.overwritten == s.b.overwritten
  {
    RoomKeepsMotion(c, s, p, now, idle);
  }

  lemma SendKeepsMotion(c: Config, s: State, p: Payload, now: U32, idle: bool)
    requires !Send(c, s, p, now, idle).b.motionOverrun
    ensures Send(c, s, p, now, idle).b.overwritten == s.b.overwritten
  {
    hide Enqueue;
    var awake := s.(t := Awake(s.t));
    match SendVerdict(c, s.t, p, now) {
      case Direct => EnqueueKeepsMotion(c, awake, p, now, idle);
      case AfterFlush => EnqueueKeepsMotion(c, Flush(c, awake, idle), p, now, idle);
      case _ =>
    }
  }

  lemma PopKeepsMotion(c: Config, s: State, failed: bool, now: U32, idle: bool)
    ensures PopRings(c, s, failed, now, idle).b.overwritten == s.b.overwritten
  {
  }

  lemma EventKeepsMotion(c: Config, s: State, op: Op)
    requires op.OpSuccess? || op.OpFailed?
    ensures Step(c, s, op).b.overwritten == s.b.overwritten
  {
    hide PopRings;
    if s.t.fifo != [] && !s.t.sync {
      if op.OpSuccess? {
        PopKeepsMotion(c, Deliver(s), false, op.now, op.idle);
      } else {
        PopKeepsMotion(c, GiveUp(c, s), true, op.now, op.idle);
      }
    }
  }

  lemma NoOverrunKeepsMotion(c: Config, s: State, op: Op)
    requires !Step(c, s, op).b.motionOverrun
    ensures Step(c, s, op).b.overwritten == s.b.overwritten
  {
    hide Send, TxSuccess, TxFailed;
    match op {
      case OpSend(p, now, idle) => SendKeepsMotion(c, s, p, now, idle);
      case OpSuccess(_, _) => EventKeepsMotion(c, s, op);
      case OpFailed(_, _) => EventKeepsMotion(c, s, op);
      case OpSetChannel(_, _, _) =>
      case OpSideTrip(_, _, _) =>
      case _ =>
    }
  }

  /** Nothing is overwritten in a run in which no send meets a full motion ring. */
  lemma {:induction false} NothingOverwritten(c: Config, ops: seq<Op>)
    requires forall n | 0 <= n <= |ops| :: !Run(c, ops[..n]).b.motionOverrun
    ensures Run(c, ops).b.overwritten == STILL
  {
    if ops != [] {
      var before := ops[..|ops| - 1];
      assert ops[..|ops|] == ops;
      forall n | 0 <= n <= |before| ensures !Run(c, before[..n]).b.motionOverrun { assert before[..n] == ops[..n]; }
      NothingOverwritten(c, before);
      NoOverrunKeepsMotion(c, Run(c, before), ops[|ops| - 1]);
    }
  }

  /** A mouse report that carries motion along one axis and no buttons. */
  function Move(dx: int): Payload
    requires Fits16(dx)
  {
    Payload(1, 32, HID_REPORT, REPORT_MOUSE, 0, Motion(dx, 0, 0, 0))
  }

  /** The Kconfig defaults, with the radio library that is in vendor/. */
  const SHIPPED := Config(8, 8, 8, 24, 32, 2, 100, 2, 5, 15, 2, false, false, true, false)

  lemma DirectSend(c: Config, s: State, p: Payload, now: U32, idle: bool)
    requires p.len <= c.maxLen && s.t.quietUntil == 0 && !s.t.sync && !Full(c, s.t)
    ensures Step(c, s, OpSend(p, now, idle)) == Enqueue(c, s, p, now, idle)
  {
  }

  /** A failure that leaves the FIFO as it is, and room in it. */
  lemma KeptFailure(c: Config, s: State, now: U32, idle: bool)
    requires !c.failedLeaves && s.t.fifo != [] && !s.t.sync && !Full(c, s.t)
    ensures Step(c, s, OpFailed(now, idle)) == PopRings(c, s, true, now, idle)
  {
  }

  lemma DirectSuccess(c: Config, s: State, now: U32, idle: bool)
    requires s.t.fifo != [] && !s.t.sync
    ensures Step(c, s, OpSuccess(now, idle)) == PopRings(c, Deliver(s), false, now, idle)
  {
  }

  /** With the library as shipped a failed packet that is acknowledged on its next try has its motion both
      delivered and refunded. */
  lemma KeptPacketCountsTwice(c: Config, s: State, now: U32, later: U32, idle: bool)
    requires ValidConfig(c) && !c.failedLeaves && Lockstep(c, s.t) && !s.t.sync && !Full(c, s.t) && s.t.fifo != []
    ensures var u := Step(c, Step(c, s, OpFailed(now, idle)), OpSuccess(later, idle));
            var m := MotionOf(s.t.fifo[0].payload);
            u.b.delivered == Add(s.b.delivered, m) && u.t.pool == Add(s.t.pool, m) && u.b.submitted == s.b.submitted
  {
    hide Mirrors, Step;
    EventConsumesSlot(c, s.t);
    KeptFailure(c, s, now, idle);
    var f := PopRings(c, s, true, now, idle);
    DirectSuccess(c, f, later, idle);
    assert f.t.pool == Add(s.t.pool, MotionOf(s.t.fifo[0].payload));
  }

  lemma EnqueueMouse(c: Config, s: State, p: Payload, now: U32, idle: bool)
    requires s.t.pool == STILL && s.t.stamp == 0 && Accepts(c, s.t, p) && IsMouse(p)
    ensures var u := Enqueue(c, s, p, now, idle);
            u.t.pool == STILL && |u.t.fifo| == |s.t.fifo| + 1 && u.t.fifo[|s.t.fifo|].payload == p
  {
  }

  lemma EnqueueMouseBooks(c: Config, s: State, p: Payload, now: U32, idle: bool)
    requires s.t.pool == STILL && s.t.stamp == 0 && Writable(c, p) && IsMouse(p)
    ensures var u := Enqueue(c, s, p, now, idle);
            u.b.submitted == Add(s.b.submitted, p.motion) && u.b.delivered == s.b.delivered
  {
  }

  /** A mouse report sent to an idle transport goes out as it is. */
  lemma FirstMove(c: Config, s: State, p: Payload, now: U32)
    requires RingsFit(c) && Lockstep(c, s.t) && s.t.fifo == [] && s.t.quietUntil == 0 && !s.t.sync
    requires s.t.pool == STILL && s.t.stamp == 0 && Accepts(c, s.t, p) && IsMouse(p)
    ensures var u := Step(c, s, OpSend(p, now, true));
            && Lockstep(c, u.t) && !u.t.sync && |u.t.fifo| == 1 && u.t.fifo[0].payload == p && u.t.pool == STILL
            && u.b.submitted == Add(s.b.submitted, p.motion) && u.b.delivered == s.b.delivered
  {
    DirectSend(c, s, p, now, true);
    PushMirrored(c, s.t, p, now, true);
    EnqueueMouse(c, s, p, now, true);
    EnqueueMouseBooks(c, s, p, now, true);
  }

  lemma FirstMoveKnown(c: Config, s: State, p: Payload, now: U32)
    requires RingsFit(c) && Lockstep(c, s.t) && s.t.fifo == [] && s.t.quietUntil == 0 && !s.t.sync && Known(c, s)
    requires Accepts(c, s.t, p) && !s.b.motionOverrun
    ensures var u := Step(c, s, OpSend(p, now, true)); Known(c, u) && Copied(u.b) == Copied(s.b)
  {
    DirectSend(c, s, p, now, true);
    PushLengths(c, s.t, p, Prepare(c, s.t, p, now, true));
    EnqueueCopies(c, s, p, now, true);
    EnqueueLedgered(c, s, p, now, true);
    EnqueueTraced(c, s, p, now, true);
    EnqueuePaired(c, s, p, now, true);
    hide Ledgered, Traced, Paired, Enqueue, Copied;
  }

  /** The delivery of a kept packet leaves its copy. */
  lemma KeptPacketIsCopied(c: Config, s: State, now: U32, later: U32, idle: bool)
    requires RingsFit(c) && !c.failedLeaves && Lockstep(c, s.t) && Known(c, s) && !s.t.sync && !Full(c, s.t) && s.t.fifo != []
    ensures var u := Step(c, Step(c, s, OpFailed(now, idle)), OpSuccess(later, idle));
            Copied(u.b) == Add(Copied(s.b), MotionOf(s.t.fifo[0].payload))
  {
    hide Copied, Ledgered, Traced, Paired, PopRings, Lockstep, Deliver, Aligned, RefoundIn;
    var f := PopRings(c, s, true, now, idle);
    KeptFailure(c, s, now, idle);
    LockstepRefund(c, s, now, idle);
    StepCopies(c, f, OpSuccess(later, idle));
    AddStill(Copied(f.b));
  }

  lemma ShippedFits(c: Config)
    requires c == SHIPPED
    ensures RingsFit(c)
  {
  }

  /** The first slot start leaves everything empty. */
  lemma FirstStart(c: Config)
    requires RingsFit(c)
    ensures var s := Step(c, Reset(c), OpSlotStart(true));
            && Lockstep(c, s.t) && s.t.up && s.t.fifo == [] && s.t.motion.live == [] && s.t.quietUntil == 0 && !s.t.sync
            && s.t.pool == STILL && s.t.stamp == 0 && s.t.inflight == 0 && s.t.count == c.baseCount == Steady(c, s.t)
            && s.b.submitted == STILL && s.b.delivered == STILL && !s.b.refused
            && Known(c, s) && !s.b.motionOverrun && Copied(s.b) == STILL
  {
    AddStill(STILL);
  }

  /** So conservation is false of the library as shipped: ten steps submitted in one report that fails once
      are delivered, and ten more wait in the refund pool for the next report. */
  lemma ShippedLibraryDuplicates(c: Config)
    requires c == SHIPPED
    ensures var s0 := Step(c, Reset(c), OpSlotStart(true));
            var s1 := Step(c, s0, OpSend(Move(10), 1000, true));
            var s2 := Step(c, s1, OpFailed(1000, true));
            var s3 := Step(c, s2, OpSuccess(1002, true));
            && s3.b.submitted.dx == 10 && s3.b.delivered.dx == 10 && s3.t.pool.dx == 10
            && Copied(s3.b).dx == 10
  {
    ShippedFits(c);
    FirstStart(c);
    var s0 := Step(c, Reset(c), OpSlotStart(true));
    FirstMove(c, s0, Move(10), 1000);
    FirstMoveKnown(c, s0, Move(10), 1000);
    KeptPacketCountsTwice(c, Step(c, s0, OpSend(Move(10), 1000, true)), 1000, 1002, true);
    KeptPacketIsCopied(c, Step(c, s0, OpSend(Move(10), 1000, true)), 1000, 1002, true);
  }

  // ----- The refund pool fits its int32_t -----

  /** An axis of the pool is bounded by 2^15 for each refund since the pool was last empty. */
  predicate PoolBounded(s: State, a: Axis) {
    -0x8000 * s.b.refunds <= On(a, s.t.pool) <= 0x8000 * s.b.refunds
  }

  lemma RefundShrinksPool(c: Config, pool: Motion, stamp: U32, m: Deltas, now: U32, n: nat, a: Axis)
    requires -0x8000 * n <= On(a, pool) <= 0x8000 * n
    ensures -0x8000 * n <= On(a, ApplyRefund(c, pool, stamp, m, now).pool) <= 0x8000 * n
  {
  }

  lemma EnqueuePoolBounded(c: Config, s: State, p: Payload, now: U32, idle: bool, a: Axis)
    requires PoolBounded(s, a)
    ensures PoolBounded(Enqueue(c, s, p, now, idle), a)
  {
    RefundShrinksPool(c, s.t.pool, s.t.stamp, p.motion, now, s.b.refunds, a);
  }

  lemma PopPoolBounded(c: Config, s: State, failed: bool, now: U32, idle: bool, a: Axis)
    requires PoolBounded(s, a)
    ensures PoolBounded(PopRings(c, s, failed, now, idle), a)
  {
  }

  lemma SendPoolBounded(c: Config, s: State, p: Payload, now: U32, idle: bool, a: Axis)
    requires PoolBounded(s, a)
    ensures PoolBounded(Send(c, s, p, now, idle), a)
  {
    var awake := s.(t := Awake(s.t));
    match SendVerdict(c, s.t, p, now) {
      case Direct => EnqueuePoolBounded(c, awake, p, now, idle, a);
      case AfterFlush => EnqueuePoolBounded(c, Flush(c, awake, idle), p, now, idle, a);
      case _ =>
    }
  }

  lemma SamePoolBounded(s: State, u: State, a: Axis)
    requires PoolBounded(s, a) && u.t.pool == s.t.pool && u.b.refunds == s.b.refunds
    ensures PoolBounded(u, a)
  {
  }

  lemma EventPoolBounded(c: Config, s: State, op: Op, a: Axis)
    requires PoolBounded(s, a) && (op.OpSuccess? || op.OpFailed?)
    ensures PoolBounded(Step(c, s, op), a)
  {
    hide PopRings, PoolBounded;
    if s.t.fifo != [] {
      if op.OpSuccess? {
        SamePoolBounded(s, Deliver(s), a);
        PopPoolBounded(c, Deliver(s), false, op.now, op.idle, a);
      } else if s.t.sync {
        SamePoolBounded(s, Step(c, s, op), a);
      } else {
        var g := GiveUp(c, s);
        SamePoolBounded(s, g, a);
        PopPoolBounded(c, g, true, op.now, op.idle, a);
        SamePoolBounded(PopRings(c, g, true, op.now, op.idle), Flush(c, PopRings(c, g, true, op.now, op.idle), op.idle), a);
      }
    }
  }

  lemma SetChannelPoolBounded(c: Config, s: State, op: Op, a: Axis)
    requires PoolBounded(s, a) && op.OpSetChannel?
    ensures PoolBounded(Step(c, s, op), a)
  {
    if s.t.configured && Tunes(op.channel, op.idle) {
      assert Step(c, s, op).t.pool == STILL && Step(c, s, op).b.refunds == 0;
    }
  }

  lemma StepPoolBounded(c: Config, s: State, op: Op, a: Axis)
    requires PoolBounded(s, a)
    ensures PoolBounded(Step(c, s, op), a)
  {
    hide Send, TxSuccess, TxFailed, PoolBounded;
    match op {
      case OpSend(p, now, idle) => SendPoolBounded(c, s, p, now, idle, a);
      case OpSuccess(_, _) => EventPoolBounded(c, s, op, a);
      case OpFailed(_, _) => EventPoolBounded(c, s, op, a);
      case OpSetChannel(_, _, _) => SetChannelPoolBounded(c, s, op, a);
      case _ => SamePoolBounded(s, Step(c, s, op), a);
    }
  }

  /** Saturation never makes the pool grow, so the refunds since it was last empty bound it: before 65535 of
      them it cannot leave int32_t, nor can its sum with a report. */
  lemma {:induction false} PoolFits(c: Config, ops: seq<Op>, a: Axis)
    ensures PoolBounded(Run(c, ops), a)
    ensures Run(c, ops).b.refunds < 0xFFFF ==>
              forall m: Deltas :: -0x8000_0000 <= On(a, Run(c, ops).t.pool) + On(a, m) <= 0x7FFF_FFFF
  {
    if ops != [] {
      PoolFits(c, ops[..|ops| - 1], a);
      StepPoolBounded(c, Run(c, ops[..|ops| - 1]), ops[|ops| - 1], a);
    }
  }
}
