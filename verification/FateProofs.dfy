/** What every run of the transport keeps of the ledger: one fate for each packet, and each refund for its own packet. */
module FateProofs {
  import opened Words
  import opened TransportModel
  import opened TransportProofs
  import opened Ledgers
  import R = Rings

  // ----- Numbers and places agree -----

  /** Packets in the FIFO and live slots have their numbers in the ledger. */
  ghost predicate Ledgered(s: State) {
    Sound(s.b.ledger, |s.t.fifo|) && Slotted(s.b.ledger, |s.t.motion.live|)
  }

  lemma SlottedKept(l: Ledger, u: Ledger, n: nat)
    requires Slotted(l, n) && u.slots == l.slots && |u.fates| >= |l.fates|
    ensures Slotted(u, n)
  {
  }

  lemma SoundSlots(l: Ledger, n: nat, slots: seq<nat>)
    requires Sound(l, n)
    ensures Sound(l.(slots := slots), n)
  {
  }

  lemma EnqueuedLedger(c: Config, s: State, p: Payload, now: U32, idle: bool)
    ensures var u, k := Enqueue(c, s, p, now, idle), Prepare(c, s.t, p, now, idle);
            && u.b.ledger == Booked(s.b.ledger, Accepts(c, s.t, p), k.refund.out, |s.t.motion.live| + 1 == 0x1_0000_0000)
            && |u.t.fifo| == |s.t.fifo| + (if Accepts(c, s.t, p) then 1 else 0)
            && |u.t.motion.live| == if |s.t.motion.live| + 1 == 0x1_0000_0000 then 0 else |s.t.motion.live| + 1
  {
    hide Prepare, Booked;
  }

  lemma BookedSlotted(l: Ledger, n: nat, written: bool, out: Motion, wraps: bool)
    requires Slotted(l, n)
    ensures Slotted(Booked(l, written, out, wraps), if wraps then 0 else n + 1)
  {
  }

  lemma EnqueueLedgered(c: Config, s: State, p: Payload, now: U32, idle: bool)
    requires Ledgered(s)
    ensures Ledgered(Enqueue(c, s, p, now, idle))
  {
    var l, wraps := s.b.ledger, |s.t.motion.live| + 1 == 0x1_0000_0000;
    var out := Prepare(c, s.t, p, now, idle).refund.out;
    EnqueuedLedger(c, s, p, now, idle);
    BookedSound(l, |s.t.fifo|, Accepts(c, s.t, p), out, wraps);
    BookedSlotted(l, |s.t.motion.live|, Accepts(c, s.t, p), out, wraps);
    hide Sound, Slotted, Prepare, Enqueue, Booked;
  }

  lemma FlushLedgered(c: Config, s: State, idle: bool)
    requires Ledgered(s)
    ensures Ledgered(Flush(c, s, idle))
  {
    EmptiedSound(s.b.ledger, s.t.fifo);
    SoundSlots(Emptied(s.b.ledger, s.t.fifo), 0, []);
    hide Sound, Emptied;
  }

  lemma SendLedgered(c: Config, s: State, p: Payload, now: U32, idle: bool)
    requires Ledgered(s)
    ensures Ledgered(Send(c, s, p, now, idle))
  {
    hide Sound, Slotted, Enqueue, Flush;
    var awake := s.(t := Awake(s.t));
    match SendVerdict(c, s.t, p, now) {
      case Direct => EnqueueLedgered(c, awake, p, now, idle);
      case AfterFlush =>
        FlushLedgered(c, awake, idle);
        EnqueueLedgered(c, Flush(c, awake, idle), p, now, idle);
      case _ =>
    }
  }

  lemma DeliverLedgered(s: State)
    requires Ledgered(s) && s.t.fifo != []
    ensures Ledgered(Deliver(s))
  {
    LandedSound(s.b.ledger, |s.t.fifo|);
    SlottedKept(s.b.ledger, Landed(s.b.ledger), |s.t.motion.live|);
    hide Sound, Slotted, Landed;
  }

  lemma GiveUpLedgered(c: Config, s: State)
    requires Ledgered(s) && s.t.fifo != []
    ensures Ledgered(GiveUp(c, s))
  {
    var m := MotionOf(s.t.fifo[0].payload);
    ShedSound(s.b.ledger, |s.t.fifo|, m);
    SlottedKept(s.b.ledger, Shed(s.b.ledger, m), |s.t.motion.live|);
    hide Sound, Slotted, Shed;
  }

  /** The ledger after the refund, before the slot is gone. */
  function Refunded(c: Config, s: State, failed: bool): Ledger {
    var m := NextSlot(s.t).motion;
    if failed && m != STILL then Credited(s.b.ledger, PoppedId(c, s.t, s.b.ledger), m) else s.b.ledger
  }

  lemma PoppedLedger(c: Config, s: State, failed: bool, now: U32, idle: bool)
    ensures var u := PopRings(c, s, failed, now, idle);
            && u.b.ledger == SlotsPopped(Refunded(c, s, failed)) && u.t.fifo == s.t.fifo
            && u.t.motion == R.Popped(0x1_0000_0000, s.t.motion)
  {
  }

  lemma SlotsPoppedLedgered(l: Ledger, n: nat, k: nat)
    requires Sound(l, n) && Slotted(l, k)
    ensures Sound(SlotsPopped(l), n) && Slotted(SlotsPopped(l), if k == 0 then 0 else k - 1)
  {
  }

  lemma RefundedLedgered(c: Config, s: State, failed: bool)
    requires Ledgered(s)
    ensures Sound(Refunded(c, s, failed), |s.t.fifo|) && Slotted(Refunded(c, s, failed), |s.t.motion.live|)
  {
    var l, id, m := s.b.ledger, PoppedId(c, s.t, s.b.ledger), NextSlot(s.t).motion;
    CreditedSound(l, |s.t.fifo|, id, m);
    SlottedKept(l, Credited(l, id, m), |s.t.motion.live|);
    hide Sound, Slotted, Credited, PoppedId;
  }

  lemma PopLedgered(c: Config, s: State, failed: bool, now: U32, idle: bool)
    requires Ledgered(s)
    ensures Ledgered(PopRings(c, s, failed, now, idle))
  {
    var v := Refunded(c, s, failed);
    RefundedLedgered(c, s, failed);
    SlotsPoppedLedgered(v, |s.t.fifo|, |s.t.motion.live|);
    PoppedLedger(c, s, failed, now, idle);
    hide Sound, Slotted, Refunded, SlotsPopped, PopRings;
  }

  lemma EventLedgered(c: Config, s: State, op: Op)
    requires Ledgered(s) && (op.OpSuccess? || op.OpFailed?)
    ensures Ledgered(Step(c, s, op))
  {
    hide Ledgered, PopRings, Deliver, GiveUp, Flush;
    if s.t.fifo != [] {
      if op.OpSuccess? {
        DeliverLedgered(s);
        PopLedgered(c, Deliver(s), false, op.now, op.idle);
      } else if s.t.sync {
        AwakeLedgered(s, s.(t := s.t.(sync := false)));
        FlushLedgered(c, s.(t := s.t.(sync := false)), op.idle);
      } else {
        GiveUpLedgered(c, s);
        PopLedgered(c, GiveUp(c, s), true, op.now, op.idle);
        FlushLedgered(c, PopRings(c, GiveUp(c, s), true, op.now, op.idle), op.idle);
      }
    }
  }

  lemma AwakeLedgered(s: State, u: State)
    requires Ledgered(s) && u.t.fifo == s.t.fifo && u.t.motion == s.t.motion && u.b.ledger == s.b.ledger
    ensures Ledgered(u)
  {
  }

  lemma SideTripLedgered(c: Config, s: State, channel: nat, p: Payload, idle: bool)
    requires Ledgered(s)
    ensures Ledgered(SideTrip(c, s, channel, p, idle))
  {
    var f := Flush(c, s, idle);
    FlushLedgered(c, s, idle);
    VisitingSound(f.b.ledger, 0);
    SlottedKept(f.b.ledger, Visiting(f.b.ledger), 0);
    hide Sound, Slotted, Visiting, Emptied;
  }

  lemma SetChannelLedgered(c: Config, s: State, channel: nat, now: U32, idle: bool)
    requires Ledgered(s)
    ensures Ledgered(SetChannel(c, s, channel, now, idle))
  {
    FlushLedgered(c, s, idle);
    hide Sound, Slotted, Emptied;
  }

  lemma SlotLedgered(c: Config, s: State, ok: bool)
    requires Ledgered(s)
    ensures Ledgered(SlotStart(c, s, ok)) && Ledgered(SlotStop(s))
  {
    EmptiedSound(s.b.ledger, s.t.fifo);
    SlottedKept(s.b.ledger, Emptied(s.b.ledger, s.t.fifo), |s.t.motion.live|);
    hide Sound, Slotted, Emptied;
  }

  lemma StepLedgered(c: Config, s: State, op: Op)
    requires Ledgered(s)
    ensures Ledgered(Step(c, s, op))
  {
    hide Ledgered, Send, TxSuccess, TxFailed, Flush, SetChannel, SideTrip, SlotStart, SlotStop;
    match op {
      case OpSend(p, now, idle) => SendLedgered(c, s, p, now, idle);
      case OpSuccess(_, _) => EventLedgered(c, s, op);
      case OpFailed(_, _) => EventLedgered(c, s, op);
      case OpFlush(idle) => FlushLedgered(c, s, idle);
      case OpSetChannel(channel, now, idle) => SetChannelLedgered(c, s, channel, now, idle);
      case OpSideTrip(channel, p, idle) => SideTripLedgered(c, s, channel, p, idle);
      case OpSlotStart(ok) => SlotLedgered(c, s, ok);
      case OpSlotStop => SlotLedgered(c, s, true);
      case _ => AwakeLedgered(s, Step(c, s, op));
    }
  }

  /** In every run: the packets in the FIFO are exactly those that wait, each once and in order, and every live slot of the
      motion ring has the number of the packet it was pushed for. */
  lemma {:induction false} OneFateEach(c: Config, ops: seq<Op>)
    ensures Ledgered(Run(c, ops))
  {
    if ops != [] {
      OneFateEach(c, ops[..|ops| - 1]);
      StepLedgered(c, Run(c, ops[..|ops| - 1]), ops[|ops| - 1]);
    }
  }

  // ----- Fates are final -----

  /** What the fate of a packet may become; it is delivered only if it `lands` now. */
  predicate Becomes(f: Fate, g: Fate, lands: bool) {
    match f
    case Waiting(_) => g.Arrived? ==> lands
    case Arrived => g.Arrived?
    case Gone(missing) => g == Gone(missing) || g == Gone(STILL)
  }

  /** No packet is forgotten, each fate becomes what it may, and no other packets than `landed` are delivered. */
  ghost predicate Follows(l: Ledger, u: Ledger, landed: set<nat>) {
    && |l.fates| <= |u.fates|
    && (forall id | 0 <= id < |l.fates| :: Becomes(l.fates[id], u.fates[id], id in landed))
    && (forall id | |l.fates| <= id < |u.fates| :: !u.fates[id].Arrived?)
  }

  lemma FollowsTwice(l: Ledger, v: Ledger, u: Ledger, landed: set<nat>)
    requires Follows(l, v, landed) && Follows(v, u, {})
    ensures Follows(l, u, landed)
  {
    forall id | 0 <= id < |l.fates|
      ensures Becomes(l.fates[id], u.fates[id], id in landed)
    {
      assert Becomes(l.fates[id], v.fates[id], id in landed) && Becomes(v.fates[id], u.fates[id], false);
    }
    forall id | |l.fates| <= id < |u.fates|
      ensures !u.fates[id].Arrived?
    {
      if id < |v.fates| {
        assert !v.fates[id].Arrived? && Becomes(v.fates[id], u.fates[id], false);
      }
    }
  }

  lemma SameFollows(l: Ledger, u: Ledger, landed: set<nat>)
    requires u.fates == l.fates
    ensures Follows(l, u, landed)
  {
  }

  lemma BookedFollows(l: Ledger, written: bool, out: Motion, wraps: bool)
    ensures Follows(l, Booked(l, written, out, wraps), {}) && Follows(l, Visiting(l), {})
  {
  }

  lemma LandedFollows(l: Ledger, n: nat)
    requires Sound(l, n) && 0 < n
    ensures Follows(l, Landed(l), {l.queue[0]}) && Landed(l).fates[l.queue[0]] == Arrived
  {
  }

  lemma ShedFollows(l: Ledger, n: nat, m: Motion)
    requires Sound(l, n) && 0 < n
    ensures Follows(l, Shed(l, m), {})
  {
  }

  lemma {:induction false} EmptiedFollows(l: Ledger, fifo: seq<Packet>)
    requires Sound(l, |fifo|)
    ensures Follows(l, Emptied(l, fifo), {})
    decreases |fifo|
  {
    if fifo == [] {
      SameFollows(l, l, {});
    } else {
      var v := Shed(l, MotionOf(fifo[0].payload));
      ShedSound(l, |fifo|, MotionOf(fifo[0].payload));
      ShedFollows(l, |fifo|, MotionOf(fifo[0].payload));
      EmptiedFollows(v, fifo[1..]);
      hide Follows, Shed, Sound;
      FollowsTwice(l, v, Emptied(v, fifo[1..]), {});
    }
  }

  lemma CreditedFollows(l: Ledger, id: nat, m: Motion)
    ensures Follows(l, Credited(l, id, m), {})
  {
  }

  lemma PopFollows(c: Config, s: State, failed: bool, now: U32, idle: bool)
    ensures Follows(s.b.ledger, PopRings(c, s, failed, now, idle).b.ledger, {})
  {
    var l, id := s.b.ledger, PoppedId(c, s.t, s.b.ledger);
    PoppedLedger(c, s, failed, now, idle);
    CreditedFollows(l, id, NextSlot(s.t).motion);
    SameFollows(l, l, {});
    hide Credited, PoppedId, PopRings;
  }

  lemma FlushFollows(c: Config, s: State, idle: bool)
    requires Ledgered(s)
    ensures Follows(s.b.ledger, Flush(c, s, idle).b.ledger, {})
  {
    EmptiedFollows(s.b.ledger, s.t.fifo);
    hide Emptied;
  }

  lemma EnqueueFollows(c: Config, s: State, p: Payload, now: U32, idle: bool)
    ensures Follows(s.b.ledger, Enqueue(c, s, p, now, idle).b.ledger, {})
  {
    var out := Prepare(c, s.t, p, now, idle).refund.out;
    BookedFollows(s.b.ledger, Accepts(c, s.t, p), out, |s.t.motion.live| + 1 == 0x1_0000_0000);
    hide Prepare, Follows;
  }

  lemma SendFollows(c: Config, s: State, p: Payload, now: U32, idle: bool)
    requires Ledgered(s)
    ensures Follows(s.b.ledger, Send(c, s, p, now, idle).b.ledger, {})
  {
    var awake := s.(t := Awake(s.t));
    SameFollows(s.b.ledger, s.b.ledger, {});
    hide Follows, Enqueue, Flush;
    match SendVerdict(c, s.t, p, now) {
      case Direct => EnqueueFollows(c, awake, p, now, idle);
      case AfterFlush =>
        var f := Flush(c, awake, idle);
        AwakeLedgered(s, awake);
        FlushFollows(c, awake, idle);
        EnqueueFollows(c, f, p, now, idle);
        FollowsTwice(s.b.ledger, f.b.ledger, Enqueue(c, f, p, now, idle).b.ledger, {});
      case _ =>
    }
  }

  /** What a step may deliver: the front packet, by a success. */
  function LandedBy(s: State, op: Op): set<nat> {
    if op.OpSuccess? && s.b.ledger.queue != [] then {s.b.ledger.queue[0]} else {}
  }

  lemma SuccessFates(c: Config, s: State, now: U32, idle: bool)
    requires s.t.fifo != []
    ensures TxSuccess(c, s, now, idle).b.ledger.fates == Landed(s.b.ledger).fates
  {
    PoppedLedger(c, Deliver(s), false, now, idle);
    hide PopRings, Landed;
  }

  lemma SuccessFollows(c: Config, s: State, op: Op)
    requires Ledgered(s) && op.OpSuccess?
    ensures Follows(s.b.ledger, Step(c, s, op).b.ledger, LandedBy(s, op))
    ensures s.t.fifo != [] ==> FateOf(Step(c, s, op).b.ledger, s.b.ledger.queue[0]) == Arrived
  {
    SameFollows(s.b.ledger, s.b.ledger, LandedBy(s, op));
    if s.t.fifo != [] {
      LandedFollows(s.b.ledger, |s.t.fifo|);
      SuccessFates(c, s, op.now, op.idle);
    }
    hide TxSuccess, Landed, Sound, Slotted;
  }

  lemma RefundFollows(c: Config, s: State, now: U32, idle: bool)
    requires Ledgered(s) && s.t.fifo != []
    ensures Follows(s.b.ledger, PopRings(c, GiveUp(c, s), true, now, idle).b.ledger, {})
  {
    var g := GiveUp(c, s);
    SameFollows(s.b.ledger, s.b.ledger, {});
    ShedFollows(s.b.ledger, |s.t.fifo|, MotionOf(s.t.fifo[0].payload));
    PopFollows(c, g, true, now, idle);
    hide Follows, PopRings, Shed;
    FollowsTwice(s.b.ledger, g.b.ledger, PopRings(c, g, true, now, idle).b.ledger, {});
  }

  lemma FailureFollows(c: Config, s: State, now: U32, idle: bool)
    requires Ledgered(s)
    ensures Follows(s.b.ledger, TxFailed(c, s, now, idle).b.ledger, {})
  {
    SameFollows(s.b.ledger, s.b.ledger, {});
    hide Follows, PopRings, GiveUp, Flush, Ledgered;
    if s.t.fifo != [] {
      if s.t.sync {
        AwakeLedgered(s, s.(t := s.t.(sync := false)));
        FlushFollows(c, s.(t := s.t.(sync := false)), idle);
      } else {
        var r := PopRings(c, GiveUp(c, s), true, now, idle);
        GiveUpLedgered(c, s);
        PopLedgered(c, GiveUp(c, s), true, now, idle);
        RefundFollows(c, s, now, idle);
        FlushFollows(c, r, idle);
        FollowsTwice(s.b.ledger, r.b.ledger, Flush(c, r, idle).b.ledger, {});
      }
    }
  }

  lemma SideTripFollows(c: Config, s: State, channel: nat, p: Payload, idle: bool)
    requires Ledgered(s)
    ensures Follows(s.b.ledger, SideTrip(c, s, channel, p, idle).b.ledger, {})
  {
    var f := Flush(c, s, idle).b.ledger;
    SameFollows(s.b.ledger, s.b.ledger, {});
    FlushFollows(c, s, idle);
    BookedFollows(f, true, STILL, false);
    FollowsTwice(s.b.ledger, f, Visiting(f), {});
    hide Follows, Visiting, Flush;
  }

  lemma OtherFollows(c: Config, s: State, op: Op)
    requires Ledgered(s) && !op.OpSend? && !op.OpSuccess? && !op.OpFailed? && !op.OpSideTrip?
    ensures Follows(s.b.ledger, Step(c, s, op).b.ledger, {})
  {
    SameFollows(s.b.ledger, s.b.ledger, {});
    EmptiedFollows(s.b.ledger, s.t.fifo);
    hide Follows, Emptied;
    match op {
      case OpFlush(idle) => FlushFollows(c, s, idle);
      case OpSetChannel(_, _, idle) => FlushFollows(c, s, idle);
      case OpSlotStart(_) =>
      case OpSlotStop =>
      case _ =>
    }
  }

  /** Only a success delivers a packet, and only the front one. A packet once delivered stays delivered, one that left
      undelivered stays so, and what is missing of it is found again all at once or not at all. */
  lemma FatesAreFinal(c: Config, s: State, op: Op)
    requires Ledgered(s)
    ensures Follows(s.b.ledger, Step(c, s, op).b.ledger, LandedBy(s, op))
    ensures op.OpSuccess? && s.t.fifo != [] ==> FateOf(Step(c, s, op).b.ledger, s.b.ledger.queue[0]) == Arrived
  {
    hide Follows, Ledgered, Send, TxSuccess, TxFailed, SideTrip, FateOf;
    match op {
      case OpSend(p, now, idle) => SendFollows(c, s, p, now, idle);
      case OpSuccess(_, _) => SuccessFollows(c, s, op);
      case OpFailed(now, idle) => FailureFollows(c, s, now, idle);
      case OpSideTrip(channel, p, idle) => SideTripFollows(c, s, channel, p, idle);
      case _ => OtherFollows(c, s, op);
    }
  }
}
