/** Whom a refund is for: as long as the motion ring has not overrun, each event pops what its own packet wrote. */
module RefundProofs {
  import opened Words
  import opened TransportModel
  import opened TransportProofs
  import opened Ledgers
  import opened FateProofs
  import R = Rings

  // ----- Live slots apart -----

  /** No two live entries share an array slot. */
  ghost predicate Apart(c: Config, w: R.Window<Slot>) {
    forall i, j | 0 <= i < j < |w.live| ::
      R.SlotOf(0x1_0000_0000, c.motionSize, w.tail, i) != R.SlotOf(0x1_0000_0000, c.motionSize, w.tail, j)
  }

  lemma PushedApart(c: Config, w: R.Window<Slot>, x: Slot)
    requires Apart(c, w) && R.HasRoom(0x1_0000_0000, c.motionSize, w)
    ensures Apart(c, R.Pushed(0x1_0000_0000, c.motionSize, w, x))
  {
  }

  lemma PoppedApart(c: Config, w: R.Window<Slot>)
    requires Apart(c, w)
    ensures Apart(c, R.Popped(0x1_0000_0000, w))
  {
    var u := R.Popped(0x1_0000_0000, w);
    forall i, j | 0 <= i < j < |u.live|
      ensures R.SlotOf(0x1_0000_0000, c.motionSize, u.tail, i) != R.SlotOf(0x1_0000_0000, c.motionSize, u.tail, j)
    {
      R.AdvanceTwice(0x1_0000_0000, w.tail, 1, i);
      R.AdvanceTwice(0x1_0000_0000, w.tail, 1, j);
      assert R.SlotOf(0x1_0000_0000, c.motionSize, w.tail, 1 + i)
             != R.SlotOf(0x1_0000_0000, c.motionSize, w.tail, 1 + j);
    }
  }

  /** Then an event pops what its own packet wrote. */
  lemma PoppedIsOldest(c: Config, t: Transport, l: Ledger)
    requires Apart(c, t.motion) && |l.slots| == |t.motion.live| && t.motion.live != []
    ensures PoppedId(c, t, l) == l.slots[0]
  {
    R.WriterIsOldest(0x1_0000_0000, c.motionSize, t.motion.tail, |t.motion.live|);
  }

  // ----- Slots and fates agree -----

  /** A live slot tells the truth about its packet: if it waits it was not refunded, and if it left undelivered all the
      motion in the slot is missing. Of one that was delivered there is nothing to tell. */
  predicate Tells(f: Fate, m: Motion) {
    match f
    case Waiting(again) => again == STILL
    case Arrived => true
    case Gone(missing) => missing == m
  }

  ghost predicate Truthful(l: Ledger, live: seq<Slot>)
    requires |l.slots| == |live|
  {
    forall j | 0 <= j < |live| :: Tells(FateOf(l, l.slots[j]), live[j].motion)
  }

  /** Live slots hold the motion of their packets. */
  ghost predicate Matching(l: Ledger, fifo: seq<Packet>, live: seq<Slot>)
    requires |l.slots| == |live| && |l.queue| == |fifo|
  {
    forall i, j | 0 <= i < |fifo| && 0 <= j < |live| ::
      l.queue[i] == l.slots[j] ==> MotionOf(fifo[i].payload) == live[j].motion
  }

  /** No packet in the FIFO was refunded more than once. */
  ghost predicate OnceEach(l: Ledger, fifo: seq<Packet>)
    requires |l.queue| == |fifo|
  {
    forall i | 0 <= i < |fifo| ::
      AgainOf(FateOf(l, l.queue[i])) == STILL || AgainOf(FateOf(l, l.queue[i])) == MotionOf(fifo[i].payload)
  }

  ghost predicate Traces(l: Ledger, fifo: seq<Packet>, live: seq<Slot>) {
    && |l.slots| == |live| && |l.queue| == |fifo|
    && Truthful(l, live) && Matching(l, fifo, live) && OnceEach(l, fifo)
  }

  /** What was booked before stays as it is. */
  lemma BookedBefore(l: Ledger, n: nat, m: nat, written: bool, out: Motion)
    requires Sound(l, n) && Slotted(l, m)
    ensures var u := Booked(l, written, out, false);
            && |u.slots| == m + 1 && u.slots[m] == |l.fates|
            && (forall j | 0 <= j < m :: u.slots[j] == l.slots[j] != |l.fates|)
            && |u.queue| == (if written then n + 1 else n) && (written ==> u.queue[n] == |l.fates|)
            && (forall i | 0 <= i < n :: u.queue[i] == l.queue[i] != |l.fates|)
            && FateOf(u, |l.fates|) == if written then Waiting(STILL) else Gone(out)
  {
  }

  lemma BookedFate(l: Ledger, written: bool, out: Motion, id: nat)
    requires id < |l.fates|
    ensures FateOf(Booked(l, written, out, false), id) == FateOf(l, id)
  {
  }

  lemma BookedTruthful(l: Ledger, n: nat, live: seq<Slot>, written: bool, x: Slot)
    requires Sound(l, n) && Slotted(l, |live|) && Truthful(l, live)
    ensures var u := Booked(l, written, x.motion, false); |u.slots| == |live| + 1 && Truthful(u, live + [x])
  {
    var u := Booked(l, written, x.motion, false);
    BookedBefore(l, n, |live|, written, x.motion);
    forall j | 0 <= j <= |live|
      ensures Tells(FateOf(u, u.slots[j]), (live + [x])[j].motion)
    {
      if j < |live| {
        assert Tells(FateOf(l, l.slots[j]), live[j].motion);
        BookedFate(l, written, x.motion, l.slots[j]);
      }
    }
  }

  lemma BookedMatching(l: Ledger, fifo: seq<Packet>, live: seq<Slot>, written: bool, k: Packet, x: Slot)
    requires Sound(l, |fifo|) && Slotted(l, |live|) && Matching(l, fifo, live) && MotionOf(k.payload) == x.motion
    ensures var u, more := Booked(l, written, x.motion, false), if written then fifo + [k] else fifo;
            |u.slots| == |live| + 1 && |u.queue| == |more| && Matching(u, more, live + [x])
  {
    var u, more := Booked(l, written, x.motion, false), if written then fifo + [k] else fifo;
    BookedBefore(l, |fifo|, |live|, written, x.motion);
    forall i, j | 0 <= i < |more| && 0 <= j <= |live| && u.queue[i] == u.slots[j]
      ensures MotionOf(more[i].payload) == (live + [x])[j].motion
    {
      if i < |fifo| && j < |live| {
        assert l.queue[i] == l.slots[j];
      }
    }
  }

  lemma BookedOnceEach(l: Ledger, fifo: seq<Packet>, m: nat, written: bool, k: Packet, x: Slot)
    requires Sound(l, |fifo|) && Slotted(l, m) && OnceEach(l, fifo)
    ensures var u, more := Booked(l, written, x.motion, false), if written then fifo + [k] else fifo;
            |u.queue| == |more| && OnceEach(u, more)
  {
    var u, more := Booked(l, written, x.motion, false), if written then fifo + [k] else fifo;
    BookedBefore(l, |fifo|, m, written, x.motion);
    forall i | 0 <= i < |more|
      ensures AgainOf(FateOf(u, u.queue[i])) == STILL || AgainOf(FateOf(u, u.queue[i])) == MotionOf(more[i].payload)
    {
      if i < |fifo| {
        assert AgainOf(FateOf(l, l.queue[i])) == STILL || AgainOf(FateOf(l, l.queue[i])) == MotionOf(fifo[i].payload);
        BookedFate(l, written, x.motion, l.queue[i]);
      }
    }
  }

  lemma BookedTraces(l: Ledger, fifo: seq<Packet>, live: seq<Slot>, written: bool, k: Packet, x: Slot)
    requires Sound(l, |fifo|) && Slotted(l, |live|) && Traces(l, fifo, live) && MotionOf(k.payload) == x.motion
    ensures Traces(Booked(l, written, x.motion, false), if written then fifo + [k] else fifo, live + [x])
  {
    hide Truthful, Matching, OnceEach, Sound, Slotted, Booked;
    BookedTruthful(l, |fifo|, live, written, x);
    BookedMatching(l, fifo, live, written, k, x);
    BookedOnceEach(l, fifo, |live|, written, k, x);
  }

  /** The front packet gets its final fate, as its slot, if it is live, tells. */
  lemma FrontTraces(l: Ledger, u: Ledger, fifo: seq<Packet>, live: seq<Slot>, f: Fate)
    requires Sound(l, |fifo|) && Traces(l, fifo, live) && fifo != [] && !f.Waiting? && u.slots == l.slots
    requires u.queue == l.queue[1..] && u.fates == l.fates[l.queue[0] := f]
    requires FateOf(l, l.queue[0]) == Waiting(STILL) ==> Tells(f, MotionOf(fifo[0].payload))
    ensures Traces(u, fifo[1..], live)
  {
    forall j | 0 <= j < |live|
      ensures Tells(FateOf(u, u.slots[j]), live[j].motion)
    {
      assert Tells(FateOf(l, l.slots[j]), live[j].motion);
      assert l.queue[0] == l.slots[j] ==> MotionOf(fifo[0].payload) == live[j].motion;
    }
    forall i, j | 0 <= i < |fifo[1..]| && 0 <= j < |live| && u.queue[i] == u.slots[j]
      ensures MotionOf(fifo[1..][i].payload) == live[j].motion
    {
      assert l.queue[i + 1] == l.slots[j];
    }
    forall i | 0 <= i < |fifo[1..]|
      ensures AgainOf(FateOf(u, u.queue[i])) == STILL || AgainOf(FateOf(u, u.queue[i])) == MotionOf(fifo[1..][i].payload)
    {
      assert l.queue[0] < l.queue[i + 1];
      assert AgainOf(FateOf(l, l.queue[i + 1])) == STILL || AgainOf(FateOf(l, l.queue[i + 1])) == MotionOf(fifo[i + 1].payload);
    }
  }

  lemma LandedTraces(l: Ledger, fifo: seq<Packet>, live: seq<Slot>)
    requires Sound(l, |fifo|) && Traces(l, fifo, live) && fifo != []
    ensures Traces(Landed(l), fifo[1..], live)
  {
    FrontTraces(l, Landed(l), fifo, live, Arrived);
    hide Traces;
  }

  lemma ShedTraces(l: Ledger, fifo: seq<Packet>, live: seq<Slot>)
    requires Sound(l, |fifo|) && Traces(l, fifo, live) && fifo != []
    ensures Traces(Shed(l, MotionOf(fifo[0].payload)), fifo[1..], live)
  {
    var u := Shed(l, MotionOf(fifo[0].payload));
    FrontTraces(l, u, fifo, live, u.fates[l.queue[0]]);
    hide Traces;
  }

  lemma {:induction false} EmptiedTraces(l: Ledger, fifo: seq<Packet>, live: seq<Slot>)
    requires Sound(l, |fifo|) && Slotted(l, |live|) && Traces(l, fifo, live)
    ensures Traces(Emptied(l, fifo), [], live)
    decreases |fifo|
  {
    if fifo != [] {
      var m := MotionOf(fifo[0].payload);
      ShedSound(l, |fifo|, m);
      SlottedKept(l, Shed(l, m), |live|);
      ShedTraces(l, fifo, live);
      EmptiedTraces(Shed(l, m), fifo[1..], live);
    }
  }

  lemma RefundTraces(l: Ledger, fifo: seq<Packet>, live: seq<Slot>)
    requires Sound(l, |fifo|) && Slotted(l, |live|) && Traces(l, fifo, live) && live != []
    ensures Traces(SlotsPopped(Credited(l, l.slots[0], live[0].motion)), fifo, live[1..])
  {
    assert forall j | 0 < j < |live| :: l.slots[0] < l.slots[j];
  }

  lemma PassTraces(l: Ledger, fifo: seq<Packet>, live: seq<Slot>)
    requires Traces(l, fifo, live)
    ensures Traces(SlotsPopped(l), fifo, if live == [] then [] else live[1..])
  {
  }

  lemma VisitingTraces(l: Ledger, k: Packet)
    requires Sound(l, 0) && l.slots == []
    ensures Traces(Visiting(l), [k], [])
  {
  }

  ghost predicate Traced(c: Config, s: State) {
    Apart(c, s.t.motion) && Traces(s.b.ledger, s.t.fifo, s.t.motion.live)
  }

  ghost predicate Traceable(c: Config, s: State) {
    Ledgered(s) && (!s.b.motionOverrun ==> Traced(c, s))
  }

  lemma EnqueueTraced(c: Config, s: State, p: Payload, now: U32, idle: bool)
    requires Ledgered(s) && Traced(c, s) && !Enqueue(c, s, p, now, idle).b.motionOverrun
    ensures Traced(c, Enqueue(c, s, p, now, idle))
  {
    var k := Prepare(c, s.t, p, now, idle);
    var slot := Slot(k.refund.out, k.pointer);
    var packet := Packet(p.(motion := k.refund.out), k.noack, k.critical, k.pointer);
    PushedApart(c, s.t.motion, slot);
    R.PushedWithRoom(0x1_0000_0000, c.motionSize, s.t.motion, slot);
    BookedTraces(s.b.ledger, s.t.fifo, s.t.motion.live, Accepts(c, s.t, p), packet, slot);
    hide Apart, Traces, Sound, Slotted, Booked;
  }

  lemma FlushTraced(c: Config, s: State, idle: bool)
    requires Ledgered(s)
    ensures Traced(c, Flush(c, s, idle))
  {
    EmptiedSound(s.b.ledger, s.t.fifo);
    hide Emptied;
  }

  lemma SendTraced(c: Config, s: State, p: Payload, now: U32, idle: bool)
    requires Traceable(c, s) && !Send(c, s, p, now, idle).b.motionOverrun
    ensures Traced(c, Send(c, s, p, now, idle))
  {
    var awake := s.(t := Awake(s.t));
    hide Enqueue, Flush, Apart, Traces, Sound, Slotted;
    match SendVerdict(c, s.t, p, now) {
      case Direct =>
        EnqueueOverruns(c, awake, p, now, idle);
        EnqueueTraced(c, awake, p, now, idle);
      case AfterFlush =>
        FlushLedgered(c, awake, idle);
        FlushTraced(c, awake, idle);
        EnqueueTraced(c, Flush(c, awake, idle), p, now, idle);
      case _ =>
    }
  }

  lemma EnqueueOverruns(c: Config, s: State, p: Payload, now: U32, idle: bool)
    ensures s.b.motionOverrun ==> Enqueue(c, s, p, now, idle).b.motionOverrun
  {
  }

  lemma FrontTraced(c: Config, s: State)
    requires Ledgered(s) && Traced(c, s) && s.t.fifo != []
    ensures Traced(c, Deliver(s)) && Traced(c, GiveUp(c, s))
  {
    LandedTraces(s.b.ledger, s.t.fifo, s.t.motion.live);
    ShedTraces(s.b.ledger, s.t.fifo, s.t.motion.live);
    hide Apart, Traces, Landed, Shed;
  }

  lemma PopTraced(c: Config, s: State, failed: bool, now: U32, idle: bool)
    requires Ledgered(s) && Traced(c, s)
    ensures Traced(c, PopRings(c, s, failed, now, idle))
  {
    var l, live := s.b.ledger, s.t.motion.live;
    PoppedLedger(c, s, failed, now, idle);
    PoppedApart(c, s.t.motion);
    PassTraces(l, s.t.fifo, live);
    if live != [] {
      PoppedIsOldest(c, s.t, l);
      RefundTraces(l, s.t.fifo, live);
    }
    hide Apart, Traces, PopRings, SlotsPopped, Credited, PoppedId;
  }

  lemma PopKeepsOverrun(c: Config, s: State, failed: bool, now: U32, idle: bool)
    ensures PopRings(c, s, failed, now, idle).b.motionOverrun == s.b.motionOverrun
  {
  }

  lemma SuccessTraced(c: Config, s: State, now: U32, idle: bool)
    requires Traceable(c, s) && !TxSuccess(c, s, now, idle).b.motionOverrun
    ensures Traced(c, TxSuccess(c, s, now, idle))
  {
    if s.t.fifo != [] {
      var d := Deliver(s);
      PopKeepsOverrun(c, d, false, now, idle);
      FrontTraced(c, s);
      DeliverLedgered(s);
      PopTraced(c, d, false, now, idle);
      hide Ledgered, Traced, PopRings;
    }
  }

  lemma FailureTraced(c: Config, s: State, now: U32, idle: bool)
    requires Traceable(c, s) && !TxFailed(c, s, now, idle).b.motionOverrun
    ensures Traced(c, TxFailed(c, s, now, idle))
  {
    hide Ledgered, Traced, PopRings, GiveUp, Flush;
    if s.t.fifo != [] {
      if s.t.sync {
        var v := s.(t := s.t.(sync := false));
        AwakeLedgered(s, v);
        FlushTraced(c, v, idle);
      } else {
        KeptFailureTraced(c, s, now, idle);
      }
    }
  }

  lemma KeptFailureTraced(c: Config, s: State, now: U32, idle: bool)
    requires Traceable(c, s) && !TxFailed(c, s, now, idle).b.motionOverrun && s.t.fifo != [] && !s.t.sync
    ensures Traced(c, TxFailed(c, s, now, idle))
  {
    var g := GiveUp(c, s);
    var r := PopRings(c, g, true, now, idle);
    GiveUpLedgered(c, s);
    PopLedgered(c, g, true, now, idle);
    PopKeepsOverrun(c, g, true, now, idle);
    FlushTraced(c, r, idle);
    if !s.b.motionOverrun {
      FrontTraced(c, s);
      PopTraced(c, g, true, now, idle);
    }
    assert g.b.motionOverrun == s.b.motionOverrun;
    hide Ledgered, Traced, PopRings, GiveUp, Flush;
  }

  lemma SideTripTraced(c: Config, s: State, channel: nat, p: Payload, idle: bool)
    requires Traceable(c, s) && !SideTrip(c, s, channel, p, idle).b.motionOverrun
    ensures Traced(c, SideTrip(c, s, channel, p, idle))
  {
    var f := Flush(c, s, idle);
    FlushTraced(c, s, idle);
    FlushLedgered(c, s, idle);
    VisitingTraces(f.b.ledger, Packet(p, false, false, false));
    hide Traces, Visiting, Sound, Emptied;
  }

  lemma SlotTraced(c: Config, s: State, ok: bool)
    requires Ledgered(s) && Traced(c, s)
    ensures Traced(c, SlotStart(c, s, ok)) && Traced(c, SlotStop(s))
  {
    EmptiedTraces(s.b.ledger, s.t.fifo, s.t.motion.live);
    hide Traces, Emptied, Apart;
  }

  lemma SameTraced(c: Config, s: State, u: State)
    requires Traced(c, s) && u.t.fifo == s.t.fifo && u.t.motion == s.t.motion && u.b.ledger == s.b.ledger
    ensures Traced(c, u)
  {
  }

  lemma OtherTraced(c: Config, s: State, op: Op)
    requires Traceable(c, s) && !op.OpSend? && !op.OpSuccess? && !op.OpFailed? && !op.OpSideTrip?
    requires !Step(c, s, op).b.motionOverrun
    ensures Traced(c, Step(c, s, op))
  {
    match op {
      case OpFlush(idle) => FlushTraced(c, s, idle);
      case OpSetChannel(_, _, idle) =>
        FlushTraced(c, s, idle);
        if s.t.configured {
          SameTraced(c, Flush(c, s, idle), Step(c, s, op));
        }
      case OpSlotStart(ok) => SlotTraced(c, s, ok);
      case OpSlotStop => SlotTraced(c, s, true);
      case _ => SameTraced(c, s, Step(c, s, op));
    }
    hide Traced, Ledgered, Emptied;
  }

  lemma StepTraced(c: Config, s: State, op: Op)
    requires Traceable(c, s)
    ensures Traceable(c, Step(c, s, op))
  {
    StepLedgered(c, s, op);
    hide Traced, Ledgered, Send, TxSuccess, TxFailed, SideTrip;
    if !Step(c, s, op).b.motionOverrun {
      match op {
        case OpSend(p, now, idle) => SendTraced(c, s, p, now, idle);
        case OpSuccess(now, idle) => SuccessTraced(c, s, now, idle);
        case OpFailed(now, idle) => FailureTraced(c, s, now, idle);
        case OpSideTrip(channel, p, idle) => SideTripTraced(c, s, channel, p, idle);
        case _ => OtherTraced(c, s, op);
      }
    }
  }

  /** In every run, unless the motion ring has overrun since the last flush: live slots tell the truth about their
      packets, so that each event pops what its own packet wrote, and no packet in the FIFO was refunded more than once. */
  lemma {:induction false} SlotsTellTheTruth(c: Config, ops: seq<Op>)
    ensures Traceable(c, Run(c, ops))
  {
    if ops != [] {
      SlotsTellTheTruth(c, ops[..|ops| - 1]);
      StepTraced(c, Run(c, ops[..|ops| - 1]), ops[|ops| - 1]);
    }
  }

  // ----- Slots and packets agree -----

  /** The `k`-th slot from the end is that of the `k`-th packet from the end. */
  predicate PairedAt(l: Ledger, k: nat)
    requires 1 <= k <= |l.slots| && k <= |l.queue|
  {
    l.slots[|l.slots| - k] == l.queue[|l.queue| - k]
  }

  /** As far as both reach from the end, slots and FIFO have the same packets. */
  ghost predicate Paired(l: Ledger) {
    forall k | 1 <= k <= |l.slots| && k <= |l.queue| :: PairedAt(l, k)
  }

  lemma BookedPaired(l: Ledger, written: bool, out: Motion, wraps: bool)
    requires Paired(l) && (written || l.queue == [])
    ensures Paired(Booked(l, written, out, wraps))
  {
    var u := Booked(l, written, out, wraps);
    forall k | 1 <= k <= |u.slots| && k <= |u.queue|
      ensures PairedAt(u, k)
    {
      assert k > 1 && written ==> PairedAt(l, k - 1);
    }
  }

  /** Slots and packets leave at the front. */
  lemma FrontPaired(l: Ledger, u: Ledger)
    requires Paired(l) && (u.slots == l.slots || (l.slots != [] && u.slots == l.slots[1..]))
    requires u.queue == l.queue || (l.queue != [] && u.queue == l.queue[1..])
    ensures Paired(u)
  {
    forall k | 1 <= k <= |u.slots| && k <= |u.queue|
      ensures PairedAt(u, k)
    {
      assert PairedAt(l, k);
    }
  }

  lemma EnqueuePaired(c: Config, s: State, p: Payload, now: U32, idle: bool)
    requires Ledgered(s) && Paired(s.b.ledger) && Writable(c, p) && (!s.t.up ==> s.t.fifo == [])
    ensures Paired(Enqueue(c, s, p, now, idle).b.ledger)
  {
    var out := Prepare(c, s.t, p, now, idle).refund.out;
    BookedPaired(s.b.ledger, Accepts(c, s.t, p), out, |s.t.motion.live| + 1 == 0x1_0000_0000);
    hide Paired, Prepare;
  }

  /** With an empty FIFO, or no live slot, there is nothing to agree on. */
  lemma EmptyPaired(l: Ledger)
    requires l.queue == [] || l.slots == []
    ensures Paired(l)
  {
  }

  lemma FlushPaired(c: Config, s: State, idle: bool)
    ensures Paired(Flush(c, s, idle).b.ledger)
  {
    EmptyPaired(Flush(c, s, idle).b.ledger);
  }

  lemma SendPaired(c: Config, s: State, p: Payload, now: U32, idle: bool)
    requires Ledgered(s) && Paired(s.b.ledger) && (p.len > c.maxLen || Writable(c, p)) && (!s.t.up ==> s.t.fifo == [])
    ensures Paired(Send(c, s, p, now, idle).b.ledger)
  {
    var awake := s.(t := Awake(s.t));
    match SendVerdict(c, s.t, p, now) {
      case Direct => EnqueuePaired(c, awake, p, now, idle);
      case AfterFlush =>
        FlushLedgered(c, awake, idle);
        FlushPaired(c, awake, idle);
        EnqueuePaired(c, Flush(c, awake, idle), p, now, idle);
      case _ =>
    }
    hide Enqueue, Paired, Sound, Slotted, Emptied;
  }

  lemma PopPaired(c: Config, s: State, failed: bool, now: U32, idle: bool)
    requires Paired(s.b.ledger)
    ensures Paired(PopRings(c, s, failed, now, idle).b.ledger)
  {
    PoppedLedger(c, s, failed, now, idle);
    FrontPaired(s.b.ledger, PopRings(c, s, failed, now, idle).b.ledger);
    hide Paired, PopRings, PoppedId;
  }

  lemma SuccessPaired(c: Config, s: State, now: U32, idle: bool)
    requires Ledgered(s) && Paired(s.b.ledger)
    ensures Paired(TxSuccess(c, s, now, idle).b.ledger)
  {
    if s.t.fifo != [] {
      FrontPaired(s.b.ledger, Deliver(s).b.ledger);
      PopPaired(c, Deliver(s), false, now, idle);
      hide Paired, PopRings;
    }
  }

  lemma FailurePaired(c: Config, s: State, now: U32, idle: bool)
    requires Ledgered(s) && Paired(s.b.ledger)
    ensures Paired(TxFailed(c, s, now, idle).b.ledger)
  {
    if s.t.fifo != [] {
      if s.t.sync {
        FlushPaired(c, s.(t := s.t.(sync := false)), idle);
      } else {
        var g := GiveUp(c, s);
        FrontPaired(s.b.ledger, g.b.ledger);
        PopPaired(c, g, true, now, idle);
        FlushPaired(c, PopRings(c, g, true, now, idle), idle);
      }
      hide Paired, PopRings, Flush, GiveUp;
    }
  }

  lemma SlotPaired(c: Config, s: State, ok: bool)
    requires Ledgered(s)
    ensures Paired(SlotStart(c, s, ok).b.ledger) && Paired(SlotStop(s).b.ledger)
  {
    EmptiedSound(s.b.ledger, s.t.fifo);
    EmptyPaired(Emptied(s.b.ledger, s.t.fifo));
    hide Paired, Emptied;
  }

  lemma SideTripPaired(c: Config, s: State, channel: nat, p: Payload, idle: bool)
    requires Paired(s.b.ledger)
    ensures Paired(SideTrip(c, s, channel, p, idle).b.ledger)
  {
    FlushPaired(c, s, idle);
    EmptyPaired(Visiting(Flush(c, s, idle).b.ledger));
    hide Paired, Emptied;
  }

  lemma OtherPaired(c: Config, s: State, op: Op)
    requires Ledgered(s) && Paired(s.b.ledger) && !op.OpSend? && !op.OpSuccess? && !op.OpFailed?
    ensures Paired(Step(c, s, op).b.ledger)
  {
    match op {
      case OpFlush(idle) => FlushPaired(c, s, idle);
      case OpSetChannel(_, _, idle) => FlushPaired(c, s, idle);
      case OpSideTrip(channel, p, idle) => SideTripPaired(c, s, channel, p, idle);
      case OpSlotStart(ok) => SlotPaired(c, s, ok);
      case OpSlotStop => SlotPaired(c, s, true);
      case _ =>
    }
    hide Paired, Ledgered, Flush, SideTrip, SlotStart, SlotStop;
  }

  lemma StepPaired(c: Config, s: State, op: Op)
    requires Ledgered(s) && Paired(s.b.ledger) && WellFormed(c, op) && (!s.t.up ==> s.t.fifo == [])
    ensures Paired(Step(c, s, op).b.ledger)
  {
    match op {
      case OpSend(p, now, idle) => SendPaired(c, s, p, now, idle);
      case OpSuccess(now, idle) => SuccessPaired(c, s, now, idle);
      case OpFailed(now, idle) => FailurePaired(c, s, now, idle);
      case _ => OtherPaired(c, s, op);
    }
    hide Paired, Ledgered, Send, TxSuccess, TxFailed;
  }

  /** In every run with well-formed payloads. */
  lemma {:induction false} SlotsFollowFifo(c: Config, ops: seq<Op>)
    requires RingsFit(c) && WellFormedRun(c, ops)
    ensures Paired(Run(c, ops).b.ledger)
  {
    if ops != [] {
      var before, op := ops[..|ops| - 1], ops[|ops| - 1];
      SlotsFollowFifo(c, before);
      OneFateEach(c, before);
      RingTailsMirrorFifo(c, before);
      StepPaired(c, Run(c, before), op);
    }
  }

  // ----- At most one refund -----

  /** Each packet in the FIFO has been refunded at most once, with its own motion, and not while its slot is live. */
  ghost predicate Tracked(s: State) {
    && |s.b.ledger.queue| == |s.t.fifo|
    && forall i | 0 <= i < |s.t.fifo| ::
         var again := AgainOf(FateOf(s.b.ledger, s.b.ledger.queue[i]));
         again == STILL || (i < Skew(s.t) && again == MotionOf(s.t.fifo[i].payload))
  }

  lemma PairedTracked(c: Config, s: State)
    requires Ledgered(s) && Traced(c, s) && Paired(s.b.ledger)
    ensures Tracked(s)
  {
    var l := s.b.ledger;
    forall i | 0 <= i < |s.t.fifo| && Skew(s.t) <= i
      ensures AgainOf(FateOf(l, l.queue[i])) == STILL
    {
      assert PairedAt(l, |l.queue| - i);
    }
  }

  /** What is known of a state in a run of well-formed payloads while the motion ring has not overrun. */
  ghost predicate Known(c: Config, s: State) {
    Ledgered(s) && Traced(c, s) && Paired(s.b.ledger)
  }

  /** In every run, slot changes included, unless the motion ring has overrun since the last flush: however often a packet
      fails, it is refunded at most once while it is in the FIFO, with its own motion, and not while its slot is live. */
  lemma RefundedAtMostOnce(c: Config, ops: seq<Op>)
    requires RingsFit(c) && WellFormedRun(c, ops)
    ensures var s := Run(c, ops); !s.b.motionOverrun ==> Known(c, s) && Tracked(s)
  {
    SlotsTellTheTruth(c, ops);
    SlotsFollowFifo(c, ops);
    if !Run(c, ops).b.motionOverrun {
      PairedTracked(c, Run(c, ops));
    }
  }
}
