/** The transport together with the radio library in vendor/: which packet each event is really about. The transport runs on
    flags that say whether the radio is idle; here the radio says so itself. */
module OnAir {
  import opened Words
  import opened TransportModel
  import opened TransportProofs
  import opened Ledgers
  import opened FateProofs
  import MP = MotionProofs
  import RP = RetransmitProofs
  import opened SlotRuns
  import Q = RadioQueue

  /** The radio beside the transport, and whether a flush came since the packet on the air was put there. */
  datatype Side = Side(radio: Q.Radio, interrupted: bool)

  function Did(c: Config, a: Side, op: Q.Op): Side {
    Side(Q.Step(c.fifoDepth, a.radio, op),
         match op
         case Write => a.interrupted && a.radio.air.Sending?
         case Flush => a.interrupted || a.radio.air.Sending?
         case _ => false)
  }

  /** The step writes a packet to the library's FIFO. */
  predicate Writes(c: Config, t: Transport, op: Op) {
    match op
    case OpSend(p, now, _) => SendVerdict(c, t, p, now) in {Direct, AfterFlush} && Accepts(c, t, p)
    case OpSideTrip(channel, p, idle) =>
      p.len <= c.maxLen && t.configured && !t.sync && Tunes(channel, idle) && Accepts(c, t, p)
    case _ => false
  }

  /** What the radio does before the transport has its say: it ends a transaction, or starts anew. */
  function Ended(c: Config, a: Side, op: Op): Side {
    match op
    case OpSuccess(_, _) => Did(c, a, Q.Acked)
    case OpFailed(_, _) => Did(c, a, Q.Exhausted)
    case OpSlotStart(_) => Did(c, a, Q.Restart)
    case OpSlotStop => Did(c, a, Q.Restart)
    case _ => a
  }

  /** What a step of the transport does to the radio, which gives the next packet the number that the ledger does. */
  function Driven(c: Config, s: State, a: Side, op: Op): Side {
    var e := Ended(c, a.(radio := a.radio.(next := |s.b.ledger.fates|)), op);
    var f := if MP.Discards(c, s.t, op) then Did(c, e, Q.Flush) else e;
    if Writes(c, s.t, op) then Did(c, f, Q.Write) else f
  }

  /** Events come from transactions, and the step is told that the radio is idle exactly when it is. */
  predicate Fits(c: Config, a: Side, op: Op) {
    match op
    case OpSuccess(_, idle) => a.radio.air.Sending? && idle == Did(c, a, Q.Acked).radio.air.Resting?
    case OpFailed(_, idle) => a.radio.air.Sending? && idle
    case OpSend(_, _, idle) => idle == a.radio.air.Resting?
    case OpFlush(idle) => idle == a.radio.air.Resting?
    case OpSetChannel(_, _, idle) => idle == a.radio.air.Resting?
    case OpSideTrip(_, _, idle) => idle == a.radio.air.Resting?
    case OpTimeout(idle) => idle == a.radio.air.Resting?
    case OpTick(_, idle) => idle == a.radio.air.Resting?
    case _ => true
  }

  ghost function Beside(c: Config, ops: seq<Op>): Side {
    if ops == [] then Side(Q.BOOT, false)
    else Driven(c, Run(c, ops[..|ops| - 1]), Beside(c, ops[..|ops| - 1]), ops[|ops| - 1])
  }

  ghost predicate FittingRun(c: Config, ops: seq<Op>) {
    forall i | 0 <= i < |ops| :: Fits(c, Beside(c, ops[..i]), ops[i])
  }

  /** The library keeps failed packets, as the one in vendor/ does. */
  predicate Keeps(c: Config) {
    !c.failedLeaves && 0 < c.fifoDepth
  }

  // ----- One FIFO -----

  /** The transport's FIFO is the library's, packet by packet. */
  ghost predicate InSync(s: State, a: Side) {
    Ledgered(s) && a.radio.queue == s.b.ledger.queue && a.radio.next <= |s.b.ledger.fates|
    && Q.Placed(a.radio, a.interrupted)
  }

  /** The packets in the FIFO after a step. */
  function QueueAfter(c: Config, s: State, op: Op): seq<nat> {
    var q := s.b.ledger.queue;
    var q1 := if op.OpSuccess? && q != [] then q[1..] else q;
    var q2 := if MP.Discards(c, s.t, op) then [] else q1;
    if Writes(c, s.t, op) then q2 + [|s.b.ledger.fates|] else q2
  }

  lemma FlushQueue(c: Config, s: State, idle: bool)
    requires Ledgered(s)
    ensures var l := Flush(c, s, idle).b.ledger; l.queue == [] && |l.fates| == |s.b.ledger.fates|
  {
    EmptiedSound(s.b.ledger, s.t.fifo);
    hide Emptied;
  }

  lemma SendQueue(c: Config, s: State, op: Op)
    requires Ledgered(s) && op.OpSend?
    ensures Step(c, s, op).b.ledger.queue == QueueAfter(c, s, op)
  {
    var awake := s.(t := Awake(s.t));
    hide Flush, Enqueue, Booked, Ledgered;
    match SendVerdict(c, s.t, op.p, op.now) {
      case Direct => EnqueueQueue(c, awake, op.p, op.now, op.idle);
      case AfterFlush =>
        AwakeLedgered(s, awake);
        FlushQueue(c, awake, op.idle);
        FlushedUp(c, awake, op.idle);
        EnqueueQueue(c, Flush(c, awake, op.idle), op.p, op.now, op.idle);
      case _ =>
    }
  }

  lemma FlushedUp(c: Config, s: State, idle: bool)
    ensures Flush(c, s, idle).t.up == s.t.up
  {
  }

  lemma EnqueueQueue(c: Config, s: State, p: Payload, now: U32, idle: bool)
    ensures var u, l := Enqueue(c, s, p, now, idle), s.b.ledger;
            u.b.ledger.queue == if Accepts(c, s.t, p) then l.queue + [|l.fates|] else l.queue
  {
    EnqueuedLedger(c, s, p, now, idle);
    hide Enqueue;
  }

  lemma PopQueue(c: Config, s: State, failed: bool, now: U32, idle: bool)
    ensures PopRings(c, s, failed, now, idle).b.ledger.queue == s.b.ledger.queue
  {
    PoppedLedger(c, s, failed, now, idle);
    hide PopRings, PoppedId;
  }

  lemma SuccessQueue(c: Config, s: State, op: Op)
    requires Ledgered(s) && op.OpSuccess?
    ensures Step(c, s, op).b.ledger.queue == QueueAfter(c, s, op)
  {
    if s.t.fifo != [] {
      PopQueue(c, Deliver(s), false, op.now, op.idle);
      hide PopRings;
    }
  }

  lemma FailureQueue(c: Config, s: State, op: Op)
    requires Keeps(c) && Ledgered(s) && op.OpFailed?
    ensures Step(c, s, op).b.ledger.queue == QueueAfter(c, s, op)
  {
    hide Flush, PopRings, Ledgered;
    if s.t.fifo != [] {
      if s.t.sync {
        AwakeLedgered(s, s.(t := s.t.(sync := false)));
        FlushQueue(c, s.(t := s.t.(sync := false)), op.idle);
      } else {
        var r := PopRings(c, s, true, op.now, op.idle);
        PopQueue(c, s, true, op.now, op.idle);
        PopLedgered(c, s, true, op.now, op.idle);
        FlushQueue(c, r, op.idle);
        MP.FailureRefunds(c, s, op.now, op.idle);
      }
    }
  }

  lemma SideTripQueue(c: Config, s: State, op: Op)
    requires Ledgered(s) && op.OpSideTrip?
    ensures Step(c, s, op).b.ledger.queue == QueueAfter(c, s, op)
  {
    FlushQueue(c, s, op.idle);
    hide Emptied, Ledgered, Tunes, Accepts, Flushed;
  }

  lemma SlotQueue(c: Config, s: State, op: Op)
    requires Ledgered(s) && (op.OpSlotStart? || op.OpSlotStop?)
    ensures Step(c, s, op).b.ledger.queue == QueueAfter(c, s, op)
  {
    EmptiedSound(s.b.ledger, s.t.fifo);
    hide Emptied, Ledgered;
  }

  lemma FlushedQueue(c: Config, s: State, op: Op)
    requires Ledgered(s) && (op.OpFlush? || op.OpSetChannel?)
    ensures Step(c, s, op).b.ledger.queue == QueueAfter(c, s, op)
  {
    FlushQueue(c, s, op.idle);
    hide Emptied, Ledgered, Flushed;
  }

  lemma OtherQueue(c: Config, s: State, op: Op)
    requires Ledgered(s) && !op.OpSend? && !op.OpSuccess? && !op.OpFailed?
    ensures Step(c, s, op).b.ledger.queue == QueueAfter(c, s, op)
  {
    hide Ledgered, SideTrip, SetChannel, Flush, SlotStart, SlotStop;
    match op {
      case OpFlush(_) => FlushedQueue(c, s, op);
      case OpSetChannel(_, _, _) => FlushedQueue(c, s, op);
      case OpSideTrip(_, _, _) => SideTripQueue(c, s, op);
      case OpSlotStart(_) => SlotQueue(c, s, op);
      case OpSlotStop => SlotQueue(c, s, op);
      case _ =>
    }
  }

  lemma StepQueue(c: Config, s: State, op: Op)
    requires Keeps(c) && Ledgered(s)
    ensures Step(c, s, op).b.ledger.queue == QueueAfter(c, s, op)
  {
    hide Step, QueueAfter, Ledgered;
    match op {
      case OpSend(_, _, _) => SendQueue(c, s, op);
      case OpSuccess(_, _) => SuccessQueue(c, s, op);
      case OpFailed(_, _) => FailureQueue(c, s, op);
      case _ => OtherQueue(c, s, op);
    }
  }

  lemma DidPlaced(c: Config, a: Side, op: Q.Op)
    requires Q.Placed(a.radio, a.interrupted)
    ensures var d := Did(c, a, op); Q.Placed(d.radio, d.interrupted)
  {
    Q.StepPlaced(c.fifoDepth, a.radio, a.interrupted, op, Did(c, a, op).interrupted);
    hide Q.Placed, Q.Step;
  }

  lemma DrivenPlaced(c: Config, s: State, a: Side, op: Op)
    requires InSync(s, a)
    ensures var d := Driven(c, s, a, op); Q.Placed(d.radio, d.interrupted)
  {
    var b := a.(radio := a.radio.(next := |s.b.ledger.fates|));
    assert Q.Placed(b.radio, b.interrupted);
    DidPlaced(c, b, Q.Acked);
    DidPlaced(c, b, Q.Exhausted);
    DidPlaced(c, b, Q.Restart);
    var e := Ended(c, b, op);
    DidPlaced(c, e, Q.Flush);
    var f := if MP.Discards(c, s.t, op) then Did(c, e, Q.Flush) else e;
    DidPlaced(c, f, Q.Write);
    hide Q.Placed, Did;
  }

  lemma DrivenQueue(c: Config, s: State, a: Side, op: Op)
    requires Keeps(c) && InSync(s, a) && Fits(c, a, op)
    ensures var d := Driven(c, s, a, op); d.radio.queue == QueueAfter(c, s, op)
    ensures Driven(c, s, a, op).radio.next <= |s.b.ledger.fates| + if Writes(c, s.t, op) then 1 else 0
  {
    assert |s.b.ledger.queue| == |s.t.fifo|;
    hide Sound, Slotted, Accepts, Tunes, IsQuiet, IsShell, Q.Placed;
  }

  lemma StepGrows(c: Config, s: State, op: Op)
    requires Keeps(c) && Ledgered(s)
    ensures |Step(c, s, op).b.ledger.fates| >= |s.b.ledger.fates| + if Writes(c, s.t, op) then 1 else 0
  {
    FatesAreFinal(c, s, op);
    StepQueue(c, s, op);
    StepLedgered(c, s, op);
    var q := Step(c, s, op).b.ledger.queue;
    if Writes(c, s.t, op) {
      assert q[|q| - 1] == |s.b.ledger.fates|;
      assert q[|q| - 1] < |Step(c, s, op).b.ledger.fates|;
    }
    hide Step, Writes;
  }

  lemma StepInSync(c: Config, s: State, a: Side, op: Op)
    requires Keeps(c) && InSync(s, a) && Fits(c, a, op)
    ensures InSync(Step(c, s, op), Driven(c, s, a, op))
  {
    StepLedgered(c, s, op);
    StepQueue(c, s, op);
    StepGrows(c, s, op);
    DrivenPlaced(c, s, a, op);
    DrivenQueue(c, s, a, op);
    hide Step, Driven, Q.Placed, QueueAfter, Ledgered;
  }

  lemma FittingPrefix(c: Config, ops: seq<Op>)
    requires FittingRun(c, ops) && ops != []
    ensures FittingRun(c, ops[..|ops| - 1]) && Fits(c, Beside(c, ops[..|ops| - 1]), ops[|ops| - 1])
  {
    var before := ops[..|ops| - 1];
    forall i | 0 <= i < |before|
      ensures Fits(c, Beside(c, before[..i]), before[i])
    {
      assert before[..i] == ops[..i];
    }
  }

  /** In every run the FIFO that the transport goes by is the library's, packet by packet, whatever is on the air. */
  lemma {:induction false} OneFifo(c: Config, ops: seq<Op>)
    requires Keeps(c) && FittingRun(c, ops)
    ensures InSync(Run(c, ops), Beside(c, ops))
  {
    if ops != [] {
      var before := ops[..|ops| - 1];
      FittingPrefix(c, ops);
      OneFifo(c, before);
      StepInSync(c, Run(c, before), Beside(c, before), ops[|ops| - 1]);
      hide Step, Driven, InSync;
    }
  }

  // ----- What is counted as delivered -----

  /** Every packet that counts as delivered was sent. */
  ghost predicate Honest(s: State, a: Side) {
    forall id | 0 <= id < |s.b.ledger.fates| && s.b.ledger.fates[id].Arrived? :: id in a.radio.aired
  }

  /** An acknowledgement comes after a flush, when other packets are in the FIFO. */
  predicate Late(s: State, a: Side, op: Op) {
    op.OpSuccess? && a.interrupted && s.t.fifo != []
  }

  lemma DidAired(c: Config, a: Side, op: Q.Op)
    ensures a.radio.aired <= Did(c, a, op).radio.aired
  {
  }

  lemma DrivenAired(c: Config, s: State, a: Side, op: Op)
    ensures a.radio.aired <= Driven(c, s, a, op).radio.aired
  {
    var b := a.(radio := a.radio.(next := |s.b.ledger.fates|));
    DidAired(c, b, Q.Acked);
    DidAired(c, b, Q.Exhausted);
    DidAired(c, b, Q.Restart);
    var e := Ended(c, b, op);
    DidAired(c, e, Q.Flush);
    DidAired(c, if MP.Discards(c, s.t, op) then Did(c, e, Q.Flush) else e, Q.Write);
    hide Did;
  }

  /** The packet that a success takes for delivered was sent if and only if no flush came in between. */
  lemma FrontAired(c: Config, s: State, a: Side, op: Op)
    requires InSync(s, a) && Fits(c, a, op) && op.OpSuccess? && s.t.fifo != []
    ensures var front := s.b.ledger.queue[0]; front in Driven(c, s, a, op).radio.aired <==> !a.interrupted
  {
    var r, q := a.radio, s.b.ledger.queue;
    assert |q| > 1 ==> q[0] < q[1];
    assert a.interrupted ==> r.queue[0] !in r.aired;
    hide Slotted, Ledgered;
  }

  lemma StepHonest(c: Config, s: State, a: Side, op: Op)
    requires Keeps(c) && InSync(s, a) && Fits(c, a, op) && Honest(s, a)
    ensures Honest(Step(c, s, op), Driven(c, s, a, op)) <==> !Late(s, a, op)
  {
    var u, d := Step(c, s, op), Driven(c, s, a, op);
    FatesAreFinal(c, s, op);
    DrivenAired(c, s, a, op);
    if op.OpSuccess? && s.t.fifo != [] {
      FrontAired(c, s, a, op);
    }
    hide Step, Driven, Q.Placed;
    forall id | 0 <= id < |u.b.ledger.fates| && u.b.ledger.fates[id].Arrived? && !Late(s, a, op)
      ensures id in d.radio.aired
    {
      assert id < |s.b.ledger.fates| && Becomes(s.b.ledger.fates[id], u.b.ledger.fates[id], id in LandedBy(s, op));
    }
  }

  ghost predicate AlwaysHonest(c: Config, ops: seq<Op>) {
    forall n | 0 <= n <= |ops| :: Honest(Run(c, ops[..n]), Beside(c, ops[..n]))
  }

  ghost predicate NeverLate(c: Config, ops: seq<Op>) {
    forall i | 0 <= i < |ops| :: !Late(Run(c, ops[..i]), Beside(c, ops[..i]), ops[i])
  }

  lemma BesideStep(c: Config, ops: seq<Op>, n: nat)
    requires n < |ops|
    ensures Beside(c, ops[..n + 1]) == Driven(c, Run(c, ops[..n]), Beside(c, ops[..n]), ops[n])
    ensures Run(c, ops[..n + 1]) == Step(c, Run(c, ops[..n]), ops[n])
  {
    assert ops[..n + 1][..n] == ops[..n];
  }

  lemma PrefixFits(c: Config, ops: seq<Op>, n: nat)
    requires FittingRun(c, ops) && n <= |ops|
    ensures FittingRun(c, ops[..n])
  {
    forall i | 0 <= i < n
      ensures Fits(c, Beside(c, ops[..n][..i]), ops[..n][i])
    {
      assert ops[..n][..i] == ops[..i];
    }
  }

  lemma RunHonest(c: Config, ops: seq<Op>, n: nat)
    requires Keeps(c) && FittingRun(c, ops) && n < |ops| && Honest(Run(c, ops[..n]), Beside(c, ops[..n]))
    ensures Honest(Run(c, ops[..n + 1]), Beside(c, ops[..n + 1]))
            <==> !Late(Run(c, ops[..n]), Beside(c, ops[..n]), ops[n])
  {
    PrefixFits(c, ops, n);
    OneFifo(c, ops[..n]);
    BesideStep(c, ops, n);
    StepHonest(c, Run(c, ops[..n]), Beside(c, ops[..n]), ops[n]);
    hide Step, Driven, Honest, Late, InSync;
  }

  lemma {:induction false} HonestPrefix(c: Config, ops: seq<Op>, n: nat)
    requires Keeps(c) && FittingRun(c, ops) && NeverLate(c, ops) && n <= |ops|
    ensures Honest(Run(c, ops[..n]), Beside(c, ops[..n]))
  {
    if n > 0 {
      HonestPrefix(c, ops, n - 1);
      RunHonest(c, ops, n - 1);
      hide Honest, Late;
    }
  }

  /** Throughout a run every packet that counts as delivered was sent if and only if no acknowledgement comes after a flush
      while other packets are in the FIFO. */
  lemma DeliveredMeansSent(c: Config, ops: seq<Op>)
    requires Keeps(c) && FittingRun(c, ops)
    ensures AlwaysHonest(c, ops) <==> NeverLate(c, ops)
  {
    hide Honest, Late, Run, Beside;
    if NeverLate(c, ops) {
      forall n | 0 <= n <= |ops| ensures Honest(Run(c, ops[..n]), Beside(c, ops[..n])) { HonestPrefix(c, ops, n); }
    }
    if AlwaysHonest(c, ops) {
      forall i | 0 <= i < |ops|
        ensures !Late(Run(c, ops[..i]), Beside(c, ops[..i]), ops[i])
      {
        assert Honest(Run(c, ops[..i]), Beside(c, ops[..i])) && Honest(Run(c, ops[..i + 1]), Beside(c, ops[..i + 1]));
        RunHonest(c, ops, i);
      }
    }
  }

  // ----- The flags of events -----

  /** The radio itself is as `AsShipped` has it: at the end of a transaction it is idle exactly if the packet was the only one
      or failed. */
  lemma RadioIsAsShipped(c: Config, ops: seq<Op>, i: nat)
    requires Keeps(c) && FittingRun(c, ops) && i < |ops| && Run(c, ops[..i]).t.fifo != []
    ensures RP.AsShipped(Run(c, ops[..i]).t, ops[i])
  {
    PrefixFits(c, ops, i);
    OneFifo(c, ops[..i]);
    var s, a := Run(c, ops[..i]), Beside(c, ops[..i]);
    assert Fits(c, a, ops[i]);
    hide Run, Beside, Q.Placed;
    assert |a.radio.queue| == |s.t.fifo|;
  }

  // ----- Whom events are about -----

  /** The packet on the air is the one that the transport takes an event for. */
  predicate AboutFront(s: State, a: Side) {
    s.t.fifo != [] && s.b.ledger.queue != [] && a.radio.air == Q.Sending(s.b.ledger.queue[0])
  }

  /** An event is about the packet at the front of the transport's FIFO if and only if no flush came since that was put on the
      air. */
  lemma EventIsAboutFront(c: Config, ops: seq<Op>, op: Op)
    requires Keeps(c) && FittingRun(c, ops) && Fits(c, Beside(c, ops), op) && (op.OpSuccess? || op.OpFailed?)
    ensures AboutFront(Run(c, ops), Beside(c, ops)) <==> !Beside(c, ops).interrupted
  {
    OneFifo(c, ops);
    SyncFront(Run(c, ops), Beside(c, ops));
    hide Run, Beside, AboutFront;
  }

  lemma SyncFront(s: State, a: Side)
    requires InSync(s, a) && a.radio.air.Sending?
    ensures AboutFront(s, a) <==> !a.interrupted
  {
    assert |a.radio.queue| == |s.t.fifo|;
    assert a.interrupted && s.t.fifo != [] ==> a.radio.queue[0] !in a.radio.aired;
  }

  // ----- A late acknowledgement -----

  /** Some run of transport and radio ends there, and so far every packet that counts as delivered was sent. */
  ghost predicate Arises(c: Config, s: State, a: Side) {
    exists ops :: FittingRun(c, ops) && Run(c, ops) == s && Beside(c, ops) == a
  }

  lemma BootArises(c: Config, none: seq<Op>)
    requires none == []
    ensures Arises(c, Reset(c), Side(Q.BOOT, false)) && Honest(Reset(c), Side(Q.BOOT, false))
  {
    assert FittingRun(c, none) && Run(c, none) == Reset(c) && Beside(c, none) == Side(Q.BOOT, false);
  }

  lemma LongerRun(c: Config, ops: seq<Op>, op: Op)
    requires FittingRun(c, ops) && Fits(c, Beside(c, ops), op)
    ensures var more := ops + [op];
            && FittingRun(c, more) && Run(c, more) == Step(c, Run(c, ops), op)
            && Beside(c, more) == Driven(c, Run(c, ops), Beside(c, ops), op)
  {
    hide Step, Driven, Fits;
    var more := ops + [op];
    assert more[..|ops|] == ops;
    forall i | 0 <= i < |more|
      ensures Fits(c, Beside(c, more[..i]), more[i])
    {
      assert i < |ops| ==> more[..i] == ops[..i];
    }
  }

  lemma StepArises(c: Config, s: State, a: Side, op: Op)
    requires Keeps(c) && Arises(c, s, a) && Fits(c, a, op)
    ensures Arises(c, Step(c, s, op), Driven(c, s, a, op))
    ensures InSync(s, a) && Ledgered(Step(c, s, op))
    ensures Honest(s, a) ==> (Honest(Step(c, s, op), Driven(c, s, a, op)) <==> !Late(s, a, op))
  {
    hide Step, Driven, Fits, Honest, Late, FittingRun;
    var ops :| FittingRun(c, ops) && Run(c, ops) == s && Beside(c, ops) == a;
    LongerRun(c, ops, op);
    OneFifo(c, ops);
    StepLedgered(c, s, op);
    if Honest(s, a) {
      StepHonest(c, s, a, op);
    }
  }

  /** A mouse report is on the air, and the FIFO was flushed. */
  ghost predicate Flushing(c: Config, s: State, a: Side) {
    && Arises(c, s, a) && Honest(s, a) && Ledgered(s) && Quiet(s.t) && s.t.up && s.t.fifo == [] && s.t.motion.live == []
    && a.interrupted && a.radio.air.Sending? && s.b.delivered == STILL
  }

  lemma StartDrives(c: Config, s: State, a: Side)
    ensures var d := Driven(c, s, a, OpSlotStart(true));
            d.radio.air.Resting? && d.radio.queue == [] && !d.interrupted
  {
  }

  lemma StartedBeside(c: Config) returns (s: State, a: Side)
    requires TakesMoves(c) && Keeps(c)
    ensures Arises(c, s, a) && Honest(s, a) && Ledgered(s) && a.radio.air.Resting? && a.radio.queue == [] && !a.interrupted
    ensures Quiet(s.t) && s.t.up && s.t.fifo == [] && s.t.motion.live == [] && s.b.delivered == STILL
  {
    hide Step, Driven, Arises, Honest, Ledgered, InSync, Lockstep, RingsFit, Reset;
    var s0, a0 := Reset(c), Side(Q.BOOT, false);
    BootArises(c, []);
    StepArises(c, s0, a0, OpSlotStart(true));
    MP.FirstStart(c);
    StartDrives(c, s0, a0);
    s, a := Step(c, s0, OpSlotStart(true)), Driven(c, s0, a0, OpSlotStart(true));
  }

  lemma FirstOnAir(c: Config, move: Payload, now: U32) returns (s: State, a: Side)
    requires TakesMoves(c) && Keeps(c) && !c.criticalRetransmit && IsMove(move)
    ensures Flushing(c, s, a)
  {
    hide Step, Driven, Arises, Honest, Ledgered, InSync, RingsFit;
    var s1, a1 := StartedBeside(c);
    var op := OpSend(move, now, true);
    StepArises(c, s1, a1, op);
    SentAtOnce(c, s1, move, now, true);
    SendStarts(c, s1, a1, move, now);
    var s2, a2 := Step(c, s1, op), Driven(c, s1, a1, op);
    StepArises(c, s2, a2, OpFlush(false));
    FlushInterrupts(c, s2, a2);
    s, a := Step(c, s2, OpFlush(false)), Driven(c, s2, a2, OpFlush(false));
  }

  lemma SendStarts(c: Config, s: State, a: Side, p: Payload, now: U32)
    requires Writable(c, p) && SendVerdict(c, s.t, p, now) == Direct && s.t.up && a.radio.air.Resting? && a.radio.queue == []
    requires 0 < c.fifoDepth
    ensures Driven(c, s, a, OpSend(p, now, true)).radio.air.Sending?
  {
  }

  lemma FlushInterrupts(c: Config, s: State, a: Side)
    requires a.radio.air.Sending? && Quiet(s.t)
    ensures var u, d := Step(c, s, OpFlush(false)), Driven(c, s, a, OpFlush(false));
            && d.interrupted && d.radio.air.Sending?
            && Quiet(u.t) && u.t.up == s.t.up && u.t.fifo == [] && u.t.motion.live == [] && u.b.delivered == s.b.delivered
  {
  }

  /** A flush while a mouse report is on the air, another report, and then the acknowledgement of the first: the second counts
      as delivered although it was never sent. */
  lemma LateAckCountsUnsent(c: Config, move: Payload, now: U32) returns (s: State, a: Side)
    requires c == MP.SHIPPED && IsMove(move)
    ensures Arises(c, s, a) && !Honest(s, a) && s.b.delivered.dx == 10
  {
    ShippedTakesMoves(c);
    var f, b := FirstOnAir(c, move, now);
    s, a := SecondUnsent(c, f, b, move, now);
  }

  lemma SecondUnsent(c: Config, f: State, b: Side, move: Payload, now: U32) returns (s: State, a: Side)
    requires TakesMoves(c) && Keeps(c) && !c.criticalRetransmit && IsMove(move) && Flushing(c, f, b)
    ensures Arises(c, s, a) && !Honest(s, a) && s.b.delivered == TEN
  {
    hide Step, Driven, Arises, Honest, Ledgered, InSync, RingsFit;
    var op := OpSend(move, now, false);
    StepArises(c, f, b, op);
    SentAtOnce(c, f, move, now, false);
    SendWaits(c, f, b, op);
    var g, d := Step(c, f, op), Driven(c, f, b, op);
    var end := OpSuccess(now, Did(c, d, Q.Acked).radio.air.Resting?);
    StepArises(c, g, d, end);
    s, a := Step(c, g, end), Driven(c, g, d, end);
    SuccessDelivers(c, g, now, end.idle);
    AddStill(TEN);
  }

  lemma SendWaits(c: Config, s: State, a: Side, op: Op)
    requires a.interrupted && a.radio.air.Sending? && op.OpSend?
    ensures var d := Driven(c, s, a, op); d.interrupted && d.radio.air.Sending?
  {
  }

  lemma SuccessDelivers(c: Config, s: State, now: U32, idle: bool)
    requires s.t.fifo != [] && !s.t.sync
    ensures Step(c, s, OpSuccess(now, idle)).b.delivered == Add(s.b.delivered, MotionOf(s.t.fifo[0].payload))
  {
    MP.DirectSuccess(c, s, now, idle);
  }
}
