/** The retransmit count and the in-flight counter over every run of the transport. */
module RetransmitProofs {
  import opened Words
  import opened TransportModel
  import opened TransportProofs
  import R = Rings

  // ----- The retransmit count comes back -----

  ghost predicate NoCritical(live: seq<bool>) {
    forall i | 0 <= i < |live| :: !live[i]
  }

  ghost predicate NoPointer(live: seq<Slot>) {
    forall i | 0 <= i < |live| :: !live[i].overrode
  }

  /** No live slot, of either ring that records overrides, belongs to a send that overrode the count. */
  ghost predicate NoOverride(t: Transport) {
    NoCritical(t.critical.live) && NoPointer(t.motion.live)
  }

  /** A ring that records overrides has overrun since the last flush. */
  predicate Forgot(b: Books) {
    b.motionOverrun || b.criticalOverrun
  }

  /** With no override outstanding the radio is at the steady count, unless the last attempt to put it in force failed
      or a ring that records overrides has overrun. */
  ghost predicate Restored(c: Config, s: State) {
    NoOverride(s.t) && !s.b.refused && !Forgot(s.b) ==> s.t.count == Steady(c, s.t)
  }

  /** A push with room keeps every override, and records the new one. */
  lemma PushKeepsOverrides(c: Config, t: Transport, p: Payload, k: Prepared)
    requires MotionRoom(c, t) && CriticalRoom(c, t) && NoOverride(Push(c, t, p, k))
    ensures NoOverride(t) && !k.pointer && (c.criticalRetransmit ==> !k.critical)
  {
    var u := Push(c, t, p, k);
    R.PushedWithRoom(0x1_0000_0000, c.motionSize, t.motion, Slot(k.refund.out, k.pointer));
    assert !u.motion.live[|t.motion.live|].overrode;
    forall i | 0 <= i < |t.motion.live| ensures !t.motion.live[i].overrode { assert !u.motion.live[i].overrode; }
    if c.criticalRetransmit {
      R.PushedWithRoom(0x100, c.criticalSize, t.critical, k.critical);
      assert !u.critical.live[|t.critical.live|];
      forall i | 0 <= i < |t.critical.live| ensures !t.critical.live[i] { assert !u.critical.live[i]; }
    }
  }

  lemma EnqueueRestored(c: Config, s: State, p: Payload, now: U32, idle: bool)
    requires Restored(c, s)
    ensures Restored(c, Enqueue(c, s, p, now, idle))
  {
    var u := Enqueue(c, s, p, now, idle);
    if NoOverride(u.t) && !u.b.refused && !Forgot(u.b) {
      PushKeepsOverrides(c, s.t, p, Prepare(c, s.t, p, now, idle));
    }
  }

  /** A pop that pops no override leaves those that are there. */
  lemma PopKeepsOverrides(c: Config, t: Transport, failed: bool, now: U32, idle: bool)
    requires NoOverride(Popped(c, t, failed, now, idle)) && !NextCritical(t) && !NextSlot(t).overrode
    ensures NoOverride(t)
  {
    var u := Popped(c, t, failed, now, idle);
    forall i | 0 <= i < |t.critical.live|
      ensures !t.critical.live[i]
    {
      if i > 0 { assert !u.critical.live[i - 1]; }
    }
    forall i | 0 <= i < |t.motion.live|
      ensures !t.motion.live[i].overrode
    {
      if i > 0 { assert !u.motion.live[i - 1].overrode; }
    }
  }

  lemma PopRestored(c: Config, s: State, failed: bool, now: U32, idle: bool)
    requires Restored(c, s)
    ensures Restored(c, PopRings(c, s, failed, now, idle))
  {
    if NoOverride(PopRings(c, s, failed, now, idle).t) && !NextCritical(s.t) && !NextSlot(s.t).overrode {
      PopKeepsOverrides(c, s.t, failed, now, idle);
    }
  }

  lemma SameOverrides(c: Config, s: State, u: State)
    requires Restored(c, s)
    requires u.t.critical == s.t.critical && u.t.motion == s.t.motion
    requires u.t.count == s.t.count && u.t.adaptive == s.t.adaptive
    requires u.b.refused == s.b.refused && Forgot(u.b) == Forgot(s.b)
    ensures Restored(c, u)
  {
  }

  lemma SendRestored(c: Config, s: State, p: Payload, now: U32, idle: bool)
    requires Restored(c, s)
    ensures Restored(c, Send(c, s, p, now, idle))
  {
    var awake := s.(t := Awake(s.t));
    SameOverrides(c, s, awake);
    match SendVerdict(c, s.t, p, now) {
      case Direct => EnqueueRestored(c, awake, p, now, idle);
      case AfterFlush => EnqueueRestored(c, Flush(c, awake, idle), p, now, idle);
      case Swallowed => SameOverrides(c, s, Swallow(s, p));
      case _ =>
    }
  }

  lemma EventRestored(c: Config, s: State, op: Op)
    requires Restored(c, s) && (op.OpSuccess? || op.OpFailed?)
    ensures Restored(c, Step(c, s, op))
  {
    if s.t.fifo != [] {
      if op.OpSuccess? {
        SameOverrides(c, s, Deliver(s));
        PopRestored(c, Deliver(s), false, op.now, op.idle);
      } else if !s.t.sync {
        SameOverrides(c, s, GiveUp(c, s));
        PopRestored(c, GiveUp(c, s), true, op.now, op.idle);
      }
    }
  }

  lemma StepRestored(c: Config, s: State, op: Op)
    requires Restored(c, s)
    ensures Restored(c, Step(c, s, op))
  {
    match op {
      case OpSend(p, now, idle) => SendRestored(c, s, p, now, idle);
      case OpSuccess(_, _) => EventRestored(c, s, op);
      case OpFailed(_, _) => EventRestored(c, s, op);
      case OpTimeout(_) => SameOverrides(c, s, Step(c, s, op));
      case OpSetAddresses(_) => SameOverrides(c, s, Step(c, s, op));
      case OpDeinit => SameOverrides(c, s, Step(c, s, op));
      case OpSlotStop => SameOverrides(c, s, Step(c, s, op));
      case _ =>
    }
  }

  /** Through any interleaving of sends, events, flushes, adaptive ticks, slot starts and stops the count is steady
      whenever no override is outstanding, the last restoration succeeded and neither ring that records overrides has
      overrun. */
  lemma {:induction false} CountRestored(c: Config, ops: seq<Op>)
    ensures Restored(c, Run(c, ops))
  {
    if ops != [] {
      CountRestored(c, ops[..|ops| - 1]);
      StepRestored(c, Run(c, ops[..|ops| - 1]), ops[|ops| - 1]);
    }
  }

  // ----- The same read on the FIFO -----

  /** No packet in the FIFO was sent with an override. */
  ghost predicate PlainFifo(t: Transport) {
    forall i | 0 <= i < |t.fifo| :: !t.fifo[i].critical && !t.fifo[i].pointer
  }

  /** No slot of the rings that record overrides is stale. */
  predicate NoneStale(t: Transport) {
    |t.motion.live| <= |t.fifo| && |t.critical.live| <= |t.fifo|
  }

  lemma PlainMeansNoOverride(c: Config, t: Transport)
    requires Aligned(c, t) && PlainFifo(t) && NoneStale(t)
    ensures NoOverride(t)
  {
    forall i | 0 <= i < |t.motion.live|
      ensures !t.motion.live[i].overrode
    {
      assert Mirrors(c, t, |t.motion.live| - i);
    }
    forall i | 0 <= i < |t.critical.live|
      ensures !t.critical.live[i]
    {
      assert Mirrors(c, t, |t.critical.live| - i);
    }
  }

  /** In every run, slot changes included: if no packet in the FIFO carries an override and no slot is stale, the count
      is steady, unless the last restoration failed or a ring that records overrides has overrun. */
  lemma CountSteadyForPlainFifo(c: Config, ops: seq<Op>)
    requires RingsFit(c) && WellFormedRun(c, ops)
    ensures var s := Run(c, ops);
            PlainFifo(s.t) && NoneStale(s.t) && !s.b.refused && !Forgot(s.b) ==> s.t.count == Steady(c, s.t)
  {
    RingTailsMirrorFifo(c, ops);
    CountRestored(c, ops);
    if PlainFifo(Run(c, ops).t) && NoneStale(Run(c, ops).t) {
      PlainMeansNoOverride(c, Run(c, ops).t);
    }
  }

  // ----- Restorations that a busy radio refuses -----

  /** The radio is idle during the step; no other steps set the count. */
  predicate Idle(op: Op) {
    match op
    case OpSend(_, _, idle) => idle
    case OpSuccess(_, idle) => idle
    case OpFailed(_, idle) => idle
    case OpFlush(idle) => idle
    case OpSetChannel(_, _, idle) => idle
    case OpSideTrip(_, _, idle) => idle
    case OpTick(_, idle) => idle
    case OpSlotStart(ok) => ok
    case _ => true
  }

  /** The step ends with no override outstanding, and began with one. */
  ghost predicate RemovesLast(c: Config, t: Transport, op: Op) {
    !NoOverride(t) && NoOverride(StepOn(c, t, op))
  }

  ghost predicate RestoredIff(c: Config, t: Transport, u: Transport, idle: bool) {
    Steady(c, u) == Steady(c, t) && (u.count == Steady(c, t) <==> idle || t.count == Steady(c, t))
  }

  lemma FlushRestores(c: Config, t: Transport, idle: bool)
    ensures RestoredIff(c, t, Flushed(c, t, idle), idle)
  {
  }

  lemma EventRestores(c: Config, t: Transport, op: Op)
    requires (op.OpSuccess? || op.OpFailed?) && RemovesLast(c, t, op)
    ensures RestoredIff(c, t, StepOn(c, t, op), Idle(op))
  {
    if op.OpSuccess? {
      if !NextCritical(t) && !NextSlot(t).overrode {
        PopKeepsOverrides(c, Delivered(t), false, op.now, op.idle);
      }
    } else if !t.sync {
      var g := GivenUp(c, t);
      if !NextCritical(t) && !NextSlot(t).overrode && !Full(c, g) {
        PopKeepsOverrides(c, g, true, op.now, op.idle);
      }
    }
  }

  lemma EmptyRingsHaveRoom(c: Config, t: Transport)
    requires ValidConfig(c) && t.critical.live == [] && t.motion.live == []
    ensures MotionRoom(c, t) && CriticalRoom(c, t)
  {
  }

  lemma SendRestores(c: Config, t: Transport, p: Payload, now: U32, idle: bool)
    requires ValidConfig(c) && RemovesLast(c, t, OpSend(p, now, idle))
    requires SendVerdict(c, t, p, now) == Direct ==> MotionRoom(c, t) && CriticalRoom(c, t)
    ensures RestoredIff(c, t, SendOn(c, t, p, now, idle), idle)
  {
    var awake := Awake(t);
    match SendVerdict(c, t, p, now) {
      case Direct => PushKeepsOverrides(c, awake, p, Prepare(c, awake, p, now, idle));
      case AfterFlush =>
        var f := Flushed(c, awake, idle);
        EmptyRingsHaveRoom(c, f);
        PushKeepsOverrides(c, f, p, Prepare(c, f, p, now, idle));
      case _ =>
    }
  }

  /** The exact condition, for every event, every flush and every send that flushes first, whatever the rings hold: when
      a step removes the last override, the count is steady afterwards if and only if the radio is idle or the count was
      steady already. (Any other send removes an override only by overrunning a ring.) */
  lemma RestorationSucceeds(c: Config, t: Transport, op: Op)
    requires ValidConfig(c) && RemovesLast(c, t, op)
    requires op.OpSend? && SendVerdict(c, t, op.p, op.now) == Direct ==> MotionRoom(c, t) && CriticalRoom(c, t)
    ensures RestoredIff(c, t, StepOn(c, t, op), Idle(op))
  {
    match op {
      case OpSend(p, now, idle) => SendRestores(c, t, p, now, idle);
      case OpSuccess(_, _) => EventRestores(c, t, op);
      case OpFailed(_, _) => EventRestores(c, t, op);
      case OpFlush(idle) => FlushRestores(c, t, idle);
      case OpSetChannel(_, _, idle) => FlushRestores(c, t, idle);
      case OpSideTrip(_, _, idle) => FlushRestores(c, t, idle);
      case _ =>
    }
  }

  /** The library in vendor/: after an acknowledged packet the radio is idle if and only if no packet is queued behind
      it; after a failed one it always is. */
  predicate AsShipped(t: Transport, op: Op) {
    match op
    case OpSuccess(_, idle) => idle == (|t.fifo| == 1)
    case OpFailed(_, idle) => idle
    case _ => true
  }

  /** So there an acknowledgement that removes the last override puts the steady count back if and only if no packet is
      queued behind the acknowledged one, or the count was steady already. */
  lemma RestoredUnlessQueued(c: Config, t: Transport, op: Op)
    requires ValidConfig(c) && op.OpSuccess? && RemovesLast(c, t, op) && AsShipped(t, op)
    ensures StepOn(c, t, op).count == Steady(c, t) <==> |t.fifo| == 1 || t.count == Steady(c, t)
  {
    RestorationSucceeds(c, t, op);
  }

  /** In a run in which the radio is idle at every step that sets the count, no restoration is ever refused. */
  lemma {:induction false} IdleRunsAreRestored(c: Config, ops: seq<Op>)
    requires forall i | 0 <= i < |ops| :: Idle(ops[i])
    ensures var s := Run(c, ops); !s.b.refused && (NoOverride(s.t) && !Forgot(s.b) ==> s.t.count == Steady(c, s.t))
  {
    if ops != [] {
      var before, op := ops[..|ops| - 1], ops[|ops| - 1];
      IdleRunsAreRestored(c, before);
      assert Idle(op);
      IdleRefusesNothing(c, Run(c, before), op);
    }
    CountRestored(c, ops);
  }

  lemma IdleRefusesNothing(c: Config, s: State, op: Op)
    requires !s.b.refused && Idle(op)
    ensures !Step(c, s, op).b.refused
  {
    match op {
      case OpSend(_, _, _) =>
      case OpSuccess(_, _) =>
      case OpFailed(_, _) =>
      case _ =>
    }
  }

  // ----- The in-flight counter -----

  /** How many live slots carry motion. */
  function Moving(ring: seq<Slot>): nat {
    if ring == [] then 0 else (if ring[0].motion != STILL then 1 else 0) + Moving(ring[1..])
  }

  lemma {:induction false} MovingAppend(ring: seq<Slot>, x: Slot)
    ensures Moving(ring + [x]) == Moving(ring) + if x.motion != STILL then 1 else 0
  {
    if ring != [] {
      MovingAppend(ring[1..], x);
      assert (ring + [x])[1..] == ring[1..] + [x];
    }
  }

  lemma {:induction false} MovingBound(ring: seq<Slot>)
    ensures Moving(ring) <= |ring|
  {
    if ring != [] {
      MovingBound(ring[1..]);
    }
  }

  ghost predicate Counted(c: Config, s: State) {
    !s.b.motionOverrun ==> s.t.inflight == Moving(s.t.motion.live) && |s.t.motion.live| <= c.motionSize
  }

  lemma EnqueueCounted(c: Config, s: State, p: Payload, now: U32, idle: bool)
    requires ValidConfig(c) && Counted(c, s)
    ensures Counted(c, Enqueue(c, s, p, now, idle))
  {
    if !Enqueue(c, s, p, now, idle).b.motionOverrun {
      var k := Prepare(c, s.t, p, now, idle);
      var slot := Slot(k.refund.out, k.pointer);
      R.PushedWithRoom(0x1_0000_0000, c.motionSize, s.t.motion, slot);
      MovingAppend(s.t.motion.live, slot);
      MovingBound(s.t.motion.live);
    }
  }

  lemma PopCounted(c: Config, s: State, failed: bool, now: U32, idle: bool)
    requires Counted(c, s)
    ensures Counted(c, PopRings(c, s, failed, now, idle))
  {
  }

  lemma SendCounted(c: Config, s: State, p: Payload, now: U32, idle: bool)
    requires ValidConfig(c) && Counted(c, s)
    ensures Counted(c, Send(c, s, p, now, idle))
  {
    var awake := s.(t := Awake(s.t));
    match SendVerdict(c, s.t, p, now) {
      case Direct => EnqueueCounted(c, awake, p, now, idle);
      case AfterFlush => EnqueueCounted(c, Flush(c, awake, idle), p, now, idle);
      case _ =>
    }
  }

  lemma EventCounted(c: Config, s: State, op: Op)
    requires Counted(c, s) && (op.OpSuccess? || op.OpFailed?)
    ensures Counted(c, Step(c, s, op))
  {
    if s.t.fifo != [] {
      if op.OpSuccess? {
        if !s.t.sync {
          PopCounted(c, Deliver(s), false, op.now, op.idle);
        }
      } else if !s.t.sync {
        PopCounted(c, GiveUp(c, s), true, op.now, op.idle);
      }
    }
  }

  lemma OtherCounted(c: Config, s: State, op: Op)
    requires Counted(c, s) && !op.OpSend? && !op.OpSuccess? && !op.OpFailed?
    ensures Counted(c, Step(c, s, op))
  {
    match op {
      case OpSetChannel(_, _, _) =>
      case OpSideTrip(_, _, _) =>
      case OpFlush(_) =>
      case _ =>
    }
  }

  lemma StepCounted(c: Config, s: State, op: Op)
    requires ValidConfig(c) && Counted(c, s)
    ensures Counted(c, Step(c, s, op))
  {
    hide Send, TxSuccess, TxFailed, Counted;
    match op {
      case OpSend(p, now, idle) => SendCounted(c, s, p, now, idle);
      case OpSuccess(_, _) => EventCounted(c, s, op);
      case OpFailed(_, _) => EventCounted(c, s, op);
      case _ => OtherCounted(c, s, op);
    }
  }

  /** In every run the in-flight counter is the number of live slots that carry motion, stale ones included, as long as
      the motion ring has not overrun since the last flush: in particular it does not saturate. */
  lemma InflightCountsMovingSlots(c: Config, ops: seq<Op>)
    requires ValidConfig(c)
    ensures var s := Run(c, ops);
            !s.b.motionOverrun ==> s.t.inflight == Moving(s.t.motion.live) <= |s.t.motion.live| <= c.motionSize
  {
    InflightCounted(c, ops);
    MovingBound(Run(c, ops).t.motion.live);
  }

  lemma {:induction false} InflightCounted(c: Config, ops: seq<Op>)
    requires ValidConfig(c)
    ensures Counted(c, Run(c, ops))
  {
    if ops != [] {
      InflightCounted(c, ops[..|ops| - 1]);
      StepCounted(c, Run(c, ops[..|ops| - 1]), ops[|ops| - 1]);
    }
  }

  /** Some ring has overrun since the last flush. */
  predicate Overrun(b: Books) {
    b.noackOverrun || b.criticalOverrun || b.motionOverrun
  }

  lemma SendOverruns(c: Config, s: State, p: Payload, now: U32, idle: bool)
    requires RingsFit(c) && Mirrored(c, s.t) && !Overrun(s.b)
    ensures !Overrun(Send(c, s, p, now, idle).b)
  {
    var awake := s.(t := Awake(s.t));
    SameAligned(c, s.t, awake.t);
    match SendVerdict(c, s.t, p, now) {
      case Direct => PushLengths(c, awake.t, p, Prepare(c, awake.t, p, now, idle));
      case AfterFlush =>
        var f := Flush(c, awake, idle);
        FlushedMirrored(c, awake.t, idle);
        PushLengths(c, f.t, p, Prepare(c, f.t, p, now, idle));
      case _ =>
    }
  }

  lemma StepNeverOverruns(c: Config, s: State, op: Op)
    requires RingsFit(c) && Mirrored(c, s.t) && !Overrun(s.b)
    ensures !Overrun(Step(c, s, op).b)
  {
    match op {
      case OpSend(p, now, idle) => SendOverruns(c, s, p, now, idle);
      case OpSuccess(_, _) =>
      case OpFailed(_, _) =>
      case _ =>
    }
  }

  /** Rings overrun only in runs that are not clean. */
  lemma {:induction false} CleanRunsNeverOverrun(c: Config, ops: seq<Op>, n: nat)
    requires RingsFit(c) && WellFormedRun(c, ops) && CleanRun(c, ops) && n <= |ops|
    ensures !Overrun(Run(c, ops[..n]).b)
  {
    if n > 0 {
      CleanRunsNeverOverrun(c, ops, n - 1);
      CleanPrefix(c, ops, n - 1);
      RunStep(c, ops, n - 1);
      StepNeverOverruns(c, Run(c, ops[..n - 1]), ops[n - 1]);
    }
  }
}
