/** The per-send rings mirror the radio's FIFO in every run of the transport. */
module TransportProofs {
  import opened Words
  import opened TransportModel
  import R = Rings

  /** The rings fit their counters: sizes that divide 256 for the uint8_t ones, and for the motion ring,
      whose counters are uint32_t, a size that divides 2^32 or a FIFO no deeper than the remainder. */
  predicate RingsFit(c: Config) {
    && ValidConfig(c)
    && R.WrapSafe(0x100, c.noackSize, c.fifoDepth)
    && R.WrapSafe(0x100, c.criticalSize, c.fifoDepth)
    && R.WrapSafe(0x1_0000_0000, c.motionSize, c.fifoDepth)
  }

  lemma PowerDivides(n: nat)
    requires PowerOfTwo(n)
    ensures 2 <= n <= 64 && 0x100 % n == 0
  {
  }

  /** Ring sizes that pass the build assertions never let live slots collide while the counters wrap if and only if the
      motion ring's size divides 2^32 or the FIFO is no deeper than the remainder. */
  lemma RingsFitExactly(c: Config)
    requires ValidConfig(c)
    ensures RingsFit(c) <==> 0x1_0000_0000 % c.motionSize == 0 || c.fifoDepth <= 0x1_0000_0000 % c.motionSize
    ensures RingsFit(c) <==>
              R.NeverCollides(0x100, c.noackSize, c.fifoDepth) && R.NeverCollides(0x100, c.criticalSize, c.fifoDepth)
              && R.NeverCollides(0x1_0000_0000, c.motionSize, c.fifoDepth)
  {
    PowerDivides(c.noackSize);
    PowerDivides(c.criticalSize);
    hide R.NeverCollides, PowerOfTwo;
    R.WrapSafeIsExact(0x100, c.noackSize, c.fifoDepth);
    R.WrapSafeIsExact(0x100, c.criticalSize, c.fifoDepth);
    R.WrapSafeIsExact(0x1_0000_0000, c.motionSize, c.fifoDepth);
  }

  // ----- What holds in every run -----

  /** The `k`-th entry from the end, where there are that many, is `x`. */
  predicate EndsOn<T(==)>(w: R.Window<T>, k: nat, x: T)
    requires 1 <= k
  {
    k <= |w.live| ==> w.live[|w.live| - k] == x
  }

  /** The `k`-th entries from the end of the live windows, where there are that many, are the tags of the `k`-th packet
      from the end of the FIFO. */
  ghost predicate Mirrors(c: Config, t: Transport, k: nat)
    requires 1 <= k <= |t.fifo|
  {
    var p := t.fifo[|t.fifo| - k];
    && EndsOn(t.noack, k, p.noack)
    && EndsOn(t.motion, k, SlotFor(p))
    && (c.criticalRetransmit ==> EndsOn(t.critical, k, p.critical))
  }

  /** As far as both reach from the end, windows and FIFO agree. */
  ghost predicate Aligned(c: Config, t: Transport) {
    && |t.fifo| <= c.fifoDepth && (!t.up ==> t.fifo == [])
    && (!c.criticalRetransmit ==> t.critical.live == [])
    && forall k | 1 <= k <= |t.fifo| :: Mirrors(c, t, k)
  }

  /** What every sender guarantees: payloads are neither empty nor on a pipe the radio does not have. */
  predicate WellFormed(c: Config, op: Op) {
    op.OpSend? ==> op.p.len > c.maxLen || Writable(c, op.p)
  }

  predicate WellFormedRun(c: Config, ops: seq<Op>) {
    forall i | 0 <= i < |ops| :: WellFormed(c, ops[i])
  }

  lemma PushKeepsAligned(c: Config, t: Transport, p: Payload, k: Prepared)
    requires RingsFit(c) && Aligned(c, t) && |t.fifo| < c.fifoDepth && Writable(c, p)
    requires IsMouse(p) || k.refund.out == STILL
    ensures Aligned(c, Push(c, t, p, k))
  {
    var u := Push(c, t, p, k);
    if Accepts(c, t, p) {
      forall j | 1 <= j <= |u.fifo|
        ensures Mirrors(c, u, j)
      {
        PushedTags(c, t, u, u.fifo[|t.fifo|], j);
      }
    }
  }

  /** One ring: if the old window ends on the right tags, the new one does. */
  lemma PushedTag<T>(modulus: R.Positive, size: R.Positive, cap: nat, w: R.Window<T>, x: T, j: nat, tag: T)
    requires size < modulus && R.WrapSafe(modulus, size, cap) && 1 <= j <= cap
    requires if j == 1 then tag == x else EndsOn(w, j - 1, tag)
    ensures EndsOn(R.Pushed(modulus, size, w, x), j, tag)
  {
    if j <= |R.Pushed(modulus, size, w, x).live| {
      R.NewestSurvive(modulus, size, cap, w, x, j);
    }
  }

  lemma PushedTags(c: Config, t: Transport, u: Transport, packet: Packet, j: nat)
    requires RingsFit(c) && Aligned(c, t) && |t.fifo| < c.fifoDepth && 1 <= j <= |t.fifo| + 1
    requires u.fifo == t.fifo + [packet]
    requires u.noack == R.Pushed(0x100, c.noackSize, t.noack, packet.noack)
    requires u.motion == R.Pushed(0x1_0000_0000, c.motionSize, t.motion, SlotFor(packet))
    requires c.criticalRetransmit ==> u.critical == R.Pushed(0x100, c.criticalSize, t.critical, packet.critical)
    ensures Mirrors(c, u, j)
  {
    var k := u.fifo[|u.fifo| - j];
    if j > 1 {
      assert Mirrors(c, t, j - 1);
      assert k == t.fifo[|t.fifo| - (j - 1)];
    }
    PushedTag(0x100, c.noackSize, c.fifoDepth, t.noack, packet.noack, j, k.noack);
    PushedTag(0x1_0000_0000, c.motionSize, c.fifoDepth, t.motion, SlotFor(packet), j, SlotFor(k));
    if c.criticalRetransmit {
      PushedTag(0x100, c.criticalSize, c.fifoDepth, t.critical, packet.critical, j, k.critical);
    }
  }

  /** Popping one slot from every ring together with at most one packet from the FIFO. */
  lemma PoppedAligned(c: Config, t: Transport, u: Transport)
    requires Aligned(c, t) && t.fifo != []
    requires u.up == t.up && (u.fifo == t.fifo || u.fifo == t.fifo[1..])
    requires u.noack == R.Popped(0x100, t.noack) && u.critical == R.Popped(0x100, t.critical)
    requires u.motion == R.Popped(0x1_0000_0000, t.motion)
    ensures Aligned(c, u)
  {
    forall k | 1 <= k <= |u.fifo|
      ensures Mirrors(c, u, k)
    {
      assert Mirrors(c, t, k);
    }
  }

  lemma SameAligned(c: Config, t: Transport, u: Transport)
    requires Aligned(c, t) && u.up == t.up
    requires u.fifo == t.fifo || (t.fifo != [] && u.fifo == t.fifo[1..])
    requires u.noack == t.noack && u.critical == t.critical && u.motion == t.motion
    ensures Aligned(c, u)
  {
    forall k | 1 <= k <= |u.fifo|
      ensures Mirrors(c, u, k)
    {
      assert Mirrors(c, t, k);
    }
  }

  lemma SendAligned(c: Config, t: Transport, p: Payload, now: U32, idle: bool)
    requires RingsFit(c) && Aligned(c, t) && (p.len > c.maxLen || Writable(c, p))
    ensures Aligned(c, SendOn(c, t, p, now, idle))
  {
    SameAligned(c, t, Awake(t));
    match SendVerdict(c, t, p, now) {
      case Direct => PushKeepsAligned(c, Awake(t), p, Prepare(c, Awake(t), p, now, idle));
      case AfterFlush =>
        var f := Flushed(c, Awake(t), idle);
        PushKeepsAligned(c, f, p, Prepare(c, f, p, now, idle));
      case _ =>
    }
  }

  lemma EventAligned(c: Config, t: Transport, op: Op)
    requires RingsFit(c) && Aligned(c, t) && (op.OpSuccess? || op.OpFailed?)
    ensures Aligned(c, StepOn(c, t, op))
  {
    if t.fifo != [] {
      if op.OpSuccess? {
        SameAligned(c, t, Delivered(t));
        if !t.sync {
          PoppedAligned(c, t, SuccessOn(c, t, op.now, op.idle));
        }
      } else if !t.sync {
        PoppedAligned(c, t, Popped(c, GivenUp(c, t), true, op.now, op.idle));
      }
    }
  }

  /** Everything but sends and radio events empties the FIFO, but for a side-trip's packet, or leaves rings and FIFO
      alone. */
  lemma OtherAligned(c: Config, t: Transport, op: Op)
    requires RingsFit(c) && Aligned(c, t) && !op.OpSend? && !op.OpSuccess? && !op.OpFailed?
    ensures Aligned(c, StepOn(c, t, op))
  {
    var u := StepOn(c, t, op);
    match op {
      case OpTimeout(_) => SameAligned(c, t, u);
      case OpTick(_, _) => SameAligned(c, t, u);
      case OpSetAddresses(_) => SameAligned(c, t, u);
      case OpDeinit => SameAligned(c, t, u);
      case OpSetChannel(_, _, _) =>
      case OpSideTrip(_, _, _) =>
      case _ =>
    }
  }

  lemma StepAligned(c: Config, t: Transport, op: Op)
    requires RingsFit(c) && Aligned(c, t) && WellFormed(c, op)
    ensures Aligned(c, StepOn(c, t, op))
  {
    match op {
      case OpSend(p, now, idle) => SendAligned(c, t, p, now, idle);
      case OpSuccess(_, _) => EventAligned(c, t, op);
      case OpFailed(_, _) => EventAligned(c, t, op);
      case _ => OtherAligned(c, t, op);
    }
  }

  /** In every run, slots started and stopped at any time, sends while the library is down, ring overruns and counter
      wraps included: as far as both reach from the end, the windows of the three rings are, in order, the tags of
      the packets of the FIFO. */
  lemma {:induction false} RingTailsMirrorFifo(c: Config, ops: seq<Op>)
    requires RingsFit(c) && WellFormedRun(c, ops)
    ensures Aligned(c, Run(c, ops).t)
  {
    if ops != [] {
      var s, op := Run(c, ops[..|ops| - 1]), ops[|ops| - 1];
      RingTailsMirrorFifo(c, ops[..|ops| - 1]);
      StepAligned(c, s.t, op);
      BooksOnlyWatch(c, s, op);
    }
  }

  // ----- Windows that hold nothing else -----

  /** The windows are exactly the tags, in order, of the last packets of the FIFO: no slot is stale. During a side-trip
      only its packet is in the FIFO, and the rings are empty. */
  ghost predicate Mirrored(c: Config, t: Transport) {
    && Aligned(c, t)
    && |t.noack.live| == |t.motion.live| <= |t.fifo|
    && |t.critical.live| == (if c.criticalRetransmit then |t.motion.live| else 0)
    && (t.sync ==> t.motion.live == [] && |t.fifo| <= 1)
  }

  /** How many packets at the front of the FIFO have no ring slot. */
  function Skew(t: Transport): int {
    |t.fifo| - |t.motion.live|
  }

  /** The step leaves no stale slot: a send that pushes the rings is written to the FIFO, and the library is started or
      disabled only with empty rings. */
  predicate Clean(c: Config, t: Transport, op: Op) {
    match op
    case OpSend(p, now, _) => SendVerdict(c, t, p, now) in {Direct, AfterFlush} ==> Accepts(c, t, p)
    case OpSlotStart(_) => t.motion.live == []
    case OpSlotStop => t.motion.live == []
    case _ => true
  }

  /** A push in a state without stale slots destroys nothing. */
  lemma PushLengths(c: Config, t: Transport, p: Payload, k: Prepared)
    requires RingsFit(c) && Mirrored(c, t) && |t.fifo| < c.fifoDepth
    ensures NoackRoom(c, t) && CriticalRoom(c, t) && MotionRoom(c, t)
    ensures var u := Push(c, t, p, k);
            && |u.noack.live| == |u.motion.live| == |t.motion.live| + 1
            && |u.critical.live| == (if c.criticalRetransmit then |u.motion.live| else 0)
  {
    R.RoomBelowCap(0x100, c.noackSize, c.fifoDepth, t.noack);
    R.RoomBelowCap(0x100, c.criticalSize, c.fifoDepth, t.critical);
    R.RoomBelowCap(0x1_0000_0000, c.motionSize, c.fifoDepth, t.motion);
  }

  lemma FlushedMirrored(c: Config, t: Transport, idle: bool)
    requires Aligned(c, t)
    ensures Mirrored(c, Flushed(c, t, idle)) && Skew(Flushed(c, t, idle)) == 0
  {
  }

  lemma PushMirrored(c: Config, t: Transport, p: Payload, now: U32, idle: bool)
    requires RingsFit(c) && Mirrored(c, t) && |t.fifo| < c.fifoDepth && Writable(c, p) && !t.sync
    ensures var u := Enqueued(c, t, p, now, idle);
            && (Mirrored(c, u) <==> Accepts(c, t, p))
            && (Accepts(c, t, p) ==> Skew(u) == Skew(t)) && u.sync == t.sync
  {
    PushLengths(c, t, p, Prepare(c, t, p, now, idle));
    PushKeepsAligned(c, t, p, Prepare(c, t, p, now, idle));
  }

  lemma SendMirrored(c: Config, t: Transport, p: Payload, now: U32, idle: bool)
    requires RingsFit(c) && Mirrored(c, t) && (p.len > c.maxLen || Writable(c, p))
    ensures var u := SendOn(c, t, p, now, idle);
            && (Mirrored(c, u) <==> Clean(c, t, OpSend(p, now, idle)))
            && (Mirrored(c, u) && Skew(t) == 0 ==> Skew(u) == 0) && u.sync == t.sync
  {
    SendAligned(c, t, p, now, idle);
    SameAligned(c, t, Awake(t));
    match SendVerdict(c, t, p, now) {
      case Direct => PushMirrored(c, Awake(t), p, now, idle);
      case AfterFlush =>
        FlushedMirrored(c, Awake(t), idle);
        PushMirrored(c, Flushed(c, Awake(t), idle), p, now, idle);
      case _ =>
    }
  }

  lemma EventMirrored(c: Config, t: Transport, op: Op)
    requires RingsFit(c) && Mirrored(c, t) && (op.OpSuccess? || op.OpFailed?)
    ensures Mirrored(c, StepOn(c, t, op))
  {
    EventAligned(c, t, op);
  }

  lemma OtherMirrored(c: Config, t: Transport, op: Op)
    requires RingsFit(c) && Mirrored(c, t) && !op.OpSend? && !op.OpSuccess? && !op.OpFailed?
    ensures Mirrored(c, StepOn(c, t, op)) <==> Clean(c, t, op)
  {
    OtherAligned(c, t, op);
  }

  /** From a state without stale slots a step keeps it so if and only if it is clean. */
  lemma StepMirrored(c: Config, t: Transport, op: Op)
    requires RingsFit(c) && Mirrored(c, t) && WellFormed(c, op)
    ensures Mirrored(c, StepOn(c, t, op)) <==> Clean(c, t, op)
  {
    match op {
      case OpSend(p, now, idle) => SendMirrored(c, t, p, now, idle);
      case OpSuccess(_, _) => EventMirrored(c, t, op);
      case OpFailed(_, _) => EventMirrored(c, t, op);
      case _ => OtherMirrored(c, t, op);
    }
  }

  /** Every step of the run is clean. */
  ghost predicate CleanRun(c: Config, ops: seq<Op>) {
    forall i | 0 <= i < |ops| :: Clean(c, Run(c, ops[..i]).t, ops[i])
  }

  ghost predicate AlwaysMirrored(c: Config, ops: seq<Op>) {
    forall n | 0 <= n <= |ops| :: Mirrored(c, Run(c, ops[..n]).t)
  }

  lemma RunStep(c: Config, ops: seq<Op>, n: nat)
    requires n < |ops|
    ensures Run(c, ops[..n + 1]) == Step(c, Run(c, ops[..n]), ops[n])
    ensures Run(c, ops[..n + 1]).t == StepOn(c, Run(c, ops[..n]).t, ops[n])
  {
    assert ops[..n + 1][..n] == ops[..n];
    BooksOnlyWatch(c, Run(c, ops[..n]), ops[n]);
  }

  lemma {:induction false} CleanPrefix(c: Config, ops: seq<Op>, n: nat)
    requires RingsFit(c) && WellFormedRun(c, ops) && CleanRun(c, ops) && n <= |ops|
    ensures Mirrored(c, Run(c, ops[..n]).t)
  {
    if n > 0 {
      CleanPrefix(c, ops, n - 1);
      RunStep(c, ops, n - 1);
      StepMirrored(c, Run(c, ops[..n - 1]).t, ops[n - 1]);
    }
  }

  /** Throughout a run the windows are exactly the tags, in order, of the last packets of the FIFO, so that no ring needs
      more slots than the FIFO is deep, if and only if every send that pushes the rings is written and the library is
      started and disabled only with empty rings. */
  lemma RingsMirrorFifo(c: Config, ops: seq<Op>)
    requires RingsFit(c) && WellFormedRun(c, ops)
    ensures AlwaysMirrored(c, ops) <==> CleanRun(c, ops)
  {
    if CleanRun(c, ops) {
      forall n | 0 <= n <= |ops| ensures Mirrored(c, Run(c, ops[..n]).t) { CleanPrefix(c, ops, n); }
    }
    if AlwaysMirrored(c, ops) {
      forall i | 0 <= i < |ops|
        ensures Clean(c, Run(c, ops[..i]).t, ops[i])
      {
        assert Mirrored(c, Run(c, ops[..i]).t) && Mirrored(c, Run(c, ops[..i + 1]).t);
        RunStep(c, ops, i);
        StepMirrored(c, Run(c, ops[..i]).t, ops[i]);
      }
    }
  }

  // ----- Lockstep -----

  /** The windows are exactly the tags of all the packets in the FIFO. */
  ghost predicate Lockstep(c: Config, t: Transport) {
    Mirrored(c, t) && Skew(t) == 0
  }

  /** Lockstep outside side-trips. */
  ghost predicate InStep(c: Config, t: Transport) {
    Mirrored(c, t) && (t.sync || Skew(t) == 0)
  }

  /** The step keeps lockstep: it is clean, a failed packet leaves the FIFO or meets it full, and a side-trip times out
      only after its packet has left. */
  predicate Harmless(c: Config, t: Transport, op: Op) {
    && Clean(c, t, op)
    && (op.OpFailed? ==> t.fifo == [] || t.sync || c.failedLeaves || Full(c, t))
    && (op.OpTimeout? ==> !t.sync || t.fifo == [])
  }

  /** From lockstep, a step keeps it if and only if it is harmless. */
  lemma StepInStep(c: Config, t: Transport, op: Op)
    requires RingsFit(c) && InStep(c, t) && WellFormed(c, op)
    ensures InStep(c, StepOn(c, t, op)) <==> Harmless(c, t, op)
  {
    StepMirrored(c, t, op);
    match op {
      case OpSend(p, now, idle) => SendMirrored(c, t, p, now, idle);
      case OpSuccess(_, _) =>
      case OpFailed(_, _) =>
      case _ =>
    }
  }

  ghost predicate HarmlessRun(c: Config, ops: seq<Op>) {
    forall i | 0 <= i < |ops| :: Harmless(c, Run(c, ops[..i]).t, ops[i])
  }

  ghost predicate AlwaysInStep(c: Config, ops: seq<Op>) {
    forall n | 0 <= n <= |ops| :: InStep(c, Run(c, ops[..n]).t)
  }

  lemma {:induction false} HarmlessPrefix(c: Config, ops: seq<Op>, n: nat)
    requires RingsFit(c) && WellFormedRun(c, ops) && HarmlessRun(c, ops) && n <= |ops|
    ensures InStep(c, Run(c, ops[..n]).t)
  {
    if n > 0 {
      HarmlessPrefix(c, ops, n - 1);
      RunStep(c, ops, n - 1);
      StepInStep(c, Run(c, ops[..n - 1]).t, ops[n - 1]);
    }
  }

  /** Throughout a run the windows are exactly the tags of the packets in the FIFO, whenever no side-trip is under way,
      if and only if every step is harmless. With the library in vendor/ that takes every failure outside a
      side-trip to meet a full FIFO. */
  lemma RingsInLockstep(c: Config, ops: seq<Op>)
    requires RingsFit(c) && WellFormedRun(c, ops)
    ensures AlwaysInStep(c, ops) <==> HarmlessRun(c, ops)
  {
    if HarmlessRun(c, ops) {
      forall n | 0 <= n <= |ops| ensures InStep(c, Run(c, ops[..n]).t) { HarmlessPrefix(c, ops, n); }
    }
    if AlwaysInStep(c, ops) {
      forall i | 0 <= i < |ops|
        ensures Harmless(c, Run(c, ops[..i]).t, ops[i])
      {
        assert InStep(c, Run(c, ops[..i]).t) && InStep(c, Run(c, ops[..i + 1]).t);
        RunStep(c, ops, i);
        StepInStep(c, Run(c, ops[..i]).t, ops[i]);
      }
    }
  }

  /** The slots an event pops are those of the packet `Skew` places behind the one the event is about: its own
      in lockstep. */
  lemma EventConsumesSlot(c: Config, t: Transport)
    requires Mirrored(c, t) && t.motion.live != []
    ensures var k := t.fifo[Skew(t)];
            && NextSlot(t) == SlotFor(k) && NextNoack(t) == k.noack
            && (c.criticalRetransmit ==> NextCritical(t) == k.critical)
  {
    assert Mirrors(c, t, |t.motion.live|);
  }

  // ----- What lockstep depends on -----

  /** A failed packet keeps the rings in lockstep if and only if the library removes it from the FIFO or the
      FIFO is full, which makes the event handler flush. */
  lemma FailureKeepsLockstep(c: Config, t: Transport, now: U32, idle: bool)
    requires RingsFit(c) && Lockstep(c, t) && t.fifo != [] && !t.sync
    ensures Lockstep(c, FailedOn(c, t, now, idle)) <==> c.failedLeaves || Full(c, t)
  {
    EventMirrored(c, t, OpFailed(now, idle));
  }

  /** Each failure the library keeps puts the rings one more packet out of step. */
  lemma FailureSkews(c: Config, t: Transport, now: U32, idle: bool)
    requires t.fifo != [] && !c.failedLeaves && t.motion.live != [] && !t.sync && !Full(c, t)
    ensures Skew(FailedOn(c, t, now, idle)) == Skew(t) + 1
  {
  }

  /** A send that pushes the rings keeps them in lockstep if and only if the library is initialised and takes the
      payload: the rings are pushed before the library can turn it down. */
  lemma SendKeepsLockstep(c: Config, t: Transport, p: Payload, now: U32, idle: bool)
    requires RingsFit(c) && Lockstep(c, t) && SendVerdict(c, t, p, now) in {Direct, AfterFlush}
    ensures Lockstep(c, SendOn(c, t, p, now, idle)) <==> Accepts(c, t, p)
  {
    if Writable(c, p) {
      SendMirrored(c, t, p, now, idle);
    } else {
      SameAligned(c, t, Awake(t));
      FlushedMirrored(c, Awake(t), idle);
      var u := if Full(c, t) then Flushed(c, Awake(t), idle) else Awake(t);
      PushLengths(c, u, p, Prepare(c, u, p, now, idle));
    }
  }

  /** Starting or stopping a slot leaves no stale slot if and only if the rings are empty: it empties the FIFO alone. */
  lemma SlotChangeKeepsMirror(c: Config, t: Transport, ok: bool)
    requires RingsFit(c) && Mirrored(c, t)
    ensures Mirrored(c, SlotStartOn(c, t, ok)) <==> t.motion.live == []
    ensures Mirrored(c, SlotStopOn(t)) <==> t.motion.live == []
  {
  }

  /** A side-trip that times out leaves its packet in the FIFO with no slot: lockstep survives if and only if
      the packet is already gone. */
  lemma TimeoutKeepsLockstep(c: Config, t: Transport)
    requires Mirrored(c, t) && t.sync
    ensures Lockstep(c, TimeoutOn(t)) <==> t.fifo == []
  {
    SameAligned(c, t, TimeoutOn(t));
  }

  /** An unflushed drain heals: once the FIFO is empty and no slot is stale, the rings are in lockstep again. */
  lemma EmptyFifoIsLockstep(c: Config, t: Transport)
    requires Mirrored(c, t) && t.fifo == []
    ensures Lockstep(c, t)
  {
  }
}
