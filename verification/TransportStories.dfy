/** What moves the transport's own variables, what a send does and tags, and how long the transport keeps quiet. */
module TransportStories {
  import opened Words
  import opened TransportModel
  import opened SendProofs
  import R = Rings

  // ----- What a send does -----

  /** A shell packet, in the bytes of the protocol. */
  predicate ShellPacket(p: Payload) {
    p.len >= 1 && p.kind in {0x09, 0x0A, 0x0B}
  }

  /** A packet that deserves more retransmits. */
  predicate Urgent(p: Payload) {
    p.len >= 1 && p.kind in {0x01, 0x03, 0x07, 0x10, 0x14, 0x17, 0x18}
  }

  /** A packet that wants no acknowledgement. */
  predicate Unacked(c: Config, p: Payload) {
    c.hidNoack && p.pipe == 1 && p.len >= 2 && p.kind == 0x06 && p.report == 0x02
  }

  /** The radio library takes the packet. */
  predicate Takes(c: Config, t: Transport, p: Payload) {
    t.up && 1 <= p.len <= c.maxLen && p.pipe < c.pipes
  }

  /** The send goes through: the packet is not too long, the transport not quiet, and a full FIFO is flushed for it unless it is
      a shell packet. */
  predicate Passes(c: Config, t: Transport, p: Payload, now: U32) {
    p.len <= c.maxLen && !IsQuiet(t, now) && (|t.fifo| < c.fifoDepth || !ShellPacket(p))
  }

  lemma PassesExactly(c: Config, t: Transport, p: Payload, now: U32)
    ensures Passes(c, t, p, now) <==> SendVerdict(c, t, p, now) in {Direct, AfterFlush}
    ensures Takes(c, t, p) <==> Accepts(c, t, p)
  {
    hide IsQuiet;
  }

  /** What a send does: nothing if the packet is too long or the transport quiet; it ends the quiet window and no more if the
      FIFO is full and it is a shell packet; otherwise the packet joins the FIFO, which is emptied first if it was full, if the
      library takes it. */
  lemma SendsExactly(c: Config, t: Transport, p: Payload, now: U32, idle: bool)
    ensures var u := SendOn(c, t, p, now, idle);
            if p.len > c.maxLen || IsQuiet(t, now) then u == t
            else if !Passes(c, t, p, now) then u == t.(quietUntil := 0)
            else
              var kept := if |t.fifo| >= c.fifoDepth then [] else t.fifo;
              && u.quietUntil == 0 && |u.fifo| == |kept| + (if Takes(c, t, p) then 1 else 0) && u.fifo[..|kept|] == kept
              && (Takes(c, t, p) ==> u.fifo[|kept|].payload == p.(motion := u.fifo[|kept|].payload.motion))
  {
    hide IsQuiet, Prepare, R.Pushed;
    PassesExactly(c, t, p, now);
    match SendVerdict(c, t, p, now) {
      case Direct => PushAppends(c, Awake(t), p, now, idle);
      case AfterFlush => PushAppends(c, Flushed(c, Awake(t), idle), p, now, idle);
      case _ =>
    }
  }

  lemma PushAppends(c: Config, t: Transport, p: Payload, now: U32, idle: bool)
    ensures var u := Enqueued(c, t, p, now, idle);
            && u.quietUntil == t.quietUntil && |u.fifo| == |t.fifo| + (if Accepts(c, t, p) then 1 else 0)
            && u.fifo[..|t.fifo|] == t.fifo
            && (Accepts(c, t, p) ==> u.fifo[|t.fifo|].payload == p.(motion := u.fifo[|t.fifo|].payload.motion))
  {
    hide Prepare, R.Pushed, Accepts;
  }

  lemma PushTags(c: Config, t: Transport, p: Payload, now: U32, idle: bool)
    ensures var u, k := Enqueued(c, t, p, now, idle), Prepare(c, t, p, now, idle);
            && u.count == k.count
            && (|t.motion.live| + 1 < 0x1_0000_0000 ==>
                  u.motion.live != [] && u.motion.live[|u.motion.live| - 1] == Slot(k.refund.out, k.pointer))
            && (Accepts(c, t, p) ==> u.fifo == t.fifo + [Packet(p.(motion := k.refund.out), k.noack, k.critical, k.pointer)])
  {
    hide Prepare, Accepts;
  }

  lemma PreparedTags(c: Config, t: Transport, p: Payload, now: U32, idle: bool)
    ensures var k := Prepare(c, t, p, now, idle);
            var moving := k.refund.out != STILL && p.buttons == 0 && !Unacked(c, p);
            && k.noack == Unacked(c, p) && k.critical == (c.criticalRetransmit && Urgent(p)) && k.pointer == moving
            && k.count == (if !idle then t.count else if moving then c.pointerCount
                           else if c.criticalRetransmit && Urgent(p) then c.criticalCount else t.count)
  {
    hide ApplyRefund;
  }

  /** The motion that a packet goes out with, as the pool tells. */
  function Outgoing(c: Config, t: Transport, p: Payload, now: U32, u: Transport): Motion {
    if !MouseReport(p) then STILL else if Timely(c, t, now) then Taken(t, p, u) else p.motion
  }

  lemma OutgoingIs(c: Config, t: Transport, p: Payload, now: U32, idle: bool)
    ensures Prepare(c, t, p, now, idle).refund.out == Outgoing(c, t, p, now, Enqueued(c, t, p, now, idle))
  {
    PushedLast(c, t, p, now, idle);
    if IsMouse(p) {
      RefundTaken(c, t.pool, t.stamp, p.motion, now);
    }
    hide Enqueued, ApplyRefund, Wrap32;
  }

  /** How a packet is tagged that goes through, and the retransmit count it is sent with. A report that moves the pointer with
      no button down, and is to be acknowledged, goes out with the pointer's count, an urgent packet with its own; but the
      radio takes a new count only while it is idle. A flush has put the steady count in force before. */
  lemma SendTags(c: Config, t: Transport, p: Payload, now: U32, idle: bool)
    requires HandsOver(c, t, p, now)
    ensures var u := SendOn(c, t, p, now, idle);
            var out := Outgoing(c, t, p, now, u);
            var moving := out != STILL && p.buttons == 0 && !Unacked(c, p);
            var urgent := c.criticalRetransmit && Urgent(p);
            var steady := if c.adaptiveRetry then t.adaptive else c.baseCount;
            && (|t.motion.live| + 1 < 0x1_0000_0000 ==>
                  u.motion.live != [] &&
                  var slot := u.motion.live[|u.motion.live| - 1]; slot.motion == out && slot.overrode == moving)
            && (Takes(c, t, p) ==>
                  u.fifo != [] &&
                  var last := u.fifo[|u.fifo| - 1];
                  last.payload.motion == out && last.noack == Unacked(c, p) && last.critical == urgent && last.pointer == moving)
            && u.count == (if !idle then t.count else if moving then c.pointerCount else if urgent then c.criticalCount
                           else if |t.fifo| >= c.fifoDepth then steady else t.count)
  {
    PassesExactly(c, t, p, now);
    var v := if Full(c, t) then Flushed(c, Awake(t), idle) else Awake(t);
    assert SendOn(c, t, p, now, idle) == Enqueued(c, v, p, now, idle);
    PushTags(c, v, p, now, idle);
    OutgoingIs(c, v, p, now, idle);
    PreparedTags(c, v, p, now, idle);
    hide Enqueued, SendOn, Prepare, Unacked, Urgent, Add, Sub, Wrap32;
  }

  // ----- The story of a run -----

  /** What a run told so far: whether the library is up, and the addresses given; the active channel; whether a side-trip waits;
      the count that the link asked for last; and when the quiet window began, -1 if there is none. */
  datatype Story = Story(up: bool, configured: bool, channel: nat, visiting: bool, adaptive: int, hushed: int)

  /** The channel change is taken. */
  predicate Moves(s: Story, op: Op) {
    op.OpSetChannel? && s.configured && op.idle && op.channel <= 100
  }

  /** The side-trip begins. */
  predicate Visits(c: Config, s: Story, op: Op) {
    op.OpSideTrip? && s.configured && !s.visiting && op.idle && op.channel <= 100
    && s.up && 1 <= op.p.len <= c.maxLen && op.p.pipe < c.pipes
  }

  /** The step ends the side-trip that waits. */
  predicate EndsVisit(t: Transport, op: Op) {
    op.OpTimeout? || ((op.OpSuccess? || op.OpFailed?) && t.fifo != [])
  }

  /** The send finds the transport awake, and ends the quiet window. */
  predicate Wakes(c: Config, t: Transport, op: Op) {
    op.OpSend? && op.p.len <= c.maxLen && !IsQuiet(t, op.now)
  }

  function Told(c: Config, t: Transport, s: Story, op: Op): Story {
    Story(
      if op.OpSlotStart? then op.ok else !op.OpSlotStop? && s.up,
      op.OpSetAddresses? || (!op.OpDeinit? && s.configured),
      if Moves(s, op) || op.OpSetAddresses? then op.channel else s.channel,
      Visits(c, s, op) || (s.visiting && !EndsVisit(t, op)),
      if op.OpTick? && c.adaptiveRetry && op.idle then op.want
      else if op.OpSlotStart? && op.ok then c.baseCount
      else s.adaptive,
      if Moves(s, op) then op.now else if Wakes(c, t, op) then -1 else s.hushed)
  }

  ghost function StoryOf(c: Config, ops: seq<Op>): Story {
    if ops == [] then Story(false, false, 0, false, c.baseCount, -1)
    else
      var before := ops[..|ops| - 1];
      Told(c, Run(c, before).t, StoryOf(c, before), ops[|ops| - 1])
  }

  predicate Knows(c: Config, t: Transport, s: Story) {
    && t.up == s.up && t.configured == s.configured && t.channel == s.channel && t.sync == s.visiting && t.adaptive == s.adaptive
    && t.quietUntil == if s.hushed < 0 then 0 else NonZero(Wrap32(s.hushed + c.quietMs))
  }

  predicate SameDesk(t: Transport, u: Transport) {
    && u.up == t.up && u.configured == t.configured && u.channel == t.channel && u.sync == t.sync && u.adaptive == t.adaptive
    && u.quietUntil == t.quietUntil
  }

  lemma SendDesk(c: Config, t: Transport, p: Payload, now: U32, idle: bool)
    ensures var u := SendOn(c, t, p, now, idle);
            SameDesk(if p.len <= c.maxLen && !IsQuiet(t, now) then t.(quietUntil := 0) else t, u)
  {
    hide IsQuiet, Prepare, R.Pushed;
    match SendVerdict(c, t, p, now) {
      case TooLong =>
      case Swallowed =>
      case NoMemory =>
      case Direct =>
      case AfterFlush =>
    }
  }

  lemma EventDesk(c: Config, t: Transport, op: Op)
    requires op.OpSuccess? || op.OpFailed?
    ensures SameDesk(if t.fifo != [] then t.(sync := false) else t, StepOn(c, t, op))
  {
    hide R.Popped, NextSlot, Steady;
    if t.fifo == [] {
    } else if t.sync {
    } else if op.OpSuccess? {
    } else {
      var u := Popped(c, GivenUp(c, t), true, op.now, op.idle);
      if Full(c, u) {
      } else {
      }
    }
  }

  lemma LearnsSend(c: Config, t: Transport, s: Story, op: Op)
    requires Knows(c, t, s) && op.OpSend?
    ensures Knows(c, StepOn(c, t, op), Told(c, t, s, op))
  {
    SendDesk(c, t, op.p, op.now, op.idle);
    hide SendOn, IsQuiet;
  }

  lemma LearnsEvent(c: Config, t: Transport, s: Story, op: Op)
    requires Knows(c, t, s) && (op.OpSuccess? || op.OpFailed?)
    ensures Knows(c, StepOn(c, t, op), Told(c, t, s, op))
  {
    EventDesk(c, t, op);
    hide StepOn;
  }

  lemma LearnsTrip(c: Config, t: Transport, s: Story, op: Op)
    requires Knows(c, t, s) && (op.OpSideTrip? || op.OpSetChannel?)
    ensures Knows(c, StepOn(c, t, op), Told(c, t, s, op))
  {
    hide R.Drained, Steady;
    if op.OpSideTrip? {
    } else {
    }
  }

  lemma Learns(c: Config, t: Transport, s: Story, op: Op)
    requires Knows(c, t, s)
    ensures Knows(c, StepOn(c, t, op), Told(c, t, s, op))
  {
    hide SendOn, SuccessOn, FailedOn, SetChannelOn, SideTripOn, NonZero, Wrap32;
    match op {
      case OpSend(_, _, _) => LearnsSend(c, t, s, op);
      case OpSuccess(_, _) => LearnsEvent(c, t, s, op);
      case OpFailed(_, _) => LearnsEvent(c, t, s, op);
      case OpSetChannel(_, _, _) => LearnsTrip(c, t, s, op);
      case OpSideTrip(_, _, _) => LearnsTrip(c, t, s, op);
      case _ =>
    }
  }

  /** In every run the transport knows the story. */
  lemma {:induction false} KnowsItsStory(c: Config, ops: seq<Op>)
    ensures Knows(c, Run(c, ops).t, StoryOf(c, ops))
  {
    if ops != [] {
      var before, op := ops[..|ops| - 1], ops[|ops| - 1];
      KnowsItsStory(c, before);
      BooksOnlyWatch(c, Run(c, before), op);
      Learns(c, Run(c, before).t, StoryOf(c, before), op);
      hide Step, StepOn, Told, Knows;
    }
  }

  // ----- How long the transport keeps quiet -----

  lemma StillAheadExactly(since: nat, hold: nat, now: nat)
    requires since <= now && now < since + hold + 0x8000_0000 && hold < 0x8000_0000
    ensures StillAhead(Wrap32(since + hold), Wrap32(now)) <==> now < since + hold
  {
  }

  /** The transport is quiet while a side-trip waits, and for exactly the configured time after a channel change, unless a send
      found it awake since. If the time is over at a multiple of 2^32 milliseconds, it is one millisecond longer, as zero
      stands for "none". */
  lemma QuietExactly(c: Config, ops: seq<Op>, since: nat, now: nat)
    requires c.quietMs + 1 < 0x8000_0000
    ensures var t, s := Run(c, ops).t, StoryOf(c, ops);
            && (s.hushed < 0 ==> (IsQuiet(t, Wrap32(now)) <==> s.visiting))
            && (s.hushed == Wrap32(since) && since <= now < since + c.quietMs + 0x8000_0000 ==>
                  (IsQuiet(t, Wrap32(now)) <==>
                     s.visiting || now < since + c.quietMs + if Wrap32(since + c.quietMs) == 0 then 1 else 0))
  {
    KnowsItsStory(c, ops);
    var t, s := Run(c, ops).t, StoryOf(c, ops);
    hide Run, StoryOf, StillAhead;
    if s.hushed == Wrap32(since) && since <= now < since + c.quietMs + 0x8000_0000 {
      var hold := c.quietMs + if Wrap32(since + c.quietMs) == 0 then 1 else 0;
      SumWraps(since, c.quietMs);
      StillAheadExactly(since, hold, now);
    }
  }

  lemma SumWraps(since: nat, hold: nat)
    ensures Wrap32(Wrap32(since) + hold) == Wrap32(since + hold)
    ensures Wrap32(since + hold) == 0 ==> Wrap32(since + hold + 1) == 1
  {
  }

  // ----- Flushes, side-trips and the retransmit count -----

  /** Nothing is left in the FIFO or in a ring, and the in-flight counter is zero. */
  predicate Emptied(t: Transport) {
    t.fifo == [] && t.noack.live == [] && t.critical.live == [] && t.motion.live == [] && t.inflight == 0
  }

  /** A channel change that is refused empties everything nonetheless, and one that is taken too; a side-trip that begins leaves
      its own packet in the FIFO, untagged, and nothing in the rings, and one that the radio or the library refuses leaves
      nothing. Without addresses, or while another side-trip waits, nothing happens. */
  lemma ChangesEmpty(c: Config, t: Transport, op: Op)
    requires op.OpSetChannel? || op.OpSideTrip?
    ensures var u := StepOn(c, t, op);
            && (op.OpSetChannel? ==> if t.configured then Emptied(u) else u == t)
            && (op.OpSideTrip? ==>
                  if op.p.len > c.maxLen || !t.configured || t.sync then u == t
                  else if op.idle && op.channel <= 100 && Takes(c, t, op.p)
                  then Emptied(u.(fifo := [])) && u.fifo == [Packet(op.p, false, false, false)] && u.sync
                  else Emptied(u) && !u.sync)
  {
    hide Steady;
    if op.OpSetChannel? {
    } else {
    }
  }

  /** An event of a packet that has a slot. */
  predicate Pops(t: Transport, op: Op) {
    (op.OpSuccess? || op.OpFailed?) && t.fifo != [] && !t.sync
  }

  /** The slots that the event pops record an override of the retransmit count. */
  predicate PopsOverride(t: Transport) {
    (t.critical.live != [] && t.critical.live[0]) || (t.motion.live != [] && t.motion.live[0].overrode)
  }

  /** The event finds the FIFO still full, and empties it; or it is that of a side-trip that failed. */
  predicate Overflows(c: Config, t: Transport, op: Op) {
    op.OpFailed? && t.fifo != []
    && (t.sync || |t.fifo| - (if c.failedLeaves then 1 else 0) >= c.fifoDepth)
  }

  /** What other steps than a send do to the retransmit count. The steady count comes back with the slot that records an
      override and with every flush, while the radio is idle; a new target of the link takes effect at once; a slot starts
      with the base count; nothing else touches it. */
  lemma CountMoves(c: Config, t: Transport, op: Op)
    requires !op.OpSend?
    ensures var u, steady := StepOn(c, t, op), if c.adaptiveRetry then t.adaptive else c.baseCount;
            match op {
              case OpSlotStart(_) => u.count == c.baseCount
              case OpTick(want, idle) =>
                u.count == if c.adaptiveRetry && want != t.adaptive && idle then want else t.count
              case OpFlush(idle) => u.count == if idle then steady else t.count
              case OpSetChannel(_, _, idle) => u.count == if t.configured && idle then steady else t.count
              case OpSideTrip(_, p, idle) =>
                u.count == if p.len <= c.maxLen && t.configured && !t.sync && idle then steady else t.count
              case OpSuccess(_, idle) => u.count == if Pops(t, op) && PopsOverride(t) && idle then steady else t.count
              case OpFailed(_, idle) =>
                u.count == if ((Pops(t, op) && PopsOverride(t)) || Overflows(c, t, op)) && idle then steady else t.count
              case _ => u.count == t.count
            }
  {
    hide R.Drained, R.Popped;
    match op {
      case OpFailed(_, _) => FailureCount(c, t, op);
      case OpSuccess(_, _) =>
      case OpSideTrip(_, _, _) =>
      case _ =>
    }
  }

  lemma FailureCount(c: Config, t: Transport, op: Op)
    requires op.OpFailed?
    ensures FailedOn(c, t, op.now, op.idle).count
            == if ((Pops(t, op) && PopsOverride(t)) || Overflows(c, t, op)) && op.idle then Steady(c, t) else t.count
  {
    hide R.Drained, R.Popped;
    if t.fifo == [] {
    } else if t.sync {
    } else {
      var u := Popped(c, GivenUp(c, t), true, op.now, op.idle);
      if Full(c, u) {
      } else {
      }
    }
  }
}
