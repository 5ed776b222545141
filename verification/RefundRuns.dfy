/** Concrete runs of the refund pool: motion that a failed report carried reaches the host with the next report, and an age that
    outlives the motion it belonged to takes fresh motion with it. */
module RefundRuns {
  import opened Words
  import opened TransportModel
  import opened TransportProofs
  import opened MotionProofs
  import opened SendProofs
  import opened SlotRuns
  import opened Ledgers
  import R = Rings

  /** Sends are handed over at once, and there is room for more. */
  predicate Ready(c: Config, t: Transport, n: nat) {
    !t.sync && t.quietUntil == 0 && t.up && |t.fifo| == n < c.fifoDepth && |t.motion.live| <= n
  }

  /** The motion of the slot pushed last. */
  function Carried(t: Transport): Motion {
    if t.motion.live == [] then STILL else t.motion.live[|t.motion.live| - 1].motion
  }

  lemma MousePushed(c: Config, t: Transport, n: nat, p: Payload, now: U32)
    requires TakesMoves(c) && Ready(c, t, n) && n + 1 < c.fifoDepth && IsMouse(p) && Writable(c, p)
    ensures SendVerdict(c, t, p, now) == Direct && HandsOver(c, t, p, now) && Accepts(c, t, p)
    ensures var u := SendOn(c, t, p, now, true);
            Ready(c, u, n + 1) && |u.motion.live| == |t.motion.live| + 1 && u.motion.live[..|t.motion.live|] == t.motion.live
  {
    R.RoomBelowCap(0x1_0000_0000, c.motionSize, c.fifoDepth, t.motion);
    var k := Prepare(c, Awake(t), p, now, true);
    R.PushedWithRoom(0x1_0000_0000, c.motionSize, t.motion, Slot(k.refund.out, k.pointer));
    hide Prepare, RingsFit, R.Pushed;
  }

  lemma MouseSent(c: Config, s: State, n: nat, p: Payload, now: U32)
    requires TakesMoves(c) && Ready(c, s.t, n) && n + 1 < c.fifoDepth && IsMouse(p) && Writable(c, p)
    ensures var u := Step(c, s, OpSend(p, now, true));
            && u.t == SendOn(c, s.t, p, now, true) && HandsOver(c, s.t, p, now) && Accepts(c, s.t, p)
            && Ready(c, u.t, n + 1) && |u.t.motion.live| == |s.t.motion.live| + 1
            && u.t.motion.live[..|s.t.motion.live|] == s.t.motion.live
            && u.b.submitted == Add(s.b.submitted, p.motion) && u.b.delivered == s.b.delivered
  {
    MousePushed(c, s.t, n, p, now);
    BooksOnlyWatch(c, s, OpSend(p, now, true));
    DirectSend(c, s, p, now, true);
    hide Ready, SendOn, Enqueued, Booked, TakesMoves;
  }

  /** A failure with the library as shipped: the FIFO stays, one slot goes. */
  lemma FailureKept(c: Config, s: State, n: nat, now: U32)
    requires !c.failedLeaves && Ready(c, s.t, n) && 0 < n && s.t.motion.live != []
    ensures var u, m := Step(c, s, OpFailed(now, true)), s.t.motion.live[0].motion;
            && Ready(c, u.t, n) && u.t.motion.live == s.t.motion.live[1..] && u.t.pool == Add(s.t.pool, m)
            && (m != STILL && s.t.stamp == 0 ==> u.t.stamp == NonZero(now)) && (s.t.stamp != 0 ==> u.t.stamp == s.t.stamp)
            && u.b.submitted == s.b.submitted && u.b.delivered == s.b.delivered
  {
    KeptFailure(c, s, now, true);
    PopPool(c, s, now, true);
  }

  lemma Flushes(c: Config, s: State, n: nat)
    requires Ready(c, s.t, n) && 0 < c.fifoDepth
    ensures var u := Step(c, s, OpFlush(true));
            && Ready(c, u.t, 0) && u.t.motion.live == [] && u.t.pool == s.t.pool && u.t.stamp == s.t.stamp
            && u.b.submitted == s.b.submitted && u.b.delivered == s.b.delivered
  {
  }

  lemma Arrives(c: Config, s: State, now: U32)
    requires s.t.fifo != [] && !s.t.sync
    ensures var u := Step(c, s, OpSuccess(now, true));
            u.b.delivered == Add(s.b.delivered, MotionOf(s.t.fifo[0].payload)) && u.b.submitted == s.b.submitted
            && u.t.pool == s.t.pool
  {
    DirectSuccess(c, s, now, true);
  }

  /** The Kconfig defaults right after the slot start. */
  lemma Started(c: Config)
    requires TakesMoves(c)
    ensures var s := Step(c, Reset(c), OpSlotStart(true));
            Ready(c, s.t, 0) && s.t.motion.live == [] && s.t.pool == STILL && s.t.stamp == 0
            && s.b.submitted == STILL && s.b.delivered == STILL
  {
    FirstStart(c);
  }

  lemma FirstReport(c: Config, s: State, n: nat, p: Payload, now: U32)
    requires TakesMoves(c) && Ready(c, s.t, n) && n + 1 < c.fifoDepth && IsMouse(p) && Writable(c, p)
    requires s.t.pool == STILL && s.t.stamp == 0
    ensures var u := Step(c, s, OpSend(p, now, true)).t; Carried(u) == p.motion && u.pool == STILL && u.stamp == 0
  {
    MouseSent(c, s, n, p, now);
    forall a: Axis ensures Fits16(On(a, p.motion) + On(a, s.t.pool)) {}
    PoolIsPaidOut(c, s.t, p, now, true);
    AddStill(p.motion);
  }

  lemma Moves(c: Config, dx: int)
    requires TakesMoves(c) && Fits16(dx)
    ensures IsMouse(Move(dx)) && Writable(c, Move(dx)) && Move(dx).motion == Motion(dx, 0, 0, 0)
  {
  }

  /** A report of ten steps fails, its packet is flushed, and a report of five steps follows and gets through: fifteen steps
      were submitted, and fifteen reach the host. */
  lemma FailedMotionIsDelivered(c: Config, now: U32)
    requires c == SHIPPED && now != 0
    ensures var s1 := Step(c, Reset(c), OpSlotStart(true));
            var s3 := Step(c, Step(c, s1, OpSend(Move(10), now, true)), OpFailed(now, true));
            var s5 := Step(c, Step(c, s3, OpFlush(true)), OpSend(Move(5), now, true));
            var s6 := Step(c, s5, OpSuccess(now, true));
            s6.b.submitted.dx == 15 && s6.b.delivered.dx == 15 && s6.t.pool == STILL
  {
    ShippedTakesMoves(c);
    Started(c);
    Moves(c, 10);
    Moves(c, 5);
    var s1 := Step(c, Reset(c), OpSlotStart(true));
    hide Step, Move, TakesMoves;
    var s2 := Step(c, s1, OpSend(Move(10), now, true));
    MouseSent(c, s1, 0, Move(10), now);
    FirstReport(c, s1, 0, Move(10), now);
    var s3 := Step(c, s2, OpFailed(now, true));
    FailureKept(c, s2, 1, now);
    var s4 := Step(c, s3, OpFlush(true));
    Flushes(c, s3, 1);
    TakenAlong(c, s4, s2.t.motion.live[0].motion, Move(5), now);
    MouseSent(c, s4, 0, Move(5), now);
    Arrives(c, Step(c, s4, OpSend(Move(5), now, true)), now);
  }

  lemma InTime(c: Config, t: Transport, now: U32)
    requires 0 < c.staleMs && t.stamp == NonZero(now) && now != 0
    ensures Timely(c, t, now)
  {
  }

  /** The next report takes what waits along. */
  lemma TakenAlong(c: Config, s: State, m: Motion, p: Payload, now: U32)
    requires TakesMoves(c) && Ready(c, s.t, 0) && 1 < c.fifoDepth && 0 < c.staleMs && IsMouse(p) && Writable(c, p) && now != 0
    requires s.t.stamp == NonZero(now) && s.t.pool == Add(STILL, m) && m == Motion(10, 0, 0, 0) && p.motion == Motion(5, 0, 0, 0)
    ensures var u := Step(c, s, OpSend(p, now, true)).t;
            u.pool == STILL && u.fifo != [] && MotionOf(u.fifo[0].payload) == Motion(15, 0, 0, 0) && !u.sync
  {
    var u := SendOn(c, s.t, p, now, true);
    MouseSent(c, s, 0, p, now);
    AddStill(m);
    InTime(c, s.t, now);
    hide SendOn, Step, TakesMoves, Timely, HandsOver, Wrap32;
    forall a: Axis ensures On(a, p.motion) + On(a, s.t.pool) == On(a, Motion(15, 0, 0, 0)) {}
    PoolIsPaidOut(c, s.t, p, now, true);
    assert MotionOf(p.(motion := Motion(15, 0, 0, 0))) == Motion(15, 0, 0, 0);
  }

  // ----- An age without motion -----

  /** Two reports whose motion cancels fail one after the other. The pool is empty again, and keeps its age. */
  lemma CancelledRefunds(c: Config, s: State, n: nat, now: U32)
    requires !c.failedLeaves && Ready(c, s.t, n) && 0 < n && |s.t.motion.live| == 2 && s.t.pool == STILL && s.t.stamp == 0
    requires s.t.motion.live[0].motion == Motion(10, 0, 0, 0) && s.t.motion.live[1].motion == Motion(-10, 0, 0, 0)
    ensures var u := Step(c, Step(c, s, OpFailed(now, true)), OpFailed(now, true));
            Ready(c, u.t, n) && u.t.pool == STILL && u.t.stamp == NonZero(now)
  {
    FailureKept(c, s, n, now);
    FailureKept(c, Step(c, s, OpFailed(now, true)), n, now);
    hide Step;
  }

  /** Then a report that fails once that age is reached loses its motion at the next send, although it was refunded in the
      same millisecond. */
  lemma LostAtOnce(c: Config, s: State, n: nat, p: Payload, q: Payload, now: U32, later: U32)
    requires TakesMoves(c) && !c.failedLeaves && Ready(c, s.t, 0) && 2 < c.fifoDepth && s.t.motion.live == []
    requires s.t.pool == STILL && s.t.stamp == NonZero(now) && now != 0 && 0 < c.staleMs && Wrap32(later - now) >= c.staleMs
    requires IsMouse(p) && Writable(c, p) && IsMouse(q) && Writable(c, q) && p.motion != STILL
    ensures var s1 := Step(c, s, OpSend(p, now, true));
            var s2 := Step(c, s1, OpFailed(later, true));
            var s3 := Step(c, s2, OpSend(q, later, true));
            s2.t.pool == p.motion && Carried(s3.t) == q.motion && s3.t.pool == STILL
  {
    hide Step, TakesMoves, SendOn, Wrap32;
    var s1 := Step(c, s, OpSend(p, now, true));
    MouseSent(c, s, 0, p, now);
    InTime(c, s.t, now);
    forall a: Axis ensures Fits16(On(a, p.motion) + On(a, s.t.pool)) && On(a, p.motion) + On(a, s.t.pool) == On(a, p.motion) {}
    PoolIsPaidOut(c, s.t, p, now, true);
    AddStill(p.motion);
    FailureKept(c, s1, 1, later);
    AddStill(p.motion);
    var s2 := Step(c, s1, OpFailed(later, true));
    MouseSent(c, s2, 1, q, later);
    ReportTakesPool(c, s2.t, q, later, true, X);
  }

  /** The run, at the Kconfig defaults. */
  lemma FreshRefundDropped(c: Config, now: U32, later: U32)
    requires c == SHIPPED && now != 0 && later == Wrap32(now + 100)
    ensures var s1 := Step(c, Reset(c), OpSlotStart(true));
            var s3 := Step(c, Step(c, s1, OpSend(Move(10), now, true)), OpSend(Move(-10), now, true));
            var s5 := Step(c, Step(c, s3, OpFailed(now, true)), OpFailed(now, true));
            var s7 := Step(c, Step(c, s5, OpFlush(true)), OpSend(Move(5), now, true));
            var s8 := Step(c, s7, OpFailed(later, true));
            var s9 := Step(c, s8, OpSend(Move(1), later, true));
            && s5.t.pool == STILL && s5.t.stamp != 0
            && s8.t.pool.dx == 5 && Carried(s9.t).dx == 1 && s9.t.pool == STILL
  {
    ShippedTakesMoves(c);
    Started(c);
    Moves(c, 10);
    Moves(c, -10);
    Moves(c, 5);
    Moves(c, 1);
    assert Wrap32(later - now) == 100;
    hide Step, Move, TakesMoves, Wrap32;
    var s1 := Step(c, Reset(c), OpSlotStart(true));
    MouseSent(c, s1, 0, Move(10), now);
    FirstReport(c, s1, 0, Move(10), now);
    var s2 := Step(c, s1, OpSend(Move(10), now, true));
    MouseSent(c, s2, 1, Move(-10), now);
    FirstReport(c, s2, 1, Move(-10), now);
    var s3 := Step(c, s2, OpSend(Move(-10), now, true));
    assert s3.t.motion.live[..1][0] == s2.t.motion.live[0];
    CancelledRefunds(c, s3, 2, now);
    var s5 := Step(c, Step(c, s3, OpFailed(now, true)), OpFailed(now, true));
    Flushes(c, s5, 2);
    LostAtOnce(c, Step(c, s5, OpFlush(true)), 0, Move(5), Move(1), now, later);
  }
}
