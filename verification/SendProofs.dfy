/** What a send puts into the FIFO and the rings, and what becomes of the refunds that wait in the pool. */
module SendProofs {
  import opened Words
  import opened TransportModel
  import R = Rings

  // ----- A mouse report takes the pool along -----

  function Apart(x: int, y: int): nat {
    if x < y then y - x else x - y
  }

  /** No int16_t is nearer to `total` than `x`. */
  ghost predicate Nearest16(x: int, total: int) {
    Fits16(x) && forall z | Fits16(z) :: Apart(x, total) <= Apart(z, total)
  }

  /** A mouse report, in the bytes of the protocol. */
  predicate MouseReport(p: Payload) {
    p.len >= 11 && p.kind == 0x06 && p.report == 0x02
  }

  /** The refunds are not too old to be sent. */
  predicate Timely(c: Config, t: Transport, now: U32) {
    t.stamp == 0 || Wrap32(now - t.stamp) < c.staleMs
  }

  /** The step hands the report over to the rings and the library. */
  predicate HandsOver(c: Config, t: Transport, p: Payload, now: U32) {
    SendVerdict(c, t, p, now) in {Direct, AfterFlush}
  }

  /** The slot pushed last has this motion; with 2^32 - 1 live slots the ring would read as empty. */
  predicate InSlot(t: Transport, u: Transport, m: Motion) {
    |t.motion.live| + 1 < 0x1_0000_0000 ==>
      u.motion.live != [] && u.motion.live[|u.motion.live| - 1].motion == m
  }

  /** So has the packet written last, if the library takes it. */
  predicate InPacket(c: Config, t: Transport, p: Payload, u: Transport, m: Motion) {
    Accepts(c, t, p) ==>
      u.fifo != [] && u.fifo[|u.fifo| - 1].payload.motion == m
      && u.fifo[|u.fifo| - 1].payload == p.(motion := u.fifo[|u.fifo| - 1].payload.motion)
  }

  /** What the report took along, as the pool tells. */
  function Taken(t: Transport, p: Payload, u: Transport): Motion {
    Sub(Add(p.motion, t.pool), u.pool)
  }

  lemma SatIsNearest(total: int)
    ensures Nearest16(Sat16(total), total)
    ensures forall x | Nearest16(x, total) :: x == Sat16(total)
  {
    forall z | Fits16(z)
      ensures Apart(Sat16(total), total) <= Apart(z, total)
    {
    }
    forall x | Nearest16(x, total)
      ensures x == Sat16(total)
    {
      assert Apart(x, total) <= Apart(Sat16(total), total);
    }
  }

  /** What a push does to the last slot, the last packet, and the pool. */
  lemma PushedLast(c: Config, t: Transport, p: Payload, now: U32, idle: bool)
    ensures var u, k := Enqueued(c, t, p, now, idle), Prepare(c, t, p, now, idle);
            && InSlot(t, u, k.refund.out) && InPacket(c, t, p, u, k.refund.out)
            && u.pool == k.refund.pool && u.stamp == k.refund.stamp
            && u.fifo[..|t.fifo|] == t.fifo && |u.fifo| == |t.fifo| + if Accepts(c, t, p) then 1 else 0
  {
    hide Prepare, Accepts;
  }

  /** A send is a push, after a flush if the FIFO is full, which leaves the pool alone. */
  lemma SendPushes(c: Config, t: Transport, p: Payload, now: U32, idle: bool) returns (v: Transport)
    requires HandsOver(c, t, p, now)
    ensures SendOn(c, t, p, now, idle) == Enqueued(c, v, p, now, idle)
    ensures v.pool == t.pool && v.stamp == t.stamp && v.up == t.up && |v.motion.live| <= |t.motion.live|
    ensures v.fifo == if Full(c, t) then [] else t.fifo
  {
    v := if Full(c, t) then Flushed(c, Awake(t), idle) else Awake(t);
  }

  lemma RefundOut(c: Config, pool: Motion, stamp: U32, m: Deltas, now: U32, a: Axis)
    requires stamp == 0 || Wrap32(now - stamp) < c.staleMs
    ensures var r := ApplyRefund(c, pool, stamp, m, now);
            On(a, r.out) == Sat16(On(a, m) + On(a, pool)) && On(a, r.pool) == On(a, m) + On(a, pool) - On(a, r.out)
  {
  }

  lemma RefundTaken(c: Config, pool: Motion, stamp: U32, m: Deltas, now: U32)
    ensures var r := ApplyRefund(c, pool, stamp, m, now);
            if stamp == 0 || Wrap32(now - stamp) < c.staleMs then r.out == Sub(Add(m, pool), r.pool)
            else r == Refund(m, STILL, 0, pool)
  {
    hide Wrap32, Sat16;
  }

  lemma SameSum(m: Motion, n: Motion, a: Axis)
    ensures On(a, Add(m, n)) == On(a, m) + On(a, n) && On(a, Sub(m, n)) == On(a, m) - On(a, n)
  {
  }

  lemma ReportCarries(c: Config, t: Transport, p: Payload, now: U32, idle: bool)
    requires MouseReport(p) && HandsOver(c, t, p, now)
    ensures var u := SendOn(c, t, p, now, idle);
            var out := if Timely(c, t, now) then Taken(t, p, u) else p.motion;
            && InSlot(t, u, out) && InPacket(c, t, p, u, out) && (!Timely(c, t, now) ==> u.pool == STILL && u.stamp == 0)
            && u.pool == ApplyRefund(c, t.pool, t.stamp, p.motion, now).pool
  {
    var v := SendPushes(c, t, p, now, idle);
    PushedLast(c, v, p, now, idle);
    RefundTaken(c, t.pool, t.stamp, p.motion, now);
    hide SendOn, Enqueued, Accepts, Add, Sub, Wrap32, ApplyRefund;
  }

  /** A mouse report that is handed over while the refunds are not too old carries, in its slot and in the packet, on every axis
      the int16_t nearest to its own motion and what waits in the pool, and the pool keeps exactly the rest. Once they are too
      old, it carries its own motion, and the pool is empty. */
  lemma ReportTakesPool(c: Config, t: Transport, p: Payload, now: U32, idle: bool, a: Axis)
    requires MouseReport(p) && HandsOver(c, t, p, now)
    ensures var u := SendOn(c, t, p, now, idle);
            var out := if Timely(c, t, now) then Taken(t, p, u) else p.motion;
            && InSlot(t, u, out) && InPacket(c, t, p, u, out)
            && (if Timely(c, t, now)
                then Nearest16(On(a, out), On(a, p.motion) + On(a, t.pool))
                     && On(a, u.pool) == On(a, p.motion) + On(a, t.pool) - On(a, out)
                else u.pool == STILL && u.stamp == 0)
  {
    hide SendOn, Nearest16, Sat16, Accepts, Wrap32, ApplyRefund, InSlot, InPacket;
    ReportCarries(c, t, p, now, idle);
    var u := SendOn(c, t, p, now, idle);
    SameSum(p.motion, t.pool, a);
    SameSum(Add(p.motion, t.pool), u.pool, a);
    if Timely(c, t, now) {
      RefundOut(c, t.pool, t.stamp, p.motion, now, a);
      SatIsNearest(On(a, p.motion) + On(a, t.pool));
    }
  }

  lemma SameOnEveryAxis(m: Motion, n: Motion)
    requires forall a: Axis :: On(a, m) == On(a, n)
    ensures m == n
  {
    assert On(X, m) == On(X, n) && On(Y, m) == On(Y, n) && On(ScrollX, m) == On(ScrollX, n) && On(ScrollY, m) == On(ScrollY, n);
  }

  /** In particular the pool is paid out in full whenever that fits, and then has no age any more; a pool that was empty keeps
      the age it had. */
  lemma PoolIsPaidOut(c: Config, t: Transport, p: Payload, now: U32, idle: bool)
    requires MouseReport(p) && HandsOver(c, t, p, now) && Timely(c, t, now)
    requires forall a: Axis :: Fits16(On(a, p.motion) + On(a, t.pool))
    ensures var u, out := SendOn(c, t, p, now, idle), Add(p.motion, t.pool);
            && InSlot(t, u, out) && InPacket(c, t, p, u, out)
            && u.pool == STILL && u.stamp == if t.pool == STILL then t.stamp else 0
  {
    var u := SendOn(c, t, p, now, idle);
    forall a: Axis
      ensures On(a, u.pool) == 0 && On(a, Taken(t, p, u)) == On(a, Add(p.motion, t.pool))
    {
      ReportTakesPool(c, t, p, now, idle, a);
      SatIsNearest(On(a, p.motion) + On(a, t.pool));
      SameSum(p.motion, t.pool, a);
      hide SendOn, Add, Sub;
    }
    SameOnEveryAxis(u.pool, STILL);
    SameOnEveryAxis(Taken(t, p, u), Add(p.motion, t.pool));
    ReportTakesPool(c, t, p, now, idle, X);
    var v := SendPushes(c, t, p, now, idle);
    PushedLast(c, v, p, now, idle);
    PaidStamp(c, t.pool, t.stamp, p.motion, now);
    hide SendOn, Enqueued, ApplyRefund, Accepts, Taken, InSlot, InPacket, Nearest16;
  }

  lemma PaidStamp(c: Config, pool: Motion, stamp: U32, m: Deltas, now: U32)
    requires stamp == 0 || Wrap32(now - stamp) < c.staleMs
    ensures var r := ApplyRefund(c, pool, stamp, m, now);
            r.pool == STILL ==> r.stamp == if pool == STILL then stamp else 0
  {
    hide Wrap32, Sat16;
  }

  /** The packet in the FIFO is what was sent, behind those that waited, with the motion that its slot shows, and what is not a
      mouse report takes nothing from the pool. */
  lemma PacketIsWhatWasSent(c: Config, t: Transport, p: Payload, now: U32, idle: bool)
    requires HandsOver(c, t, p, now)
    ensures var u, kept := SendOn(c, t, p, now, idle), if Full(c, t) then [] else t.fifo;
            && |u.fifo| == |kept| + (if Accepts(c, t, p) then 1 else 0) && u.fifo[..|kept|] == kept
            && (exists m :: InSlot(t, u, m) && InPacket(c, t, p, u, m))
            && (!MouseReport(p) ==>
                  InSlot(t, u, STILL) && InPacket(c, t, p, u, STILL) && u.pool == t.pool && u.stamp == t.stamp)
  {
    var v := SendPushes(c, t, p, now, idle);
    PushedLast(c, v, p, now, idle);
    var u, m := SendOn(c, t, p, now, idle), Prepare(c, v, p, now, idle).refund.out;
    assert InSlot(t, u, m) && InPacket(c, t, p, u, m);
    hide SendOn, Enqueued, Sat16, ApplyRefund, Accepts;
  }

  // ----- The age of the pool -----

  /** A failure outside side-trips pops motion into the pool. */
  predicate Refunds(t: Transport, op: Op) {
    op.OpFailed? && t.fifo != [] && !t.sync && NextSlot(t).motion != STILL
  }

  /** The channel change is taken. */
  predicate Changes(t: Transport, op: Op) {
    op.OpSetChannel? && t.configured && Tunes(op.channel, op.idle)
  }

  predicate HandsOverMouse(c: Config, t: Transport, op: Op) {
    op.OpSend? && IsMouse(op.p) && SendVerdict(c, t, op.p, op.now) in {Direct, AfterFlush}
  }

  /** How the age of the pool moves from `t` to `u`. */
  predicate StampMoves(c: Config, t: Transport, u: Transport, op: Op) {
    && (t.stamp == 0 ==> u.stamp == if Refunds(t, op) then NonZero(op.now) else 0)
    && (t.stamp != 0 ==>
          || u.stamp == t.stamp
          || (u.stamp == 0 && u.pool == STILL && (Changes(t, op) || HandsOverMouse(c, t, op))))
    && (Changes(t, op) ==> u.pool == STILL && u.stamp == 0)
  }

  /** What a mouse report does to the pool and its age. */
  predicate StampKept(pool: Motion, stamp: U32, after: Motion, stampAfter: U32) {
    && (stamp == 0 ==> stampAfter == 0)
    && (stampAfter != stamp ==> stampAfter == 0 && after == STILL)
    && (pool == STILL ==> after == STILL)
  }

  lemma RefundStamp(c: Config, pool: Motion, stamp: U32, m: Deltas, now: U32)
    ensures var r := ApplyRefund(c, pool, stamp, m, now); StampKept(pool, stamp, r.pool, r.stamp)
  {
    hide Saturate, Add, Sub, Wrap32;
  }

  lemma EnqueuedStamp(c: Config, t: Transport, p: Payload, now: U32, idle: bool)
    ensures var u := Enqueued(c, t, p, now, idle);
            StampKept(t.pool, t.stamp, u.pool, u.stamp) && (!IsMouse(p) ==> u.stamp == t.stamp)
  {
    RefundStamp(c, t.pool, t.stamp, p.motion, now);
    hide ApplyRefund, R.Pushed, StampKept;
    SameStamp(t.pool, t.stamp);
  }

  lemma SameStamp(pool: Motion, stamp: U32)
    ensures StampKept(pool, stamp, pool, stamp)
  {
  }

  lemma SendStamps(c: Config, t: Transport, p: Payload, now: U32, idle: bool)
    ensures var u := SendOn(c, t, p, now, idle);
            && StampKept(t.pool, t.stamp, u.pool, u.stamp)
            && (u.stamp != t.stamp ==> IsMouse(p) && SendVerdict(c, t, p, now) in {Direct, AfterFlush})
  {
    hide Enqueued, StampKept;
    SameStamp(t.pool, t.stamp);
    match SendVerdict(c, t, p, now) {
      case Direct => EnqueuedStamp(c, Awake(t), p, now, idle);
      case AfterFlush => EnqueuedStamp(c, Flushed(c, Awake(t), idle), p, now, idle);
      case _ =>
    }
  }

  /** The pool starts to age with the first refund that finds it without an age, and stops only when it is emptied by a mouse
      report or by a channel change. */
  lemma StampFollowsRefunds(c: Config, t: Transport, op: Op)
    ensures StampMoves(c, t, StepOn(c, t, op), op)
  {
    match op {
      case OpSend(p, now, idle) => SendStamps(c, t, p, now, idle);
      case OpSuccess(_, _) =>
      case OpFailed(_, _) =>
      case OpSetChannel(_, _, _) =>
      case OpSideTrip(_, _, _) =>
      case _ =>
    }
    hide SendOn;
  }

  /** In every run motion that waits in the pool has an age. */
  lemma {:induction false} PooledMotionAges(c: Config, ops: seq<Op>)
    ensures var t := Run(c, ops).t; t.pool != STILL ==> t.stamp != 0
  {
    if ops != [] {
      var s, op := Run(c, ops[..|ops| - 1]), ops[|ops| - 1];
      PooledMotionAges(c, ops[..|ops| - 1]);
      BooksOnlyWatch(c, s, op);
      PoolAges(c, s.t, op);
      hide StepOn, Step;
    }
  }

  lemma PoolAges(c: Config, t: Transport, op: Op)
    requires t.pool != STILL ==> t.stamp != 0
    ensures var u := StepOn(c, t, op); u.pool != STILL ==> u.stamp != 0
  {
    match op {
      case OpSend(p, now, idle) => SendStamps(c, t, p, now, idle);
      case OpSuccess(_, _) =>
      case OpFailed(_, _) =>
      case OpSetChannel(_, _, _) =>
      case OpSideTrip(_, _, _) =>
      case _ =>
    }
    hide SendOn;
  }
}
