/** The transport in the form the firmware gives it: ring arrays with wrapping counters and fields updated
    in place. Every method is proved equal to its step in `TransportModel`. */
module TransportMachine {
  import opened Words
  import R = Rings
  import opened TransportModel
  import L = LinkQuality

  /** The three rings that a send pushes and a TX event pops together. */
  class SendRings {
    const c: Config
    const noack: R.Ring<bool>
    const critical: R.Ring<bool>     // used if CRITICAL_MAX_RETRANSMIT is compiled in
    const motion: R.Ring<Slot>

    ghost function Footprint(): set<object> {
      {noack, noack.slots, critical, critical.slots, motion, motion.slots}
    }

    ghost predicate Valid()
      reads Footprint()
    {
      && noack.Valid() && critical.Valid() && motion.Valid()
      && noack.slots.Length == c.noackSize && noack.modulus == 0x100
      && critical.slots.Length == c.criticalSize && critical.modulus == 0x100
      && motion.slots.Length == c.motionSize && motion.modulus == 0x1_0000_0000
      && noack != critical && noack.slots != critical.slots
      && (!c.criticalRetransmit ==> critical.view.live == [])
    }

    constructor (c: Config)
      ensures Valid() && fresh(Footprint()) && this.c == c
      ensures noack.view == critical.view == R.Window(0, []) && motion.view == R.Window(0, [])
    {
      this.c := c;
      noack := new R.Ring<bool>(c.noackSize, 0x100);
      critical := new R.Ring<bool>(c.criticalSize, 0x100);
      motion := new R.Ring<Slot>(c.motionSize, 0x1_0000_0000);
    }

    method Push(skipAck: bool, elevated: bool, slot: Slot)
      requires Valid()
      modifies Footprint()
      ensures Valid()
      ensures noack.view == R.Pushed(0x100, c.noackSize, old(noack.view), skipAck)
      ensures critical.view == if c.criticalRetransmit
                               then R.Pushed(0x100, c.criticalSize, old(critical.view), elevated) else old(critical.view)
      ensures motion.view == R.Pushed(0x1_0000_0000, c.motionSize, old(motion.view), slot)
    {
      noack.Push(skipAck);
      if c.criticalRetransmit {
        critical.Push(elevated);
      }
      motion.Push(slot);
    }

    method Pop() returns (skipAck: bool, elevated: bool, slot: Slot)
      requires Valid()
      modifies Footprint()
      ensures Valid()
      ensures noack.view == R.Popped(0x100, old(noack.view))
      ensures critical.view == R.Popped(0x100, old(critical.view))
      ensures motion.view == R.Popped(0x1_0000_0000, old(motion.view))
      ensures skipAck == (old(noack.view).live != [] && old(noack.view).live[0])
      ensures elevated == (old(critical.view).live != [] && old(critical.view).live[0])
      ensures slot == if old(motion.view).live == [] then Slot(STILL, false) else old(motion.view).live[0]
    {
      skipAck := noack.Pop(false);
      elevated := false;
      if c.criticalRetransmit {
        elevated := critical.Pop(false);
      }
      slot := motion.Pop(Slot(STILL, false));
    }

    method Drain()
      requires Valid()
      modifies Footprint()
      ensures Valid()
      ensures noack.view == R.Drained(0x100, old(noack.view))
      ensures critical.view == R.Drained(0x100, old(critical.view))
      ensures motion.view == R.Drained(0x1_0000_0000, old(motion.view))
    {
      noack.Drain();
      critical.Drain();
      motion.Drain();
    }
  }

  class Machine {
    const c: Config
    const adaptiveConfig: L.AdaptiveConfig
    const rings: SendRings
    const link: L.LinkMonitor

    var up: bool              // the radio library is initialised
    var fifo: seq<Packet>     // its TX FIFO
    var count: int            // and its retransmit count
    var pool: Motion
    var stamp: U32
    var inflight: nat
    var adaptive: int
    var quietUntil: U32
    var sync: bool
    var channel: nat
    var configured: bool

    ghost predicate Valid()
      reads this, rings.Footprint(), link
    {
      && ValidConfig(c)
      && rings.Valid() && rings.c == c
      && link.Valid()
    }

    ghost function Abs(): Transport
      requires Valid()
      reads this, rings.Footprint(), link
    {
      Transport(up, fifo, rings.noack.view, rings.critical.view, rings.motion.view,
                pool, stamp, inflight, count, adaptive, quietUntil, sync, channel, configured)
    }

    constructor (c: Config, link: L.LinkConfig, a: L.AdaptiveConfig)
      requires ValidConfig(c) && L.ValidLink(link)
      ensures Valid() && Abs() == Reset(c).t && this.link.State() == L.FRESH_LINK
      ensures this.c == c && this.adaptiveConfig == a && this.link.config == link
    {
      this.c := c;
      adaptiveConfig := a;
      rings := new SendRings(c);
      this.link := new L.LinkMonitor(link);
      up, fifo, count, pool, stamp, inflight := false, [], c.baseCount, STILL, 0, 0;
      adaptive, quietUntil, sync, channel, configured := c.baseCount, 0, false, 0, false;
    }

    /** restore_retransmit_count; a busy radio refuses. */
    method RestoreCount(idle: bool)
      modifies this`count
      ensures count == if idle then (if c.adaptiveRetry then adaptive else c.baseCount) else old(count)
    {
      if idle {
        count := if c.adaptiveRetry then adaptive else c.baseCount;
      }
    }

    method DrainRings()
      requires Valid()
      modifies this`inflight, rings.Footprint()
      ensures Valid()
      ensures var t := old(Abs());
              Abs() == t.(noack := R.Drained(0x100, t.noack), critical := R.Drained(0x100, t.critical),
                          motion := R.Drained(0x1_0000_0000, t.motion), inflight := 0)
    {
      rings.Drain();
      inflight := 0;
    }

    method FlushAndReset(idle: bool)
      requires Valid()
      modifies this`fifo, this`count, this`inflight, rings.Footprint()
      ensures Valid() && Abs() == Flushed(c, old(Abs()), idle)
    {
      fifo := [];
      DrainRings();
      RestoreCount(idle);
    }

    /** Adds the pending refund to an outgoing report, keeping what does not fit. */
    method ApplyPending(m: Deltas, now: U32) returns (out: Deltas, ghost stale: Motion)
      modifies this`pool, this`stamp
      ensures Refund(out, pool, stamp, stale) == ApplyRefund(c, old(pool), old(stamp), m, now)
    {
      stale := STILL;
      if stamp != 0 {
        var age := Wrap32(now - stamp);
        if age >= c.staleMs {
          stale := pool;
          pool, stamp := STILL, 0;
          return m, stale;
        }
      }
      if pool == STILL {
        return m, stale;
      }
      var total := Add(m, pool);
      out := Saturate(total);
      pool := Sub(total, out);
      if pool == STILL {
        stamp := 0;
      }
    }

    /** Tags a packet, applies the pending refund and sets the retransmit count it asks for. */
    method PreparePacket(p: Payload, now: U32, idle: bool)
      returns (skipAck: bool, elevated: bool, pointer: bool, out: Deltas, ghost stale: Motion)
      requires Valid()
      modifies this`pool, this`stamp, this`count
      ensures Prepared(skipAck, elevated, pointer, Refund(out, pool, stamp, stale), count)
              == Prepare(c, old(Abs()), p, now, idle)
    {
      skipAck := c.hidNoack && p.pipe == 1 && p.len >= 2 && p.kind == HID_REPORT && p.report == REPORT_MOUSE;
      elevated := c.criticalRetransmit && IsCritical(p);
      if elevated && idle {
        count := c.criticalCount;
      }
      out, pointer, stale := STILL, false, STILL;
      if IsMouse(p) {
        out, stale := ApplyPending(p.motion, now);
        pointer := out != STILL && p.buttons == 0 && !skipAck;
        if pointer && idle {
          count := c.pointerCount;
        }
      }
    }

    method PushRings(skipAck: bool, elevated: bool, slot: Slot)
      requires Valid()
      modifies rings.Footprint()
      ensures Valid()
      ensures var t := old(Abs());
              Abs() == t.(noack := R.Pushed(0x100, c.noackSize, t.noack, skipAck),
                          critical := if c.criticalRetransmit then R.Pushed(0x100, c.criticalSize, t.critical, elevated)
                                      else t.critical,
                          motion := R.Pushed(0x1_0000_0000, c.motionSize, t.motion, slot))
    {
      rings.Push(skipAck, elevated, slot);
    }

    method WriteFifo(p: Payload, k: Packet, moves: bool)
      requires Valid()
      modifies this`fifo, this`inflight
      ensures Abs() == old(Abs()).(fifo := if Accepts(c, old(Abs()), p) then old(fifo) + [k] else old(fifo),
                                   inflight := if moves && old(inflight) < 255 then old(inflight) + 1 else old(inflight))
    {
      if moves && inflight < 255 {
        inflight := inflight + 1;
      }
      if up && Writable(c, p) {
        fifo := fifo + [k];
      }
    }

    /** Pushes the rings and writes the FIFO for a packet prepared as `k`. */
    method PushPrepared(p: Payload, skipAck: bool, elevated: bool, pointer: bool, out: Deltas, ghost k: Prepared)
      requires Valid()
      requires k == Prepared(skipAck, elevated, pointer, Refund(out, pool, stamp, k.refund.stale), count)
      modifies this`fifo, this`inflight, rings.Footprint()
      ensures Valid() && Abs() == Push(c, old(Abs()), p, k)
    {
      PushRings(skipAck, elevated, Slot(out, pointer));
      WriteFifo(p, Packet(p.(motion := out), skipAck, elevated, pointer), out != STILL);
    }

    method PushTagged(p: Payload, now: U32, idle: bool)
      requires Valid()
      modifies this`fifo, this`count, this`inflight, this`pool, this`stamp, rings.Footprint()
      ensures Valid() && Abs() == Enqueued(c, old(Abs()), p, now, idle)
    {
      ghost var k := Prepare(c, Abs(), p, now, idle);
      var skipAck, elevated, pointer, out, _ := PreparePacket(p, now, idle);
      PushPrepared(p, skipAck, elevated, pointer, out, k);
    }

    method EndQuiet()
      requires Valid()
      modifies this`quietUntil
      ensures Valid() && Abs() == Awake(old(Abs()))
    {
      quietUntil := 0;
    }

    method FlushAndPush(p: Payload, now: U32, idle: bool)
      requires Valid()
      modifies this`fifo, this`count, this`inflight, this`pool, this`stamp, rings.Footprint()
      ensures Valid() && Abs() == Enqueued(c, Flushed(c, old(Abs()), idle), p, now, idle)
    {
      FlushAndReset(idle);
      PushTagged(p, now, idle);
    }

    /** The part of a send after the early returns that need nothing of the FIFO. */
    method SendAwake(p: Payload, now: U32, idle: bool) returns (verdict: Verdict)
      requires Valid() && p.len <= c.maxLen && !IsQuiet(Abs(), now)
      modifies this`fifo, this`count, this`inflight, this`pool, this`stamp, this`quietUntil, rings.Footprint()
      ensures Valid() && Abs() == SendOn(c, old(Abs()), p, now, idle)
      ensures verdict == SendVerdict(c, old(Abs()), p, now)
    {
      EndQuiet();
      if |fifo| < c.fifoDepth {
        verdict := Direct;
        PushTagged(p, now, idle);
      } else if IsShell(p) {
        verdict := NoMemory;
      } else {
        verdict := AfterFlush;
        FlushAndPush(p, now, idle);
      }
    }

    /** esb_transport_send. */
    method SendPacket(p: Payload, now: U32, idle: bool) returns (verdict: Verdict)
      requires Valid()
      modifies this`fifo, this`count, this`inflight, this`pool, this`stamp, this`quietUntil, rings.Footprint()
      ensures Valid() && Abs() == SendOn(c, old(Abs()), p, now, idle)
      ensures verdict == SendVerdict(c, old(Abs()), p, now)
    {
      if p.len > c.maxLen {
        verdict := TooLong;
      } else if sync || (quietUntil != 0 && StillAhead(quietUntil, now)) {
        verdict := Swallowed;
      } else {
        verdict := SendAwake(p, now, idle);
      }
    }

    /** Accounts for one popped slot. */
    method Absorb(elevated: bool, slot: Slot, failed: bool, now: U32, idle: bool)
      modifies this`count, this`inflight, this`pool, this`stamp
      ensures var moved := slot.motion != STILL;
              && inflight == (if moved && old(inflight) > 0 then old(inflight) - 1 else old(inflight))
              && pool == (if failed && moved then Add(old(pool), slot.motion) else old(pool))
              && stamp == (if failed && moved && old(stamp) == 0 then NonZero(now) else old(stamp))
              && count == (if (elevated || slot.overrode) && idle then (if c.adaptiveRetry then adaptive else c.baseCount)
                           else old(count))
    {
      if elevated {
        RestoreCount(idle);
      }
      var moved := slot.motion != STILL;
      if moved && inflight > 0 {
        inflight := inflight - 1;
      }
      if failed && moved {
        pool := Add(pool, slot.motion);
        if stamp == 0 {
          stamp := NonZero(now);
        }
      }
      if slot.overrode {
        RestoreCount(idle);
      }
    }

    /** What both event handlers do with the slots an event pops; gives the popped noack flag. */
    method Consume(failed: bool, now: U32, idle: bool) returns (skipAck: bool)
      requires Valid()
      modifies this`count, this`inflight, this`pool, this`stamp, rings.Footprint()
      ensures Valid() && Abs() == Popped(c, old(Abs()), failed, now, idle)
      ensures skipAck == NextNoack(old(Abs()))
    {
      hide R.Popped;
      var elevated: bool, slot: Slot;
      skipAck, elevated, slot := rings.Pop();
      Absorb(elevated, slot, failed, now, idle);
    }

    /** What a success outside side-trips does, once the packet has left. */
    method OnAcknowledged(attempts: nat, now: U32, idle: bool) returns (degraded: bool)
      requires Valid()
      modifies this`count, this`inflight, this`pool, this`stamp, rings.Footprint(), link
      ensures Valid() && Abs() == Popped(c, old(Abs()), false, now, idle)
      ensures link.State() == L.Step(link.config, old(link.State()), L.Acked(attempts, NextNoack(old(Abs()))))
      ensures degraded <==> !NextNoack(old(Abs()))
                            && L.Fires(link.config, L.Record(link.config, old(link.State()), attempts))
    {
      hide Popped, L.Fires, L.Record;
      var skipAck := Consume(false, now, idle);
      degraded := false;
      if !skipAck {
        degraded := link.OnAcked(attempts);
      }
    }

    /** ESB_EVENT_TX_SUCCESS for the packet at the front of the FIFO; says whether the degraded-link trigger
        is called. */
    method OnSuccess(attempts: nat, now: U32, idle: bool) returns (degraded: bool)
      requires Valid() && fifo != []
      modifies this`fifo, this`sync, this`count, this`inflight, this`pool, this`stamp, rings.Footprint(), link
      ensures Valid() && Abs() == SuccessOn(c, old(Abs()), now, idle)
      ensures link.State() == if old(sync) then old(link.State())
                              else L.Step(link.config, old(link.State()), L.Acked(attempts, NextNoack(old(Abs()))))
      ensures degraded <==> !old(sync) && !NextNoack(old(Abs()))
                            && L.Fires(link.config, L.Record(link.config, old(link.State()), attempts))
    {
      hide Popped, L.Fires, L.Record, L.Step;
      degraded := false;
      fifo := fifo[1..];
      if sync {
        sync := false;
      } else {
        degraded := OnAcknowledged(attempts, now, idle);
      }
    }

    /** What a failure outside side-trips does with the slots and the link metric. */
    method OnExhausted(now: U32, idle: bool)
      requires Valid()
      modifies this`count, this`inflight, this`pool, this`stamp, rings.Footprint(), link
      ensures Valid() && Abs() == Popped(c, old(Abs()), true, now, idle)
      ensures link.State() == L.Step(link.config, old(link.State()), L.Failed)
    {
      hide Popped;
      link.Shift(true);
      var _ := Consume(true, now, idle);
    }

    method FlushIfFull(idle: bool)
      requires Valid()
      modifies this`fifo, this`count, this`inflight, rings.Footprint()
      ensures Valid() && Abs() == if Full(c, old(Abs())) then Flushed(c, old(Abs()), idle) else old(Abs())
    {
      hide Flushed;
      if |fifo| >= c.fifoDepth {
        FlushAndReset(idle);
      }
    }

    /** ESB_EVENT_TX_FAILED for the packet at the front of the FIFO. */
    method OnFailed(now: U32, idle: bool)
      requires Valid() && fifo != []
      modifies this`fifo, this`sync, this`count, this`inflight, this`pool, this`stamp, rings.Footprint(), link
      ensures Valid() && Abs() == FailedOn(c, old(Abs()), now, idle)
      ensures link.State() == if old(sync) then old(link.State())
                              else L.Step(link.config, old(link.State()), L.Failed)
    {
      hide Popped, Flushed, Full, L.Step;
      if sync {
        sync := false;
        FlushAndReset(idle);
      } else {
        if c.failedLeaves {
          fifo := fifo[1..];
        }
        OnExhausted(now, idle);
        FlushIfFull(idle);
      }
    }

    /** esb_transport_set_channel. */
    method ChangeChannel(target: nat, now: U32, idle: bool) returns (ok: bool)
      requires Valid()
      modifies this, rings.Footprint(), link
      ensures Valid() && Abs() == SetChannelOn(c, old(Abs()), target, now, idle)
      ensures ok == (old(configured) && Tunes(target, idle))
      ensures link.State() == if ok then L.FRESH_LINK else old(link.State())
    {
      if !configured {
        return false;
      }
      FlushAndReset(idle);
      if !Tunes(target, idle) {
        return false;
      }
      Arrive(target, now);
      ok := true;
    }

    /** What a successful channel change resets. */
    method Arrive(target: nat, now: U32)
      requires Valid()
      modifies this`channel, this`pool, this`stamp, this`quietUntil, link
      ensures Valid() && link.State() == L.FRESH_LINK
      ensures Abs() == old(Abs()).(channel := target, pool := STILL, stamp := 0,
                                   quietUntil := NonZero(Wrap32(now + c.quietMs)))
    {
      link.Reset();
      channel := target;
      pool, stamp := STILL, 0;
      quietUntil := NonZero(Wrap32(now + c.quietMs));
    }

    /** adaptive_retry_work_fn. */
    method Retune(idle: bool)
      requires Valid()
      modifies this
      ensures Valid() && Abs() == TickOn(c, old(Abs()), L.AdaptiveTarget(adaptiveConfig, link.State().ewma), idle)
    {
      if c.adaptiveRetry {
        var want := L.AdaptiveTarget(adaptiveConfig, link.ewma);
        if want != adaptive && idle {
          count, adaptive := want, want;
        }
      }
    }

    /** esb_transport_send_blocking up to the wait. */
    method BeginSideTrip(target: nat, p: Payload, idle: bool)
      requires Valid()
      modifies this`fifo, this`count, this`inflight, this`sync, rings.Footprint()
      ensures Valid() && Abs() == SideTripOn(c, old(Abs()), target, p, idle)
    {
      if p.len > c.maxLen || !configured || sync {
        return;
      }
      FlushAndReset(idle);
      if !Tunes(target, idle) {
        return;
      }
      sync := true;
      if !(up && Writable(c, p)) {
        sync := false;
        return;
      }
      fifo := [Packet(p, false, false, false)];
    }

    /** esb_transport_on_slot_start; `ok` says whether the radio library comes up. */
    method StartSlot(ok: bool)
      requires Valid()
      modifies this`up, this`fifo, this`count, this`adaptive
      ensures Valid() && Abs() == SlotStartOn(c, old(Abs()), ok)
    {
      up, fifo := ok, [];
      count := c.baseCount;
      if ok {
        adaptive := c.baseCount;
      }
    }

    /** esb_transport_on_slot_stop. */
    method StopSlot()
      requires Valid()
      modifies this`up, this`fifo
      ensures Valid() && Abs() == SlotStopOn(old(Abs()))
    {
      up, fifo := false, [];
    }

    /** What a radio event does; there is none for an empty FIFO. */
    method OnEvent(op: Op, attempts: nat)
      requires Valid() && (op.OpSuccess? || op.OpFailed?)
      modifies this, rings.Footprint(), link
      ensures Valid() && Abs() == StepOn(c, old(Abs()), op)
    {
      if fifo != [] {
        match op {
          case OpSuccess(now, idle) => var _ := OnSuccess(attempts, now, idle);
          case OpFailed(now, idle) => OnFailed(now, idle);
        }
      }
    }

    /** esb_transport_send_blocking when its wait times out. */
    method EndSync()
      requires Valid()
      modifies this`sync
      ensures Valid() && Abs() == TimeoutOn(old(Abs()))
    {
      sync := false;
    }

    method SetAddresses(target: nat)
      requires Valid()
      modifies this`channel, this`configured
      ensures Valid() && Abs() == old(Abs()).(channel := target, configured := true)
    {
      channel, configured := target, true;
    }

    method Deinit()
      requires Valid()
      modifies this`configured
      ensures Valid() && Abs() == old(Abs()).(configured := false)
    {
      configured := false;
    }

    method OnSend(p: Payload, now: U32, idle: bool)
      requires Valid()
      modifies this`fifo, this`count, this`inflight, this`pool, this`stamp, this`quietUntil, rings.Footprint()
      ensures Valid() && Abs() == SendOn(c, old(Abs()), p, now, idle)
    {
      var _ := SendPacket(p, now, idle);
    }

    /** Whatever happens next: the arrays, counters and fields take exactly the step of the model. */
    method Dispatch(op: Op, attempts: nat)
      requires Valid()
      requires op.OpTick? ==> op.want == L.AdaptiveTarget(adaptiveConfig, link.State().ewma)
      modifies this, rings.Footprint(), link
      ensures Valid() && Abs() == StepOn(c, old(Abs()), op)
    {
      hide SendOn, SuccessOn, FailedOn, Flushed, SetChannelOn, SideTripOn, TimeoutOn, TickOn, SlotStartOn, SlotStopOn;
      match op {
        case OpSend(p, now, idle) => OnSend(p, now, idle);
        case OpSuccess(_, _) => OnEvent(op, attempts);
        case OpFailed(_, _) => OnEvent(op, attempts);
        case OpFlush(idle) => FlushAndReset(idle);
        case OpSetChannel(target, now, idle) => var _ := ChangeChannel(target, now, idle);
        case OpSideTrip(target, p, idle) => BeginSideTrip(target, p, idle);
        case OpTimeout(_) => EndSync();
        case OpTick(_, idle) => Retune(idle);
        case OpSlotStart(ok) => StartSlot(ok);
        case OpSlotStop => StopSlot();
        case OpSetAddresses(target) => SetAddresses(target);
        case OpDeinit => Deinit();
      }
    }
  }
}
