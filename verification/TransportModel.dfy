/** The transport as a transition system: what one send, one radio event or one work item does to the
    radio's TX FIFO, the three per-send rings, the motion refund pool and the retransmit count.
    `Transport.dfy` has the imperative form, proved equal to these functions step by step. */
module TransportModel {
  import opened Words
  import R = Rings

  // ----- Motion -----

  datatype Motion = Motion(dx: int, dy: int, scrollX: int, scrollY: int)

  /** Motion as a mouse report carries it: four int16_t deltas. */
  type Deltas = m: Motion | Fits16(m.dx) && Fits16(m.dy) && Fits16(m.scrollX) && Fits16(m.scrollY)
    witness Motion(0, 0, 0, 0)

  const STILL: Deltas := Motion(0, 0, 0, 0)

  /** Sums and differences; with an empty frame the verifier does not evaluate those of constants. */
  function Add(a: Motion, b: Motion): Motion
    reads {}
  {
    Motion(a.dx + b.dx, a.dy + b.dy, a.scrollX + b.scrollX, a.scrollY + b.scrollY)
  }

  datatype Axis = X | Y | ScrollX | ScrollY

  function On(a: Axis, m: Motion): int {
    match a
    case X => m.dx
    case Y => m.dy
    case ScrollX => m.scrollX
    case ScrollY => m.scrollY
  }

  function Sub(a: Motion, b: Motion): Motion
    reads {}
  {
    Motion(a.dx - b.dx, a.dy - b.dy, a.scrollX - b.scrollX, a.scrollY - b.scrollY)
  }

  function Saturate(m: Motion): Deltas {
    Motion(Sat16(m.dx), Sat16(m.dy), Sat16(m.scrollX), Sat16(m.scrollY))
  }

  // ----- Packets -----

  /** A payload handed to the transport: its pipe, its length, its first two bytes, and the mouse body
      that follows them when the payload is a mouse report. */
  datatype Payload = Payload(pipe: nat, len: nat, kind: U8, report: U8, buttons: U8, motion: Deltas)

  const BEACON: U8 := 0x01
  const PAIR_RESP: U8 := 0x03
  const HID_REPORT: U8 := 0x06
  const DISCONNECT: U8 := 0x07
  const SHELL_STOP: U8 := 0x09
  const SHELL_DATA: U8 := 0x0A
  const SHELL_POLL: U8 := 0x0B
  const VERIFY_REQ: U8 := 0x10
  const PROPOSAL: U8 := 0x14
  const IDLE: U8 := 0x17
  const HOP_OFFER: U8 := 0x18
  const REPORT_MOUSE: U8 := 0x02

  const MOUSE_LEN := 11  // two header bytes and the nine-byte mouse body

  predicate IsMouse(p: Payload) {
    p.len >= MOUSE_LEN && p.kind == HID_REPORT && p.report == REPORT_MOUSE
  }

  predicate IsShell(p: Payload) {
    p.len >= 1 && (p.kind == SHELL_DATA || p.kind == SHELL_POLL || p.kind == SHELL_STOP)
  }

  predicate IsCritical(p: Payload) {
    p.len >= 1 && (p.kind == BEACON || p.kind == PAIR_RESP || p.kind == DISCONNECT || p.kind == VERIFY_REQ
                   || p.kind == PROPOSAL || p.kind == HOP_OFFER || p.kind == IDLE)
  }

  /** A packet in the radio's FIFO, with what was recorded about it when it was sent. */
  datatype Packet = Packet(payload: Payload, noack: bool, critical: bool, pointer: bool)

  function MotionOf(p: Payload): Deltas {
    if IsMouse(p) then p.motion else STILL
  }

  datatype Slot = Slot(motion: Deltas, overrode: bool)

  function SlotFor(k: Packet): Slot {
    Slot(MotionOf(k.payload), k.pointer)
  }

  // ----- Configuration -----

  /** The Kconfig constants the transport depends on. `failedLeaves` says what the radio library does
      with a payload whose retransmits are exhausted: remove it from the FIFO, as the comments in
      esb_transport.c take for granted, or leave it at the front, as the library shipped in vendor/ does. */
  datatype Config = Config(
    fifoDepth: nat, noackSize: R.Positive, criticalSize: R.Positive, motionSize: R.Positive,
    maxLen: nat, pipes: nat, staleMs: nat, quietMs: nat,
    baseCount: nat, criticalCount: nat, pointerCount: nat,
    hidNoack: bool, criticalRetransmit: bool, adaptiveRetry: bool, failedLeaves: bool)

  predicate PowerOfTwo(n: nat) {
    n == 2 || n == 4 || n == 8 || n == 16 || n == 32 || n == 64
  }

  /** The build assertions and Kconfig ranges, and a FIFO no deeper than any ring. */
  predicate ValidConfig(c: Config) {
    && 0 < c.fifoDepth <= c.noackSize && c.fifoDepth <= c.criticalSize && c.fifoDepth <= c.motionSize
    && PowerOfTwo(c.noackSize) && PowerOfTwo(c.criticalSize) && 2 <= c.motionSize <= 64
  }

  // ----- State -----

  /** `up` says whether the radio library is initialised; the windows are what the counters of the rings show. */
  datatype Transport = Transport(
    up: bool, fifo: seq<Packet>,
    noack: R.Window<bool>, critical: R.Window<bool>, motion: R.Window<Slot>,
    pool: Motion, stamp: U32, inflight: nat,
    count: int, adaptive: int,
    quietUntil: U32, sync: bool, channel: nat, configured: bool)

  /** What has become of a packet: it waits in the FIFO, it was delivered, or it left the FIFO undelivered. `again` is the
      motion refunded for it although it still waits, `missing` what was not refunded since it left. */
  datatype Fate = Waiting(again: Motion) | Arrived | Gone(missing: Motion)

  /** Packets are numbered as they are sent. `fates` has the fate of each, `queue` the numbers of those in the FIFO and
      `slots` the numbers of those that have a live slot in the motion ring. `doubled` is motion that was refunded although
      it was delivered, or refunded before. */
  datatype Ledger = Ledger(fates: seq<Fate>, queue: seq<nat>, slots: seq<nat>, doubled: Motion)

  /** Bookkeeping for the theorems only: where submitted motion has gone so far. `delivered` and the ledger follow the
      packets; `confirmed`, `dropped` and `overwritten` follow the slots of the motion ring. `lapsed` is motion that was lost
      with no packet. `refunds` counts the refunds since the pool was last empty. `refused` is set while the last attempt to
      put the steady retransmit count in force has failed, and the overrun flags while some push since the last flush has
      destroyed live entries of that ring. */
  datatype Books = Books(
    submitted: Motion, delivered: Motion, lapsed: Motion, ledger: Ledger,
    confirmed: Motion, dropped: Motion, overwritten: Motion, refunds: nat, refused: bool,
    noackOverrun: bool, criticalOverrun: bool, motionOverrun: bool)

  datatype State = State(t: Transport, b: Books)

  function Reset(c: Config): State {
    State(Transport(false, [], R.Window(0, []), R.Window(0, []), R.Window(0, []), STILL, 0, 0,
                    c.baseCount, c.baseCount, 0, false, 0, false),
          Books(STILL, STILL, STILL, Ledger([], [], [], STILL), STILL, STILL, STILL, 0, false, false, false, false))
  }

  /** The retransmit count in force when no override is. */
  function Steady(c: Config, t: Transport): int {
    if c.adaptiveRetry then t.adaptive else c.baseCount
  }

  function FifoMotion(fifo: seq<Packet>): Motion {
    if fifo == [] then STILL else Add(MotionOf(fifo[0].payload), FifoMotion(fifo[1..]))
  }

  function RingMotion(ring: seq<Slot>): Motion {
    if ring == [] then STILL else Add(ring[0].motion, RingMotion(ring[1..]))
  }

  // ----- The ledger -----

  function FateOf(l: Ledger, id: nat): Fate {
    if id < |l.fates| then l.fates[id] else Arrived
  }

  function AgainOf(f: Fate): Motion {
    if f.Waiting? then f.again else STILL
  }

  function MissingOf(f: Fate): Motion {
    if f.Gone? then f.missing else STILL
  }

  /** A packet is sent: it waits, or the radio library turns it down. `wraps` says that the ring then reads as empty. */
  function Booked(l: Ledger, written: bool, out: Motion, wraps: bool): Ledger {
    var id := |l.fates|;
    Ledger(l.fates + [if written then Waiting(STILL) else Gone(out)],
           if written then l.queue + [id] else l.queue,
           if wraps then [] else l.slots + [id], l.doubled)
  }

  /** A side-trip's packet has no slot. */
  function Visiting(l: Ledger): Ledger {
    l.(fates := l.fates + [Waiting(STILL)], queue := l.queue + [|l.fates|])
  }

  /** The front packet is delivered. */
  function Landed(l: Ledger): Ledger {
    if l.queue == [] || l.queue[0] >= |l.fates| then l
    else
      var id := l.queue[0];
      l.(fates := l.fates[id := Arrived], queue := l.queue[1..], doubled := Add(l.doubled, AgainOf(l.fates[id])))
  }

  /** The front packet, with its motion, leaves the FIFO undelivered. If it was refunded before, that refund stands for
      it, and what was refunded beyond that is doubled. */
  function Shed(l: Ledger, m: Motion): Ledger {
    if l.queue == [] || l.queue[0] >= |l.fates| then l
    else
      var id := l.queue[0];
      var again := AgainOf(l.fates[id]);
      if again == STILL then l.(fates := l.fates[id := Gone(m)], queue := l.queue[1..])
      else l.(fates := l.fates[id := Gone(STILL)], queue := l.queue[1..], doubled := Add(l.doubled, Sub(again, m)))
  }

  /** The FIFO is emptied. */
  function Emptied(l: Ledger, fifo: seq<Packet>): Ledger
    decreases |fifo|
  {
    if fifo == [] then l else Emptied(Shed(l, MotionOf(fifo[0].payload)), fifo[1..])
  }

  /** Motion is refunded for a packet. If it waits it has it twice from now on; if it is gone, and as much is missing of it,
      that is found again; otherwise the motion is doubled. */
  function Credited(l: Ledger, id: nat, m: Motion): Ledger {
    match FateOf(l, id)
    case Waiting(again) => l.(fates := l.fates[id := Waiting(Add(again, m))])
    case Gone(missing) =>
      if missing == m then l.(fates := l.fates[id := Gone(STILL)]) else l.(doubled := Add(l.doubled, m))
    case Arrived => l.(doubled := Add(l.doubled, m))
  }

  /** The packet whose motion the next event pops: the newest one that wrote to the array slot of the oldest. */
  function PoppedId(c: Config, t: Transport, l: Ledger): nat {
    var w := R.Writer(0x1_0000_0000, c.motionSize, t.motion.tail, |t.motion.live|);
    if w < |l.slots| then l.slots[w] else |l.fates|
  }

  function SlotsPopped(l: Ledger): Ledger {
    if l.slots == [] then l else l.(slots := l.slots[1..])
  }

  // ----- Flushing -----

  /** esb_flush_tx_and_reset. The radio takes a new retransmit count only while it is idle. */
  function Flushed(c: Config, t: Transport, idle: bool): Transport {
    t.(fifo := [], noack := R.Drained(0x100, t.noack), critical := R.Drained(0x100, t.critical),
       motion := R.Drained(0x1_0000_0000, t.motion), inflight := 0,
       count := if idle then Steady(c, t) else t.count)
  }

  function Flush(c: Config, s: State, idle: bool): State {
    State(Flushed(c, s.t, idle),
          s.b.(
            ledger := Emptied(s.b.ledger, s.t.fifo).(slots := []),
            dropped := Add(s.b.dropped, RingMotion(s.t.motion.live)),
            refused := !idle, noackOverrun := false, criticalOverrun := false, motionOverrun := false))
  }

  // ----- Sending -----

  datatype Refund = Refund(out: Deltas, pool: Motion, stamp: U32, stale: Motion)

  /** motion_refund_apply: what an outgoing mouse report carries, and what stays in the pool. */
  function ApplyRefund(c: Config, pool: Motion, stamp: U32, m: Deltas, now: U32): Refund {
    if stamp != 0 && Wrap32(now - stamp) >= c.staleMs then Refund(m, STILL, 0, pool)
    else if pool == STILL then Refund(m, pool, stamp, STILL)
    else
      var total := Add(m, pool);
      var rest := Sub(total, Saturate(total));
      Refund(Saturate(total), rest, if rest == STILL then 0 else stamp, STILL)
  }

  /** What esb_write_payload demands of a payload. */
  predicate Writable(c: Config, p: Payload) {
    1 <= p.len <= c.maxLen && p.pipe < c.pipes
  }

  /** esb_write_payload takes a payload when the FIFO has room: the library must be initialised, too. */
  predicate Accepts(c: Config, t: Transport, p: Payload) {
    t.up && Writable(c, p)
  }

  /** The tags a packet gets, what it carries after the refund, and the pool and count it leaves behind. */
  datatype Prepared = Prepared(noack: bool, critical: bool, pointer: bool, refund: Refund, count: int)

  function Prepare(c: Config, t: Transport, p: Payload, now: U32, idle: bool): Prepared {
    var noack := c.hidNoack && p.pipe == 1 && p.len >= 2 && p.kind == HID_REPORT && p.report == REPORT_MOUSE;
    var critical := c.criticalRetransmit && IsCritical(p);
    var r := if IsMouse(p) then ApplyRefund(c, t.pool, t.stamp, p.motion, now)
             else Refund(STILL, t.pool, t.stamp, STILL);
    var pointer := r.out != STILL && p.buttons == 0 && !noack;
    Prepared(noack, critical, pointer, r,
             if !idle then t.count
             else if pointer then c.pointerCount
             else if critical then c.criticalCount
             else t.count)
  }

  function Push(c: Config, t: Transport, p: Payload, k: Prepared): Transport {
    var out := k.refund.out;
    t.(fifo := if Accepts(c, t, p) then t.fifo + [Packet(p.(motion := out), k.noack, k.critical, k.pointer)] else t.fifo,
       noack := R.Pushed(0x100, c.noackSize, t.noack, k.noack),
       critical := if c.criticalRetransmit then R.Pushed(0x100, c.criticalSize, t.critical, k.critical) else t.critical,
       motion := R.Pushed(0x1_0000_0000, c.motionSize, t.motion, Slot(out, k.pointer)),
       pool := k.refund.pool, stamp := k.refund.stamp,
       inflight := if out != STILL && t.inflight < 255 then t.inflight + 1 else t.inflight,
       count := k.count)
  }

  /** A send destroys no live entry of the ring. */
  ghost predicate NoackRoom(c: Config, t: Transport) {
    R.HasRoom(0x100, c.noackSize, t.noack)
  }

  ghost predicate CriticalRoom(c: Config, t: Transport) {
    c.criticalRetransmit ==> R.HasRoom(0x100, c.criticalSize, t.critical)
  }

  ghost predicate MotionRoom(c: Config, t: Transport) {
    R.HasRoom(0x1_0000_0000, c.motionSize, t.motion)
  }

  /** The part of a send after all the early returns: tag the packet, push the rings, write the FIFO. */
  function Enqueued(c: Config, t: Transport, p: Payload, now: U32, idle: bool): Transport {
    Push(c, t, p, Prepare(c, t, p, now, idle))
  }

  ghost function Enqueue(c: Config, s: State, p: Payload, now: U32, idle: bool): State {
    var r := Prepare(c, s.t, p, now, idle).refund;
    var u := Enqueued(c, s.t, p, now, idle);
    State(
      u,
      s.b.(submitted := Add(s.b.submitted, MotionOf(p)),
           lapsed := Add(s.b.lapsed, r.stale),
           ledger := Booked(s.b.ledger, Accepts(c, s.t, p), r.out, |s.t.motion.live| + 1 == 0x1_0000_0000),
           dropped := Add(s.b.dropped, r.stale),
           overwritten := Add(s.b.overwritten,
                              Sub(Add(RingMotion(s.t.motion.live), r.out), RingMotion(u.motion.live))),
           noackOverrun := s.b.noackOverrun || !NoackRoom(c, s.t),
           criticalOverrun := s.b.criticalOverrun || !CriticalRoom(c, s.t),
           motionOverrun := s.b.motionOverrun || !MotionRoom(c, s.t),
           refunds := if r.pool == STILL then 0 else s.b.refunds))
  }

  /** A send that the post-hop quiet window or a side-trip swallows. */
  function Swallow(s: State, p: Payload): State {
    s.(b := s.b.(submitted := Add(s.b.submitted, MotionOf(p)),
                 lapsed := Add(s.b.lapsed, MotionOf(p)),
                 dropped := Add(s.b.dropped, MotionOf(p))))
  }

  predicate QuietWindow(t: Transport, now: U32) {
    t.quietUntil != 0 && StillAhead(t.quietUntil, now)
  }

  /** esb_transport_is_quiet. */
  predicate IsQuiet(t: Transport, now: U32) {
    t.sync || QuietWindow(t, now)
  }

  predicate Full(c: Config, t: Transport) {
    |t.fifo| >= c.fifoDepth
  }

  /** What esb_transport_send does: nothing, swallow the packet, push it, or flush first and push it. */
  datatype Verdict = TooLong | Swallowed | NoMemory | Direct | AfterFlush

  function SendVerdict(c: Config, t: Transport, p: Payload, now: U32): Verdict {
    if p.len > c.maxLen then TooLong
    else if IsQuiet(t, now) then Swallowed
    else if !Full(c, t) then Direct
    else if IsShell(p) then NoMemory
    else AfterFlush
  }

  function Awake(t: Transport): Transport {
    t.(quietUntil := 0)
  }

  function SendOn(c: Config, t: Transport, p: Payload, now: U32, idle: bool): Transport {
    match SendVerdict(c, t, p, now)
    case TooLong => t
    case Swallowed => t
    case NoMemory => Awake(t)
    case Direct => Enqueued(c, Awake(t), p, now, idle)
    case AfterFlush => Enqueued(c, Flushed(c, Awake(t), idle), p, now, idle)
  }

  ghost function Send(c: Config, s: State, p: Payload, now: U32, idle: bool): State {
    match SendVerdict(c, s.t, p, now)
    case TooLong => s
    case Swallowed => Swallow(s, p)
    case NoMemory => s.(t := Awake(s.t))
    case Direct => Enqueue(c, s.(t := Awake(s.t)), p, now, idle)
    case AfterFlush => Enqueue(c, Flush(c, s.(t := Awake(s.t)), idle), p, now, idle)
  }

  // ----- Radio events -----

  predicate NextNoack(t: Transport) {
    t.noack.live != [] && t.noack.live[0]
  }

  predicate NextCritical(t: Transport) {
    t.critical.live != [] && t.critical.live[0]
  }

  function NextSlot(t: Transport): Slot {
    if t.motion.live == [] then Slot(STILL, false) else t.motion.live[0]
  }

  /** An event pops one slot from every ring that has one: a failed packet's motion goes to the refund pool,
      and a popped override puts the steady count back. */
  function Popped(c: Config, t: Transport, failed: bool, now: U32, idle: bool): Transport {
    var slot := NextSlot(t);
    var moved := slot.motion != STILL;
    t.(noack := R.Popped(0x100, t.noack), critical := R.Popped(0x100, t.critical),
       motion := R.Popped(0x1_0000_0000, t.motion),
       inflight := if moved && t.inflight > 0 then t.inflight - 1 else t.inflight,
       pool := if failed && moved then Add(t.pool, slot.motion) else t.pool,
       stamp := if failed && moved && t.stamp == 0 then NonZero(now) else t.stamp,
       count := if (NextCritical(t) || slot.overrode) && idle then Steady(c, t) else t.count)
  }

  function PopRings(c: Config, s: State, failed: bool, now: U32, idle: bool): State {
    var slot := NextSlot(s.t);
    var refund := failed && slot.motion != STILL;
    var l := if refund then Credited(s.b.ledger, PoppedId(c, s.t, s.b.ledger), slot.motion) else s.b.ledger;
    State(
      Popped(c, s.t, failed, now, idle),
      s.b.(ledger := SlotsPopped(l),
           confirmed := if failed then s.b.confirmed else Add(s.b.confirmed, slot.motion),
           refunds := if refund then s.b.refunds + 1 else s.b.refunds,
           refused := if NextCritical(s.t) || slot.overrode then !idle else s.b.refused))
  }

  /** The FIFO's front packet is acknowledged and leaves; a side-trip is over with its packet. */
  function Delivered(t: Transport): Transport
    requires t.fifo != []
  {
    t.(fifo := t.fifo[1..], sync := false)
  }

  function Deliver(s: State): State
    requires s.t.fifo != []
  {
    State(Delivered(s.t),
          s.b.(delivered := Add(s.b.delivered, MotionOf(s.t.fifo[0].payload)), ledger := Landed(s.b.ledger)))
  }

  /** What the radio library does with the front packet once its retransmits are exhausted. */
  function GivenUp(c: Config, t: Transport): Transport
    requires t.fifo != []
  {
    if c.failedLeaves then t.(fifo := t.fifo[1..]) else t
  }

  function GiveUp(c: Config, s: State): State
    requires s.t.fifo != []
  {
    State(GivenUp(c, s.t),
          if c.failedLeaves then s.b.(ledger := Shed(s.b.ledger, MotionOf(s.t.fifo[0].payload))) else s.b)
  }

  /** ESB_EVENT_TX_SUCCESS. A side-trip's event goes to the waiting sender and touches nothing else. */
  function SuccessOn(c: Config, t: Transport, now: U32, idle: bool): Transport {
    if t.fifo == [] then t
    else if t.sync then Delivered(t)
    else Popped(c, Delivered(t), false, now, idle)
  }

  function TxSuccess(c: Config, s: State, now: U32, idle: bool): State {
    if s.t.fifo == [] then s
    else if s.t.sync then Deliver(s)
    else PopRings(c, Deliver(s), false, now, idle)
  }

  /** ESB_EVENT_TX_FAILED. */
  function FailedOn(c: Config, t: Transport, now: U32, idle: bool): Transport {
    if t.fifo == [] then t
    else if t.sync then Flushed(c, t.(sync := false), idle)
    else
      var u := Popped(c, GivenUp(c, t), true, now, idle);
      if Full(c, u) then Flushed(c, u, idle) else u
  }

  function TxFailed(c: Config, s: State, now: U32, idle: bool): State {
    if s.t.fifo == [] then s
    else if s.t.sync then Flush(c, s.(t := s.t.(sync := false)), idle)
    else
      var u := PopRings(c, GiveUp(c, s), true, now, idle);
      if Full(c, u.t) then Flush(c, u, idle) else u
  }

  // ----- Channel changes, side-trips and the rest -----

  /** esb_set_rf_channel: refused while the radio is busy, and above channel 100. */
  predicate Tunes(channel: nat, idle: bool) {
    idle && channel <= 100
  }

  /** esb_transport_set_channel. */
  function SetChannelOn(c: Config, t: Transport, channel: nat, now: U32, idle: bool): Transport {
    if !t.configured then t
    else if !Tunes(channel, idle) then Flushed(c, t, idle)
    else Flushed(c, t, idle).(channel := channel, pool := STILL, stamp := 0,
                              quietUntil := NonZero(Wrap32(now + c.quietMs)))
  }

  function SetChannel(c: Config, s: State, channel: nat, now: U32, idle: bool): State {
    if !s.t.configured then s
    else
      var f := Flush(c, s, idle);
      if !Tunes(channel, idle) then f
      else State(SetChannelOn(c, s.t, channel, now, idle),
                 f.b.(lapsed := Add(f.b.lapsed, s.t.pool), dropped := Add(f.b.dropped, s.t.pool), refunds := 0))
  }

  /** The first half of esb_transport_send_blocking, up to the wait: the side-trip packet goes straight
      into the FIFO, past the rings. */
  function SideTripOn(c: Config, t: Transport, channel: nat, p: Payload, idle: bool): Transport {
    if p.len > c.maxLen || !t.configured || t.sync then t
    else if !Tunes(channel, idle) || !Accepts(c, t, p) then Flushed(c, t, idle)
    else Flushed(c, t, idle).(sync := true, fifo := [Packet(p, false, false, false)])
  }

  function SideTrip(c: Config, s: State, channel: nat, p: Payload, idle: bool): State {
    if p.len > c.maxLen || !s.t.configured || s.t.sync then s
    else
      var f := Flush(c, s, idle);
      if !Tunes(channel, idle) || !Accepts(c, s.t, p) then f
      else State(SideTripOn(c, s.t, channel, p, idle),
                 f.b.(submitted := Add(f.b.submitted, MotionOf(p)), dropped := Add(f.b.dropped, MotionOf(p)),
                      ledger := Visiting(f.b.ledger)))
  }

  /** The second half, when the wait times out. */
  function TimeoutOn(t: Transport): Transport {
    t.(sync := false)
  }

  /** adaptive_retry_work_fn, for the count `want` that the link quality asks for. */
  predicate Retunes(c: Config, t: Transport, want: int, idle: bool) {
    c.adaptiveRetry && want != t.adaptive && idle
  }

  function TickOn(c: Config, t: Transport, want: int, idle: bool): Transport {
    if Retunes(c, t, want, idle) then t.(count := want, adaptive := want) else t
  }

  /** esb_transport_on_slot_start: initialising the library, which may fail, first disables it if it is still up, and
      empties its FIFO. The rings stay. */
  function SlotStartOn(c: Config, t: Transport, ok: bool): Transport {
    t.(up := ok, fifo := [], count := c.baseCount, adaptive := if ok then c.baseCount else t.adaptive)
  }

  function SlotStart(c: Config, s: State, ok: bool): State {
    State(SlotStartOn(c, s.t, ok), s.b.(ledger := Emptied(s.b.ledger, s.t.fifo), refused := !ok))
  }

  /** esb_transport_on_slot_stop: disabling the library empties its FIFO, and the rings stay. */
  function SlotStopOn(t: Transport): Transport {
    t.(up := false, fifo := [])
  }

  function SlotStop(s: State): State {
    State(SlotStopOn(s.t), s.b.(ledger := Emptied(s.b.ledger, s.t.fifo)))
  }

  // ----- Runs -----

  datatype Op =
    | OpSend(p: Payload, now: U32, idle: bool)
    | OpSuccess(now: U32, idle: bool)
    | OpFailed(now: U32, idle: bool)
    | OpFlush(idle: bool)
    | OpSetChannel(channel: nat, now: U32, idle: bool)
    | OpSideTrip(channel: nat, p: Payload, idle: bool)
    | OpTimeout(idle: bool)
    | OpTick(want: int, idle: bool)
    | OpSlotStart(ok: bool)
    | OpSlotStop
    | OpSetAddresses(channel: nat)
    | OpDeinit

  /** One step of the transport itself. */
  function StepOn(c: Config, t: Transport, op: Op): Transport {
    match op
    case OpSend(p, now, idle) => SendOn(c, t, p, now, idle)
    case OpSuccess(now, idle) => SuccessOn(c, t, now, idle)
    case OpFailed(now, idle) => FailedOn(c, t, now, idle)
    case OpFlush(idle) => Flushed(c, t, idle)
    case OpSetChannel(channel, now, idle) => SetChannelOn(c, t, channel, now, idle)
    case OpSideTrip(channel, p, idle) => SideTripOn(c, t, channel, p, idle)
    case OpTimeout(_) => TimeoutOn(t)
    case OpTick(want, idle) => TickOn(c, t, want, idle)
    case OpSlotStart(ok) => SlotStartOn(c, t, ok)
    case OpSlotStop => SlotStopOn(t)
    case OpSetAddresses(channel) => t.(channel := channel, configured := true)
    case OpDeinit => t.(configured := false)
  }

  /** The same step with its books. */
  ghost function Step(c: Config, s: State, op: Op): State {
    match op
    case OpSend(p, now, idle) => Send(c, s, p, now, idle)
    case OpSuccess(now, idle) => TxSuccess(c, s, now, idle)
    case OpFailed(now, idle) => TxFailed(c, s, now, idle)
    case OpFlush(idle) => Flush(c, s, idle)
    case OpSetChannel(channel, now, idle) => SetChannel(c, s, channel, now, idle)
    case OpSideTrip(channel, p, idle) => SideTrip(c, s, channel, p, idle)
    case OpTick(want, idle) =>
      State(TickOn(c, s.t, want, idle), s.b.(refused := !Retunes(c, s.t, want, idle) && s.b.refused))
    case OpSlotStart(ok) => SlotStart(c, s, ok)
    case OpSlotStop => SlotStop(s)
    case _ => s.(t := StepOn(c, s.t, op))
  }

  ghost function Run(c: Config, ops: seq<Op>): State {
    if ops == [] then Reset(c) else Step(c, Run(c, ops[..|ops| - 1]), ops[|ops| - 1])
  }

  /** The books only watch. */
  lemma BooksOnlyWatch(c: Config, s: State, op: Op)
    ensures Step(c, s, op).t == StepOn(c, s.t, op)
  {
  }
}
