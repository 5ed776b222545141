/** The pointer side of the endpoint: motion accumulates, button edges queue, and mouse reports go out while the
    transport is neither quiet nor holding back. Any number of input processors share one transport. */
module Pointer {
  import opened Words
  import opened Deferral
  import opened TransportModel
  import MP = MotionProofs
  import RP = RetransmitProofs

  datatype IpConfig = IpConfig(queue: nat, staleMs: nat, cap: nat)

  predicate ValidIp(pc: IpConfig) {
    1 <= pc.queue <= 32 && 1 <= pc.cap <= 32
  }

  /** A mouse report before its deltas are clamped. */
  datatype MouseReport = MouseReport(buttons: U8, motion: Motion)

  /** One input processor: struct esb_ip_data. */
  datatype Instance = Instance(accum: Motion, buttons: U8, start: U32, pending: seq<U8>, retry: bool)

  const FRESH := Instance(STILL, 0, 0, [], false)

  /** What a turn of an input processor leaves behind: its new state, the reports it hands to the transport, in
      order, and the motion it dropped, by staleness or by clamping. */
  datatype Turn = Turn(d: Instance, out: seq<MouseReport>, dropped: Motion)

  // ----- Input events -----

  datatype Relative = RelX | RelY | Wheel | HWheel | OtherRel

  datatype Input =
    | Rel(code: Relative, value: int, sync: bool)
    | Button(btn: nat, down: bool, sync: bool)    // any key code; buttons are 0..4
    | OtherInput(sync: bool)

  function Delta(ev: Input): Motion {
    if !ev.Rel? then STILL
    else
      match ev.code
      case RelX => Motion(ev.value, 0, 0, 0)
      case RelY => Motion(0, ev.value, 0, 0)
      case Wheel => Motion(0, 0, 0, ev.value)
      case HWheel => Motion(0, 0, ev.value, 0)
      case OtherRel => STILL
  }

  function Weight(btn: nat): nat {
    if btn == 0 then 1 else if btn == 1 then 2 else if btn == 2 then 4 else if btn == 3 then 8 else 16
  }

  predicate IsDown(buttons: U8, btn: nat) {
    buttons / Weight(btn) % 2 == 1
  }

  function SetButton(buttons: U8, btn: nat, down: bool): U8 {
    if IsDown(buttons, btn) == down then buttons
    else if down then buttons + Weight(btn)
    else buttons - Weight(btn)
  }

  /** What an event does to the accumulator and the buttons. */
  function Accumulate(d: Instance, ev: Input, now: U32): Instance {
    match ev
    case Rel(_, _, _) => d.(accum := Add(d.accum, Delta(ev)), start := if d.start == 0 then NonZero(now) else d.start)
    case Button(btn, down, _) => if btn <= 4 then d.(buttons := SetButton(d.buttons, btn, down)) else d
    case OtherInput(_) => d
  }

  // ----- Reports -----

  function Replay(q: seq<U8>): seq<MouseReport> {
    if q == [] then [] else Replay(q[..|q| - 1]) + [MouseReport(q[|q| - 1], STILL)]
  }

  predicate Stale(pc: IpConfig, d: Instance, now: U32) {
    d.start != 0 && Wrap32(now - d.start) > pc.staleMs
  }

  /** The report that carries the accumulated motion, and what clamping takes off it. */
  function Emit(d: Instance, out: seq<MouseReport>): Turn {
    Turn(d.(accum := STILL, start := 0), out + [MouseReport(d.buttons, d.accum)], Sub(d.accum, Saturate(d.accum)))
  }

  /** send_mouse_report; `held` says that the transport is quiet or holds pointer reports back. */
  function Submit(pc: IpConfig, d: Instance, changed: bool, held: bool, now: U32): Turn
    requires ValidIp(pc)
  {
    if held then
      Turn(if changed then d.(pending := Defer(d.pending, pc.queue, d.buttons), retry := true) else d, [], STILL)
    else if !changed && Stale(pc, d, now) then
      Turn(d.(pending := [], accum := STILL, start := 0), Replay(d.pending), d.accum)
    else Emit(d.(pending := []), Replay(d.pending))
  }

  /** esb_ip_handle_event. */
  function OnInput(pc: IpConfig, d: Instance, ev: Input, active: bool, held: bool, now: U32): Turn
    requires ValidIp(pc)
  {
    if !active then Turn(d, [], STILL)
    else
      var e := Accumulate(d, ev, now);
      var changed := e.buttons != d.buttons;
      if ev.sync || changed then Submit(pc, e, changed, held, now) else Turn(e, [], STILL)
  }

  /** retry_work_fn, if it is scheduled. */
  function OnRetry(pc: IpConfig, d: Instance, held: bool, now: U32): Turn {
    if !d.retry || held then Turn(d, [], STILL)
    else
      var e := d.(pending := [], retry := false);
      if d.start == 0 then Turn(e, Replay(d.pending), STILL)
      else if !Stale(pc, d, now) && d.accum != STILL then Emit(e, Replay(d.pending))
      else Turn(e.(accum := STILL, start := 0), Replay(d.pending), d.accum)
  }

  // ----- Input processors on a transport -----

  predicate ValidWorld(c: Config, pc: IpConfig) {
    ValidConfig(c) && ValidIp(pc) && MOUSE_LEN <= c.maxLen && 2 <= c.pipes
  }

  /** send_hid_report_raw. */
  function Raw(c: Config, r: MouseReport): Payload {
    Payload(1, c.maxLen, HID_REPORT, REPORT_MOUSE, r.buttons, Saturate(r.motion))
  }

  /** esb_transport_is_quiet or esb_transport_pointer_backpressure. */
  predicate HeldBack(pc: IpConfig, t: Transport, now: U32) {
    IsQuiet(t, now) || t.inflight >= pc.cap
  }

  /** `idles[k]` says whether the radio is idle when the `k`-th report of a turn is sent. */
  predicate IdleAt(idles: seq<bool>, k: nat) {
    k < |idles| && idles[k]
  }

  ghost function SendReports(c: Config, s: State, out: seq<MouseReport>, now: U32, idles: seq<bool>): State {
    if out == [] then s
    else
      var k := |out| - 1;
      Send(c, SendReports(c, s, out[..k], now, idles), Raw(c, out[k]), now, IdleAt(idles, k))
  }

  /** `input` is the motion that came in while the endpoint was active, `dropped` what the processors dropped. */
  datatype World = World(s: State, ips: seq<Instance>, input: Motion, dropped: Motion)

  datatype WorldOp =
    | OpInput(i: nat, ev: Input, active: bool, now: U32, idles: seq<bool>)
    | OpRetry(i: nat, now: U32, idles: seq<bool>)
    | OpTransport(op: Op)

  function TurnOf(pc: IpConfig, w: World, op: WorldOp): Turn
    requires ValidIp(pc) && !op.OpTransport? && op.i < |w.ips|
  {
    var held := HeldBack(pc, w.s.t, op.now);
    if op.OpInput? then OnInput(pc, w.ips[op.i], op.ev, op.active, held, op.now)
    else OnRetry(pc, w.ips[op.i], held, op.now)
  }

  ghost function WorldStep(c: Config, pc: IpConfig, w: World, op: WorldOp): World
    requires ValidIp(pc)
  {
    if op.OpTransport? then w.(s := Step(c, w.s, op.op))
    else if op.i >= |w.ips| then w
    else
      var turn := TurnOf(pc, w, op);
      World(SendReports(c, w.s, turn.out, op.now, op.idles), w.ips[op.i := turn.d],
            if op.OpInput? && op.active then Add(w.input, Delta(op.ev)) else w.input,
            Add(w.dropped, turn.dropped))
  }

  function Idle(n: nat): seq<Instance> {
    if n == 0 then [] else Idle(n - 1) + [FRESH]
  }

  ghost function WorldRun(c: Config, pc: IpConfig, n: nat, ops: seq<WorldOp>): World
    requires ValidIp(pc)
  {
    if ops == [] then World(Reset(c), Idle(n), STILL, STILL)
    else WorldStep(c, pc, WorldRun(c, pc, n, ops[..|ops| - 1]), ops[|ops| - 1])
  }

  /** Only the input processors send mouse reports. */
  predicate OnlyProcessorsPoint(ops: seq<WorldOp>) {
    forall k | 0 <= k < |ops| && ops[k].OpTransport? :: !Points(ops[k].op)
  }

  predicate Points(op: Op) {
    match op
    case OpSend(p, _, _) => IsMouse(p)
    case OpSideTrip(_, p, _) => IsMouse(p)
    case _ => false
  }

  // ----- A world is a transport run -----

  function Sends(c: Config, out: seq<MouseReport>, now: U32, idles: seq<bool>): seq<Op> {
    if out == [] then []
    else Sends(c, out[..|out| - 1], now, idles) + [OpSend(Raw(c, out[|out| - 1]), now, IdleAt(idles, |out| - 1))]
  }

  ghost function TransportOps(c: Config, pc: IpConfig, n: nat, ops: seq<WorldOp>): seq<Op>
    requires ValidIp(pc)
  {
    if ops == [] then []
    else
      var before, op := ops[..|ops| - 1], ops[|ops| - 1];
      var w := WorldRun(c, pc, n, before);
      TransportOps(c, pc, n, before) +
      if op.OpTransport? then [op.op]
      else if op.i >= |w.ips| then []
      else Sends(c, TurnOf(pc, w, op).out, op.now, op.idles)
  }

  lemma RunOne(c: Config, before: seq<Op>, op: Op)
    ensures Run(c, before + [op]) == Step(c, Run(c, before), op)
  {
    assert (before + [op])[..|before|] == before;
  }

  lemma {:induction false} SendsRun(c: Config, before: seq<Op>, out: seq<MouseReport>, now: U32, idles: seq<bool>)
    ensures Run(c, before + Sends(c, out, now, idles)) == SendReports(c, Run(c, before), out, now, idles)
  {
    if out == [] {
      assert before + [] == before;
    } else {
      var k := |out| - 1;
      var first, last := Sends(c, out[..k], now, idles), OpSend(Raw(c, out[k]), now, IdleAt(idles, k));
      SendsRun(c, before, out[..k], now, idles);
      RunOne(c, before + first, last);
      assert before + (first + [last]) == before + first + [last];
    }
  }

  /** The transport under the input processors makes a run of its own, so all that is proved of transport runs
      holds of it. */
  lemma {:induction false} WorldIsTransportRun(c: Config, pc: IpConfig, n: nat, ops: seq<WorldOp>)
    requires ValidIp(pc)
    ensures WorldRun(c, pc, n, ops).s == Run(c, TransportOps(c, pc, n, ops))
  {
    if ops != [] {
      var before, op := ops[..|ops| - 1], ops[|ops| - 1];
      var w, tops := WorldRun(c, pc, n, before), TransportOps(c, pc, n, before);
      WorldIsTransportRun(c, pc, n, before);
      if op.OpTransport? {
        RunOne(c, tops, op.op);
      } else if op.i >= |w.ips| {
        assert tops + [] == tops;
      } else {
        SendsRun(c, tops, TurnOf(pc, w, op).out, op.now, op.idles);
      }
    }
  }

  // ----- Back-pressure -----

  lemma {:induction false} ReplayLength(q: seq<U8>)
    ensures |Replay(q)| == |q|
  {
    if q != [] {
      ReplayLength(q[..|q| - 1]);
    }
  }

  /** A turn hands over nothing while the transport holds reports back, and at most one report more than its
      queue is deep otherwise. */
  lemma TurnIsShort(pc: IpConfig, w: World, op: WorldOp)
    requires ValidIp(pc) && !op.OpTransport? && op.i < |w.ips| && |w.ips[op.i].pending| <= pc.queue
    ensures var turn := TurnOf(pc, w, op);
            && |turn.out| <= pc.queue + 1 && |turn.d.pending| <= pc.queue
            && (HeldBack(pc, w.s.t, op.now) ==> turn.out == [])
  {
    ReplayLength(w.ips[op.i].pending);
  }

  lemma PushCounts(c: Config, t: Transport, p: Payload, now: U32, idle: bool)
    ensures Enqueued(c, t, p, now, idle).inflight <= t.inflight + 1
    ensures !IsMouse(p) ==> Enqueued(c, t, p, now, idle).inflight <= t.inflight
  {
  }

  lemma SendCounts(c: Config, s: State, p: Payload, now: U32, idle: bool)
    ensures Send(c, s, p, now, idle).t.inflight <= s.t.inflight + 1
    ensures !IsMouse(p) ==> Send(c, s, p, now, idle).t.inflight <= s.t.inflight
  {
    BooksOnlyWatch(c, s, OpSend(p, now, idle));
    match SendVerdict(c, s.t, p, now) {
      case Direct => PushCounts(c, Awake(s.t), p, now, idle);
      case AfterFlush => PushCounts(c, Flushed(c, Awake(s.t), idle), p, now, idle);
      case _ =>
    }
  }

  lemma {:induction false} SendsCount(c: Config, s: State, out: seq<MouseReport>, now: U32, idles: seq<bool>)
    ensures SendReports(c, s, out, now, idles).t.inflight <= s.t.inflight + |out|
  {
    if out != [] {
      var k := |out| - 1;
      SendsCount(c, s, out[..k], now, idles);
      SendCounts(c, SendReports(c, s, out[..k], now, idles), Raw(c, out[k]), now, IdleAt(idles, k));
    }
  }

  lemma OthersDoNotCount(c: Config, s: State, op: Op)
    requires !Points(op)
    ensures Step(c, s, op).t.inflight <= s.t.inflight
  {
    BooksOnlyWatch(c, s, op);
    if op.OpSend? {
      SendCounts(c, s, op.p, op.now, op.idle);
    }
  }

  ghost predicate ShortQueues(pc: IpConfig, ips: seq<Instance>) {
    forall i | 0 <= i < |ips| :: |ips[i].pending| <= pc.queue
  }

  lemma {:induction false} IdleIsFresh(n: nat, i: nat)
    requires i < n
    ensures |Idle(n)| == n && Idle(n)[i] == FRESH
  {
    if i < n - 1 {
      IdleIsFresh(n - 1, i);
    } else if 0 < i {
      IdleIsFresh(n - 1, i - 1);
    }
  }

  lemma IdleQueues(pc: IpConfig, n: nat)
    ensures ShortQueues(pc, Idle(n))
  {
    forall i | 0 <= i < |Idle(n)|
      ensures |Idle(n)[i].pending| <= pc.queue
    {
      IdleLength(n);
      IdleIsFresh(n, i);
    }
  }

  lemma {:induction false} IdleLength(n: nat)
    ensures |Idle(n)| == n
  {
    if n > 0 {
      IdleLength(n - 1);
    }
  }

  lemma TurnBounded(c: Config, pc: IpConfig, w: World, op: WorldOp)
    requires ValidIp(pc) && !op.OpTransport? && op.i < |w.ips|
    requires w.s.t.inflight <= pc.cap + pc.queue && ShortQueues(pc, w.ips)
    ensures var v := WorldStep(c, pc, w, op);
            v.s.t.inflight <= pc.cap + pc.queue && ShortQueues(pc, v.ips)
  {
    TurnIsShort(pc, w, op);
    var turn := TurnOf(pc, w, op);
    SendsCount(c, w.s, turn.out, op.now, op.idles);
    var ips := w.ips[op.i := turn.d];
    forall i | 0 <= i < |ips|
      ensures |ips[i].pending| <= pc.queue
    {
      assert i != op.i ==> ips[i] == w.ips[i];
    }
    if HeldBack(pc, w.s.t, op.now) {
      assert SendReports(c, w.s, turn.out, op.now, op.idles) == w.s;
    }
  }

  /** End to end, for any number of input processors and any interleaving with the rest of the transport: the
      in-flight counter, and with it the number of live slots that carry motion, never exceeds
      POINTER_INFLIGHT_CAP + IP_PENDING_BTN_QUEUE, although replayed button reports may pick up refunded motion. */
  lemma {:induction false} PointerInflightBounded(c: Config, pc: IpConfig, n: nat, ops: seq<WorldOp>)
    requires ValidIp(pc) && OnlyProcessorsPoint(ops)
    ensures WorldRun(c, pc, n, ops).s.t.inflight <= pc.cap + pc.queue
    ensures ShortQueues(pc, WorldRun(c, pc, n, ops).ips)
  {
    if ops == [] {
      IdleQueues(pc, n);
    } else {
      var before, op := ops[..|ops| - 1], ops[|ops| - 1];
      var w := WorldRun(c, pc, n, before);
      PointerInflightBounded(c, pc, n, before);
      if op.OpTransport? {
        OthersDoNotCount(c, w.s, op.op);
      } else if op.i < |w.ips| {
        TurnBounded(c, pc, w, op);
      }
    }
  }

  /** And so does the number of live slots that carry motion, in every run: unless the motion ring has overrun since the
      last flush, that is what the counter counts. */
  lemma MovingSlotsBounded(c: Config, pc: IpConfig, n: nat, ops: seq<WorldOp>)
    requires ValidWorld(c, pc) && OnlyProcessorsPoint(ops)
    ensures var s := WorldRun(c, pc, n, ops).s;
            !s.b.motionOverrun ==> RP.Moving(s.t.motion.live) == s.t.inflight <= pc.cap + pc.queue
  {
    WorldIsTransportRun(c, pc, n, ops);
    RP.InflightCountsMovingSlots(c, TransportOps(c, pc, n, ops));
    PointerInflightBounded(c, pc, n, ops);
  }

  // ----- Stranded reports hold the pointer back -----

  /** Nothing but input processors, radio events and ticks: no other sender, no flush, no hop and no slot change. */
  predicate PointerOnly(op: WorldOp) {
    op.OpTransport? ==> op.op.OpSuccess? || op.op.OpFailed? || op.op.OpTick? || op.op.OpTimeout?
  }

  ghost function WorldFrom(c: Config, pc: IpConfig, w: World, ops: seq<WorldOp>): World
    requires ValidIp(pc)
  {
    if ops == [] then w else WorldStep(c, pc, WorldFrom(c, pc, w, ops[..|ops| - 1]), ops[|ops| - 1])
  }

  lemma StallStep(c: Config, pc: IpConfig, w: World, op: WorldOp)
    requires ValidIp(pc) && PointerOnly(op) && w.s.t.fifo == [] && w.s.t.inflight >= pc.cap
    ensures var v := WorldStep(c, pc, w, op).s;
            v.t.fifo == [] && v.t.inflight == w.s.t.inflight && v.b.submitted == w.s.b.submitted
  {
    if !op.OpTransport? && op.i < |w.ips| {
      assert HeldBack(pc, w.s.t, op.now);
      assert TurnOf(pc, w, op).out == [];
    }
  }

  /** Once the FIFO is empty and the counter is at its cap, as a slot change with reports in flight leaves them, no event is
      due that could lower it: as long as nothing but the pointer uses the transport no mouse report is ever sent again. */
  lemma {:induction false} StrandedPointerStalls(c: Config, pc: IpConfig, w: World, ops: seq<WorldOp>)
    requires ValidIp(pc) && w.s.t.fifo == [] && w.s.t.inflight >= pc.cap
    requires forall i | 0 <= i < |ops| :: PointerOnly(ops[i])
    ensures var v := WorldFrom(c, pc, w, ops).s;
            v.t.fifo == [] && v.t.inflight == w.s.t.inflight && v.b.submitted == w.s.b.submitted
  {
    if ops != [] {
      StrandedPointerStalls(c, pc, w, ops[..|ops| - 1]);
      StallStep(c, pc, WorldFrom(c, pc, w, ops[..|ops| - 1]), ops[|ops| - 1]);
    }
  }

  // ----- Nothing is handed to a quiet transport -----

  lemma SendStaysAwake(c: Config, s: State, p: Payload, now: U32, idle: bool)
    requires !IsQuiet(s.t, now)
    ensures var u := Send(c, s, p, now, idle).t; !IsQuiet(u, now) && u.up == s.t.up
  {
    BooksOnlyWatch(c, s, OpSend(p, now, idle));
    hide Prepare;
    match SendVerdict(c, s.t, p, now) {
      case Direct =>
      case AfterFlush =>
      case _ =>
    }
  }

  lemma {:induction false} TurnStaysAwake(c: Config, s: State, out: seq<MouseReport>, now: U32, idles: seq<bool>)
    requires !IsQuiet(s.t, now)
    ensures var u := SendReports(c, s, out, now, idles).t; !IsQuiet(u, now) && u.up == s.t.up
  {
    if out != [] {
      var k := |out| - 1;
      TurnStaysAwake(c, s, out[..k], now, idles);
      SendStaysAwake(c, SendReports(c, s, out[..k], now, idles), Raw(c, out[k]), now, IdleAt(idles, k));
    }
  }

  /** No report of an input processor is swallowed by the quiet window or a side-trip, and the radio takes it if and only
      if its library is initialised. */
  lemma ReportsAreTaken(c: Config, pc: IpConfig, w: World, op: WorldOp, k: nat)
    requires ValidWorld(c, pc) && !op.OpTransport? && op.i < |w.ips| && |w.ips[op.i].pending| <= pc.queue
    requires k < |TurnOf(pc, w, op).out|
    ensures var out := TurnOf(pc, w, op).out;
            var t := SendReports(c, w.s, out[..k], op.now, op.idles).t;
            && SendVerdict(c, t, Raw(c, out[k]), op.now) in {Direct, AfterFlush}
            && (Accepts(c, t, Raw(c, out[k])) <==> w.s.t.up)
  {
    TurnIsShort(pc, w, op);
    TurnStaysAwake(c, w.s, TurnOf(pc, w, op).out[..k], op.now, op.idles);
  }

  // ----- Motion from the sensor to the host -----

  function Emitted(out: seq<MouseReport>): Motion {
    if out == [] then STILL else Add(Emitted(out[..|out| - 1]), Saturate(out[|out| - 1].motion))
  }

  function Accumulated(ips: seq<Instance>): Motion {
    if ips == [] then STILL else Add(Accumulated(ips[..|ips| - 1]), ips[|ips| - 1].accum)
  }

  lemma {:induction false} ReplayEmitsNothing(q: seq<U8>)
    ensures Emitted(Replay(q)) == STILL
  {
    if q != [] {
      ReplayEmitsNothing(q[..|q| - 1]);
      assert Replay(q)[..|Replay(q)| - 1] == Replay(q[..|q| - 1]);
    }
  }

  lemma EmitConserves(d: Instance, q: seq<U8>, a: Axis)
    ensures var turn := Emit(d, Replay(q));
            On(a, d.accum) == On(a, turn.d.accum) + On(a, Emitted(turn.out)) + On(a, turn.dropped)
  {
    ReplayEmitsNothing(q);
    var out := Emit(d, Replay(q)).out;
    assert out[..|out| - 1] == Replay(q);
  }

  lemma SubmitConserves(pc: IpConfig, d: Instance, changed: bool, held: bool, now: U32, a: Axis)
    requires ValidIp(pc)
    ensures var turn := Submit(pc, d, changed, held, now);
            On(a, d.accum) == On(a, turn.d.accum) + On(a, Emitted(turn.out)) + On(a, turn.dropped)
  {
    ReplayEmitsNothing(d.pending);
    EmitConserves(d.(pending := []), d.pending, a);
  }

  lemma AccumulateAdds(d: Instance, ev: Input, now: U32, a: Axis)
    ensures On(a, Accumulate(d, ev, now).accum) == On(a, d.accum) + On(a, Delta(ev))
  {
  }

  /** A turn keeps, emits or drops the motion it has. */
  lemma InputConserves(pc: IpConfig, d: Instance, ev: Input, active: bool, held: bool, now: U32, a: Axis)
    requires ValidIp(pc)
    ensures var turn := OnInput(pc, d, ev, active, held, now);
            On(a, d.accum) + (if active then On(a, Delta(ev)) else 0)
            == On(a, turn.d.accum) + On(a, Emitted(turn.out)) + On(a, turn.dropped)
  {
    if active {
      var e := Accumulate(d, ev, now);
      AccumulateAdds(d, ev, now, a);
      SubmitConserves(pc, e, e.buttons != d.buttons, held, now, a);
    }
  }

  lemma RetryConserves(pc: IpConfig, d: Instance, held: bool, now: U32, a: Axis)
    requires d.accum != STILL ==> d.start != 0
    ensures var turn := OnRetry(pc, d, held, now);
            On(a, d.accum) == On(a, turn.d.accum) + On(a, Emitted(turn.out)) + On(a, turn.dropped)
  {
    ReplayEmitsNothing(d.pending);
    EmitConserves(d.(pending := [], retry := false), d.pending, a);
  }

  lemma {:induction false} AccumulatedUpdate(ips: seq<Instance>, i: nat, d: Instance, a: Axis)
    requires i < |ips|
    ensures On(a, Accumulated(ips[i := d])) + On(a, ips[i].accum) == On(a, Accumulated(ips)) + On(a, d.accum)
  {
    var k := |ips| - 1;
    if i < k {
      AccumulatedUpdate(ips[..k], i, d, a);
      assert ips[i := d][..k] == ips[..k][i := d];
    } else {
      assert ips[i := d][..k] == ips[..k];
    }
  }

  lemma EnqueueSubmits(c: Config, s: State, p: Payload, now: U32, idle: bool)
    ensures Enqueue(c, s, p, now, idle).b.submitted == Add(s.b.submitted, MotionOf(p))
  {
  }

  lemma SendSubmits(c: Config, s: State, p: Payload, now: U32, idle: bool)
    ensures Send(c, s, p, now, idle).b.submitted
            == if SendVerdict(c, s.t, p, now) in {TooLong, NoMemory} then s.b.submitted
               else Add(s.b.submitted, MotionOf(p))
  {
    var awake := s.(t := Awake(s.t));
    match SendVerdict(c, s.t, p, now) {
      case Direct => EnqueueSubmits(c, awake, p, now, idle);
      case AfterFlush => EnqueueSubmits(c, Flush(c, awake, idle), p, now, idle);
      case _ =>
    }
  }

  lemma SubmitsMotion(c: Config, s: State, p: Payload, now: U32, idle: bool)
    requires p.len <= c.maxLen && !IsShell(p)
    ensures Send(c, s, p, now, idle).b.submitted == Add(s.b.submitted, MotionOf(p))
  {
    SendSubmits(c, s, p, now, idle);
  }

  lemma {:induction false} SendsSubmit(c: Config, s: State, out: seq<MouseReport>, now: U32, idles: seq<bool>, a: Axis)
    requires MOUSE_LEN <= c.maxLen
    ensures On(a, SendReports(c, s, out, now, idles).b.submitted) == On(a, s.b.submitted) + On(a, Emitted(out))
  {
    if out != [] {
      var k := |out| - 1;
      SendsSubmit(c, s, out[..k], now, idles, a);
      SubmitsMotion(c, SendReports(c, s, out[..k], now, idles), Raw(c, out[k]), now, IdleAt(idles, k));
    }
  }

  lemma EventsSubmitNothing(c: Config, s: State, op: Op)
    requires op.OpSuccess? || op.OpFailed?
    ensures Step(c, s, op).b.submitted == s.b.submitted
  {
    if s.t.fifo != [] && !s.t.sync {
      if op.OpSuccess? {
        PopSubmitsNothing(c, Deliver(s), false, op.now, op.idle);
      } else {
        PopSubmitsNothing(c, GiveUp(c, s), true, op.now, op.idle);
      }
    }
  }

  lemma PopSubmitsNothing(c: Config, s: State, failed: bool, now: U32, idle: bool)
    ensures PopRings(c, s, failed, now, idle).b.submitted == s.b.submitted
  {
  }

  lemma OthersSubmitNothing(c: Config, s: State, op: Op, a: Axis)
    requires !Points(op)
    ensures On(a, Step(c, s, op).b.submitted) == On(a, s.b.submitted)
  {
    hide Send, TxSuccess, TxFailed;
    match op {
      case OpSend(p, now, idle) => SendSubmits(c, s, p, now, idle);
      case OpSuccess(_, _) => EventsSubmitNothing(c, s, op);
      case OpFailed(_, _) => EventsSubmitNothing(c, s, op);
      case OpSetChannel(_, _, _) =>
      case OpSideTrip(_, _, _) =>
      case _ =>
    }
  }

  ghost predicate Stamped(ips: seq<Instance>) {
    forall i | 0 <= i < |ips| :: ips[i].accum != STILL ==> ips[i].start != 0
  }

  lemma {:induction false} IdleAccumulates(n: nat, a: Axis)
    ensures On(a, Accumulated(Idle(n))) == 0
  {
    if n > 0 {
      IdleAccumulates(n - 1, a);
      assert Idle(n)[..|Idle(n)| - 1] == Idle(n - 1);
    }
  }

  lemma IdleStamped(n: nat)
    ensures Stamped(Idle(n))
  {
    forall i | 0 <= i < |Idle(n)|
      ensures Idle(n)[i].accum == STILL
    {
      IdleLength(n);
      IdleIsFresh(n, i);
    }
  }

  lemma TurnStamped(pc: IpConfig, w: World, op: WorldOp)
    requires ValidIp(pc) && !op.OpTransport? && op.i < |w.ips| && Stamped(w.ips)
    ensures Stamped(w.ips[op.i := TurnOf(pc, w, op).d])
  {
  }

  /** Motion that came in waits in an accumulator, was dropped by an input processor, or was submitted. */
  predicate Received(w: World, a: Axis) {
    On(a, w.input) == On(a, Accumulated(w.ips)) + On(a, w.dropped) + On(a, w.s.b.submitted)
  }

  lemma TurnReceived(c: Config, pc: IpConfig, w: World, op: WorldOp, a: Axis)
    requires ValidWorld(c, pc) && !op.OpTransport? && op.i < |w.ips| && Stamped(w.ips) && Received(w, a)
    ensures Received(WorldStep(c, pc, w, op), a)
  {
    var turn, held := TurnOf(pc, w, op), HeldBack(pc, w.s.t, op.now);
    if op.OpInput? {
      InputConserves(pc, w.ips[op.i], op.ev, op.active, held, op.now, a);
    } else {
      RetryConserves(pc, w.ips[op.i], held, op.now, a);
    }
    AccumulatedUpdate(w.ips, op.i, turn.d, a);
    SendsSubmit(c, w.s, turn.out, op.now, op.idles, a);
  }

  lemma {:induction false} InputAccounted(c: Config, pc: IpConfig, n: nat, ops: seq<WorldOp>, a: Axis)
    requires ValidWorld(c, pc) && OnlyProcessorsPoint(ops)
    ensures Received(WorldRun(c, pc, n, ops), a) && Stamped(WorldRun(c, pc, n, ops).ips)
  {
    if ops == [] {
      IdleAccumulates(n, a);
      IdleStamped(n);
    } else {
      var before, op := ops[..|ops| - 1], ops[|ops| - 1];
      var w := WorldRun(c, pc, n, before);
      InputAccounted(c, pc, n, before, a);
      if op.OpTransport? {
        OthersSubmitNothing(c, w.s, op.op, a);
      } else if op.i < |w.ips| {
        TurnReceived(c, pc, w, op, a);
        TurnStamped(pc, w, op);
      }
    }
  }

  /** From the sensors to the host, in every run and on every axis: motion that came in waits in an accumulator, waits
      in a live ring slot, waits in the refund pool, was confirmed by a TX success, or was dropped or overwritten at one of the
      places that count it. */
  lemma MotionEndToEnd(c: Config, pc: IpConfig, n: nat, ops: seq<WorldOp>, a: Axis)
    requires ValidWorld(c, pc) && OnlyProcessorsPoint(ops)
    ensures var w := WorldRun(c, pc, n, ops);
            On(a, w.input)
            == On(a, Accumulated(w.ips)) + On(a, RingMotion(w.s.t.motion.live)) + On(a, w.s.t.pool)
               + On(a, w.s.b.confirmed) + On(a, w.dropped) + On(a, w.s.b.dropped) + On(a, w.s.b.overwritten)
  {
    InputAccounted(c, pc, n, ops, a);
    WorldIsTransportRun(c, pc, n, ops);
    MP.MotionBalances(c, TransportOps(c, pc, n, ops), a);
  }

  // ----- Buttons -----

  /** The button state the reports end on once the queue has drained: the last one waiting, otherwise the last one in
      a report. */
  function LastKnown(d: Instance, shown: U8): U8 {
    if d.pending != [] then d.pending[|d.pending| - 1] else shown
  }

  /** `shown` carries the buttons of the last report of an input processor through a turn. */
  function Shown(shown: U8, out: seq<MouseReport>): U8 {
    if out == [] then shown else out[|out| - 1].buttons
  }

  lemma ReplayEndsOn(q: seq<U8>)
    requires q != []
    ensures Replay(q) != [] && Replay(q)[|Replay(q)| - 1].buttons == q[|q| - 1]
  {
  }

  /** The reports end on the latest button state, and edges that wait have the retry work scheduled. */
  predicate Current(d: Instance, shown: U8) {
    LastKnown(d, shown) == d.buttons && (d.pending != [] ==> d.retry)
  }

  lemma SubmitCurrent(pc: IpConfig, d: Instance, e: Instance, shown: U8, held: bool, now: U32)
    requires ValidIp(pc) && Current(d, shown) && e.pending == d.pending && e.retry == d.retry
    ensures var turn := Submit(pc, e, e.buttons != d.buttons, held, now); Current(turn.d, Shown(shown, turn.out))
  {
    if d.pending != [] {
      ReplayEndsOn(d.pending);
    }
  }

  lemma InputCurrent(pc: IpConfig, d: Instance, shown: U8, ev: Input, active: bool, held: bool, now: U32)
    requires ValidIp(pc) && Current(d, shown)
    ensures var turn := OnInput(pc, d, ev, active, held, now); Current(turn.d, Shown(shown, turn.out))
  {
    if active {
      SubmitCurrent(pc, d, Accumulate(d, ev, now), shown, held, now);
    }
  }

  lemma RetryCurrent(pc: IpConfig, d: Instance, shown: U8, held: bool, now: U32)
    requires Current(d, shown)
    ensures var turn := OnRetry(pc, d, held, now); Current(turn.d, Shown(shown, turn.out))
  {
    if d.pending != [] {
      ReplayEndsOn(d.pending);
    }
  }

  /** The buttons of the last report that input processor `i` handed to the transport. */
  ghost function ShownBy(c: Config, pc: IpConfig, n: nat, ops: seq<WorldOp>, i: nat): U8
    requires ValidIp(pc)
  {
    if ops == [] then 0
    else
      var before, op := ops[..|ops| - 1], ops[|ops| - 1];
      var w, shown := WorldRun(c, pc, n, before), ShownBy(c, pc, n, before, i);
      if op.OpTransport? || op.i != i || i >= |w.ips| then shown else Shown(shown, TurnOf(pc, w, op).out)
  }

  lemma TurnCurrent(pc: IpConfig, w: World, op: WorldOp, shown: U8)
    requires ValidIp(pc) && !op.OpTransport? && op.i < |w.ips| && Current(w.ips[op.i], shown)
    ensures var turn := TurnOf(pc, w, op); Current(turn.d, Shown(shown, turn.out))
  {
    var held := HeldBack(pc, w.s.t, op.now);
    if op.OpInput? {
      InputCurrent(pc, w.ips[op.i], shown, op.ev, op.active, held, op.now);
    } else {
      RetryCurrent(pc, w.ips[op.i], shown, held, op.now);
    }
  }

  /** For every input processor on every transport run, whatever is deferred or dropped: the last of its button states that
      waits, or if none does the last that the transport took, is the latest, and edges that wait have the retry work
      scheduled. */
  lemma {:induction false} EndsOnLatestButtons(c: Config, pc: IpConfig, n: nat, ops: seq<WorldOp>, i: nat)
    requires ValidIp(pc) && i < n
    ensures var w := WorldRun(c, pc, n, ops); |w.ips| == n && Current(w.ips[i], ShownBy(c, pc, n, ops, i))
  {
    if ops == [] {
      IdleIsFresh(n, i);
    } else {
      var before, op := ops[..|ops| - 1], ops[|ops| - 1];
      EndsOnLatestButtons(c, pc, n, before, i);
      if !op.OpTransport? && op.i == i {
        TurnCurrent(pc, WorldRun(c, pc, n, before), op, ShownBy(c, pc, n, before, i));
      }
    }
  }

  // ----- What the button byte says -----

  function Power2(b: nat): (p: nat)
    ensures 0 < p
  {
    if b == 0 then 1 else 2 * Power2(b - 1)
  }

  predicate BitSet(x: nat, b: nat) {
    x / Power2(b) % 2 == 1
  }

  /** The last press or release of button `b` that input processor `i` handled while active was a press. */
  predicate Pressed(ops: seq<WorldOp>, i: nat, b: nat) {
    ops != [] &&
    (var op := ops[|ops| - 1];
     if op.OpInput? && op.i == i && op.active && op.ev.Button? && op.ev.btn == b then op.ev.down
     else Pressed(ops[..|ops| - 1], i, b))
  }

  /** The five lowest bits of a byte. */
  function Digit(x: nat, b: nat): nat {
    if b == 0 then x % 2 else if b == 1 then x / 2 % 2 else if b == 2 then x / 4 % 2 else if b == 3 then x / 8 % 2 else x / 16 % 2
  }

  lemma DigitIsBit(x: nat, b: nat)
    requires b <= 4
    ensures BitSet(x, b) <==> Digit(x, b) == 1
  {
    assert Power2(1) == 2 && Power2(2) == 4;
    assert Power2(3) == 8 && Power2(4) == 16;
  }

  lemma Digits(x: nat)
    requires x < 32
    ensures x == Digit(x, 0) + 2 * Digit(x, 1) + 4 * Digit(x, 2) + 8 * Digit(x, 3) + 16 * Digit(x, 4)
    ensures forall b | 0 <= b <= 4 :: Digit(x, b) < 2
  {
  }

  lemma FromDigits(x: nat, d0: nat, d1: nat, d2: nat, d3: nat, d4: nat)
    requires d0 < 2 && d1 < 2 && d2 < 2 && d3 < 2 && d4 < 2 && x == d0 + 2 * d1 + 4 * d2 + 8 * d3 + 16 * d4
    ensures x < 32 && Digit(x, 0) == d0 && Digit(x, 1) == d1 && Digit(x, 2) == d2 && Digit(x, 3) == d3 && Digit(x, 4) == d4
  {
  }

  lemma SetDigit(x: U8, btn: nat, down: bool)
    requires x < 32 && btn <= 4
    ensures var y := SetButton(x, btn, down);
            y + Weight(btn) * Digit(x, btn) == x + if down then Weight(btn) else 0
  {
  }

  lemma SetDigits(x: U8, btn: nat, down: bool)
    requires x < 32 && btn <= 4
    ensures var y, n := SetButton(x, btn, down), if down then 1 else 0;
            y < 32 && forall b | 0 <= b <= 4 :: Digit(y, b) == if b == btn then n else Digit(x, b)
  {
    var y, n := SetButton(x, btn, down), if down then 1 else 0;
    var d0, d1, d2, d3, d4 := Digit(x, 0), Digit(x, 1), Digit(x, 2), Digit(x, 3), Digit(x, 4);
    SetDigit(x, btn, down);
    Digits(x);
    hide SetButton, Digit;
    if btn == 0 {
      FromDigits(y, n, d1, d2, d3, d4);
    } else if btn == 1 {
      FromDigits(y, d0, n, d2, d3, d4);
    } else if btn == 2 {
      FromDigits(y, d0, d1, n, d3, d4);
    } else if btn == 3 {
      FromDigits(y, d0, d1, d2, n, d4);
    } else {
      FromDigits(y, d0, d1, d2, d3, n);
    }
  }

  lemma SetOneBit(x: U8, btn: nat, down: bool, b: nat)
    requires x < 32 && btn <= 4 && b <= 4
    ensures var y := SetButton(x, btn, down); y < 32 && (BitSet(y, b) <==> if b == btn then down else BitSet(x, b))
  {
    hide SetButton, Digit, BitSet;
    SetDigits(x, btn, down);
    DigitIsBit(x, b);
    DigitIsBit(SetButton(x, btn, down), b);
  }

  lemma TurnButtons(pc: IpConfig, w: World, op: WorldOp)
    requires ValidIp(pc) && !op.OpTransport? && op.i < |w.ips|
    ensures TurnOf(pc, w, op).d.buttons
            == if op.OpInput? && op.active && op.ev.Button? && op.ev.btn <= 4
               then SetButton(w.ips[op.i].buttons, op.ev.btn, op.ev.down) else w.ips[op.i].buttons
  {
  }

  /** For every input processor in every run: a bit of its button byte is set if and only if the last event of that button
      which it handled while active was a press, and no other bits are. */
  lemma {:induction false} ButtonsAreThoseHeld(c: Config, pc: IpConfig, n: nat, ops: seq<WorldOp>, i: nat, b: nat)
    requires ValidIp(pc) && i < n && b <= 4
    ensures var w := WorldRun(c, pc, n, ops);
            && |w.ips| == n && w.ips[i].buttons < 32 && (BitSet(w.ips[i].buttons, b) <==> Pressed(ops, i, b))
  {
    if ops == [] {
      IdleIsFresh(n, i);
      DigitIsBit(0, b);
    } else {
      var before, op := ops[..|ops| - 1], ops[|ops| - 1];
      var w := WorldRun(c, pc, n, before);
      ButtonsAreThoseHeld(c, pc, n, before, i, b);
      hide BitSet, Power2, TurnOf, SetButton;
      if !op.OpTransport? && op.i == i {
        TurnButtons(pc, w, op);
        if op.OpInput? && op.active && op.ev.Button? && op.ev.btn <= 4 {
          SetOneBit(w.ips[i].buttons, op.ev.btn, op.ev.down, b);
        }
      }
    }
  }

  /** So once nothing waits the last report shows exactly the buttons that are held. */
  lemma LastReportShowsHeld(c: Config, pc: IpConfig, n: nat, ops: seq<WorldOp>, i: nat, b: nat)
    requires ValidIp(pc) && i < n && b <= 4
    ensures var w := WorldRun(c, pc, n, ops);
            |w.ips| == n && (BitSet(LastKnown(w.ips[i], ShownBy(c, pc, n, ops, i)), b) <==> Pressed(ops, i, b))
  {
    ButtonsAreThoseHeld(c, pc, n, ops, i, b);
    EndsOnLatestButtons(c, pc, n, ops, i);
    hide BitSet, Pressed, WorldRun, ShownBy;
  }
}
