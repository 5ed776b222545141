/** What a turn of an input processor hands to the transport, keeps and drops, exactly. */
module PointerTurns {
  import opened Deferral
  import opened Words
  import opened TransportModel
  import opened Pointer
  import opened SendProofs

  /** What an event moves on an axis. */
  function Brings(ev: Input, a: Axis): int {
    if ev.Rel? && ((a == X && ev.code == RelX) || (a == Y && ev.code == RelY)
                   || (a == ScrollX && ev.code == HWheel) || (a == ScrollY && ev.code == Wheel))
    then ev.value else 0
  }

  /** The transport keeps quiet, or has as many moving reports in flight as it may. */
  predicate Blocks(pc: IpConfig, t: Transport, now: U32) {
    IsQuiet(t, now) || t.inflight >= pc.cap
  }

  /** When the motion that is waiting began; zero if none does. */
  function Began(d: Instance, ev: Input, now: U32): U32 {
    if ev.Rel? && d.start == 0 then NonZero(now) else d.start
  }

  predicate TooOld(pc: IpConfig, since: U32, now: U32) {
    since != 0 && Wrap32(now - since) > pc.staleMs
  }

  /** One report without motion for each button state that waits, in order, and then `last` if there is one. */
  predicate Replays(out: seq<MouseReport>, q: seq<U8>, last: seq<MouseReport>) {
    && |out| == |q| + |last| && out[|q|..] == last
    && forall k | 0 <= k < |q| :: out[k] == MouseReport(q[k], STILL)
  }

  /** The newest states, as many as the queue is deep. */
  predicate Queued(q: seq<U8>, r: seq<U8>, x: U8, depth: nat) {
    r != [] && r[|r| - 1] == x && |r| == Min(|q| + 1, depth)
    && forall k | 0 <= k < |r| - 1 :: r[k] == q[|q| + 1 - |r| + k]
  }

  lemma {:induction false} ReplayIs(q: seq<U8>)
    ensures Replays(Replay(q), q, [])
  {
    if q != [] {
      ReplayIs(q[..|q| - 1]);
      assert Replay(q)[|q|..] == [];
    }
  }

  lemma ReplayThen(q: seq<U8>, r: MouseReport)
    ensures Replays(Replay(q) + [r], q, [r])
  {
    ReplayIs(q);
    assert (Replay(q) + [r])[|q|..] == [r];
  }

  /** What an input turn does, given whether the buttons changed. */
  predicate Turned(pc: IpConfig, d: Instance, ev: Input, blocked: bool, now: U32, turn: Turn, a: Axis) {
    var all, since := On(a, d.accum) + Brings(ev, a), Began(d, ev, now);
    var changed := turn.d.buttons != d.buttons;
    if blocked || !(ev.sync || changed) then
      && turn.out == [] && On(a, turn.d.accum) == all && turn.d.start == since && turn.dropped == STILL
      && (if changed then Queued(d.pending, turn.d.pending, turn.d.buttons, pc.queue) && turn.d.retry
          else turn.d.pending == d.pending && turn.d.retry == d.retry)
    else
      && turn.d.pending == [] && turn.d.accum == STILL && turn.d.start == 0 && turn.d.retry == d.retry
      && if !changed && TooOld(pc, since, now)
         then Replays(turn.out, d.pending, []) && On(a, turn.dropped) == all
         else
           && turn.out != []
           && var last := turn.out[|turn.out| - 1];
              && Replays(turn.out, d.pending, [last])
              && last.buttons == turn.d.buttons && On(a, last.motion) == all
              && On(a, turn.dropped) == all - Sat16(all)
  }

  lemma DeferQueues(q: seq<U8>, depth: nat, x: U8)
    requires 1 <= depth && |q| <= depth
    ensures Queued(q, Defer(q, depth, x), x, depth)
  {
  }

  lemma Gathers(d: Instance, ev: Input, now: U32, a: Axis)
    ensures var e := Accumulate(d, ev, now);
            && On(a, e.accum) == On(a, d.accum) + Brings(ev, a) && e.start == Began(d, ev, now)
            && e.pending == d.pending && e.retry == d.retry
  {
    hide SetButton, NonZero;
  }

  lemma BlockedTurns(pc: IpConfig, d: Instance, e: Instance, ev: Input, now: U32, a: Axis)
    requires ValidIp(pc) && |d.pending| <= pc.queue && e.pending == d.pending && e.retry == d.retry
    requires On(a, e.accum) == On(a, d.accum) + Brings(ev, a) && e.start == Began(d, ev, now)
    ensures Turned(pc, d, ev, true, now, Submit(pc, e, e.buttons != d.buttons, true, now), a)
  {
    hide Queued, Defer, Brings, Began;
    DeferQueues(d.pending, pc.queue, e.buttons);
  }

  lemma AwakeTurns(pc: IpConfig, d: Instance, e: Instance, ev: Input, now: U32, a: Axis)
    requires ValidIp(pc) && e.pending == d.pending && e.retry == d.retry
    requires On(a, e.accum) == On(a, d.accum) + Brings(ev, a) && e.start == Began(d, ev, now)
    requires ev.sync || e.buttons != d.buttons
    ensures Turned(pc, d, ev, false, now, Submit(pc, e, e.buttons != d.buttons, false, now), a)
  {
    hide Replays, Replay, Brings, Began, Wrap32, Sat16;
    ReplayIs(d.pending);
    ReplayThen(d.pending, MouseReport(e.buttons, e.accum));
    if e.buttons == d.buttons && Stale(pc, e, now) {
    } else {
      var turn := Emit(e.(pending := []), Replay(e.pending));
      assert turn.out[|turn.out| - 1] == MouseReport(e.buttons, e.accum);
    }
  }

  lemma SubmitTurns(pc: IpConfig, d: Instance, e: Instance, ev: Input, blocked: bool, now: U32, a: Axis)
    requires ValidIp(pc) && |d.pending| <= pc.queue && e.pending == d.pending && e.retry == d.retry
    requires On(a, e.accum) == On(a, d.accum) + Brings(ev, a) && e.start == Began(d, ev, now)
    requires ev.sync || e.buttons != d.buttons
    ensures Turned(pc, d, ev, blocked, now, Submit(pc, e, e.buttons != d.buttons, blocked, now), a)
  {
    hide Submit, Turned, Brings, Began;
    if blocked {
      BlockedTurns(pc, d, e, ev, now, a);
    } else {
      AwakeTurns(pc, d, e, ev, now, a);
    }
  }

  lemma InputTurns(pc: IpConfig, d: Instance, ev: Input, blocked: bool, now: U32, a: Axis)
    requires ValidIp(pc) && |d.pending| <= pc.queue
    ensures Turned(pc, d, ev, blocked, now, OnInput(pc, d, ev, true, blocked, now), a)
  {
    hide Submit, Accumulate, Brings, Began, TooOld, Replays, Queued;
    var e := Accumulate(d, ev, now);
    Gathers(d, ev, now, a);
    if ev.sync || e.buttons != d.buttons {
      SubmitTurns(pc, d, e, ev, blocked, now, a);
      SubmitKeepsButtons(pc, e, e.buttons != d.buttons, blocked, now);
    } else {
    }
  }

  lemma SubmitKeepsButtons(pc: IpConfig, d: Instance, changed: bool, held: bool, now: U32)
    requires ValidIp(pc)
    ensures Submit(pc, d, changed, held, now).d.buttons == d.buttons
  {
    hide Replay, Defer, Stale;
  }

  /** What an input event makes of its processor, for any number of processors on any transport. While the endpoint is not
      active, nothing. Otherwise its motion is added to what waits, and a state that changed a button, or completes a frame,
      is due. If the transport blocks it, or nothing is due, all the motion goes on waiting, and a changed button state joins
      the queue. Otherwise the waiting button states go out one by one, in order and without motion, and after them one report
      with the present buttons and all the motion, except that motion which has waited too long is dropped, unless a
      button changed; clamping it to 16 bits is all that is taken off it. */
  lemma InputTurnsExactly(pc: IpConfig, w: World, op: WorldOp, a: Axis)
    requires ValidIp(pc) && op.OpInput? && op.i < |w.ips| && |w.ips[op.i].pending| <= pc.queue
    ensures var turn := TurnOf(pc, w, op);
            if op.active then Turned(pc, w.ips[op.i], op.ev, Blocks(pc, w.s.t, op.now), op.now, turn, a)
            else turn == Turn(w.ips[op.i], [], STILL)
  {
    hide IsQuiet, Turned;
    if op.active {
      InputTurns(pc, w.ips[op.i], op.ev, Blocks(pc, w.s.t, op.now), op.now, a);
    }
    hide OnInput;
  }

  /** What the retry work makes of its processor. Nothing, unless it is scheduled and the transport does not block it;
      otherwise the waiting button states go out as above, and the motion, if there is any that has not waited too long, in one
      report after them. */
  lemma RetryTurnsExactly(pc: IpConfig, w: World, op: WorldOp)
    requires ValidIp(pc) && op.OpRetry? && op.i < |w.ips|
    ensures var d, turn := w.ips[op.i], TurnOf(pc, w, op);
            if !d.retry || Blocks(pc, w.s.t, op.now) then turn == Turn(d, [], STILL)
            else
              && turn.d.buttons == d.buttons && turn.d.pending == [] && !turn.d.retry
              && if d.start == 0 then turn.d.accum == d.accum && turn.d.start == 0 && Replays(turn.out, d.pending, [])
                 else
                   && turn.d.accum == STILL && turn.d.start == 0
                   && if d.accum == STILL || TooOld(pc, d.start, op.now) then Replays(turn.out, d.pending, [])
                      else Replays(turn.out, d.pending, [MouseReport(d.buttons, d.accum)])
  {
    var d := w.ips[op.i];
    ReplayIs(d.pending);
    ReplayThen(d.pending, MouseReport(d.buttons, d.accum));
    hide IsQuiet, Replay, Replays, Wrap32, Saturate, Sub;
  }

  /** The packet that carries a report: a mouse report to the HID pipe, with the buttons, and on every axis the int16_t nearest to
      its motion. */
  lemma PacketSaysReport(c: Config, r: MouseReport, a: Axis)
    ensures var p := Raw(c, r);
            && p.pipe == 1 && p.len == c.maxLen && p.kind == 0x06 && p.report == 0x02 && p.buttons == r.buttons
            && Nearest16(On(a, p.motion), On(a, r.motion))
  {
    SatIsNearest(On(a, r.motion));
  }
}
