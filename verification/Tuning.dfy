/** The frequency the radio is tuned to. A side-trip visits another channel, and has to bring the radio back. */
module Tuning {
  import opened Words
  import opened TransportModel
  import opened TransportProofs

  /** esb_set_rf_channel, whose verdict nobody reads. */
  function Tuned(radio: nat, channel: nat, idle: bool): nat {
    if Tunes(channel, idle) then channel else radio
  }

  /** The side-trip is waiting for its packet, and this is the event. */
  predicate Returns(t: Transport, op: Op) {
    t.sync && ((t.fifo != [] && (op.OpSuccess? || op.OpFailed?)) || op.OpTimeout?)
  }

  /** The radio is idle when a side-trip ends. */
  predicate IdleAtEnd(op: Op) {
    match op
    case OpSuccess(_, idle) => idle
    case OpFailed(_, idle) => idle
    case OpTimeout(idle) => idle
    case _ => true
  }

  /** The frequency after a step. A side-trip whose packet is turned down returns at once; the library is initialised with
      the active channel. */
  function Retuned(c: Config, t: Transport, radio: nat, op: Op): nat {
    match op
    case OpSetChannel(channel, _, idle) => if t.configured then Tuned(radio, channel, idle) else radio
    case OpSideTrip(channel, p, idle) =>
      if p.len > c.maxLen || !t.configured || t.sync || !Tunes(channel, idle) then radio
      else if Accepts(c, t, p) then channel
      else Tuned(channel, t.channel, true)
    case OpSlotStart(ok) => if ok && t.configured then Tuned(radio, t.channel, true) else radio
    case _ => if Returns(t, op) then Tuned(radio, t.channel, IdleAtEnd(op)) else radio
  }

  /** The library boots on channel 2. */
  ghost function Frequency(c: Config, ops: seq<Op>): nat {
    if ops == [] then 2
    else Retuned(c, Run(c, ops[..|ops| - 1]).t, Frequency(c, ops[..|ops| - 1]), ops[|ops| - 1])
  }

  /** Whenever packets may go out, other than a side-trip's, they go out on the active channel. */
  predicate OnChannel(t: Transport, radio: nat) {
    t.up && t.configured && !t.sync ==> radio == t.channel
  }

  predicate LegalChannel(t: Transport) {
    t.channel <= 100
  }

  /** Channels are legal: those the addresses name, and those the radio took. */
  predicate Addressed(op: Op) {
    op.OpSetAddresses? ==> op.channel <= 100
  }

  lemma StepLegal(c: Config, t: Transport, op: Op)
    requires LegalChannel(t) && Addressed(op)
    ensures LegalChannel(StepOn(c, t, op))
  {
    match op {
      case OpSend(_, _, _) =>
      case OpSuccess(_, _) =>
      case OpFailed(_, _) =>
      case OpSideTrip(_, _, _) =>
      case _ =>
    }
  }

  /** The step brings the radio back: a side-trip ends while the radio is idle, or on the active channel, and new
      addresses are given while the library is down or name the channel it is on. */
  predicate BringsBack(t: Transport, radio: nat, op: Op) {
    if Returns(t, op) then t.up && t.configured ==> IdleAtEnd(op) || radio == t.channel
    else if op.OpSetAddresses? then t.up && !t.sync ==> radio == op.channel
    else true
  }

  predicate SamePlace(t: Transport, u: Transport) {
    u.up == t.up && u.configured == t.configured && u.channel == t.channel && u.sync == t.sync
  }

  lemma FlushStays(c: Config, t: Transport, idle: bool)
    ensures SamePlace(t, Flushed(c, t, idle))
  {
  }

  lemma PopStays(c: Config, t: Transport, failed: bool, now: U32, idle: bool)
    ensures SamePlace(t, Popped(c, t, failed, now, idle))
  {
  }

  lemma EnqueueStays(c: Config, t: Transport, p: Payload, now: U32, idle: bool)
    ensures SamePlace(t, Enqueued(c, t, p, now, idle))
  {
    hide Prepare;
  }

  lemma SendStays(c: Config, t: Transport, p: Payload, now: U32, idle: bool)
    ensures SamePlace(t, SendOn(c, t, p, now, idle))
  {
    hide Enqueued, Flushed;
    match SendVerdict(c, t, p, now) {
      case Direct => EnqueueStays(c, Awake(t), p, now, idle);
      case AfterFlush =>
        FlushStays(c, Awake(t), idle);
        EnqueueStays(c, Flushed(c, Awake(t), idle), p, now, idle);
      case _ =>
    }
  }

  lemma FailureStays(c: Config, t: Transport, now: U32, idle: bool)
    ensures var u := FailedOn(c, t, now, idle); SamePlace(t.(sync := u.sync), u) && (u.sync <==> t.sync && t.fifo == [])
  {
    hide Flushed, Popped;
    if t.fifo != [] {
      if t.sync {
        FlushStays(c, t.(sync := false), idle);
      } else {
        var g := GivenUp(c, t);
        PopStays(c, g, true, now, idle);
        FlushStays(c, Popped(c, g, true, now, idle), idle);
      }
    }
  }

  lemma SuccessStays(c: Config, t: Transport, now: U32, idle: bool)
    ensures var u := SuccessOn(c, t, now, idle); SamePlace(t.(sync := u.sync), u) && (u.sync <==> t.sync && t.fifo == [])
  {
    hide Popped;
    if t.fifo != [] && !t.sync {
      PopStays(c, Delivered(t), false, now, idle);
    }
  }

  /** What each step does to the fields that matter here. */
  lemma EventKeeps(c: Config, t: Transport, op: Op)
    requires op.OpSend? || op.OpSuccess? || op.OpFailed?
    ensures var u := StepOn(c, t, op);
            && u.up == t.up && u.configured == t.configured && u.channel == t.channel
            && (u.sync <==> t.sync && !Returns(t, op))
  {
    hide SendOn, SuccessOn, FailedOn;
    match op {
      case OpSend(p, now, idle) => SendStays(c, t, p, now, idle);
      case OpSuccess(now, idle) => SuccessStays(c, t, now, idle);
      case OpFailed(now, idle) => FailureStays(c, t, now, idle);
    }
  }

  lemma SideTripTunes(c: Config, t: Transport, radio: nat, op: Op)
    requires LegalChannel(t) && OnChannel(t, radio) && op.OpSideTrip?
    ensures OnChannel(StepOn(c, t, op), Retuned(c, t, radio, op))
  {
  }

  lemma StepOnChannel(c: Config, t: Transport, radio: nat, op: Op)
    requires LegalChannel(t) && OnChannel(t, radio)
    ensures OnChannel(StepOn(c, t, op), Retuned(c, t, radio, op)) <==> BringsBack(t, radio, op)
  {
    match op {
      case OpSend(_, _, _) => EventKeeps(c, t, op);
      case OpSuccess(_, _) => EventKeeps(c, t, op);
      case OpFailed(_, _) => EventKeeps(c, t, op);
      case OpSideTrip(_, _, _) => SideTripTunes(c, t, radio, op);
      case OpSetChannel(_, _, _) =>
      case _ =>
    }
  }

  predicate AddressedRun(ops: seq<Op>) {
    forall i | 0 <= i < |ops| :: Addressed(ops[i])
  }

  ghost predicate BroughtBack(c: Config, ops: seq<Op>) {
    forall i | 0 <= i < |ops| :: BringsBack(Run(c, ops[..i]).t, Frequency(c, ops[..i]), ops[i])
  }

  ghost predicate AlwaysOnChannel(c: Config, ops: seq<Op>) {
    forall n | 0 <= n <= |ops| :: OnChannel(Run(c, ops[..n]).t, Frequency(c, ops[..n]))
  }

  lemma {:induction false} AlwaysLegal(c: Config, ops: seq<Op>)
    requires AddressedRun(ops)
    ensures LegalChannel(Run(c, ops).t)
  {
    if ops != [] {
      var s, op := Run(c, ops[..|ops| - 1]), ops[|ops| - 1];
      AlwaysLegal(c, ops[..|ops| - 1]);
      StepLegal(c, s.t, op);
      BooksOnlyWatch(c, s, op);
    }
  }

  lemma OneStep(c: Config, ops: seq<Op>, n: nat)
    requires n < |ops| && AddressedRun(ops) && OnChannel(Run(c, ops[..n]).t, Frequency(c, ops[..n]))
    ensures OnChannel(Run(c, ops[..n + 1]).t, Frequency(c, ops[..n + 1]))
            <==> BringsBack(Run(c, ops[..n]).t, Frequency(c, ops[..n]), ops[n])
  {
    assert ops[..n + 1][..n] == ops[..n];
    AlwaysLegal(c, ops[..n]);
    RunStep(c, ops, n);
    StepOnChannel(c, Run(c, ops[..n]).t, Frequency(c, ops[..n]), ops[n]);
  }

  lemma {:induction false} BroughtBackPrefix(c: Config, ops: seq<Op>, n: nat)
    requires AddressedRun(ops) && BroughtBack(c, ops) && n <= |ops|
    ensures OnChannel(Run(c, ops[..n]).t, Frequency(c, ops[..n]))
  {
    if n > 0 {
      BroughtBackPrefix(c, ops, n - 1);
      OneStep(c, ops, n - 1);
    }
  }

  /** Throughout a run the radio is on the active channel, whenever the transport is up and no side-trip is under way, if and
      only if every side-trip ends with the radio idle, or was to the active channel, and new addresses name the channel it
      is on or find it down. */
  lemma ActiveChannelRestored(c: Config, ops: seq<Op>)
    requires AddressedRun(ops)
    ensures AlwaysOnChannel(c, ops) <==> BroughtBack(c, ops)
  {
    if BroughtBack(c, ops) {
      forall n | 0 <= n <= |ops|
        ensures OnChannel(Run(c, ops[..n]).t, Frequency(c, ops[..n]))
      {
        BroughtBackPrefix(c, ops, n);
      }
    }
    if AlwaysOnChannel(c, ops) {
      forall i | 0 <= i < |ops|
        ensures BringsBack(Run(c, ops[..i]).t, Frequency(c, ops[..i]), ops[i])
      {
        assert OnChannel(Run(c, ops[..i]).t, Frequency(c, ops[..i]));
        assert OnChannel(Run(c, ops[..i + 1]).t, Frequency(c, ops[..i + 1]));
        OneStep(c, ops, i);
      }
    }
  }

  // ----- A side-trip that times out -----

  lemma OneMore(c: Config, ops: seq<Op>, op: Op)
    ensures Run(c, ops + [op]).t == StepOn(c, Run(c, ops).t, op)
    ensures Frequency(c, ops + [op]) == Retuned(c, Run(c, ops).t, Frequency(c, ops), op)
  {
    assert (ops + [op])[..|ops|] == ops;
    BooksOnlyWatch(c, Run(c, ops), op);
  }

  /** The first slot starts on `home`, and a side-trip to `away` begins. */
  function Visit(home: nat, away: nat, p: Payload): seq<Op> {
    [OpSetAddresses(home)] + [OpSlotStart(true)] + [OpSideTrip(away, p, true)]
  }

  lemma Booted(c: Config, none: seq<Op>)
    requires none == []
    ensures Run(c, none).t == Reset(c).t && Frequency(c, none) == 2
  {
  }

  /** A reachable transport with its side-trip under way. If it times out with the radio still busy, the radio stays where it
      is. */
  lemma TimeoutLeavesChannel(c: Config, home: nat, away: nat, p: Payload)
    requires home <= 100 && away <= 100 && home != away && Writable(c, p)
    ensures var t := Run(c, Visit(home, away, p)).t;
            && t.sync && t.up && t.configured && t.channel == home && Frequency(c, Visit(home, away, p)) == away
            && !OnChannel(StepOn(c, t, OpTimeout(false)), Retuned(c, t, away, OpTimeout(false)))
            && OnChannel(StepOn(c, t, OpTimeout(true)), Retuned(c, t, away, OpTimeout(true)))
  {
    hide Run, Frequency;
    var o1, o2, o3 := OpSetAddresses(home), OpSlotStart(true), OpSideTrip(away, p, true);
    Booted(c, []);
    OneMore(c, [], o1);
    assert [] + [o1] == [o1];
    OneMore(c, [o1], o2);
    OneMore(c, [o1] + [o2], o3);
  }

  /** Nothing but sends, events, ticks and flushes: no hop, no side-trip and no slot change. */
  predicate Traffic(op: Op) {
    op.OpSend? || op.OpSuccess? || op.OpFailed? || op.OpTick? || op.OpFlush?
  }

  lemma TrafficStays(c: Config, t: Transport, radio: nat, op: Op)
    requires Traffic(op) && !t.sync
    ensures var u := StepOn(c, t, op);
            u.up == t.up && u.configured == t.configured && u.channel == t.channel && !u.sync
    ensures Retuned(c, t, radio, op) == radio
  {
    match op {
      case OpSend(_, _, _) => EventKeeps(c, t, op);
      case OpSuccess(_, _) => EventKeeps(c, t, op);
      case OpFailed(_, _) => EventKeeps(c, t, op);
      case OpTick(_, _) =>
      case OpFlush(_) =>
    }
  }

  function StepsOn(c: Config, t: Transport, ops: seq<Op>): Transport {
    if ops == [] then t else StepOn(c, StepsOn(c, t, ops[..|ops| - 1]), ops[|ops| - 1])
  }

  function RetunedBy(c: Config, t: Transport, radio: nat, ops: seq<Op>): nat {
    if ops == [] then radio
    else Retuned(c, StepsOn(c, t, ops[..|ops| - 1]), RetunedBy(c, t, radio, ops[..|ops| - 1]), ops[|ops| - 1])
  }

  /** A side-trip that times out with the radio busy, as the library in vendor/ is while the packet is still being sent, leaves
      the radio where it went: every later send goes out there, until a hop, another side-trip or a slot change. */
  lemma {:induction false} StaysAway(c: Config, t: Transport, radio: nat, timeout: Op, ops: seq<Op>)
    requires timeout == OpTimeout(false) && t.sync && t.up && t.configured && radio != t.channel
    requires forall i | 0 <= i < |ops| :: Traffic(ops[i])
    ensures var u := StepsOn(c, StepOn(c, t, timeout), ops);
            var away := RetunedBy(c, StepOn(c, t, timeout), Retuned(c, t, radio, timeout), ops);
            && away == radio && u.up && u.configured && !u.sync && u.channel == t.channel && !OnChannel(u, away)
  {
    if ops != [] {
      var before, op := ops[..|ops| - 1], ops[|ops| - 1];
      StaysAway(c, t, radio, timeout, before);
      var v := StepsOn(c, StepOn(c, t, timeout), before);
      TrafficStays(c, v, RetunedBy(c, StepOn(c, t, timeout), Retuned(c, t, radio, timeout), before), op);
    }
  }
}
