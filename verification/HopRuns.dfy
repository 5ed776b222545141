/** Concrete runs of the channel-hop engine, in which the radio refuses a switch or a slot starts twice. */
module HopRuns {
  import opened Words
  import opened HopModel
  import opened HopProofs
  import opened HopTraces

  /** What is seen of a run: its marks, and the uptimes at which its slots start. */
  datatype Seen = Seen(marks: seq<Mark>, starts: seq<nat>)

  function Began(e: Engine, op: Op): seq<nat> {
    if op.OpStart? then [e.now] else []
  }

  function Starts(c: Config, boot: nat, ops: seq<Op>): seq<nat> {
    if ops == [] then []
    else Starts(c, boot, ops[..|ops| - 1]) + Began(Run(c, boot, ops[..|ops| - 1]), ops[|ops| - 1])
  }

  /** Some run ends in `e`, and this is seen of it. */
  ghost predicate Shows(c: Config, boot: nat, e: Engine, seen: Seen) {
    exists ops :: Run(c, boot, ops) == e && Seen(Trace(c, boot, ops), Starts(c, boot, ops)) == seen
  }

  const FIRST_START := 990

  /** One slot start, and these marks. */
  function Once(marks: seq<Mark>): Seen {
    Seen(marks, [FIRST_START])
  }

  function Also(seen: Seen, m: Mark): Seen {
    seen.(marks := seen.marks + [m])
  }

  lemma NothingShown(c: Config, boot: nat, none: seq<Op>)
    requires none == []
    ensures Shows(c, boot, Init(boot), Seen([], []))
  {
    assert Run(c, boot, none) == Init(boot) && Trace(c, boot, none) == [] && Starts(c, boot, none) == [];
  }

  lemma StepShown(c: Config, boot: nat, e: Engine, seen: Seen, op: Op)
    requires Shows(c, boot, e, seen)
    ensures Shows(c, boot, Step(c, e, op), Seen(seen.marks + Traced(c, e, op), seen.starts + Began(e, op)))
  {
    hide Step, Traced, Began;
    var ops :| Run(c, boot, ops) == e && Seen(Trace(c, boot, ops), Starts(c, boot, ops)) == seen;
    assert (ops + [op])[..|ops|] == ops;
    assert Run(c, boot, ops + [op]) == Step(c, e, op);
    assert Trace(c, boot, ops + [op]) == seen.marks + Traced(c, e, op);
    assert Starts(c, boot, ops + [op]) == seen.starts + Began(e, op);
  }

  lemma NothingMore(seen: Seen)
    ensures Seen(seen.marks + [], seen.starts + []) == seen
  {
  }

  lemma QuietStep(c: Config, boot: nat, e: Engine, seen: Seen, op: Op, d: Engine)
    requires Shows(c, boot, e, seen) && Step(c, e, op) == d && Traced(c, e, op) == [] && !op.OpStart?
    ensures Shows(c, boot, d, seen)
  {
    StepShown(c, boot, e, seen, op);
    NothingMore(seen);
  }

  lemma MarkedStep(c: Config, boot: nat, e: Engine, seen: Seen, op: Op, d: Engine, m: Mark)
    requires Shows(c, boot, e, seen) && Step(c, e, op) == d && Traced(c, e, op) == [m] && !op.OpStart?
    ensures Shows(c, boot, d, Also(seen, m))
  {
    hide Step, Traced, Run, Trace, Starts;
    StepShown(c, boot, e, seen, op);
    assert Seen(seen.marks + [m], seen.starts + []) == Also(seen, m);
  }

  // ----- Single steps -----

  function Booted(e: Engine): Engine {
    e.(channel := e.boot, configured := true)
  }

  lemma StartStep(c: Config, e: Engine)
    ensures Step(c, e, OpStart) == Booted(e) && Traced(c, e, OpStart) == [] && Began(e, OpStart) == [e.now]
  {
  }

  lemma StartShown(c: Config, boot: nat, e: Engine, seen: Seen)
    requires Shows(c, boot, e, seen)
    ensures Shows(c, boot, Booted(e), Seen(seen.marks, seen.starts + [e.now]))
  {
    StartStep(c, e);
    hide Step, Traced, Began, Run, Trace, Starts, Booted;
    StepShown(c, boot, e, seen, OpStart);
    assert seen.marks + [] == seen.marks;
  }

  lemma TickShown(c: Config, boot: nat, e: Engine, seen: Seen, ms: nat)
    requires Shows(c, boot, e, seen)
    ensures Shows(c, boot, e.(now := e.now + ms), seen)
  {
    QuietStep(c, boot, e, seen, OpTick(ms), e.(now := e.now + ms));
  }

  lemma ConnectedShown(c: Config, boot: nat, e: Engine, seen: Seen)
    requires Shows(c, boot, e, seen)
    ensures Shows(c, boot, Connected(e), seen)
  {
    QuietStep(c, boot, e, seen, OpConnected, Connected(e));
  }

  predicate IsConfirm(data: seq<U8>, ch: nat) {
    |data| == 3 && data[0] == CONFIRM && data[1] == ch
  }

  lemma ConfirmStep(c: Config, e: Engine, data: seq<U8>, ch: nat)
    requires IsConfirm(data, ch) && ch < LIMIT
    ensures Step(c, e, OpReceive(data)) == Confirmed(e, ch) && Traced(c, e, OpReceive(data)) == []
  {
    assert data[0] != ACCEPT;
    hide Confirmed;
  }

  lemma ConfirmShown(c: Config, boot: nat, e: Engine, seen: Seen, data: seq<U8>, ch: nat)
    requires Shows(c, boot, e, seen) && IsConfirm(data, ch) && ch < LIMIT
    ensures Shows(c, boot, Confirmed(e, ch), seen)
  {
    hide Step, Traced, Confirmed, Run, Trace, Starts;
    ConfirmStep(c, e, data, ch);
    QuietStep(c, boot, e, seen, OpReceive(data), Confirmed(e, ch));
  }

  /** A failure outside the cooldown submits the hop. */
  function Failing(e: Engine): Engine {
    e.(work := e.work.(hop := true))
  }

  lemma FailureShown(c: Config, boot: nat, e: Engine, seen: Seen)
    requires Shows(c, boot, e, seen) && e.active && !Cooling(e) && !e.offerFlag
    ensures Shows(c, boot, Failing(e), seen)
  {
    QuietStep(c, boot, e, seen, OpTxFail, Failing(e));
  }

  function Refused(e: Engine): Engine {
    e.(fallback := false, work := e.work.(hop := false, retry := true))
  }

  lemma RefusalStep(c: Config, e: Engine, op: Op)
    requires op.OpHop? && !op.accept && e.work.hop && Decide(c, e, op.draw).Go?
    ensures Step(c, e, op) == Refused(e) && Traced(c, e, op) == []
  {
    RefusalChangesNothing(c, e, op.draw);
  }

  lemma RefusalShown(c: Config, boot: nat, e: Engine, seen: Seen, op: Op)
    requires Shows(c, boot, e, seen) && op.OpHop? && !op.accept && e.work.hop && Decide(c, e, op.draw).Go?
    ensures Shows(c, boot, Refused(e), seen)
  {
    RefusalStep(c, e, op);
    StepShown(c, boot, e, seen, op);
    NothingMore(seen);
  }

  lemma RetryStep(c: Config, e: Engine, op: Op)
    requires op.OpRetry? && e.work.retry
    ensures Step(c, e, op) == Retry(e) && Traced(c, e, op) == []
  {
  }

  lemma RetryShown(c: Config, boot: nat, e: Engine, seen: Seen, op: Op)
    requires Shows(c, boot, e, seen) && e.work.retry && op.OpRetry?
    ensures Shows(c, boot, Retry(e), seen)
  {
    RetryStep(c, e, op);
    StepShown(c, boot, e, seen, op);
    NothingMore(seen);
  }

  /** What the runs below need of a hop. */
  lemma Landed(c: Config, e: Engine, kind: Kind, target: nat)
    ensures var d := Land(c, e, kind, target);
            && d.channel == target && d.prev == (if kind == Normal then e.channel else INVALID)
            && d.configured == e.configured && d.boot == e.boot && d.active == e.active && d.linkUp == e.linkUp
            && d.committed == INVALID && d.offerFlag == e.offerFlag && d.coop == e.coop
  {
  }

  lemma HopShown(c: Config, boot: nat, e: Engine, seen: Seen, draw: nat)
    requires Shows(c, boot, e, seen) && e.work.hop
    requires Decide(c, e, draw).Go? && Switches(e, Decide(c, e, draw).target, true)
    ensures var g := Decide(c, e, draw);
            && Hop(c, e, draw, true) == Land(c, HopStarted(e), g.kind, g.target)
            && Shows(c, boot, Hop(c, e, draw, true), Also(seen, Hopped(g.kind, e.channel, g.target, e.now)))
  {
    HopLands(c, e, draw, true);
    MarkedStep(c, boot, e, seen, OpHop(draw, true), Hop(c, e, draw, true),
               Hopped(Decide(c, e, draw).kind, e.channel, Decide(c, e, draw).target, e.now));
  }

  // ----- A session with an agreed channel -----

  /** On the boot channel, connected since 1000 ms, with `next` agreed and no hop yet. */
  predicate Agreed(e: Engine, next: nat) {
    && e.configured && e.channel == e.boot < LIMIT && e.linkUp && e.active && e.committed == next < LIMIT && next != e.boot
    && e.prev == INVALID && e.cooldownUntil == 0 && !e.fallback && e.coop == Quiet && !e.offerFlag && e.now == 1000
  }

  /** Ten milliseconds into the first slot. */
  function Waiting(e: Engine): Engine {
    Booted(e).(now := e.now + FIRST_START + 10)
  }

  function Session(e: Engine, next: nat): Engine {
    Confirmed(Connected(Waiting(e)), next)
  }

  lemma WaitingShown(c: Config, boot: nat, e: Engine)
    requires Shows(c, boot, e, Seen([], [])) && !e.configured && e.now == 0
    ensures Shows(c, boot, Waiting(e), Once([]))
  {
    hide Run, Trace, Starts;
    var d := e.(now := e.now + FIRST_START);
    TickShown(c, boot, e, Seen([], []), FIRST_START);
    StartShown(c, boot, d, Seen([], []));
    assert [] + [d.now] == [FIRST_START];
    TickShown(c, boot, Booted(d), Once([]), 10);
    assert Booted(d).(now := d.now + 10) == Waiting(e);
  }

  lemma SessionShown(c: Config, boot: nat, e: Engine, next: nat, data: seq<U8>)
    requires Shows(c, boot, e, Seen([], [])) && !e.configured && e.now == 0 && next < LIMIT && IsConfirm(data, next)
    ensures Shows(c, boot, Session(e, next), Once([]))
  {
    hide Run, Trace, Starts;
    WaitingShown(c, boot, e);
    ConnectedShown(c, boot, Waiting(e), Once([]));
    ConfirmShown(c, boot, Connected(Waiting(e)), Once([]), data, next);
  }

  lemma SessionAgreed(e: Engine, next: nat)
    requires e.boot < LIMIT && next < LIMIT && next != e.boot && e.now == 0 && e.prev == INVALID
    requires e.cooldownUntil == 0 && !e.fallback && e.coop == Quiet && !e.offerFlag
    ensures Agreed(Session(e, next), next) && Session(e, next).boot == e.boot
  {
  }

  lemma FirstSession(c: Config, boot: nat, next: nat, data: seq<U8>)
    requires boot < LIMIT && next < LIMIT && next != boot && IsConfirm(data, next)
    ensures Shows(c, boot, Session(Init(boot), next), Once([]))
    ensures Agreed(Session(Init(boot), next), next) && Session(Init(boot), next).boot == boot
  {
    NothingShown(c, boot, []);
    SessionShown(c, boot, Init(boot), next, data);
    SessionAgreed(Init(boot), next);
  }

  // ----- A retry that breaks the spacing -----

  function First(boot: nat, next: nat): Mark {
    Hopped(Normal, boot, next, 1000)
  }

  function Second(boot: nat, next: nat): Mark {
    Hopped(Revert, next, boot, 1000)
  }

  lemma DecidesAgreed(c: Config, e: Engine, next: nat, draw: nat)
    requires Agreed(e, next)
    ensures Decide(c, e, draw) == Go(Normal, next)
  {
  }

  lemma HopThere(c: Config, boot: nat, e: Engine, next: nat, draw: nat)
    requires Shows(c, boot, e, Once([])) && Agreed(e, next) && e.boot == boot && e.work.hop
    ensures var d := Hop(c, e, draw, true);
            && Shows(c, boot, d, Once([First(boot, next)]))
            && d == Land(c, HopStarted(e), Normal, next)
  {
    DecidesAgreed(c, e, next, draw);
    HopShown(c, boot, e, Once([]), draw);
    assert Also(Once([]), First(boot, next)) == Once([First(boot, next)]);
  }

  lemma Arrived(c: Config, e: Engine, next: nat)
    requires Agreed(e, next)
    ensures var d := Land(c, HopStarted(e), Normal, next);
            && d.configured && d.channel == next && d.prev == e.boot == d.boot && d.now == 1000 && d.active && d.linkUp
            && d.committed == INVALID && !d.fallback && d.work.retry == e.work.retry && !d.offerFlag && d.coop == Quiet
            && d.cooldownUntil == Wrap32(1000 + c.cooldownMs) && d.lastEvent == 1000
  {
    Landed(c, HopStarted(e), Normal, next);
    LandedClock(c, HopStarted(e), Normal, next);
  }

  lemma HopBack(c: Config, boot: nat, next: nat, e: Engine, draw: nat)
    requires Shows(c, boot, e, Once([First(boot, next)])) && e.work.hop && e.configured && !e.fallback && e.now == 1000
    requires e.channel == next && e.prev == boot < LIMIT && next != boot
    ensures Shows(c, boot, Hop(c, e, draw, true), Once([First(boot, next), Second(boot, next)]))
  {
    HopShown(c, boot, e, Once([First(boot, next)]), draw);
    assert Also(Once([First(boot, next)]), Second(boot, next)) == Once([First(boot, next), Second(boot, next)]);
  }

  /** The switch is refused, a second failure triggers the hop again, which succeeds, and the retry of the first then hops
      back in the same millisecond. */
  lemma RetryBreaksSpacing(c: Config, boot: nat, next: nat, data: seq<U8>, draw: nat)
    requires 0 < c.cooldownMs && boot < LIMIT && next < LIMIT && next != boot && IsConfirm(data, next)
    ensures exists e :: Shows(c, boot, e, Once([First(boot, next), Second(boot, next)]))
    ensures !Spaced(c, [First(boot, next), Second(boot, next)], 1)
  {
    hide Run, Trace, Starts;
    var e0 := Session(Init(boot), next);
    FirstSession(c, boot, next, data);
    RefusedOnce(c, boot, e0, next, draw);
    var e1 := Failing(Refused(Failing(e0)));
    HopThere(c, boot, e1, next, draw);
    Arrived(c, e1, next);
    var e2 := Hop(c, e1, draw, true);
    RetryShown(c, boot, e2, Once([First(boot, next)]), OpRetry);
    HopBack(c, boot, next, Retry(e2), draw);
    assert [First(boot, next), Second(boot, next)][..1] == [First(boot, next)];
  }

  lemma RefusedOnce(c: Config, boot: nat, e: Engine, next: nat, draw: nat)
    requires Shows(c, boot, e, Once([])) && Agreed(e, next)
    ensures var d := Failing(Refused(Failing(e)));
            Shows(c, boot, d, Once([])) && Agreed(d, next) && d.boot == e.boot && d.work.hop && d.work.retry
  {
    hide Run, Trace, Starts;
    FailureShown(c, boot, e, Once([]));
    RefusalShown(c, boot, Failing(e), Once([]), OpHop(draw, false));
    FailureShown(c, boot, Refused(Failing(e)), Once([]));
  }

  // ----- A refused fallback -----

  /** After a hop one success, another channel agreed, then silence. */
  function Silent(c: Config, e: Engine, other: nat, ms: nat): Engine {
    Confirmed(TxSuccess(c, e), other).(now := e.now + ms)
  }

  lemma HeardShown(c: Config, boot: nat, e: Engine, seen: Seen, op: Op)
    requires Shows(c, boot, e, seen) && op.OpTxSuccess?
    ensures Shows(c, boot, TxSuccess(c, e), Also(seen, Heard(e.now)))
  {
    MarkedStep(c, boot, e, seen, op, TxSuccess(c, e), Heard(e.now));
  }

  lemma SilentShown(c: Config, boot: nat, e: Engine, seen: Seen, other: nat, more: seq<U8>, ms: nat)
    requires Shows(c, boot, e, seen) && other < LIMIT && IsConfirm(more, other)
    ensures Shows(c, boot, Silent(c, e, other, ms), Also(seen, Heard(e.now)))
  {
    hide Run, Trace, Starts;
    var heard := Also(seen, Heard(e.now));
    HeardShown(c, boot, e, seen, OpTxSuccess);
    ConfirmShown(c, boot, TxSuccess(c, e), heard, more, other);
    LaterShown(c, boot, Confirmed(TxSuccess(c, e), other), heard, ms, e.now);
  }

  lemma LaterShown(c: Config, boot: nat, e: Engine, seen: Seen, ms: nat, now: nat)
    requires Shows(c, boot, e, seen) && e.now == now
    ensures Shows(c, boot, e.(now := now + ms), seen)
  {
    TickShown(c, boot, e, seen, ms);
  }

  lemma FallbackAsked(c: Config, e: Engine)
    requires ValidConfig(c) && 0 < c.fallbackMs && c.cooldownMs < 0x4000_0000
    requires e.active && !e.fallback && e.now == 1000 + c.fallbackMs && e.lastEvent == 1000
    requires e.cooldownUntil == Wrap32(1000 + c.cooldownMs) && !e.offerFlag
    ensures TxFail(c, e) == Failing(e).(fallback := true)
  {
    assert Cooling(e);
    assert FallbackDue(c, e);
  }

  lemma ForgottenFallback(c: Config, e: Engine, other: nat, draw: nat)
    requires e.fallback && e.boot != e.channel && e.prev == INVALID && e.committed == other != e.channel && other < LIMIT
    ensures Decide(c, e, draw) == Go(Fallback, e.boot)
    ensures Decide(c, Retry(Hop(c, e, draw, false)), draw) == Go(Normal, other)
  {
    RefusalChangesNothing(c, e, draw);
  }

  /** A reachable engine with the rendezvous fallback pending whose switch the radio refuses: the retry goes to the agreed
      channel instead of the rendezvous channel. */
  lemma RefusedFallbackForgotten(c: Config, boot: nat, next: nat, other: nat, data: seq<U8>, more: seq<U8>, draw: nat)
    requires ValidConfig(c) && 0 < c.fallbackMs && c.cooldownMs < 0x4000_0000
    requires boot < LIMIT && next < LIMIT && other < LIMIT && next != boot && other != next
    requires IsConfirm(data, next) && IsConfirm(more, other)
    ensures exists e :: Shows(c, boot, e, Once([First(boot, next), Heard(1000)])) && e.work.hop
                        && Decide(c, e, draw) == Go(Fallback, boot)
                        && Decide(c, Retry(Hop(c, e, draw, false)), draw) == Go(Normal, other)
  {
    hide Run, Trace, Starts;
    var e0 := Session(Init(boot), next);
    FirstSession(c, boot, next, data);
    FailureShown(c, boot, e0, Once([]));
    HopThere(c, boot, Failing(e0), next, draw);
    Arrived(c, Failing(e0), next);
    var e1 := Hop(c, Failing(e0), draw, true);
    SilentShown(c, boot, e1, Once([First(boot, next)]), other, more, c.fallbackMs);
    assert Also(Once([First(boot, next)]), Heard(1000)) == Once([First(boot, next), Heard(1000)]);
    AfterSilence(c, boot, e1, next, other, Once([First(boot, next), Heard(1000)]), draw);
  }

  lemma AfterSilence(c: Config, boot: nat, e: Engine, next: nat, other: nat, seen: Seen, draw: nat)
    requires ValidConfig(c) && 0 < c.fallbackMs && c.cooldownMs < 0x4000_0000 && other < LIMIT
    requires e.channel == next != boot == e.boot && other != next && e.now == 1000 && e.active && e.linkUp && !e.fallback
    requires e.cooldownUntil == Wrap32(1000 + c.cooldownMs) && !e.offerFlag
    requires Shows(c, boot, Silent(c, e, other, c.fallbackMs), seen)
    ensures exists d :: Shows(c, boot, d, seen) && d.work.hop && Decide(c, d, draw) == Go(Fallback, boot)
                        && Decide(c, Retry(Hop(c, d, draw, false)), draw) == Go(Normal, other)
  {
    hide Run, Trace, Starts;
    var s := Silent(c, e, other, c.fallbackMs);
    FallbackAsked(c, s);
    var d := Failing(s).(fallback := true);
    QuietStep(c, boot, s, seen, OpTxFail, d);
    ForgottenFallback(c, d, other, draw);
  }

  // ----- A slot that starts twice -----

  /** On `other`, with a revert to `next` armed and the cooldown just armed too. */
  predicate Away(c: Config, e: Engine, next: nat, other: nat) {
    && e.configured && e.channel == other && e.prev == next < LIMIT && e.boot < LIMIT && e.active && e.linkUp
    && !e.fallback && !e.offerFlag && e.coop == Quiet && e.cooldownUntil == Wrap32(e.now + c.cooldownMs)
  }

  /** About to hop from `next` to `other`. */
  predicate Leaving(f: Engine, next: nat, other: nat) {
    && f.configured && f.channel == next && f.prev == INVALID && f.committed == other && f.active && f.linkUp
    && !f.fallback && !f.offerFlag && f.coop == Quiet && f.work.hop
  }

  /** After a hop with a retry pending: silence, one success, another channel agreed, and the retry runs. */
  function Pressed(c: Config, e: Engine, other: nat, gap: nat): Engine {
    Retry(Confirmed(TxSuccess(c, e.(now := e.now + gap)), other))
  }

  lemma PressedShown(c: Config, boot: nat, e: Engine, seen: Seen, other: nat, more: seq<U8>, gap: nat)
    requires Shows(c, boot, e, seen) && other < LIMIT && IsConfirm(more, other)
    requires e.coop == Quiet && !e.offerFlag && e.work.retry
    ensures Shows(c, boot, Pressed(c, e, other, gap), Also(seen, Heard(e.now + gap)))
  {
    hide Run, Trace, Starts;
    var later := e.(now := e.now + gap);
    var heard := Also(seen, Heard(e.now + gap));
    TickShown(c, boot, e, seen, gap);
    HeardShown(c, boot, later, seen, OpTxSuccess);
    ConfirmShown(c, boot, TxSuccess(c, later), heard, more, other);
    RetryShown(c, boot, Confirmed(TxSuccess(c, later), other), heard, OpRetry);
  }

  lemma DecidesOther(c: Config, f: Engine, next: nat, other: nat, draw: nat)
    requires Leaving(f, next, other) && next != other < LIMIT
    ensures Decide(c, f, draw) == Go(Normal, other)
  {
  }

  lemma LandsAway(c: Config, f: Engine, next: nat, other: nat)
    requires Leaving(f, next, other) && next < LIMIT && f.boot < LIMIT
    ensures var d := Land(c, HopStarted(f), Normal, other); Away(c, d, next, other) && d.boot == f.boot && d.now == f.now
  {
    Landed(c, HopStarted(f), Normal, other);
    LandedClock(c, HopStarted(f), Normal, other);
  }

  lemma HopAway(c: Config, boot: nat, f: Engine, next: nat, other: nat, seen: Seen, draw: nat) returns (d: Engine)
    requires Shows(c, boot, f, seen) && Leaving(f, next, other) && next != other < LIMIT && next < LIMIT && f.boot < LIMIT
    ensures Shows(c, boot, d, Also(seen, Hopped(Normal, next, other, f.now)))
    ensures Away(c, d, next, other) && d.boot == f.boot && d.now == f.now
  {
    DecidesOther(c, f, next, other, draw);
    HopShown(c, boot, f, seen, draw);
    LandsAway(c, f, next, other);
    d := Hop(c, f, draw, true);
  }

  /** Started again after a while, and the cooldown is over. */
  function Restarted(c: Config, e: Engine, ms: nat): Engine {
    Booted(e.(now := e.now + ms)).(now := e.now + ms + c.cooldownMs)
  }

  lemma RestartShown(c: Config, boot: nat, e: Engine, seen: Seen, ms: nat)
    requires Shows(c, boot, e, seen)
    ensures Shows(c, boot, Restarted(c, e, ms), Seen(seen.marks, seen.starts + [e.now + ms]))
  {
    hide Run, Trace, Starts;
    var d := e.(now := e.now + ms);
    TickShown(c, boot, e, seen, ms);
    StartShown(c, boot, d, seen);
    TickShown(c, boot, Booted(d), Seen(seen.marks, seen.starts + [e.now + ms]), c.cooldownMs);
    assert Booted(d).(now := d.now + c.cooldownMs) == Restarted(c, e, ms);
  }

  /** About to revert to `next` from a channel that no hop from there led to. */
  predicate Reverting(f: Engine, boot: nat, next: nat) {
    f.configured && f.channel == boot && f.prev == next && next != boot && next < LIMIT && !f.fallback && f.work.hop
  }

  lemma CooldownOver(c: Config, e: Engine, start: nat)
    requires e.cooldownUntil == Wrap32(start + c.cooldownMs) && start + c.cooldownMs <= e.now < start + c.cooldownMs + 0x8000_0000
    ensures !Cooling(e)
  {
  }

  lemma RestartReverts(c: Config, e: Engine, next: nat, other: nat, ms: nat)
    requires Away(c, e, next, other) && next != e.boot && ms < 0x8000_0000
    ensures var r := Restarted(c, e, ms);
            r.active && !Cooling(r) && !r.offerFlag && Reverting(Failing(r), e.boot, next) && r.now == e.now + ms + c.cooldownMs
  {
    CooldownOver(c, Restarted(c, e, ms), e.now);
  }

  lemma DecidesRevert(c: Config, f: Engine, boot: nat, next: nat, draw: nat)
    requires Reverting(f, boot, next)
    ensures Decide(c, f, draw) == Go(Revert, next)
  {
  }

  lemma HopRevert(c: Config, boot: nat, f: Engine, next: nat, seen: Seen, draw: nat) returns (d: Engine)
    requires Shows(c, boot, f, seen) && Reverting(f, boot, next)
    ensures Shows(c, boot, d, Also(seen, Hopped(Revert, boot, next, f.now)))
  {
    DecidesRevert(c, f, boot, next, draw);
    HopShown(c, boot, f, seen, draw);
    d := Hop(c, f, draw, true);
  }

  /** What the run below shows: two normal hops, and a revert from the boot channel. */
  function TwoHops(boot: nat, next: nat, other: nat, at: nat): seq<Mark> {
    [First(boot, next)] + [Heard(at)] + [Hopped(Normal, next, other, at)]
  }

  function Misplaced(boot: nat, next: nat, other: nat, at: nat, revertAt: nat): seq<Mark> {
    TwoHops(boot, next, other, at) + [Hopped(Revert, boot, next, revertAt)]
  }

  lemma NotOneShot(boot: nat, next: nat, other: nat, at: nat, revertAt: nat)
    requires other != boot
    ensures !GoodHops(Misplaced(boot, next, other, at, revertAt))
  {
    assert !GoodHop(Misplaced(boot, next, other, at, revertAt), 3);
  }

  /** The first hop, with the retry of a refused attempt still pending. */
  lemma FirstHop(c: Config, boot: nat, next: nat, data: seq<U8>, draw: nat) returns (e: Engine)
    requires boot < LIMIT && next < LIMIT && next != boot && IsConfirm(data, next)
    ensures Shows(c, boot, e, Once([First(boot, next)])) && e.boot == boot && e.now == 1000 && e.channel == next
    ensures e.configured && e.active && e.linkUp && e.work.retry && !e.fallback && !e.offerFlag && e.coop == Quiet
  {
    hide Run, Trace, Starts;
    var e0 := Session(Init(boot), next);
    FirstSession(c, boot, next, data);
    RefusedOnce(c, boot, e0, next, draw);
    var e1 := Failing(Refused(Failing(e0)));
    HopThere(c, boot, e1, next, draw);
    Arrived(c, e1, next);
    e := Hop(c, e1, draw, true);
  }

  lemma PressedLeaves(c: Config, e: Engine, next: nat, other: nat, gap: nat)
    requires e.channel == next && e.configured && e.active && e.linkUp && !e.fallback && !e.offerFlag && e.coop == Quiet
    ensures var f := Pressed(c, e, other, gap); Leaving(f, next, other) && f.boot == e.boot && f.now == e.now + gap
  {
  }

  lemma OtherHop(c: Config, boot: nat, e: Engine, seen: Seen, next: nat, other: nat, more: seq<U8>, gap: nat, draw: nat)
      returns (d: Engine)
    requires Shows(c, boot, e, seen) && e.boot == boot < LIMIT && e.channel == next
    requires e.configured && e.active && e.linkUp && e.work.retry && !e.fallback && !e.offerFlag && e.coop == Quiet
    requires next < LIMIT && other < LIMIT && next != other && IsConfirm(more, other)
    ensures Shows(c, boot, d, Also(Also(seen, Heard(e.now + gap)), Hopped(Normal, next, other, e.now + gap)))
    ensures Away(c, d, next, other) && d.boot == boot && d.now == e.now + gap
  {
    hide Run, Trace, Starts;
    PressedShown(c, boot, e, seen, other, more, gap);
    PressedLeaves(c, e, next, other, gap);
    d := HopAway(c, boot, Pressed(c, e, other, gap), next, other, Also(seen, Heard(e.now + gap)), draw);
  }

  lemma TwoHopsShown(c: Config, boot: nat, next: nat, other: nat, data: seq<U8>, more: seq<U8>, gap: nat, draw: nat)
      returns (e: Engine)
    requires boot < LIMIT && next < LIMIT && other < LIMIT && next != boot && other != next
    requires IsConfirm(data, next) && IsConfirm(more, other)
    ensures Shows(c, boot, e, Once(TwoHops(boot, next, other, 1000 + gap)))
    ensures Away(c, e, next, other) && e.boot == boot && e.now == 1000 + gap
  {
    hide Run, Trace, Starts;
    var d := FirstHop(c, boot, next, data, draw);
    e := OtherHop(c, boot, d, Once([First(boot, next)]), next, other, more, gap, draw);
  }

  lemma Reverted(c: Config, boot: nat, e: Engine, seen: Seen, next: nat, other: nat, ms: nat, draw: nat)
      returns (d: Engine)
    requires Shows(c, boot, e, seen) && Away(c, e, next, other) && e.boot == boot != next && ms < 0x8000_0000
    ensures Shows(c, boot, d, Seen(seen.marks + [Hopped(Revert, boot, next, e.now + ms + c.cooldownMs)],
                                   seen.starts + [e.now + ms]))
  {
    hide Run, Trace, Starts;
    var again, r := Seen(seen.marks, seen.starts + [e.now + ms]), Restarted(c, e, ms);
    RestartShown(c, boot, e, seen, ms);
    RestartReverts(c, e, next, other, ms);
    FailureShown(c, boot, r, again);
    d := HopRevert(c, boot, Failing(r), next, again, draw);
  }

  /** Two activations without a deactivation between them, which two profile events can queue: the second one starts the slot
      again the quiesce delay after the first. If the engine hops twice in that time, as it can when the retry of a refused switch
      runs after another attempt has landed, it is put back on its boot channel with the revert still armed, and the revert
      undoes no hop. */
  lemma SecondStartMisplacesRevert(c: Config, boot: nat, next: nat, other: nat, data: seq<U8>, more: seq<U8>,
                                   gap: nat, quiesce: nat, draw: nat)
      returns (e: Engine)
    requires boot < LIMIT && next < LIMIT && other < LIMIT && next != boot && other != next && other != boot
    requires IsConfirm(data, next) && IsConfirm(more, other) && 10 + gap <= quiesce <= 1000
    ensures var restart := FIRST_START + quiesce;
            var marks := Misplaced(boot, next, other, 1000 + gap, restart + c.cooldownMs);
            Shows(c, boot, e, Seen(marks, [FIRST_START, restart])) && !GoodHops(marks)
  {
    hide Run, Trace, Starts;
    var d := TwoHopsShown(c, boot, next, other, data, more, gap, draw);
    e := Reverted(c, boot, d, Once(TwoHops(boot, next, other, 1000 + gap)), next, other, quiesce - 10 - gap, draw);
    assert [FIRST_START] + [FIRST_START + quiesce] == [FIRST_START, FIRST_START + quiesce];
    NotOneShot(boot, next, other, 1000 + gap, FIRST_START + quiesce + c.cooldownMs);
  }
}
