/** What the trace of every run of the channel-hop engine shows: legal hops, one-shot reverts, and hops that
    keep their distance in time. */
module HopTraces {
  import opened Words
  import opened HopModel
  import opened HopProofs
  import C = Channels

  // ----- Legal hops and one-shot reverts -----

  /** A hop goes to another legal channel. A revert comes right after the normal hop it undoes: no TX success,
      no other hop and no link loss lies between. */
  predicate GoodHop(marks: seq<Mark>, i: nat)
    requires i < |marks|
  {
    marks[i].Hopped? ==>
      && marks[i].to < LIMIT && marks[i].to != marks[i].from
      && (marks[i].kind == Revert ==>
            && i > 0 && marks[i - 1].Hopped? && marks[i - 1].kind == Normal
            && marks[i - 1].from == marks[i].to && marks[i - 1].to == marks[i].from)
  }

  ghost predicate GoodHops(marks: seq<Mark>) {
    forall i | 0 <= i < |marks| :: GoodHop(marks, i)
  }

  /** A revert is armed only by a normal hop to the current channel that nothing followed. */
  predicate ArmedByHop(e: Engine, marks: seq<Mark>) {
    e.prev != INVALID ==>
      marks != [] &&
      var m := marks[|marks| - 1];
      m.Hopped? && m.kind == Normal && m.from == e.prev && m.to == e.channel
  }

  lemma AppendGoodHop(marks: seq<Mark>, m: Mark)
    requires GoodHops(marks) && GoodHop(marks + [m], |marks|)
    ensures GoodHops(marks + [m])
  {
    forall i | 0 <= i < |marks + [m]|
      ensures GoodHop(marks + [m], i)
    {
      if i < |marks| {
        assert GoodHop(marks, i);
      }
    }
  }

  lemma HopLands(c: Config, e: Engine, draw: nat, accept: bool)
    requires e.work.hop
    ensures var d, m := Decide(c, e, draw), Traced(c, e, OpHop(draw, accept));
            if d.Go? && Switches(e, d.target, accept)
            then m == [Hopped(d.kind, e.channel, d.target, e.now)]
                 && Hop(c, e, draw, accept) == Land(c, HopStarted(e), d.kind, d.target)
            else m == [] && Hop(c, e, draw, accept).expires == e.expires
                 && (d.Stay? ==> Hop(c, e, draw, accept) == HopStarted(e))
                 && (d.Go? ==> Hop(c, e, draw, accept) == HopStarted(e).(work := HopStarted(e).work.(retry := true)))
  {
    hide Decide, Land;
  }

  lemma HopTraced(c: Config, e: Engine, marks: seq<Mark>, draw: nat, accept: bool)
    requires Inv(c, e) && ArmedByHop(e, marks) && GoodHops(marks) && e.work.hop
    ensures var more := marks + Traced(c, e, OpHop(draw, accept));
            ArmedByHop(Hop(c, e, draw, accept), more) && GoodHops(more)
  {
    DecisionIsLegal(c, e, draw);
    HopLands(c, e, draw, accept);
    hide Hop, GoodHops, Cooling;
    var d := Decide(c, e, draw);
    if d.Go? && Switches(e, d.target, accept) {
      AppendGoodHop(marks, Hopped(d.kind, e.channel, d.target, e.now));
    } else {
      assert marks + [] == marks;
    }
  }

  lemma CommitTraced(c: Config, e: Engine, marks: seq<Mark>, accept: bool)
    requires Inv(c, e) && ArmedByHop(e, marks) && GoodHops(marks) && e.work.commit
    ensures var more := marks + Traced(c, e, OpCommit(accept));
            ArmedByHop(Commit(c, e, accept), more) && GoodHops(more)
  {
    if Commits(e, accept) {
      AppendGoodHop(marks, Hopped(Cooperative, e.channel, e.target, e.now));
    } else {
      assert marks + [] == marks;
    }
  }

  /** A slot that starts finds no revert armed, or the engine on its boot channel. */
  predicate SteadyStart(e: Engine, op: Op) {
    op.OpStart? ==> e.prev == INVALID || e.channel == e.boot
  }

  /** A slot start keeps a revert tied to the hop that armed it if and only if it is steady; after a stop it always is. */
  lemma StartKeepsReverts(c: Config, e: Engine, marks: seq<Mark>, op: Op)
    requires ArmedByHop(e, marks) && op.OpStart?
    ensures ArmedByHop(Step(c, e, op), marks) <==> SteadyStart(e, op)
    ensures Legal(e) && !e.configured ==> SteadyStart(e, op)
  {
  }

  lemma StepTraced(c: Config, e: Engine, marks: seq<Mark>, op: Op)
    requires Inv(c, e) && ArmedByHop(e, marks) && GoodHops(marks) && SteadyStart(e, op)
    ensures var more := marks + Traced(c, e, op);
            ArmedByHop(Step(c, e, op), more) && GoodHops(more)
  {
    StepKeeps(c, e, op);
    assert marks + [] == marks;
    if Enabled(e, op) {
      match op {
        case OpHop(draw, accept) => HopTraced(c, e, marks, draw, accept);
        case OpCommit(accept) => CommitTraced(c, e, marks, accept);
        case OpTxSuccess => AppendGoodHop(marks, Heard(e.now));
        case OpDisconnected => AppendGoodHop(marks, Dropped);
        case OpStop => AppendGoodHop(marks, Dropped);
        case OpStart => StartKeepsReverts(c, e, marks, op);
        case _ =>
      }
    }
  }

  ghost predicate SteadyRun(c: Config, boot: nat, ops: seq<Op>) {
    forall i | 0 <= i < |ops| :: SteadyStart(Run(c, boot, ops[..i]), ops[i])
  }

  /** In every run whose slots start steadily, after a stop for one, every hop goes to a legal channel other than the one it
      leaves, and every revert returns to exactly the channel that the immediately preceding normal hop left, with no TX
      success since. So two reverts always have a normal hop between them. */
  lemma {:induction false} RevertsAreOneShot(c: Config, boot: nat, ops: seq<Op>)
    requires boot < LIMIT && SteadyRun(c, boot, ops)
    ensures GoodHops(Trace(c, boot, ops)) && ArmedByHop(Run(c, boot, ops), Trace(c, boot, ops))
  {
    if ops != [] {
      var before := ops[..|ops| - 1];
      assert ops[..|before|] == before;
      forall i | 0 <= i < |before|
        ensures SteadyStart(Run(c, boot, before[..i]), before[i])
      {
        assert before[..i] == ops[..i];
      }
      RevertsAreOneShot(c, boot, before);
      EngineKeepsGoing(c, boot, before);
      StepTraced(c, Run(c, boot, before), Trace(c, boot, before), ops[|ops| - 1]);
    }
  }

  lemma LandedQuarantine(c: Config, e: Engine, target: nat)
    requires e.channel < LIMIT && target < LIMIT && target != e.channel
    requires e.now + c.quarantineMs < 0x8000_0000 && 0 < c.quarantineMs && e.expires[e.channel] < 0x8000_0000
    ensures var d := Land(c, e, Revert, target);
            d.channel == target && !Held(d, target) && Held(d, e.channel)
  {
    LandedPlace(c, e, Revert, target);
    Swapped(e.expires, e.channel, target, c.quarantineMs, e.now);
    hide Land, C.Quarantined, C.Add, C.Clear;
    assert Clock(e) == e.now;
  }

  lemma LandedPlace(c: Config, e: Engine, kind: Kind, target: nat)
    ensures var d := Land(c, e, kind, target);
            && d.channel == target && d.now == e.now
            && d.expires == Rewritten(c, kind, e.expires, e.channel, target, Clock(e))
  {
  }

  /** Clearing one channel and adding another. */
  lemma Swapped(x: C.Expiries, from: nat, to: nat, hold: nat, now: nat)
    requires from < LIMIT && to < LIMIT && from != to && now + hold < 0x8000_0000 && 0 < hold && x[from] < 0x8000_0000
    ensures var y := C.Add(C.Clear(x, to), from, hold, now); !C.Quarantined(y, to, now) && C.Quarantined(y, from, now)
  {
    var y := C.Add(C.Clear(x, to), from, hold, now);
    assert y[to] == 0;
    assert now < y[from] < 0x8000_0000;
  }

  /** A revert swaps the quarantine: the channel it returns to is free again, the one that failed is held. */
  lemma RevertSwapsQuarantine(c: Config, e: Engine, draw: nat)
    requires Legal(e) && Decide(c, e, draw).Go? && Decide(c, e, draw).kind == Revert && e.configured
    requires e.now + c.quarantineMs < 0x8000_0000 && 0 < c.quarantineMs && e.expires[e.channel] < 0x8000_0000
    ensures var d := Hop(c, e, draw, true);
            d.channel == e.prev && !Held(d, d.channel) && Held(d, e.channel)
  {
    LandedQuarantine(c, HopStarted(e), e.prev);
  }

  /** What a hop writes into the quarantine. */
  function HopEvents(c: Config, kind: Kind, from: nat, to: nat, at: nat): seq<C.Event> {
    match kind
    case Normal => [C.Added(from, c.quarantineMs, at)]
    case Revert => [C.Cleared(to, at), C.Added(from, c.quarantineMs, at)]
    case Fallback => [C.Cleared(to, at)]
    case Cooperative => [C.Added(from, c.coopQuarantineMs, at)]
  }

  function QuarantineEvents(c: Config, e: Engine, op: Op): seq<C.Event> {
    var marks := Traced(c, e, op);
    if marks == [] || !marks[0].Hopped? then []
    else HopEvents(c, marks[0].kind, marks[0].from, marks[0].to, marks[0].at)
  }

  function QuarantineHistory(c: Config, boot: nat, ops: seq<Op>): seq<C.Event> {
    if ops == [] then []
    else
      var before := ops[..|ops| - 1];
      QuarantineHistory(c, boot, before) + QuarantineEvents(c, Run(c, boot, before), ops[|ops| - 1])
  }

  lemma RunOne(events: seq<C.Event>, m: C.Event)
    ensures C.Run(events + [m]) == C.Apply(C.Run(events), m)
  {
    assert (events + [m])[..|events|] == events;
  }

  lemma EventsRewrite(c: Config, events: seq<C.Event>, kind: Kind, from: nat, to: nat, at: nat)
    ensures C.Run(events + HopEvents(c, kind, from, to, at)) == Rewritten(c, kind, C.Run(events), from, to, Wrap32(at))
  {
    var more := HopEvents(c, kind, from, to, at);
    RunOne(events, more[0]);
    if kind == Revert {
      RunOne(events + [more[0]], more[1]);
      assert events + more == events + [more[0]] + [more[1]];
    }
  }

  lemma LandWrites(c: Config, e: Engine, events: seq<C.Event>, kind: Kind, target: nat)
    requires e.expires == C.Run(events)
    ensures Land(c, e, kind, target).expires == C.Run(events + HopEvents(c, kind, e.channel, target, e.now))
  {
    EventsRewrite(c, events, kind, e.channel, target, e.now);
  }

  lemma HopWrites(c: Config, e: Engine, events: seq<C.Event>, draw: nat, accept: bool)
    requires e.expires == C.Run(events) && e.work.hop
    ensures Hop(c, e, draw, accept).expires == C.Run(events + QuarantineEvents(c, e, OpHop(draw, accept)))
  {
    HopLands(c, e, draw, accept);
    var d := Decide(c, e, draw);
    if d.Go? && Switches(e, d.target, accept) {
      LandWrites(c, HopStarted(e), events, d.kind, d.target);
    } else {
      assert events + [] == events;
    }
  }

  lemma CommitLands(c: Config, e: Engine, accept: bool)
    requires Commits(e, accept) && e.work.commit
    ensures Commit(c, e, accept) == Land(c, CommitStarted(c, e), Cooperative, e.target)
    ensures Traced(c, e, OpCommit(accept)) == [Hopped(Cooperative, e.channel, e.target, e.now)]
  {
  }

  lemma CommitWrites(c: Config, e: Engine, events: seq<C.Event>, accept: bool)
    requires e.expires == C.Run(events) && e.work.commit
    ensures Commit(c, e, accept).expires == C.Run(events + QuarantineEvents(c, e, OpCommit(accept)))
  {
    if Commits(e, accept) {
      CommitLands(c, e, accept);
      LandWrites(c, CommitStarted(c, e), events, Cooperative, e.target);
    } else {
      assert events + [] == events;
      CommitWithoutHop(c, e, accept);
      assert Traced(c, e, OpCommit(accept)) == [];
    }
  }

  lemma StepWrites(c: Config, e: Engine, events: seq<C.Event>, op: Op)
    requires Inv(c, e) && e.expires == C.Run(events)
    ensures Step(c, e, op).expires == C.Run(events + QuarantineEvents(c, e, op))
  {
    hide Hop, Commit, TxFail, Request, Receive, Negotiate, IdleCheck, Burst, Disconnected, Legal, Handshake, Progress, C.Run;
    assert events + [] == events;
    if Enabled(e, op) {
      match op {
        case OpHop(draw, accept) => HopWrites(c, e, events, draw, accept);
        case OpCommit(accept) => CommitWrites(c, e, events, accept);
        case OpDisconnected => DisconnectedKeeps(c, e);
        case OpStop => DisconnectedKeeps(c, e);
        case OpTick(_) =>
        case OpTxSuccess =>
        case OpStart =>
        case _ => StepKeeps(c, e, op);
      }
    }
  }

  lemma MoreRecent(c: Config, e: Engine, op: Op, events: seq<C.Event>, t: nat)
    requires C.EndsBy(events, e.now) && e.now <= t && c.quarantineMs < 0x8000_0000 && c.coopQuarantineMs < 0x8000_0000
    ensures C.EndsBy(events + QuarantineEvents(c, e, op), t)
  {
    var more := QuarantineEvents(c, e, op);
    assert C.EndsBy(more, e.now);
  }

  lemma LandedNow(c: Config, e: Engine, kind: Kind, target: nat)
    ensures Land(c, e, kind, target).now == e.now
  {
  }

  lemma HopNow(c: Config, e: Engine, draw: nat, accept: bool)
    ensures Hop(c, e, draw, accept).now == e.now
  {
    hide Decide, StartBurst, Rewritten;
    match Decide(c, e, draw) {
      case Stay =>
      case Go(kind, target) => LandedNow(c, HopStarted(e), kind, target);
    }
  }

  lemma CommitNow(c: Config, e: Engine, accept: bool)
    requires e.work.commit
    ensures Commit(c, e, accept).now == e.now
  {
    if Commits(e, accept) {
      CommitLands(c, e, accept);
    } else {
      CommitWithoutHop(c, e, accept);
    }
  }

  lemma TimePasses(c: Config, e: Engine, op: Op)
    requires Inv(c, e)
    ensures e.now <= Step(c, e, op).now
  {
    if Enabled(e, op) {
      match op {
        case OpHop(draw, accept) => HopNow(c, e, draw, accept);
        case OpCommit(accept) => CommitNow(c, e, accept);
        case OpDisconnected => DisconnectedKeeps(c, e);
        case OpStop => DisconnectedKeeps(c, e);
        case OpTick(_) =>
        case OpTxSuccess =>
        case OpStart =>
        case _ => StepKeeps(c, e, op);
      }
    }
  }

  /** The quarantine of every run is the one its hops wrote, in order. */
  lemma {:induction false} QuarantineFollowsHops(c: Config, boot: nat, ops: seq<Op>)
    requires boot < LIMIT && c.quarantineMs < 0x8000_0000 && c.coopQuarantineMs < 0x8000_0000
    ensures Run(c, boot, ops).expires == C.Run(QuarantineHistory(c, boot, ops))
    ensures C.EndsBy(QuarantineHistory(c, boot, ops), Run(c, boot, ops).now)
  {
    if ops != [] {
      var before := ops[..|ops| - 1];
      var e, op, events := Run(c, boot, before), ops[|ops| - 1], QuarantineHistory(c, boot, before);
      QuarantineFollowsHops(c, boot, before);
      EngineKeepsGoing(c, boot, before);
      StepWrites(c, e, events, op);
      TimePasses(c, e, op);
      MoreRecent(c, e, op, events, Step(c, e, op).now);
    }
  }

  lemma HeldMeansHolding(e: Engine, events: seq<C.Event>, ch: nat)
    requires e.expires == C.Run(events) && C.EndsBy(events, e.now) && e.now < 0x8000_0000 && ch < LIMIT
    ensures Held(e, ch) <==> C.SomeHolds(events, ch, e.now)
  {
    assert Clock(e) == e.now;
    assert C.HistoryUntil(events, e.now);
    C.QuarantineRefinesHistory(events, ch, e.now);
  }

  /** In every run with uptime below 2^31 ms the engine treats a channel as quarantined if and only if some hop
      away from it still holds: its quarantine has not run out, and neither a revert nor a rendezvous fallback
      has returned to the channel since. */
  lemma QuarantineMeansHeldByHop(c: Config, boot: nat, ops: seq<Op>, ch: nat)
    requires boot < LIMIT && ch < LIMIT && c.quarantineMs < 0x8000_0000 && c.coopQuarantineMs < 0x8000_0000
    requires Run(c, boot, ops).now < 0x8000_0000
    ensures Held(Run(c, boot, ops), ch)
            <==> C.SomeHolds(QuarantineHistory(c, boot, ops), ch, Run(c, boot, ops).now)
  {
    QuarantineFollowsHops(c, boot, ops);
    HeldMeansHolding(Run(c, boot, ops), QuarantineHistory(c, boot, ops), ch);
  }

  /** A refused switch changes nothing but the fallback flag and the pending work. */
  lemma RefusalChangesNothing(c: Config, e: Engine, draw: nat)
    requires Decide(c, e, draw).Go?
    ensures Hop(c, e, draw, false)
            == e.(fallback := false, work := e.work.(hop := false, retry := true))
  {
  }

  /** The same for a cooperative hop: the handshake ends, and a retry is scheduled. */
  lemma RefusedCommitChangesNothing(c: Config, e: Engine)
    requires e.coop == Armed && e.target != INVALID && e.target != e.channel
    ensures Commit(c, e, false) == e.(coop := Quiet, work := e.work.(commit := false, retry := true))
  {
  }

  /** Yet the retry decides the same if and only if the refused hop was no rendezvous fallback: the flag that
      asked for the fallback is consumed before the radio is tried. */
  lemma RetryDecidesTheSame(c: Config, e: Engine, draw: nat)
    requires Legal(e) && Decide(c, e, draw).Go?
    ensures Decide(c, Retry(Hop(c, e, draw, false)), draw) == Decide(c, e, draw) <==> !e.fallback
  {
    RefusalChangesNothing(c, e, draw);
    var d := Retry(Hop(c, e, draw, false));
    assert PickFresh(c, d, draw) == PickFresh(c, e, draw);
  }

  // ----- Spacing in time -----

  /** When the last hop since the last link loss happened; -1 if there was none. */
  function LastHop(marks: seq<Mark>): int {
    if marks == [] then -1
    else
      match marks[|marks| - 1]
      case Hopped(_, _, _, at) => at
      case Heard(_) => LastHop(marks[..|marks| - 1])
      case Dropped => -1
  }

  /** The same for the last hop or TX success. */
  function LastNews(marks: seq<Mark>): int {
    if marks == [] then -1
    else
      match marks[|marks| - 1]
      case Hopped(_, _, _, at) => at
      case Heard(at) => at
      case Dropped => -1
  }

  /** The same for the last cooperative hop. */
  function LastCoop(marks: seq<Mark>): int {
    if marks == [] then -1
    else
      match marks[|marks| - 1]
      case Hopped(kind, _, _, at) => if kind == Cooperative then at else LastCoop(marks[..|marks| - 1])
      case Heard(_) => LastCoop(marks[..|marks| - 1])
      case Dropped => -1
  }

  lemma AppendMark(marks: seq<Mark>, m: Mark)
    ensures (marks + [m])[..|marks|] == marks && (marks + [m])[|marks|] == m
  {
  }

  /** A deadline that is not yet past is seen as still ahead, across the wrap of the counter. */
  lemma DeadlineSeen(start: nat, hold: nat, now: nat)
    requires start <= now < start + hold && hold < 0x8000_0000
    ensures StillAhead(Wrap32(start + hold), Wrap32(now))
  {
  }

  /** Up to half the range of the counter after a deadline it is seen as ahead exactly while it is. */
  lemma AheadExactly(start: nat, hold: nat, now: nat)
    requires start <= now <= start + hold + 0x8000_0000 && hold < 0x8000_0000
    ensures StillAhead(Wrap32(start + hold), Wrap32(now)) <==> now < start + hold
  {
    if now < start + hold {
      DeadlineSeen(start, hold, now);
    }
  }

  /** The elapsed time that the counters show is never more than the real one. */
  lemma ElapsedSeen(start: nat, now: nat)
    requires start <= now
    ensures Wrap32(Wrap32(now) - Wrap32(start)) <= now - start
  {
  }

  // Fail-driven hops, with cooperative hops compiled out.

  /** What the cooldown and the silence clock stand for. */
  predicate Timed(c: Config, e: Engine, marks: seq<Mark>) {
    var t, v := LastHop(marks), LastNews(marks);
    if t < 0 then e.cooldownUntil == 0
    else
      && t <= v <= e.now
      && e.cooldownUntil == Wrap32(t + c.cooldownMs) && e.cooldownUntil != 0
      && e.lastEvent == Wrap32(v) && e.lastEvent != 0
  }

  /** A pending hop waited out the cooldown, or the fallback delay if it is the fallback. */
  predicate Gated(c: Config, e: Engine, marks: seq<Mark>) {
    var t := LastHop(marks);
    && (e.fallback ==> e.work.hop)
    && (e.work.hop && t >= 0 ==> e.now >= t + if e.fallback then c.fallbackMs else c.cooldownMs)
  }

  /** The step computes no deadline or stamp that happens to be zero modulo 2^32, which the firmware reads as "none", and
      the retry of a refused switch runs only once the cooldown is over. */
  predicate Smooth(c: Config, e: Engine, op: Op) {
    match op
    case OpHop(draw, accept) =>
      e.work.hop && Decide(c, e, draw).Go? && Switches(e, Decide(c, e, draw).target, accept) ==>
        Clock(e) != 0 && Wrap32(e.now + c.cooldownMs) != 0
    case OpTxSuccess => Clock(e) != 0
    case OpRetry => e.work.retry ==> !Cooling(e)
    case _ => true
  }

  predicate SmoothRun(c: Config, boot: nat, ops: seq<Op>) {
    ops == [] ||
    (SmoothRun(c, boot, ops[..|ops| - 1]) && Smooth(c, Run(c, boot, ops[..|ops| - 1]), ops[|ops| - 1]))
  }

  predicate Spaced(c: Config, marks: seq<Mark>, i: nat)
    requires i < |marks|
  {
    marks[i].Hopped? && LastHop(marks[..i]) >= 0 ==>
      marks[i].at >= LastHop(marks[..i]) + if marks[i].kind == Fallback then c.fallbackMs else c.cooldownMs
  }

  ghost predicate AllSpaced(c: Config, marks: seq<Mark>) {
    forall i | 0 <= i < |marks| :: Spaced(c, marks, i)
  }

  lemma AppendSpaced(c: Config, marks: seq<Mark>, m: Mark)
    requires AllSpaced(c, marks) && Spaced(c, marks + [m], |marks|)
    ensures AllSpaced(c, marks + [m])
  {
    forall i | 0 <= i < |marks + [m]|
      ensures Spaced(c, marks + [m], i)
    {
      if i < |marks| {
        assert Spaced(c, marks, i);
        assert (marks + [m])[..i] == marks[..i];
      }
    }
  }

  /** The part of a run's invariant that spacing rests on. */
  ghost predicate Timely(c: Config, e: Engine, marks: seq<Mark>) {
    Timed(c, e, marks) && Gated(c, e, marks) && AllSpaced(c, marks)
  }

  /** A step that leaves place and gate alone. */
  lemma StillTimely(c: Config, e: Engine, d: Engine, marks: seq<Mark>)
    requires Timely(c, e, marks) && SamePlace(e, d) && SameGate(e, d)
    ensures Timely(c, d, marks)
  {
  }

  lemma TickTimely(c: Config, e: Engine, ms: nat, marks: seq<Mark>)
    requires Timely(c, e, marks)
    ensures Timely(c, e.(now := e.now + ms), marks)
  {
  }

  lemma MarkTimely(c: Config, e: Engine, d: Engine, marks: seq<Mark>, m: Mark)
    requires Timely(c, e, marks) && Inv(c, e) && !m.Hopped?
    requires m.Dropped? ==> d == Disconnected(c, e) || d == Disconnected(c, e).(configured := false)
    requires m.Heard? ==> m.at == e.now && d == TxSuccess(c, e) && Clock(e) != 0
    ensures Timely(c, d, marks + [m])
  {
    AppendMark(marks, m);
    AppendSpaced(c, marks, m);
  }

  lemma TriggerGated(c: Config, e: Engine, marks: seq<Mark>)
    requires ValidConfig(c) && Timed(c, e, marks) && Gated(c, e, marks)
    ensures Gated(c, HopTrigger(c, e), marks) && Timed(c, HopTrigger(c, e), marks)
  {
    var t, v := LastHop(marks), LastNews(marks);
    if t >= 0 && e.active {
      if !Cooling(e) {
        if e.now < t + c.cooldownMs {
          DeadlineSeen(t, c.cooldownMs, e.now);
        }
      } else if FallbackDue(c, e) {
        ElapsedSeen(v, e.now);
      }
    }
  }

  /** What timing sees of a hop. */
  lemma LandedClock(c: Config, e: Engine, kind: Kind, target: nat)
    ensures var d := Land(c, e, kind, target);
            && d.now == e.now && d.cooldownUntil == Wrap32(e.now + c.cooldownMs) && d.lastEvent == NonZero(Clock(e))
            && d.work.hop == e.work.hop && d.work.retry == e.work.retry && d.fallback == e.fallback
  {
  }

  lemma LandTimed(c: Config, e: Engine, marks: seq<Mark>, kind: Kind, target: nat)
    requires !e.work.hop && !e.fallback
    requires Clock(e) != 0 && Wrap32(e.now + c.cooldownMs) != 0
    ensures var d, more := Land(c, e, kind, target), marks + [Hopped(kind, e.channel, target, e.now)];
            Timed(c, d, more) && Gated(c, d, more)
  {
    LandedClock(c, e, kind, target);
    FreshlyTimed(c, e, Land(c, e, kind, target), marks, Hopped(kind, e.channel, target, e.now));
  }

  lemma FreshlyTimed(c: Config, e: Engine, d: Engine, marks: seq<Mark>, m: Mark)
    requires m.Hopped? && m.at == e.now == d.now && Clock(e) != 0 && Wrap32(e.now + c.cooldownMs) != 0
    requires d.cooldownUntil == Wrap32(e.now + c.cooldownMs) && d.lastEvent == NonZero(Clock(e))
    requires !d.work.hop && !d.fallback
    ensures Timed(c, d, marks + [m]) && Gated(c, d, marks + [m])
  {
    AppendMark(marks, m);
  }

  lemma HopSpaced(c: Config, e: Engine, marks: seq<Mark>, draw: nat)
    requires Gated(c, e, marks) && e.work.hop && Decide(c, e, draw).Go?
    ensures var d := Decide(c, e, draw);
            Spaced(c, marks + [Hopped(d.kind, e.channel, d.target, e.now)], |marks|)
  {
    var d := Decide(c, e, draw);
    AppendMark(marks, Hopped(d.kind, e.channel, d.target, e.now));
  }

  lemma LandTimely(c: Config, e: Engine, marks: seq<Mark>, kind: Kind, target: nat)
    requires Timely(c, e, marks) && Clock(e) != 0 && Wrap32(e.now + c.cooldownMs) != 0
    requires Spaced(c, marks + [Hopped(kind, e.channel, target, e.now)], |marks|)
    ensures Timely(c, Land(c, HopStarted(e), kind, target), marks + [Hopped(kind, e.channel, target, e.now)])
  {
    LandTimed(c, HopStarted(e), marks, kind, target);
    AppendSpaced(c, marks, Hopped(kind, e.channel, target, e.now));
  }

  /** A hop that stays, or is refused. */
  lemma NoHopTimely(c: Config, e: Engine, marks: seq<Mark>, d: Engine)
    requires Timely(c, e, marks)
    requires d == HopStarted(e) || d == HopStarted(e).(work := HopStarted(e).work.(retry := true))
    ensures Timely(c, d, marks)
  {
  }

  lemma HopTimed(c: Config, e: Engine, marks: seq<Mark>, draw: nat, accept: bool)
    requires Inv(c, e) && Timely(c, e, marks) && e.work.hop && Smooth(c, e, OpHop(draw, accept))
    ensures Timely(c, Hop(c, e, draw, accept), marks + Traced(c, e, OpHop(draw, accept)))
  {
    HopLands(c, e, draw, accept);
    match Decide(c, e, draw) {
      case Stay =>
        assert marks + [] == marks;
        NoHopTimely(c, e, marks, Hop(c, e, draw, accept));
      case Go(kind, target) =>
        if Switches(e, target, accept) {
          HopSpaced(c, e, marks, draw);
          LandTimely(c, e, marks, kind, target);
        } else {
          assert marks + [] == marks;
          NoHopTimely(c, e, marks, Hop(c, e, draw, accept));
        }
    }
  }

  /** What the cooldown says about the time since the last hop, up to half the range of the counter after its end. */
  lemma CoolingExactly(c: Config, e: Engine, marks: seq<Mark>)
    requires ValidConfig(c) && Timed(c, e, marks) && LastHop(marks) >= 0
    ensures !Cooling(e) ==> e.now >= LastHop(marks) + c.cooldownMs
    ensures e.now <= LastHop(marks) + c.cooldownMs + 0x8000_0000 ==>
              (Cooling(e) <==> e.now < LastHop(marks) + c.cooldownMs)
  {
    hide StillAhead, Wrap32;
    var t := LastHop(marks);
    if e.now <= t + c.cooldownMs + 0x8000_0000 {
      AheadExactly(t, c.cooldownMs, e.now);
    }
  }

  lemma RetryTimely(c: Config, e: Engine, marks: seq<Mark>)
    requires ValidConfig(c) && Timely(c, e, marks) && !Cooling(e)
    ensures Timely(c, Retry(e), marks)
  {
    if LastHop(marks) >= 0 {
      CoolingExactly(c, e, marks);
    }
  }

  lemma TxFailTimely(c: Config, e: Engine, marks: seq<Mark>)
    requires ValidConfig(c) && !c.coop && Inv(c, e) && Timely(c, e, marks)
    ensures Timely(c, TxFail(c, e), marks) && Timely(c, Request(c, e), marks)
  {
    var r := e.(requests := c.requestBurst, synced := false, work := e.work.(negotiate := true));
    StillTimely(c, e, r, marks);
    TriggerGated(c, e, marks);
    TriggerGated(c, r, marks);
  }

  lemma QuietTimely(c: Config, e: Engine, marks: seq<Mark>, op: Op)
    requires Inv(c, e) && Timely(c, e, marks) && Enabled(e, op)
    requires !op.OpTick? && !op.OpTxFail? && !op.OpRequest? && !op.OpTxSuccess? && !op.OpDisconnected? && !op.OpStop?
    requires !op.OpStart? && !op.OpDegraded? && !op.OpRetry? && !op.OpHop? && !op.OpCommit?
    ensures Timely(c, Step(c, e, op), marks)
  {
    hide Timely, Inv;
    StepKeeps(c, e, op);
    StillTimely(c, e, Step(c, e, op), marks);
  }

  lemma StepTimely(c: Config, e: Engine, marks: seq<Mark>, op: Op)
    requires ValidConfig(c) && !c.coop && Inv(c, e) && Smooth(c, e, op) && Timely(c, e, marks)
    ensures Timely(c, Step(c, e, op), marks + Traced(c, e, op))
  {
    hide Hop, TxFail, Request, Receive, Negotiate, IdleCheck, Burst, Disconnected, TxSuccess, Legal, Handshake, Progress;
    assert marks + [] == marks;
    if Enabled(e, op) {
      match op {
        case OpHop(draw, accept) => HopTimed(c, e, marks, draw, accept);
        case OpTxFail => TxFailTimely(c, e, marks);
        case OpRequest => TxFailTimely(c, e, marks);
        case OpTxSuccess => MarkTimely(c, e, TxSuccess(c, e), marks, Heard(e.now));
        case OpDisconnected => MarkTimely(c, e, Disconnected(c, e), marks, Dropped);
        case OpStop => MarkTimely(c, e, Disconnected(c, e).(configured := false), marks, Dropped);
        case OpTick(ms) => TickTimely(c, e, ms, marks);
        case OpStart =>
        case OpDegraded =>
        case OpRetry => RetryTimely(c, e, marks);
        case OpCommit(_) =>
        case _ => QuietTimely(c, e, marks, op);
      }
    }
  }

  /** With cooperative hops compiled out, refused switches included: since the last link loss, a hop commits at least
      COOLDOWN_MS after the one before, a rendezvous fallback at least RENDEZVOUS_FALLBACK_MS after it, as long as no
      deadline hits the reserved zero and every retry of a refused switch finds the cooldown over. */
  lemma {:induction false} HopsAreSpaced(c: Config, boot: nat, ops: seq<Op>)
    requires ValidConfig(c) && !c.coop && boot < LIMIT && SmoothRun(c, boot, ops)
    ensures AllSpaced(c, Trace(c, boot, ops)) && Timely(c, Run(c, boot, ops), Trace(c, boot, ops))
  {
    if ops != [] {
      var before := ops[..|ops| - 1];
      HopsAreSpaced(c, boot, before);
      EngineKeepsGoing(c, boot, before);
      StepTimely(c, Run(c, boot, before), Trace(c, boot, before), ops[|ops| - 1]);
    }
  }

  /** Which retries stay spaced: the hop that the retry of a refused switch asks for, made at once, keeps COOLDOWN_MS to the
      last hop if and only if the cooldown is over when the retry runs. The retry itself does not ask. */
  lemma RetryStaysSpaced(c: Config, e: Engine, marks: seq<Mark>, draw: nat)
    requires ValidConfig(c) && Timed(c, e, marks) && !e.fallback && Decide(c, Retry(e), draw).Go?
    requires 0 <= LastHop(marks) && e.now <= LastHop(marks) + c.cooldownMs + 0x8000_0000
    ensures var d := Decide(c, Retry(e), draw);
            Spaced(c, marks + [Hopped(d.kind, e.channel, d.target, e.now)], |marks|) <==> !Cooling(e)
  {
    var d := Decide(c, Retry(e), draw);
    AppendMark(marks, Hopped(d.kind, e.channel, d.target, e.now));
    CoolingExactly(c, e, marks);
  }

  /** The reserved zero is what the proviso about deadlines is for: right after a hop the cooldown is active if and
      only if its deadline is not zero modulo 2^32. */
  lemma CooldownActiveAfterHop(c: Config, e: Engine, kind: Kind, target: nat)
    requires 0 < c.cooldownMs < 0x8000_0000
    ensures Cooling(Land(c, e, kind, target)) <==> Wrap32(e.now + c.cooldownMs) != 0
  {
    LandedClock(c, e, kind, target);
    if Wrap32(e.now + c.cooldownMs) != 0 {
      DeadlineSeen(e.now, c.cooldownMs, e.now);
    }
  }

  // Cooperative hops, in the full engine.

  predicate CoopTimed(c: Config, e: Engine, marks: seq<Mark>) {
    var t := LastCoop(marks);
    if t < 0 then e.coopUntil == 0
    else
      && t <= e.now && e.coopUntil == Wrap32(t + c.coopCooldownMs) && e.coopUntil != 0
      && (e.coop != Quiet ==> e.now >= t + c.coopCooldownMs)
  }

  /** The step computes no cooperative deadline that happens to be zero modulo 2^32. */
  predicate CoopSmooth(c: Config, e: Engine, op: Op) {
    op.OpCommit? && e.work.commit && Commits(e, op.accept) ==> Wrap32(e.now + c.coopCooldownMs) != 0
  }

  predicate CoopSmoothRun(c: Config, boot: nat, ops: seq<Op>) {
    ops == [] ||
    (CoopSmoothRun(c, boot, ops[..|ops| - 1]) && CoopSmooth(c, Run(c, boot, ops[..|ops| - 1]), ops[|ops| - 1]))
  }

  predicate CoopSpaced(c: Config, marks: seq<Mark>, i: nat)
    requires i < |marks|
  {
    marks[i].Hopped? && marks[i].kind == Cooperative && LastCoop(marks[..i]) >= 0 ==>
      marks[i].at >= LastCoop(marks[..i]) + c.coopCooldownMs
  }

  ghost predicate AllCoopSpaced(c: Config, marks: seq<Mark>) {
    forall i | 0 <= i < |marks| :: CoopSpaced(c, marks, i)
  }

  lemma AppendCoopSpaced(c: Config, marks: seq<Mark>, m: Mark)
    requires AllCoopSpaced(c, marks) && CoopSpaced(c, marks + [m], |marks|)
    ensures AllCoopSpaced(c, marks + [m])
  {
    forall i | 0 <= i < |marks + [m]|
      ensures CoopSpaced(c, marks + [m], i)
    {
      if i < |marks| {
        assert CoopSpaced(c, marks, i);
        assert (marks + [m])[..i] == marks[..i];
      }
    }
  }

  /** What a landing leaves of the cooperative handshake. */
  lemma LandedCoop(c: Config, e: Engine, kind: Kind, target: nat)
    ensures var d := Land(c, e, kind, target); d.now == e.now && d.coopUntil == e.coopUntil && d.coop == e.coop
  {
  }

  lemma DegradedTimed(c: Config, e: Engine, marks: seq<Mark>)
    requires ValidConfig(c) && CoopTimed(c, e, marks)
    ensures CoopTimed(c, Degraded(c, e), marks)
  {
    var t := LastCoop(marks);
    if t >= 0 && !CoopCooling(e) && e.now < t + c.coopCooldownMs {
      DeadlineSeen(t, c.coopCooldownMs, e.now);
    }
  }

  lemma CommitTimed(c: Config, e: Engine, marks: seq<Mark>, accept: bool)
    requires CoopTimed(c, e, marks) && AllCoopSpaced(c, marks) && e.work.commit
    requires CoopSmooth(c, e, OpCommit(accept))
    ensures var more := marks + Traced(c, e, OpCommit(accept));
            CoopTimed(c, Commit(c, e, accept), more) && AllCoopSpaced(c, more)
  {
    hide Land, Commit;
    if Commits(e, accept) {
      CommitLands(c, e, accept);
      LandedCoop(c, CommitStarted(c, e), Cooperative, e.target);
      var m := Hopped(Cooperative, e.channel, e.target, e.now);
      AppendMark(marks, m);
      AppendCoopSpaced(c, marks, m);
    } else {
      assert marks + [] == marks;
      CommitWithoutHop(c, e, accept);
    }
  }

  lemma CommitWithoutHop(c: Config, e: Engine, accept: bool)
    requires !Commits(e, accept)
    ensures var d := Commit(c, e, accept);
            d.now == e.now && d.coopUntil == e.coopUntil && (d.coop != Quiet ==> d.coop == e.coop)
  {
    if e.coop != Armed {
    } else if e.target == INVALID || e.target == e.channel {
    } else {
    }
  }

  lemma HopCoopTimed(c: Config, e: Engine, marks: seq<Mark>, draw: nat, accept: bool)
    requires Inv(c, e) && CoopTimed(c, e, marks) && AllCoopSpaced(c, marks) && e.work.hop
    ensures var more := marks + Traced(c, e, OpHop(draw, accept));
            CoopTimed(c, Hop(c, e, draw, accept), more) && AllCoopSpaced(c, more)
  {
    DecisionIsLegal(c, e, draw);
    hide Land, Hop, Decide, Inv, AllCoopSpaced;
    HopLands(c, e, draw, accept);
    var d := Decide(c, e, draw);
    if d.Go? && Switches(e, d.target, accept) {
      LandedCoop(c, HopStarted(e), d.kind, d.target);
      var m := Hopped(d.kind, e.channel, d.target, e.now);
      AppendMark(marks, m);
      AppendCoopSpaced(c, marks, m);
    } else {
      assert marks + [] == marks;
    }
  }

  lemma MarkCoopTimed(c: Config, e: Engine, d: Engine, marks: seq<Mark>, m: Mark)
    requires c.coop && CoopTimed(c, e, marks) && AllCoopSpaced(c, marks) && !m.Hopped?
    requires m.Dropped? ==> d == Disconnected(c, e) || d == Disconnected(c, e).(configured := false)
    requires m.Heard? ==> d == TxSuccess(c, e)
    ensures CoopTimed(c, d, marks + [m]) && AllCoopSpaced(c, marks + [m])
  {
    AppendMark(marks, m);
    AppendCoopSpaced(c, marks, m);
  }

  lemma TxFailCoopTimed(c: Config, e: Engine, marks: seq<Mark>)
    requires Inv(c, e) && CoopTimed(c, e, marks)
    ensures CoopTimed(c, TxFail(c, e), marks) && CoopTimed(c, Request(c, e), marks)
  {
    TxFailKeeps(c, e);
    RequestKeeps(c, e);
  }

  lemma StepCoopTimed(c: Config, e: Engine, marks: seq<Mark>, op: Op)
    requires ValidConfig(c) && c.coop && Inv(c, e) && CoopSmooth(c, e, op)
    requires CoopTimed(c, e, marks) && AllCoopSpaced(c, marks)
    ensures var more := marks + Traced(c, e, op);
            CoopTimed(c, Step(c, e, op), more) && AllCoopSpaced(c, more)
  {
    hide Hop, Commit, TxFail, Request, Receive, Negotiate, IdleCheck, Burst, Disconnected, TxSuccess, Legal, Handshake,
      Progress, AllCoopSpaced;
    assert marks + [] == marks;
    if Enabled(e, op) {
      match op {
        case OpHop(draw, accept) => HopCoopTimed(c, e, marks, draw, accept);
        case OpCommit(accept) => CommitTimed(c, e, marks, accept);
        case OpDegraded => DegradedTimed(c, e, marks);
        case OpTxFail => TxFailCoopTimed(c, e, marks);
        case OpRequest => TxFailCoopTimed(c, e, marks);
        case OpTxSuccess => MarkCoopTimed(c, e, TxSuccess(c, e), marks, Heard(e.now));
        case OpDisconnected => MarkCoopTimed(c, e, Disconnected(c, e), marks, Dropped);
        case OpStop => MarkCoopTimed(c, e, Disconnected(c, e).(configured := false), marks, Dropped);
        case OpTick(_) =>
        case OpStart =>
        case OpRetry =>
        case _ => StepKeeps(c, e, op);
      }
    }
  }

  /** In the full engine, with refused switches and whatever else, two cooperative hops since the last link loss
      commit at least COOP_HOP_COOLDOWN_MS apart, as long as no deadline hits the reserved zero. */
  lemma {:induction false} CoopHopsAreSpaced(c: Config, boot: nat, ops: seq<Op>)
    requires ValidConfig(c) && c.coop && boot < LIMIT && CoopSmoothRun(c, boot, ops)
    ensures AllCoopSpaced(c, Trace(c, boot, ops)) && CoopTimed(c, Run(c, boot, ops), Trace(c, boot, ops))
  {
    if ops != [] {
      var before := ops[..|ops| - 1];
      CoopHopsAreSpaced(c, boot, before);
      EngineKeepsGoing(c, boot, before);
      StepCoopTimed(c, Run(c, boot, before), Trace(c, boot, before), ops[|ops| - 1]);
    }
  }
}
