/** What the channel-hop engine knows is what it was told: each part of its state, read off the events of the run and the hops
    that the trace shows, and what it proposes, offers and decides on that ground. */
module HopStories {
  import opened Words
  import opened HopModel
  import opened HopProofs
  import opened HopTraces
  import C = Channels

  /** The step hops. */
  predicate Hops(c: Config, e: Engine, op: Op) {
    var m := Traced(c, e, op);
    m != [] && m[0].Hopped?
  }

  /** The step takes the link down. */
  predicate Drops(op: Op) {
    op.OpDisconnected? || op.OpStop?
  }

  /** The channel that a received CONFIRM names; INVALID for all other bytes and steps. */
  function ConfirmedBy(op: Op): nat {
    if op.OpReceive? && |op.data| >= 3 && op.data[0] == CONFIRM && op.data[1] < LIMIT then op.data[1] else INVALID
  }

  // ----- What each step tells -----

  /** The link came up, and was not lost since. */
  predicate UpAfter(up: bool, op: Op) {
    op.OpConnected? || (!Drops(op) && up)
  }

  /** The link came up or user traffic went out over it, and neither did the idle timer fire nor was the link lost since. */
  predicate AwakeAfter(awake: bool, up: bool, op: Op) {
    op.OpConnected? || (op.OpUserTx? && up) || (!op.OpIdleCheck? && !Drops(op) && awake)
  }

  /** The channel of the last CONFIRM since the last hop and the last link loss. */
  function AgreedAfter(agreed: nat, hops: bool, op: Op): nat {
    if hops || Drops(op) then INVALID else if ConfirmedBy(op) != INVALID then ConfirmedBy(op) else agreed
  }

  /** The dongle is known to hold the same channel: a CONFIRM came, and since then no hop, no link loss, no REQUEST, and no
      negotiation that found the channel of no use any more. */
  predicate InsyncAfter(insync: bool, awake: bool, up: bool, useful: bool, hops: bool, op: Op) {
    ConfirmedBy(op) != INVALID
    || (insync && !hops && !Drops(op) && !(op.OpRequest? && up) && !(op.OpNegotiate? && awake && !useful))
  }

  /** How many negotiations of the burst that the last REQUEST asked for are left. */
  function RequestsAfter(c: Config, n: nat, awake: bool, up: bool, op: Op): nat {
    if op.OpRequest? && up then c.requestBurst
    else if Drops(op) || ConfirmedBy(op) != INVALID then 0
    else if op.OpNegotiate? && awake && n > 0 then n - 1
    else n
  }

  /** How many ticks are left of the burst that follows a hop. */
  function BurstAfter(c: Config, n: nat, hops: bool, op: Op): nat {
    if hops then c.burstCount else if Drops(op) then 0 else if op.OpBurst? && n > 0 then n - 1 else n
  }

  /** The channel that the ticks of the burst stick to. */
  function StickyAfter(c: Config, x: nat, n: nat, agreedUseful: bool, xUseful: bool, picked: nat, hops: bool, op: Op): nat {
    if (hops && c.burstCount > 0) || (op.OpBurst? && n == 1) then INVALID
    else if op.OpBurst? && n > 1 && !agreedUseful && !xUseful then picked
    else x
  }

  /** The channel that the next hop reverts to: the one that the last hop left, if that was a normal one and nothing was heard
      since. */
  function RevertAfter(prev: nat, marks: seq<Mark>): nat {
    if marks == [] then prev
    else if marks[0].Hopped? && marks[0].kind == Normal then marks[0].from
    else INVALID
  }

  /** The channel the engine is on: the boot channel at each slot start, then where the hops lead. */
  function ChannelAfter(channel: nat, boot: nat, marks: seq<Mark>, op: Op): nat {
    if op.OpStart? then boot else if marks != [] && marks[0].Hopped? then marks[0].to else channel
  }

  /** A negotiation is due. */
  predicate NegotiatingAfter(due: bool, awake: bool, up: bool, hops: bool, op: Op) {
    || hops || op.OpConnected? || ((op.OpUserTx? || op.OpRequest?) && up)
    || (due && !Drops(op) && !(op.OpIdleCheck? && awake) && !(op.OpNegotiate? && !up))
  }

  /** The step asks the radio for a switch. */
  predicate Asks(c: Config, e: Engine, op: Op) {
    match op
    case OpHop(draw, _) => e.work.hop && Decide(c, e, draw).Go?
    case OpCommit(_) => e.work.commit && e.coop == Armed && e.target != INVALID && e.target != e.channel
    case _ => false
  }

  /** A refused switch is to be tried again. */
  predicate RetryingAfter(due: bool, asks: bool, hops: bool, op: Op) {
    (asks && !hops) || (due && !op.OpRetry? && !Drops(op))
  }

  // All of it, in two parts.

  ghost predicate TellsLink(c: Config, e: Engine, op: Op, d: Engine) {
    var hops := Hops(c, e, op);
    && d.linkUp == UpAfter(e.linkUp, op)
    && d.active == AwakeAfter(e.active, e.linkUp, op) == d.work.idleCheck
    && d.committed == AgreedAfter(e.committed, hops, op)
    && d.synced == InsyncAfter(e.synced, e.active, e.linkUp, Useful(e, e.committed), hops, op)
    && d.requests == RequestsAfter(c, e.requests, e.active, e.linkUp, op)
    && d.work.negotiate == NegotiatingAfter(e.work.negotiate, e.active, e.linkUp, hops, op)
  }

  ghost predicate TellsHops(c: Config, e: Engine, op: Op, d: Engine) {
    var hops, marks := Hops(c, e, op), Traced(c, e, op);
    && d.burst == BurstAfter(c, e.burst, hops, op) && (d.work.burst <==> d.burst > 0)
    && d.sticky == StickyAfter(c, e.sticky, e.burst, Useful(e, e.committed), Useful(e, e.sticky),
                               if op.OpBurst? then PickFresh(c, e, op.draw) else INVALID, hops, op)
    && d.prev == RevertAfter(e.prev, marks)
    && d.channel == ChannelAfter(e.channel, e.boot, marks, op) && d.boot == e.boot
    && d.work.retry == RetryingAfter(e.work.retry, Asks(c, e, op), hops, op)
  }

  ghost predicate Tells(c: Config, e: Engine, op: Op, d: Engine) {
    TellsLink(c, e, op, d) && TellsHops(c, e, op, d)
  }

  /** What is known of the work items. */
  predicate Scheduled(c: Config, e: Engine) {
    e.work.idleCheck == e.active && (e.work.burst <==> e.burst > 0) && e.burst <= c.burstCount
  }

  // What the steps with many branches leave alone.

  /** The engine after a switch: where it is is new, the rest is as `e` has it but for what a hop starts afresh. */
  predicate Afresh(c: Config, e: Engine, d: Engine) {
    d == e.(channel := d.channel, expires := d.expires, prev := d.prev, committed := INVALID, synced := false,
            cooldownUntil := Wrap32(e.now + c.cooldownMs), lastEvent := NonZero(Clock(e)),
            burst := if c.burstCount == 0 then e.burst else c.burstCount,
            sticky := if c.burstCount == 0 then e.sticky else INVALID,
            work := e.work.(negotiate := true, burst := e.work.burst || c.burstCount > 0))
  }

  lemma LandsAfresh(c: Config, e: Engine, kind: Kind, target: nat)
    ensures Afresh(c, e, Land(c, e, kind, target))
  {
    hide Rewritten;
  }

  lemma HopStep(c: Config, e: Engine, op: Op)
    requires op.OpHop? && e.work.hop
    ensures Step(c, e, op) == Hop(c, e, op.draw, op.accept)
  {
    hide Hop;
  }

  lemma CommitStep(c: Config, e: Engine, op: Op)
    requires op.OpCommit? && e.work.commit
    ensures Step(c, e, op) == Commit(c, e, op.accept)
  {
    hide Commit;
  }

  lemma HopSeen(c: Config, e: Engine, op: Op)
    requires op.OpHop? && e.work.hop
    ensures var g := Decide(c, e, op.draw); Hops(c, e, op) <==> g.Go? && Switches(e, g.target, op.accept)
  {
    hide Decide, Switches;
  }

  lemma HopShape(c: Config, e: Engine, op: Op)
    requires op.OpHop? && e.work.hop
    ensures var d := Step(c, e, op);
            if Hops(c, e, op) then Afresh(c, HopStarted(e), d)
            else if Decide(c, e, op.draw).Go? then d == HopStarted(e).(work := HopStarted(e).work.(retry := true))
            else d == HopStarted(e)
  {
    hide Decide, Land, Afresh, Hop, Step, Hops, Switches, Traced;
    HopStep(c, e, op);
    HopSeen(c, e, op);
    HopLands(c, e, op.draw, op.accept);
    var g := Decide(c, e, op.draw);
    if g.Go? && Switches(e, g.target, op.accept) {
      LandsAfresh(c, HopStarted(e), g.kind, g.target);
    }
  }

  lemma CommitSeen(c: Config, e: Engine, op: Op)
    requires op.OpCommit? && e.work.commit
    ensures Hops(c, e, op) <==> Commits(e, op.accept)
  {
    hide Commits;
  }

  /** The commit work is over without a hop. */
  predicate StoodDown(e: Engine, d: Engine) {
    var n := e.(work := e.work.(commit := false));
    if e.coop != Armed then d == n
    else if e.target == INVALID || e.target == e.channel then d == n.(coop := Quiet)
    else d == n.(coop := Quiet, work := n.work.(retry := true))
  }

  lemma NoCommit(c: Config, e: Engine, accept: bool)
    requires !Commits(e, accept)
    ensures StoodDown(e, Commit(c, e, accept))
  {
    hide Land;
  }

  lemma CommitShape(c: Config, e: Engine, op: Op)
    requires op.OpCommit? && e.work.commit
    ensures var d := Step(c, e, op);
            if Hops(c, e, op) then Afresh(c, CommitStarted(c, e), d) else StoodDown(e, d)
  {
    hide Land, Afresh, Commit, Step, Hops, Commits, Traced, StoodDown;
    CommitStep(c, e, op);
    CommitSeen(c, e, op);
    if Commits(e, op.accept) {
      CommitLands(c, e, op.accept);
      LandsAfresh(c, CommitStarted(c, e), Cooperative, e.target);
    } else {
      NoCommit(c, e, op.accept);
    }
  }

  lemma ReceiveShape(c: Config, e: Engine, op: Op)
    requires op.OpReceive?
    ensures var d, agreed := Step(c, e, op), ConfirmedBy(op);
            if agreed != INVALID then d == Confirmed(e, agreed) else d == e.(target := d.target)
  {
    hide Confirmed;
  }

  lemma BurstShape(c: Config, e: Engine, op: Op)
    requires op.OpBurst? && e.work.burst
    ensures var d := Step(c, e, op);
            d == e.(burst := if e.burst == 0 then 0 else e.burst - 1, sticky := d.sticky, work := e.work.(burst := e.burst > 1))
  {
    hide Sticky, Useful;
  }

  ghost predicate StepTells(c: Config, e: Engine, op: Op) {
    Tells(c, e, op, Step(c, e, op)) && Scheduled(c, Step(c, e, op))
  }

  /** A step that hops. */
  lemma FreshTells(c: Config, e: Engine, op: Op, s: Engine, d: Engine, m: Mark)
    requires Scheduled(c, e) && (op.OpHop? || op.OpCommit?) && Traced(c, e, op) == [m] && m.Hopped?
    requires s == HopStarted(e) || s == CommitStarted(c, e)
    requires Afresh(c, s, d) && d.channel == m.to && d.prev == if m.kind == Normal then m.from else INVALID
    ensures Tells(c, e, op, d) && Scheduled(c, d)
  {
    hide Traced, Asks, Useful, PickFresh, Decide, Wrap32;
  }

  /** A step that might have hopped and does not. */
  lemma StayTells(c: Config, e: Engine, op: Op, d: Engine)
    requires Scheduled(c, e) && (op.OpHop? || op.OpCommit?) && Traced(c, e, op) == []
    requires d == e.(coop := d.coop, fallback := d.fallback, work := d.work)
    requires var w := d.work;
             w == e.work.(hop := w.hop, commit := w.commit, retry := e.work.retry || Asks(c, e, op))
    ensures Tells(c, e, op, d) && Scheduled(c, d)
  {
    hide Traced, Asks, Useful, PickFresh, Decide, Wrap32;
  }

  lemma HopFresh(c: Config, e: Engine, op: Op)
    requires Scheduled(c, e) && op.OpHop? && e.work.hop
    requires var g := Decide(c, e, op.draw); g.Go? && Switches(e, g.target, op.accept)
    ensures StepTells(c, e, op)
  {
    hide Decide, Hop, Land, Switches, Tells, Scheduled, Afresh, Traced, Step, HopStarted;
    HopStep(c, e, op);
    HopLands(c, e, op.draw, op.accept);
    var g := Decide(c, e, op.draw);
    LandsAfresh(c, HopStarted(e), g.kind, g.target);
    LandedWhere(c, HopStarted(e), g.kind, g.target);
    SameStart(c, e);
    FreshTells(c, e, op, HopStarted(e), Step(c, e, op), Hopped(g.kind, e.channel, g.target, e.now));
  }

  lemma RefusedTells(c: Config, e: Engine, op: Op)
    requires Scheduled(c, e) && op.OpHop? && Traced(c, e, op) == [] && Asks(c, e, op)
    ensures var d := HopStarted(e).(work := HopStarted(e).work.(retry := true));
            Tells(c, e, op, d) && Scheduled(c, d)
  {
    hide Tells, Scheduled, Traced, Asks;
    StayTells(c, e, op, HopStarted(e).(work := HopStarted(e).work.(retry := true)));
  }

  lemma HopStay(c: Config, e: Engine, op: Op)
    requires Scheduled(c, e) && op.OpHop? && e.work.hop && Decide(c, e, op.draw).Stay?
    ensures StepTells(c, e, op)
  {
    hide Decide, Hop, Land, Switches, Tells, Scheduled, Traced, Step;
    HopStep(c, e, op);
    HopLands(c, e, op.draw, op.accept);
    StayTells(c, e, op, HopStarted(e));
  }

  lemma HopRefused(c: Config, e: Engine, op: Op)
    requires Scheduled(c, e) && op.OpHop? && e.work.hop && Decide(c, e, op.draw).Go?
    requires !Switches(e, Decide(c, e, op.draw).target, op.accept)
    ensures StepTells(c, e, op)
  {
    hide Decide, Hop, Land, Switches, Tells, Scheduled, Traced, Step;
    HopStep(c, e, op);
    HopLands(c, e, op.draw, op.accept);
    hide HopStarted;
    RefusedTells(c, e, op);
  }

  lemma SameStart(c: Config, e: Engine)
    ensures HopStarted(e).channel == e.channel
  {
  }

  lemma LandedWhere(c: Config, e: Engine, kind: Kind, target: nat)
    ensures var d := Land(c, e, kind, target); d.channel == target && d.prev == if kind == Normal then e.channel else INVALID
  {
    hide Rewritten;
  }

  lemma CommitFresh(c: Config, e: Engine, op: Op)
    requires Scheduled(c, e) && op.OpCommit? && e.work.commit && Commits(e, op.accept)
    ensures StepTells(c, e, op)
  {
    hide Commit, Commits, Land, Tells, Scheduled, Afresh, Traced, Step, CommitStarted;
    CommitStep(c, e, op);
    CommitLands(c, e, op.accept);
    LandsAfresh(c, CommitStarted(c, e), Cooperative, e.target);
    LandedWhere(c, CommitStarted(c, e), Cooperative, e.target);
    FreshTells(c, e, op, CommitStarted(c, e), Step(c, e, op), Hopped(Cooperative, e.channel, e.target, e.now));
  }

  lemma StoodTells(c: Config, e: Engine, op: Op, d: Engine)
    requires Scheduled(c, e) && op.OpCommit? && e.work.commit && Traced(c, e, op) == [] && StoodDown(e, d)
    ensures Tells(c, e, op, d) && Scheduled(c, d)
  {
    hide Tells, Scheduled, Traced;
    StayTells(c, e, op, d);
  }

  lemma CommitStay(c: Config, e: Engine, op: Op)
    requires Scheduled(c, e) && op.OpCommit? && e.work.commit && !Commits(e, op.accept)
    ensures StepTells(c, e, op)
  {
    assert Traced(c, e, op) == [];
    hide Commit, Commits, Tells, Scheduled, Traced, Step, StoodDown;
    CommitStep(c, e, op);
    NoCommit(c, e, op.accept);
    StoodTells(c, e, op, Step(c, e, op));
  }

  /** The steps that the trace does not show. */
  lemma Unseen(c: Config, e: Engine, op: Op)
    requires !op.OpHop? && !op.OpCommit?
    ensures !Hops(c, e, op) && !Asks(c, e, op)
    ensures !op.OpTxSuccess? && !Drops(op) ==> Traced(c, e, op) == []
    ensures op.OpTxSuccess? ==> Traced(c, e, op) == [Heard(e.now)]
    ensures Drops(op) ==> Traced(c, e, op) == [Dropped]
  {
  }

  predicate SameLink(e: Engine, d: Engine) {
    && d.linkUp == e.linkUp && d.active == e.active && d.committed == e.committed && d.synced == e.synced
    && d.requests == e.requests && d.work.negotiate == e.work.negotiate && d.work.idleCheck == e.work.idleCheck
  }

  predicate SameHops(e: Engine, d: Engine) {
    && d.burst == e.burst && d.sticky == e.sticky && d.prev == e.prev && d.channel == e.channel && d.boot == e.boot
    && d.work.burst == e.work.burst && d.work.retry == e.work.retry
  }

  /** The steps that tell nothing of the link. */
  predicate OffLink(op: Op) {
    || op.OpTick? || op.OpTxFail? || op.OpTxSuccess? || op.OpDegraded? || op.OpOffer? || op.OpBurst? || op.OpRetry?
    || op.OpStart? || (op.OpReceive? && ConfirmedBy(op) == INVALID)
  }

  /** The steps that tell nothing of the hops. */
  predicate OffHops(op: Op) {
    || op.OpTick? || op.OpTxFail? || op.OpDegraded? || op.OpOffer? || op.OpReceive? || op.OpConnected? || op.OpUserTx?
    || op.OpIdleCheck? || op.OpNegotiate? || op.OpRequest?
  }

  lemma LinkUntold(c: Config, e: Engine, op: Op, d: Engine)
    requires SameLink(e, d) && OffLink(op) && Scheduled(c, e)
    ensures TellsLink(c, e, op, d)
  {
    Unseen(c, e, op);
    hide Hops, Traced, Asks, Useful;
  }

  lemma HopsUntold(c: Config, e: Engine, op: Op, d: Engine)
    requires SameHops(e, d) && OffHops(op) && Scheduled(c, e)
    ensures TellsHops(c, e, op, d)
  {
    Unseen(c, e, op);
    hide Hops, Traced, Asks, Useful, ConfirmedBy;
  }

  /** Both parts, and what is known of the work items goes on. */
  lemma Together(c: Config, e: Engine, op: Op)
    requires Scheduled(c, e)
    requires TellsLink(c, e, op, Step(c, e, op)) && TellsHops(c, e, op, Step(c, e, op))
    ensures StepTells(c, e, op)
  {
    hide Traced, Hops, Asks, Useful, Step;
  }

  // Steps that tell neither.

  predicate Silent(op: Op) {
    op.OpTick? || op.OpTxFail? || op.OpDegraded? || op.OpOffer? || (op.OpReceive? && ConfirmedBy(op) == INVALID)
  }

  lemma DegradedSame(c: Config, e: Engine)
    ensures SameLink(e, Degraded(c, e)) && SameHops(e, Degraded(c, e))
  {
    hide Cooling, CoopCooling;
  }

  lemma OfferSame(c: Config, e: Engine, draw: nat, sent: bool)
    ensures SameLink(e, Offer(c, e, draw, sent)) && SameHops(e, Offer(c, e, draw, sent))
  {
    hide OfferTarget;
    var t := OfferTarget(c, e, draw);
    if !e.linkUp || !e.active {
    } else if e.coop != Offered {
    } else if t == INVALID || t == e.channel {
    } else if sent {
    } else {
    }
  }

  lemma ReceiveSame(c: Config, e: Engine, op: Op)
    requires op.OpReceive? && ConfirmedBy(op) == INVALID
    ensures SameLink(e, Receive(c, e, op.data)) && SameHops(e, Receive(c, e, op.data))
  {
    hide Confirmed;
  }

  lemma SilentSame(c: Config, e: Engine, op: Op)
    requires Silent(op) && !op.OpTxFail?
    ensures SameLink(e, Step(c, e, op)) && SameHops(e, Step(c, e, op))
  {
    hide Offer, Degraded, Receive, ConfirmedBy;
    if Enabled(e, op) {
      match op {
        case OpOffer(draw, sent) => OfferSame(c, e, draw, sent);
        case OpDegraded => DegradedSame(c, e);
        case OpReceive(_) => ReceiveSame(c, e, op);
        case _ =>
      }
    }
  }

  lemma FailStep(c: Config, e: Engine, op: Op)
    requires op.OpTxFail?
    ensures Step(c, e, op) == TxFail(c, e)
  {
    hide TxFail;
  }

  lemma TriggerSame(c: Config, e: Engine)
    ensures SameLink(e, HopTrigger(c, e)) && SameHops(e, HopTrigger(c, e))
  {
    hide Cooling, FallbackDue;
    if !e.active {
    } else if !Cooling(e) {
    } else if FallbackDue(c, e) {
    } else {
    }
  }

  lemma FailSame(c: Config, e: Engine)
    ensures SameLink(e, TxFail(c, e)) && SameHops(e, TxFail(c, e))
  {
    hide HopTrigger;
    TriggerSame(c, e.(offerFlag := e.offerFlag && !c.coop));
  }

  lemma SilentTells(c: Config, e: Engine, op: Op)
    requires Scheduled(c, e) && Silent(op)
    ensures StepTells(c, e, op)
  {
    hide Step, TxFail, SameLink, SameHops, Scheduled, TellsLink, TellsHops, StepTells;
    if op.OpTxFail? {
      FailStep(c, e, op);
      FailSame(c, e);
    } else {
      SilentSame(c, e, op);
    }
    LinkUntold(c, e, op, Step(c, e, op));
    HopsUntold(c, e, op, Step(c, e, op));
    Together(c, e, op);
  }

  lemma DisabledTells(c: Config, e: Engine, op: Op)
    requires Progress(e) && Scheduled(c, e) && !Enabled(e, op)
    ensures StepTells(c, e, op)
  {
    hide Useful, PickFresh, Decide;
  }

  // Steps that tell of the hops only.

  predicate AboutHops(op: Op) {
    op.OpTxSuccess? || op.OpBurst? || op.OpRetry? || op.OpStart?
  }

  lemma BurstSticks(c: Config, e: Engine, op: Op)
    requires op.OpBurst? && e.work.burst && e.burst > 0
    ensures Step(c, e, op).sticky
            == if e.burst == 1 then INVALID
               else if !Useful(e, e.committed) && !Useful(e, e.sticky) then PickFresh(c, e, op.draw) else e.sticky
  {
    hide Useful, PickFresh;
  }

  lemma BurstTellsHops(c: Config, e: Engine, op: Op)
    requires Scheduled(c, e) && op.OpBurst? && e.work.burst
    ensures TellsHops(c, e, op, Step(c, e, op)) && SameLink(e, Step(c, e, op))
  {
    Unseen(c, e, op);
    BurstShape(c, e, op);
    BurstSticks(c, e, op);
    hide Traced, Hops, Asks, Useful, PickFresh, Step;
  }

  lemma OtherTellsHops(c: Config, e: Engine, op: Op)
    requires Scheduled(c, e) && AboutHops(op) && !op.OpBurst? && Enabled(e, op)
    ensures TellsHops(c, e, op, Step(c, e, op)) && SameLink(e, Step(c, e, op))
  {
    Unseen(c, e, op);
    hide Traced, Hops, Asks, Useful, PickFresh, Clock, NonZero;
  }

  lemma HopsTold(c: Config, e: Engine, op: Op)
    requires Scheduled(c, e) && AboutHops(op) && Enabled(e, op)
    ensures StepTells(c, e, op)
  {
    hide Step, SameLink, Scheduled, TellsLink, TellsHops, StepTells;
    if op.OpBurst? {
      BurstTellsHops(c, e, op);
    } else {
      OtherTellsHops(c, e, op);
    }
    LinkUntold(c, e, op, Step(c, e, op));
    Together(c, e, op);
  }

  // Steps that tell of the link only.

  predicate AboutLink(op: Op) {
    || op.OpConnected? || op.OpUserTx? || op.OpIdleCheck? || op.OpNegotiate? || op.OpRequest?
    || (op.OpReceive? && ConfirmedBy(op) != INVALID)
  }

  lemma NegotiateShape(c: Config, e: Engine, op: Op)
    requires Inv(c, e) && op.OpNegotiate? && e.work.negotiate
    ensures Step(c, e, op)
            == e.(synced := e.synced && !(e.active && !Useful(e, e.committed)),
                  requests := if e.active && e.requests > 0 then e.requests - 1 else e.requests,
                  work := e.work.(negotiate := e.linkUp))
  {
    hide Useful, Legal, Handshake, Solo;
  }

  lemma NegotiateTellsLink(c: Config, e: Engine, op: Op)
    requires Inv(c, e) && Scheduled(c, e) && op.OpNegotiate? && e.work.negotiate
    ensures TellsLink(c, e, op, Step(c, e, op)) && SameHops(e, Step(c, e, op))
  {
    Unseen(c, e, op);
    NegotiateShape(c, e, op);
    hide Traced, Hops, Asks, Useful, Legal, Handshake, Solo, Step, Negotiate, Scheduled;
  }

  /** What a REQUEST changes before it acts as a failure. */
  function Requested(c: Config, e: Engine): Engine {
    e.(requests := c.requestBurst, synced := false, work := e.work.(negotiate := true))
  }

  lemma RequestStep(c: Config, e: Engine, op: Op)
    requires op.OpRequest?
    ensures Step(c, e, op) == if e.linkUp then TxFail(c, Requested(c, e)) else e
  {
    hide TxFail;
  }

  lemma RequestTellsLink(c: Config, e: Engine, op: Op)
    requires Inv(c, e) && Scheduled(c, e) && op.OpRequest?
    ensures TellsLink(c, e, op, Step(c, e, op)) && SameHops(e, Step(c, e, op))
  {
    Unseen(c, e, op);
    RequestStep(c, e, op);
    FailSame(c, Requested(c, e));
    hide Traced, Hops, Asks, Useful, Legal, Handshake, Solo, Step, TxFail;
  }

  lemma ConfirmTellsLink(c: Config, e: Engine, op: Op)
    requires Inv(c, e) && Scheduled(c, e) && op.OpReceive? && ConfirmedBy(op) != INVALID
    ensures TellsLink(c, e, op, Step(c, e, op)) && SameHops(e, Step(c, e, op))
  {
    Unseen(c, e, op);
    ReceiveShape(c, e, op);
    hide Traced, Hops, Asks, Useful, Legal, Handshake, Solo, Step, ConfirmedBy;
  }

  lemma LinkStepTells(c: Config, e: Engine, op: Op)
    requires Inv(c, e) && Scheduled(c, e) && (op.OpConnected? || op.OpUserTx? || op.OpIdleCheck?) && Enabled(e, op)
    ensures TellsLink(c, e, op, Step(c, e, op)) && SameHops(e, Step(c, e, op))
  {
    Unseen(c, e, op);
    hide Traced, Hops, Asks, Useful, Legal, Handshake, Solo;
  }

  lemma LinkTold(c: Config, e: Engine, op: Op)
    requires Inv(c, e) && Scheduled(c, e) && AboutLink(op) && Enabled(e, op)
    ensures StepTells(c, e, op)
  {
    hide Step, SameHops, Inv, Scheduled, TellsLink, TellsHops, StepTells;
    match op {
      case OpNegotiate(_) => NegotiateTellsLink(c, e, op);
      case OpRequest => RequestTellsLink(c, e, op);
      case OpReceive(_) => ConfirmTellsLink(c, e, op);
      case _ => LinkStepTells(c, e, op);
    }
    HopsUntold(c, e, op, Step(c, e, op));
    Together(c, e, op);
  }

  lemma ForgottenTells(c: Config, e: Engine, op: Op, d: Engine)
    requires Scheduled(c, e) && Drops(op) && d == LinkForgotten(c, e)
    ensures Tells(c, e, op, d) && Scheduled(c, d)
  {
    Unseen(c, e, op);
    hide Traced, Hops, Asks, Useful, PickFresh;
  }

  /** Neither the handshake nor the slot is told of. */
  lemma DropSame(c: Config, e: Engine, op: Op)
    requires Drops(op)
    ensures SameLink(LinkForgotten(c, e), Step(c, e, op)) && SameHops(LinkForgotten(c, e), Step(c, e, op))
  {
    hide LinkForgotten;
    if c.coop {
    } else {
    }
  }

  lemma AlsoTells(c: Config, e: Engine, op: Op, d: Engine, f: Engine)
    requires Tells(c, e, op, d) && Scheduled(c, d) && SameLink(d, f) && SameHops(d, f)
    ensures Tells(c, e, op, f) && Scheduled(c, f)
  {
    hide Traced, Hops, Asks, Useful, PickFresh, UpAfter, AwakeAfter, AgreedAfter, InsyncAfter, RequestsAfter, NegotiatingAfter,
      BurstAfter, StickyAfter, RevertAfter, ChannelAfter, RetryingAfter;
  }

  lemma DropTells(c: Config, e: Engine, op: Op)
    requires Scheduled(c, e) && Drops(op)
    ensures StepTells(c, e, op)
  {
    hide Tells, Scheduled, LinkForgotten, SameLink, SameHops, Step;
    ForgottenTells(c, e, op, LinkForgotten(c, e));
    DropSame(c, e, op);
    AlsoTells(c, e, op, LinkForgotten(c, e), Step(c, e, op));
  }

  lemma AllTells(c: Config, e: Engine, op: Op)
    requires Inv(c, e) && Scheduled(c, e)
    ensures StepTells(c, e, op)
  {
    hide StepTells, Inv, Scheduled, Commits, Decide, Switches;
    if !Enabled(e, op) {
      DisabledTells(c, e, op) by {
        ProgressOf(c, e);
      }
    } else if op.OpHop? {
      var g := Decide(c, e, op.draw);
      if g.Stay? {
        HopStay(c, e, op);
      } else if Switches(e, g.target, op.accept) {
        HopFresh(c, e, op);
      } else {
        HopRefused(c, e, op);
      }
    } else if op.OpCommit? {
      if Commits(e, op.accept) {
        CommitFresh(c, e, op);
      } else {
        CommitStay(c, e, op);
      }
    } else if Silent(op) {
      SilentTells(c, e, op);
    } else if AboutHops(op) {
      HopsTold(c, e, op);
    } else if AboutLink(op) {
      LinkTold(c, e, op);
    } else {
      DropTells(c, e, op);
    }
  }

  lemma ProgressOf(c: Config, e: Engine)
    requires Inv(c, e)
    ensures Progress(e)
  {
  }

  // ----- The story of a run -----

  /** What a run told so far, in the order of the functions above. */
  datatype Story = Story(
    up: bool, awake: bool, agreed: nat, insync: bool, requests: nat, due: bool,
    burst: nat, back: nat, channel: nat, retry: bool)

  /** A channel that a proposal may name. */
  predicate Open(e: Engine, ch: nat) {
    ch < LIMIT && ch != e.channel && !Held(e, ch)
  }

  function Told(c: Config, e: Engine, s: Story, op: Op): Story {
    var hops, marks := Hops(c, e, op), Traced(c, e, op);
    Story(UpAfter(s.up, op), AwakeAfter(s.awake, s.up, op), AgreedAfter(s.agreed, hops, op),
          InsyncAfter(s.insync, s.awake, s.up, Open(e, s.agreed), hops, op),
          RequestsAfter(c, s.requests, s.awake, s.up, op), NegotiatingAfter(s.due, s.awake, s.up, hops, op),
          BurstAfter(c, s.burst, hops, op), RevertAfter(s.back, marks), ChannelAfter(s.channel, e.boot, marks, op),
          RetryingAfter(s.retry, Asks(c, e, op), hops, op))
  }

  function StoryOf(c: Config, boot: nat, ops: seq<Op>): Story {
    if ops == [] then Story(false, false, INVALID, false, 0, false, 0, INVALID, boot, false)
    else
      var before := ops[..|ops| - 1];
      Told(c, Run(c, boot, before), StoryOf(c, boot, before), ops[|ops| - 1])
  }

  /** The engine knows the story: its variables say what was told, and its timers run as long as that gives reason. */
  predicate Knows(e: Engine, s: Story) {
    && e.linkUp == s.up && e.active == s.awake && e.committed == s.agreed && e.synced == s.insync && e.requests == s.requests
    && e.burst == s.burst && e.prev == s.back && e.channel == s.channel
    && e.work.negotiate == s.due && e.work.idleCheck == s.awake && (e.work.burst <==> s.burst > 0) && e.work.retry == s.retry
  }

  lemma UsefulIsOpen(e: Engine, ch: nat)
    ensures Useful(e, ch) == Open(e, ch)
  {
  }

  lemma LearnsLink(c: Config, e: Engine, s: Story, op: Op, d: Engine)
    requires Knows(e, s) && TellsLink(c, e, op, d)
    ensures var t := Told(c, e, s, op);
            && d.linkUp == t.up && d.active == t.awake == d.work.idleCheck && d.committed == t.agreed && d.synced == t.insync
            && d.requests == t.requests && d.work.negotiate == t.due
  {
    UsefulIsOpen(e, e.committed);
    hide Useful, Open, Hops, Traced, Asks, UpAfter, AwakeAfter, AgreedAfter, InsyncAfter, RequestsAfter, NegotiatingAfter;
  }

  lemma LearnsHops(c: Config, e: Engine, s: Story, op: Op, d: Engine)
    requires Knows(e, s) && TellsHops(c, e, op, d)
    ensures var t := Told(c, e, s, op);
            && d.burst == t.burst && d.prev == t.back && d.channel == t.channel && d.boot == e.boot
            && (d.work.burst <==> d.burst > 0) && d.work.retry == t.retry
  {
    hide Useful, Open, Hops, Traced, Asks, BurstAfter, StickyAfter, RevertAfter, ChannelAfter, RetryingAfter;
  }

  lemma Learns(c: Config, e: Engine, s: Story, op: Op)
    requires Inv(c, e) && Scheduled(c, e) && Knows(e, s)
    ensures Knows(Step(c, e, op), Told(c, e, s, op)) && Scheduled(c, Step(c, e, op))
  {
    AllTells(c, e, op);
    hide Inv, Scheduled, Step, Told, TellsLink, TellsHops;
    LearnsLink(c, e, s, op, Step(c, e, op));
    LearnsHops(c, e, s, op, Step(c, e, op));
  }

  /** In every run, against arbitrary received bytes, the engine knows the story. */
  lemma {:induction false} KnowsItsStory(c: Config, boot: nat, ops: seq<Op>)
    requires boot < LIMIT
    ensures Knows(Run(c, boot, ops), StoryOf(c, boot, ops)) && Scheduled(c, Run(c, boot, ops))
  {
    if ops != [] {
      var before := ops[..|ops| - 1];
      KnowsItsStory(c, boot, before);
      EngineKeepsGoing(c, boot, before);
      Learns(c, Run(c, boot, before), StoryOf(c, boot, before), ops[|ops| - 1]);
    }
  }

  // ----- What is proposed, offered and decided -----

  /** A choice among all channels, if `x` is INVALID because there is none: neither the current channel nor a quarantined one,
      and of those one that keeps as clear of them as any, up to the configured distance. */
  ghost predicate BestChoice(c: Config, e: Engine, x: nat) {
    var band := C.Band(e.expires, Clock(e), e.channel);
    if forall y: nat | y < LIMIT :: C.Blocked(band, y) then x == INVALID else C.Optimal(band, x, c.minDistance)
  }

  lemma PickIsBest(c: Config, e: Engine, draw: nat)
    ensures BestChoice(c, e, PickFresh(c, e, draw))
  {
    C.PickIsOptimal(C.Band(e.expires, Clock(e), e.channel), c.minDistance, draw);
    hide C.Blocked, C.Optimal, C.Pick;
  }

  /** What a negotiation proposes: nothing unless one is due and the link awake; the agreed channel while that is open, and
      once the dongle holds it too, nothing; otherwise the best choice. */
  lemma NegotiationProposes(c: Config, boot: nat, ops: seq<Op>, draw: nat)
    requires boot < LIMIT
    ensures var e, s := Run(c, boot, ops), StoryOf(c, boot, ops);
            var x := Proposed(c, e, OpNegotiate(draw));
            if !s.due || !s.awake then x == INVALID
            else if !Open(e, s.agreed) then BestChoice(c, e, x)
            else x == if s.insync then INVALID else s.agreed
  {
    var e := Run(c, boot, ops);
    KnowsItsStory(c, boot, ops);
    EngineKeepsGoing(c, boot, ops);
    PickIsBest(c, e, draw);
    UsefulIsOpen(e, e.committed);
    hide Useful, Open, BestChoice, PickFresh, StoryOf, Run, Legal, Handshake, Solo;
  }

  /** How many ticks of the burst are over. */
  function Ticks(c: Config, s: Story): int {
    c.burstCount - s.burst
  }

  /** What a tick of the burst proposes, and what it sticks to: nothing on a side-trip, and nothing once the dongle holds the
      agreed channel; else the agreed channel while that is open, else the choice of the tick before while that is open, else
      the best choice, to which the ticks to come stick. Side-trips are every so many ticks of the burst, not counting the
      first, and only away from the rendezvous channel. */
  lemma BurstProposes(c: Config, boot: nat, ops: seq<Op>, draw: nat)
    requires boot < LIMIT && StoryOf(c, boot, ops).burst > 0
    ensures var e, s := Run(c, boot, ops), StoryOf(c, boot, ops);
            var x, next := Proposed(c, e, OpBurst(draw)), Step(c, e, OpBurst(draw)).sticky;
            var trip := c.sideTripEvery > 0 && 0 < Ticks(c, s) && Ticks(c, s) % c.sideTripEvery == 0 && s.channel != boot;
            && (SideTripTick(c, e) <==> trip)
            && (trip || s.insync ==> x == INVALID)
            && (!trip && !s.insync ==>
                  if Open(e, s.agreed) then x == s.agreed
                  else if Open(e, e.sticky) then x == e.sticky else BestChoice(c, e, x))
            && (if s.burst == 1 then next == INVALID
                else if Open(e, s.agreed) || Open(e, e.sticky) then next == e.sticky
                else BestChoice(c, e, next) && (!trip && !s.insync ==> next == x))
  {
    hide Step, Useful, Open, BestChoice, PickFresh, StoryOf, Run, SideTripTick, Proposed;
    KnowsItsStory(c, boot, ops);
    BootStays(c, boot, ops);
    BurstChoice(c, Run(c, boot, ops), draw);
    TripTicks(c, Run(c, boot, ops));
  }

  lemma TripTicks(c: Config, e: Engine)
    ensures var ticks := c.burstCount - e.burst;
            SideTripTick(c, e) <==> c.sideTripEvery > 0 && 0 < ticks && ticks % c.sideTripEvery == 0 && e.channel != e.boot
  {
  }

  lemma BurstChoice(c: Config, e: Engine, draw: nat)
    requires e.burst > 0 && e.work.burst
    ensures var x, next := Proposed(c, e, OpBurst(draw)), Step(c, e, OpBurst(draw)).sticky;
            var trip := SideTripTick(c, e);
            && (trip || e.synced ==> x == INVALID)
            && (!trip && !e.synced ==>
                  if Open(e, e.committed) then x == e.committed
                  else if Open(e, e.sticky) then x == e.sticky else BestChoice(c, e, x))
            && (if e.burst == 1 then next == INVALID
                else if Open(e, e.committed) || Open(e, e.sticky) then next == e.sticky
                else BestChoice(c, e, next) && (!trip && !e.synced ==> next == x))
  {
    hide Step, Useful, Open, BestChoice, PickFresh, SideTripTick;
    PickIsBest(c, e, draw);
    UsefulIsOpen(e, e.committed);
    UsefulIsOpen(e, e.sticky);
    BurstSticks(c, e, OpBurst(draw));
  }

  lemma {:induction false} BootStays(c: Config, boot: nat, ops: seq<Op>)
    requires boot < LIMIT
    ensures Run(c, boot, ops).boot == boot
  {
    if ops != [] {
      var before, op := ops[..|ops| - 1], ops[|ops| - 1];
      var e := Run(c, boot, before);
      BootStays(c, boot, before);
      EngineKeepsGoing(c, boot, before);
      KnowsItsStory(c, boot, before);
      AllTells(c, e, op);
      hide Step, Inv, Scheduled, Traced, Hops, StoryOf, TellsLink, BurstAfter, StickyAfter, RevertAfter, ChannelAfter,
        RetryingAfter;
    }
  }

  /** What a hop decides: the rendezvous channel if a fallback was asked for; else back to the channel that the last hop left,
      if that was a normal one and nothing was heard since; else to the agreed channel; else to the best choice. It stays if
      that is where it is, or if there is no choice. */
  lemma HopDecides(c: Config, boot: nat, ops: seq<Op>, draw: nat)
    requires boot < LIMIT
    ensures var e, s := Run(c, boot, ops), StoryOf(c, boot, ops);
            var g := Decide(c, e, draw);
            if e.fallback then g == if s.channel == boot then Stay else Go(Fallback, boot)
            else if s.back < LIMIT && s.back != s.channel then g == Go(Revert, s.back)
            else if s.agreed < LIMIT && s.agreed != s.channel then g == Go(Normal, s.agreed)
            else BestChoice(c, e, if g.Stay? then INVALID else g.target) && (g.Go? ==> g.kind == Normal && g.target < LIMIT)
  {
    var e := Run(c, boot, ops);
    KnowsItsStory(c, boot, ops);
    EngineKeepsGoing(c, boot, ops);
    BootStays(c, boot, ops);
    PickIsBest(c, e, draw);
    PickIsUseful(c, e, draw);
    hide Useful, BestChoice, PickFresh, StoryOf, Run, Handshake, Solo, Progress;
  }
}
