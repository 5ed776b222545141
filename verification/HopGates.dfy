/** When the channel-hop engine hops and when it offers to, told by the times on the trace; and the story of the cooperative
    handshake. */
module HopGates {
  import opened Words
  import opened HopModel
  import opened HopProofs
  import opened HopTraces
  import opened HopStories
  import C = Channels

  // ----- The clocks -----

  /** The step computes no deadline or stamp that happens to be zero modulo 2^32, which the firmware reads as "none". */
  predicate Dated(c: Config, e: Engine, op: Op) {
    && (Hops(c, e, op) ==> Clock(e) != 0 && Wrap32(e.now + c.cooldownMs) != 0)
    && (op.OpTxSuccess? ==> Clock(e) != 0)
    && CoopSmooth(c, e, op)
  }

  predicate DatedRun(c: Config, boot: nat, ops: seq<Op>) {
    ops == [] || (DatedRun(c, boot, ops[..|ops| - 1]) && Dated(c, Run(c, boot, ops[..|ops| - 1]), ops[|ops| - 1]))
  }

  /** What the cooldown and the silence clock stand for. */
  predicate Clocks(c: Config, e: Engine, marks: seq<Mark>) {
    var t, v := LastHop(marks), LastNews(marks);
    && t <= v <= e.now
    && (if t < 0 then e.cooldownUntil == 0 else e.cooldownUntil == Wrap32(t + c.cooldownMs) && e.cooldownUntil != 0)
    && (if v < 0 then e.lastEvent == 0 else e.lastEvent == Wrap32(v) && e.lastEvent != 0)
  }

  /** What a step does to the clocks. */
  predicate Ticked(c: Config, e: Engine, op: Op, d: Engine) {
    && d.now == e.now + (if op.OpTick? then op.ms else 0)
    && d.cooldownUntil == (if Hops(c, e, op) then Wrap32(e.now + c.cooldownMs) else if Drops(op) then 0 else e.cooldownUntil)
    && d.lastEvent == (if Hops(c, e, op) || op.OpTxSuccess? then NonZero(Clock(e)) else if Drops(op) then 0 else e.lastEvent)
  }

  lemma FreshTicked(c: Config, e: Engine, op: Op, s: Engine, d: Engine)
    requires Hops(c, e, op) && !op.OpTick? && Afresh(c, s, d)
    requires s == HopStarted(e) || s == CommitStarted(c, e)
    ensures Ticked(c, e, op, d)
  {
    hide Hops, Wrap32, NonZero;
  }

  lemma HopTicked(c: Config, e: Engine, op: Op)
    requires op.OpHop? && e.work.hop
    ensures Ticked(c, e, op, Step(c, e, op))
  {
    HopShape(c, e, op);
    hide Step, Decide, Hops, Afresh;
    if Hops(c, e, op) {
      FreshTicked(c, e, op, HopStarted(e), Step(c, e, op));
    }
  }

  lemma NoCommitTicked(c: Config, e: Engine, accept: bool)
    requires !Commits(e, accept)
    ensures var d := Commit(c, e, accept);
            d.now == e.now && d.cooldownUntil == e.cooldownUntil && d.lastEvent == e.lastEvent
  {
    hide Land, Switches;
    if e.coop != Armed {
    } else if e.target == INVALID || e.target == e.channel {
    } else {
    }
  }

  lemma CommitTicked(c: Config, e: Engine, op: Op)
    requires op.OpCommit? && e.work.commit
    ensures Ticked(c, e, op, Step(c, e, op))
  {
    CommitStep(c, e, op);
    CommitSeen(c, e, op);
    CommitShape(c, e, op);
    hide Step, Hops, Afresh, StoodDown, Commit, Commits;
    if Hops(c, e, op) {
      FreshTicked(c, e, op, CommitStarted(c, e), Step(c, e, op));
    } else {
      NoCommitTicked(c, e, op.accept);
    }
  }

  lemma StepTicked(c: Config, e: Engine, op: Op)
    requires Inv(c, e)
    ensures Ticked(c, e, op, Step(c, e, op))
  {
    if Enabled(e, op) && op.OpHop? {
      HopTicked(c, e, op);
    } else if Enabled(e, op) && op.OpCommit? {
      CommitTicked(c, e, op);
    } else {
      OtherTicked(c, e, op);
    }
  }

  lemma OtherTicked(c: Config, e: Engine, op: Op)
    requires Inv(c, e) && (Enabled(e, op) ==> !op.OpHop? && !op.OpCommit?)
    ensures Ticked(c, e, op, Step(c, e, op))
  {
    hide Inv, Receive, Request, TxFail, Degraded, Negotiate, Burst, Offer, Connected, UserTx;
    if Enabled(e, op) && !op.OpTick? && !op.OpTxSuccess? && !op.OpStart? && !Drops(op) {
      Unseen(c, e, op);
      StepKeeps(c, e, op);
      hide Step, Hops;
    }
  }

  lemma ClocksGoOn(c: Config, e: Engine, marks: seq<Mark>, op: Op)
    requires Inv(c, e) && Clocks(c, e, marks) && Dated(c, e, op)
    ensures Clocks(c, Step(c, e, op), marks + Traced(c, e, op))
  {
    StepTicked(c, e, op);
    MarksOf(c, e, op);
    hide Step, Traced, Inv, Hops;
    var more := Traced(c, e, op);
    if more == [] {
      assert marks + more == marks;
    } else {
      AppendMark(marks, more[0]);
    }
  }

  /** What the trace shows of a step. */
  lemma MarksOf(c: Config, e: Engine, op: Op)
    ensures var more := Traced(c, e, op);
            && |more| <= 1 && (Hops(c, e, op) <==> more != [] && more[0].Hopped?)
            && (Hops(c, e, op) ==> more == [more[0]] && more[0].at == e.now && (op.OpHop? || op.OpCommit?))
            && (op.OpTxSuccess? ==> more == [Heard(e.now)])
            && (Drops(op) ==> more == [Dropped])
            && (!Hops(c, e, op) && !op.OpTxSuccess? && !Drops(op) ==> more == [])
  {
    hide Decide, Switches, Commits;
  }

  /** In every dated run, cooperative hops included, the clocks stand for the last hop and the last hop or TX success. */
  lemma {:induction false} ClocksKeepTime(c: Config, boot: nat, ops: seq<Op>)
    requires boot < LIMIT && DatedRun(c, boot, ops)
    ensures Clocks(c, Run(c, boot, ops), Trace(c, boot, ops))
  {
    if ops != [] {
      var before := ops[..|ops| - 1];
      ClocksKeepTime(c, boot, before);
      EngineKeepsGoing(c, boot, before);
      ClocksGoOn(c, Run(c, boot, before), Trace(c, boot, before), ops[|ops| - 1]);
    }
  }

  lemma {:induction false} CoopClockKeepsTime(c: Config, boot: nat, ops: seq<Op>)
    requires ValidConfig(c) && c.coop && boot < LIMIT && DatedRun(c, boot, ops)
    ensures CoopTimed(c, Run(c, boot, ops), Trace(c, boot, ops))
  {
    DatedIsSmooth(c, boot, ops);
    CoopHopsAreSpaced(c, boot, ops);
  }

  lemma {:induction false} DatedIsSmooth(c: Config, boot: nat, ops: seq<Op>)
    requires DatedRun(c, boot, ops)
    ensures CoopSmoothRun(c, boot, ops)
  {
    if ops != [] {
      DatedIsSmooth(c, boot, ops[..|ops| - 1]);
    }
  }

  // ----- The deadlines, read on the trace -----

  /** The cooldown after the last hop is over. */
  predicate Settled(c: Config, now: nat, marks: seq<Mark>) {
    LastHop(marks) < 0 || now >= LastHop(marks) + c.cooldownMs
  }

  predicate CoopSettled(c: Config, now: nat, marks: seq<Mark>) {
    LastCoop(marks) < 0 || now >= LastCoop(marks) + c.coopCooldownMs
  }

  /** Nothing good happened for as long as the rendezvous fallback waits. */
  predicate Hushed(c: Config, now: nat, marks: seq<Mark>) {
    c.fallbackMs > 0 && LastNews(marks) >= 0 && now >= LastNews(marks) + c.fallbackMs
  }

  /** The deadlines are at most half the range of the uptime counter in the past. A deadline further back reads as still
      ahead, until the counter has gone round. */
  predicate Recent(c: Config, now: nat, marks: seq<Mark>) {
    && (LastHop(marks) >= 0 ==> now <= LastHop(marks) + c.cooldownMs + 0x8000_0000)
    && (LastCoop(marks) >= 0 ==> now <= LastCoop(marks) + c.coopCooldownMs + 0x8000_0000)
  }

  lemma NotAheadIsOver(start: nat, hold: nat, now: nat)
    requires start <= now && hold < 0x8000_0000 && !StillAhead(Wrap32(start + hold), Wrap32(now))
    ensures now >= start + hold
  {
    if now < start + hold {
      DeadlineSeen(start, hold, now);
    }
  }

  lemma CooldownRead(c: Config, e: Engine, marks: seq<Mark>)
    requires ValidConfig(c) && Clocks(c, e, marks)
    ensures !Cooling(e) ==> Settled(c, e.now, marks)
    ensures Recent(c, e.now, marks) ==> (Cooling(e) <==> !Settled(c, e.now, marks))
  {
    var t := LastHop(marks);
    if t >= 0 {
      hide StillAhead, Wrap32;
      if !Cooling(e) {
        NotAheadIsOver(t, c.cooldownMs, e.now);
      }
      if Recent(c, e.now, marks) {
        AheadExactly(t, c.cooldownMs, e.now);
      }
    }
  }

  lemma CoopCooldownRead(c: Config, e: Engine, marks: seq<Mark>)
    requires ValidConfig(c) && CoopTimed(c, e, marks)
    ensures !CoopCooling(e) ==> CoopSettled(c, e.now, marks)
    ensures Recent(c, e.now, marks) ==> (CoopCooling(e) <==> !CoopSettled(c, e.now, marks))
  {
    var t := LastCoop(marks);
    if t >= 0 {
      hide StillAhead, Wrap32;
      if !CoopCooling(e) {
        NotAheadIsOver(t, c.coopCooldownMs, e.now);
      }
      if Recent(c, e.now, marks) {
        AheadExactly(t, c.coopCooldownMs, e.now);
      }
    }
  }

  lemma ElapsedExactly(start: nat, now: nat)
    requires start <= now < start + 0x8000_0000
    ensures Wrap32(Wrap32(now) - Wrap32(start)) == now - start
  {
  }

  // ----- The story of the handshake -----

  /** A cooperative handshake: its state, whether an offer is in flight, the channel it is about, and how many offers were made
      so far. */
  datatype Talk = Talk(coop: Coop, inflight: bool, target: nat, offers: nat)

  /** A failure reaches the engine: a lost packet, or a REQUEST while the link is up. */
  predicate Fails(op: Op, up: bool) {
    op.OpTxFail? || (op.OpRequest? && up)
  }

  /** The engine goes to sleep, or the link down. */
  predicate Stops(op: Op, awake: bool) {
    Drops(op) || (op.OpIdleCheck? && awake)
  }

  /** The channel that a received ACCEPT of the offer with this serial names; INVALID for all other bytes and steps. */
  function AcceptedBy(op: Op, serial: nat): nat {
    if op.OpReceive? && |op.data| >= 4 && op.data[0] == ACCEPT && op.data[3] == serial && op.data[1] < LIMIT then op.data[1]
    else INVALID
  }

  /** The step makes the offer that is due: there is a channel to offer. */
  predicate Makes(e: Engine, t: Talk, op: Op) {
    op.OpOffer? && t.coop == Offered && !t.inflight && exists y: nat | y < LIMIT :: Open(e, y)
  }

  /** The state of the handshake after the step; `starts` says whether the trigger may start one. */
  function CoopAfter(t: Talk, starts: bool, made: bool, awake: bool, up: bool, op: Op): Coop {
    if op.OpDegraded? && starts then Offered
    else if Stops(op, awake) || (t.inflight && Fails(op, up)) || (op.OpCommit? && t.coop == Armed) then Quiet
    else if op.OpOffer? && t.coop == Offered && !t.inflight && !(made && op.sent) then Quiet
    else if t.inflight && op.OpTxSuccess? then Armed
    else t.coop
  }

  predicate InflightAfter(t: Talk, made: bool, awake: bool, up: bool, op: Op) {
    if op.OpOffer? && t.coop == Offered && !t.inflight then made && op.sent
    else t.inflight && !op.OpTxSuccess? && !Fails(op, up) && !Stops(op, awake)
  }

  /** The offered channel is the last one offered, or the last one that the dongle answered with since. */
  function TargetAfter(t: Talk, made: bool, offered: nat, op: Op): nat {
    if made then offered
    else if t.coop != Quiet && AcceptedBy(op, t.offers % 256) != INVALID then AcceptedBy(op, t.offers % 256)
    else t.target
  }

  /** The trigger may start a handshake. */
  predicate Ready(c: Config, e: Engine) {
    c.coop && e.coop == Quiet && e.active && !Cooling(e) && !CoopCooling(e)
  }

  function TalkAfter(c: Config, e: Engine, t: Talk, op: Op, offered: nat): Talk {
    var made := Makes(e, t, op);
    Talk(CoopAfter(t, Ready(c, e), made, e.active, e.linkUp, op), InflightAfter(t, made, e.active, e.linkUp, op),
         TargetAfter(t, made, offered, op), if made then t.offers + 1 else t.offers)
  }

  /** The engine's variables say where the handshake is; the commit is pending exactly while it is armed, the offer exactly
      while it is due. */
  predicate Speaks(e: Engine, t: Talk) {
    && e.coop == t.coop && e.offerFlag == t.inflight && e.target == t.target && e.serial == t.offers % 256
    && (e.work.commit <==> t.coop == Armed) && (e.work.offer <==> t.coop == Offered && !t.inflight)
  }

  predicate SameTalk(e: Engine, d: Engine) {
    && d.coop == e.coop && d.offerFlag == e.offerFlag && d.target == e.target && d.serial == e.serial
    && d.work.commit == e.work.commit && d.work.offer == e.work.offer
  }

  /** The steps that are none of the handshake's business. */
  predicate OffTalk(op: Op) {
    || op.OpTick? || op.OpConnected? || op.OpUserTx? || op.OpNegotiate? || op.OpBurst? || op.OpRetry? || op.OpHop? || op.OpStart?
  }

  lemma LandSameTalk(c: Config, e: Engine, kind: Kind, target: nat)
    ensures SameTalk(e, Land(c, e, kind, target))
  {
    hide Rewritten, Wrap32, NonZero, Clock;
  }

  lemma HopSameTalk(c: Config, e: Engine, draw: nat, accept: bool)
    ensures SameTalk(e, Hop(c, e, draw, accept))
  {
    hide Decide, Switches, Land;
    var g := Decide(c, e, draw);
    if g.Go? {
      LandSameTalk(c, HopStarted(e), g.kind, g.target);
    }
  }

  lemma NegotiateSameTalk(e: Engine)
    ensures SameTalk(e, Negotiate(e))
  {
    hide Useful;
  }

  lemma BurstSameTalk(c: Config, e: Engine, draw: nat)
    ensures SameTalk(e, Burst(c, e, draw))
  {
    hide Useful, Sticky, BurstTick;
    TickSameTalk(e, if Useful(e, e.committed) then e.sticky else Sticky(c, e, draw));
  }

  lemma TickSameTalk(e: Engine, sticky: nat)
    ensures SameTalk(e, BurstTick(e, sticky))
  {
    if e.burst == 0 {
    } else if e.burst > 1 {
    } else {
    }
  }

  lemma OffSameTalk(c: Config, e: Engine, op: Op)
    requires OffTalk(op)
    ensures SameTalk(e, Step(c, e, op))
  {
    hide Hop, Negotiate, Burst;
    if Enabled(e, op) {
      match op {
        case OpHop(draw, accept) => HopSameTalk(c, e, draw, accept);
        case OpNegotiate(_) => NegotiateSameTalk(e);
        case OpBurst(draw) => BurstSameTalk(c, e, draw);
        case _ =>
      }
    }
  }

  lemma OffTalks(c: Config, e: Engine, t: Talk, op: Op)
    requires Speaks(e, t) && OffTalk(op) && SameTalk(e, Step(c, e, op))
    ensures Speaks(Step(c, e, op), TalkAfter(c, e, t, op, INVALID))
  {
    hide Step, Ready;
  }

  lemma StopTalks(c: Config, e: Engine, t: Talk, op: Op)
    requires Inv(c, e) && Speaks(e, t) && (Drops(op) || op.OpIdleCheck?)
    ensures Speaks(Step(c, e, op), TalkAfter(c, e, t, op, INVALID))
  {
    hide Ready, Legal;
  }

  lemma ReceiveTalk(c: Config, e: Engine, op: Op)
    requires op.OpReceive? && Solo(c, e)
    ensures var d, x := Receive(c, e, op.data), AcceptedBy(op, e.serial);
            SameTalk(e.(target := if e.coop != Quiet && x != INVALID then x else e.target), d)
  {
  }

  lemma ReceiveTalks(c: Config, e: Engine, t: Talk, op: Op)
    requires Inv(c, e) && Speaks(e, t) && op.OpReceive?
    ensures Speaks(Step(c, e, op), TalkAfter(c, e, t, op, INVALID))
  {
    hide Ready, Legal, Progress, Handshake, Receive, AcceptedBy;
    ReceiveTalk(c, e, op);
  }

  lemma HeardTalks(c: Config, e: Engine, t: Talk, op: Op)
    requires Inv(c, e) && Speaks(e, t) && op.OpTxSuccess?
    ensures Speaks(Step(c, e, op), TalkAfter(c, e, t, op, INVALID))
  {
    hide Ready, Legal, Progress, NonZero, Clock;
  }

  lemma DegradedTalks(c: Config, e: Engine, t: Talk, op: Op)
    requires Inv(c, e) && Speaks(e, t) && op.OpDegraded?
    ensures Speaks(Step(c, e, op), TalkAfter(c, e, t, op, INVALID))
  {
    hide Legal, Cooling, CoopCooling;
  }

  lemma TriggerSameTalk(c: Config, e: Engine)
    ensures SameTalk(e, HopTrigger(c, e))
  {
    hide Cooling, FallbackDue;
  }

  /** A failure ends the handshake if an offer is in flight, and is none of its business otherwise. */
  lemma FailTalk(c: Config, e: Engine)
    requires Handshake(e) && Solo(c, e)
    ensures var d := TxFail(c, e);
            if e.offerFlag
            then d.coop == Quiet && !d.offerFlag && d.target == e.target && d.serial == e.serial
                 && d.work.commit == e.work.commit && d.work.offer == e.work.offer
            else SameTalk(e, d)
  {
    hide HopTrigger;
    TriggerSameTalk(c, e.(offerFlag := e.offerFlag && !c.coop));
  }

  lemma FailTalks(c: Config, e: Engine, t: Talk, op: Op)
    requires Inv(c, e) && Speaks(e, t) && op.OpTxFail?
    ensures Speaks(Step(c, e, op), TalkAfter(c, e, t, op, INVALID))
  {
    FailStep(c, e, op);
    FailTalk(c, e);
    hide Ready, Legal, Progress, Step, TxFail;
  }

  lemma RequestTalk(c: Config, e: Engine, op: Op)
    requires Inv(c, e) && op.OpRequest? && e.linkUp
    ensures var d := Step(c, e, op);
            if e.offerFlag
            then d.coop == Quiet && !d.offerFlag && d.target == e.target && d.serial == e.serial
                 && d.work.commit == e.work.commit && d.work.offer == e.work.offer
            else SameTalk(e, d)
  {
    RequestStep(c, e, op);
    FailTalk(c, Requested(c, e));
    hide Legal, Progress, Step, TxFail;
  }

  lemma RequestTalks(c: Config, e: Engine, t: Talk, op: Op)
    requires Inv(c, e) && Speaks(e, t) && op.OpRequest?
    ensures Speaks(Step(c, e, op), TalkAfter(c, e, t, op, INVALID))
  {
    if e.linkUp {
      RequestTalk(c, e, op);
    } else {
      RequestStep(c, e, op);
    }
    hide Ready, Legal, Progress, Step, TxFail;
  }

  lemma CommitTalk(c: Config, e: Engine, accept: bool)
    requires e.coop == Armed
    ensures var d := Commit(c, e, accept);
            && d.coop == Quiet && d.offerFlag == e.offerFlag && d.target == e.target && d.serial == e.serial
            && (e.work.commit ==> !d.work.commit) && d.work.offer == e.work.offer
  {
    hide Switches, Land;
    if e.target == INVALID || e.target == e.channel {
    } else if !Switches(e, e.target, accept) {
    } else {
      CommittedTalk(c, e, e.target);
    }
  }

  lemma CommittedTalk(c: Config, e: Engine, target: nat)
    ensures var d := Land(c, CommitStarted(c, e), Cooperative, target);
            && d.coop == Quiet && d.offerFlag == e.offerFlag && d.target == e.target && d.serial == e.serial
            && !d.work.commit && d.work.offer == e.work.offer
  {
    LandSameTalk(c, CommitStarted(c, e), Cooperative, target);
    hide Land;
  }

  lemma CommitTalks(c: Config, e: Engine, t: Talk, op: Op)
    requires Inv(c, e) && Speaks(e, t) && op.OpCommit?
    ensures Speaks(Step(c, e, op), TalkAfter(c, e, t, op, INVALID))
  {
    if e.work.commit {
      CommitTalk(c, e, op.accept);
    }
    hide Ready, Legal, Progress, Commit;
  }

  /** What is offered: the agreed channel while that is open, else the best choice. */
  ghost predicate GoodOffer(c: Config, e: Engine, x: nat) {
    if Open(e, e.committed) then x == e.committed else BestChoice(c, e, x)
  }

  lemma OfferIsGood(c: Config, e: Engine, draw: nat)
    ensures GoodOffer(c, e, OfferTarget(c, e, draw))
    ensures var x := OfferTarget(c, e, draw);
            (x != INVALID && x != e.channel) <==> exists y: nat | y < LIMIT :: Open(e, y)
  {
    var x := OfferTarget(c, e, draw);
    UsefulIsOpen(e, e.committed);
    PickIsBest(c, e, draw);
    PickIsUseful(c, e, draw);
    if Open(e, e.committed) {
    } else {
      UsefulIsOpen(e, x);
      if y: nat :| y < LIMIT && Open(e, y) {
        assert !C.Blocked(C.Band(e.expires, Clock(e), e.channel), y);
      }
    }
    hide PickFresh, C.Optimal;
  }

  lemma OfferTalk(c: Config, e: Engine, op: Op)
    requires op.OpOffer? && e.work.offer && e.coop == Offered && e.active && e.linkUp
    ensures var d, x := Step(c, e, op), OfferTarget(c, e, op.draw);
            var made := x != INVALID && x != e.channel;
            && d.coop == (if made && op.sent then Offered else Quiet)
            && (made ==> d.target == x && d.serial == (e.serial + 1) % 256 && d.offerFlag == op.sent)
            && (!made ==> d.target == e.target && d.serial == e.serial && d.offerFlag == e.offerFlag)
            && d.work.commit == e.work.commit && !d.work.offer
  {
    hide OfferTarget;
  }

  lemma OfferTalks(c: Config, e: Engine, t: Talk, op: Op)
    requires Inv(c, e) && Speaks(e, t) && op.OpOffer?
    ensures var x := if Makes(e, t, op) then Step(c, e, op).target else INVALID;
            Speaks(Step(c, e, op), TalkAfter(c, e, t, op, x)) && (Makes(e, t, op) ==> GoodOffer(c, e, x))
  {
    if e.work.offer {
      OfferIsGood(c, e, op.draw);
      OfferTalk(c, e, op);
      SerialCounts(t.offers);
      hide Step;
    }
    hide Ready, Legal, Offer, OfferTarget, GoodOffer, Open;
  }

  lemma SerialCounts(n: nat)
    ensures (n % 256 + 1) % 256 == (n + 1) % 256
  {
  }

  lemma HandshakeStep(c: Config, e: Engine, t: Talk, op: Op)
    requires Inv(c, e) && Speaks(e, t)
    ensures var x := if Makes(e, t, op) then Step(c, e, op).target else INVALID;
            Speaks(Step(c, e, op), TalkAfter(c, e, t, op, x)) && (Makes(e, t, op) ==> GoodOffer(c, e, x))
  {
    hide Inv, Speaks, TalkAfter, Step, GoodOffer;
    match op {
      case OpDisconnected => StopTalks(c, e, t, op);
      case OpStop => StopTalks(c, e, t, op);
      case OpIdleCheck => StopTalks(c, e, t, op);
      case OpReceive(_) => ReceiveTalks(c, e, t, op);
      case OpTxSuccess => HeardTalks(c, e, t, op);
      case OpDegraded => DegradedTalks(c, e, t, op);
      case OpTxFail => FailTalks(c, e, t, op);
      case OpRequest => RequestTalks(c, e, t, op);
      case OpCommit(_) => CommitTalks(c, e, t, op);
      case OpOffer(_, _) => OfferTalks(c, e, t, op);
      case _ =>
        OffSameTalk(c, e, op);
        OffTalks(c, e, t, op);
    }
  }

  /** Where the handshake is after a run. */
  function TalkOf(c: Config, boot: nat, ops: seq<Op>): Talk {
    if ops == [] then Talk(Quiet, false, INVALID, 0)
    else
      var before, op := ops[..|ops| - 1], ops[|ops| - 1];
      var e, t := Run(c, boot, before), TalkOf(c, boot, before);
      TalkAfter(c, e, t, op, if Makes(e, t, op) then Step(c, e, op).target else INVALID)
  }

  /** In every run, against arbitrary received bytes, the engine knows where the handshake is: a failure, a TX success, a switch,
      the idle timer and the link going down move it as told, the serial counts the offers made modulo 256, the target is the
      last one offered or answered with, and the offer and the commit are pending exactly while they are due. */
  lemma {:induction false} HandshakeFollows(c: Config, boot: nat, ops: seq<Op>)
    requires boot < LIMIT
    ensures Speaks(Run(c, boot, ops), TalkOf(c, boot, ops))
  {
    if ops != [] {
      var before := ops[..|ops| - 1];
      HandshakeFollows(c, boot, before);
      EngineKeepsGoing(c, boot, before);
      HandshakeStep(c, Run(c, boot, before), TalkOf(c, boot, before), ops[|ops| - 1]);
      hide Inv, Speaks, TalkAfter, Step, Makes, GoodOffer;
    }
  }

  lemma OfferMade(c: Config, e: Engine, t: Talk, op: Op)
    requires Inv(c, e) && Speaks(e, t) && op.OpOffer? && t.coop == Offered && !t.inflight
    ensures var d, made := Step(c, e, op), Makes(e, t, op);
            && (made ==> GoodOffer(c, e, d.target)) && d.serial == (if made then t.offers + 1 else t.offers) % 256
            && (d.coop == Offered <==> d.offerFlag) && (d.offerFlag <==> made && op.sent)
  {
    OfferTalks(c, e, t, op);
    hide Inv, Step, Makes, GoodOffer, TargetAfter, Ready;
  }

  /** What is offered when an offer is due: the agreed channel while that is open, else the best choice. It is made if and only
      if some channel is open; without one, or if the send fails, the handshake ends. */
  lemma OffersAreGood(c: Config, boot: nat, ops: seq<Op>, draw: nat, sent: bool)
    requires boot < LIMIT && TalkOf(c, boot, ops).coop == Offered && !TalkOf(c, boot, ops).inflight
    ensures var e, s, t, op := Run(c, boot, ops), StoryOf(c, boot, ops), TalkOf(c, boot, ops), OpOffer(draw, sent);
            var d, made := Step(c, e, op), Makes(e, t, op);
            && (made ==> if Open(e, s.agreed) then d.target == s.agreed else BestChoice(c, e, d.target))
            && d.serial == (if made then t.offers + 1 else t.offers) % 256
            && (d.coop == Offered <==> d.offerFlag) && (d.offerFlag <==> made && sent)
  {
    hide Inv, Step, Run, TalkOf, StoryOf, Open, BestChoice, Makes;
    HandshakeFollows(c, boot, ops);
    EngineKeepsGoing(c, boot, ops);
    KnowsItsStory(c, boot, ops);
    OfferMade(c, Run(c, boot, ops), TalkOf(c, boot, ops), OpOffer(draw, sent));
  }

  /** A commit hops to the channel the handshake is about if and only if the handshake is armed, that is a channel other than
      the current one, and the radio is up and accepts; a hop or not, an armed handshake is over. */
  lemma CommitsHop(c: Config, boot: nat, ops: seq<Op>, accept: bool)
    requires boot < LIMIT
    ensures var e, s, t, op := Run(c, boot, ops), StoryOf(c, boot, ops), TalkOf(c, boot, ops), OpCommit(accept);
            && (Hops(c, e, op) <==>
                  t.coop == Armed && t.target < LIMIT && t.target != s.channel && e.configured && accept)
            && (Hops(c, e, op) ==> Traced(c, e, op) == [Hopped(Cooperative, s.channel, t.target, e.now)])
            && (t.coop == Armed ==> Step(c, e, op).coop == Quiet)
  {
    HandshakeFollows(c, boot, ops);
    EngineKeepsGoing(c, boot, ops);
    KnowsItsStory(c, boot, ops);
    HandshakeStep(c, Run(c, boot, ops), TalkOf(c, boot, ops), OpCommit(accept));
    hide Step, Run, TalkOf, StoryOf, Handshake, Progress, Solo;
  }

  // ----- When a handshake starts -----

  /** In every dated run of the full engine a handshake starts only from the degraded-link trigger, with the link up and awake,
      COOLDOWN_MS after the last hop of any kind and COOP_HOP_COOLDOWN_MS after the last cooperative one; and while these
      deadlines are at most 2^31 milliseconds in the past, the trigger does start it then. */
  lemma HandshakeStartsWhenSettled(c: Config, boot: nat, ops: seq<Op>, op: Op)
    requires ValidConfig(c) && boot < LIMIT && DatedRun(c, boot, ops)
    ensures var e, s, marks := Run(c, boot, ops), StoryOf(c, boot, ops), Trace(c, boot, ops);
            var starts := e.coop == Quiet && Step(c, e, op).coop != Quiet;
            var may := c.coop && op.OpDegraded? && e.coop == Quiet && s.up && s.awake
                       && Settled(c, e.now, marks) && CoopSettled(c, e.now, marks);
            && (starts ==> may && Step(c, e, op).coop == Offered && Step(c, e, op).work.offer)
            && (Recent(c, e.now, marks) ==> (starts <==> may))
  {
    var e, t, marks := Run(c, boot, ops), TalkOf(c, boot, ops), Trace(c, boot, ops);
    HandshakeFollows(c, boot, ops);
    EngineKeepsGoing(c, boot, ops);
    KnowsItsStory(c, boot, ops);
    ClocksKeepTime(c, boot, ops);
    HandshakeStep(c, e, t, op);
    CooldownRead(c, e, marks);
    if c.coop {
      CoopClockKeepsTime(c, boot, ops);
      CoopCooldownRead(c, e, marks);
    }
    assert e.active ==> e.linkUp;
    hide Inv, Step, Run, TalkOf, StoryOf, Trace, Cooling, CoopCooling, Settled, CoopSettled, Clocks, CoopTimed, Recent, Makes,
      GoodOffer, Stops, Fails, TargetAfter;
  }

  /** A deadline further back than half the range of the counter reads as ahead again. */
  lemma AheadAgain(start: nat, hold: nat, now: nat)
    requires start + hold + 0x8000_0000 < now < start + hold + 0x1_0000_0000
    ensures StillAhead(Wrap32(start + hold), Wrap32(now))
  {
  }

  // ----- When a hop is asked for -----

  /** A failure asks for a hop: the link is awake, and no offer is in flight to take the blame. */
  predicate AsksHop(op: Op, awake: bool, up: bool, inflight: bool) {
    Fails(op, up) && awake && !inflight
  }

  /** What a step does to the pending hop and to the fallback flag. */
  predicate Gate(c: Config, e: Engine, op: Op, d: Engine) {
    var asks := AsksHop(op, e.active, e.linkUp, e.offerFlag);
    && (d.work.hop <==> (e.work.hop && !op.OpHop?) || (op.OpRetry? && e.work.retry)
                        || (asks && (!Cooling(e) || FallbackDue(c, e))))
    && (d.fallback <==> (e.fallback && !op.OpHop? && !Drops(op)) || (asks && Cooling(e) && FallbackDue(c, e)))
  }

  lemma FailGate(c: Config, e: Engine)
    requires Handshake(e) && Solo(c, e)
    ensures var d, asks := TxFail(c, e), e.active && !e.offerFlag;
            && (d.work.hop <==> e.work.hop || (asks && (!Cooling(e) || FallbackDue(c, e))))
            && (d.fallback <==> e.fallback || (asks && Cooling(e) && FallbackDue(c, e)))
  {
    hide Wrap32, StillAhead;
  }

  lemma FailsGate(c: Config, e: Engine, op: Op)
    requires Inv(c, e) && Fails(op, e.linkUp)
    ensures Gate(c, e, op, Step(c, e, op))
  {
    if op.OpRequest? {
      RequestStep(c, e, op);
      FailGate(c, Requested(c, e));
    } else {
      FailStep(c, e, op);
      FailGate(c, e);
    }
    hide Step, TxFail, Legal, Progress, Wrap32, StillAhead;
  }

  lemma HopOpensGate(c: Config, e: Engine, draw: nat, accept: bool)
    ensures !Hop(c, e, draw, accept).work.hop && !Hop(c, e, draw, accept).fallback
  {
    hide Decide, Switches, Land;
    var g := Decide(c, e, draw);
    if g.Stay? {
    } else if Switches(e, g.target, accept) {
      LandSameGates(c, HopStarted(e), g.kind, g.target);
    } else {
    }
  }

  lemma HopGate(c: Config, e: Engine, op: Op)
    requires op.OpHop? && e.work.hop
    ensures Gate(c, e, op, Step(c, e, op))
  {
    hide Hop, Cooling, FallbackDue;
    HopOpensGate(c, e, op.draw, op.accept);
  }

  predicate SameGates(e: Engine, d: Engine) {
    d.work.hop == e.work.hop && d.fallback == e.fallback
  }

  lemma LandSameGates(c: Config, e: Engine, kind: Kind, target: nat)
    ensures SameGates(e, Land(c, e, kind, target))
  {
    hide Rewritten, Wrap32, NonZero, Clock;
  }

  lemma CommittedSameGates(c: Config, e: Engine, target: nat)
    ensures SameGates(e, Land(c, CommitStarted(c, e), Cooperative, target))
  {
    hide Land;
    LandSameGates(c, CommitStarted(c, e), Cooperative, target);
  }

  lemma CommitSameGates(c: Config, e: Engine, accept: bool)
    ensures SameGates(e, Commit(c, e, accept))
  {
    hide Land, Switches, CommitStarted;
    if e.coop != Armed {
    } else if e.target == INVALID || e.target == e.channel {
    } else if !Switches(e, e.target, accept) {
    } else {
      CommittedSameGates(c, e, e.target);
    }
  }

  /** The steps that leave the gate alone. */
  predicate OffGate(op: Op) {
    !op.OpHop? && !op.OpRetry? && !op.OpTxFail? && !op.OpRequest? && !Drops(op)
  }

  lemma OffSameGates(c: Config, e: Engine, op: Op)
    requires Inv(c, e) && OffGate(op)
    ensures SameGates(e, Step(c, e, op))
  {
    if Enabled(e, op) && !op.OpTick? && !op.OpTxSuccess? && !op.OpStart? && !op.OpDegraded? {
      if op.OpCommit? {
        CommitSameGates(c, e, op.accept);
        hide Commit;
      } else {
        StepKeeps(c, e, op);
        hide Step;
      }
    }
    hide Cooling, CoopCooling, Inv;
  }

  lemma OtherGate(c: Config, e: Engine, op: Op)
    requires Inv(c, e) && (e.fallback ==> e.work.hop) && !Fails(op, e.linkUp) && !(op.OpHop? && e.work.hop)
    ensures Gate(c, e, op, Step(c, e, op))
  {
    if OffGate(op) {
      OffSameGates(c, e, op);
      hide Step;
    } else if op.OpRequest? {
      RequestStep(c, e, op);
      hide Step;
    }
    hide Cooling, FallbackDue, Inv, TxFail;
  }

  lemma StepGate(c: Config, e: Engine, op: Op)
    requires Inv(c, e) && (e.fallback ==> e.work.hop)
    ensures Gate(c, e, op, Step(c, e, op)) && (Step(c, e, op).fallback ==> Step(c, e, op).work.hop)
  {
    if Fails(op, e.linkUp) {
      FailsGate(c, e, op);
    } else if op.OpHop? && e.work.hop {
      HopGate(c, e, op);
    } else {
      OtherGate(c, e, op);
    }
    hide Step, Inv, Cooling, FallbackDue;
  }

  lemma {:induction false} FallbackIsPending(c: Config, boot: nat, ops: seq<Op>)
    requires boot < LIMIT
    ensures Run(c, boot, ops).fallback ==> Run(c, boot, ops).work.hop
  {
    if ops != [] {
      var before := ops[..|ops| - 1];
      FallbackIsPending(c, boot, before);
      EngineKeepsGoing(c, boot, before);
      StepGate(c, Run(c, boot, before), ops[|ops| - 1]);
      hide Step, Inv, Gate;
    }
  }

  /** What a step does to the pending hop and the fallback flag, told by times. */
  predicate TimedGate(c: Config, e: Engine, marks: seq<Mark>, op: Op, asks: bool, retrying: bool) {
    var d, settled, hushed := Step(c, e, op), Settled(c, e.now, marks), Hushed(c, e.now, marks);
    var pending := (e.work.hop && !op.OpHop?) || (op.OpRetry? && retrying);
    var falling := e.fallback && !op.OpHop? && !Drops(op);
    && (d.work.hop ==> pending || (asks && (settled || hushed)))
    && (d.fallback ==> falling || (asks && hushed))
    && (Recent(c, e.now, marks) ==>
          && (d.work.hop <==> pending || (asks && (settled || hushed)))
          && (d.fallback <==> falling || (asks && !settled && hushed)))
  }

  lemma GateInTime(c: Config, e: Engine, marks: seq<Mark>, op: Op)
    requires ValidConfig(c) && Clocks(c, e, marks) && Gate(c, e, op, Step(c, e, op)) && (e.fallback ==> e.work.hop)
    ensures TimedGate(c, e, marks, op, AsksHop(op, e.active, e.linkUp, e.offerFlag), e.work.retry)
  {
    CooldownRead(c, e, marks);
    DueMeansHushed(c, e, marks);
    hide Step, Settled, Hushed, Cooling, FallbackDue, Clocks, Recent, AsksHop;
  }

  /** In every dated run, cooperative hops included, a hop is asked for by a failure that finds the link awake and no offer in
      flight, COOLDOWN_MS after the last hop, or RENDEZVOUS_FALLBACK_MS after the last news, or by the retry of a refused
      switch; the second way alone asks for the fallback to the rendezvous channel. While the deadlines are at most 2^31
      milliseconds in the past, such a failure does ask. */
  lemma HopsAreAskedFor(c: Config, boot: nat, ops: seq<Op>, op: Op)
    requires ValidConfig(c) && boot < LIMIT && DatedRun(c, boot, ops)
    ensures var s, t := StoryOf(c, boot, ops), TalkOf(c, boot, ops);
            TimedGate(c, Run(c, boot, ops), Trace(c, boot, ops), op, AsksHop(op, s.awake, s.up, t.inflight), s.retry)
  {
    var e := Run(c, boot, ops);
    HandshakeFollows(c, boot, ops);
    EngineKeepsGoing(c, boot, ops);
    KnowsItsStory(c, boot, ops);
    ClocksKeepTime(c, boot, ops);
    FallbackIsPending(c, boot, ops);
    StepGate(c, e, op);
    GateInTime(c, e, Trace(c, boot, ops), op);
    hide Step, Inv, Run, TalkOf, StoryOf, Trace, Clocks, Gate, TimedGate, AsksHop;
  }

  /** What the fallback test says about the silence. */
  lemma DueMeansHushed(c: Config, e: Engine, marks: seq<Mark>)
    requires ValidConfig(c) && Clocks(c, e, marks)
    ensures FallbackDue(c, e) ==> Hushed(c, e.now, marks)
    ensures !Settled(c, e.now, marks) && !e.fallback ==> (FallbackDue(c, e) <==> Hushed(c, e.now, marks))
  {
    var v := LastNews(marks);
    if v >= 0 {
      ElapsedSeen(v, e.now);
    }
    if !Settled(c, e.now, marks) {
      ElapsedExactly(v, e.now);
    }
  }

  /** The other side of that bound: more than 2^31 and less than 2^32 milliseconds after the cooldown ended, the engine takes it
      to run again. The degraded-link trigger starts nothing, and a failure asks for no hop but the fallback. */
  lemma CooldownReturns(c: Config, boot: nat, ops: seq<Op>)
    requires ValidConfig(c) && boot < LIMIT && DatedRun(c, boot, ops)
    requires var t, now := LastHop(Trace(c, boot, ops)), Run(c, boot, ops).now;
             0 <= t && t + c.cooldownMs + 0x8000_0000 < now < t + c.cooldownMs + 0x1_0000_0000
    ensures var e := Run(c, boot, ops);
            && Step(c, e, OpDegraded) == e
            && (Step(c, e, OpTxFail).work.hop ==> e.work.hop || Step(c, e, OpTxFail).fallback)
  {
    var e, t := Run(c, boot, ops), LastHop(Trace(c, boot, ops));
    hide Run, Trace, Inv, Step;
    ClocksKeepTime(c, boot, ops);
    AheadAgain(t, c.cooldownMs, e.now);
    assert Cooling(e);
    EngineKeepsGoing(c, boot, ops);
    CoolingIgnores(c, e);
  }

  lemma CoolingIgnores(c: Config, e: Engine)
    requires Inv(c, e) && Cooling(e)
    ensures Step(c, e, OpDegraded) == e
    ensures Step(c, e, OpTxFail).work.hop ==> e.work.hop || Step(c, e, OpTxFail).fallback
  {
    FailGate(c, e);
    FailStep(c, e, OpTxFail);
    hide TxFail, Legal, Progress, FallbackDue, CoopCooling, Wrap32, StillAhead;
  }
}
