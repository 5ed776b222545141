/** What every run of the channel-hop engine keeps: legal channels, work items that cannot be forgotten, and
    a cooperative handshake that always has a next step. */
module HopProofs {
  import opened Words
  import opened HopModel
  import C = Channels

  // ----- Channels stay legal -----

  predicate LegalOrNone(ch: nat) {
    ch < LIMIT || ch == INVALID
  }

  predicate Legal(e: Engine) {
    && e.channel < LIMIT && e.boot < LIMIT
    && LegalOrNone(e.committed) && (e.synced ==> e.committed < LIMIT)
    && LegalOrNone(e.prev) && LegalOrNone(e.sticky) && LegalOrNone(e.target)
    && (!e.configured ==> e.prev == INVALID)
  }

  /** A pick is INVALID or a channel the engine may use. */
  lemma PickIsUseful(c: Config, e: Engine, draw: nat)
    ensures var x := PickFresh(c, e, draw); x == INVALID || (x < LIMIT && Useful(e, x))
  {
    C.PickIsOptimal(C.Band(e.expires, Clock(e), e.channel), c.minDistance, draw);
  }

  /** Every switch hop_work_fn asks for goes to a legal channel other than the current one. */
  lemma DecisionIsLegal(c: Config, e: Engine, draw: nat)
    requires Legal(e)
    ensures var d := Decide(c, e, draw); d.Go? ==> d.target < LIMIT && d.target != e.channel && d.kind != Cooperative
  {
    PickIsUseful(c, e, draw);
  }

  // ----- Work items and handshake -----

  predicate Handshake(e: Engine) {
    && (e.offerFlag ==> e.coop == Offered && e.target < LIMIT)
    && (e.coop == Offered ==> e.work.offer != e.offerFlag)
    && (e.work.offer ==> e.coop == Offered)
    && (e.coop == Armed ==> e.work.commit)
    && (e.coop != Quiet ==> e.active)
  }

  predicate Progress(e: Engine) {
    && (e.active ==> e.linkUp && e.work.negotiate && e.work.idleCheck)
    && (e.burst > 0 ==> e.work.burst)
  }

  /** Without cooperative hops compiled in, no handshake ever starts. */
  predicate Solo(c: Config, e: Engine) {
    !c.coop ==> e.coop == Quiet && !e.offerFlag && !e.work.offer && !e.work.commit
  }

  predicate Inv(c: Config, e: Engine) {
    Legal(e) && Handshake(e) && Progress(e) && Solo(c, e)
  }

  /** What only time, a hop, a TX success, the link going down or a slot change may touch. */
  predicate SamePlace(e: Engine, d: Engine) {
    && d.now == e.now && d.channel == e.channel && d.prev == e.prev && d.expires == e.expires
    && d.cooldownUntil == e.cooldownUntil && d.lastEvent == e.lastEvent && d.coopUntil == e.coopUntil
  }

  /** What only the hop trigger, a hop or its retry, or the degraded-link trigger may touch. */
  predicate SameGate(e: Engine, d: Engine) {
    && d.work.hop == e.work.hop && d.work.retry == e.work.retry && d.fallback == e.fallback
    && (d.coop != Quiet ==> e.coop != Quiet)
  }

  lemma EnterKeeps(c: Config, e: Engine)
    requires Inv(c, e) && e.linkUp
    ensures Inv(c, EnterActive(e)) && SamePlace(e, EnterActive(e)) && SameGate(e, EnterActive(e))
  {
  }

  lemma LinkUpKeeps(c: Config, e: Engine)
    requires Inv(c, e)
    ensures var d := e.(linkUp := true); Inv(c, d) && SamePlace(e, d) && SameGate(e, d)
  {
  }

  lemma UserTxKeeps(c: Config, e: Engine)
    requires Inv(c, e)
    ensures Inv(c, Connected(e)) && SamePlace(e, Connected(e)) && SameGate(e, Connected(e))
    ensures Inv(c, UserTx(e)) && SamePlace(e, UserTx(e)) && SameGate(e, UserTx(e))
  {
    LinkUpKeeps(c, e);
    EnterKeeps(c, e.(linkUp := true));
    SameAsBefore(e);
    hide Inv, EnterActive;
    if e.linkUp {
      EnterKeeps(c, e);
    }
  }

  lemma DisconnectedKeeps(c: Config, e: Engine)
    requires Inv(c, e)
    ensures Inv(c, Disconnected(c, e)) && Disconnected(c, e).prev == INVALID
    ensures Disconnected(c, e).expires == e.expires && Disconnected(c, e).now == e.now
  {
  }

  lemma IdleCheckKeeps(c: Config, e: Engine)
    requires Inv(c, e)
    ensures Inv(c, IdleCheck(c, e)) && SamePlace(e, IdleCheck(c, e)) && SameGate(e, IdleCheck(c, e))
  {
    if !e.active {
    } else if c.coop {
    } else {
    }
  }

  lemma NegotiateKeeps(c: Config, e: Engine)
    requires Inv(c, e)
    ensures Inv(c, Negotiate(e)) && SamePlace(e, Negotiate(e)) && SameGate(e, Negotiate(e))
  {
    if !e.linkUp {
    } else if !e.active {
    } else {
    }
  }

  lemma StickyLegal(c: Config, e: Engine, draw: nat)
    requires Legal(e)
    ensures LegalOrNone(Sticky(c, e, draw))
  {
    PickIsUseful(c, e, draw);
  }

  lemma BurstKeeps(c: Config, e: Engine, sticky: nat)
    requires Inv(c, e) && LegalOrNone(sticky)
    ensures Inv(c, BurstTick(e, sticky)) && SamePlace(e, BurstTick(e, sticky)) && SameGate(e, BurstTick(e, sticky))
  {
    if e.burst == 0 {
    } else if e.burst > 1 {
    } else {
    }
  }

  lemma AcceptKeeps(c: Config, e: Engine, target: nat)
    requires Inv(c, e) && target < LIMIT
    ensures var d := e.(target := target); Inv(c, d) && SamePlace(e, d) && SameGate(e, d)
  {
  }

  lemma ConfirmKeeps(c: Config, e: Engine, agreed: nat)
    requires Inv(c, e) && agreed < LIMIT
    ensures var d := Confirmed(e, agreed); Inv(c, d) && SamePlace(e, d) && SameGate(e, d)
  {
  }

  lemma ReceiveKeeps(c: Config, e: Engine, data: seq<U8>)
    requires Inv(c, e)
    ensures Inv(c, Receive(c, e, data)) && SamePlace(e, Receive(c, e, data)) && SameGate(e, Receive(c, e, data))
  {
    hide Inv, Confirmed;
    if |data| < 1 {
    } else if c.coop && data[0] == ACCEPT {
      if |data| < 4 || data[3] != e.serial || e.coop == Quiet || data[1] >= LIMIT {
      } else {
        AcceptKeeps(c, e, data[1]);
      }
    } else if |data| < 3 || data[0] != CONFIRM || data[1] >= LIMIT {
    } else {
      ConfirmKeeps(c, e, data[1]);
    }
  }

  lemma HopTriggerKeeps(c: Config, e: Engine)
    requires Inv(c, e)
    ensures Inv(c, HopTrigger(c, e)) && SamePlace(e, HopTrigger(c, e))
  {
    if !e.active {
    } else if !Cooling(e) {
    } else if FallbackDue(c, e) {
    } else {
    }
  }

  lemma TxFailKeeps(c: Config, e: Engine)
    requires Inv(c, e)
    ensures Inv(c, TxFail(c, e)) && SamePlace(e, TxFail(c, e))
  {
    if c.coop && e.offerFlag {
    } else {
      HopTriggerKeeps(c, e.(offerFlag := e.offerFlag && !c.coop));
    }
  }

  lemma RequestKeeps(c: Config, e: Engine)
    requires Inv(c, e)
    ensures Inv(c, Request(c, e)) && SamePlace(e, Request(c, e))
  {
    if e.linkUp {
      TxFailKeeps(c, e.(requests := c.requestBurst, synced := false, work := e.work.(negotiate := true)));
    }
  }

  lemma TxSuccessKeeps(c: Config, e: Engine)
    requires Inv(c, e)
    ensures Inv(c, TxSuccess(c, e))
  {
  }

  lemma DegradedKeeps(c: Config, e: Engine)
    requires Inv(c, e)
    ensures Inv(c, Degraded(c, e)) && SamePlace(e, Degraded(c, e))
  {
  }

  lemma OfferKeeps(c: Config, e: Engine, draw: nat, sent: bool)
    requires Inv(c, e) && e.work.offer
    ensures Inv(c, Offer(c, e, draw, sent)) && SamePlace(e, Offer(c, e, draw, sent)) && SameGate(e, Offer(c, e, draw, sent))
  {
    PickIsUseful(c, e, draw);
    var t := OfferTarget(c, e, draw);
    if t == INVALID || t == e.channel {
    } else if sent {
    } else {
    }
  }

  lemma LandKeeps(c: Config, e: Engine, kind: Kind, target: nat)
    requires Inv(c, e) && e.configured && target < LIMIT
    ensures Inv(c, Land(c, e, kind, target))
  {
  }

  lemma HopKeeps(c: Config, e: Engine, draw: nat, accept: bool)
    requires Inv(c, e)
    ensures Inv(c, Hop(c, e, draw, accept))
  {
    DecisionIsLegal(c, e, draw);
    var d := HopStarted(e);
    match Decide(c, e, draw) {
      case Stay =>
      case Go(kind, target) =>
        if Switches(e, target, accept) {
          LandKeeps(c, d, kind, target);
        }
    }
  }

  lemma CommitKeeps(c: Config, e: Engine, accept: bool)
    requires Inv(c, e)
    ensures Inv(c, Commit(c, e, accept))
  {
    if e.coop != Armed {
    } else if e.target == INVALID || e.target == e.channel {
    } else if !Switches(e, e.target, accept) {
    } else {
      LandKeeps(c, CommitStarted(c, e), Cooperative, e.target);
    }
  }

  /** What one step leaves alone. Only time passing, a radio success, a hop, the link going down or a slot move
      the engine's place; only these and the hop triggers touch what gates a hop. */
  predicate Local(e: Engine, op: Op, d: Engine) {
    match op
    case OpTick(_) => true
    case OpDisconnected => true
    case OpTxSuccess => true
    case OpHop(_, _) => true
    case OpCommit(_) => true
    case OpStop => true
    case OpStart => true
    case OpTxFail => SamePlace(e, d)
    case OpRequest => SamePlace(e, d)
    case OpDegraded => SamePlace(e, d)
    case OpRetry => SamePlace(e, d)
    case _ => SamePlace(e, d) && SameGate(e, d)
  }

  lemma TickKeeps(c: Config, e: Engine, ms: nat)
    requires Inv(c, e)
    ensures Inv(c, e.(now := e.now + ms))
  {
  }

  lemma RetryKeeps(c: Config, e: Engine)
    requires Inv(c, e)
    ensures Inv(c, Retry(e)) && SamePlace(e, Retry(e))
  {
  }

  lemma StartKeeps(c: Config, e: Engine)
    requires Inv(c, e)
    ensures Inv(c, e.(channel := e.boot, configured := true))
  {
  }

  lemma StopKeeps(c: Config, e: Engine)
    requires Inv(c, e)
    ensures Inv(c, Disconnected(c, e).(configured := false))
  {
    DisconnectedKeeps(c, e);
    hide Disconnected;
  }

  lemma BurstStepKeeps(c: Config, e: Engine, draw: nat)
    requires Inv(c, e)
    ensures Inv(c, Burst(c, e, draw)) && SamePlace(e, Burst(c, e, draw)) && SameGate(e, Burst(c, e, draw))
  {
    StickyLegal(c, e, draw);
    BurstKeeps(c, e, if Useful(e, e.committed) then e.sticky else Sticky(c, e, draw));
    hide BurstTick, Sticky, Useful;
  }

  lemma StepKeeps(c: Config, e: Engine, op: Op)
    requires Inv(c, e)
    ensures Inv(c, Step(c, e, op)) && Local(e, op, Step(c, e, op))
  {
    SameAsBefore(e);
    hide Inv, SamePlace, SameGate, Connected, UserTx, Disconnected, Receive, Request, TxFail, TxSuccess, Degraded, Negotiate,
      IdleCheck, Burst, Hop, Offer, Commit, Retry;
    if Enabled(e, op) {
      match op {
        case OpConnected => UserTxKeeps(c, e);
        case OpDisconnected => DisconnectedKeeps(c, e);
        case OpUserTx => UserTxKeeps(c, e);
        case OpReceive(data) => ReceiveKeeps(c, e, data);
        case OpRequest => RequestKeeps(c, e);
        case OpTxFail => TxFailKeeps(c, e);
        case OpTxSuccess => TxSuccessKeeps(c, e);
        case OpDegraded => DegradedKeeps(c, e);
        case OpNegotiate(_) => NegotiateKeeps(c, e);
        case OpIdleCheck => IdleCheckKeeps(c, e);
        case OpBurst(draw) => BurstStepKeeps(c, e, draw);
        case OpHop(draw, accept) => HopKeeps(c, e, draw, accept);
        case OpOffer(draw, sent) => OfferKeeps(c, e, draw, sent);
        case OpCommit(accept) => CommitKeeps(c, e, accept);
        case OpStop => StopKeeps(c, e);
        case OpTick(ms) => TickKeeps(c, e, ms);
        case OpRetry => RetryKeeps(c, e);
        case OpStart => StartKeeps(c, e);
      }
    }
  }

  /** A step that is not enabled changes nothing. */
  lemma SameAsBefore(e: Engine)
    ensures SamePlace(e, e) && SameGate(e, e)
  {
  }

  /** In every run: channels are legal, an offer in flight means an offered handshake with a legal target, an
      offered handshake has its offer pending or in flight, an armed one its commit, an active engine has its
      link up and its negotiation and idle check pending, and a burst under way has its next tick pending. */
  lemma {:induction false} EngineKeepsGoing(c: Config, boot: nat, ops: seq<Op>)
    requires boot < LIMIT
    ensures Inv(c, Run(c, boot, ops))
  {
    if ops != [] {
      EngineKeepsGoing(c, boot, ops[..|ops| - 1]);
      StepKeeps(c, Run(c, boot, ops[..|ops| - 1]), ops[|ops| - 1]);
    }
  }

  /** Against arbitrary received bytes, in every run, a proposal on the active channel names a legal channel
      that is not the current one and not in quarantine. */
  lemma ProposalsAreUseful(c: Config, boot: nat, ops: seq<Op>, op: Op)
    requires boot < LIMIT
    ensures var e := Run(c, boot, ops);
            var x := Proposed(c, e, op);
            x != INVALID ==> x < LIMIT && x != e.channel && !Held(e, x)
  {
    EngineKeepsGoing(c, boot, ops);
    UsefulProposal(c, Run(c, boot, ops), op);
  }

  lemma UsefulProposal(c: Config, e: Engine, op: Op)
    requires Legal(e)
    ensures var x := Proposed(c, e, op); x != INVALID ==> x < LIMIT && x != e.channel && !Held(e, x)
  {
    match op {
      case OpNegotiate(draw) => PickIsUseful(c, e, draw);
      case OpBurst(draw) => PickIsUseful(c, e, draw);
      case _ =>
    }
  }
}
