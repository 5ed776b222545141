/** The channel-hop engine in the form the firmware gives it: static variables and work items that handlers
    update in place. Every method is proved equal to its step in `HopModel`. */
module HopEngine {
  import opened Words
  import opened HopModel
  import C = Channels
  import S = ChannelStore

  class Machine {
    const c: Config
    const boot: nat                // the rendezvous channel
    const quarantine: S.Store

    var now: nat
    var channel: nat               // the transport's channel, and whether the transport is configured
    var configured: bool
    var committed: nat
    var synced: bool
    var linkUp: bool
    var prev: nat
    var active: bool
    var burst: nat
    var sticky: nat
    var requests: nat
    var cooldownUntil: U32
    var lastEvent: U32
    var fallback: bool
    var coop: Coop
    var target: nat
    var serial: nat
    var offerFlag: bool
    var coopUntil: U32
    var work: Works

    ghost predicate Valid()
      reads quarantine, quarantine.expires
    {
      quarantine.Valid()
    }

    ghost function Abs(): Engine
      reads this, quarantine
    {
      Engine(now, channel, boot, configured, quarantine.view, committed, synced, linkUp, prev, active, burst, sticky,
             requests, cooldownUntil, lastEvent, fallback, coop, target, serial, offerFlag, coopUntil, work)
    }

    constructor (c: Config, boot: nat)
      ensures Valid() && Abs() == Init(boot) && this.c == c && fresh(quarantine) && fresh(quarantine.expires)
    {
      this.c, this.boot := c, boot;
      quarantine := new S.Store();
      now, channel, configured := 0, boot, false;
      committed, synced, linkUp, prev, active := INVALID, false, false, INVALID, false;
      burst, sticky, requests := 0, INVALID, 0;
      cooldownUntil, lastEvent, fallback := 0, 0, false;
      coop, target, serial, offerFlag, coopUntil := Quiet, INVALID, 0, false, 0;
      work := Works(false, false, false, false, false, false, false);
    }

    // ----- Tests -----

    predicate CooldownActive()
      reads this`cooldownUntil, this`now
    {
      cooldownUntil != 0 && StillAhead(cooldownUntil, Wrap32(now))
    }

    predicate CoopCooldownActive()
      reads this`coopUntil, this`now
    {
      coopUntil != 0 && StillAhead(coopUntil, Wrap32(now))
    }

    predicate StillUseful(ch: nat)
      requires Valid()
      reads this, quarantine, quarantine.expires
      ensures StillUseful(ch) == Useful(Abs(), ch)
    {
      ch != INVALID && ch != channel && !quarantine.IsHeld(ch, Wrap32(now))
    }

    /** pick_candidate. */
    method PickCandidate(draw: nat) returns (x: nat)
      requires Valid()
      ensures x == PickFresh(c, Abs(), draw)
    {
      x := quarantine.PickChannel(c.minDistance, channel, draw, Wrap32(now));
    }

    /** select_pending_candidate. */
    method SelectPending(draw: nat) returns (x: nat)
      requires Valid()
      modifies this`sticky
      ensures x == Sticky(c, old(Abs()), draw)
      ensures Valid() && Abs() == old(Abs()).(sticky := x)
    {
      if !StillUseful(sticky) {
        sticky := PickCandidate(draw);
      }
      x := sticky;
    }

    // ----- Link and activity -----

    method EnterActiveState()
      requires Valid()
      modifies this`active, this`work
      ensures Valid() && Abs() == EnterActive(old(Abs()))
    {
      if active {
        work := work.(idleCheck := true);
        return;
      }
      active := true;
      work := work.(idleCheck := true, negotiate := true);
    }

    method OnConnected()
      requires Valid()
      modifies this`linkUp, this`active, this`work
      ensures Valid() && Abs() == Connected(old(Abs()))
    {
      linkUp := true;
      EnterActiveState();
    }

    method NoteUserTx()
      requires Valid()
      modifies this`active, this`work
      ensures Valid() && Abs() == UserTx(old(Abs()))
    {
      if !linkUp {
        return;
      }
      EnterActiveState();
    }

    method AbortHandshake()
      requires Valid()
      modifies this`coop, this`offerFlag, this`work
      ensures Valid() && Abs() == Abort(old(Abs()))
    {
      work := work.(offer := false, commit := false);
      coop := Quiet;
      offerFlag := false;
    }

    method ForgetPeer()
      requires Valid()
      modifies this`committed, this`synced, this`prev, this`requests
      ensures Abs() == old(Abs()).(committed := INVALID, synced := false, prev := INVALID, requests := 0)
    {
      committed, synced, prev, requests := INVALID, false, INVALID, 0;
    }

    method ForgetDeadlines()
      requires Valid()
      modifies this`cooldownUntil, this`lastEvent, this`fallback, this`coopUntil
      ensures Abs() == old(Abs()).(cooldownUntil := 0, lastEvent := 0, fallback := false,
                                   coopUntil := if c.coop then 0 else old(coopUntil))
    {
      cooldownUntil, lastEvent, fallback := 0, 0, false;
      if c.coop {
        coopUntil := 0;
      }
    }

    method GoDown()
      requires Valid()
      modifies this`linkUp, this`active, this`burst, this`work
      ensures Abs() == old(Abs()).(linkUp := false, active := false, burst := 0, work := old(work).(
                         negotiate := false, idleCheck := false, burst := false, retry := false))
    {
      linkUp, active, burst := false, false, 0;
      work := work.(negotiate := false, idleCheck := false, burst := false, retry := false);
    }

    method OnDisconnected()
      requires Valid()
      modifies this
      ensures Valid() && Abs() == Disconnected(c, old(Abs()))
    {
      GoDown();
      ForgetPeer();
      ForgetDeadlines();
      if c.coop {
        AbortHandshake();
      }
    }

    method GoIdle()
      requires Valid()
      modifies this`active, this`work
      ensures Abs() == old(Abs()).(active := false, work := old(work).(negotiate := false, idleCheck := false))
    {
      active := false;
      work := work.(negotiate := false, idleCheck := false);
    }

    method OnIdleCheck()
      requires Valid()
      modifies this`active, this`coop, this`offerFlag, this`work
      ensures Valid() && Abs() == IdleCheck(c, old(Abs()))
    {
      hide Abort;
      if !linkUp || !active {
        work := work.(idleCheck := false);
      } else {
        GoIdle();
        if c.coop {
          AbortHandshake();
        }
      }
    }

    // ----- Negotiation -----

    /** The channel an active negotiation tick proposes, INVALID for none. */
    method Propose(draw: nat) returns (proposal: nat)
      requires Valid() && linkUp && active
      modifies this`synced
      ensures synced == (old(synced) && Useful(old(Abs()), committed))
      ensures proposal == Negotiated(c, old(Abs()), draw)
    {
      if committed == INVALID || quarantine.IsHeld(committed, Wrap32(now)) || committed == channel {
        proposal := PickCandidate(draw);
        synced := false;
      } else if !synced {
        proposal := committed;
      } else {
        proposal := INVALID;
      }
    }

    /** negotiate_work_fn; gives the channel it proposes, INVALID for none. */
    method OnNegotiate(draw: nat) returns (proposal: nat)
      requires Valid()
      modifies this`synced, this`requests, this`work
      ensures Valid() && Abs() == Negotiate(old(Abs()))
      ensures proposal == Negotiated(c, old(Abs()), draw)
    {
      if !linkUp {
        work := work.(negotiate := false);
        proposal := INVALID;
      } else if !active {
        work := work.(negotiate := true);
        proposal := INVALID;
      } else {
        proposal := Propose(draw);
        if requests > 0 {
          requests := requests - 1;
        }
        work := work.(negotiate := true);
      }
    }

    /** The candidate of a burst tick: what the peer confirmed, otherwise the one to stick to. */
    method BurstCandidate(draw: nat) returns (x: nat)
      requires Valid()
      modifies this`sticky
      ensures Abs() == old(Abs()).(sticky := if Useful(old(Abs()), committed) then old(sticky)
                                             else Sticky(c, old(Abs()), draw))
      ensures x == if Useful(old(Abs()), committed) then committed else Sticky(c, old(Abs()), draw)
    {
      if StillUseful(committed) {
        x := committed;
      } else {
        x := SelectPending(draw);
      }
    }

    /** What is left of the burst after a tick. */
    method BurstLeft()
      requires Valid() && burst > 0
      modifies this`burst, this`sticky, this`work
      ensures Valid() && Abs() == BurstTick(old(Abs()), old(sticky))
    {
      burst := burst - 1;
      if burst > 0 {
        work := work.(burst := true);
      } else {
        sticky := INVALID;
        work := work.(burst := false);
      }
    }

    predicate SideTripDue()
      reads this
    {
      var tick := c.burstCount - burst;
      c.sideTripEvery > 0 && tick > 0 && tick % c.sideTripEvery == 0 && boot != channel
    }

    method ProposeInBurst(draw: nat) returns (proposal: nat)
      requires Valid() && burst > 0
      modifies this`sticky
      ensures Abs() == old(Abs()).(sticky := if Useful(old(Abs()), committed) then old(sticky)
                                             else Sticky(c, old(Abs()), draw))
      ensures proposal == BurstProposal(c, old(Abs()), draw)
    {
      var candidate := BurstCandidate(draw);
      proposal := if SideTripDue() || synced then INVALID else candidate;
    }

    /** post_hop_burst_work_fn; gives the channel it proposes on the active channel, INVALID for none. */
    method OnBurst(draw: nat) returns (proposal: nat)
      requires Valid()
      modifies this`burst, this`sticky, this`work
      ensures Valid() && Abs() == Burst(c, old(Abs()), draw)
      ensures proposal == BurstProposal(c, old(Abs()), draw)
    {
      if burst == 0 {
        work := work.(burst := false);
        proposal := INVALID;
      } else {
        proposal := ProposeInBurst(draw);
        BurstLeft();
      }
    }

    // ----- Hopping -----

    method StartPostHopBurst()
      requires Valid()
      modifies this`burst, this`sticky, this`work
      ensures Abs() == StartBurst(c, old(Abs()))
    {
      if c.burstCount != 0 {
        burst := c.burstCount;
        sticky := INVALID;
        work := work.(burst := true);
      }
    }

    method Renegotiate()
      requires Valid()
      modifies this`committed, this`synced, this`work
      ensures Abs() == old(Abs()).(committed := INVALID, synced := false, work := old(work).(negotiate := true))
    {
      committed, synced := INVALID, false;
      work := work.(negotiate := true);
    }

    method ArmCooldown()
      requires Valid()
      modifies this`cooldownUntil, this`lastEvent
      ensures Abs() == old(Abs()).(cooldownUntil := Wrap32(now + c.cooldownMs), lastEvent := NonZero(Wrap32(now)))
    {
      cooldownUntil := Wrap32(now + c.cooldownMs);
      lastEvent := NonZero(Wrap32(now));
    }

    /** What both commit_hop_bookkeeping and the fallback end with. */
    method Bookkeep()
      requires Valid()
      modifies this`committed, this`synced, this`cooldownUntil, this`lastEvent, this`burst, this`sticky, this`work
      ensures Abs() == Settle(c, old(Abs()))
    {
      hide StartBurst;
      Renegotiate();
      ArmCooldown();
      StartPostHopBurst();
    }

    method Requarantine(kind: Kind, to: nat)
      requires Valid()
      modifies quarantine, quarantine.expires
      ensures Valid()
      ensures Abs() == old(Abs()).(expires := Rewritten(c, kind, old(Abs()).expires, channel, to, Wrap32(now)))
    {
      hide C.Add, C.Clear, Wrap32;
      if kind == Fallback || kind == Revert {
        quarantine.Release(to);
      }
      if kind != Fallback {
        quarantine.Hold(channel, if kind == Cooperative then c.coopQuarantineMs else c.quarantineMs, Wrap32(now));
      }
    }

    method Leave(kind: Kind, to: nat)
      requires Valid()
      modifies this`channel, this`prev
      ensures Abs() == old(Abs()).(channel := to, prev := if kind == Normal then old(channel) else INVALID)
    {
      prev := if kind == Normal then channel else INVALID;
      channel := to;
    }

    /** What follows a switch that the radio took. */
    method Arrive(kind: Kind, to: nat)
      requires Valid()
      modifies this`channel, this`prev, quarantine, quarantine.expires
      modifies this`committed, this`synced, this`cooldownUntil, this`lastEvent, this`burst, this`sticky, this`work
      ensures Valid() && Abs() == Land(c, old(Abs()), kind, to)
    {
      Requarantine(kind, to);
      Leave(kind, to);
      Bookkeep();
    }

    /** The target hop_work_fn decides on, before it touches anything but the fallback flag. */
    method ChooseTarget(draw: nat) returns (d: Decision)
      requires Valid()
      modifies this`fallback
      ensures d == Decide(c, old(Abs()), draw) && !fallback
    {
      if fallback {
        fallback := false;
        return if boot == channel then Stay else Go(Fallback, boot);
      }
      if prev != INVALID && prev != channel {
        return Go(Revert, prev);
      }
      if committed != INVALID && committed != channel {
        return Go(Normal, committed);
      }
      var pick := PickCandidate(draw);
      d := if pick == INVALID then Stay else Go(Normal, pick);
    }

    /** hop_work_fn; `accept` says whether the radio takes the channel switch. */
    method OnHop(draw: nat, accept: bool)
      requires Valid()
      modifies this`fallback, this`channel, this`prev, quarantine, quarantine.expires
      modifies this`committed, this`synced, this`cooldownUntil, this`lastEvent, this`burst, this`sticky, this`work
      ensures Valid() && Abs() == Hop(c, old(Abs()), draw, accept)
    {
      var d := ChooseTarget(draw);
      work := work.(hop := false);
      if d.Go? {
        if configured && accept && d.target < LIMIT {
          Arrive(d.kind, d.target);
        } else {
          work := work.(retry := true);
        }
      }
    }

    // ----- Cooperative hop -----

    method OnDegraded()
      requires Valid()
      modifies this`coop, this`work
      ensures Valid() && Abs() == Degraded(c, old(Abs()))
    {
      if !c.coop || !linkUp || !active || coop != Quiet || CooldownActive() || CoopCooldownActive() {
        return;
      }
      coop := Offered;
      work := work.(offer := true);
    }

    /** coop_hop_pick_target. */
    method PickOfferTarget(draw: nat) returns (t: nat)
      requires Valid()
      ensures t == OfferTarget(c, Abs(), draw)
    {
      if StillUseful(committed) {
        t := committed;
      } else {
        t := PickCandidate(draw);
      }
    }

    /** Sends an OFFER for `t`, if the transport takes it. */
    method SendOffer(t: nat, sent: bool)
      requires Valid()
      modifies this`coop, this`target, this`serial, this`offerFlag
      ensures Abs() == old(Abs()).(target := t, serial := (old(serial) + 1) % 256, offerFlag := sent,
                                   coop := if sent then old(coop) else Quiet)
    {
      target := t;
      serial := (serial + 1) % 256;
      offerFlag := sent;
      if !sent {
        coop := Quiet;
      }
    }

    /** coop_hop_offer_work_fn; `sent` says whether the transport takes the OFFER. */
    method OnOffer(draw: nat, sent: bool)
      requires Valid()
      modifies this`coop, this`target, this`serial, this`offerFlag, this`work
      ensures Abs() == Offer(c, old(Abs()), draw, sent)
    {
      var t := PickOfferTarget(draw);
      work := work.(offer := false);
      if !linkUp || !active {
        coop := Quiet;
      } else if coop == Offered {
        if t == INVALID || t == channel {
          coop := Quiet;
        } else {
          SendOffer(t, sent);
        }
      }
    }

    method FinishHandshake()
      requires Valid()
      modifies this`coop, this`coopUntil, this`work
      ensures Abs() == CommitStarted(c, old(Abs()))
    {
      coop := Quiet;
      coopUntil := Wrap32(now + c.coopCooldownMs);
      work := work.(commit := false);
    }

    /** The hop that both sides agreed on. */
    method HopTogether()
      requires Valid()
      modifies this`coop, this`coopUntil, this`work, this`channel, this`prev, quarantine, quarantine.expires
      modifies this`committed, this`synced, this`cooldownUntil, this`lastEvent, this`burst, this`sticky
      ensures Valid() && Abs() == Land(c, CommitStarted(c, old(Abs())), Cooperative, old(target))
    {
      hide Land, CommitStarted;
      FinishHandshake();
      Arrive(Cooperative, target);
    }

    /** The commit work when there is no hop: the handshake is over, or the radio refused, which schedules a retry. */
    method StandDown(accept: bool)
      requires Valid() && !Commits(Abs(), accept)
      modifies this`coop, this`work
      ensures Valid() && Abs() == Commit(c, old(Abs()), accept)
    {
      work := work.(commit := false);
      if coop == Armed {
        coop := Quiet;
        if target != INVALID && target != channel {
          work := work.(retry := true);
        }
      }
    }

    /** coop_hop_commit_work_fn. */
    method OnCommit(accept: bool)
      requires Valid()
      modifies this`coop, this`coopUntil, this`work, this`channel, this`prev, quarantine, quarantine.expires
      modifies this`committed, this`synced, this`cooldownUntil, this`lastEvent, this`burst, this`sticky
      ensures Valid() && Abs() == Commit(c, old(Abs()), accept)
    {
      hide Land, CommitStarted;
      if coop == Armed && target != INVALID && target != channel && configured && accept && target < LIMIT {
        HopTogether();
      } else {
        StandDown(accept);
      }
    }

    // ----- Events -----

    method Trigger()
      requires Valid()
      modifies this`fallback, this`work
      ensures Valid() && Abs() == HopTrigger(c, old(Abs()))
    {
      if !active {
        return;
      }
      if CooldownActive() {
        if c.fallbackMs > 0 && lastEvent != 0 && !fallback {
          var elapsed := Wrap32(Wrap32(now) - lastEvent);
          if elapsed >= c.fallbackMs {
            fallback := true;
            work := work.(hop := true);
          }
        }
        return;
      }
      work := work.(hop := true);
    }

    /** channel_hop_ep_on_tx_fail_isr. */
    method OnTxFail()
      requires Valid()
      modifies this`offerFlag, this`coop, this`fallback, this`work
      ensures Valid() && Abs() == TxFail(c, old(Abs()))
    {
      if c.coop && offerFlag {
        offerFlag := false;
        if coop == Offered {
          coop := Quiet;
          return;
        }
      }
      Trigger();
    }

    /** The acknowledgement of an OFFER arms the commit. */
    method ArmCommit()
      requires Valid()
      modifies this`offerFlag, this`coop, this`work
      ensures var e, arms := old(Abs()), c.coop && old(offerFlag) && old(coop) == Offered;
              Abs() == e.(offerFlag := e.offerFlag && !c.coop, coop := if arms then Armed else e.coop,
                          work := if arms then e.work.(commit := true) else e.work)
    {
      if c.coop && offerFlag {
        offerFlag := false;
        if coop == Offered {
          coop := Armed;
          work := work.(commit := true);
        }
      }
    }

    /** channel_hop_ep_on_tx_success_isr. */
    method OnTxSuccess()
      requires Valid()
      modifies this`offerFlag, this`coop, this`work, this`prev, this`lastEvent
      ensures Abs() == TxSuccess(c, old(Abs()))
    {
      ArmCommit();
      prev := INVALID;
      lastEvent := NonZero(Wrap32(now));
    }

    method SeedRequestBurst()
      requires Valid()
      modifies this`requests, this`synced, this`work
      ensures Abs() == old(Abs()).(requests := c.requestBurst, synced := false, work := old(work).(negotiate := true))
    {
      requests := c.requestBurst;
      synced := false;
      work := work.(negotiate := true);
    }

    /** channel_hop_ep_on_request. */
    method OnRequest()
      requires Valid()
      modifies this`requests, this`synced, this`offerFlag, this`coop, this`fallback, this`work
      ensures Abs() == Request(c, old(Abs()))
    {
      if linkUp {
        SeedRequestBurst();
        OnTxFail();
      }
    }

    /** channel_hop_ep_on_rx. */
    method OnRx(data: seq<U8>)
      requires Valid()
      modifies this`target, this`committed, this`synced, this`requests, this`work
      ensures Valid() && Abs() == Receive(c, old(Abs()), data)
    {
      if |data| >= 1 {
        if c.coop && data[0] == ACCEPT {
          if |data| >= 4 && data[3] == serial && (coop == Offered || coop == Armed) && data[1] < LIMIT {
            target := data[1];
          }
        } else if |data| >= 3 && data[0] == CONFIRM && data[1] < LIMIT {
          Confirm(data[1]);
        }
      }
    }

    /** A CONFIRM for a legal channel. */
    method Confirm(agreed: nat)
      requires Valid()
      modifies this`committed, this`synced, this`requests, this`work
      ensures Abs() == Confirmed(old(Abs()), agreed)
    {
      if committed == INVALID && linkUp && active {
        work := work.(negotiate := true);
      }
      committed, synced, requests := agreed, true, 0;
    }

    // ----- Retry and slots -----

    method OnRetry()
      requires Valid()
      modifies this`work
      ensures Abs() == Retry(old(Abs()))
    {
      work := work.(retry := false, hop := true);
    }

    method PassTime(ms: nat)
      requires Valid()
      modifies this`now
      ensures Abs() == old(Abs()).(now := old(now) + ms)
    {
      now := now + ms;
    }

    method StartSlot()
      requires Valid()
      modifies this`channel, this`configured
      ensures Abs() == old(Abs()).(channel := boot, configured := true)
    {
      channel, configured := boot, true;
    }

    method StopSlot()
      requires Valid()
      modifies this
      ensures Valid() && Abs() == Disconnected(c, old(Abs())).(configured := false)
    {
      OnDisconnected();
      configured := false;
    }

    /** A work item that runs, or not if it is not pending. */
    method RunWork(op: Op)
      requires Valid()
      requires op.OpNegotiate? || op.OpIdleCheck? || op.OpBurst? || op.OpRetry? || op.OpHop? || op.OpOffer? || op.OpCommit?
      modifies this, quarantine, quarantine.expires
      ensures Valid() && Abs() == Step(c, old(Abs()), op)
    {
      match op {
        case OpNegotiate(draw) => if work.negotiate { var _ := OnNegotiate(draw); }
        case OpIdleCheck => if work.idleCheck { OnIdleCheck(); }
        case OpBurst(draw) => if work.burst { var _ := OnBurst(draw); }
        case OpRetry => if work.retry { OnRetry(); }
        case OpHop(draw, accept) => if work.hop { OnHop(draw, accept); }
        case OpOffer(draw, sent) => if work.offer { OnOffer(draw, sent); }
        case OpCommit(accept) => if work.commit { OnCommit(accept); }
      }
    }

    /** Whatever happens next: the engine as implemented takes exactly the step of the model. */
    method Dispatch(op: Op)
      requires Valid()
      modifies this, quarantine, quarantine.expires
      ensures Valid() && Abs() == Step(c, old(Abs()), op)
    {
      match op {
        case OpTick(ms) => PassTime(ms);
        case OpConnected => OnConnected();
        case OpDisconnected => OnDisconnected();
        case OpUserTx => NoteUserTx();
        case OpReceive(data) => OnRx(data);
        case OpRequest => OnRequest();
        case OpTxFail => OnTxFail();
        case OpTxSuccess => OnTxSuccess();
        case OpDegraded => OnDegraded();
        case OpStop => StopSlot();
        case OpStart => StartSlot();
        case _ => RunWork(op);
      }
    }
  }
}
