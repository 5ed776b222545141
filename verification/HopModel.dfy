/** The endpoint's channel-hop engine as a transition system: work items are pending flags, and may run at
    any time once pending. `HopEngine.dfy` has the imperative form. */
module HopModel {
  import opened Words
  import C = Channels

  const LIMIT := 101        // channels are below this
  const INVALID := 0xFF
  const CONFIRM: U8 := 0x15
  const ACCEPT: U8 := 0x19

  /** The Kconfig constants, in milliseconds where they are times. A zero `fallbackMs` switches the rendezvous
      fallback off, a zero `sideTripEvery` the side-trips. */
  datatype Config = Config(
    minDistance: nat, quarantineMs: nat, cooldownMs: nat, fallbackMs: nat,
    burstCount: nat, sideTripEvery: nat, requestBurst: nat,
    coop: bool, coopQuarantineMs: nat, coopCooldownMs: nat)

  /** The build assertion on the fallback, and times far below the range of the wrap-safe comparison. */
  predicate ValidConfig(c: Config) {
    && (c.fallbackMs == 0 || c.fallbackMs < c.cooldownMs)
    && c.cooldownMs < 0x8000_0000 && c.coopCooldownMs < 0x8000_0000
  }

  datatype Coop = Quiet | Offered | Armed

  datatype Works = Works(
    negotiate: bool, idleCheck: bool, burst: bool, retry: bool, hop: bool, offer: bool, commit: bool)

  datatype Engine = Engine(
    now: nat,                 // uptime in milliseconds; the firmware sees it modulo 2^32
    channel: nat, boot: nat, configured: bool,
    expires: C.Expiries,
    committed: nat, synced: bool, linkUp: bool, prev: nat, active: bool,
    burst: nat, sticky: nat, requests: nat,
    cooldownUntil: U32, lastEvent: U32, fallback: bool,
    coop: Coop, target: nat, serial: nat, offerFlag: bool, coopUntil: U32,
    work: Works)

  function Clock(e: Engine): U32 {
    Wrap32(e.now)
  }

  function Init(boot: nat): Engine {
    Engine(0, boot, boot, false, C.NO_QUARANTINE, INVALID, false, false, INVALID, false, 0, INVALID, 0,
           0, 0, false, Quiet, INVALID, 0, false, 0, Works(false, false, false, false, false, false, false))
  }

  predicate Held(e: Engine, ch: nat) {
    C.Quarantined(e.expires, ch, Clock(e))
  }

  /** hop_cooldown_active; zero stands for "none". */
  predicate Cooling(e: Engine) {
    e.cooldownUntil != 0 && StillAhead(e.cooldownUntil, Clock(e))
  }

  predicate CoopCooling(e: Engine) {
    e.coopUntil != 0 && StillAhead(e.coopUntil, Clock(e))
  }

  function PickFresh(c: Config, e: Engine, draw: nat): nat {
    C.Pick(C.Band(e.expires, Clock(e), e.channel), c.minDistance, draw)
  }

  /** A channel that may still be proposed or offered: known, not the current one, not in quarantine. */
  predicate Useful(e: Engine, ch: nat) {
    ch != INVALID && ch != e.channel && !Held(e, ch)
  }

  // ----- Link and activity -----

  function EnterActive(e: Engine): Engine {
    e.(active := true, work := e.work.(idleCheck := true, negotiate := e.work.negotiate || !e.active))
  }

  function Connected(e: Engine): Engine {
    EnterActive(e.(linkUp := true))
  }

  function UserTx(e: Engine): Engine {
    if e.linkUp then EnterActive(e) else e
  }

  /** coop_hop_abort. */
  function Abort(e: Engine): Engine {
    e.(coop := Quiet, offerFlag := false, work := e.work.(offer := false, commit := false))
  }

  function LinkForgotten(c: Config, e: Engine): Engine {
    e.(linkUp := false, active := false, committed := INVALID, synced := false, prev := INVALID, burst := 0,
       cooldownUntil := 0, lastEvent := 0, fallback := false, requests := 0,
       coopUntil := if c.coop then 0 else e.coopUntil,
       work := e.work.(negotiate := false, idleCheck := false, burst := false, retry := false))
  }

  function Disconnected(c: Config, e: Engine): Engine {
    if c.coop then Abort(LinkForgotten(c, e)) else LinkForgotten(c, e)
  }

  function IdleCheck(c: Config, e: Engine): Engine {
    if !e.linkUp || !e.active then e.(work := e.work.(idleCheck := false))
    else
      var d := e.(active := false, work := e.work.(negotiate := false, idleCheck := false));
      if c.coop then Abort(d) else d
  }

  // ----- Negotiation -----

  /** What a negotiation tick proposes; INVALID if it sends nothing. */
  function Negotiated(c: Config, e: Engine, draw: nat): nat {
    if !e.linkUp || !e.active then INVALID
    else if !Useful(e, e.committed) then PickFresh(c, e, draw)
    else if !e.synced then e.committed
    else INVALID
  }

  function Negotiate(e: Engine): Engine {
    if !e.linkUp then e.(work := e.work.(negotiate := false))
    else if !e.active then e.(work := e.work.(negotiate := true))
    else e.(synced := e.synced && Useful(e, e.committed),
            requests := if e.requests > 0 then e.requests - 1 else 0,
            work := e.work.(negotiate := true))
  }

  /** select_pending_candidate: the burst sticks to its first pick while that stays useful. */
  function Sticky(c: Config, e: Engine, draw: nat): nat {
    if Useful(e, e.sticky) then e.sticky else PickFresh(c, e, draw)
  }

  /** Every so many ticks of a burst go to the rendezvous channel instead. */
  predicate SideTripTick(c: Config, e: Engine) {
    var tick := c.burstCount - e.burst;
    c.sideTripEvery > 0 && tick > 0 && tick % c.sideTripEvery == 0 && e.boot != e.channel
  }

  /** What a burst tick proposes on the active channel; INVALID if nothing. */
  function BurstProposal(c: Config, e: Engine, draw: nat): nat {
    if e.burst == 0 || SideTripTick(c, e) || e.synced then INVALID
    else if Useful(e, e.committed) then e.committed
    else Sticky(c, e, draw)
  }

  /** One tick of the burst, `sticky` being the candidate to stick to. */
  function BurstTick(e: Engine, sticky: nat): Engine {
    if e.burst == 0 then e.(work := e.work.(burst := false))
    else if e.burst > 1 then e.(burst := e.burst - 1, sticky := sticky, work := e.work.(burst := true))
    else e.(burst := 0, sticky := INVALID, work := e.work.(burst := false))
  }

  function Burst(c: Config, e: Engine, draw: nat): Engine {
    BurstTick(e, if Useful(e, e.committed) then e.sticky else Sticky(c, e, draw))
  }

  // ----- Hopping -----

  datatype Kind = Normal | Revert | Fallback | Cooperative

  datatype Decision = Stay | Go(kind: Kind, target: nat)

  /** What hop_work_fn decides before it touches the radio. */
  function Decide(c: Config, e: Engine, draw: nat): Decision {
    if e.fallback then
      if e.boot == e.channel then Stay else Go(Fallback, e.boot)
    else if e.prev != INVALID && e.prev != e.channel then Go(Revert, e.prev)
    else if e.committed != INVALID && e.committed != e.channel then Go(Normal, e.committed)
    else
      var pick := PickFresh(c, e, draw);
      if pick == INVALID then Stay else Go(Normal, pick)
  }

  /** esb_transport_set_channel succeeds. */
  predicate Switches(e: Engine, target: nat, accept: bool) {
    e.configured && accept && target < LIMIT
  }

  /** start_post_hop_burst. */
  function StartBurst(c: Config, e: Engine): Engine {
    if c.burstCount == 0 then e
    else e.(burst := c.burstCount, sticky := INVALID, work := e.work.(burst := true))
  }

  /** What every hop does after the switch: the committed channel is consumed, the cooldown armed, and the
      burst and the negotiation started. */
  function Settle(c: Config, e: Engine): Engine {
    StartBurst(c, e.(committed := INVALID, synced := false,
                     cooldownUntil := Wrap32(e.now + c.cooldownMs), lastEvent := NonZero(Clock(e)),
                     work := e.work.(negotiate := true)))
  }

  /** What a hop does to the quarantine: a revert or a fallback frees the channel it goes to, and every hop but a
      fallback holds the channel it leaves. */
  function Rewritten(c: Config, kind: Kind, x: C.Expiries, from: nat, to: nat, now: U32): C.Expiries {
    match kind
    case Normal => C.Add(x, from, c.quarantineMs, now)
    case Revert => C.Add(C.Clear(x, to), from, c.quarantineMs, now)
    case Fallback => C.Clear(x, to)
    case Cooperative => C.Add(x, from, c.coopQuarantineMs, now)
  }

  function Land(c: Config, e: Engine, kind: Kind, target: nat): Engine {
    Settle(c, e.(channel := target,
                 expires := Rewritten(c, kind, e.expires, e.channel, target, Clock(e)),
                 prev := if kind == Normal then e.channel else INVALID))
  }

  /** The engine a hop lands from. */
  function HopStarted(e: Engine): Engine {
    e.(fallback := false, work := e.work.(hop := false))
  }

  /** hop_work_fn. A refused switch keeps everything but the fallback flag, which is already consumed. */
  function Hop(c: Config, e: Engine, draw: nat, accept: bool): Engine {
    var d := HopStarted(e);
    match Decide(c, e, draw)
    case Stay => d
    case Go(kind, target) =>
      if Switches(e, target, accept) then Land(c, d, kind, target)
      else d.(work := d.work.(retry := true))
  }

  function Retry(e: Engine): Engine {
    e.(work := e.work.(retry := false, hop := true))
  }

  // ----- Cooperative hop -----

  function Degraded(c: Config, e: Engine): Engine {
    if !c.coop || !e.linkUp || !e.active || e.coop != Quiet || Cooling(e) || CoopCooling(e) then e
    else e.(coop := Offered, work := e.work.(offer := true))
  }

  function OfferTarget(c: Config, e: Engine, draw: nat): nat {
    if Useful(e, e.committed) then e.committed else PickFresh(c, e, draw)
  }

  /** coop_hop_offer_work_fn; `sent` is the verdict of the send. */
  function Offer(c: Config, e: Engine, draw: nat, sent: bool): Engine {
    var d := e.(work := e.work.(offer := false));
    if !e.linkUp || !e.active then d.(coop := Quiet)
    else if e.coop != Offered then d
    else
      var t := OfferTarget(c, e, draw);
      if t == INVALID || t == e.channel then d.(coop := Quiet)
      else
        var o := d.(target := t, serial := (e.serial + 1) % 256);
        if sent then o.(offerFlag := true) else o.(offerFlag := false, coop := Quiet)
  }

  /** The commit work hops. */
  predicate Commits(e: Engine, accept: bool) {
    e.coop == Armed && e.target != INVALID && e.target != e.channel && Switches(e, e.target, accept)
  }

  /** The engine a committed cooperative hop lands from. */
  function CommitStarted(c: Config, e: Engine): Engine {
    e.(coop := Quiet, coopUntil := Wrap32(e.now + c.coopCooldownMs), work := e.work.(commit := false))
  }

  function Commit(c: Config, e: Engine, accept: bool): Engine {
    var d := e.(work := e.work.(commit := false));
    if e.coop != Armed then d
    else if e.target == INVALID || e.target == e.channel then d.(coop := Quiet)
    else if !Switches(e, e.target, accept) then d.(coop := Quiet, work := d.work.(retry := true))
    else Land(c, CommitStarted(c, e), Cooperative, e.target)
  }

  // ----- Events -----

  /** The rendezvous fallback: the cooldown runs, and nothing good happened for long enough. */
  predicate FallbackDue(c: Config, e: Engine) {
    c.fallbackMs > 0 && e.lastEvent != 0 && !e.fallback && Wrap32(Clock(e) - e.lastEvent) >= c.fallbackMs
  }

  function HopTrigger(c: Config, e: Engine): Engine {
    if !e.active then e
    else if !Cooling(e) then e.(work := e.work.(hop := true))
    else if FallbackDue(c, e) then e.(fallback := true, work := e.work.(hop := true))
    else e
  }

  /** channel_hop_ep_on_tx_fail_isr: a lost offer ends the handshake and triggers nothing else. */
  function TxFail(c: Config, e: Engine): Engine {
    if c.coop && e.offerFlag && e.coop == Offered then e.(offerFlag := false, coop := Quiet)
    else HopTrigger(c, e.(offerFlag := e.offerFlag && !c.coop))
  }

  /** channel_hop_ep_on_tx_success_isr. */
  function TxSuccess(c: Config, e: Engine): Engine {
    var arms := c.coop && e.offerFlag && e.coop == Offered;
    e.(offerFlag := e.offerFlag && !c.coop,
       coop := if arms then Armed else e.coop,
       work := if arms then e.work.(commit := true) else e.work,
       prev := INVALID, lastEvent := NonZero(Clock(e)))
  }

  /** channel_hop_ep_on_request. */
  function Request(c: Config, e: Engine): Engine {
    if !e.linkUp then e
    else TxFail(c, e.(requests := c.requestBurst, synced := false, work := e.work.(negotiate := true)))
  }

  function Confirmed(e: Engine, agreed: nat): Engine {
    var slow := e.committed == INVALID && e.linkUp && e.active;
    e.(committed := agreed, synced := true, requests := 0, work := e.work.(negotiate := e.work.negotiate || slow))
  }

  /** channel_hop_ep_on_rx, for any received bytes. */
  function Receive(c: Config, e: Engine, data: seq<U8>): Engine {
    if |data| < 1 then e
    else if c.coop && data[0] == ACCEPT then
      if |data| < 4 || data[3] != e.serial || e.coop == Quiet || data[1] >= LIMIT then e
      else e.(target := data[1])
    else if |data| < 3 || data[0] != CONFIRM || data[1] >= LIMIT then e
    else Confirmed(e, data[1])
  }

  // ----- Steps -----

  datatype Op =
    | OpTick(ms: nat)
    | OpConnected
    | OpDisconnected
    | OpUserTx
    | OpReceive(data: seq<U8>)
    | OpRequest
    | OpTxFail
    | OpTxSuccess
    | OpDegraded
    | OpNegotiate(draw: nat)
    | OpIdleCheck
    | OpBurst(draw: nat)
    | OpRetry
    | OpHop(draw: nat, accept: bool)
    | OpOffer(draw: nat, sent: bool)
    | OpCommit(accept: bool)
    | OpStop                       // the slot stops: pairing_stop, then the transport is deconfigured
    | OpStart                      // the slot starts: set_addresses puts the radio on its boot channel

  /** A work item runs only while it is pending. */
  predicate Enabled(e: Engine, op: Op) {
    match op
    case OpNegotiate(_) => e.work.negotiate
    case OpIdleCheck => e.work.idleCheck
    case OpBurst(_) => e.work.burst
    case OpRetry => e.work.retry
    case OpHop(_, _) => e.work.hop
    case OpOffer(_, _) => e.work.offer
    case OpCommit(_) => e.work.commit
    case _ => true
  }

  function Step(c: Config, e: Engine, op: Op): Engine {
    if !Enabled(e, op) then e
    else
      match op
      case OpTick(ms) => e.(now := e.now + ms)
      case OpConnected => Connected(e)
      case OpDisconnected => Disconnected(c, e)
      case OpUserTx => UserTx(e)
      case OpReceive(data) => Receive(c, e, data)
      case OpRequest => Request(c, e)
      case OpTxFail => TxFail(c, e)
      case OpTxSuccess => TxSuccess(c, e)
      case OpDegraded => Degraded(c, e)
      case OpNegotiate(_) => Negotiate(e)
      case OpIdleCheck => IdleCheck(c, e)
      case OpBurst(draw) => Burst(c, e, draw)
      case OpRetry => Retry(e)
      case OpHop(draw, accept) => Hop(c, e, draw, accept)
      case OpOffer(draw, sent) => Offer(c, e, draw, sent)
      case OpCommit(accept) => Commit(c, e, accept)
      case OpStop => Disconnected(c, e).(configured := false)
      case OpStart => e.(channel := e.boot, configured := true)
  }

  function Run(c: Config, boot: nat, ops: seq<Op>): Engine {
    if ops == [] then Init(boot) else Step(c, Run(c, boot, ops[..|ops| - 1]), ops[|ops| - 1])
  }

  // ----- What a run is seen to do -----

  /** A hop, a TX success, or the link going down. */
  datatype Mark = Hopped(kind: Kind, from: nat, to: nat, at: nat) | Heard(at: nat) | Dropped

  /** What one step adds to the trace. */
  function Traced(c: Config, e: Engine, op: Op): seq<Mark> {
    if !Enabled(e, op) then []
    else
      match op
      case OpTxSuccess => [Heard(e.now)]
      case OpDisconnected => [Dropped]
      case OpStop => [Dropped]
      case OpHop(draw, accept) =>
        var d := Decide(c, e, draw);
        if d.Go? && Switches(e, d.target, accept) then [Hopped(d.kind, e.channel, d.target, e.now)] else []
      case OpCommit(accept) =>
        if Commits(e, accept) then [Hopped(Cooperative, e.channel, e.target, e.now)] else []
      case _ => []
  }

  function Trace(c: Config, boot: nat, ops: seq<Op>): seq<Mark> {
    if ops == [] then []
    else Trace(c, boot, ops[..|ops| - 1]) + Traced(c, Run(c, boot, ops[..|ops| - 1]), ops[|ops| - 1])
  }

  /** The channel the step proposes on the active channel, or INVALID. */
  function Proposed(c: Config, e: Engine, op: Op): nat {
    match op
    case OpNegotiate(draw) => if e.work.negotiate then Negotiated(c, e, draw) else INVALID
    case OpBurst(draw) => if e.work.burst then BurstProposal(c, e, draw) else INVALID
    case _ => INVALID
  }
}
