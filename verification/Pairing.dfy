/** Pairing: one keyboard and one dongle that exchange packets over a link that loses, duplicates and reorders
    them. The keyboard keeps its peer in settings storage, the dongle only in memory. */
module Pairing {
  import opened Words

  /** A FICR device id. */
  type Id = d: seq<U8> | |d| == 6 witness [0, 0, 0, 0, 0, 0]

  const NO_ID: Id := [0, 0, 0, 0, 0, 0]

  // ----- Packets -----

  datatype Message =
    | Beacon(id: Id) | PairReq(id: Id) | PairResp(id: Id)
    | VerifyReq(id: Id) | VerifyResp(id: Id)
    | Disconnect | Resync
    | Other                  // anything else, malformed packets included

  const CAPS: U8 := 7

  function Encode(m: Message): seq<U8> {
    match m
    case Beacon(id) => [0x01] + id + [CAPS]
    case PairReq(id) => [0x02] + id
    case PairResp(id) => [0x03] + id + [CAPS]
    case VerifyReq(id) => [0x10] + id
    case VerifyResp(id) => [0x11] + id
    case Disconnect => [0x07]
    case Resync => [0x13]
    case Other => []
  }

  /** How both ends read a received packet: by its first byte, dropping it if it is shorter than its struct. */
  function Decode(data: seq<U8>): Message {
    if |data| < 1 then Other
    else if data[0] == 0x07 then Disconnect
    else if data[0] == 0x13 then Resync
    else if |data| < 7 then Other
    else if data[0] == 0x02 then PairReq(data[1..7])
    else if data[0] == 0x10 then VerifyReq(data[1..7])
    else if data[0] == 0x11 then VerifyResp(data[1..7])
    else if |data| < 8 then Other
    else if data[0] == 0x01 then Beacon(data[1..7])
    else if data[0] == 0x03 then PairResp(data[1..7])
    else Other
  }

  lemma IdInside(kind: U8, id: Id, rest: seq<U8>)
    ensures ([kind] + id + rest)[1..7] == id
  {
    var data := [kind] + id + rest;
    forall i | 0 <= i < 6
      ensures data[1..7][i] == id[i]
    {
      assert data[i + 1] == id[i];
    }
  }

  /** Every packet is read as what was sent. */
  lemma RoundTrip(m: Message)
    ensures Decode(Encode(m)) == m
  {
    match m {
      case Beacon(id) => IdInside(0x01, id, [CAPS]);
      case PairReq(id) =>
        IdInside(0x02, id, []);
        assert [0x02] + id + [] == Encode(m);
      case PairResp(id) => IdInside(0x03, id, [CAPS]);
      case VerifyReq(id) =>
        IdInside(0x10, id, []);
        assert [0x10] + id + [] == Encode(m);
      case VerifyResp(id) =>
        IdInside(0x11, id, []);
        assert [0x11] + id + [] == Encode(m);
      case _ =>
    }
  }

  // ----- The keyboard -----

  datatype KbState = Idle | Unpaired | Verifying | Connected

  datatype Record = NoRecord | Record(paired: bool, id: Id)

  /** `beacon` and `verify` say whether the work items are scheduled; `stored` is the settings record. */
  datatype Keyboard = Keyboard(
    me: Id, state: KbState, peer: Id, hasPeer: bool, stored: Record, beacon: bool, verify: bool)

  /** save_paired. */
  function Saved(k: Keyboard, paired: bool): Record {
    Record(paired, if paired then k.peer else NO_ID)
  }

  /** pairing_init after a reset: memory is zero but for what the settings hold. */
  function KbBoot(me: Id, stored: Record): Keyboard {
    Keyboard(me, Idle, if stored.Record? then stored.id else NO_ID, stored.Record? && stored.paired, stored, false, false)
  }

  function Start(k: Keyboard): Keyboard {
    if k.hasPeer then k.(state := Verifying, verify := true) else k.(state := Unpaired, beacon := true)
  }

  function Stop(k: Keyboard): Keyboard {
    k.(state := Idle, beacon := false, verify := false)
  }

  /** What unpairing and a DISCONNECT have in common. */
  function Forget(k: Keyboard): Keyboard {
    k.(hasPeer := false, peer := NO_ID, stored := Record(false, NO_ID), verify := false)
  }

  function Unpair(k: Keyboard): Keyboard {
    var f := Forget(k);
    if k.state == Idle then f else f.(state := Unpaired, beacon := true)
  }

  /** A step of the keyboard and what it sends. */
  datatype KbTurn = KbTurn(k: Keyboard, out: seq<Message>)

  function BeaconWork(k: Keyboard): KbTurn {
    if k.state != Unpaired then KbTurn(k.(beacon := false), [])
    else KbTurn(k.(beacon := true), [Beacon(k.me)])
  }

  function VerifyWork(k: Keyboard): KbTurn {
    if k.state != Verifying then KbTurn(k.(verify := false), [])
    else KbTurn(k.(verify := true), [VerifyReq(k.me)])
  }

  /** pairing_on_rx. */
  function KbReceive(k: Keyboard, m: Message): KbTurn {
    match m
    case PairReq(id) =>
      if k.state != Unpaired then KbTurn(k, [])
      else
        var p := k.(peer := id, beacon := false, hasPeer := true, state := Connected);
        KbTurn(p.(stored := Saved(p, true)), [PairResp(k.me)])
    case VerifyResp(id) =>
      if k.state == Verifying && id == k.peer then KbTurn(k.(verify := false, state := Connected), [])
      else KbTurn(k, [])
    case Disconnect => KbTurn(Forget(k).(state := Unpaired, beacon := true), [])
    case Resync =>
      if k.state == Connected then KbTurn(k.(state := Verifying, verify := true), []) else KbTurn(k, [])
    case _ => KbTurn(k, [])
  }

  // ----- The dongle -----

  datatype DongleState = Listening | Pairing | Linked | Checking

  datatype Dongle = Dongle(me: Id, state: DongleState, peer: Id, hasPeer: bool)

  function DongleBoot(me: Id): Dongle {
    Dongle(me, Listening, NO_ID, false)
  }

  datatype DongleTurn = DongleTurn(d: Dongle, out: seq<Message>)

  predicate Knows(d: Dongle, id: Id) {
    d.hasPeer && id == d.peer
  }

  /** The receive loop of esb_evt_handler. */
  function DongleReceive(d: Dongle, m: Message): DongleTurn {
    match m
    case Beacon(id) =>
      if d.state != Listening then DongleTurn(d, [])
      else DongleTurn(d.(peer := id, hasPeer := true, state := Pairing), [PairReq(d.me)])
    case PairResp(_) => DongleTurn(if d.state == Pairing then d.(state := Linked) else d, [])
    case VerifyReq(id) =>
      if Knows(d, id) then DongleTurn(d.(state := Checking), [VerifyResp(d.me)]) else DongleTurn(d, [Disconnect])
    case Disconnect => DongleTurn(d.(state := Listening), [])
    case _ => DongleTurn(d, [])
  }

  /** HID reports reach the host. */
  predicate Forwards(d: Dongle) {
    d.state == Linked || d.state == Checking
  }

  // ----- The system -----

  /** Every packet ever sent may be delivered at any time, any number of times, or never. */
  datatype System = System(k: Keyboard, d: Dongle, toKb: set<Message>, toDongle: set<Message>)

  datatype Op =
    | KStart | KStop | KUnpair | KReboot
    | KBeacon | KVerify
    | KReceive(data: seq<U8>)
    | DReceive(data: seq<U8>)
    | DOther(data: seq<U8>)      // a VERIFY_REQ of another keyboard, which gets the answer
    | DReboot

  /** What can be delivered: what the other end sent, and packets of other kinds. */
  predicate Deliverable(sent: set<Message>, data: seq<U8>) {
    Decode(data) in sent || Decode(data) == Other
  }

  /** What else can reach the keyboard: RESYNC, which other firmware for the dongle sends, and a VERIFY_RESP of some other
      dongle. */
  predicate Strange(dongle: Id, data: seq<U8>) {
    var m := Decode(data);
    m == Resync || (m.VerifyResp? && m.id != dongle)
  }

  predicate Enabled(s: System, op: Op) {
    match op
    case KBeacon => s.k.beacon
    case KVerify => s.k.verify
    case KReceive(data) => Deliverable(s.toKb, data) || Strange(s.d.me, data)
    case DReceive(data) => Deliverable(s.toDongle, data) || Decode(data) == Disconnect  // from other firmware
    case DOther(data) => Decode(data).VerifyReq? && Decode(data).id != s.k.me
    case _ => true
  }

  function Messages(out: seq<Message>): set<Message> {
    set m | m in out
  }

  function AfterKb(s: System, turn: KbTurn): System {
    s.(k := turn.k, toDongle := s.toDongle + Messages(turn.out))
  }

  function AfterDongle(s: System, turn: DongleTurn): System {
    s.(d := turn.d, toKb := s.toKb + Messages(turn.out))
  }

  function Step(s: System, op: Op): System {
    if !Enabled(s, op) then s
    else
      match op
      case KStart => s.(k := Start(s.k))
      case KStop => s.(k := Stop(s.k))
      case KUnpair => s.(k := Unpair(s.k))
      case KReboot => s.(k := KbBoot(s.k.me, s.k.stored))
      case KBeacon => AfterKb(s, BeaconWork(s.k))
      case KVerify => AfterKb(s, VerifyWork(s.k))
      case KReceive(data) => AfterKb(s, KbReceive(s.k, Decode(data)))
      case DReceive(data) => AfterDongle(s, DongleReceive(s.d, Decode(data)))
      case DOther(data) => s.(d := DongleReceive(s.d, Decode(data)).d)
      case DReboot => s.(d := DongleBoot(s.d.me))
  }

  function Run(kb: Id, dongle: Id, ops: seq<Op>): System {
    if ops == [] then System(KbBoot(kb, NoRecord), DongleBoot(dongle), {}, {})
    else Step(Run(kb, dongle, ops[..|ops| - 1]), ops[|ops| - 1])
  }

  // ----- What every run keeps, dongle reboots included -----

  /** Packets name their sender. */
  ghost predicate Honest(s: System) {
    && (forall m | m in s.toKb :: m == PairReq(s.d.me) || m == VerifyResp(s.d.me) || m == Disconnect)
    && (forall m | m in s.toDongle :: m == Beacon(s.k.me) || m == PairResp(s.k.me) || m == VerifyReq(s.k.me))
  }

  /** The keyboard's memory and its storage agree, and so do its state and its peer. */
  predicate Settled(k: Keyboard, dongle: Id) {
    && k.hasPeer == (k.stored.Record? && k.stored.paired)
    && (k.hasPeer ==> k.peer == dongle && k.stored.id == dongle)
    && (k.state == Connected || k.state == Verifying ==> k.hasPeer)
    && (k.state == Unpaired ==> k.beacon && !k.hasPeer)
    && (k.state == Verifying ==> k.verify)
  }

  ghost predicate Sound(s: System) {
    Honest(s) && Settled(s.k, s.d.me) && (s.d.hasPeer ==> s.d.peer == s.k.me)
  }

  lemma KbStepSound(s: System, op: Op)
    requires Sound(s) && !op.DReceive? && !op.DOther? && !op.DReboot?
    ensures Sound(Step(s, op)) && Step(s, op).d == s.d && Step(s, op).toKb == s.toKb && Step(s, op).k.me == s.k.me
  {
    if Enabled(s, op) && op.KReceive? {
      var m := Decode(op.data);
      assert m in s.toKb || m == Other || Strange(s.d.me, op.data);
    }
  }

  lemma DongleStepSound(s: System, op: Op)
    requires Sound(s) && (op.DReceive? || op.DOther? || op.DReboot?)
    ensures Sound(Step(s, op)) && Step(s, op).k == s.k && Step(s, op).toDongle == s.toDongle && Step(s, op).d.me == s.d.me
  {
    if Enabled(s, op) && op.DReceive? {
      var m := Decode(op.data);
      assert m in s.toDongle || m == Other || m == Disconnect;
    }
  }

  /** In every run, dongle reboots included: the keyboard is connected only to this dongle, what it stores is this
      dongle's id, the dongle knows no keyboard but this one, and a keyboard that beacons or verifies has the work
      item that does so scheduled. */
  lemma {:induction false} IdentitiesAgree(kb: Id, dongle: Id, ops: seq<Op>)
    ensures var s := Run(kb, dongle, ops); Sound(s) && s.k.me == kb && s.d.me == dongle
  {
    if ops != [] {
      var s, op := Run(kb, dongle, ops[..|ops| - 1]), ops[|ops| - 1];
      IdentitiesAgree(kb, dongle, ops[..|ops| - 1]);
      if op.DReceive? || op.DOther? || op.DReboot? {
        DongleStepSound(s, op);
      } else {
        KbStepSound(s, op);
      }
    }
  }

  // ----- As long as the dongle does not reboot -----

  predicate Uninterrupted(ops: seq<Op>) {
    forall i | 0 <= i < |ops| :: !ops[i].DReboot?
  }

  /** The dongle knows the keyboard before the keyboard can know it. */
  ghost predicate Mutual(s: System) {
    && Disconnect !in s.toKb
    && (s.k.hasPeer || s.toKb != {} || (exists m :: m in s.toDongle && m.VerifyReq?) ==> s.d.hasPeer)
  }

  lemma StepMutual(s: System, op: Op)
    requires Sound(s) && Mutual(s) && !op.DReboot?
    ensures Mutual(Step(s, op))
    ensures s.k.hasPeer && !Step(s, op).k.hasPeer ==> op.KUnpair?
  {
    if Enabled(s, op) {
      match op {
        case KReceive(data) =>
          var m := Decode(data);
          assert m in s.toKb || m == Other || Strange(s.d.me, data);
        case DReceive(data) =>
          var m := Decode(data);
          assert m in s.toDongle || m == Other || m == Disconnect;
        case _ =>
      }
    }
  }

  /** Agreement over any loss, duplication and reordering, keyboard reboots, unpairing and slot changes, as long as the
      dongle does not reboot: a connected keyboard stores the dongle's id and the dongle has stored the keyboard's,
      the dongle never sends DISCONNECT, and only unpairing erases a pairing. */
  lemma {:induction false} PairingAgrees(kb: Id, dongle: Id, ops: seq<Op>)
    requires Uninterrupted(ops)
    ensures var s := Run(kb, dongle, ops);
            && Mutual(s)
            && (s.k.state == Connected ==> s.k.stored == Record(true, dongle) && Knows(s.d, kb))
            && (ops != [] && Run(kb, dongle, ops[..|ops| - 1]).k.hasPeer && !s.k.hasPeer ==> ops[|ops| - 1].KUnpair?)
  {
    if ops != [] {
      PairingAgrees(kb, dongle, ops[..|ops| - 1]);
      IdentitiesAgree(kb, dongle, ops[..|ops| - 1]);
      StepMutual(Run(kb, dongle, ops[..|ops| - 1]), ops[|ops| - 1]);
    }
    IdentitiesAgree(kb, dongle, ops);
  }

  // ----- When it does -----

  /** The dongle accepted a BEACON since it last booted. */
  predicate Heard(kb: Id, dongle: Id, ops: seq<Op>) {
    ops != [] &&
    (var before, op := ops[..|ops| - 1], ops[|ops| - 1];
     !op.DReboot? &&
     (Heard(kb, dongle, before) ||
      (var s := Run(kb, dongle, before);
       op.DReceive? && Enabled(s, op) && Decode(op.data).Beacon? && s.d.state == Listening)))
  }

  lemma {:induction false} DongleRemembers(kb: Id, dongle: Id, ops: seq<Op>)
    ensures Run(kb, dongle, ops).d.hasPeer == Heard(kb, dongle, ops)
  {
    if ops != [] {
      DongleRemembers(kb, dongle, ops[..|ops| - 1]);
    }
  }

  /** The exact condition: the dongle answers the keyboard's VERIFY_REQ with DISCONNECT if and only if it has not
      accepted a BEACON since it last booted; otherwise it confirms. */
  lemma DisconnectsExactly(kb: Id, dongle: Id, ops: seq<Op>)
    ensures var s := Run(kb, dongle, ops);
            DongleReceive(s.d, VerifyReq(kb)).out
            == if Heard(kb, dongle, ops) then [VerifyResp(dongle)] else [Disconnect]
  {
    IdentitiesAgree(kb, dongle, ops);
    DongleRemembers(kb, dongle, ops);
  }

  // ----- What the packets received say -----

  /** The packet that a step delivers to the keyboard, if any. */
  function KbGets(kb: Id, dongle: Id, ops: seq<Op>, op: Op): Message {
    if op.KReceive? && Enabled(Run(kb, dongle, ops), op) then Decode(op.data) else Other
  }

  function DongleGets(kb: Id, dongle: Id, ops: seq<Op>, op: Op): Message {
    if op.DReceive? && Enabled(Run(kb, dongle, ops), op) then Decode(op.data) else Other
  }

  /** The keyboard has paired, and was neither unpaired nor sent a DISCONNECT since; reboots do not matter. */
  predicate Paired(kb: Id, dongle: Id, ops: seq<Op>) {
    ops != [] &&
    (var before, op := ops[..|ops| - 1], ops[|ops| - 1];
     var m := KbGets(kb, dongle, before, op);
     if op.KUnpair? || m.Disconnect? then false
     else Paired(kb, dongle, before) || (m.PairReq? && Beacons(kb, dongle, before)))
  }

  /** Its slot was started while it was not paired, or it lost its pairing since; no PAIR_REQ came since. */
  predicate Beacons(kb: Id, dongle: Id, ops: seq<Op>) {
    ops != [] &&
    (var before, op := ops[..|ops| - 1], ops[|ops| - 1];
     var m := KbGets(kb, dongle, before, op);
     if op.KStart? then !Paired(kb, dongle, before)
     else if op.KStop? || op.KReboot? || m.PairReq? then false
     else if op.KUnpair? then Beacons(kb, dongle, before) || Verifies(kb, dongle, before) || Connects(kb, dongle, before)
     else m.Disconnect? || Beacons(kb, dongle, before))
  }

  /** Its slot was started while it was paired, or a RESYNC came while it was connected; its dongle has not confirmed
      since. */
  predicate Verifies(kb: Id, dongle: Id, ops: seq<Op>) {
    ops != [] &&
    (var before, op := ops[..|ops| - 1], ops[|ops| - 1];
     var m := KbGets(kb, dongle, before, op);
     if op.KStart? then Paired(kb, dongle, before)
     else if op.KStop? || op.KReboot? || op.KUnpair? || m.Disconnect? || m == VerifyResp(dongle) then false
     else Verifies(kb, dongle, before) || (m.Resync? && Connects(kb, dongle, before)))
  }

  /** Its BEACON was answered, or its dongle has confirmed, and nothing that ends this came since. */
  predicate Connects(kb: Id, dongle: Id, ops: seq<Op>) {
    ops != [] &&
    (var before, op := ops[..|ops| - 1], ops[|ops| - 1];
     var m := KbGets(kb, dongle, before, op);
     if op.KStart? || op.KStop? || op.KReboot? || op.KUnpair? || m.Disconnect? || m.Resync? then false
     else
       || Connects(kb, dongle, before) || (m.PairReq? && Beacons(kb, dongle, before))
       || (m == VerifyResp(dongle) && Verifies(kb, dongle, before)))
  }

  /** A BEACON reached the listening dongle, and neither a PAIR_RESP, nor its keyboard's VERIFY_REQ, nor a DISCONNECT came
      since, nor a reboot. */
  predicate Awaits(kb: Id, dongle: Id, ops: seq<Op>) {
    ops != [] &&
    (var before, op := ops[..|ops| - 1], ops[|ops| - 1];
     var m := DongleGets(kb, dongle, before, op);
     if op.DReboot? || m.PairResp? || m.Disconnect? || (m.VerifyReq? && Heard(kb, dongle, before)) then false
     else Awaits(kb, dongle, before) || (m.Beacon? && !Reached(kb, dongle, before)))
  }

  /** Since its last boot or DISCONNECT the dongle got a PAIR_RESP while it waited for one, or a VERIFY_REQ of the keyboard
      it had stored. */
  predicate Reached(kb: Id, dongle: Id, ops: seq<Op>) {
    ops != [] &&
    (var before, op := ops[..|ops| - 1], ops[|ops| - 1];
     var m := DongleGets(kb, dongle, before, op);
     if op.DReboot? || m.Disconnect? then false
     else
       || Reached(kb, dongle, before)
       || (m.PairResp? && Awaits(kb, dongle, before)) || (m.VerifyReq? && Heard(kb, dongle, before)))
  }

  /** The keyboard does what the packets it got tell, and its work items are scheduled exactly while they have something
      to do. */
  predicate KeyboardTells(k: Keyboard, paired: bool, beacons: bool, verifies: bool, connects: bool) {
    && k.hasPeer == paired
    && (k.state == Unpaired <==> beacons) && (k.state == Verifying <==> verifies) && (k.state == Connected <==> connects)
    && (k.beacon <==> beacons) && (k.verify <==> verifies)
  }

  lemma {:induction false} KeyboardFollows(kb: Id, dongle: Id, ops: seq<Op>)
    ensures KeyboardTells(Run(kb, dongle, ops).k, Paired(kb, dongle, ops), Beacons(kb, dongle, ops),
                          Verifies(kb, dongle, ops), Connects(kb, dongle, ops))
  {
    if ops != [] {
      var before, op := ops[..|ops| - 1], ops[|ops| - 1];
      KeyboardFollows(kb, dongle, before);
      IdentitiesAgree(kb, dongle, before);
      var s := Run(kb, dongle, before);
      if op.KReceive? && Enabled(s, op) {
        assert Decode(op.data) in s.toKb || Decode(op.data) == Other || Strange(dongle, op.data);
      }
    }
  }

  /** In every run: the dongle forwards reports exactly since it was reached, and waits for a PAIR_RESP exactly while it
      awaits one. */
  lemma {:induction false} ForwardsExactly(kb: Id, dongle: Id, ops: seq<Op>)
    ensures Forwards(Run(kb, dongle, ops).d) <==> Reached(kb, dongle, ops)
    ensures Run(kb, dongle, ops).d.state == Pairing <==> Awaits(kb, dongle, ops)
  {
    if ops != [] {
      var before, op := ops[..|ops| - 1], ops[|ops| - 1];
      ForwardsExactly(kb, dongle, before);
      IdentitiesAgree(kb, dongle, before);
      DongleRemembers(kb, dongle, before);
      var s := Run(kb, dongle, before);
      if op.DReceive? && Enabled(s, op) {
        assert Decode(op.data) in s.toDongle || Decode(op.data) == Other || Decode(op.data) == Disconnect;
      }
    }
  }

  // ----- What was sent -----

  /** The step makes the keyboard send `m`: BEACON while it beacons, VERIFY_REQ while it verifies, and PAIR_RESP for each
      PAIR_REQ that it takes. */
  predicate KbSends(kb: Id, dongle: Id, ops: seq<Op>, op: Op, m: Message) {
    || (op.KBeacon? && Beacons(kb, dongle, ops) && m == Beacon(kb))
    || (op.KVerify? && Verifies(kb, dongle, ops) && m == VerifyReq(kb))
    || (KbGets(kb, dongle, ops, op).PairReq? && Beacons(kb, dongle, ops) && m == PairResp(kb))
  }

  /** The step makes the dongle send `m`: PAIR_REQ for a BEACON that finds it listening, and the answer to VERIFY_REQ. */
  predicate DongleSends(kb: Id, dongle: Id, ops: seq<Op>, op: Op, m: Message) {
    var got := DongleGets(kb, dongle, ops, op);
    || (got.Beacon? && !Awaits(kb, dongle, ops) && !Reached(kb, dongle, ops) && m == PairReq(dongle))
    || (got.VerifyReq? && m == if Heard(kb, dongle, ops) then VerifyResp(dongle) else Disconnect)
  }

  lemma KbStepSends(kb: Id, dongle: Id, ops: seq<Op>, op: Op, m: Message)
    ensures var s := Run(kb, dongle, ops);
            m in Step(s, op).toDongle <==> m in s.toDongle || KbSends(kb, dongle, ops, op, m)
  {
    var s := Run(kb, dongle, ops);
    KeyboardFollows(kb, dongle, ops);
    IdentitiesAgree(kb, dongle, ops);
    hide Run, Beacons, Verifies, Connects, Paired;
  }

  lemma DongleStepSends(kb: Id, dongle: Id, ops: seq<Op>, op: Op, m: Message)
    ensures var s := Run(kb, dongle, ops);
            m in Step(s, op).toKb <==> m in s.toKb || DongleSends(kb, dongle, ops, op, m)
  {
    var s := Run(kb, dongle, ops);
    ForwardsExactly(kb, dongle, ops);
    DongleRemembers(kb, dongle, ops);
    IdentitiesAgree(kb, dongle, ops);
    if op.DReceive? && Enabled(s, op) {
      assert Decode(op.data) in s.toDongle || Decode(op.data) == Other || Decode(op.data) == Disconnect;
      match Decode(op.data) {
        case Beacon(_) =>
        case VerifyReq(_) =>
        case _ =>
      }
    }
    hide Run, Awaits, Reached, Heard, Decode;
  }

  ghost predicate SentToDongle(kb: Id, dongle: Id, ops: seq<Op>, m: Message) {
    exists i :: 0 <= i < |ops| && KbSends(kb, dongle, ops[..i], ops[i], m)
  }

  ghost predicate SentToKeyboard(kb: Id, dongle: Id, ops: seq<Op>, m: Message) {
    exists i :: 0 <= i < |ops| && DongleSends(kb, dongle, ops[..i], ops[i], m)
  }

  /** What is on its way is exactly what these steps sent. */
  lemma {:induction false} SentExactly(kb: Id, dongle: Id, ops: seq<Op>, m: Message)
    ensures m in Run(kb, dongle, ops).toDongle <==> SentToDongle(kb, dongle, ops, m)
    ensures m in Run(kb, dongle, ops).toKb <==> SentToKeyboard(kb, dongle, ops, m)
  {
    hide KbSends, DongleSends, Step;
    if ops != [] {
      var n := |ops| - 1;
      var before := ops[..n];
      SentExactly(kb, dongle, before, m);
      KbStepSends(kb, dongle, before, ops[n], m);
      DongleStepSends(kb, dongle, before, ops[n], m);
      assert forall i | 0 <= i < n :: before[i] == ops[i] && before[..i] == ops[..i];
    }
  }

  // Concrete runs. Both ends start from empty storage.

  function PairingRun(kb: Id, dongle: Id): seq<Op> {
    [KStart] + [KBeacon] + [DReceive(Encode(Beacon(kb)))] + [KReceive(Encode(PairReq(dongle)))]
  }

  lemma RunMore(kb: Id, dongle: Id, ops: seq<Op>, op: Op)
    ensures Run(kb, dongle, ops + [op]) == Step(Run(kb, dongle, ops), op)
  {
    assert (ops + [op])[..|ops|] == ops;
  }

  lemma BeaconPairs(s: System)
    requires s.k.state == Idle && !s.k.hasPeer && s.d.state == Listening
    ensures var s1 := Step(Step(Step(s, KStart), KBeacon), DReceive(Encode(Beacon(s.k.me))));
            var s2 := Step(s1, KReceive(Encode(PairReq(s.d.me))));
            && s2.k.state == Connected && s2.k.hasPeer && s2.k.stored == Record(true, s.d.me) && s2.k.me == s.k.me
            && s2.d == Dongle(s.d.me, Pairing, s.k.me, true) && PairResp(s.k.me) in s2.toDongle
  {
    RoundTrip(Beacon(s.k.me));
    RoundTrip(PairReq(s.d.me));
    assert Beacon(s.k.me) in Messages([Beacon(s.k.me)]);
    assert PairReq(s.d.me) in Messages([PairReq(s.d.me)]);
  }

  /** A keyboard that was answered is connected, although the dongle is still waiting for its PAIR_RESP and forwards
      nothing: if that packet is lost, it stays so until the keyboard verifies again. */
  lemma ConnectedButNotForwarding(kb: Id, dongle: Id)
    ensures var s := Run(kb, dongle, PairingRun(kb, dongle));
            && s.k.state == Connected && s.k.hasPeer && s.k.stored == Record(true, dongle) && s.k.me == kb
            && s.d == Dongle(dongle, Pairing, kb, true) && !Forwards(s.d) && PairResp(kb) in s.toDongle
  {
    var o3, o4 := DReceive(Encode(Beacon(kb))), KReceive(Encode(PairReq(dongle)));
    RunMore(kb, dongle, [], KStart);
    assert [] + [KStart] == [KStart];
    RunMore(kb, dongle, [KStart], KBeacon);
    RunMore(kb, dongle, [KStart] + [KBeacon], o3);
    RunMore(kb, dongle, [KStart] + [KBeacon] + [o3], o4);
    BeaconPairs(Run(kb, dongle, []));
  }

  lemma AnswerLinks(s: System)
    requires s.d.state == Pairing && PairResp(s.k.me) in s.toDongle
    ensures Forwards(Step(s, DReceive(Encode(PairResp(s.k.me)))).d)
  {
    RoundTrip(PairResp(s.k.me));
  }

  /** Pairing completes: once the keyboard's PAIR_RESP is delivered, the dongle forwards its reports. */
  lemma PairingCompletes(kb: Id, dongle: Id)
    ensures var s := Run(kb, dongle, PairingRun(kb, dongle) + [DReceive(Encode(PairResp(kb)))]);
            s.k.state == Connected && Forwards(s.d)
  {
    hide Step;
    var p, o5 := PairingRun(kb, dongle), DReceive(Encode(PairResp(kb)));
    ConnectedButNotForwarding(kb, dongle);
    AnswerLinks(Run(kb, dongle, p));
    RunMore(kb, dongle, p, o5);
    DongleLeavesKeyboard(Run(kb, dongle, p), o5);
  }

  lemma DongleLeavesKeyboard(s: System, op: Op)
    requires op.DReceive?
    ensures Step(s, op).k == s.k
  {
  }

  /** From a connected keyboard, one dongle reboot and one slot change erase the pairing: the dongle has forgotten
      its peer, so it answers the VERIFY_REQ with DISCONNECT. */
  lemma RebootErasesFrom(s: System)
    requires s.k.state == Connected && s.k.hasPeer
    ensures var s1 := Step(Step(Step(s, DReboot), KStop), KStart);
            var s2 := Step(Step(s1, KVerify), DReceive(Encode(VerifyReq(s.k.me))));
            var s3 := Step(s2, KReceive(Encode(Disconnect)));
            Disconnect in s2.toKb && !s3.k.hasPeer && s3.k.stored == Record(false, NO_ID) && s3.k.state == Unpaired
  {
    RoundTrip(VerifyReq(s.k.me));
    RoundTrip(Disconnect);
    var s1 := Step(Step(Step(s, DReboot), KStop), KStart);
    assert s1.k.state == Verifying && s1.k.verify && s1.k.me == s.k.me && s1.d == DongleBoot(s.d.me);
    var s1' := Step(s1, KVerify);
    assert VerifyReq(s.k.me) in Messages([VerifyReq(s.k.me)]);
    assert VerifyReq(s.k.me) in s1'.toDongle && s1'.d == s1.d;
    var s2 := Step(s1', DReceive(Encode(VerifyReq(s.k.me))));
    assert Disconnect in Messages([Disconnect]);
    assert Disconnect in s2.toKb;
  }

  /** The pairing run, then one dongle reboot and one slot change. */
  function ErasingRun(kb: Id, dongle: Id): seq<Op> {
    PairingRun(kb, dongle) + [DReboot] + [KStop] + [KStart] + [KVerify] + [DReceive(Encode(VerifyReq(kb)))]
    + [KReceive(Encode(Disconnect))]
  }

  /** So agreement is false of dongles that reboot, although each side is documented to persist its peer: this run,
      which does not unpair, erases the keyboard's pairing. */
  lemma OneRebootErases(kb: Id, dongle: Id)
    ensures Run(kb, dongle, PairingRun(kb, dongle)).k.hasPeer
    ensures KUnpair !in ErasingRun(kb, dongle) && !Run(kb, dongle, ErasingRun(kb, dongle)).k.hasPeer
  {
    hide Step;
    var p := PairingRun(kb, dongle);
    var o5 := DReceive(Encode(VerifyReq(kb)));
    ConnectedButNotForwarding(kb, dongle);
    RebootErasesFrom(Run(kb, dongle, p));
    RunMore(kb, dongle, p, DReboot);
    RunMore(kb, dongle, p + [DReboot], KStop);
    RunMore(kb, dongle, p + [DReboot] + [KStop], KStart);
    RunMore(kb, dongle, p + [DReboot] + [KStop] + [KStart], KVerify);
    RunMore(kb, dongle, p + [DReboot] + [KStop] + [KStart] + [KVerify], o5);
    RunMore(kb, dongle, p + [DReboot] + [KStop] + [KStart] + [KVerify] + [o5], KReceive(Encode(Disconnect)));
  }
}
