/** The transmit side of the radio library in vendor/: its FIFO, and the packet that is on the air. The transport takes it
    for granted that an event is about the front packet. */
module RadioQueue {
  /** What the radio is doing. A transaction works on a copy of the packet it started with. */
  datatype Air = Resting | Sending(packet: nat)

  /** Packets are numbered as they are written. `aired` has those that were sent at least once. */
  datatype Radio = Radio(queue: seq<nat>, air: Air, next: nat, aired: set<nat>)

  const BOOT := Radio([], Resting, 0, {})

  datatype Op =
    | Write         // esb_write_payload
    | Flush         // esb_flush_tx
    | Acked         // the transaction ends with an acknowledgement
    | Exhausted     // or with its retransmits used up
    | Restart       // esb_disable, and esb_init again

  /** start_tx_transaction, if there is a packet to send. */
  function Started(r: Radio): Radio {
    if r.queue == [] then r.(air := Resting)
    else r.(air := Sending(r.queue[0]), aired := r.aired + {r.queue[0]})
  }

  function Written(depth: nat, r: Radio): Radio {
    if |r.queue| >= depth then r
    else
      var w := r.(queue := r.queue + [r.next], next := r.next + 1);
      if r.air.Resting? then Started(w) else w
  }

  /** tx_fifo_remove_last takes whatever is at the front. */
  function Removed(r: Radio): Radio {
    if r.queue == [] then r else r.(queue := r.queue[1..])
  }

  function Step(depth: nat, r: Radio, op: Op): Radio {
    match op
    case Write => Written(depth, r)
    case Flush => r.(queue := [])
    case Acked => if r.air.Sending? then Started(Removed(r)) else r
    case Exhausted => r.(air := Resting)
    case Restart => r.(queue := [], air := Resting)
  }

  function Run(depth: nat, ops: seq<Op>): Radio {
    if ops == [] then BOOT else Step(depth, Run(depth, ops[..|ops| - 1]), ops[|ops| - 1])
  }

  // ----- Which packet an event is about -----

  /** The packet on the air is the one at the front. */
  predicate InFront(r: Radio) {
    r.air.Sending? ==> r.queue != [] && r.queue[0] == r.air.packet
  }

  /** Packets are in the order they were written, and what is on the air was sent. */
  ghost predicate Ordered(r: Radio) {
    && (forall i | 0 <= i < |r.queue| :: r.queue[i] < r.next)
    && (forall i, j | 0 <= i < j < |r.queue| :: r.queue[i] < r.queue[j])
    && (r.air.Sending? ==> r.air.packet in r.aired)
  }

  lemma {:induction false} AlwaysOrdered(depth: nat, ops: seq<Op>)
    ensures Ordered(Run(depth, ops))
  {
    if ops != [] {
      AlwaysOrdered(depth, ops[..|ops| - 1]);
    }
  }

  /** A flush while a packet is on the air is the one step that takes it from the front. */
  predicate Calm(r: Radio, op: Op) {
    op.Flush? ==> r.air.Resting?
  }

  lemma StepInFront(depth: nat, r: Radio, op: Op)
    requires InFront(r)
    ensures InFront(Step(depth, r, op)) <==> Calm(r, op)
  {
  }

  predicate CalmRun(depth: nat, ops: seq<Op>) {
    forall i | 0 <= i < |ops| :: Calm(Run(depth, ops[..i]), ops[i])
  }

  predicate AlwaysInFront(depth: nat, ops: seq<Op>) {
    forall n | 0 <= n <= |ops| :: InFront(Run(depth, ops[..n]))
  }

  lemma RunStep(depth: nat, ops: seq<Op>, n: nat)
    requires n < |ops|
    ensures Run(depth, ops[..n + 1]) == Step(depth, Run(depth, ops[..n]), ops[n])
  {
    assert ops[..n + 1][..n] == ops[..n];
  }

  lemma {:induction false} CalmPrefix(depth: nat, ops: seq<Op>, n: nat)
    requires CalmRun(depth, ops) && n <= |ops|
    ensures InFront(Run(depth, ops[..n]))
  {
    if n > 0 {
      CalmPrefix(depth, ops, n - 1);
      RunStep(depth, ops, n - 1);
      StepInFront(depth, Run(depth, ops[..n - 1]), ops[n - 1]);
    }
  }

  /** Throughout a run the packet on the air is the one at the front of the FIFO if and only if every flush finds the radio
      idle. */
  lemma FrontStaysOnAir(depth: nat, ops: seq<Op>)
    ensures AlwaysInFront(depth, ops) <==> CalmRun(depth, ops)
  {
    if CalmRun(depth, ops) {
      forall n | 0 <= n <= |ops| ensures InFront(Run(depth, ops[..n])) { CalmPrefix(depth, ops, n); }
    }
    if AlwaysInFront(depth, ops) {
      forall i | 0 <= i < |ops|
        ensures Calm(Run(depth, ops[..i]), ops[i])
      {
        assert InFront(Run(depth, ops[..i])) && InFront(Run(depth, ops[..i + 1]));
        RunStep(depth, ops, i);
        StepInFront(depth, Run(depth, ops[..i]), ops[i]);
      }
    }
  }

  // ----- Which events are about the front packet -----

  /** A flush came since the packet on the air was put there. */
  predicate Interrupted(depth: nat, ops: seq<Op>) {
    ops != []
    && var r, before := Run(depth, ops[..|ops| - 1]), Interrupted(depth, ops[..|ops| - 1]);
       match ops[|ops| - 1]
       case Write => before && r.air.Sending?
       case Flush => before || r.air.Sending?
       case _ => false
  }

  /** The packet on the air is in front, or else a flush took it, and what is in the FIFO was written since and was never
      sent. */
  ghost predicate Placed(r: Radio, interrupted: bool) {
    && Ordered(r)
    && (forall id | id in r.aired :: id < r.next)
    && (r.air.Sending? && !interrupted ==> InFront(r))
    && (r.air.Sending? && interrupted ==> forall i | 0 <= i < |r.queue| :: r.queue[i] !in r.aired)
  }

  lemma StepPlaced(depth: nat, r: Radio, interrupted: bool, op: Op, after: bool)
    requires Placed(r, interrupted)
    requires after == match op
                      case Write => interrupted && r.air.Sending?
                      case Flush => interrupted || r.air.Sending?
                      case _ => false
    ensures Placed(Step(depth, r, op), after)
  {
  }

  lemma {:induction false} AlwaysPlaced(depth: nat, ops: seq<Op>)
    ensures Placed(Run(depth, ops), Interrupted(depth, ops))
  {
    if ops != [] {
      var before := ops[..|ops| - 1];
      AlwaysPlaced(depth, before);
      StepPlaced(depth, Run(depth, before), Interrupted(depth, before), ops[|ops| - 1], Interrupted(depth, ops));
    }
  }

  /** What is on the air is at the front if and only if no flush came since it was put there. */
  lemma FrontUnlessInterrupted(depth: nat, ops: seq<Op>)
    ensures InFront(Run(depth, ops)) <==> Run(depth, ops).air.Resting? || !Interrupted(depth, ops)
  {
    AlwaysPlaced(depth, ops);
    var r := Run(depth, ops);
    if r.air.Sending? && r.queue != [] {
      assert Interrupted(depth, ops) ==> r.queue[0] !in r.aired;
    }
  }

  /** The `i`-th step ends a transaction: a TX event. */
  predicate EventAt(depth: nat, ops: seq<Op>, i: nat)
    requires i < |ops|
  {
    (ops[i].Acked? || ops[i].Exhausted?) && Run(depth, ops[..i]).air.Sending?
  }

  predicate EventsInFront(depth: nat, ops: seq<Op>) {
    forall i | 0 <= i < |ops| && EventAt(depth, ops, i) :: InFront(Run(depth, ops[..i]))
  }

  predicate NoneInterrupted(depth: nat, ops: seq<Op>) {
    forall i | 0 <= i < |ops| && EventAt(depth, ops, i) :: !Interrupted(depth, ops[..i])
  }

  /** Every TX event of a run is about the packet at the front of the FIFO if and only if no transaction that ends was
      interrupted by a flush; and so it is if every flush finds the radio idle. */
  lemma EventsKeepTheirPacket(depth: nat, ops: seq<Op>)
    ensures EventsInFront(depth, ops) <==> NoneInterrupted(depth, ops)
    ensures CalmRun(depth, ops) ==> EventsInFront(depth, ops)
  {
    hide Run, Interrupted, InFront;
    forall i | 0 <= i < |ops| && EventAt(depth, ops, i)
      ensures InFront(Run(depth, ops[..i])) <==> !Interrupted(depth, ops[..i])
      ensures CalmRun(depth, ops) ==> InFront(Run(depth, ops[..i]))
    {
      FrontUnlessInterrupted(depth, ops[..i]);
      if CalmRun(depth, ops) {
        CalmPrefix(depth, ops, i);
      }
    }
  }

  /** What ends an interrupted transaction is taken for the end of one that never began: the packet at the front was written
      after the flush and was never sent. */
  lemma InterruptedEventIsAboutUnsent(depth: nat, ops: seq<Op>)
    requires Run(depth, ops).air.Sending? && Interrupted(depth, ops) && Run(depth, ops).queue != []
    ensures var r := Run(depth, ops); r.queue[0] !in r.aired && r.air.packet in r.aired
  {
    AlwaysPlaced(depth, ops);
    hide Run, Interrupted;
  }

  /** In a run in which every flush finds the radio idle an acknowledgement removes exactly the packet it acknowledges, and the
      radio is idle afterwards if and only if no packet is queued behind it; after a failure it always is. */
  lemma AcknowledgesFront(depth: nat, ops: seq<Op>)
    requires CalmRun(depth, ops) && Run(depth, ops).air.Sending?
    ensures var r := Run(depth, ops);
            var u := Step(depth, r, Acked);
            && r.queue == [r.air.packet] + u.queue && r.air.packet in r.aired && r.air.packet !in u.queue
            && (u.air.Resting? <==> |r.queue| == 1) && Step(depth, r, Exhausted).air.Resting?
  {
    assert ops[..|ops|] == ops;
    CalmPrefix(depth, ops, |ops|);
    AlwaysOrdered(depth, ops);
    hide Run, InFront, Ordered, Step;
    AckTakesFront(depth, Run(depth, ops));
  }

  lemma AckTakesFront(depth: nat, r: Radio)
    requires InFront(r) && Ordered(r) && r.air.Sending?
    ensures var u := Step(depth, r, Acked);
            && r.queue == [r.air.packet] + u.queue && r.air.packet in r.aired && r.air.packet !in u.queue
            && (u.air.Resting? <==> |r.queue| == 1) && Step(depth, r, Exhausted).air.Resting?
  {
    var front, rest := r.queue[0], r.queue[1..];
    assert r.queue == [front] + rest;
    forall i | 0 <= i < |rest| ensures rest[i] != front { assert r.queue[0] < r.queue[i + 1]; }
  }

  // ----- A flush that finds the radio busy -----

  /** A packet is on the air, the FIFO is flushed, and another one is written. */
  function LateRun(): seq<Op> {
    [Write] + [Flush] + [Write]
  }

  /** The acknowledgement of the first packet then removes the second, which was never sent. */
  lemma LateAckTakesUnsent(depth: nat)
    requires 0 < depth
    ensures var r := Run(depth, LateRun());
            && r.air == Sending(0) && r.queue == [1] && 1 !in r.aired
            && Step(depth, r, Acked).queue == [] && 1 !in Step(depth, r, Acked).aired
  {
    var ops := LateRun();
    RunStep(depth, ops, 0);
    RunStep(depth, ops, 1);
    RunStep(depth, ops, 2);
    assert ops[..0] == [] && ops[..3] == ops;
  }
}
