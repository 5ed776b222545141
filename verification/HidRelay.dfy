/** The keyboard and consumer side of the endpoint: key events become reports, and reports that fall into a
    transport-quiet window wait until it ends. */
module HidRelay {
  import opened Words
  import opened Deferral
  import opened Modifiers
  import K = KeySlots
  import T = TransportModel

  datatype Page = Keyboard | Consumer | Other

  datatype Event = Event(page: Page, keycode: nat, pressed: bool, explicit: Mask, implicit: Mask)

  datatype Config = Config(kbSlots: nat, consSlots: nat, kbDepth: nat, consDepth: nat)

  predicate ValidConfig(c: Config) {
    1 <= c.kbDepth <= 64 && 1 <= c.consDepth <= 64
  }

  datatype KbReport = KbReport(modifiers: Mask, keys: seq<nat>)

  /** The report state, tracked whether or not the endpoint is active. */
  datatype Body = Body(keys: seq<nat>, cons: seq<nat>, explicit: Mods, implicit: Mods)

  datatype Relay = Relay(body: Body, kb: Lane<KbReport>, cons: Lane<seq<nat>>, retry: bool, wasActive: bool)

  function Init(c: Config): Relay {
    Relay(Body(Zeros(c.kbSlots), Zeros(c.consSlots), NO_MODS, NO_MODS), Lane([], []), Lane([], []), false, false)
  }

  // ----- Report state -----

  const LEFT_CONTROL := 0xE0
  const RIGHT_GUI := 0xE7

  predicate IsMod(ev: Event) {
    ev.page == Keyboard && LEFT_CONTROL <= ev.keycode <= RIGHT_GUI
  }

  function OneHot(k: nat): Mask {
    seq(8, i requires 0 <= i < 8 => i == k)
  }

  /** The modifier bits an event presses or releases. */
  function Touched(ev: Event): Contribution {
    if IsMod(ev) then Contribution(OneHot(ev.keycode - LEFT_CONTROL), NONE) else Contribution(ev.explicit, ev.implicit)
  }

  function TrackMods(b: Body, ev: Event): Body {
    var what := Touched(ev);
    if ev.page == Other then b
    else if ev.pressed then b.(explicit := Inc(b.explicit, what.explicit), implicit := Inc(b.implicit, what.implicit))
    else b.(explicit := Dec(b.explicit, what.explicit), implicit := Dec(b.implicit, what.implicit))
  }

  function TrackKeys(b: Body, ev: Event): Body {
    var code := ev.keycode;
    if ev.page == Keyboard && !IsMod(ev) then
      b.(keys := if ev.pressed then K.Press(b.keys, code % 0x100, code % 0x100) else K.Release(b.keys, code % 0x100))
    else if ev.page == Consumer then
      b.(cons := if ev.pressed then K.Press(b.cons, code, code % 0x1_0000) else K.Release(b.cons, code))
    else b
  }

  function Track(b: Body, ev: Event): Body {
    TrackMods(TrackKeys(b, ev), ev)
  }

  function Either(e: Mods, i: Mods): Mask {
    seq(8, k requires 0 <= k < 8 => e[k].on || i[k].on)
  }

  function Snapshot(b: Body): KbReport {
    KbReport(Either(b.explicit, b.implicit), b.keys)
  }

  // ----- Handling events -----

  /** A consumer event pushes a keyboard report too if it carries modifiers. */
  predicate SendsKb(ev: Event) {
    ev.page == Keyboard || (ev.page == Consumer && (ev.explicit != NONE || ev.implicit != NONE))
  }

  /** The falling edge of the endpoint's activity empties both queues. */
  function Edge(c: Config, r: Relay, active: bool): Relay
    requires ValidConfig(c)
  {
    if r.wasActive && !active then
      r.(kb := LaneStep(c.kbDepth, r.kb, Clean), cons := LaneStep(c.consDepth, r.cons, Clean), retry := false,
         wasActive := active)
    else r.(wasActive := active)
  }

  function SendKb(c: Config, r: Relay, quiet: bool): Relay
    requires ValidConfig(c)
  {
    r.(kb := LaneStep(c.kbDepth, r.kb, Report(Snapshot(r.body), quiet)), retry := r.retry || quiet)
  }

  function SendCons(c: Config, r: Relay, quiet: bool): Relay
    requires ValidConfig(c)
  {
    r.(cons := LaneStep(c.consDepth, r.cons, Report(r.body.cons, quiet)), retry := r.retry || quiet)
  }

  /** hid_relay_cb. */
  function Handle(c: Config, r: Relay, ev: Event, active: bool, quiet: bool): Relay
    requires ValidConfig(c)
  {
    var d := Edge(c, r, active).(body := Track(r.body, ev));
    var k := if active && SendsKb(ev) then SendKb(c, d, quiet) else d;
    if active && ev.page == Consumer then SendCons(c, k, quiet) else k
  }

  /** hid_retry_work_fn, if it is scheduled. */
  function Retry(c: Config, r: Relay, quiet: bool): Relay
    requires ValidConfig(c)
  {
    if !r.retry || quiet then r
    else r.(kb := LaneStep(c.kbDepth, r.kb, Serve(false)), cons := LaneStep(c.consDepth, r.cons, Serve(false)),
            retry := false)
  }

  datatype Op = OpEvent(ev: Event, active: bool, quiet: bool) | OpRetry(quiet: bool)

  function Step(c: Config, r: Relay, op: Op): Relay
    requires ValidConfig(c)
  {
    match op
    case OpEvent(ev, active, quiet) => Handle(c, r, ev, active, quiet)
    case OpRetry(quiet) => Retry(c, r, quiet)
  }

  function Run(c: Config, ops: seq<Op>): Relay
    requires ValidConfig(c)
  {
    if ops == [] then Init(c) else Step(c, Run(c, ops[..|ops| - 1]), ops[|ops| - 1])
  }

  // ----- The histories the host should see, told without any queue -----

  function BodyAfter(c: Config, ops: seq<Op>): Body {
    if ops == [] then Init(c).body
    else
      var before := BodyAfter(c, ops[..|ops| - 1]);
      if ops[|ops| - 1].OpEvent? then Track(before, ops[|ops| - 1].ev) else before
  }

  /** The keyboard reports of the active events, in order. */
  function KbHistory(c: Config, ops: seq<Op>): seq<KbReport> {
    if ops == [] then []
    else
      var before, op := KbHistory(c, ops[..|ops| - 1]), ops[|ops| - 1];
      if op.OpEvent? && op.active && SendsKb(op.ev) then before + [Snapshot(BodyAfter(c, ops))] else before
  }

  function ConsHistory(c: Config, ops: seq<Op>): seq<seq<nat>> {
    if ops == [] then []
    else
      var before, op := ConsHistory(c, ops[..|ops| - 1]), ops[|ops| - 1];
      if op.OpEvent? && op.active && op.ev.page == Consumer then before + [BodyAfter(c, ops).cons] else before
  }

  // ----- Each queue is a lane -----

  /** What one step is to the keyboard queue. */
  function KbOpsOf(r: Relay, op: Op): seq<LaneOp<KbReport>> {
    match op
    case OpEvent(ev, active, quiet) =>
      (if r.wasActive && !active then [Clean] else [])
      + (if active && SendsKb(ev) then [Report(Snapshot(Track(r.body, ev)), quiet)] else [])
    case OpRetry(quiet) => if r.retry then [Serve(quiet)] else []
  }

  function KbOps(c: Config, ops: seq<Op>): seq<LaneOp<KbReport>>
    requires ValidConfig(c)
  {
    if ops == [] then []
    else KbOps(c, ops[..|ops| - 1]) + KbOpsOf(Run(c, ops[..|ops| - 1]), ops[|ops| - 1])
  }

  function ConsOpsOf(r: Relay, op: Op): seq<LaneOp<seq<nat>>> {
    match op
    case OpEvent(ev, active, quiet) =>
      (if r.wasActive && !active then [Clean] else [])
      + (if active && ev.page == Consumer then [Report(Track(r.body, ev).cons, quiet)] else [])
    case OpRetry(quiet) => if r.retry then [Serve(quiet)] else []
  }

  function ConsOps(c: Config, ops: seq<Op>): seq<LaneOp<seq<nat>>>
    requires ValidConfig(c)
  {
    if ops == [] then []
    else ConsOps(c, ops[..|ops| - 1]) + ConsOpsOf(Run(c, ops[..|ops| - 1]), ops[|ops| - 1])
  }

  /** At most one lane operation per step: cleaning and reporting exclude each other. */
  lemma LaneRunOne<T>(depth: nat, before: seq<LaneOp<T>>, more: seq<LaneOp<T>>)
    requires 0 < depth && |more| <= 1
    ensures LaneRun(depth, before + more)
            == if more == [] then LaneRun(depth, before) else LaneStep(depth, LaneRun(depth, before), more[0])
    ensures History(before + more)
            == if more != [] && more[0].Report? then History(before) + [more[0].x] else History(before)
  {
    if more == [] {
      assert before + more == before;
    } else {
      assert (before + more)[..|before|] == before;
    }
  }

  lemma {:induction false} BodyOfRun(c: Config, ops: seq<Op>)
    requires ValidConfig(c)
    ensures Run(c, ops).body == BodyAfter(c, ops)
  {
    if ops != [] {
      BodyOfRun(c, ops[..|ops| - 1]);
    }
  }

  lemma {:induction false} KbQueueIsLane(c: Config, ops: seq<Op>)
    requires ValidConfig(c)
    ensures Run(c, ops).kb == LaneRun(c.kbDepth, KbOps(c, ops))
    ensures History(KbOps(c, ops)) == KbHistory(c, ops)
  {
    if ops != [] {
      var before := ops[..|ops| - 1];
      KbQueueIsLane(c, before);
      BodyOfRun(c, before);
      LaneRunOne(c.kbDepth, KbOps(c, before), KbOpsOf(Run(c, before), ops[|ops| - 1]));
    }
  }

  lemma {:induction false} ConsQueueIsLane(c: Config, ops: seq<Op>)
    requires ValidConfig(c)
    ensures Run(c, ops).cons == LaneRun(c.consDepth, ConsOps(c, ops))
    ensures History(ConsOps(c, ops)) == ConsHistory(c, ops)
  {
    if ops != [] {
      var before := ops[..|ops| - 1];
      ConsQueueIsLane(c, before);
      BodyOfRun(c, before);
      LaneRunOne(c.consDepth, ConsOps(c, before), ConsOpsOf(Run(c, before), ops[|ops| - 1]));
    }
  }

  // ----- What the host sees -----

  /** In every run the keyboard reports handed to a transport that was not quiet, followed by those that wait, are an
      in-order subsequence of the reports of the active events; they are all of them if and only if no deferral
      window held more than the queue's depth and no deactivation found reports waiting; and they end on the latest
      report unless a deactivation swept it away. */
  lemma KbStreamRefinesHistory(c: Config, ops: seq<Op>)
    requires ValidConfig(c)
    ensures var s, h := Stream(Run(c, ops).kb), KbHistory(c, ops);
            && Subsequence(s, h)
            && (s == h <==> !SomeStepLoses(c.kbDepth, KbOps(c, ops)))
            && (h != [] && !SweptAway(KbOps(c, ops)) ==> s != [] && s[|s| - 1] == h[|h| - 1])
  {
    KbQueueIsLane(c, ops);
    LaneRefinesHistory(c.kbDepth, KbOps(c, ops), Stream(Run(c, ops).kb), KbHistory(c, ops));
  }

  lemma ConsStreamRefinesHistory(c: Config, ops: seq<Op>)
    requires ValidConfig(c)
    ensures var s, h := Stream(Run(c, ops).cons), ConsHistory(c, ops);
            && Subsequence(s, h)
            && (s == h <==> !SomeStepLoses(c.consDepth, ConsOps(c, ops)))
            && (h != [] && !SweptAway(ConsOps(c, ops)) ==> s != [] && s[|s| - 1] == h[|h| - 1])
  {
    ConsQueueIsLane(c, ops);
    LaneRefinesHistory(c.consDepth, ConsOps(c, ops), Stream(Run(c, ops).cons), ConsHistory(c, ops));
  }

  /** Whatever is swept away or dropped, reports that wait always have the retry work scheduled. */
  lemma {:induction false} WaitingReportsAreRetried(c: Config, ops: seq<Op>)
    requires ValidConfig(c)
    ensures var r := Run(c, ops); r.kb.pending != [] || r.cons.pending != [] ==> r.retry
  {
    if ops != [] {
      WaitingReportsAreRetried(c, ops[..|ops| - 1]);
    }
  }

  /** So once the transport is no longer quiet, one run of the retry work leaves nothing waiting. */
  lemma RetryDrains(c: Config, ops: seq<Op>)
    requires ValidConfig(c)
    ensures var r := Run(c, ops + [OpRetry(false)]);
            r.kb.pending == [] && r.cons.pending == [] && Stream(r.kb) == Stream(Run(c, ops).kb)
  {
    assert (ops + [OpRetry(false)])[..|ops|] == ops;
    WaitingReportsAreRetried(c, ops);
  }

  /** The last event found the endpoint active. */
  predicate LastActive(ops: seq<Op>) {
    ops != [] &&
    match ops[|ops| - 1]
    case OpEvent(_, active, _) => active
    case OpRetry(_) => LastActive(ops[..|ops| - 1])
  }

  /** A report had to wait since the retry last ran to the end and the endpoint last stopped being active. */
  predicate RetryDue(ops: seq<Op>) {
    ops != [] &&
    (var due := RetryDue(ops[..|ops| - 1]);
     match ops[|ops| - 1]
     case OpRetry(quiet) => due && quiet
     case OpEvent(ev, active, quiet) =>
       if active then due || (quiet && ev.page != Other) else due && !LastActive(ops[..|ops| - 1]))
  }

  /** The retry work is scheduled exactly then. */
  lemma {:induction false} RetryFollows(c: Config, ops: seq<Op>)
    requires ValidConfig(c)
    ensures Run(c, ops).retry == RetryDue(ops) && Run(c, ops).wasActive == LastActive(ops)
  {
    if ops != [] {
      RetryFollows(c, ops[..|ops| - 1]);
      hide LaneStep, Snapshot, Track;
    }
  }

  // ----- What a report says -----

  /** One of the eight modifier keys of the keyboard page. */
  predicate ModifierKey(ev: Event) {
    ev.page == Keyboard && 0xE0 <= ev.keycode < 0xE8
  }

  /** The event brings modifier bit `b`: it is that modifier's own key, or comes with the bit set. */
  predicate Brings(ev: Event, kind: Kind, b: nat)
    requires b < 8
  {
    if ModifierKey(ev) then kind == Explicit && ev.keycode == 0xE0 + b
    else if kind == Explicit then ev.explicit[b] else ev.implicit[b]
  }

  function Brought(ev: Event): Contribution {
    Contribution(seq(8, b requires 0 <= b < 8 => Brings(ev, Explicit, b)), seq(8, b requires 0 <= b < 8 => Brings(ev, Implicit, b)))
  }

  lemma TouchedIsBrought(ev: Event)
    ensures Touched(ev) == Brought(ev)
  {
  }

  function ModEvents(ops: seq<Op>): seq<KeyEvent> {
    if ops == [] then []
    else
      var before, op := ModEvents(ops[..|ops| - 1]), ops[|ops| - 1];
      if op.OpRetry? || op.ev.page == Other then before
      else before + [if op.ev.pressed then Pressed(Brought(op.ev)) else Released(Brought(op.ev))]
  }

  lemma {:induction false} ModsOfBody(c: Config, ops: seq<Op>)
    ensures BodyAfter(c, ops).explicit == Modifiers.Run(ModEvents(ops), Explicit)
    ensures BodyAfter(c, ops).implicit == Modifiers.Run(ModEvents(ops), Implicit)
  {
    if ops != [] {
      var before, op := ModEvents(ops[..|ops| - 1]), ops[|ops| - 1];
      ModsOfBody(c, ops[..|ops| - 1]);
      if op.OpEvent? && op.ev.page != Other {
        TouchedIsBrought(op.ev);
        assert ModEvents(ops)[..|before|] == before;
      }
    }
  }

  /** The keyboard report carries a modifier if and only if some held key contributes it, explicitly or
      implicitly. */
  lemma ReportedModifiers(c: Config, ops: seq<Op>, b: nat)
    requires b < 8 && Matched(ModEvents(ops))
    requires Modest(ModEvents(ops), Explicit, b) && Modest(ModEvents(ops), Implicit, b)
    ensures var held := Held(ModEvents(ops));
            Snapshot(BodyAfter(c, ops)).modifiers[b] <==> Contributed(held, Explicit, b) || Contributed(held, Implicit, b)
  {
    ModsOfBody(c, ops);
    ModsRefineHeldKeys(ModEvents(ops), Explicit, b);
    ModsRefineHeldKeys(ModEvents(ops), Implicit, b);
  }

  function KeyEdges(ops: seq<Op>): seq<K.Edge> {
    if ops == [] then []
    else
      var before, op := KeyEdges(ops[..|ops| - 1]), ops[|ops| - 1];
      if op.OpRetry? || op.ev.page != Keyboard || ModifierKey(op.ev) then before
      else before + [if op.ev.pressed then K.Down(op.ev.keycode % 0x100) else K.Up(op.ev.keycode % 0x100)]
  }

  lemma {:induction false} KeysOfBody(c: Config, ops: seq<Op>)
    ensures BodyAfter(c, ops).keys == K.Run(c.kbSlots, KeyEdges(ops))
  {
    if ops != [] {
      var before, op := KeyEdges(ops[..|ops| - 1]), ops[|ops| - 1];
      KeysOfBody(c, ops[..|ops| - 1]);
      if op.OpEvent? && op.ev.page == Keyboard && !IsMod(op.ev) {
        assert KeyEdges(ops)[..|before|] == before;
      }
    }
  }

  /** As long as no more keys are held than the report has slots, it lists exactly the held keys. */
  lemma ReportedKeys(c: Config, ops: seq<Op>)
    requires K.Codes(KeyEdges(ops)) && K.Fits(c.kbSlots, KeyEdges(ops))
    ensures K.Mirrors(Snapshot(BodyAfter(c, ops)).keys, K.Held(KeyEdges(ops)))
  {
    KeysOfBody(c, ops);
    K.SlotsMirrorHeldKeys(c.kbSlots, KeyEdges(ops));
  }

  /** The consumer keys that events press and release. */
  function ConsEdges(ops: seq<Op>): seq<K.Edge> {
    if ops == [] then []
    else
      var before, op := ConsEdges(ops[..|ops| - 1]), ops[|ops| - 1];
      if op.OpRetry? || op.ev.page != Consumer then before
      else before + [if op.ev.pressed then K.Down(op.ev.keycode) else K.Up(op.ev.keycode)]
  }

  /** Every code fits the uint16_t slots. */
  predicate Narrow(edges: seq<K.Edge>) {
    forall i | 0 <= i < |edges| :: edges[i].code < 0x1_0000
  }

  lemma TrackCons(b: Body, ev: Event)
    requires ev.page == Consumer ==> ev.keycode < 0x1_0000
    ensures Track(b, ev).cons
            == if ev.page != Consumer then b.cons
               else if ev.pressed then K.Press(b.cons, ev.keycode, ev.keycode) else K.Release(b.cons, ev.keycode)
  {
    hide Inc, Dec, Touched, K.Press, K.Release;
  }

  lemma NarrowMore(edges: seq<K.Edge>, x: K.Edge)
    requires Narrow(edges + [x])
    ensures Narrow(edges) && x.code < 0x1_0000 && (edges + [x])[..|edges|] == edges
  {
    forall i | 0 <= i < |edges|
      ensures edges[i].code < 0x1_0000
    {
      assert edges[i] == (edges + [x])[i];
    }
    assert (edges + [x])[|edges|] == x;
  }

  lemma {:induction false} ConsOfBody(c: Config, ops: seq<Op>)
    requires Narrow(ConsEdges(ops))
    ensures BodyAfter(c, ops).cons == K.Run(c.consSlots, ConsEdges(ops))
  {
    if ops != [] {
      var op := ops[|ops| - 1];
      if op.OpEvent? && op.ev.page == Consumer {
        NarrowMore(ConsEdges(ops[..|ops| - 1]), if op.ev.pressed then K.Down(op.ev.keycode) else K.Up(op.ev.keycode));
      }
      ConsOfBody(c, ops[..|ops| - 1]);
      if op.OpEvent? {
        TrackCons(BodyAfter(c, ops[..|ops| - 1]), op.ev);
      }
      hide Track, Narrow, K.Press, K.Release;
    }
  }

  /** The same for the consumer report, for codes that fit its slots. */
  lemma ReportedConsumerKeys(c: Config, ops: seq<Op>)
    requires K.Codes(ConsEdges(ops)) && Narrow(ConsEdges(ops)) && K.Fits(c.consSlots, ConsEdges(ops))
    ensures K.Mirrors(BodyAfter(c, ops).cons, K.Held(ConsEdges(ops)))
  {
    ConsOfBody(c, ops);
    K.SlotsMirrorHeldKeys(c.consSlots, ConsEdges(ops));
  }

  lemma WidePress(n: nat, code: nat)
    requires 0 < n && code >= 0x1_0000
    ensures var r := K.Release(K.Press(Zeros(n), code, code % 0x1_0000), code); r != [] && r[0] == code % 0x1_0000
  {
    assert K.Find(Zeros(n), 0, 0) == 0;
    assert K.Press(Zeros(n), code, code % 0x1_0000)[0] == code % 0x1_0000;
  }

  lemma TwoSteps(c: Config, first: Op, second: Op, ops: seq<Op>)
    requires ops == [first] + [second] && first.OpEvent? && second.OpEvent?
    ensures BodyAfter(c, ops) == Track(Track(Init(c).body, first.ev), second.ev)
  {
    assert ops[..1] == [first] && ops[..1][..0] == [];
    assert BodyAfter(c, ops[..1]) == Track(Init(c).body, first.ev);
    hide Track, Init;
  }

  /** A code that does not fit is cut off when it is stored and not when it is released: once pressed it sticks. */
  lemma WideCodeSticks(c: Config, down: Event, up: Event, ops: seq<Op>)
    requires 0 < c.consSlots && down.page == up.page == Consumer && down.pressed && !up.pressed
    requires down.keycode == up.keycode >= 0x1_0000 && down.keycode % 0x1_0000 != 0
    requires ops == [OpEvent(down, true, false)] + [OpEvent(up, true, false)]
    ensures K.Held(ConsEdges(ops)) == {} && down.keycode % 0x1_0000 in BodyAfter(c, ops).cons
  {
    TwoSteps(c, OpEvent(down, true, false), OpEvent(up, true, false), ops);
    WidePress(c.consSlots, down.keycode);
    EdgesOfTwo(down, up, ops);
  }

  lemma OneEdge(ops: seq<Op>, op: Op)
    requires op.OpEvent? && op.ev.page == Consumer
    ensures ConsEdges(ops + [op]) == ConsEdges(ops) + [if op.ev.pressed then K.Down(op.ev.keycode) else K.Up(op.ev.keycode)]
  {
    assert (ops + [op])[..|ops|] == ops;
  }

  lemma HeldMore(edges: seq<K.Edge>, x: K.Edge)
    ensures K.Held(edges + [x]) == if x.Down? then K.Held(edges) + {x.code} else K.Held(edges) - {x.code}
  {
    assert (edges + [x])[..|edges|] == edges;
  }

  lemma EdgesOfTwo(down: Event, up: Event, ops: seq<Op>)
    requires down.page == up.page == Consumer && down.pressed && !up.pressed && down.keycode == up.keycode
    requires ops == [OpEvent(down, true, false)] + [OpEvent(up, true, false)]
    ensures K.Held(ConsEdges(ops)) == {}
  {
    var none: seq<Op>, code := [], down.keycode;
    var first := none + [OpEvent(down, true, false)];
    OneEdge(none, OpEvent(down, true, false));
    OneEdge(first, OpEvent(up, true, false));
    HeldMore([], K.Down(code));
    HeldMore([] + [K.Down(code)], K.Up(code));
    assert ops == first + [OpEvent(up, true, false)];
    assert ConsEdges(ops) == [] + [K.Down(code)] + [K.Up(code)];
    hide ConsEdges, K.Held;
  }

  // ----- No change goes unreported -----

  /** The step changes the keyboard report only while the endpoint is active. */
  predicate KbChangesActive(c: Config, ops: seq<Op>) {
    forall i | 0 <= i < |ops| && ops[i].OpEvent? && !ops[i].active ::
      Snapshot(BodyAfter(c, ops[..i + 1])) == Snapshot(BodyAfter(c, ops[..i]))
  }

  /** What the last keyboard report said; an empty one before the first. */
  function KbShown(c: Config, ops: seq<Op>): KbReport {
    var h := KbHistory(c, ops);
    if h == [] then Snapshot(Init(c).body) else h[|h| - 1]
  }

  /** An event that calls for a keyboard report: of the keyboard page, or of the consumer page with a modifier bit set. */
  ghost predicate CallsForKb(ev: Event) {
    ev.page == Keyboard || (ev.page == Consumer && exists b :: 0 <= b < 8 && (ev.explicit[b] || ev.implicit[b]))
  }

  /** How many of the events called for one while the endpoint was active. */
  ghost function Calls(ops: seq<Op>): nat {
    if ops == [] then 0
    else
      var op := ops[|ops| - 1];
      Calls(ops[..|ops| - 1]) + if op.OpEvent? && op.active && CallsForKb(op.ev) then 1 else 0
  }

  lemma CallsExactly(ev: Event)
    ensures SendsKb(ev) <==> CallsForKb(ev)
  {
    if forall b :: 0 <= b < 8 ==> !ev.explicit[b] && !ev.implicit[b] {
      assert ev.explicit == NONE && ev.implicit == NONE;
    } else {
      var b :| 0 <= b < 8 && (ev.explicit[b] || ev.implicit[b]);
      assert !NONE[b];
    }
  }

  /** Each of them makes one keyboard report, and nothing else makes any. */
  lemma {:induction false} KbReportsAreCalledFor(c: Config, ops: seq<Op>)
    ensures |KbHistory(c, ops)| == Calls(ops)
  {
    if ops != [] {
      KbReportsAreCalledFor(c, ops[..|ops| - 1]);
      if ops[|ops| - 1].OpEvent? {
        CallsExactly(ops[|ops| - 1].ev);
      }
    }
  }

  lemma UntouchedMods(m: Mods)
    ensures Inc(m, NONE) == m && Dec(m, NONE) == m
  {
  }

  /** An event that makes no keyboard report leaves it as it was. */
  lemma SilentEvent(b: Body, ev: Event)
    requires !SendsKb(ev)
    ensures Snapshot(Track(b, ev)) == Snapshot(b)
  {
    UntouchedMods(b.explicit);
    UntouchedMods(b.implicit);
  }

  /** As long as the endpoint is active whenever the keyboard report changes, its last report is always up to date: no key or
      modifier changes without one. */
  lemma {:induction false} KbReportsAreCurrent(c: Config, ops: seq<Op>)
    requires KbChangesActive(c, ops)
    ensures KbShown(c, ops) == Snapshot(BodyAfter(c, ops))
  {
    if ops != [] {
      var n := |ops| - 1;
      var before, op := ops[..n], ops[n];
      assert ops[..n + 1] == ops;
      forall i | 0 <= i < n && before[i].OpEvent? && !before[i].active
        ensures Snapshot(BodyAfter(c, before[..i + 1])) == Snapshot(BodyAfter(c, before[..i]))
      {
        assert before[..i] == ops[..i] && before[..i + 1] == ops[..i + 1];
      }
      KbReportsAreCurrent(c, before);
      if op.OpEvent? && op.active && !SendsKb(op.ev) {
        SilentEvent(BodyAfter(c, before), op.ev);
      }
      hide Snapshot, Track;
    }
  }

  predicate ConsChangesActive(c: Config, ops: seq<Op>) {
    forall i | 0 <= i < |ops| && ops[i].OpEvent? && !ops[i].active ::
      BodyAfter(c, ops[..i + 1]).cons == BodyAfter(c, ops[..i]).cons
  }

  function ConsShown(c: Config, ops: seq<Op>): seq<nat> {
    var h := ConsHistory(c, ops);
    if h == [] then Init(c).body.cons else h[|h| - 1]
  }

  lemma {:induction false} ConsReportsAreCurrent(c: Config, ops: seq<Op>)
    requires ConsChangesActive(c, ops)
    ensures ConsShown(c, ops) == BodyAfter(c, ops).cons
  {
    if ops != [] {
      var n := |ops| - 1;
      var before, op := ops[..n], ops[n];
      assert ops[..n + 1] == ops;
      forall i | 0 <= i < n && before[i].OpEvent? && !before[i].active
        ensures BodyAfter(c, before[..i + 1]).cons == BodyAfter(c, before[..i]).cons
      {
        assert before[..i] == ops[..i] && before[..i + 1] == ops[..i + 1];
      }
      ConsReportsAreCurrent(c, before);
    }
  }

  // ----- Into the transport -----

  /** Several reports handed to the transport within one step. */
  function SendAll(c: T.Config, t: T.Transport, ps: seq<T.Payload>, now: U32, idle: bool): T.Transport {
    if ps == [] then t else T.SendOn(c, SendAll(c, t, ps[..|ps| - 1], now, idle), ps[|ps| - 1], now, idle)
  }

  /** A keyboard or consumer report. */
  predicate KeyReport(c: T.Config, p: T.Payload) {
    T.Writable(c, p) && p.kind == T.HID_REPORT && p.report != T.REPORT_MOUSE && p.motion == T.STILL
  }

  function Payloads(fifo: seq<T.Packet>): seq<T.Payload> {
    if fifo == [] then [] else Payloads(fifo[..|fifo| - 1]) + [fifo[|fifo| - 1].payload]
  }

  lemma KeyReportSent(c: T.Config, t: T.Transport, p: T.Payload, now: U32, idle: bool)
    requires KeyReport(c, p) && !T.IsQuiet(t, now) && 0 < c.fifoDepth
    ensures T.SendVerdict(c, t, p, now) == (if T.Full(c, t) then T.AfterFlush else T.Direct)
    ensures var u := T.SendOn(c, t, p, now, idle);
            && !T.IsQuiet(u, now) && u.up == t.up
            && Payloads(u.fifo) == (if T.Full(c, t) then [] else Payloads(t.fifo)) + if t.up then [p] else []
  {
    var u := T.SendOn(c, t, p, now, idle);
    var kept := if T.Full(c, t) then [] else t.fifo;
    if t.up {
      assert u.fifo[..|kept|] == kept;
    } else {
      assert u.fifo == kept;
    }
  }

  /** The payloads in the FIFO after a drain: a full FIFO is flushed to make room, and a library that is not initialised
      takes nothing. */
  function Drained(depth: nat, up: bool, queued: seq<T.Payload>, ps: seq<T.Payload>): seq<T.Payload> {
    if ps == [] then queued
    else
      var before := Drained(depth, up, queued, ps[..|ps| - 1]);
      (if |before| >= depth then [] else before) + if up then [ps[|ps| - 1]] else []
  }

  lemma {:induction false} PayloadsLength(fifo: seq<T.Packet>)
    ensures |Payloads(fifo)| == |fifo|
  {
    if fifo != [] {
      PayloadsLength(fifo[..|fifo| - 1]);
    }
  }

  lemma {:induction false} DrainEntersFifo(c: T.Config, t: T.Transport, ps: seq<T.Payload>, now: U32, idle: bool)
    requires !T.IsQuiet(t, now) && 0 < c.fifoDepth && forall i | 0 <= i < |ps| :: KeyReport(c, ps[i])
    ensures var u := SendAll(c, t, ps, now, idle);
            && !T.IsQuiet(u, now) && u.up == t.up
            && Payloads(u.fifo) == Drained(c.fifoDepth, t.up, Payloads(t.fifo), ps)
  {
    if ps != [] {
      var before := SendAll(c, t, ps[..|ps| - 1], now, idle);
      DrainEntersFifo(c, t, ps[..|ps| - 1], now, idle);
      KeyReportSent(c, before, ps[|ps| - 1], now, idle);
      PayloadsLength(before.fifo);
    }
  }

  lemma {:induction false} DrainedFits(depth: nat, up: bool, queued: seq<T.Payload>, ps: seq<T.Payload>)
    requires 0 < depth && |queued| <= depth
    ensures |Drained(depth, up, queued, ps)| <= depth
    ensures !up ==> |Drained(depth, up, queued, ps)| <= |queued|
    ensures Drained(depth, up, queued, ps) == queued + ps <==> ps == [] || (up && |queued| + |ps| <= depth)
  {
    if ps != [] {
      DrainedFits(depth, up, queued, ps[..|ps| - 1]);
      assert queued + ps == queued + ps[..|ps| - 1] + [ps[|ps| - 1]];
    }
  }

  /** Nothing that is sent while the transport is not quiet is swallowed, however many reports a drain hands over in
      one step. Yet they all end up in the FIFO, behind what was there, if and only if the library is initialised and the
      FIFO has room for them all: otherwise a send in the middle of the drain flushes the ones before it. */
  lemma DrainKeepsReports(c: T.Config, t: T.Transport, ps: seq<T.Payload>, now: U32, idle: bool)
    requires !T.IsQuiet(t, now) && 0 < c.fifoDepth && |t.fifo| <= c.fifoDepth
    requires forall i | 0 <= i < |ps| :: KeyReport(c, ps[i])
    ensures var u := SendAll(c, t, ps, now, idle);
            Payloads(u.fifo) == Payloads(t.fifo) + ps <==> ps == [] || (t.up && |t.fifo| + |ps| <= c.fifoDepth)
    ensures forall i | 0 <= i < |ps| ::
              T.SendVerdict(c, SendAll(c, t, ps[..i], now, idle), ps[i], now) in {T.Direct, T.AfterFlush}
  {
    PayloadsLength(t.fifo);
    DrainEntersFifo(c, t, ps, now, idle);
    DrainedFits(c.fifoDepth, t.up, Payloads(t.fifo), ps);
    forall i | 0 <= i < |ps|
      ensures T.SendVerdict(c, SendAll(c, t, ps[..i], now, idle), ps[i], now) in {T.Direct, T.AfterFlush}
    {
      DrainEntersFifo(c, t, ps[..i], now, idle);
      KeyReportSent(c, SendAll(c, t, ps[..i], now, idle), ps[i], now, idle);
    }
  }
}
