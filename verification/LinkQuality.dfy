/** Link-quality metric of the transport: a packed window of recent TX outcomes with a cached popcount,
    an average of the TX attempts, the degraded-link trigger, and the adaptive retransmit count. */
module LinkQuality {
  import opened Arith
  import opened Words

  datatype LinkConfig = LinkConfig(
    window: nat,       // LINK_QUALITY_WINDOW
    threshold: nat,    // LINK_DEGRADED_THRESHOLD
    rearm: nat,        // LINK_DEGRADED_REARM
    fast: nat,         // LINK_DEGRADED_FAST_THRESHOLD
    coop: bool)        // COOP_HOP compiled in

  /** The Kconfig range of the window. */
  predicate ValidLink(c: LinkConfig) {
    8 <= c.window <= 32
  }

  datatype Link = Link(window: nat, retried: nat, ewma: nat, armed: bool)

  const FRESH_LINK := Link(0, 0, 10, false)

  function Pow2(n: nat): (p: nat)
    ensures 0 < p
  {
    if n == 0 then 1 else 2 * Pow2(n - 1)
  }

  function Bit(b: bool): nat {
    if b then 1 else 0
  }

  function PopCount(n: nat): nat {
    if n == 0 then 0 else n % 2 + PopCount(n / 2)
  }

  // ----- One step -----

  /** Bit `window - 1` of a window below 2^window: the one a shift pushes out. */
  predicate TopBit(c: LinkConfig, window: nat)
    requires 0 < c.window
  {
    window >= Pow2(c.window - 1)
  }

  function ShiftWindow(c: LinkConfig, l: Link, retry: bool): Link
    requires 0 < c.window
  {
    var dropped := TopBit(c, l.window);
    l.(window := 2 * l.window + Bit(retry) - (if dropped then Pow2(c.window) else 0),
       retried := NextCount(l.retried, dropped, retry))
  }

  function NextCount(n: nat, dropped: bool, retry: bool): nat {
    if retry && !dropped then (n + 1) % 0x100
    else if !retry && dropped then (n + 0xFF) % 0x100
    else n
  }

  function Ewma(ewma: nat, attempts: nat): nat {
    (ewma * 7 + attempts % 0x100 * 10) / 8 % 0x1_0000
  }

  function Record(c: LinkConfig, l: Link, attempts: nat): Link
    requires 0 < c.window
  {
    var m := ShiftWindow(c, l, attempts > 1);
    m.(ewma := Ewma(l.ewma, attempts))
  }

  /** The degraded-link test, run after every recorded success. */
  predicate Degraded(c: LinkConfig, l: Link) {
    l.retried >= c.threshold || PopCount(l.window % 256) >= c.fast
  }

  predicate Fires(c: LinkConfig, l: Link) {
    c.coop && !l.armed && Degraded(c, l)
  }

  function Check(c: LinkConfig, l: Link): Link {
    if !c.coop then l
    else if l.armed then l.(armed := l.retried > c.rearm)
    else l.(armed := Degraded(c, l))
  }

  datatype Outcome = Acked(attempts: nat, noack: bool) | Failed | ChannelChanged

  function Step(c: LinkConfig, l: Link, o: Outcome): Link
    requires 0 < c.window
  {
    match o
    case Acked(attempts, noack) => if noack then l else Check(c, Record(c, l, attempts))
    case Failed => ShiftWindow(c, l, true)
    case ChannelChanged => FRESH_LINK
  }

  function Run(c: LinkConfig, os: seq<Outcome>): Link
    requires 0 < c.window
  {
    if os == [] then FRESH_LINK else Step(c, Run(c, os[..|os| - 1]), os[|os| - 1])
  }

  // ----- What the packed window means -----

  /** The outcomes that count, since the last channel change: one flag per packet, true for a retry. */
  function Counted(os: seq<Outcome>): seq<bool> {
    if os == [] then []
    else
      var before := Counted(os[..|os| - 1]);
      match os[|os| - 1]
      case Acked(attempts, noack) => if noack then before else before + [attempts > 1]
      case Failed => before + [true]
      case ChannelChanged => []
  }

  function Last(h: seq<bool>, n: nat): seq<bool> {
    if |h| <= n then h else h[|h| - n..]
  }

  /** The binary number with the given digits, most significant first. */
  function Number(bits: seq<bool>): nat {
    if bits == [] then 0 else 2 * Number(bits[..|bits| - 1]) + Bit(bits[|bits| - 1])
  }

  function Trues(bits: seq<bool>): nat {
    if bits == [] then 0 else Trues(bits[..|bits| - 1]) + Bit(bits[|bits| - 1])
  }

  predicate Encodes(c: LinkConfig, l: Link, h: seq<bool>) {
    var recent := Last(h, c.window);
    l.window == Number(recent) && l.retried == Trues(recent)
  }

  lemma {:induction false} NumberBound(bits: seq<bool>)
    ensures Number(bits) < Pow2(|bits|)
  {
    if bits != [] {
      NumberBound(bits[..|bits| - 1]);
    }
  }

  lemma {:induction false} NumberCons(b: bool, bits: seq<bool>)
    ensures Number([b] + bits) == Bit(b) * Pow2(|bits|) + Number(bits)
  {
    if bits != [] {
      var front := bits[..|bits| - 1];
      NumberCons(b, front);
      assert ([b] + bits)[..|bits|] == [b] + front;
      assert Bit(b) * Pow2(|bits|) == 2 * (Bit(b) * Pow2(|front|));
    }
  }

  lemma {:induction false} TruesCons(b: bool, bits: seq<bool>)
    ensures Trues([b] + bits) == Bit(b) + Trues(bits)
  {
    if bits != [] {
      TruesCons(b, bits[..|bits| - 1]);
      assert ([b] + bits)[..|bits|] == [b] + bits[..|bits| - 1];
    }
  }

  lemma {:induction false} TruesBound(bits: seq<bool>)
    ensures Trues(bits) <= |bits|
  {
    if bits != [] {
      TruesBound(bits[..|bits| - 1]);
    }
  }

  lemma {:induction false} PopCountNumber(bits: seq<bool>)
    ensures PopCount(Number(bits)) == Trues(bits)
  {
    if bits != [] {
      PopCountNumber(bits[..|bits| - 1]);
      var n := Number(bits[..|bits| - 1]);
      assert (2 * n + Bit(bits[|bits| - 1])) / 2 == n;
    }
  }

  lemma {:induction false} Pow2Monotone(m: nat, n: nat)
    requires m <= n
    ensures Pow2(m) <= Pow2(n)
  {
    if m < n {
      Pow2Monotone(m, n - 1);
    }
  }

  lemma NumberTop(bits: seq<bool>)
    requires bits != []
    ensures Number(bits) == Bit(bits[0]) * Pow2(|bits| - 1) + Number(bits[1..])
    ensures Number(bits[1..]) < Pow2(|bits| - 1)
  {
    assert bits == [bits[0]] + bits[1..];
    NumberCons(bits[0], bits[1..]);
    NumberBound(bits[1..]);
  }

  /** The bit a shift drops is the outcome that leaves the window. */
  lemma TopBitIsOldest(c: LinkConfig, bits: seq<bool>)
    requires 0 < c.window && |bits| <= c.window
    ensures TopBit(c, Number(bits)) <==> |bits| == c.window && bits[0]
  {
    if |bits| == c.window {
      NumberTop(bits);
    } else {
      NumberBound(bits);
      Pow2Monotone(|bits|, c.window - 1);
    }
  }

  lemma NextCountExact(n: nat, dropped: bool, retry: bool)
    requires n <= 255 && (dropped ==> n > 0) && (retry && !dropped ==> n < 255)
    ensures NextCount(n, dropped, retry) == n - Bit(dropped) + Bit(retry)
  {
  }

  lemma TruesGrow(width: nat, recent: seq<bool>, retry: bool)
    requires |recent| < width
    ensures Trues(Last(recent + [retry], width)) == Trues(recent) + Bit(retry)
  {
    assert (recent + [retry])[..|recent|] == recent;
  }

  lemma TruesSlide(width: nat, recent: seq<bool>, retry: bool)
    requires 0 < |recent| == width
    ensures Trues(Last(recent + [retry], width)) == Trues(recent) - Bit(recent[0]) + Bit(retry)
    ensures recent[0] ==> 0 < Trues(recent)
  {
    var rest := recent[1..];
    assert recent == [recent[0]] + rest;
    TruesCons(recent[0], rest);
    assert (rest + [retry])[..|rest|] == rest;
    assert Last(recent + [retry], width) == rest + [retry];
  }

  lemma CountSlides(width: nat, recent: seq<bool>, retry: bool)
    requires 0 < width < 255 && |recent| <= width
    ensures NextCount(Trues(recent), |recent| == width && recent[0], retry)
            == Trues(Last(recent + [retry], width))
  {
    TruesBound(recent);
    if |recent| < width {
      TruesGrow(width, recent, retry);
      NextCountExact(Trues(recent), false, retry);
    } else {
      TruesSlide(width, recent, retry);
      NextCountExact(Trues(recent), recent[0], retry);
    }
  }

  lemma NumberGrow(bits: seq<bool>, b: bool)
    ensures Number(bits + [b]) == 2 * Number(bits) + Bit(b)
  {
    assert (bits + [b])[..|bits|] == bits;
  }

  lemma NumberSlide(recent: seq<bool>, retry: bool)
    requires recent != []
    ensures Number(recent[1..] + [retry])
            == 2 * Number(recent) + Bit(retry) - (if recent[0] then Pow2(|recent|) else 0)
  {
    NumberTop(recent);
    NumberGrow(recent[1..], retry);
  }

  lemma WindowSlides(width: nat, recent: seq<bool>, retry: bool)
    requires 0 < width && |recent| <= width
    ensures Number(Last(recent + [retry], width))
            == 2 * Number(recent) + Bit(retry) - (if |recent| == width && recent[0] then Pow2(width) else 0)
  {
    if |recent| == width {
      assert Last(recent + [retry], width) == recent[1..] + [retry];
      NumberSlide(recent, retry);
    } else {
      NumberGrow(recent, retry);
    }
  }

  lemma ShiftEncodes(c: LinkConfig, l: Link, h: seq<bool>, retry: bool)
    requires 0 < c.window < 255 && Encodes(c, l, h)
    ensures Encodes(c, ShiftWindow(c, l, retry), h + [retry])
  {
    var recent := Last(h, c.window);
    WindowSlides(c.window, recent, retry);
    TopBitIsOldest(c, recent);
    CountSlides(c.window, recent, retry);
    assert Last(h + [retry], c.window) == Last(recent + [retry], c.window);
  }

  /** In every run the packed window is the binary number whose digits are the last `window` counted
      outcomes since the last channel change, and the cached count is how many of them were retries.
      In particular the count never wraps below zero. */
  lemma {:induction false} WindowRefinesHistory(c: LinkConfig, os: seq<Outcome>)
    requires ValidLink(c)
    ensures Encodes(c, Run(c, os), Counted(os))
    ensures PopCount(Run(c, os).window) == Run(c, os).retried <= c.window
  {
    if os != [] {
      var before := os[..|os| - 1];
      WindowRefinesHistory(c, before);
      match os[|os| - 1] {
        case Acked(attempts, noack) => ShiftEncodes(c, Run(c, before), Counted(before), attempts > 1);
        case Failed => ShiftEncodes(c, Run(c, before), Counted(before), true);
        case ChannelChanged =>
      }
    }
    PopCountNumber(Last(Counted(os), c.window));
    TruesBound(Last(Counted(os), c.window));
  }

  lemma {:induction false} Pow2Byte(n: nat)
    requires 8 <= n
    ensures Pow2(n) % 256 == 0
  {
    if n == 8 {
      assert Pow2(4) == 16;
    } else {
      Pow2Byte(n - 1);
    }
  }

  lemma ShortNumber(bits: seq<bool>)
    requires |bits| <= 8
    ensures Number(bits) < 256
  {
    NumberBound(bits);
    Pow2Monotone(|bits|, 8);
    assert Pow2(4) == 16;
    hide Number;
  }

  lemma {:induction false} LowByte(bits: seq<bool>)
    ensures Number(bits) % 256 == Number(Last(bits, 8))
  {
    if |bits| <= 8 {
      ShortNumber(bits);
    } else {
      var rest := bits[1..];
      assert bits == [bits[0]] + rest;
      NumberCons(bits[0], rest);
      Pow2Byte(|rest|);
      ByteOf(bits[0], Pow2(|rest|), Number(rest));
      LowByte(rest);
      assert Last(bits, 8) == Last(rest, 8);
      hide Number, Pow2, Last;
    }
  }

  lemma ByteOf(b: bool, p: nat, n: nat)
    requires p % 256 == 0
    ensures (Bit(b) * p + n) % 256 == n % 256
  {
    if b {
      assert Bit(b) * p == p;
    } else {
      assert Bit(b) * p == 0;
    }
  }

  /** The trigger, read on the outcomes themselves: it fires exactly when it is not already latched and
      at least `threshold` of the last `window`, or `fast` of the last eight, counted packets were retried. */
  lemma TriggerMeaning(c: LinkConfig, os: seq<Outcome>)
    requires ValidLink(c)
    ensures var h, l := Counted(os), Run(c, os);
            Fires(c, l) <==>
            c.coop && !l.armed && (Trues(Last(h, c.window)) >= c.threshold || Trues(Last(h, 8)) >= c.fast)
  {
    WindowRefinesHistory(c, os);
    var recent := Last(Counted(os), c.window);
    LowByte(recent);
    PopCountNumber(Last(recent, 8));
    assert Last(recent, 8) == Last(Counted(os), 8);
  }

  // ----- Hysteresis -----

  /** Event `i` makes the transport call the cooperative-hop trigger. */
  predicate FiresAt(c: LinkConfig, os: seq<Outcome>, i: nat)
    requires 0 < c.window && i < |os|
  {
    os[i].Acked? && !os[i].noack && Fires(c, Record(c, Run(c, os[..i]), os[i].attempts))
  }

  /** Event `k` changes the channel, or sees the count at or below the re-arm level. */
  predicate Rearms(c: LinkConfig, os: seq<Outcome>, k: nat)
    requires 0 < c.window && k < |os|
  {
    os[k].ChannelChanged? || Run(c, os[..k + 1]).retried <= c.rearm
  }

  predicate Armed(c: LinkConfig, os: seq<Outcome>, k: nat)
    requires 0 < c.window && k <= |os|
  {
    Run(c, os[..k]).armed
  }

  lemma NextState(c: LinkConfig, os: seq<Outcome>, k: nat)
    requires 0 < c.window && k < |os|
    ensures Run(c, os[..k + 1]) == Step(c, Run(c, os[..k]), os[k])
  {
    assert os[..k + 1][..k] == os[..k];
  }

  lemma FiringArms(c: LinkConfig, os: seq<Outcome>, k: nat)
    requires 0 < c.window && k < |os| && FiresAt(c, os, k)
    ensures !Armed(c, os, k) && Armed(c, os, k + 1)
  {
    NextState(c, os, k);
  }

  lemma OnlyRearmingDisarms(c: LinkConfig, os: seq<Outcome>, k: nat)
    requires 0 < c.window && k < |os| && Armed(c, os, k)
    ensures Armed(c, os, k + 1) || Rearms(c, os, k)
  {
    NextState(c, os, k);
  }

  lemma {:induction false} LatchHolds(c: LinkConfig, os: seq<Outcome>, i: nat, j: nat)
    requires 0 < c.window && i <= j <= |os| && Armed(c, os, i)
    requires forall k :: i <= k < j ==> !Rearms(c, os, k)
    ensures Armed(c, os, j)
    decreases j - i
  {
    if i < j {
      OnlyRearmingDisarms(c, os, i);
      LatchHolds(c, os, i + 1, j);
    }
  }

  /** Between two degraded-link triggers the count was seen at or below the re-arm level, or the channel
      changed. */
  lemma TriggersAreSeparated(c: LinkConfig, os: seq<Outcome>, i: nat, j: nat)
    requires 0 < c.window && i < j < |os|
    requires FiresAt(c, os, i) && FiresAt(c, os, j)
    ensures exists k :: i < k < j && Rearms(c, os, k)
  {
    FiringArms(c, os, i);
    FiringArms(c, os, j);
    if forall k :: i < k < j ==> !Rearms(c, os, k) {
      LatchHolds(c, os, i + 1, j);
    }
  }

  /** The last outcomes are bad: at least `threshold` of the last `window`, or `fast` of the last eight, were retried. */
  predicate Bad(c: LinkConfig, h: seq<bool>) {
    Trues(Last(h, c.window)) >= c.threshold || Trues(Last(h, 8)) >= c.fast
  }

  /** The outcome is a success that counts. */
  predicate Succeeds(o: Outcome) {
    o.Acked? && !o.noack
  }

  /** The latch, read on the outcomes: with cooperative hops compiled in, a success that counts sets it if the last outcomes,
      itself included, are bad, and once set clears it if at most `rearm` of the last `window` were retried; a channel change
      clears it, and nothing else touches it. */
  predicate Latched(c: LinkConfig, os: seq<Outcome>) {
    os != [] &&
    var was, o, h := Latched(c, os[..|os| - 1]), os[|os| - 1], Counted(os);
    if o.ChannelChanged? then false
    else if c.coop && Succeeds(o) then (if was then Trues(Last(h, c.window)) > c.rearm else Bad(c, h))
    else was
  }

  lemma RecordTrigger(c: LinkConfig, os: seq<Outcome>)
    requires ValidLink(c) && os != [] && Succeeds(os[|os| - 1])
    ensures var l := Record(c, Run(c, os[..|os| - 1]), os[|os| - 1].attempts);
            && (Degraded(c, l) <==> Bad(c, Counted(os))) && l.retried == Trues(Last(Counted(os), c.window))
  {
    var before, attempts := os[..|os| - 1], os[|os| - 1].attempts;
    WindowRefinesHistory(c, before);
    ShiftEncodes(c, Run(c, before), Counted(before), attempts > 1);
    var recent := Last(Counted(os), c.window);
    LowByte(recent);
    PopCountNumber(Last(recent, 8));
    assert Last(recent, 8) == Last(Counted(os), 8);
  }

  /** In every run the latch is as told, and the trigger of cooperative hops fires at exactly the successes that set it. */
  lemma {:induction false} LatchFollows(c: LinkConfig, os: seq<Outcome>)
    requires ValidLink(c)
    ensures Run(c, os).armed == Latched(c, os)
    ensures os != [] ==> (FiresAt(c, os, |os| - 1) <==>
              Succeeds(os[|os| - 1]) && !Latched(c, os[..|os| - 1]) && Latched(c, os))
  {
    if os != [] {
      LatchFollows(c, os[..|os| - 1]);
      if Succeeds(os[|os| - 1]) {
        RecordTrigger(c, os);
      }
      hide Degraded, ShiftWindow, Ewma, Counted, Trues, Last;
    }
  }

  // ----- The average of the TX attempts -----

  lemma EwmaRange(ewma: nat, attempts: nat)
    requires 10 <= ewma <= 160 && 1 <= attempts <= 16
    ensures 10 <= Ewma(ewma, attempts) <= 160
    ensures Ewma(ewma, attempts) == (ewma * 7 + attempts * 10) / 8
  {
  }

  /** The average of the attempts of the successes that count since the last channel change, in tenths: a new one weighs one
      eighth, fractions are dropped, and it starts at one attempt. */
  function Average(os: seq<Outcome>): nat {
    if os == [] then 10
    else
      var was := Average(os[..|os| - 1]);
      match os[|os| - 1]
      case Acked(attempts, noack) => if noack then was else (was * 7 + attempts * 10) / 8
      case Failed => was
      case ChannelChanged => 10
  }

  /** Attempts are counted in a byte. */
  ghost predicate ByteAttempts(os: seq<Outcome>) {
    forall i | 0 <= i < |os| :: os[i].Acked? ==> os[i].attempts < 0x100
  }

  lemma EwmaFits(ewma: nat, attempts: nat)
    requires ewma <= 2550 && attempts < 0x100
    ensures Ewma(ewma, attempts) == (ewma * 7 + attempts * 10) / 8 <= 2550
  {
  }

  lemma StepAverages(c: LinkConfig, l: Link, o: Outcome)
    requires 0 < c.window
    ensures Step(c, l, o).ewma == if Succeeds(o) then Ewma(l.ewma, o.attempts) else if o.ChannelChanged? then 10 else l.ewma
  {
    hide Ewma, Degraded, TopBit, NextCount;
  }

  /** In every run the average is as told; it never leaves the 16 bits it is stored in. */
  lemma {:induction false} AverageFollows(c: LinkConfig, os: seq<Outcome>)
    requires 0 < c.window && ByteAttempts(os)
    ensures Run(c, os).ewma == Average(os) <= 2550
  {
    if os != [] {
      var o, l := os[|os| - 1], Run(c, os[..|os| - 1]);
      assert o.Acked? ==> o.attempts < 0x100;
      AverageFollows(c, os[..|os| - 1]);
      StepAverages(c, l, o);
      hide Ewma, Step;
      if Succeeds(o) {
        EwmaFits(l.ewma, o.attempts);
      }
    }
  }

  /** `n` successes in a row, each after `attempts` attempts. */
  function EwmaAfter(ewma: nat, attempts: nat, n: nat): nat {
    if n == 0 then ewma else Ewma(EwmaAfter(ewma, attempts, n - 1), attempts)
  }

  /** Where a constant number of attempts drives the average: truncation stops it up to 7 short of the
      true mean when it rises, and brings it exactly there when it falls. */
  function Settled(ewma: nat, attempts: nat): int {
    if ewma >= 10 * attempts - 7 then Min(ewma, 10 * attempts) else 10 * attempts - 7
  }

  lemma {:induction false} EwmaSettles(ewma: nat, attempts: nat, n: nat)
    requires 10 <= ewma <= 160 && 1 <= attempts <= 16
    ensures 10 <= EwmaAfter(ewma, attempts, n) <= 160
    ensures var e, s := EwmaAfter(ewma, attempts, n), Settled(ewma, attempts);
            if ewma >= s then s <= e <= Max(s, ewma - n) else Min(s, ewma + n) <= e <= s
    ensures n >= 160 ==> EwmaAfter(ewma, attempts, n) == Settled(ewma, attempts)
  {
    if n > 0 {
      EwmaSettles(ewma, attempts, n - 1);
      var e := EwmaAfter(ewma, attempts, n - 1);
      EwmaRange(e, attempts);
    }
  }

  // ----- Adaptive retransmit count -----

  datatype AdaptiveConfig = AdaptiveConfig(low: nat, high: nat, countMin: nat, countMax: nat)

  function AdaptiveTarget(a: AdaptiveConfig, ewma: nat): int {
    if ewma <= a.low then a.countMin
    else if ewma >= a.high then a.countMax
    else a.countMin + (ewma - a.low) * (a.countMax - a.countMin) / (a.high - a.low)
  }

  /** More retries never lower the target, and it stays between the two configured counts. */
  lemma AdaptiveTargetMonotone(a: AdaptiveConfig, x: nat, y: nat)
    requires a.countMin <= a.countMax && x <= y
    ensures a.countMin <= AdaptiveTarget(a, x) <= AdaptiveTarget(a, y) <= a.countMax
  {
    var range := a.countMax - a.countMin;
    if a.low < x < a.high {
      Interpolation(x - a.low, Min(y, a.high) - a.low, range, a.high - a.low);
    } else if x <= a.low < y < a.high {
      Interpolation(0, y - a.low, range, a.high - a.low);
    }
  }

  /** The target is `countMin` up to the low mark and `countMax` from the high one, and between them the straight line,
      rounded down. */
  lemma AdaptiveTargetInterpolates(a: AdaptiveConfig, x: nat)
    requires a.countMin <= a.countMax
    ensures x <= a.low ==> AdaptiveTarget(a, x) == a.countMin
    ensures x > a.low && x >= a.high ==> AdaptiveTarget(a, x) == a.countMax
    ensures a.low < x < a.high ==>
              var n, span, rise := AdaptiveTarget(a, x) - a.countMin, a.high - a.low, a.countMax - a.countMin;
              n * span <= (x - a.low) * rise < n * span + span
  {
    if a.low < x < a.high {
      Parts((x - a.low) * (a.countMax - a.countMin), a.high - a.low);
    }
  }

  // ----- The state the firmware keeps -----

  lemma ShiftArithmetic(c: LinkConfig, window: nat, retry: bool)
    requires 0 < c.window && window < Pow2(c.window)
    ensures (window / Pow2(c.window - 1) % 2 == 1) == TopBit(c, window)
    ensures (2 * window + Bit(retry)) % Pow2(c.window)
            == 2 * window + Bit(retry) - (if TopBit(c, window) then Pow2(c.window) else 0)
  {
    var half := Pow2(c.window - 1);
    var shifted := 2 * window + Bit(retry);
    if TopBit(c, window) {
      DivModOf(window, 1, half, window - half);
      DivModOf(shifted, 1, Pow2(c.window), shifted - Pow2(c.window));
    } else {
      DivModOf(window, 0, half, window);
      DivModOf(shifted, 0, Pow2(c.window), shifted);
    }
  }

  class LinkMonitor {
    const config: LinkConfig
    var window: nat
    var retried: nat
    var ewma: nat
    var armed: bool

    ghost predicate Valid()
      reads this
    {
      ValidLink(config) && window < Pow2(config.window)
    }

    constructor (config: LinkConfig)
      requires ValidLink(config)
      ensures this.config == config && Valid() && State() == FRESH_LINK
    {
      this.config := config;
      window, retried, ewma, armed := 0, 0, 10, false;
    }

    function State(): Link
      reads this
    {
      Link(window, retried, ewma, armed)
    }

    method Shift(retry: bool)
      requires Valid()
      modifies this
      ensures Valid() && State() == ShiftWindow(config, old(State()), retry)
    {
      ShiftArithmetic(config, window, retry);
      var dropped := window / Pow2(config.window - 1) % 2 == 1;
      window := (2 * window + Bit(retry)) % Pow2(config.window);
      if retry && !dropped {
        retried := (retried + 1) % 0x100;
      } else if !retry && dropped {
        retried := (retried + 0xFF) % 0x100;
      }
    }

    /** An acknowledged packet; the result says whether the degraded-link trigger is called. */
    method OnAcked(attempts: nat) returns (fire: bool)
      requires Valid()
      modifies this
      ensures Valid() && State() == Step(config, old(State()), Acked(attempts, false))
      ensures fire == Fires(config, Record(config, old(State()), attempts))
    {
      Shift(attempts > 1);
      ewma := Ewma(ewma, attempts);
      fire := false;
      if config.coop {
        if armed {
          if retried <= config.rearm {
            armed := false;
          }
        } else {
          if retried >= config.threshold {
            fire := true;
          } else if PopCount(window % 256) >= config.fast {
            fire := true;
          }
          if fire {
            armed := true;
          }
        }
      }
    }

    method Reset()
      requires ValidLink(config)
      modifies this
      ensures Valid() && State() == FRESH_LINK
    {
      window, retried, ewma, armed := 0, 0, 10, false;
    }
  }
}
