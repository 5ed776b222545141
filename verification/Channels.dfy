/** Quarantine and channel selection, shared by both ends of the link. */
module Channels {
  import opened Words

  const CHANNELS := 101   // channels 0..100
  const INVALID := 0xFF

  // ----- Quarantine -----

  /** `expires[ch]` is the uptime at which the quarantine of `ch` ends, zero if it never began. */
  type Expiries = e: seq<U32> | |e| == 101 witness Zeros(101)

  const NO_QUARANTINE: Expiries := Zeros(101)

  function Add(e: Expiries, ch: nat, hold: nat, now: U32): Expiries {
    if ch < CHANNELS && Wrap32(now + hold) > e[ch] then e[ch := Wrap32(now + hold)] else e
  }

  function Clear(e: Expiries, ch: nat): Expiries {
    if ch < CHANNELS then e[ch := 0] else e
  }

  /** quarantine_is; channels out of range are rejected as well. */
  predicate Quarantined(e: Expiries, ch: nat, now: U32) {
    ch >= CHANNELS || (e[ch] != 0 && StillAhead(e[ch], now))
  }

  datatype Event = Added(ch: nat, hold: nat, at: nat) | Cleared(ch: nat, at: nat)

  function Apply(e: Expiries, m: Event): Expiries {
    match m
    case Added(ch, hold, at) => Add(e, ch, hold, Wrap32(at))
    case Cleared(ch, _) => Clear(e, ch)
  }

  function Run(events: seq<Event>): Expiries {
    if events == [] then NO_QUARANTINE else Apply(Run(events[..|events| - 1]), events[|events| - 1])
  }

  /** A history that ends by time `t`, with holds below 2^31 milliseconds. */
  ghost predicate EndsBy(events: seq<Event>, t: nat) {
    forall i | 0 <= i < |events| :: events[i].at <= t && (events[i].Added? ==> events[i].hold < 0x8000_0000)
  }

  /** The same, with uptimes below 2^31 milliseconds. */
  ghost predicate HistoryUntil(events: seq<Event>, t: nat) {
    t < 0x8000_0000 && EndsBy(events, t)
  }

  /** Addition `i` still holds at time `t`: it has not run out and nothing cleared the channel after it. */
  predicate StillHolds(events: seq<Event>, ch: nat, t: nat, i: nat)
    requires i < |events|
  {
    events[i].Added? && events[i].ch == ch && events[i].at + events[i].hold > t
    && forall j | i < j < |events| :: !(events[j].Cleared? && events[j].ch == ch)
  }

  ghost predicate SomeHolds(events: seq<Event>, ch: nat, t: nat) {
    exists i :: 0 <= i < |events| && StillHolds(events, ch, t, i)
  }

  /** The longest hold of the additions since the last clear. */
  function Expiry(events: seq<Event>, ch: nat): nat {
    if events == [] then 0
    else
      var before := Expiry(events[..|events| - 1], ch);
      match events[|events| - 1]
      case Added(c, hold, at) => if c == ch then Max(before, at + hold) else before
      case Cleared(c, _) => if c == ch then 0 else before
  }

  lemma AddKeepsExpiry(e: Expiries, ch: nat, hold: nat, at: nat)
    requires ch < CHANNELS && at + hold < 0x1_0000_0000
    ensures Add(e, ch, hold, Wrap32(at))[ch] == Max(e[ch], at + hold)
  {
  }

  lemma {:induction false} RunKeepsExpiry(events: seq<Event>, ch: nat, t: nat)
    requires HistoryUntil(events, t) && ch < CHANNELS
    ensures Run(events)[ch] == Expiry(events, ch) < t + 0x8000_0000
  {
    if events != [] {
      var m := events[|events| - 1];
      RunKeepsExpiry(events[..|events| - 1], ch, t);
      assert m.at <= t;
      if m.ch == ch && m.Added? {
        AddKeepsExpiry(Run(events[..|events| - 1]), ch, m.hold, m.at);
      }
    }
  }

  lemma {:induction false} ExpiryMeaning(events: seq<Event>, ch: nat, t: nat)
    ensures Expiry(events, ch) > t <==> exists i :: 0 <= i < |events| && StillHolds(events, ch, t, i)
  {
    if events != [] {
      var n := |events| - 1;
      var before := events[..n];
      ExpiryMeaning(before, ch, t);
      if i :| 0 <= i < n && StillHolds(before, ch, t, i) && !(events[n].Cleared? && events[n].ch == ch) {
        assert StillHolds(events, ch, t, i);
      }
      if i :| 0 <= i <= n && StillHolds(events, ch, t, i) {
        if i < n {
          assert StillHolds(before, ch, t, i);
          assert !(events[n].Cleared? && events[n].ch == ch);
        }
      }
      if events[n].Added? && events[n].ch == ch && events[n].at + events[n].hold > t {
        assert StillHolds(events, ch, t, n);
      }
    }
  }

  /** A channel tests as quarantined at `t` if and only if it is out of range, or some addition since its last clear still
      holds: the longest hold wins over any sequence of additions and clears. */
  lemma QuarantineRefinesHistory(events: seq<Event>, ch: nat, t: nat)
    requires HistoryUntil(events, t)
    ensures Quarantined(Run(events), ch, t) <==> ch >= CHANNELS || SomeHolds(events, ch, t)
  {
    if ch < CHANNELS {
      RunKeepsExpiry(events, ch, t);
      ExpiryMeaning(events, ch, t);
    }
  }

  /** The bound on the uptime is needed: an addition whose end passes 2^32 is dropped when the channel's last
      hold ended just before, because the stored ends are compared as plain numbers. */
  lemma AdditionLostAtWrap()
    ensures var events := [Added(7, 1000, 0xFFFF_FC17), Added(7, 1000, 0xFFFF_FFFF)];
            !Quarantined(Run(events), 7, 0xFFFF_FFFF) && StillHolds(events, 7, 0xFFFF_FFFF, 1)
  {
    var events := [Added(7, 1000, 0xFFFF_FC17), Added(7, 1000, 0xFFFF_FFFF)];
    assert events[..1][..0] == [] && events[..1] == [events[0]];
    assert Run(events[..1]) == NO_QUARANTINE[7 := 0xFFFF_FFFF];
    assert Run(events) == NO_QUARANTINE[7 := 0xFFFF_FFFF];
  }

  /** When an addition takes effect: afterwards the channel is quarantined if and only if it was before, or the new end is
      above the stored one as plain numbers. */
  lemma AdditionTakesEffect(e: Expiries, ch: nat, hold: nat, now: U32)
    requires ch < CHANNELS && 0 < hold < 0x8000_0000
    ensures Quarantined(Add(e, ch, hold, now), ch, now)
            <==> Quarantined(e, ch, now) || Wrap32(now + hold) > e[ch]
  {
    assert Wrap32(Wrap32(now + hold) - now) == hold;
  }

  // ----- What the pick may return -----

  /** What a selection depends on: the quarantine at this instant and the channel to keep away from. */
  datatype Band = Band(expires: Expiries, now: U32, avoid: nat)

  predicate Blocked(b: Band, y: nat) {
    y < CHANNELS && (Quarantined(b.expires, y, b.now) || y == b.avoid)
  }

  predicate Free(b: Band, x: nat) {
    x < CHANNELS && !Blocked(b, x)
  }

  function Distance(x: nat, y: nat): nat {
    if x < y then y - x else x - y
  }

  /** No blocked channel is within `d` of `x`. */
  predicate Keeps(b: Band, x: nat, d: nat) {
    forall y: nat | y < CHANNELS && Blocked(b, y) :: d < Distance(x, y)
  }

  predicate Candidate(b: Band, x: nat, d: nat) {
    Free(b, x) && Keeps(b, x, d)
  }

  /** The candidates below `n`, in ascending order. */
  function Candidates(b: Band, d: nat, n: nat): seq<nat>
    requires n <= CHANNELS
  {
    if n == 0 then []
    else Candidates(b, d, n - 1) + if Candidate(b, n - 1, d) then [n - 1] else []
  }

  /** channel_hop_pick, for the value `draw` that the pseudo-random generator yields. */
  function Pick(b: Band, d: nat, draw: nat): nat
    decreases d
  {
    var cs := Candidates(b, d, CHANNELS);
    if cs != [] then cs[draw % |cs|]
    else if d == 0 then INVALID
    else Pick(b, d - 1, draw)
  }

  /** The distance a channel keeps from everything blocked, as far as `d` matters: the smaller of `d` and one
      less than the distance to the nearest blocked channel. */
  function Clearance(b: Band, x: nat, d: nat): nat {
    if d == 0 || Keeps(b, x, d) then d else Clearance(b, x, d - 1)
  }

  lemma {:induction false} ClearanceMeaning(b: Band, x: nat, d: nat, k: nat)
    requires Free(b, x) && k <= d
    ensures Keeps(b, x, k) <==> k <= Clearance(b, x, d)
  {
    FreeKeepsNothing(b, x);
    if d != 0 && !Keeps(b, x, d) {
      ClearanceBound(b, x, d - 1);
      if k < d {
        ClearanceMeaning(b, x, d - 1, k);
      }
    }
  }

  lemma {:induction false} CandidatesExact(b: Band, d: nat, n: nat)
    requires n <= CHANNELS
    ensures forall x :: x in Candidates(b, d, n) <==> 0 <= x < n && Candidate(b, x, d)
    ensures Candidates(b, d, n) != [] ==> Candidate(b, Candidates(b, d, n)[0], d)
  {
    if n > 0 {
      CandidatesExact(b, d, n - 1);
    }
  }

  /** A channel no free channel keeps more clearance than. */
  predicate Optimal(b: Band, x: nat, d: nat) {
    Free(b, x) && forall z: nat | z < CHANNELS && Free(b, z) :: Clearance(b, z, d) <= Clearance(b, x, d)
  }

  lemma ModInRange(draw: nat, n: nat)
    requires 0 < n
    ensures draw % n < n
    ensures draw < n ==> draw % n == draw
  {
  }

  /** The relaxation loop: it returns INVALID exactly when every channel is blocked, otherwise an optimal
      channel, and every optimal channel for some draw. */
  lemma {:induction false} PickIsOptimal(b: Band, d: nat, draw: nat)
    ensures Pick(b, d, draw) == INVALID <==> forall x: nat | x < CHANNELS :: Blocked(b, x)
    ensures Pick(b, d, draw) != INVALID ==> Optimal(b, Pick(b, d, draw), d)
  {
    var cs := Candidates(b, d, CHANNELS);
    CandidatesExact(b, d, CHANNELS);
    if cs != [] {
      ModInRange(draw, |cs|);
      var x := cs[draw % |cs|];
      assert x in cs;
      forall z: nat | z < CHANNELS && Free(b, z)
        ensures Clearance(b, z, d) <= d == Clearance(b, x, d)
      {
        ClearanceMeaning(b, z, d, d);
        ClearanceMeaning(b, x, d, d);
        ClearanceBound(b, z, d);
      }
    } else if d == 0 {
      forall x: nat | x < CHANNELS
        ensures Blocked(b, x)
      {
        FreeKeepsNothing(b, x);
        assert !Candidate(b, x, 0);
      }
    } else {
      PickIsOptimal(b, d - 1, draw);
      forall z: nat | z < CHANNELS && Free(b, z)
        ensures Clearance(b, z, d) == Clearance(b, z, d - 1)
      {
        assert !Candidate(b, z, d);
      }
    }
  }

  predicate Beyond(x: nat, y: nat, k: nat) {
    x > y + k || y > x + k
  }

  /** Channel `x` is more than `k` away from the channel to avoid and from every quarantined one. */
  ghost predicate Away(b: Band, x: nat, k: nat) {
    && x < CHANNELS && (b.avoid < CHANNELS ==> Beyond(x, b.avoid, k))
    && forall y: nat | y < CHANNELS && Quarantined(b.expires, y, b.now) :: Beyond(x, y, k)
  }

  lemma AwayMeansKeeps(b: Band, x: nat, k: nat)
    ensures Away(b, x, k) <==> Free(b, x) && Keeps(b, x, k)
  {
    if Away(b, x, k) {
      assert !Blocked(b, x);
      forall y: nat | y < CHANNELS && Blocked(b, y)
        ensures k < Distance(x, y)
      {
      }
    }
    if Free(b, x) && Keeps(b, x, k) {
      assert b.avoid < CHANNELS ==> Blocked(b, b.avoid);
      forall y: nat | y < CHANNELS && Quarantined(b.expires, y, b.now)
        ensures Beyond(x, y, k)
      {
        assert Blocked(b, y);
      }
    }
  }

  /** Whatever distance up to the configured one any channel keeps, the pick keeps as well. */
  lemma PickKeepsAway(b: Band, d: nat, draw: nat, z: nat, k: nat)
    requires k <= d && Away(b, z, k)
    ensures Away(b, Pick(b, d, draw), k)
  {
    var x := Pick(b, d, draw);
    PickIsOptimal(b, d, draw);
    AwayMeansKeeps(b, z, k);
    AwayMeansKeeps(b, x, k);
    ClearanceMeaning(b, z, d, k);
    assert x != INVALID;
    ClearanceMeaning(b, x, d, k);
  }

  lemma {:induction false} ClearanceBound(b: Band, x: nat, d: nat)
    ensures Clearance(b, x, d) <= d
  {
    if d != 0 && !Keeps(b, x, d) {
      ClearanceBound(b, x, d - 1);
    }
  }

  lemma FreeKeepsNothing(b: Band, x: nat)
    requires x < CHANNELS
    ensures Free(b, x) ==> Keeps(b, x, 0)
  {
  }

  lemma {:induction false} EveryOptimumIsDrawn(b: Band, d: nat, x: nat)
    requires Optimal(b, x, d)
    ensures exists draw: nat :: Pick(b, d, draw) == x
  {
    if x in Candidates(b, d, CHANNELS) {
      var draw := CandidateDrawn(b, d, x);
    } else {
      NoCandidate(b, d, x);
      EveryOptimumIsDrawn(b, d - 1, x);
      var draw: nat :| Pick(b, d - 1, draw) == x;
      assert Pick(b, d, draw) == x;
    }
  }

  lemma CandidateDrawn(b: Band, d: nat, x: nat) returns (draw: nat)
    requires x in Candidates(b, d, CHANNELS)
    ensures Pick(b, d, draw) == x
  {
    var cs := Candidates(b, d, CHANNELS);
    draw :| 0 <= draw < |cs| && cs[draw] == x;
    ModInRange(draw, |cs|);
  }

  /** If an optimal channel is no candidate at distance `d`, none is. */
  lemma NoCandidate(b: Band, d: nat, x: nat)
    requires Optimal(b, x, d) && x !in Candidates(b, d, CHANNELS)
    ensures 0 < d && Candidates(b, d, CHANNELS) == [] && Optimal(b, x, d - 1)
  {
    CandidatesExact(b, d, CHANNELS);
    ClearanceMeaning(b, x, d, d);
    FreeKeepsNothing(b, x);
    forall z: nat | z < CHANNELS && Free(b, z)
      ensures !Candidate(b, z, d) && Clearance(b, z, d) == Clearance(b, z, d - 1)
    {
      ClearanceMeaning(b, z, d, d);
      ClearanceBound(b, z, d);
    }
  }

  // ----- The counting guarantee -----

  /** The channels within `d` of `y`. */
  function Near(y: nat, d: nat): set<nat> {
    set x: nat | x < CHANNELS && Distance(x, y) <= d
  }

  /** The channels within `d` of some member of `ys`. */
  function Shadow(ys: set<nat>, d: nat): set<nat> {
    set x: nat | x < CHANNELS && Shadowed(ys, x, d)
  }

  predicate Shadowed(ys: set<nat>, x: nat, d: nat) {
    exists y :: y in ys && Distance(x, y) <= d
  }

  function Below(n: nat): set<nat> {
    if n == 0 then {} else Below(n - 1) + {n - 1}
  }

  lemma {:induction false} BelowSize(n: nat)
    ensures |Below(n)| == n && forall x :: x in Below(n) <==> 0 <= x < n
  {
    if n > 0 {
      BelowSize(n - 1);
    }
  }

  lemma {:induction false} IntervalSize(s: set<nat>, lo: int, n: nat)
    requires forall x :: x in s ==> lo <= x < lo + n
    ensures |s| <= n
  {
    if n == 0 {
      assert s == {};
    } else {
      var top := lo + n - 1;
      if top >= 0 {
        IntervalSize(s - {top}, lo, n - 1);
        assert s <= (s - {top}) + {top};
        SubsetSize(s, (s - {top}) + {top});
      } else {
        IntervalSize(s, lo, n - 1);
      }
    }
  }

  lemma {:induction false} ShadowSize(ys: set<nat>, d: nat, w: nat)
    requires w == 2 * d + 1
    ensures |Shadow(ys, d)| <= |ys| * w
  {
    if ys == {} {
      assert Shadow(ys, d) == {};
    } else {
      var y :| y in ys;
      var rest := ys - {y};
      ShadowSize(rest, d, w);
      IntervalSize(Near(y, d), y - d, w);
      assert Shadow(ys, d) <= Shadow(rest, d) + Near(y, d);
      SubsetSize(Shadow(ys, d), Shadow(rest, d) + Near(y, d));
      OneMore(|ys|, |rest|, w);
    }
  }

  /** The quarantined channels, which quarantine_count counts. */
  function Quarantine(b: Band): set<nat> {
    set y: nat | y < CHANNELS && Quarantined(b.expires, y, b.now)
  }

  lemma ShadowMisses(ys: set<nat>, d: nat, w: nat)
    requires w == 2 * d + 1 && |ys| * w <= 100
    ensures exists x: nat :: x < CHANNELS && x !in Shadow(ys, d)
  {
    ShadowSize(ys, d, w);
    BelowSize(CHANNELS);
    if forall x: nat | x < CHANNELS :: x in Shadow(ys, d) {
      assert Below(CHANNELS) <= Shadow(ys, d);
      SubsetSize(Below(CHANNELS), Shadow(ys, d));
    }
  }

  lemma RoomForDistance(b: Band, d: nat, w: nat)
    requires w == 2 * d + 1 && (|Quarantine(b)| + 1) * w <= 100
    ensures exists x: nat :: x < CHANNELS && Candidate(b, x, d)
  {
    var ys := Quarantine(b) + {b.avoid};
    Widen(|ys|, |Quarantine(b)| + 1, w);
    ShadowMisses(ys, d, w);
    var x: nat :| x < CHANNELS && x !in Shadow(ys, d);
    assert !Shadowed(ys, x, d);
    assert x !in ys;
    assert Candidate(b, x, d);
  }

  lemma OneMore(n: nat, m: nat, k: nat)
    requires n == m + 1
    ensures n * k == m * k + k
  {
  }

  lemma Widen(m: nat, n: nat, k: nat)
    requires m <= n
    ensures m * k <= n * k
  {
  }

  /** With `k` channels in quarantine and (k + 1)(2d + 1) at most 100, the returned channel keeps the full
      distance `d` from every quarantined channel and from the one to avoid. */
  lemma FullDistanceGuaranteed(b: Band, d: nat, draw: nat)
    requires (|Quarantine(b)| + 1) * (2 * d + 1) <= 100
    ensures var x := Pick(b, d, draw); x != INVALID && Candidate(b, x, d)
  {
    RoomForDistance(b, d, 2 * d + 1);
    PickIsOptimal(b, d, draw);
    var z: nat :| z < CHANNELS && Candidate(b, z, d);
    var x := Pick(b, d, draw);
    assert !Blocked(b, z);
    ClearanceMeaning(b, z, d, d);
    ClearanceMeaning(b, x, d, d);
    ClearanceBound(b, x, d);
  }
}
