/** Quarantine and channel selection in the form the firmware gives them: an array of expiry times, and
    nested loops that fill a candidate array. */
module ChannelStore {
  import opened Words
  import opened Channels

  /** The test the inner loop makes of a channel, once it is neither quarantined nor the one to avoid. */
  lemma CandidateTest(b: Band, x: nat, d: nat, near: bool)
    requires Free(b, x)
    requires near <==> exists y: nat :: y < CHANNELS && y != x && Distance(x, y) <= d && Quarantined(b.expires, y, b.now)
    ensures Candidate(b, x, d)
            <==> d == 0 || (!near && (b.avoid >= CHANNELS || Distance(x, b.avoid) > d))
  {
    if d != 0 && !near && (b.avoid >= CHANNELS || Distance(x, b.avoid) > d) {
      forall y: nat | y < CHANNELS && Blocked(b, y)
        ensures d < Distance(x, y)
      {
      }
    }
    if d != 0 && near {
      var y: nat :| y < CHANNELS && y != x && Distance(x, y) <= d && Quarantined(b.expires, y, b.now);
      assert Blocked(b, y);
    }
    if b.avoid < CHANNELS {
      assert Blocked(b, b.avoid);
    }
  }

  class Store {
    const expires: array<U32>
    ghost var view: Expiries

    ghost predicate Valid()
      reads this, expires
    {
      expires.Length == 101 && view == expires[..]
    }

    constructor ()
      ensures Valid() && view == NO_QUARANTINE && fresh(expires)
    {
      expires := new U32[101](_ => 0);
      view := NO_QUARANTINE;
      new;
      assert expires[..] == NO_QUARANTINE;
    }

    /** quarantine_add. */
    method Hold(ch: nat, hold: nat, now: U32)
      requires Valid()
      modifies this`view, expires
      ensures Valid() && view == Add(old(view), ch, hold, now)
    {
      if ch >= 101 {
        return;
      }
      var end := Wrap32(now + hold);
      if end > expires[ch] {
        expires[ch] := end;
        view := view[ch := end];
      }
    }

    method Release(ch: nat)
      requires Valid()
      modifies this`view, expires
      ensures Valid() && view == Clear(old(view), ch)
    {
      if ch < 101 {
        expires[ch] := 0;
        view := view[ch := 0];
      }
    }

    /** quarantine_is. */
    predicate IsHeld(ch: nat, now: U32)
      requires Valid()
      reads this, expires
      ensures IsHeld(ch, now) == Quarantined(view, ch, now)
    {
      ch >= 101 || (var e := expires[ch]; e != 0 && StillAhead(e, now))
    }

    /** quarantine_count. */
    method Count(now: U32) returns (n: nat)
      requires Valid()
      ensures n == |Quarantine(Band(view, now, INVALID))|
    {
      ghost var held: set<nat> := {};
      n := 0;
      for ch := 0 to 101
        invariant forall y :: y in held <==> 0 <= y < ch && Quarantined(view, y, now)
        invariant n == |held|
      {
        if IsHeld(ch, now) {
          n := n + 1;
          held := held + {ch};
        }
      }
      assert held == Quarantine(Band(view, now, INVALID));
    }

    /** within_distance_of_quarantine. */
    method WithinDistance(ch: nat, d: nat, now: U32) returns (near: bool)
      requires Valid() && ch < CHANNELS
      ensures near <==> exists y: nat :: y < CHANNELS && y != ch && Distance(ch, y) <= d && Quarantined(view, y, now)
    {
      var i: int := ch - d;
      while i <= ch + d
        invariant ch - d <= i <= ch + d + 1
        invariant forall y: nat :: y < CHANNELS && y < i && y != ch && Distance(ch, y) <= d ==> !Quarantined(view, y, now)
      {
        if 0 <= i < 101 && i != ch && IsHeld(i, now) {
          return true;
        }
        i := i + 1;
      }
      near := false;
    }

    /** channel_hop_pick. */
    method PickChannel(minDistance: nat, avoid: nat, draw: nat, now: U32) returns (x: nat)
      requires Valid()
      ensures x == Pick(Band(view, now, avoid), minDistance, draw)
    {
      ghost var b := Band(view, now, avoid);
      var candidates := new nat[101];
      var d: int := minDistance;
      while d >= 0
        invariant -1 <= d <= minDistance
        invariant Pick(b, minDistance, draw) == if d < 0 then INVALID else Pick(b, d, draw)
      {
        var count := 0;
        for ch := 0 to 101
          invariant 0 <= count <= ch
          invariant candidates[..count] == Candidates(b, d, ch)
        {
          if !IsHeld(ch, now) && ch != avoid {
            var near := WithinDistance(ch, d, now);
            CandidateTest(b, ch, d, near);
            if !(d > 0 && near) && !(d > 0 && avoid < 101 && Distance(ch, avoid) <= d) {
              candidates[count] := ch;
              count := count + 1;
            }
          }
        }
        if count > 0 {
          return candidates[draw % count];
        }
        d := d - 1;
      }
      x := INVALID;
    }
  }
}
