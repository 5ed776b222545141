/** Reference-counted modifier flags. */
module Modifiers {
  import opened Arith
  import opened Words

  /** One flag for each bit of a zmk_mod_flags_t. */
  type Mask = m: seq<bool> | |m| == 8
    witness [false, false, false, false, false, false, false, false]

  const NONE: Mask := [false, false, false, false, false, false, false, false]

  /** The uint8_t reference count of a modifier bit, and whether the bit is reported. */
  datatype Bit = Bit(count: U8, on: bool)

  const CLEAR := Bit(0, false)

  type Mods = m: seq<Bit> | |m| == 8 witness [CLEAR, CLEAR, CLEAR, CLEAR, CLEAR, CLEAR, CLEAR, CLEAR]

  const NO_MODS: Mods := [CLEAR, CLEAR, CLEAR, CLEAR, CLEAR, CLEAR, CLEAR, CLEAR]

  function IncBit(b: Bit): Bit {
    Bit(if b.count == 255 then 0 else b.count + 1, b.on || b.count == 0)
  }

  function DecBit(b: Bit): Bit {
    if b.count == 0 then b else Bit(b.count - 1, b.on && b.count != 1)
  }

  /** mods_inc. */
  function Inc(m: Mods, mask: Mask): Mods {
    seq(8, i requires 0 <= i < 8 => if mask[i] then IncBit(m[i]) else m[i])
  }

  /** mods_dec. */
  function Dec(m: Mods, mask: Mask): Mods {
    seq(8, i requires 0 <= i < 8 => if mask[i] then DecBit(m[i]) else m[i])
  }

  // ----- What the counts stand for -----

  /** What a key contributes while it is held. */
  datatype Contribution = Contribution(explicit: Mask, implicit: Mask)

  datatype KeyEvent = Pressed(what: Contribution) | Released(what: Contribution)

  datatype Kind = Explicit | Implicit

  function MaskOf(what: Contribution, kind: Kind): Mask {
    if kind == Explicit then what.explicit else what.implicit
  }

  function Run(events: seq<KeyEvent>, kind: Kind): Mods {
    if events == [] then NO_MODS
    else
      var before := Run(events[..|events| - 1], kind);
      match events[|events| - 1]
      case Pressed(what) => Inc(before, MaskOf(what, kind))
      case Released(what) => Dec(before, MaskOf(what, kind))
  }

  function Without(held: seq<Contribution>, what: Contribution): seq<Contribution> {
    if held == [] then []
    else if held[0] == what then held[1..]
    else [held[0]] + Without(held[1..], what)
  }

  /** What is held after the events, in the order of the presses. */
  function Held(events: seq<KeyEvent>): seq<Contribution> {
    if events == [] then []
    else
      var before := Held(events[..|events| - 1]);
      match events[|events| - 1]
      case Pressed(what) => before + [what]
      case Released(what) => Without(before, what)
  }

  /** Every release matches an earlier press with the same contribution. */
  predicate Matched(events: seq<KeyEvent>) {
    events == [] ||
    (Matched(events[..|events| - 1]) &&
     (events[|events| - 1].Released? ==> events[|events| - 1].what in Held(events[..|events| - 1])))
  }

  /** How many held keys contribute bit `b`. */
  function Outstanding(held: seq<Contribution>, kind: Kind, b: nat): nat
    requires b < 8
  {
    if held == [] then 0 else Outstanding(held[1..], kind, b) + if MaskOf(held[0], kind)[b] then 1 else 0
  }

  /** Never more than 255 held keys contribute the bit. */
  predicate Modest(events: seq<KeyEvent>, kind: Kind, b: nat)
    requires b < 8
  {
    Outstanding(Held(events), kind, b) < 256 && (events == [] || Modest(events[..|events| - 1], kind, b))
  }

  /** Some held key contributes the bit. */
  ghost predicate Contributed(held: seq<Contribution>, kind: Kind, b: nat)
    requires b < 8
  {
    exists i :: 0 <= i < |held| && MaskOf(held[i], kind)[b]
  }

  lemma {:induction false} OutstandingAppend(held: seq<Contribution>, what: Contribution, kind: Kind, b: nat)
    requires b < 8
    ensures Outstanding(held + [what], kind, b)
            == Outstanding(held, kind, b) + if MaskOf(what, kind)[b] then 1 else 0
  {
    if held != [] {
      OutstandingAppend(held[1..], what, kind, b);
      assert (held + [what])[1..] == held[1..] + [what];
    }
  }

  lemma {:induction false} OutstandingWithout(held: seq<Contribution>, what: Contribution, kind: Kind, b: nat)
    requires b < 8 && what in held
    ensures Outstanding(held, kind, b)
            == Outstanding(Without(held, what), kind, b) + if MaskOf(what, kind)[b] then 1 else 0
  {
    if held[0] != what {
      OutstandingWithout(held[1..], what, kind, b);
      assert ([held[0]] + Without(held[1..], what))[1..] == Without(held[1..], what);
    }
  }

  lemma {:induction false} OutstandingMeansContributed(held: seq<Contribution>, kind: Kind, b: nat)
    requires b < 8
    ensures Outstanding(held, kind, b) > 0 <==> Contributed(held, kind, b)
  {
    if held != [] {
      OutstandingMeansContributed(held[1..], kind, b);
      if i :| 0 <= i < |held[1..]| && MaskOf(held[1..][i], kind)[b] {
        assert MaskOf(held[i + 1], kind)[b];
      }
      if i :| 0 < i < |held| && MaskOf(held[i], kind)[b] {
        assert MaskOf(held[1..][i - 1], kind)[b];
      }
    }
  }

  lemma {:induction false} CountsOutstanding(events: seq<KeyEvent>, kind: Kind, b: nat)
    requires b < 8 && Matched(events) && Modest(events, kind, b)
    ensures var bit, n := Run(events, kind)[b], Outstanding(Held(events), kind, b);
            bit.count == n && bit.on == (n > 0)
  {
    if events != [] {
      var before := events[..|events| - 1];
      CountsOutstanding(before, kind, b);
      match events[|events| - 1] {
        case Pressed(what) => OutstandingAppend(Held(before), what, kind, b);
        case Released(what) => OutstandingWithout(Held(before), what, kind, b);
      }
    }
  }

  /** For any stream of events in which every release matches an earlier press and never more than 255 held keys
      contribute a bit, the bit is reported if and only if some held key contributes it: explicit and implicit
      bits independently, and none is left when nothing is held. */
  lemma ModsRefineHeldKeys(events: seq<KeyEvent>, kind: Kind, b: nat)
    requires b < 8 && Matched(events) && Modest(events, kind, b)
    ensures Run(events, kind)[b].on <==> Contributed(Held(events), kind, b)
    ensures Held(events) == [] ==> Run(events, kind)[b] == CLEAR
  {
    CountsOutstanding(events, kind, b);
    OutstandingMeansContributed(Held(events), kind, b);
  }

  // ----- Why fewer than 256 -----

  function Presses(n: nat): Bit {
    if n == 0 then CLEAR else IncBit(Presses(n - 1))
  }

  /** The bit after `n` presses and `k` releases. */
  function Releases(n: nat, k: nat): Bit {
    if k == 0 then Presses(n) else DecBit(Releases(n, k - 1))
  }

  /** Pressing `n` keys and releasing them again reports the bit exactly as long as some key is held. */
  ghost predicate Faithful(n: nat) {
    forall k | 0 <= k <= n :: Releases(n, k).on <==> k < n
  }

  lemma NextCount(n: nat)
    requires n > 0
    ensures n % 256 == if (n - 1) % 256 == 255 then 0 else (n - 1) % 256 + 1
  {
    var q, r := (n - 1) / 256, (n - 1) % 256;
    Parts(n - 1, 256);
    if r == 255 {
      DivModOf(n, q + 1, 256, 0);
    } else {
      DivModOf(n, q, 256, r + 1);
    }
  }

  lemma {:induction false} PressesCount(n: nat)
    ensures Presses(n).count == n % 256 && Presses(n).on == (n > 0)
  {
    if n > 0 {
      PressesCount(n - 1);
      NextCount(n);
    }
  }

  lemma {:induction false} ReleasesCount(n: nat, k: nat)
    requires k <= n % 256
    ensures Releases(n, k).count == n % 256 - k
    ensures Releases(n, k).on == (n > 0 && (n % 256 == 0 || k < n % 256))
  {
    PressesCount(n);
    if k > 0 {
      ReleasesCount(n, k - 1);
    }
  }

  lemma {:induction false} StuckAtZero(n: nat, k: nat)
    requires n % 256 == 0 && 0 < n
    ensures Releases(n, k) == Bit(0, true)
  {
    PressesCount(n);
    if k > 0 {
      StuckAtZero(n, k - 1);
    }
  }

  /** The bound is exact. At 256 the uint8_t count wraps: with a multiple of 256 keys the bit sticks, with any
      other number above it is dropped while keys are still held. */
  lemma FaithfulExactly(n: nat)
    ensures Faithful(n) <==> n < 256
  {
    if n < 256 {
      forall k | 0 <= k <= n
        ensures Releases(n, k).on <==> k < n
      {
        ReleasesCount(n, k);
      }
    } else if n % 256 == 0 {
      StuckAtZero(n, n);
    } else {
      ReleasesCount(n, n % 256);
    }
  }

  // ----- The counts as an array -----

  class ModCounts {
    const counts: array<U8>
    var flags: Mask
    ghost var view: Mods

    ghost predicate Valid()
      reads this, counts
    {
      counts.Length == 8 && forall i | 0 <= i < 8 :: view[i] == Bit(counts[i], flags[i])
    }

    constructor ()
      ensures Valid() && view == NO_MODS && fresh(counts)
    {
      counts := new U8[8](_ => 0);
      flags, view := NONE, NO_MODS;
    }

    /** mods_inc. */
    method Add(mask: Mask)
      requires Valid()
      modifies this, counts
      ensures Valid() && view == Inc(old(view), mask)
    {
      ghost var was := view;
      var b := 0;
      while b < 8
        invariant 0 <= b <= 8 && Valid()
        invariant forall i | 0 <= i < b :: view[i] == Inc(was, mask)[i]
        invariant forall i | b <= i < 8 :: view[i] == was[i]
      {
        if mask[b] {
          if counts[b] == 0 {
            flags := flags[b := true];
          }
          counts[b] := if counts[b] == 255 then 0 else counts[b] + 1;
          view := view[b := IncBit(view[b])];
        }
        b := b + 1;
      }
    }

    /** mods_dec. */
    method Remove(mask: Mask)
      requires Valid()
      modifies this, counts
      ensures Valid() && view == Dec(old(view), mask)
    {
      ghost var was := view;
      var b := 0;
      while b < 8
        invariant 0 <= b <= 8 && Valid()
        invariant forall i | 0 <= i < b :: view[i] == Dec(was, mask)[i]
        invariant forall i | b <= i < 8 :: view[i] == was[i]
      {
        if mask[b] && counts[b] > 0 {
          counts[b] := counts[b] - 1;
          if counts[b] == 0 {
            flags := flags[b := false];
          }
          view := view[b := DecBit(view[b])];
        }
        b := b + 1;
      }
    }
  }
}
