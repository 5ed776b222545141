/** The per-send rings: an array indexed by free-running head and tail counters that wrap. */
module Rings {
  import opened Arith

  type Positive = n: nat | 0 < n witness 1

  /** The counter value `k` steps past `c`, for counters that wrap at `modulus`. */
  function Advance(modulus: Positive, c: nat, k: nat): nat {
    (c + k) % modulus
  }

  /** Slot of the `k`-th entry past `tail` in a ring of `size` slots. */
  function SlotOf(modulus: Positive, size: Positive, tail: nat, k: nat): nat {
    Advance(modulus, tail, k) % size
  }

  lemma AdvanceMeaning(modulus: Positive, c: nat, k: nat)
    requires c < modulus && k <= modulus
    ensures Advance(modulus, c, k) == if c + k < modulus then c + k else c + k - modulus
  {
    if c + k < modulus {
      DivModOf(c + k, 0, modulus, c + k);
    } else if c + k < 2 * modulus {
      DivModOf(c + k, 1, modulus, c + k - modulus);
    }
  }

  /** Advancing in two steps, wherever the first one wraps. */
  lemma AdvanceTwice(modulus: Positive, c: nat, j: nat, k: nat)
    ensures Advance(modulus, Advance(modulus, c, j), k) == Advance(modulus, c, j + k)
  {
    ModTwice(c + j, k, modulus);
  }

  /** At most `cap` live slots never collide, wherever the counters stand. */
  predicate WrapSafe(modulus: Positive, size: Positive, cap: nat) {
    cap <= size && (modulus % size == 0 || cap <= modulus % size)
  }

  lemma ModOffset(a: nat, k: nat, size: Positive)
    requires 0 < k < size
    ensures a % size != (a + k) % size
  {
    var q, m := a / size, a % size;
    Parts(a, size);
    if m + k < size {
      DivModOf(a + k, q, size, m + k);
    } else {
      Distribute(q, 1, size);
      DivModOf(a + k, q + 1, size, m + k - size);
    }
  }

  /** Counters before (`a`) and after (`b`) the wrap, when the size divides the modulus. */
  lemma CrossingDivides(modulus: nat, q: nat, size: Positive, a: nat, b: nat)
    requires modulus == q * size
    requires b < a < modulus && b + modulus - a < size
    ensures a % size != b % size
  {
    ModOffset(a, b + modulus - a, size);
    DivModOf(b + modulus, q, size, b);
    DivModOf(b, 0, size, b);
  }

  /** The same, when it does not but fewer slots are live than the modulus has left over. */
  lemma CrossingRemainder(modulus: nat, q: nat, size: Positive, r: nat, a: nat, b: nat)
    requires modulus == q * size + r && r < size
    requires b < a < modulus && b + modulus - a < r
    ensures a % size != b % size
  {
    DivModOf(a, q, size, r - (modulus - a));
    DivModOf(b, 0, size, b);
  }

  lemma CrossingDistinct(modulus: Positive, size: Positive, cap: nat, a: nat, b: nat)
    requires size <= modulus && WrapSafe(modulus, size, cap)
    requires b < a < modulus && b + modulus - a < cap
    ensures a % size != b % size
  {
    var q, r := modulus / size, modulus % size;
    if r == 0 {
      CrossingDivides(modulus, q, size, a, b);
    } else {
      CrossingRemainder(modulus, q, size, r, a, b);
    }
  }

  lemma SlotsDistinctFrom(modulus: Positive, size: Positive, cap: nat, tail: nat, i: nat, j: nat)
    requires size <= modulus && tail < modulus && WrapSafe(modulus, size, cap) && i < j < cap
    ensures SlotOf(modulus, size, tail, i) != SlotOf(modulus, size, tail, j)
  {
    AdvanceMeaning(modulus, tail, i);
    AdvanceMeaning(modulus, tail, j);
    var a, b := Advance(modulus, tail, i), Advance(modulus, tail, j);
    if a < b {
      ModOffset(a, j - i, size);
    } else {
      CrossingDistinct(modulus, size, cap, a, b);
    }
  }

  lemma SlotsDistinct(modulus: Positive, size: Positive, cap: nat, tail: nat, i: nat, j: nat)
    requires size <= modulus && WrapSafe(modulus, size, cap) && i < j < cap
    ensures SlotOf(modulus, size, tail, i) != SlotOf(modulus, size, tail, j)
  {
    AdvanceTwice(modulus, tail, 0, i);
    AdvanceTwice(modulus, tail, 0, j);
    SlotsDistinctFrom(modulus, size, cap, Advance(modulus, tail, 0), i, j);
  }

  /** Every two of the first `cap` slots past any tail position differ. */
  ghost predicate NeverCollides(modulus: Positive, size: Positive, cap: nat) {
    forall tail: nat, i: nat, j: nat | tail < modulus && i < j < cap ::
      SlotOf(modulus, size, tail, i) != SlotOf(modulus, size, tail, j)
  }

  lemma OtherwiseCollides(modulus: Positive, size: Positive, cap: nat)
    requires size <= modulus && 0 < modulus % size < cap <= size
    ensures !NeverCollides(modulus, size, cap)
  {
    var r := modulus % size;
    var a := modulus - r;
    DivModOf(a, modulus / size, size, 0);
    AdvanceMeaning(modulus, a, 0);
    AdvanceMeaning(modulus, a, r);
    DivModOf(0, 0, size, 0);
    assert SlotOf(modulus, size, a, 0) == SlotOf(modulus, size, a, r);
  }

  /** `WrapSafe` is the exact condition: live slots never collide if and only if it holds (as long as
      the ring has room for `cap` slots at all). */
  lemma WrapSafeIsExact(modulus: Positive, size: Positive, cap: nat)
    requires size <= modulus && cap <= size
    ensures WrapSafe(modulus, size, cap) <==> NeverCollides(modulus, size, cap)
  {
    if WrapSafe(modulus, size, cap) {
      forall tail: nat, i: nat, j: nat | tail < modulus && i < j < cap
        ensures SlotOf(modulus, size, tail, i) != SlotOf(modulus, size, tail, j)
      {
        SlotsDistinct(modulus, size, cap, tail, i, j);
      }
    } else {
      OtherwiseCollides(modulus, size, cap);
    }
  }

  // ----- What the firmware reads off a ring -----

  /** The tail counter, and the entries from tail to head as they would be popped, oldest first. */
  datatype Window<T> = Window(tail: nat, live: seq<T>)

  /** A push writes the array slot behind the last live entry, and with it every live entry that shares the slot. */
  function Overlaid<T>(modulus: Positive, size: Positive, w: Window<T>, x: T): (r: seq<T>)
    ensures |r| == |w.live|
  {
    var n := |w.live|;
    seq(n, i requires 0 <= i < n =>
      if SlotOf(modulus, size, w.tail, i) == SlotOf(modulus, size, w.tail, n) then x else w.live[i])
  }

  /** Of the first `n` entries past `tail`, the newest that shares the array slot of the oldest: a pop reads what it wrote. */
  function Writer(modulus: Positive, size: Positive, tail: nat, n: nat): (i: nat)
    ensures i < n || i == n == 0
  {
    if n <= 1 then 0
    else if SlotOf(modulus, size, tail, n - 1) == SlotOf(modulus, size, tail, 0) then n - 1
    else Writer(modulus, size, tail, n - 1)
  }

  /** As long as no two entries share a slot that is the oldest itself. */
  lemma {:induction false} WriterIsOldest(modulus: Positive, size: Positive, tail: nat, n: nat)
    requires forall i | 0 < i < n :: SlotOf(modulus, size, tail, i) != SlotOf(modulus, size, tail, 0)
    ensures Writer(modulus, size, tail, n) == 0
  {
    if n > 1 {
      WriterIsOldest(modulus, size, tail, n - 1);
    }
  }

  /** A push. When the head catches up with the tail the ring reads as empty. */
  function Pushed<T>(modulus: Positive, size: Positive, w: Window<T>, x: T): Window<T> {
    Window(w.tail, if |w.live| + 1 == modulus then [] else Overlaid(modulus, size, w, x) + [x])
  }

  function Popped<T>(modulus: Positive, w: Window<T>): Window<T> {
    if w.live == [] then w else Window(Advance(modulus, w.tail, 1), w.live[1..])
  }

  /** tail = head. */
  function Drained<T>(modulus: Positive, w: Window<T>): Window<T> {
    Window(Advance(modulus, w.tail, |w.live|), [])
  }

  /** The next push destroys no live entry. */
  ghost predicate HasRoom<T>(modulus: Positive, size: Positive, w: Window<T>) {
    var n := |w.live|;
    n < size && n + 1 < modulus
    && forall i | 0 <= i < n :: SlotOf(modulus, size, w.tail, i) != SlotOf(modulus, size, w.tail, n)
  }

  lemma PushedWithRoom<T>(modulus: Positive, size: Positive, w: Window<T>, x: T)
    requires HasRoom(modulus, size, w)
    ensures Pushed(modulus, size, w, x).live == w.live + [x]
  {
  }

  /** Fewer live entries than the cap always leave room. */
  lemma RoomBelowCap<T>(modulus: Positive, size: Positive, cap: nat, w: Window<T>)
    requires size < modulus && WrapSafe(modulus, size, cap) && |w.live| < cap
    ensures HasRoom(modulus, size, w)
  {
    forall i | 0 <= i < |w.live|
      ensures SlotOf(modulus, size, w.tail, i) != SlotOf(modulus, size, w.tail, |w.live|)
    {
      SlotsDistinct(modulus, size, cap, w.tail, i, |w.live|);
    }
  }

  /** Whatever a push destroys, the newest `cap - 1` entries before it survive; `k` counts from the end. */
  lemma NewestSurvive<T>(modulus: Positive, size: Positive, cap: nat, w: Window<T>, x: T, k: nat)
    requires size < modulus && WrapSafe(modulus, size, cap)
    requires 1 <= k <= cap && k <= |Pushed(modulus, size, w, x).live|
    ensures var r := Pushed(modulus, size, w, x).live;
            r[|r| - k] == if k == 1 then x else w.live[|w.live| - (k - 1)]
  {
    if k > 1 {
      var n := |w.live|;
      SlotsDistinct(modulus, size, cap, w.tail + (n - (k - 1)), 0, k - 1);
    }
  }

  /** With a size that divides the counter's range there is room exactly as long as a slot is free. */
  lemma RoomExactly<T>(modulus: Positive, size: Positive, w: Window<T>)
    requires size < modulus && modulus % size == 0
    ensures HasRoom(modulus, size, w) <==> |w.live| < size
  {
    if |w.live| < size {
      RoomBelowCap(modulus, size, size, w);
    }
  }

  /** The `n` entries past `tail`, oldest first. */
  ghost function Entries<T>(slots: seq<T>, modulus: Positive, tail: nat, n: nat): (w: seq<T>)
    requires 0 < |slots|
    ensures |w| == n
  {
    seq(n, i requires 0 <= i < n => slots[SlotOf(modulus, |slots|, tail, i)])
  }

  /** One ring. `head` and `tail` are the uint8_t or uint32_t counters of the firmware; `view` is what it reads off
      them. */
  class Ring<T(0)> {
    const slots: array<T>
    const modulus: Positive
    var head: nat
    var tail: nat
    ghost var view: Window<T>

    ghost predicate Valid()
      reads this, slots
    {
      && 0 < slots.Length
      && tail == view.tail < modulus && |view.live| < modulus
      && head == Advance(modulus, tail, |view.live|)
      && view.live == Entries(slots[..], modulus, tail, |view.live|)
    }

    constructor (size: Positive, modulus: Positive)
      ensures Valid() && fresh(slots)
      ensures slots.Length == size && this.modulus == modulus && view == Window(0, [])
    {
      slots := new T[size];
      this.modulus := modulus;
      head, tail, view := 0, 0, Window(0, []);
    }

    method Push(x: T)
      requires Valid()
      modifies this`head, this`view, slots
      ensures Valid()
      ensures view == Pushed(modulus, slots.Length, old(view), x)
    {
      ghost var was, n := view, |view.live|;
      AdvanceTwice(modulus, tail, n, 0);
      AdvanceTwice(modulus, tail, n, 1);
      var slot := SlotOf(modulus, slots.Length, head, 0);
      slots[slot] := x;
      head := Advance(modulus, head, 1);
      view := Pushed(modulus, slots.Length, was, x);
      if n + 1 == modulus {
        AdvanceMeaning(modulus, tail, modulus);
        AdvanceMeaning(modulus, tail, 0);
      } else {
        assert view.live == Entries(slots[..], modulus, tail, n + 1);
      }
    }

    /** Pops the oldest entry; an empty ring yields `none`. */
    method Pop(none: T) returns (x: T)
      requires Valid()
      modifies this`tail, this`view
      ensures Valid()
      ensures view == Popped(modulus, old(view))
      ensures x == if old(view).live == [] then none else old(view).live[0]
    {
      ghost var n := |view.live|;
      AdvanceMeaning(modulus, tail, n);
      if tail == head {
        return none;
      }
      x := slots[SlotOf(modulus, slots.Length, tail, 0)];
      ghost var was := tail;
      tail := Advance(modulus, tail, 1);
      view := Popped(modulus, view);
      AdvanceTwice(modulus, was, 1, n - 1);
      forall i | 0 <= i < n - 1
        ensures view.live[i] == Entries(slots[..], modulus, tail, n - 1)[i]
      {
        AdvanceTwice(modulus, was, 1, i);
      }
    }

    /** Abandons every live entry. */
    method Drain()
      requires Valid()
      modifies this`tail, this`view
      ensures Valid() && view == Drained(modulus, old(view))
    {
      tail := head;
      view := Drained(modulus, view);
      AdvanceMeaning(modulus, tail, 0);
    }
  }
}
