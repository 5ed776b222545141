/** The fates of packets: what the ledger says of them, and what each entry in it does to the copies and the losses. */
module Ledgers {
  import opened TransportModel

  /** The motion refunded for packets that wait all the same. */
  function Again(fates: seq<Fate>): Motion {
    if fates == [] then STILL else Add(AgainOf(fates[0]), Again(fates[1..]))
  }

  /** The motion that is missing of packets that left the FIFO undelivered. */
  function Missing(fates: seq<Fate>): Motion {
    if fates == [] then STILL else Add(MissingOf(fates[0]), Missing(fates[1..]))
  }

  /** The motion that exists twice: refunded although its packet waits or was delivered, or refunded twice. */
  function Copies(l: Ledger): Motion {
    Add(l.doubled, Again(l.fates))
  }

  lemma {:induction false} FatesAppend(fates: seq<Fate>, f: Fate)
    ensures Again(fates + [f]) == Add(Again(fates), AgainOf(f))
    ensures Missing(fates + [f]) == Add(Missing(fates), MissingOf(f))
  {
    if fates != [] {
      FatesAppend(fates[1..], f);
      assert (fates + [f])[1..] == fates[1..] + [f];
    }
  }

  lemma {:induction false} AgainUpdate(fates: seq<Fate>, i: nat, f: Fate)
    requires i < |fates|
    ensures Again(fates[i := f]) == Add(Sub(Again(fates), AgainOf(fates[i])), AgainOf(f))
  {
    if i == 0 {
      assert fates[i := f][1..] == fates[1..];
    } else {
      AgainUpdate(fates[1..], i - 1, f);
      assert fates[i := f][1..] == fates[1..][i - 1 := f];
    }
  }

  lemma {:induction false} MissingUpdate(fates: seq<Fate>, i: nat, f: Fate)
    requires i < |fates|
    ensures Missing(fates[i := f]) == Add(Sub(Missing(fates), MissingOf(fates[i])), MissingOf(f))
  {
    if i == 0 {
      assert fates[i := f][1..] == fates[1..];
    } else {
      MissingUpdate(fates[1..], i - 1, f);
      assert fates[i := f][1..] == fates[1..][i - 1 := f];
    }
  }

  lemma FatesUpdate(fates: seq<Fate>, i: nat, f: Fate)
    requires i < |fates|
    ensures Again(fates[i := f]) == Add(Sub(Again(fates), AgainOf(fates[i])), AgainOf(f))
    ensures Missing(fates[i := f]) == Add(Sub(Missing(fates), MissingOf(fates[i])), MissingOf(f))
  {
    AgainUpdate(fates, i, f);
    MissingUpdate(fates, i, f);
  }

  lemma {:induction false} NothingAgain(fates: seq<Fate>)
    requires forall i | 0 <= i < |fates| :: AgainOf(fates[i]) == STILL
    ensures Again(fates) == STILL
  {
    if fates != [] {
      assert AgainOf(fates[0]) == STILL;
      NothingAgain(fates[1..]);
    }
  }

  lemma AddStill(m: Motion)
    ensures Add(STILL, m) == m == Add(m, STILL) && Sub(m, STILL) == m && Sub(m, m) == STILL
  {
  }

  // ----- One fate for each packet -----

  /** The packets that wait are exactly the `n` in the FIFO, each once, in the order in which they were sent. */
  ghost predicate Sound(l: Ledger, n: nat) {
    && |l.queue| == n
    && (forall i | 0 <= i < n :: l.queue[i] < |l.fates| && l.fates[l.queue[i]].Waiting?)
    && (forall i, j | 0 <= i < j < n :: l.queue[i] < l.queue[j])
    && (forall id | 0 <= id < |l.fates| && l.fates[id].Waiting? :: id in l.queue)
  }

  /** There is one number for each of the `n` live slots, in the order in which they were pushed. */
  ghost predicate Slotted(l: Ledger, n: nat) {
    && |l.slots| == n
    && (forall j | 0 <= j < n :: l.slots[j] < |l.fates|)
    && (forall i, j | 0 <= i < j < n :: l.slots[i] < l.slots[j])
  }

  lemma BookedSound(l: Ledger, n: nat, written: bool, out: Motion, wraps: bool)
    requires Sound(l, n)
    ensures Sound(Booked(l, written, out, wraps), if written then n + 1 else n)
  {
    var u := Booked(l, written, out, wraps);
    forall id | 0 <= id < |u.fates| && u.fates[id].Waiting?
      ensures id in u.queue
    {
      if id < |l.fates| {
        assert id in l.queue;
      } else {
        assert u.queue[n] == id;
      }
    }
  }

  lemma BookedMotion(l: Ledger, written: bool, out: Motion, wraps: bool)
    ensures var u := Booked(l, written, out, wraps);
            Copies(u) == Copies(l) && Missing(u.fates) == if written then Missing(l.fates) else Add(Missing(l.fates), out)
  {
    FatesAppend(l.fates, if written then Waiting(STILL) else Gone(out));
  }

  lemma VisitingSound(l: Ledger, n: nat)
    requires Sound(l, n)
    ensures Sound(Visiting(l), n + 1)
  {
    var u := Visiting(l);
    forall id | 0 <= id < |u.fates| && u.fates[id].Waiting?
      ensures id in u.queue
    {
      if id < |l.fates| {
        assert id in l.queue;
      } else {
        assert u.queue[n] == id;
      }
    }
  }

  lemma VisitingMotion(l: Ledger)
    ensures var u := Visiting(l); Copies(u) == Copies(l) && Missing(u.fates) == Missing(l.fates)
  {
    FatesAppend(l.fates, Waiting(STILL));
  }

  /** The front packet gets its final fate. */
  lemma FrontSound(l: Ledger, u: Ledger, n: nat, f: Fate)
    requires Sound(l, n) && 0 < n && !f.Waiting?
    requires u.queue == l.queue[1..] && u.fates == l.fates[l.queue[0] := f]
    ensures Sound(u, n - 1)
  {
    forall i | 0 <= i < n - 1
      ensures u.queue[i] < |u.fates| && u.fates[u.queue[i]].Waiting?
    {
      assert l.queue[0] < l.queue[i + 1];
    }
    forall id | 0 <= id < |u.fates| && u.fates[id].Waiting?
      ensures id in u.queue
    {
      assert id in l.queue && id != l.queue[0];
    }
  }

  lemma LandedSound(l: Ledger, n: nat)
    requires Sound(l, n) && 0 < n
    ensures Sound(Landed(l), n - 1)
  {
    FrontSound(l, Landed(l), n, Arrived);
  }

  lemma LandedMotion(l: Ledger, n: nat)
    requires Sound(l, n) && 0 < n
    ensures var u := Landed(l); Copies(u) == Copies(l) && Missing(u.fates) == Missing(l.fates)
  {
    FatesUpdate(l.fates, l.queue[0], Arrived);
  }

  lemma ShedSound(l: Ledger, n: nat, m: Motion)
    requires Sound(l, n) && 0 < n
    ensures Sound(Shed(l, m), n - 1)
  {
    FrontSound(l, Shed(l, m), n, Shed(l, m).fates[l.queue[0]]);
  }

  /** The motion of the front packet if it was refunded. */
  function Refound(l: Ledger, m: Motion): Motion {
    if l.queue == [] || AgainOf(FateOf(l, l.queue[0])) == STILL then STILL else m
  }

  lemma ShedMotion(l: Ledger, n: nat, m: Motion)
    requires Sound(l, n) && 0 < n
    ensures var u, r := Shed(l, m), Refound(l, m);
            Copies(u) == Sub(Copies(l), r) && Missing(u.fates) == Add(Missing(l.fates), Sub(m, r))
  {
    FatesUpdate(l.fates, l.queue[0], Shed(l, m).fates[l.queue[0]]);
  }

  /** The motion of the packets in the FIFO that were refunded. */
  function RefoundIn(l: Ledger, fifo: seq<Packet>): Motion
    decreases |fifo|
  {
    if fifo == [] then STILL
    else
      var m := MotionOf(fifo[0].payload);
      Add(Refound(l, m), RefoundIn(Shed(l, m), fifo[1..]))
  }

  lemma {:induction false} EmptiedSound(l: Ledger, fifo: seq<Packet>)
    requires Sound(l, |fifo|)
    ensures var u := Emptied(l, fifo); Sound(u, 0) && |u.fates| == |l.fates| && u.slots == l.slots
    decreases |fifo|
  {
    if fifo != [] {
      ShedSound(l, |fifo|, MotionOf(fifo[0].payload));
      EmptiedSound(Shed(l, MotionOf(fifo[0].payload)), fifo[1..]);
    }
  }

  lemma {:induction false} EmptiedMotion(l: Ledger, fifo: seq<Packet>)
    requires Sound(l, |fifo|)
    ensures var u, r := Emptied(l, fifo), RefoundIn(l, fifo);
            Copies(u) == Sub(Copies(l), r) && Missing(u.fates) == Add(Missing(l.fates), Sub(FifoMotion(fifo), r))
    decreases |fifo|
  {
    if fifo != [] {
      var m, rest := MotionOf(fifo[0].payload), fifo[1..];
      var v := Shed(l, m);
      ShedSound(l, |fifo|, m);
      ShedMotion(l, |fifo|, m);
      EmptiedMotion(v, rest);
      assert Emptied(l, fifo) == Emptied(v, rest);
      assert RefoundIn(l, fifo) == Add(Refound(l, m), RefoundIn(v, rest));
      assert FifoMotion(fifo) == Add(m, FifoMotion(rest));
      hide Shed, Refound, Emptied, RefoundIn, FifoMotion, Copies, Missing, Again, Sound;
      TakeTwice(Copies(l), Refound(l, m), RefoundIn(v, rest));
      AddTwice(Missing(l.fates), m, Refound(l, m), FifoMotion(rest), RefoundIn(v, rest));
    } else {
      AddStill(Copies(l));
      AddStill(Missing(l.fates));
    }
  }

  lemma TakeTwice(x: Motion, r: Motion, q: Motion)
    ensures Sub(Sub(x, r), q) == Sub(x, Add(r, q))
  {
  }

  lemma AddTwice(x: Motion, m: Motion, r: Motion, n: Motion, q: Motion)
    ensures Add(Add(x, Sub(m, r)), Sub(n, q)) == Add(x, Sub(Add(m, n), Add(r, q)))
  {
  }

  lemma CreditedSound(l: Ledger, n: nat, id: nat, m: Motion)
    requires Sound(l, n)
    ensures Sound(Credited(l, id, m), n)
  {
  }

  /** As much is missing of the packet: it was discarded undelivered, and not refunded since. */
  predicate Misses(l: Ledger, id: nat, m: Motion) {
    FateOf(l, id) == Gone(m)
  }

  /** A refund takes off the losses exactly what is booked there for its packet, or else makes a copy. */
  lemma CreditedMotion(l: Ledger, id: nat, m: Motion)
    ensures var u := Credited(l, id, m);
            if Misses(l, id, m)
            then Copies(u) == Copies(l) && Missing(u.fates) == Sub(Missing(l.fates), m) && FateOf(u, id) == Gone(STILL)
            else Copies(u) == Add(Copies(l), m) && Missing(u.fates) == Missing(l.fates)
  {
    if id < |l.fates| {
      FatesUpdate(l.fates, id, FateOf(Credited(l, id, m), id));
    }
  }

  // ----- Refunds of packets that wait -----

  /** Nothing was refunded for the packets in the FIFO. */
  ghost predicate Untouched(l: Ledger) {
    forall i | 0 <= i < |l.queue| :: AgainOf(FateOf(l, l.queue[i])) == STILL
  }

  /** The others keep their fates when the front packet leaves. */
  lemma ShedLeaves(l: Ledger, n: nat, m: Motion)
    requires Sound(l, n) && 0 < n
    ensures var v := Shed(l, m);
            && Sound(v, n - 1) && |v.queue| == n - 1
            && forall i | 0 <= i < n - 1 :: FateOf(v, v.queue[i]) == FateOf(l, l.queue[i + 1])
  {
    var v := Shed(l, m);
    ShedSound(l, n, m);
    forall i | 0 <= i < n - 1
      ensures FateOf(v, v.queue[i]) == FateOf(l, l.queue[i + 1])
    {
      assert v.queue[i] == l.queue[i + 1] && l.queue[0] < l.queue[i + 1];
    }
  }

  lemma {:induction false} NoneRefound(l: Ledger, fifo: seq<Packet>)
    requires Sound(l, |fifo|) && Untouched(l)
    ensures RefoundIn(l, fifo) == STILL
    decreases |fifo|
  {
    if fifo != [] {
      ShedLeaves(l, |fifo|, MotionOf(fifo[0].payload));
      assert AgainOf(FateOf(l, l.queue[0])) == STILL;
      hide Shed, FateOf;
      NoneRefound(Shed(l, MotionOf(fifo[0].payload)), fifo[1..]);
      AddStill(STILL);
    }
  }

  /** Only the `k`-th packet in the FIFO was refunded. */
  ghost predicate TouchedAt(l: Ledger, k: nat)
    requires k < |l.queue|
  {
    && AgainOf(FateOf(l, l.queue[k])) != STILL
    && forall i | 0 <= i < |l.queue| && i != k :: AgainOf(FateOf(l, l.queue[i])) == STILL
  }

  lemma TouchedFront(l: Ledger, m: Motion, k: nat)
    requires k < |l.queue| && TouchedAt(l, k)
    ensures Refound(l, m) == if k == 0 then m else STILL
  {
    assert k != 0 ==> AgainOf(FateOf(l, l.queue[0])) == STILL;
    hide FateOf, AgainOf;
  }

  lemma TouchedRest(l: Ledger, n: nat, m: Motion, k: nat)
    requires Sound(l, n) && k < n && TouchedAt(l, k)
    ensures var v := Shed(l, m);
            Sound(v, n - 1) && if k == 0 then Untouched(v) else k - 1 < |v.queue| && TouchedAt(v, k - 1)
  {
    ShedLeaves(l, n, m);
    hide Shed, FateOf, AgainOf, Sound;
  }

  lemma {:induction false} OneRefound(l: Ledger, fifo: seq<Packet>, k: nat)
    requires Sound(l, |fifo|) && k < |fifo| && TouchedAt(l, k)
    ensures RefoundIn(l, fifo) == MotionOf(fifo[k].payload)
    decreases |fifo|
  {
    var m, rest := MotionOf(fifo[0].payload), fifo[1..];
    TouchedFront(l, m, k);
    TouchedRest(l, |fifo|, m, k);
    hide Shed, FateOf, Sound, TouchedAt, Untouched, Refound, MotionOf;
    assert RefoundIn(l, fifo) == Add(Refound(l, m), RefoundIn(Shed(l, m), rest));
    hide RefoundIn;
    if k == 0 {
      NoneRefound(Shed(l, m), rest);
      AddStill(m);
    } else {
      OneRefound(Shed(l, m), rest, k - 1);
      AddStill(MotionOf(rest[k - 1].payload));
    }
  }

  /** With an empty FIFO all the copies are doubled motion. */
  lemma EmptyCopies(l: Ledger)
    requires Sound(l, 0)
    ensures Copies(l) == l.doubled && forall id | 0 <= id < |l.fates| :: AgainOf(l.fates[id]) == STILL
  {
    NothingAgain(l.fates);
    AddStill(l.doubled);
  }
}
