/** The keyboard and consumer side in the form the firmware gives it: report bodies, reference counts and pending
    arrays that event handlers update in place. */
module HidMachine {
  import opened Words
  import opened Deferral
  import opened Modifiers
  import opened HidRelay
  import K = KeySlots

  /** kb_body, cons_body and the modifier counts. */
  class Tracker {
    const keys: K.KeyArray
    const cons: K.KeyArray
    const explicit: ModCounts
    const implicit: ModCounts

    ghost function Footprint(): set<object> {
      {keys, keys.keys, cons, cons.keys, explicit, explicit.counts, implicit, implicit.counts}
    }

    ghost predicate Valid()
      reads Footprint()
    {
      && keys.Valid() && cons.Valid() && explicit.Valid() && implicit.Valid()
      && keys != cons && keys.keys != cons.keys && explicit != implicit && explicit.counts != implicit.counts
      && {keys.keys as object, cons.keys} !! {explicit.counts as object, implicit.counts}
    }

    ghost function Abs(): Body
      reads Footprint()
    {
      Body(keys.view, cons.view, explicit.view, implicit.view)
    }

    constructor (c: Config)
      ensures Valid() && fresh(Footprint())
      ensures Abs() == Body(Zeros(c.kbSlots), Zeros(c.consSlots), NO_MODS, NO_MODS)
    {
      keys := new K.KeyArray(c.kbSlots);
      cons := new K.KeyArray(c.consSlots);
      explicit := new ModCounts();
      implicit := new ModCounts();
    }

    method OnKeys(ev: Event)
      requires Valid()
      modifies keys, keys.keys, cons, cons.keys
      ensures Valid() && Abs() == TrackKeys(old(Abs()), ev)
    {
      if ev.page == Keyboard && !IsMod(ev) {
        if ev.pressed {
          keys.Add(ev.keycode % 0x100, ev.keycode % 0x100);
        } else {
          keys.Remove(ev.keycode % 0x100);
        }
      } else if ev.page == Consumer {
        if ev.pressed {
          cons.Add(ev.keycode, ev.keycode % 0x1_0000);
        } else {
          cons.Remove(ev.keycode);
        }
      }
    }

    method OnMods(ev: Event)
      requires Valid()
      modifies explicit, explicit.counts, implicit, implicit.counts
      ensures Valid() && Abs() == TrackMods(old(Abs()), ev)
    {
      var what := Touched(ev);
      if ev.page != Other {
        if ev.pressed {
          explicit.Add(what.explicit);
          implicit.Add(what.implicit);
        } else {
          explicit.Remove(what.explicit);
          implicit.Remove(what.implicit);
        }
      }
    }

    method OnEvent(ev: Event)
      requires Valid()
      modifies Footprint()
      ensures Valid() && Abs() == Track(old(Abs()), ev)
    {
      OnKeys(ev);
      OnMods(ev);
    }

    /** The keyboard report as it stands. */
    method Report() returns (r: KbReport)
      requires Valid()
      ensures r == Snapshot(Abs())
    {
      r := KbReport(Or(explicit.flags, implicit.flags), keys.keys[..]);
      assert r.modifiers == Either(explicit.view, implicit.view);
    }
  }

  function Or(a: Mask, b: Mask): Mask {
    seq(8, k requires 0 <= k < 8 => a[k] || b[k])
  }

  /** A pending queue together with what was handed to the transport. */
  class Output<T(0)> {
    const queue: DeferQueue<T>
    var sent: seq<T>

    ghost predicate Valid()
      reads this, queue, queue.slots
    {
      queue.Valid()
    }

    ghost function Abs(): Lane<T>
      reads this, queue
    {
      Lane(sent, queue.contents)
    }

    constructor (depth: nat)
      requires 0 < depth
      ensures Valid() && Abs() == Lane([], []) && queue.slots.Length == depth && fresh(queue) && fresh(queue.slots)
    {
      queue := new DeferQueue<T>(depth);
      sent := [];
    }

    /** send_keyboard and send_consumer. */
    method Send(x: T, quiet: bool)
      requires Valid()
      modifies this, queue, queue.slots
      ensures Valid() && Abs() == LaneStep(queue.slots.Length, old(Abs()), LaneOp.Report(x, quiet))
    {
      if quiet {
        queue.Enqueue(x);
      } else {
        var out := queue.Drain();
        sent := sent + out + [x];
      }
    }

    method Flush()
      requires Valid()
      modifies this, queue, queue.slots
      ensures Valid() && Abs() == LaneStep(queue.slots.Length, old(Abs()), Serve(false))
    {
      var out := queue.Drain();
      sent := sent + out;
    }

    method Sweep()
      requires Valid()
      modifies queue, queue.slots
      ensures Valid() && Abs() == LaneStep(queue.slots.Length, old(Abs()), Clean)
    {
      queue.Clear();
    }
  }

  class Machine {
    const c: Config
    const body: Tracker
    const kb: Output<KbReport>
    const cons: Output<seq<nat>>
    var retry: bool
    var wasActive: bool

    ghost function Outputs(): set<object> {
      {kb, kb.queue, kb.queue.slots, cons, cons.queue, cons.queue.slots}
    }

    ghost predicate Valid()
      reads this, body.Footprint(), Outputs()
    {
      && ValidConfig(c)
      && body.Valid() && kb.Valid() && cons.Valid()
      && kb.queue.slots.Length == c.kbDepth && cons.queue.slots.Length == c.consDepth
    }

    ghost function Abs(): Relay
      reads this, body.Footprint(), Outputs()
    {
      Relay(body.Abs(), kb.Abs(), cons.Abs(), retry, wasActive)
    }

    constructor (c: Config)
      requires ValidConfig(c)
      ensures Valid() && Abs() == Init(c) && this.c == c
    {
      this.c := c;
      retry, wasActive := false, false;
      var body := new Tracker(c);
      var kb := new Output<KbReport>(c.kbDepth);
      assert body.Valid();
      var cons := new Output<seq<nat>>(c.consDepth);
      assert body.Valid() && kb.Valid();
      this.body, this.kb, this.cons := body, kb, cons;
    }

    method SendKeyboard(quiet: bool)
      requires Valid()
      modifies this`retry, kb, kb.queue, kb.queue.slots
      ensures Valid() && Abs() == SendKb(c, old(Abs()), quiet)
    {
      var r := body.Report();
      kb.Send(r, quiet);
      if quiet {
        retry := true;
      }
    }

    method SendConsumer(quiet: bool)
      requires Valid()
      modifies this`retry, cons, cons.queue, cons.queue.slots
      ensures Valid() && Abs() == SendCons(c, old(Abs()), quiet)
    {
      cons.Send(body.cons.keys[..], quiet);
      if quiet {
        retry := true;
      }
    }

    /** The cleanup on the falling edge. */
    method NoteActive(active: bool)
      requires Valid()
      modifies this`retry, this`wasActive, Outputs()
      ensures Valid() && Abs() == Edge(c, old(Abs()), active)
    {
      if wasActive && !active {
        retry := false;
        kb.Sweep();
        cons.Sweep();
      }
      wasActive := active;
    }

    method TrackEvent(ev: Event)
      requires Valid()
      modifies body.Footprint()
      ensures Valid() && Abs() == old(Abs()).(body := Track(old(Abs()).body, ev))
    {
      body.OnEvent(ev);
    }

    /** hid_relay_cb; says whether the event was consumed. */
    method OnEvent(ev: Event, active: bool, quiet: bool) returns (handled: bool)
      requires Valid()
      modifies this`retry, this`wasActive, body.Footprint(), Outputs()
      ensures Valid() && Abs() == Handle(c, old(Abs()), ev, active, quiet)
      ensures handled == (active && ev.page != Other)
    {
      NoteActive(active);
      TrackEvent(ev);
      if active && SendsKb(ev) {
        SendKeyboard(quiet);
      }
      if active && ev.page == Consumer {
        SendConsumer(quiet);
      }
      handled := active && ev.page != Other;
    }

    /** hid_retry_work_fn, if it is scheduled. */
    method OnRetry(quiet: bool)
      requires Valid()
      modifies this`retry, Outputs()
      ensures Valid() && Abs() == Retry(c, old(Abs()), quiet)
    {
      if retry && !quiet {
        kb.Flush();
        cons.Flush();
        retry := false;
      }
    }
  }
}
