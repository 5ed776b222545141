/** The input processor in the form the firmware gives it: accumulators, a button byte and an array of pending button
    states, updated in place. */
module PointerMachine {
  import opened Words
  import opened Deferral
  import opened TransportModel
  import P = Pointer

  class Processor {
    const pc: P.IpConfig
    const pending: DeferQueue<U8>
    var dx: int
    var dy: int
    var scrollX: int
    var scrollY: int
    var buttons: U8
    var start: U32
    var retry: bool

    ghost predicate Valid()
      reads pending, pending.slots
    {
      P.ValidIp(pc) && pending.Valid() && pending.slots.Length == pc.queue
    }

    ghost function Abs(): P.Instance
      reads this, pending
    {
      P.Instance(Motion(dx, dy, scrollX, scrollY), buttons, start, pending.contents, retry)
    }

    constructor (pc: P.IpConfig)
      requires P.ValidIp(pc)
      ensures Valid() && Abs() == P.FRESH && this.pc == pc && fresh(pending) && fresh(pending.slots)
    {
      this.pc := pc;
      pending := new DeferQueue<U8>(pc.queue);
      dx, dy, scrollX, scrollY, buttons, start, retry := 0, 0, 0, 0, 0, 0, false;
    }

    /** drain_pending_buttons. */
    method DrainButtons() returns (out: seq<P.MouseReport>)
      requires Valid()
      modifies pending`count, pending`contents
      ensures Valid() && Abs() == old(Abs()).(pending := []) && out == P.Replay(old(Abs()).pending)
    {
      var states := pending.Drain();
      out := [];
      for i := 0 to |states|
        invariant out == P.Replay(states[..i])
      {
        assert states[..i + 1][..i] == states[..i];
        out := out + [P.MouseReport(states[i], STILL)];
      }
      assert states[..|states|] == states;
    }

    method ClearMotion()
      modifies this`dx, this`dy, this`scrollX, this`scrollY, this`start
      ensures Abs() == old(Abs()).(accum := STILL, start := 0)
    {
      dx, dy, scrollX, scrollY, start := 0, 0, 0, 0, 0;
    }

    /** send_mouse_report. */
    method SendMouseReport(changed: bool, held: bool, now: U32)
      returns (out: seq<P.MouseReport>, ghost dropped: Motion)
      requires Valid()
      modifies this`dx, this`dy, this`scrollX, this`scrollY, this`start, this`retry, pending, pending.slots
      ensures Valid() && P.Turn(Abs(), out, dropped) == P.Submit(pc, old(Abs()), changed, held, now)
    {
      out, dropped := [], STILL;
      if held {
        if changed {
          pending.Enqueue(buttons);
          retry := true;
        }
        return;
      }
      out := DrainButtons();
      if !changed && start != 0 {
        var age := Wrap32(now - start);
        if age > pc.staleMs {
          dropped := Motion(dx, dy, scrollX, scrollY);
          ClearMotion();
          return;
        }
      }
      var m := Motion(dx, dy, scrollX, scrollY);
      dropped := Sub(m, Saturate(m));
      out := out + [P.MouseReport(buttons, m)];
      ClearMotion();
    }

    /** What an input event does to the accumulators and the buttons. */
    method Accumulate(ev: P.Input, now: U32)
      requires Valid()
      modifies this`dx, this`dy, this`scrollX, this`scrollY, this`start, this`buttons
      ensures Abs() == P.Accumulate(old(Abs()), ev, now)
    {
      match ev {
        case Rel(code, value, _) =>
          if start == 0 {
            start := NonZero(now);
          }
          match code {
            case RelX => dx := dx + value;
            case RelY => dy := dy + value;
            case Wheel => scrollY := scrollY + value;
            case HWheel => scrollX := scrollX + value;
            case OtherRel =>
          }
        case Button(btn, down, _) =>
          if btn <= 4 {
            buttons := P.SetButton(buttons, btn, down);
          }
        case OtherInput(_) =>
      }
    }

    /** esb_ip_handle_event. */
    method HandleEvent(ev: P.Input, active: bool, held: bool, now: U32)
      returns (out: seq<P.MouseReport>, ghost dropped: Motion)
      requires Valid()
      modifies this, pending, pending.slots
      ensures Valid() && P.Turn(Abs(), out, dropped) == P.OnInput(pc, old(Abs()), ev, active, held, now)
    {
      out, dropped := [], STILL;
      if active {
        var before := buttons;
        Accumulate(ev, now);
        var changed := buttons != before;
        if ev.sync || changed {
          out, dropped := SendMouseReport(changed, held, now);
        }
      }
    }

    /** retry_work_fn, if it is scheduled. */
    method RunRetry(held: bool, now: U32) returns (out: seq<P.MouseReport>, ghost dropped: Motion)
      requires Valid()
      modifies this`dx, this`dy, this`scrollX, this`scrollY, this`start, this`retry, pending, pending.slots
      ensures Valid() && P.Turn(Abs(), out, dropped) == P.OnRetry(pc, old(Abs()), held, now)
    {
      out, dropped := [], STILL;
      if retry && !held {
        retry := false;
        out := DrainButtons();
        if start != 0 {
          var age := Wrap32(now - start);
          var m := Motion(dx, dy, scrollX, scrollY);
          if age <= pc.staleMs && m != STILL {
            out := out + [P.MouseReport(buttons, m)];
            dropped := Sub(m, Saturate(m));
          } else {
            dropped := m;
          }
          ClearMotion();
        }
      }
    }
  }
}
