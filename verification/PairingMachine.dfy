/** Both ends of pairing in the form the firmware gives them: static variables that packet handlers update in place. */
module PairingMachine {
  import opened Words
  import P = Pairing

  /** src/esb/pairing.c. */
  class KeyboardNode {
    const me: P.Id
    var state: P.KbState
    var peer: P.Id
    var hasPeer: bool
    var stored: P.Record      // the settings record
    var beacon: bool          // the work items
    var verify: bool

    ghost function Abs(): P.Keyboard
      reads this
    {
      P.Keyboard(me, state, peer, hasPeer, stored, beacon, verify)
    }

    /** pairing_init, which loads what a previous boot saved. */
    constructor (me: P.Id, stored: P.Record)
      ensures Abs() == P.KbBoot(me, stored)
    {
      this.me, this.stored := me, stored;
      state, peer, hasPeer, beacon, verify := P.Idle, P.NO_ID, false, false, false;
      if stored.Record? {
        hasPeer := stored.paired;
        peer := stored.id;
      }
    }

    method Save(paired: bool)
      modifies this`stored
      ensures stored == P.Saved(old(Abs()), paired)
    {
      stored := P.Record(paired, if paired then peer else P.NO_ID);
    }

    method Start()
      modifies this`state, this`beacon, this`verify
      ensures Abs() == P.Start(old(Abs()))
    {
      if hasPeer {
        state := P.Verifying;
        verify := true;
      } else {
        state := P.Unpaired;
        beacon := true;
      }
    }

    method Stop()
      modifies this`state, this`beacon, this`verify
      ensures Abs() == P.Stop(old(Abs()))
    {
      state, beacon, verify := P.Idle, false, false;
    }

    method ForgetPeer()
      modifies this`hasPeer, this`peer, this`stored, this`verify
      ensures Abs() == P.Forget(old(Abs()))
    {
      hasPeer := false;
      peer := P.NO_ID;
      Save(false);
      verify := false;
    }

    method Unpair()
      modifies this
      ensures Abs() == P.Unpair(old(Abs()))
    {
      ForgetPeer();
      if state != P.Idle {
        beacon := true;
        state := P.Unpaired;
      }
    }

    /** beacon_work_fn; gives the packets sent. */
    method OnBeaconWork() returns (out: seq<seq<U8>>)
      modifies this`beacon
      ensures Abs() == P.BeaconWork(old(Abs())).k && out == Packets(P.BeaconWork(old(Abs())).out)
    {
      beacon := state == P.Unpaired;
      out := [];
      if state == P.Unpaired {
        out := [P.Encode(P.Beacon(me))];
      }
    }

    /** verify_work_fn. */
    method OnVerifyWork() returns (out: seq<seq<U8>>)
      modifies this`verify
      ensures Abs() == P.VerifyWork(old(Abs())).k && out == Packets(P.VerifyWork(old(Abs())).out)
    {
      verify := state == P.Verifying;
      out := [];
      if state == P.Verifying {
        out := [P.Encode(P.VerifyReq(me))];
      }
    }

    /** pairing_on_rx, for any received bytes. */
    method OnRx(data: seq<U8>) returns (out: seq<seq<U8>>)
      modifies this
      ensures var turn := P.KbReceive(old(Abs()), P.Decode(data)); Abs() == turn.k && out == Packets(turn.out)
    {
      out := [];
      if |data| < 1 {
        return;
      }
      if data[0] == 0x02 {
        if state == P.Unpaired && |data| >= 7 {
          peer := data[1..7];
          beacon := false;
          out := [P.Encode(P.PairResp(me))];
          hasPeer := true;
          state := P.Connected;
          Save(true);
        }
      } else if data[0] == 0x11 {
        if state == P.Verifying && |data| >= 7 && data[1..7] == peer {
          verify := false;
          state := P.Connected;
        }
      } else if data[0] == 0x07 {
        state := P.Unpaired;
        ForgetPeer();
        beacon := true;
      } else if data[0] == 0x13 {
        if state == P.Connected {
          state := P.Verifying;
          verify := true;
        }
      }
    }
  }

  /** dongle/src/main.c. */
  class DongleNode {
    const me: P.Id
    var state: P.DongleState
    var peer: P.Id
    var hasPeer: bool

    ghost function Abs(): P.Dongle
      reads this
    {
      P.Dongle(me, state, peer, hasPeer)
    }

    constructor (me: P.Id)
      ensures Abs() == P.DongleBoot(me)
    {
      this.me := me;
      state, peer, hasPeer := P.Listening, P.NO_ID, false;
    }

    /** The receive loop of esb_evt_handler, for any received bytes; gives the ACK payloads written and whether a HID
        report is forwarded. */
    method OnRx(data: seq<U8>) returns (out: seq<seq<U8>>, forwarded: bool)
      modifies this
      ensures var turn := P.DongleReceive(old(Abs()), P.Decode(data)); Abs() == turn.d && out == Packets(turn.out)
      ensures forwarded == (|data| >= 2 && data[0] == 0x06 && P.Forwards(old(Abs())))
    {
      out, forwarded := [], false;
      if |data| < 1 {
        return;
      }
      if data[0] == 0x01 {
        if |data| >= 8 && state == P.DongleState.Listening {
          peer := data[1..7];
          hasPeer := true;
          out := [P.Encode(P.PairReq(me))];
          state := P.DongleState.Pairing;
        }
      } else if data[0] == 0x03 {
        if |data| >= 8 && state == P.DongleState.Pairing {
          state := P.Linked;
        }
      } else if data[0] == 0x06 {
        forwarded := (state == P.Linked || state == P.Checking) && |data| >= 2;
      } else if data[0] == 0x10 {
        if |data| >= 7 {
          if hasPeer && data[1..7] == peer {
            out := [P.Encode(P.VerifyResp(me))];
            state := P.Checking;
          } else {
            out := [P.Encode(P.Disconnect)];
          }
        }
      } else if data[0] == 0x07 {
        state := P.Listening;
      }
    }
  }

  /** The bytes of the messages sent. */
  function Packets(out: seq<P.Message>): seq<seq<U8>> {
    if out == [] then [] else Packets(out[..|out| - 1]) + [P.Encode(out[|out| - 1])]
  }
}
