# Verification model of the ESB endpoint

This project models the protocol and state machines of the keyboard endpoint and proves what its comments, Kconfig
help texts and build assertions promise about them, or exactly when they hold. `dafny verify dfyconfig.toml` checks all
of it.

Each part comes twice: as a transition system on values, about which the theorems are proved, and as a class with the
arrays, counters and fields that the firmware updates in place, every method of which is proved equal to its step of the
transition system. `Dispatch` of `TransportMachine.Machine` and `HopEngine.Machine` states that for whole machines.

| files | what they model |
|---|---|
| `Words`, `Arith` | 32-bit uptime, wrap-safe comparison, saturation; division facts |
| `Ring` | a ring array with free-running counters that wrap |
| `TransportModel`, `Transport` | sends, TX events, flushes, channel changes, side-trips, slot starts (`src/esb/esb_transport.c`) |
| `SendProofs`, `TransportStories` | what a send puts into FIFO, slots and pool; tags, quiet window and retransmit count |
| `TransportProofs`, `RetransmitProofs` | the rings against the radio's FIFO, the retransmit count and the in-flight counter |
| `Ledgers`, `FateProofs`, `RefundProofs`, `MotionProofs` | the fate of every packet, whom refunds are for, motion conservation |
| `SlotRuns`, `PointerRuns`, `RefundRuns` | concrete runs: a refund that is delivered, one that is dropped although fresh, slot changes with packets in flight, refunds of delivered motion, sends to a library that is down, refused restorations, a ring that overruns |
| `RadioQueue`, `OnAir` | the FIFO of the radio library and the packet on the air (`vendor/nrf-esb/subsys/esb.c`), alone and beside the transport |
| `Tuning` | the frequency the radio is on, through hops and side-trips |
| `LinkQuality` | the packed outcome window, its popcount and average, the degraded-link trigger, the adaptive count |
| `Channels`, `ChannelStore` | quarantine and channel pick (`src/esb/channel_hop.c`) |
| `HopModel`, `HopEngine` | the channel-hop engine with its work items as pending flags (`src/esb/channel_hop_ep.c`) |
| `HopProofs`, `HopTraces`, `HopRuns` | invariants of the engine; reverts, quarantine and spacing over its traces; concrete runs with refused switches and second activations |
| `HopStories`, `HopGates` | what the engine knows, proposes and decides, read off the events of a run; when it hops and when a handshake starts, read off times |
| `Deferral` | the drop-oldest queues that bridge quiet windows, and the streams they produce |
| `Modifiers`, `KeySlots`, `HidRelay`, `HidMachine` | keyboard and consumer reports (`src/esb/hid_relay.c`) |
| `Pointer`, `PointerTurns`, `PointerMachine` | input processors composed with the transport (`src/esb/input_processor_esb.c`) |
| `Pairing`, `PairingMachine` | pairing between keyboard and dongle (`src/esb/pairing.c`, `dongle/src/main.c`) |

## Assumptions

- Every send, event handler, packet handler and work function is one atomic step, and the clock is fixed within it.
- What the radio library does is a parameter of every step where it matters: whether the radio is idle when a retransmit
  count or a channel is set (`src/esb/esb_transport.c` discards the refusal, `vendor/nrf-esb/subsys/esb.c:2386-2402` and
  `:2445-2454` refuse while the radio is busy, without CONFIG_ESB_FAST_CHANNEL_SWITCHING), and whether a payload leaves
  the FIFO when its retransmits are exhausted (`failedLeaves`). Slots start and stop at any time, and the library may fail to
  come up.
- The books take every TX event for one about the packet at the front of the FIFO. With the library in `vendor/` it is, exactly if no
  flush came since that packet was put on the air (`EventIsAboutFront`).
- An activation may follow another one without a deactivation, except in `RevertsAreOneShot`, which says when that does no harm.
- The FIFO is no deeper than any ring (`TransportModel.ValidConfig`). The default of 32 with the shell relay, against
  rings of 24 and 8, violates this.
- CHANNEL_HOP is compiled in; NOACK, CRITICAL_MAX_RETRANSMIT, ADAPTIVE_RETRY and COOP_HOP are configuration flags.
  RENDEZVOUS=n is the configuration with `fallbackMs` and `sideTripEvery` zero.
- The value of the pseudo-random generator is an arbitrary number at each pick.
- The benchmark is off.
- The air between keyboard and dongle loses, duplicates and reorders. Besides the packets of the two, the keyboard may get RESYNC and the
  VERIFY_RESP of another dongle, and the dongle DISCONNECT and the VERIFY_REQ of another keyboard.

## Where code and comments part

- Lockstep. `src/esb/esb_transport.c:148-154` takes for granted that every packet leaves the FIFO with its event and that every send
  reaches it. What holds in every run is that windows and FIFO agree as far as both reach from the end (`RingTailsMirrorFifo`).
  The windows hold nothing else exactly in the runs of `RingsMirrorFifo`, and they are in lockstep exactly in those of
  `RingsInLockstep`. Four things break lockstep, each exactly under the condition stated for it:
  - The library in `vendor/` keeps a failed packet at the front of the FIFO (`vendor/nrf-esb/subsys/esb.c:1399-1413`;
    `FailureKeepsLockstep`, `FailureSkews`). A failed report that then gets through is delivered and refunded
    (`ShippedLibraryDuplicates`), unless the FIFO is full or flushed first (`FailureDuplicates`, `FlushedPacketCountsOnce`).
  - A deactivation empties the FIFO alone (`src/esb/esb_endpoint.c:190-198`, `vendor/nrf-esb/subsys/esb.c:1979-2000`;
    `SlotChangeKeepsMirror`). Reports in flight stay counted, and with as many as the back-pressure cap the pointer stalls until
    something else is sent (`SlotChangeStrandsReports`, `StrandedPointerStalls`).
  - The rings are pushed before the library can turn a payload down, as it does whenever it is not initialised
    (`vendor/nrf-esb/subsys/esb.c:2018-2040`; `SendKeepsLockstep`, `PhantomSlot`). With enough stale slots a ring overruns
    (`OverrunBreaksCount`).
  - A side-trip that times out leaves its packet behind (`TimeoutKeepsLockstep`).
- The comment at `src/esb/esb_transport.c:172-176` says that indexing by `% SIZE` of a 32-bit counter is right for any size. It is
  right across the wrap exactly for the sizes of `RingsFitExactly`; the defaults, 24 slots and a FIFO of 8, are among them.
- A slot that outlives its packet is popped by the event of another one (`src/esb/esb_transport.c:626-654` goes by the tail alone): behind
  a stale slot a failure refunds a report that was delivered (`StaleSlotRefundsDelivered`). What decides is the fate of the packet whose
  slot is popped (`SparedByFate`).
- The comment at `src/esb/esb_transport.c:180-186` has zero for the age of an empty pool. Motion that waits always has an age
  (`PooledMotionAges`), but refunds that cancel each other leave the age behind, and then motion that is refunded later is dropped as
  stale although it is fresh (`StampFollowsRefunds`, `FreshRefundDropped`).
- A flush while a packet is on the air does not stop it (`vendor/nrf-esb/subsys/esb.c:2214-2238`): its acknowledgement then removes
  a packet that was never sent, which counts as delivered (`LateAckTakesUnsent`, `DeliveredMeansSent`, `LateAckCountsUnsent`).
- `src/esb/esb_transport.c:1440-1443` promises that a side-trip always restores the active channel. It does exactly when it ends with
  the radio idle (`ActiveChannelRestored`); after a timeout the radio is busy, and stays away (`TimeoutLeavesChannel`, `StaysAway`).
- Two activations can be queued without a deactivation, since `esb_active` is set at the end of the first
  (`src/esb/esb_endpoint.c:173-184` and `:216-232`), and the second starts the slot one quiesce delay after the first: a revert then
  undoes no hop (`SecondStartMisplacesRevert`).
- A restoration of the retransmit count succeeds exactly when the radio is idle (`RestorationSucceeds`); with the library in
  `vendor/` it is not while another packet is queued behind the acknowledged one (`RestoredUnlessQueued`). A refused one is not
  repeated until the next override, flush or adaptive change (`RefusedRestorationSticks`). A stale slot hides an override
  altogether (`StaleSlotHidesOverride`).
- The comments at `src/esb/channel_hop_ep.c:606-609` and `:654-656` promise that a refused hop leaves the retry the same decision.
  The rendezvous fallback flag is consumed before the radio is tried (`RetryDecidesTheSame`, `RefusedFallbackForgotten`).
- The retry of a refused switch does not ask for the cooldown, and a hop in between does not cancel it (`RetryStaysSpaced`,
  `RetryBreaksSpacing`).
- The cooldown is compared wrap-safely but never cleared: from 2^31 milliseconds after its end, without another hop, it reads as
  running again for as long (`CooldownReturns`).
- A hop deadline that is zero modulo 2^32 reads as "no cooldown" (`CooldownActiveAfterHop`); the spacing theorems exclude it.
- The plain comparison in `quarantine_add` loses additions near the wrap of the uptime (`AdditionTakesEffect`,
  `AdditionLostAtWrap`); `QuarantineRefinesHistory` is for uptimes below 2^31 milliseconds.
- A drain of the pending reports that does not fit the FIFO flushes its own head (`DrainKeepsReports`): with the defaults, eight
  pending reports and the live one against a FIFO of eight.
- The modifier counts are `uint8_t`; 256 keys on one modifier wrap them (`FaithfulExactly`). The key slots do not count at all: of
  two positions with one code the first release drops it (`HeldMeansSomePosition`, `SharedCodeDropped`).
- Consumer keys are stored in 16 bits and compared in 32 when they are released (`src/esb/hid_relay.c:117-137`): a wider code, once pressed,
  stays in the report (`WideCodeSticks`).
- `include/zmk_esb/protocol.h:121-129` says that each side persists its peer. The dongle in this repository keeps it in memory only, so
  that one dongle reboot can erase the keyboard's pairing (`OneRebootErases`, `DisconnectsExactly`).

## Model

| member | source | states |
|---|---|---|
| `Rings.WrapSafeIsExact` | src/esb/esb_transport.c:170-178 | live slots of a ring indexed by a wrapping counter never share an array slot, wherever the counter stands, if and only if the size divides the counter's range or no more slots are live than the remainder |
| `Rings.Ring.Push` | src/esb/esb_transport.c:591-618 | a push writes the array slot at the head: the window gains the entry, live entries that share the slot change with it, and the ring reads as empty when the head catches up with the tail |
| `Rings.Ring.Pop` | src/esb/esb_transport.c:390-398 | a pop takes the oldest live entry, and gives the neutral one when there is none |
| `Rings.NewestSurvive` | src/esb/esb_transport.c:591-618 | whatever a push destroys, the newest entries, as many as the FIFO is deep, survive it, counter wrap or not |
| `Rings.RoomExactly` | src/esb/esb_transport.c:390-398 | with a size that divides the counter's range a push destroys no live entry if and only if fewer entries are live than there are slots |
| `TransportProofs.RingsFitExactly` | src/esb/esb_transport.c:133-135 | with sizes that pass the build assertions all three rings are wrap-safe if and only if the motion ring's size divides 2^32 or the FIFO is no deeper than the remainder |
| `TransportMachine.SendRings.Push` | src/esb/esb_transport.c:1284-1288 | one send pushes one slot on every ring |
| `TransportMachine.SendRings.Pop` | src/esb/esb_transport.c:506-515 | one TX event pops one slot from every ring that has one |
| `TransportMachine.Machine.RestoreCount` | src/esb/esb_transport.c:489-498 | the steady count is put back unless the radio is busy |
| `TransportMachine.Machine.FlushAndReset` | src/esb/esb_transport.c:673-684 | FIFO, all three rings and the in-flight counter are emptied together, and the count restored |
| `TransportMachine.Machine.ApplyPending` | src/esb/esb_transport.c:552-584 | an outgoing report takes the pool with saturation, the residue stays pooled, a stale pool is dropped |
| `TransportMachine.Machine.PreparePacket` | src/esb/esb_transport.c:1329-1385 | tags, refund and retransmit override of one packet |
| `TransportMachine.Machine.PushPrepared` | src/esb/esb_transport.c:1380-1387 | rings pushed, FIFO written and in-flight counter raised for one packet |
| `TransportMachine.Machine.SendPacket` | src/esb/esb_transport.c:1196-1388 | the verdict of a send and the whole state it leaves behind, early returns, flush, full rings and a library that is down included |
| `TransportMachine.Machine.Consume` | src/esb/esb_transport.c:626-654 | what one event does with the popped slots: refund, in-flight counter, restored count |
| `TransportMachine.Machine.OnSuccess` | src/esb/esb_transport.c:722-804 | TX success: transport and link metric move exactly as in the model, side-trip events touch neither, and the trigger is called exactly when the metric fires |
| `TransportMachine.Machine.OnFailed` | src/esb/esb_transport.c:817-931 | the same for TX failure, with the flush of a full FIFO |
| `TransportMachine.Machine.ChangeChannel` | src/esb/esb_transport.c:1026-1094 | a channel change flushes even when the radio then refuses it, and only a taken one clears pool and link metric and opens the quiet window |
| `TransportMachine.Machine.BeginSideTrip` | src/esb/esb_transport.c:1391-1435 | a blocking send bypasses the rings and holds off every other send |
| `TransportMachine.Machine.Retune` | src/esb/esb_transport.c:468-480 | the adaptive count follows the link metric when the radio takes it |
| `TransportMachine.Machine.StartSlot` | src/esb/esb_transport.c:1523-1557 | a slot start empties the FIFO and resets the counts, whether or not the library comes up, and leaves the rings alone |
| `TransportMachine.Machine.StopSlot` | src/esb/esb_transport.c:1564-1572 | a slot stop takes the library down with its FIFO, and leaves rings and in-flight counter alone |
| `TransportMachine.Machine.Dispatch` | src/esb/esb_transport.c:715-934 | in every state, the arrays and counters take exactly the step of the transition system, whatever happens next |
| `TransportModel.BooksOnlyWatch` | src/esb/esb_transport.c:715-934 | the bookkeeping that the theorems read never influences the transport |
| `TransportStories.SendsExactly` | src/esb/esb_transport.c:1196-1275 | what a send does to the FIFO: nothing if the packet is too long or the transport quiet, nothing but end the quiet window if the FIFO is full and it is a shell packet, otherwise the packet is the last of the FIFO, which a full one is emptied for, if the library takes it |
| `TransportStories.SendTags` | src/esb/esb_transport.c:1329-1387 | how a packet is tagged and with what retransmit count it goes out: the pointer's for an acknowledged report that moves with no button down, the critical one for the seven urgent kinds, while the radio is idle |
| `TransportStories.KnowsItsStory` | src/esb/esb_transport.c:1009-1094 | in every run the transport's own variables say what it was told: addresses, active channel, library up, side-trip under way, count asked for, quiet window |
| `TransportStories.QuietExactly` | src/esb/esb_transport.c:1084-1138 | the transport is quiet exactly while a side-trip waits and for the configured time after a channel change, unless a send found it awake since; one millisecond longer if the end is a multiple of 2^32 |
| `TransportStories.ChangesEmpty` | src/esb/esb_transport.c:1026-1065 | a channel change empties FIFO and rings even if the radio refuses it, and so does a side-trip, which leaves its own untagged packet alone in the FIFO if it begins |
| `TransportStories.CountMoves` | src/esb/esb_transport.c:483-498 | what else moves the retransmit count: the slot that records an override and every flush put the steady one back while the radio is idle, a new target and a slot start set it, nothing else touches it |
| `SendProofs.ReportTakesPool` | src/esb/esb_transport.c:552-584 | every mouse report that is handed over while the refunds are not too old carries, on every axis, the int16_t nearest to its motion plus the pool, which keeps exactly the rest; afterwards it carries its own motion and the pool is empty |
| `SendProofs.PoolIsPaidOut` | src/esb/esb_transport.c:568-583 | in particular the pool is paid out in full, and has no age any more, whenever that fits on every axis |
| `SendProofs.PacketIsWhatWasSent` | src/esb/esb_transport.c:1380-1387 | the packet in the FIFO is what was sent with the motion its slot shows, and only mouse reports take from the pool |
| `SendProofs.StampFollowsRefunds` | src/esb/esb_transport.c:180-186 | the age of the pool starts with the first refund that finds none, and ends only when a mouse report or a channel change leaves the pool empty |
| `SendProofs.PooledMotionAges` | src/esb/esb_transport.c:180-186 | in every run motion that waits in the pool has an age |
| `RefundRuns.FailedMotionIsDelivered` | src/esb/esb_transport.c:626-650 | a reachable run at the Kconfig defaults in which the motion of a failed report is delivered by the next one: fifteen steps submitted, fifteen delivered |
| `RefundRuns.FreshRefundDropped` | src/esb/esb_transport.c:180-186 | a reachable run in which refunds cancel each other: the age outlives them, and motion refunded long after is dropped as stale with the next report |
| `TransportProofs.RingTailsMirrorFifo` | src/esb/esb_transport.c:133-178 | in every run, slot changes at any time, sends to a library that is down, ring overruns and counter wraps included: as far as both reach from the end, the live windows of the three rings are, in order, the tags of the packets of the FIFO |
| `TransportProofs.RingsMirrorFifo` | src/esb/esb_transport.c:148-154 | throughout a run the windows hold nothing else, and so no more than the FIFO is deep, if and only if every send that pushes the rings is written and the library is started and disabled only with empty rings |
| `TransportProofs.RingsInLockstep` | src/esb/esb_transport.c:148-154 | throughout a run the windows are the tags of all packets of the FIFO if and only if, besides, every failed packet leaves the FIFO or meets it full and no side-trip times out with its packet in flight |
| `TransportProofs.StepInStep` | src/esb/esb_transport.c:715-934 | the same for one step, for every kind of step |
| `TransportProofs.EventConsumesSlot` | src/esb/esb_transport.c:626-654 | an event pops the slots of the packet as many places behind its own as the rings are out of step: its own in lockstep |
| `TransportProofs.FailureKeepsLockstep` | vendor/nrf-esb/subsys/esb.c:1399-1413 | a failed packet keeps lockstep if and only if the library removes it or the FIFO is full; the library in vendor/ does not remove it |
| `TransportProofs.FailureSkews` | vendor/nrf-esb/subsys/esb.c:1399-1413 | each failure the library keeps puts the rings one more packet out of step |
| `TransportProofs.SendKeepsLockstep` | src/esb/esb_transport.c:1260-1268 | a send that pushes the rings keeps lockstep if and only if the library is initialised and takes the payload |
| `TransportProofs.SlotChangeKeepsMirror` | vendor/nrf-esb/subsys/esb.c:1979-2000 | starting or stopping a slot leaves no stale slot if and only if the rings are empty |
| `TransportProofs.TimeoutKeepsLockstep` | src/esb/esb_transport.c:1445-1448 | a side-trip timeout keeps lockstep if and only if its packet already left the FIFO |
| `TransportProofs.EmptyFifoIsLockstep` | src/esb/esb_transport.c:656-672 | a drained FIFO brings the rings back into lockstep |
| `FateProofs.OneFateEach` | src/esb/esb_transport.c:148-164 | in every run the packets that wait are exactly those in the FIFO, each once and in order, and every live motion slot names the packet it was pushed for |
| `FateProofs.FatesAreFinal` | src/esb/esb_transport.c:626-654 | only a success delivers a packet, and only the front one; a packet once delivered stays so, one that left undelivered stays so, and what is missing of it is found again all at once or not at all |
| `RefundProofs.SlotsTellTheTruth` | src/esb/esb_transport.c:626-654 | in every run, unless the motion ring has overrun since the last flush: a live slot holds the motion of its own packet, of a packet that waits with a live slot nothing was refunded, and of one that left undelivered exactly the motion in its slot is missing |
| `RefundProofs.RefundedAtMostOnce` | src/esb/esb_transport.c:626-650 | in every such run of well-formed payloads, slot changes included: however often a packet fails, it is refunded at most once while it is in the FIFO, with its own motion, and not while its slot is live |
| `MotionProofs.MotionBalances` | src/esb/esb_transport.c:552-654 | on every axis of every run, whatever the radio does: submitted = confirmed + live slots + pool + dropped + overwritten, and submitted + copies = delivered + FIFO + pool + lost, where copies are refunds for packets that are in the FIFO, were delivered, or had been refunded, and lost is what lapsed with no packet or is missing of one that left undelivered |
| `MotionProofs.RefundTakesWhatWasBooked` | src/esb/esb_transport.c:626-650 | a refund takes off the losses all that is booked there for its own packet, or nothing, and leaves the fates of all other packets alone |
| `MotionProofs.MotionConserved` | src/esb/esb_transport.c:148-164 | throughout a run submitted motion is delivered, in the FIFO, in the pool or lost, saturation notwithstanding, if and only if every failure pops no motion, pops what is missing of a packet that was discarded undelivered, or pops the slot of a packet in a full FIFO, which is flushed at once; with either kind of library it is so as long as the rings stay in lockstep; and nothing is lost in runs without a step that may lose it |
| `MotionProofs.NothingLostElsewhere` | src/esb/esb_transport.c:552-566 | only flushes, stale refunds, swallowed sends, refused payloads, channel changes, side-trips, slot changes and failures that remove one packet and refund another lose motion |
| `MotionProofs.NoCopies` | src/esb/esb_transport.c:626-650 | throughout any run no motion is refunded and kept, refunded and delivered, or refunded twice, if and only if every failure pops no motion, pops what is missing of a packet that was discarded undelivered, or pops the slot of a packet in a full FIFO |
| `MotionProofs.SparedByFate` | src/esb/esb_transport.c:626-650 | unless the motion ring has overrun, the fate of the packet whose slot is popped decides: a failure that pops motion makes no copy if that packet was discarded undelivered, or waits in a full FIFO, and always makes one if it was delivered |
| `MotionProofs.NoCopiesInFifo` | vendor/nrf-esb/subsys/esb.c:1399-1413 | without stale slots the condition is one on the FIFO: each failure finds it full, or fails while the first packet that still has a slot carries no motion, or is the failed one and removed, or none has a slot |
| `MotionProofs.CopiesAreKeptMotion` | vendor/nrf-esb/subsys/esb.c:1399-1413 | with either kind of library the copies of every run are what failures popped for packets of which it was not missing, in the FIFO or delivered, less the refunds of packets that left the FIFO undelivered afterwards |
| `MotionProofs.NothingOverwritten` | src/esb/esb_transport.c:591-618 | no motion is overwritten in runs in which no send meets a full motion ring |
| `MotionProofs.FailureDuplicates` | vendor/nrf-esb/subsys/esb.c:1399-1413 | from lockstep a failure duplicates motion if and only if the library keeps the packet, it carries motion and the FIFO is not full; and it loses none unless it flushes |
| `MotionProofs.FullFailureCountsOnce` | src/esb/esb_transport.c:924-927 | a failure that meets a full FIFO leaves the motion of its packet in the pool only: nothing is delivered or copied, and what is lost are the other packets |
| `MotionProofs.FlushedPacketCountsOnce` | src/esb/esb_transport.c:673-684 | so does a flush that takes a kept packet before it gets through |
| `MotionProofs.KeptPacketCountsTwice` | src/esb/esb_transport.c:640-650 | a kept packet that is acknowledged on its next try has its motion both delivered and refunded |
| `MotionProofs.ShippedLibraryDuplicates` | src/esb/esb_transport.c:640-650 | the concrete case, at the Kconfig defaults: ten steps submitted, ten delivered, ten more in the pool, and ten copied |
| `MotionProofs.PoolFits` | src/esb/esb_transport.c:180-186 | the pool is bounded by the refunds since it was last empty, so the int32_t sums cannot overflow before 65535 of them |
| `RetransmitProofs.CountRestored` | src/esb/esb_transport.c:483-498 | through any interleaving the count is steady whenever no live slot records an override, unless the last restoration failed or a ring that records overrides overran |
| `RetransmitProofs.CountSteadyForPlainFifo` | src/esb/esb_transport.c:656-667 | the same read on the FIFO, slot changes included: no packet in it carries an override and no slot is stale |
| `RetransmitProofs.RestorationSucceeds` | src/esb/esb_transport.c:483-498 | the exact condition, for every event, flush and flushing send: a step that removes the last override leaves the count steady if and only if the radio is idle or the count was steady already |
| `RetransmitProofs.RestoredUnlessQueued` | vendor/nrf-esb/subsys/esb.c:1391-1397 | with the library in vendor/ an acknowledgement does so if and only if no packet is queued behind the acknowledged one |
| `RetransmitProofs.IdleRunsAreRestored` | vendor/nrf-esb/subsys/esb.c:2445-2454 | in a run with the radio idle at every step that sets the count no restoration is refused |
| `SlotRuns.RefusedRestorationSticks` | src/esb/esb_transport.c:484-488 | a reachable run at the Kconfig defaults: a keyboard report behind a mouse report leaves the override count in force with nothing outstanding |
| `SlotRuns.StaleSlotHidesOverride` | src/esb/esb_transport.c:656-667 | a reachable run in which a stale slot leaves it in force although nothing was refused |
| `RetransmitProofs.InflightCountsMovingSlots` | src/esb/esb_transport.c:606-641 | in every run, slot changes included, the in-flight counter is the number of live slots with motion, unless the motion ring has overrun since the last flush |
| `RetransmitProofs.CleanRunsNeverOverrun` | src/esb/esb_transport.c:148-154 | no ring overruns while every send is written and slots change with empty rings |
| `PointerRuns.OverrunBreaksCount` | src/esb/esb_transport.c:606-618 | a reachable run of one input processor in which the motion ring overruns, with one report in flight and keyboard reports behind it: the counter shows the report and the ring does not |
| `SlotRuns.SlotChangeStrandsReports` | src/esb/esb_transport.c:1564-1572 | activation, n mouse reports, deactivation and activation leave an empty FIFO with n reports in flight and n stale slots |
| `SlotRuns.StaleSlotRefundsDelivered` | src/esb/esb_transport.c:626-654 | a run from reset at the Kconfig defaults in which a stale slot makes the failure of a keyboard report refund a mouse report that was delivered: ten steps submitted, ten delivered, ten more in the pool, ten copied |
| `SlotRuns.PhantomSlot` | vendor/nrf-esb/subsys/esb.c:2018-2022 | a well-formed report sent after deactivation pushes the rings and counts as in flight although the library turns it down |
| `RadioQueue.FrontStaysOnAir` | vendor/nrf-esb/subsys/esb.c:2214-2238 | throughout a run of the library's FIFO the packet on the air is the one at the front if and only if every flush finds the radio idle |
| `RadioQueue.EventsKeepTheirPacket` | vendor/nrf-esb/subsys/esb.c:1374-1413 | every TX event of a run is about the packet at the front if and only if no transaction that ends was interrupted by a flush, and so it is if every flush finds the radio idle |
| `RadioQueue.InterruptedEventIsAboutUnsent` | vendor/nrf-esb/subsys/esb.c:1374-1413 | if it was interrupted, the packet at the front, if there is one, was never sent |
| `RadioQueue.AcknowledgesFront` | vendor/nrf-esb/subsys/esb.c:1374-1397 | in a run in which every flush finds the radio idle an acknowledgement removes exactly the packet that was sent, and leaves the radio idle if and only if no packet is queued behind it |
| `RadioQueue.LateAckTakesUnsent` | vendor/nrf-esb/subsys/esb.c:1021-1036 | a concrete run: flushed while on the air, a packet's acknowledgement removes one written since, which was never sent |
| `OnAir.OneFifo` | vendor/nrf-esb/subsys/esb.c:2018-2090 | transport and library side by side, with the radio itself saying whether it is idle: in every run the FIFO that the transport goes by is the library's, packet by packet |
| `OnAir.EventIsAboutFront` | src/esb/esb_transport.c:715-934 | an event is about the packet that the transport takes it for, the one at the front, if and only if no flush came since that was put on the air |
| `OnAir.DeliveredMeansSent` | src/esb/esb_transport.c:722-804 | throughout a run every packet that counts as delivered was sent if and only if no acknowledgement comes after a flush of its packet while others are in the FIFO |
| `OnAir.RadioIsAsShipped` | vendor/nrf-esb/subsys/esb.c:1374-1413 | at the end of a transaction the radio is idle if and only if the packet failed or was the only one, as `RestoredUnlessQueued` has it |
| `OnAir.LateAckCountsUnsent` | src/esb/esb_transport.c:722-804 | a reachable run at the Kconfig defaults: after a flush in mid-air a mouse report that was never sent counts as delivered |
| `Tuning.StepOnChannel` | src/esb/esb_transport.c:1437-1448 | one step keeps the radio on the active channel if and only if it ends no side-trip, ends it with the radio idle or was to that channel, or gives addresses that fit |
| `Tuning.ActiveChannelRestored` | src/esb/esb_transport.c:1440-1443 | throughout a run every packet but a side-trip's goes out on the active channel if and only if every step does so |
| `Tuning.TimeoutLeavesChannel` | src/esb/esb_transport.c:1437-1448 | a reachable side-trip that times out with the radio still busy leaves the radio on the visited channel, and with the radio idle it does not |
| `Tuning.StaysAway` | src/esb/esb_transport.c:1440-1443 | there it stays through any sends, events, flushes and ticks, until a hop, another side-trip or a slot change |
| `LinkQuality.WindowRefinesHistory` | src/esb/esb_transport.c:404-424 | the packed window is the last outcomes since the channel change as a binary number, and the cached count its popcount, which never underflows |
| `LinkQuality.TriggerMeaning` | src/esb/esb_transport.c:762-788 | the degraded trigger read on the outcomes themselves, both the wide and the fast threshold |
| `LinkQuality.TriggersAreSeparated` | src/esb/esb_transport.c:765-787 | between two triggers the count was at or below the re-arm level or the channel changed |
| `LinkQuality.LatchFollows` | src/esb/esb_transport.c:765-787 | in every run the latch is set by the first bad success and cleared by the first at or below the re-arm level or by a channel change, by nothing else and only with cooperative hops compiled in; the trigger fires at exactly the successes that set it |
| `LinkQuality.AverageFollows` | src/esb/esb_transport.c:430-438 | in every run the average is that of the counted successes since the channel change, an eighth for each new one, and fits its uint16_t |
| `LinkQuality.EwmaRange` | src/esb/esb_transport.c:430-438 | with 1 to 16 attempts the average stays within 10 and 160 and never wraps its uint16_t |
| `LinkQuality.EwmaSettles` | src/esb/esb_transport.c:433-437 | constant attempts drive the average monotonically to a fixed point, exactly 10a from above and 10a - 7 from 8 or more below, within 160 samples |
| `LinkQuality.AdaptiveTargetMonotone` | src/esb/esb_transport.c:451-466 | the adaptive target is monotone in the average and stays within its two bounds |
| `LinkQuality.AdaptiveTargetInterpolates` | src/esb/esb_transport.c:451-466 | the two counts at and beyond the marks, and between them the straight line, rounded down |
| `LinkQuality.LinkMonitor.Shift` | src/esb/esb_transport.c:404-424 | the shift-and-mask arithmetic on the machine word is the abstract shift |
| `LinkQuality.LinkMonitor.OnAcked` | src/esb/esb_transport.c:755-790 | a counted success updates window, count, average and latch, and says whether the trigger fires |
| `LinkQuality.LinkMonitor.Reset` | src/esb/esb_transport.c:1066-1071 | a channel change wipes the metric |
| `Channels.QuarantineRefinesHistory` | src/esb/channel_hop.c:35-59 | a channel tests as quarantined if and only if some addition since its last clear still holds: the longest hold wins over any sequence of additions and clears |
| `Channels.AdditionTakesEffect` | src/esb/channel_hop.c:42-45 | the exact guard: an addition takes effect if and only if the channel already was quarantined or the new end is numerically above the stored one |
| `Channels.AdditionLostAtWrap` | src/esb/channel_hop.c:42-45 | a concrete addition near 2^32 that is lost |
| `Channels.PickIsOptimal` | src/esb/channel_hop.c:90-135 | the pick is INVALID exactly when every channel is blocked, otherwise a free channel that no free channel beats in clearance, whatever the generator yields |
| `Channels.PickKeepsAway` | src/esb/channel_hop.c:71-135 | whatever distance, up to the configured one, any channel keeps from the avoided one and from all quarantined ones, the pick keeps as well |
| `Channels.EveryOptimumIsDrawn` | src/esb/channel_hop.c:128-131 | every optimal channel is picked for some value of the generator |
| `Channels.FullDistanceGuaranteed` | src/esb/channel_hop.c:61-135 | with k channels quarantined and (k + 1)(2d + 1) at most 100 the pick keeps the full distance from all of them and from the avoided one |
| `Channels.ClearanceMeaning` | src/esb/channel_hop.c:107-127 | clearance is the distance kept: a channel keeps distance k if and only if k is at most its clearance |
| `ChannelStore.Store.Hold` | src/esb/channel_hop.c:35-46 | quarantine_add on the array |
| `ChannelStore.Store.IsHeld` | src/esb/channel_hop.c:48-59 | quarantine_is on the array |
| `ChannelStore.Store.Count` | src/esb/channel_hop.c:61-69 | the loop counts exactly the quarantined channels |
| `ChannelStore.Store.WithinDistance` | src/esb/channel_hop.c:71-88 | the loop finds a quarantined channel within the distance if and only if there is one |
| `ChannelStore.Store.PickChannel` | src/esb/channel_hop.c:90-135 | the nested loops over the candidate array compute the pick |
| `HopEngine.Machine.SelectPending` | src/esb/channel_hop_ep.c:221-230 | a burst keeps its first candidate while that stays useful |
| `HopEngine.Machine.OnNegotiate` | src/esb/channel_hop_ep.c:246-312 | a negotiation tick: what it proposes and what it leaves behind |
| `HopEngine.Machine.OnIdleCheck` | src/esb/channel_hop_ep.c:314-347 | going idle cancels negotiation and aborts a handshake |
| `HopEngine.Machine.OnBurst` | src/esb/channel_hop_ep.c:389-487 | a tick of the post-hop burst, side-trip ticks included |
| `HopEngine.Machine.Bookkeep` | src/esb/channel_hop_ep.c:563-581 | what every hop ends with: agreement consumed, cooldown armed, burst and negotiation started |
| `HopEngine.Machine.ChooseTarget` | src/esb/channel_hop_ep.c:583-639 | fallback, revert, committed channel or fresh pick, in that order of precedence |
| `HopEngine.Machine.OnHop` | src/esb/channel_hop_ep.c:583-708 | a hop attempt: everything is kept when the radio refuses but the fallback flag |
| `HopEngine.Machine.OnOffer` | src/esb/channel_hop_ep.c:736-778 | an OFFER is sent for a useful target or the handshake ends |
| `HopEngine.Machine.OnCommit` | src/esb/channel_hop_ep.c:780-818 | an armed handshake hops, or ends with a retry when the radio refuses |
| `HopEngine.Machine.OnDegraded` | src/esb/channel_hop_ep.c:829-846 | a degraded link starts a handshake outside both cooldowns only |
| `HopEngine.Machine.OnDisconnected` | src/esb/channel_hop_ep.c:888-911 | the link going down resets the session and keeps the quarantine |
| `HopEngine.Machine.OnRx` | src/esb/channel_hop_ep.c:920-985 | CONFIRM and ACCEPT, for arbitrary received bytes |
| `HopEngine.Machine.OnRequest` | src/esb/channel_hop_ep.c:987-1029 | REQUEST forces proposals and triggers a hop |
| `HopEngine.Machine.OnTxFail` | src/esb/channel_hop_ep.c:1031-1095 | a failure ends an OFFER in flight, or triggers a hop outside the cooldown or the fallback inside it |
| `HopEngine.Machine.OnTxSuccess` | src/esb/channel_hop_ep.c:1097-1122 | a success arms the commit of an OFFER in flight, disarms the revert and restarts the silence clock |
| `HopEngine.Machine.Dispatch` | src/esb/channel_hop_ep.c:246-1122 | the static variables and work items take exactly the step of the transition system, whatever happens next |
| `HopProofs.EngineKeepsGoing` | src/esb/channel_hop_ep.c:736-846 | in every run channels are legal and every state has its next step pending: an offer, a commit, a negotiation and idle check, a burst tick |
| `HopProofs.ProposalsAreUseful` | src/esb/channel_hop_ep.c:246-281 | against arbitrary received bytes every proposal on the active channel names a legal, different, unquarantined channel |
| `HopStories.KnowsItsStory` | src/esb/channel_hop_ep.c:246-1122 | in every run, against arbitrary received bytes, the engine's variables say what happened: link, activity, agreed channel, what the dongle confirmed, remaining proposals and burst ticks, revert, channel and retry, read off events and hops; its timers run exactly as long as that gives reason |
| `HopStories.NegotiationProposes` | src/esb/channel_hop_ep.c:246-281 | a negotiation proposes nothing unless one is due and the link is awake; the agreed channel while that is open, and nothing once the dongle holds it; otherwise a channel that no open one beats in clearance |
| `HopStories.BurstProposes` | src/esb/channel_hop_ep.c:389-487 | what each tick of the burst proposes and sticks to, and which ticks are side-trips |
| `HopStories.HopDecides` | src/esb/channel_hop_ep.c:604-639 | where a hop goes: the rendezvous channel if the fallback was asked for, back if the last hop was a normal one and nothing was heard since, the agreed channel, or the best choice; it stays only where it is, or without any choice |
| `HopGates.HopsAreAskedFor` | src/esb/channel_hop_ep.c:1031-1095 | in every run whose deadlines are not the reserved zero, cooperative hops included: a hop is asked for by a failure that finds the link awake and no OFFER in flight, COOLDOWN_MS after the last hop or RENDEZVOUS_FALLBACK_MS after the last news, or by a retry; the second way alone asks for the fallback; and such a failure does ask within 2^31 ms of the deadline |
| `HopGates.HandshakeStartsWhenSettled` | src/esb/channel_hop_ep.c:829-846 | in every such run of the full engine a handshake starts only from the trigger, with the link up and awake, COOLDOWN_MS after the last hop of any kind and COOP_HOP_COOLDOWN_MS after the last cooperative one; within 2^31 ms of these deadlines the trigger does start it |
| `HopGates.HandshakeFollows` | src/esb/channel_hop_ep.c:736-846 | in every run the handshake is where the events put it, its target is the channel last offered or last answered with, its serial counts the offers modulo 256, and offer and commit are pending exactly while they are due |
| `HopGates.OffersAreGood` | src/esb/channel_hop_ep.c:720-778 | an OFFER that is due is made if and only if some channel is open, and names the agreed one while that is open, else one that no open channel beats in clearance; without one, or if the send fails, the handshake ends |
| `HopGates.CommitsHop` | src/esb/channel_hop_ep.c:780-818 | a commit hops if and only if the handshake is armed, its target is another legal channel, and the radio is up and takes it; an armed handshake is over either way |
| `HopGates.CooldownReturns` | src/esb/channel_hop_ep.c:195-200 | between 2^31 and 2^32 ms after its end the cooldown reads as running again: the trigger starts nothing, and a failure asks for no hop but the fallback |
| `HopProofs.DecisionIsLegal` | src/esb/channel_hop_ep.c:604-639 | every switch hop_work_fn asks for goes to a legal channel other than the current one |
| `HopTraces.RevertsAreOneShot` | src/esb/channel_hop_ep.c:588-676 | in every run whose slots start with no revert armed or on the boot channel, as they do after a stop, every hop goes to another legal channel, and every revert undoes exactly the immediately preceding normal hop with no TX success since |
| `HopTraces.StartKeepsReverts` | src/esb/esb_endpoint.c:178-184 | a slot start keeps a revert tied to the hop that armed it if and only if none is armed or the engine is on its boot channel; after a stop that holds |
| `HopRuns.SecondStartMisplacesRevert` | src/esb/esb_endpoint.c:173-184 | a reachable run for every quiesce delay that leaves time for two hops: the second of two queued activations starts the slot that long after the first, with the revert still armed, and the revert undoes no hop |
| `HopTraces.RevertSwapsQuarantine` | src/esb/channel_hop_ep.c:683-708 | a revert frees the channel it returns to and quarantines the one that failed |
| `HopTraces.QuarantineMeansHeldByHop` | src/esb/channel_hop_ep.c:658-708 | in every run a channel counts as quarantined if and only if some hop away from it still holds and no revert or fallback returned to it since |
| `HopTraces.RefusalChangesNothing` | src/esb/channel_hop_ep.c:641-656 | a refused switch leaves quarantine, previous channel and committed channel unchanged |
| `HopTraces.RefusedCommitChangesNothing` | src/esb/channel_hop_ep.c:795-803 | so does a refused cooperative hop, which ends the handshake |
| `HopTraces.RetryDecidesTheSame` | src/esb/channel_hop_ep.c:606-609 | the retry decides the same if and only if the refused hop was no rendezvous fallback, against what the comment promises |
| `HopRuns.RefusedFallbackForgotten` | src/esb/channel_hop_ep.c:604-620 | a reachable run with the fallback pending and refused: the retry goes to the agreed channel instead |
| `HopTraces.HopsAreSpaced` | src/esb/channel_hop_ep.c:1060-1094 | with cooperative hops compiled out, refused switches included, a hop commits at least COOLDOWN_MS and a fallback at least RENDEZVOUS_FALLBACK_MS after the previous hop of the session, as long as retries find the cooldown over |
| `HopTraces.RetryStaysSpaced` | src/esb/channel_hop_ep.c:531-536 | a retry of a refused switch keeps the spacing if and only if the cooldown is over when it runs, which it does not ask |
| `HopRuns.RetryBreaksSpacing` | src/esb/channel_hop_ep.c:531-536 | a reachable run in which a retry hops back in the millisecond of the hop before |
| `HopTraces.CooldownActiveAfterHop` | src/esb/channel_hop_ep.c:195-200 | right after a hop the cooldown is active if and only if its deadline is not the reserved zero |
| `HopTraces.CoopHopsAreSpaced` | src/esb/channel_hop_ep.c:713-718 | in the full engine two cooperative hops of a session commit at least COOP_HOP_COOLDOWN_MS apart |
| `Deferral.QueueKeepsNewest` | src/esb/hid_relay.c:165-197 | the bounded queue keeps exactly the newest DEPTH reports of each deferral window, in order |
| `Deferral.StreamFollowsHistory` | src/esb/hid_relay.c:43-53 | what was handed over and what waits is an in-order subsequence of the reports |
| `Deferral.StreamIsHistory` | src/esb/hid_relay.c:43-53 | it is all of them if and only if no window overran the queue and no deactivation found reports waiting |
| `Deferral.StreamEndsOnLatest` | src/esb/hid_relay.c:49-51 | it ends on the latest report, whatever was dropped, unless a deactivation swept that away |
| `Deferral.LossAccounted` | src/esb/hid_relay.c:165-183 | every report is kept or counted as lost |
| `Deferral.DeferQueue.Enqueue` | src/esb/hid_relay.c:165-173 | the array with its memmove drops the oldest entry on overrun |
| `Deferral.DeferQueue.Drain` | src/esb/hid_relay.c:185-190 | a drain hands every entry over, in order |
| `Modifiers.ModsRefineHeldKeys` | src/esb/hid_relay.c:63-81 | a modifier bit is reported if and only if some held key contributes it, explicit and implicit independently, and none is left when nothing is held |
| `Modifiers.FaithfulExactly` | src/esb/hid_relay.c:63-71 | the limit of 256 is exact: with fewer keys the bit is right at every release, with more it sticks or drops |
| `Modifiers.ModCounts.Add` | src/esb/hid_relay.c:63-71 | the loop over the reference counts |
| `Modifiers.ModCounts.Remove` | src/esb/hid_relay.c:73-81 | the loop that takes them back, ignoring bits at zero |
| `KeySlots.SlotsMirrorHeldKeys` | src/esb/hid_relay.c:92-101 | as long as no more codes are held than the report has slots it lists exactly the held codes, each once; a code is held until its first release |
| `KeySlots.HeldMeansSomePosition` | src/esb/hid_relay.c:103-115 | a code counts as held exactly while some key position holds it if and only if no code is released while two positions hold it |
| `KeySlots.SharedCodeDropped` | src/esb/hid_relay.c:103-115 | two positions with one code: the first release drops it from the report |
| `KeySlots.KeyArray.Add` | src/esb/hid_relay.c:117-129 | a press takes the first free slot unless the key is there |
| `KeySlots.KeyArray.Remove` | src/esb/hid_relay.c:131-137 | a release clears every slot that holds the key |
| `HidRelay.KbStreamRefinesHistory` | src/esb/hid_relay.c:215-228 | in every run the host gets an in-order subsequence of the keyboard reports of the active events, all of them exactly when no window overran and no deactivation swept any, ending on the latest |
| `HidRelay.ConsStreamRefinesHistory` | src/esb/hid_relay.c:230-239 | the same for consumer reports |
| `HidRelay.WaitingReportsAreRetried` | src/esb/hid_relay.c:199-213 | reports that wait always have the retry work scheduled |
| `HidRelay.RetryDrains` | src/esb/hid_relay.c:199-213 | once the transport is not quiet, one run of the retry work leaves nothing waiting and reorders nothing |
| `HidRelay.ReportedModifiers` | src/esb/hid_relay.c:215-216 | the keyboard report carries a modifier if and only if some held key contributes it |
| `HidRelay.ReportedKeys` | src/esb/hid_relay.c:264-281 | the keyboard report lists exactly the held keys |
| `HidRelay.ReportedConsumerKeys` | src/esb/hid_relay.c:230-239 | the consumer report lists exactly the consumer keys held, for codes from 1 to 0xFFFF, as long as they are no more than its slots |
| `HidRelay.WideCodeSticks` | src/esb/hid_relay.c:117-137 | a consumer code of 0x10000 or more is cut off when it is stored and not when it is released: it stays in the report with nothing held |
| `HidRelay.KbReportsAreCurrent` | src/esb/hid_relay.c:283-311 | as long as the endpoint is active whenever the keyboard report changes, its last report is up to date: no change goes unreported |
| `HidRelay.KbReportsAreCalledFor` | src/esb/hid_relay.c:264-305 | a keyboard report is made exactly for each active event of the keyboard page and each active consumer event with a modifier bit set |
| `HidRelay.ConsReportsAreCurrent` | src/esb/hid_relay.c:283-311 | the same for the consumer report |
| `HidRelay.RetryFollows` | src/esb/hid_relay.c:199-239 | the retry work is scheduled exactly from the first report that has to wait until it finds the transport awake or the endpoint stops being active |
| `HidRelay.DrainKeepsReports` | src/esb/esb_transport.c:1269-1274 | no report sent in one drain is swallowed, and they all enter the FIFO if and only if the library is initialised and the FIFO has room for them all |
| `HidMachine.Tracker.OnEvent` | src/esb/hid_relay.c:264-294 | bodies and counts after an event, on the arrays |
| `HidMachine.Machine.OnEvent` | src/esb/hid_relay.c:241-311 | the listener: cleanup on the falling edge, tracking, and the reports it sends or defers |
| `HidMachine.Machine.OnRetry` | src/esb/hid_relay.c:199-213 | the retry work on both queues |
| `Pointer.PointerInflightBounded` | src/esb/input_processor_esb.c:66-167 | for any number of input processors and any interleaving the in-flight counter never exceeds POINTER_INFLIGHT_CAP + IP_PENDING_BTN_QUEUE |
| `Pointer.MovingSlotsBounded` | src/esb/esb_transport.c:1140-1143 | and neither does the number of live slots with motion, in every run, unless the motion ring has overrun since the last flush |
| `Pointer.StrandedPointerStalls` | src/esb/esb_transport.c:1140-1143 | with an empty FIFO and the counter at its cap, as a slot change can leave them, no mouse report is sent again as long as only the pointer uses the transport |
| `Pointer.WorldIsTransportRun` | src/esb/input_processor_esb.c:49-64 | the transport under the input processors makes a transport run, so every transport theorem holds of it |
| `Pointer.ReportsAreTaken` | src/esb/input_processor_esb.c:121-137 | no mouse report is swallowed by a quiet window or a side-trip, and the radio takes it if and only if its library is initialised |
| `Pointer.MotionEndToEnd` | src/esb/input_processor_esb.c:121-228 | from the sensors on, motion waits in an accumulator, a live slot or the pool, was confirmed, or was dropped or overwritten where that is counted; confirmed means that a success popped its slot, which behind a stale slot may be the success of another packet, after a deactivation lost this one |
| `Pointer.EndsOnLatestButtons` | src/esb/input_processor_esb.c:66-137 | for every input processor on every transport run, the last button state that waits, or else the last one handed to the transport, is the latest, and waiting edges have the retry work scheduled |
| `Pointer.ButtonsAreThoseHeld` | src/esb/input_processor_esb.c:195-212 | in every run, for every input processor and button: its bit is set if and only if the last event of that button which the processor handled while active was a press, and no other bits are |
| `Pointer.LastReportShowsHeld` | src/esb/input_processor_esb.c:66-137 | so the last report, or the last state that waits, says which buttons the user holds |
| `PointerTurns.InputTurnsExactly` | src/esb/input_processor_esb.c:121-228 | what an input event makes of its processor: motion and changed buttons wait while the transport blocks them; otherwise the waiting button states go out in order, then one report with the present buttons and all the motion, clamped to 16 bits, or without motion that is too old |
| `PointerTurns.RetryTurnsExactly` | src/esb/input_processor_esb.c:90-119 | the same for the retry work |
| `PointerTurns.PacketSaysReport` | src/esb/input_processor_esb.c:49-64 | the packet of a report is a mouse report with its buttons and, on every axis, the int16_t nearest to its motion |
| `PointerMachine.Processor.SendMouseReport` | src/esb/input_processor_esb.c:121-167 | the reports one call hands over, and what it keeps, defers and drops |
| `PointerMachine.Processor.HandleEvent` | src/esb/input_processor_esb.c:169-228 | the event handler on accumulators, buttons and queue |
| `PointerMachine.Processor.RunRetry` | src/esb/input_processor_esb.c:90-119 | the retry work |
| `PointerMachine.Processor.DrainButtons` | src/esb/input_processor_esb.c:83-88 | queued button states are replayed in order as reports without motion |
| `Pairing.RoundTrip` | src/esb/pairing.c:153-189 | every packet is read as what was sent |
| `Pairing.IdentitiesAgree` | src/esb/pairing.c:115-127 | in every run, dongle reboots included, the keyboard connects only to this dongle, memory and storage agree, and beaconing and verifying have their work scheduled |
| `Pairing.PairingAgrees` | src/esb/pairing.c:153-221 | without dongle reboots, over any loss, duplication and reordering: connected means that each side stores the other's id, the dongle never sends DISCONNECT, only unpairing erases a pairing |
| `Pairing.DisconnectsExactly` | dongle/src/main.c:310-340 | the dongle answers a VERIFY_REQ with DISCONNECT if and only if it accepted no BEACON since its last boot |
| `Pairing.OneRebootErases` | src/esb/pairing.c:207-221 | a single dongle reboot can erase a pairing in a run in which nobody unpairs |
| `Pairing.ConnectedButNotForwarding` | dongle/src/main.c:280-290 | a keyboard can be connected while the dongle still waits for PAIR_RESP and forwards nothing |
| `Pairing.KeyboardFollows` | src/esb/pairing.c:89-237 | in every run the keyboard's state, its stored dongle and its two work items are exactly what the packets received, the slot changes and unpairing say |
| `Pairing.ForwardsExactly` | dongle/src/main.c:280-340 | in every run the dongle forwards if and only if, since its last boot, DISCONNECT or return to waiting for PAIR_RESP, it received a PAIR_RESP while waiting for one or a VERIFY_REQ of its stored peer |
| `Pairing.SentExactly` | src/esb/pairing.c:57-105 | a packet is on its way if and only if some step of the run had reason to send it |
| `Pairing.PairingCompletes` | dongle/src/main.c:280-285 | the pairing run followed by the keyboard's PAIR_RESP ends with both sides connected and the dongle forwarding |
| `PairingMachine.KeyboardNode.OnRx` | src/esb/pairing.c:153-237 | the keyboard's packet switch, for arbitrary bytes |
| `PairingMachine.KeyboardNode.Unpair` | src/esb/pairing.c:141-151 | unpairing erases memory and storage and beacons again unless idle |
| `PairingMachine.KeyboardNode.Start` | src/esb/pairing.c:115-127 | a slot start verifies a known dongle and beacons for an unknown one |
| `PairingMachine.DongleNode.OnRx` | dongle/src/main.c:241-350 | the dongle's receive loop, for arbitrary bytes, with what it forwards |

## Left out

- HopTraces.HopsAreSpaced: for runs in which no deadline or stamp is zero modulo 2^32 and the retries of refused switches find the
  cooldown over; `RetryStaysSpaced` and `RetryBreaksSpacing` say what happens otherwise.
- HopTraces.CoopHopsAreSpaced: for runs in which no cooperative deadline is zero modulo 2^32; refused switches are included.
- HopGates.HopsAreAskedFor: for runs in which no deadline or stamp is zero modulo 2^32; that a failure does ask, for deadlines at most
  2^31 milliseconds past, and `CooldownReturns` says what happens later.
- HopGates.HandshakeStartsWhenSettled: for the same runs; that the trigger does start a handshake, within the same bound.
- TransportStories.QuietExactly: up to 2^31 milliseconds after the quiet window.
- LinkQuality.AverageFollows: for attempts that fit the byte they are counted in.
- HidRelay.ReportedConsumerKeys: for codes from 1 to 0xFFFF, as many as the report has slots; `WideCodeSticks` is the other case.
- HidRelay.KbReportsAreCurrent: for runs in which the endpoint is active whenever the keyboard report changes; inactive changes are
  tracked and not reported.
- HidRelay.ConsReportsAreCurrent: the same for consumer reports.
- HopTraces.QuarantineMeansHeldByHop: for uptimes below 2^31 milliseconds, since additions near the wrap may be lost.
- HopTraces.RevertSwapsQuarantine: for uptimes below 2^31 milliseconds, for the same reason.
- Channels.QuarantineRefinesHistory: for uptimes and holds below 2^31 milliseconds, for the same reason.
- MotionProofs.PoolFits: bounds the pool by the refunds since it was last empty; the pool itself is an unbounded integer.
- TransportProofs.RingTailsMirrorFifo: for payloads that are not empty and name a pipe the radio has, as every sender's do.
- RetransmitProofs.InflightCountsMovingSlots: unless the motion ring has overrun since the last flush; `OverrunBreaksCount` shows
  why.
- RetransmitProofs.CountRestored: unless the last restoration failed or a ring that records overrides has overrun; see
  `RestorationSucceeds`.
- HopTraces.RevertsAreOneShot: for runs whose slots start with no revert armed or on the boot channel; `StartKeepsReverts` and
  `SecondStartMisplacesRevert` say why.
- RadioQueue.EventsKeepTheirPacket: on values; the library's interrupts, retransmissions and frequencies are left out.
- OnAir.DeliveredMeansSent: for a library that keeps failed packets, as the one in `vendor/` does.
- Tuning.ActiveChannelRestored: follows the radio's frequency beside the transport, for addresses that name channels up to 100.
- Modifiers.ModsRefineHeldKeys: for streams in which every release matches an earlier press and fewer than 256 keys hold a bit.
- KeySlots.SlotsMirrorHeldKeys: for key codes that fit the report's width and are not zero, and held until their first release.
- Pointer.EndsOnLatestButtons: says what is handed to the transport; a later flush may still drop it.
- HidRelay.DrainKeepsReports: follows the payloads of one drain into the FIFO, not their later fate on the air.
- Pairing.PairingAgrees: safety only, for one keyboard and one dongle that does not reboot.
- Concurrency inside a step: an event that interrupts a send or a work function half-way.
- The overflow of the `int32_t` accumulators of the input processor.
- The fail-window and weak-link timers that call the hop trigger; the engine is proved for calls at any time.
- Delays of the work items: a pending item may run at any time, so nothing is proved about when.
- Retransmit-delay jitter, the flush wait loop, HID rate statistics, peer signal strength and activity stamps.
- The IDLE and PROPOSAL packets as sends of the hop engine; the transport takes arbitrary sends at any time.
- The pseudo-random generator itself.
- The key bitmap of NKRO keyboard reports.
- Radio, timer, clock and vector-table code, BLE wrappers, the control thread, USB descriptors and report forwarding.
- Shell relay, behaviors, benchmark, logging and shell commands.
