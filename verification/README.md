# A verified model of the 2.4 GHz Phy

This project models the event loop of the BabbleSim 2.4 GHz physical layer simulator and of its
pcapng converter, and proves what their code relies on but does not say.

## What is modelled

Each of the `n` devices connected to the Phy has exactly one pending event. The main loop takes the
event which is first by time, then by kind, then by device number, runs its handler, and the handler
schedules the next event of the device, asking the device for abort times or for its next request
where the protocol says so. All devices share the list of transmissions with its change counter and
its greatest transmitting device, and the start of a packet moves the searching receivers it fits
from their own event to another one. A receiver caches its bit error rate between changes of that
counter. Nothing but a global invariant together with the priority order makes this sound.

- `Types`, `Requests`, `Device`, `Phy` give the handlers and the main loop as functions: what a
  handler does to its own device and to the shared list (`Device.Loc`), what an event does to the
  whole state (`Phy.State`), and runs (`Phy.IsRun`). Whatever a device answers, and whatever the
  random generator draws, is a parameter (`Types.Env`), so that a statement about all runs is a
  statement about all devices. A fatal trace error sets `halted`, and no run continues after it.
- `FuncQueue`, `TxList`, `ChannelModem`, `ErrorCalc` are the queue, the transmission list, the
  wrapper around the channel and modem models with its cache, and the error sampling, with the
  classes which keep them in memory.
- `Machine` is the program as it is written: arrays updated in place, loops, one method for each C
  function. Every method is proved to do what the function of the same handler says.
  `Machine.Simulation.RunFor`, the main program for a number of events, follows a run of the model
  whatever the devices do; `Machine.Simulation.Run`, without that bound, is proved to terminate.
- `Session` describes the protocol: an automaton over the messages of one device, with closed forms
  for the loss of a synchronization, for the verdict on a packet and for the result of a CCA scan.
  It shares with the handlers only `Requests`, what the Phy demands of a request and the times which
  follow from it, and knows nothing of the queue, of events or of the list of transmissions.
  `SessionLaws` says what it promises, in terms of the messages alone, with every condition written
  out.
- `Dialogue` ties the messages to the devices: what is asked of the Phy, answered in a re-evaluation
  or decided on a packet is what the device has sent, it is acted on, and an error is raised exactly
  for what is not acceptable. `Searches` says which packets receivers find and lock to, and what a CCA
  scan measures, `Sampling` which errors are drawn and when a transmission is lost.
- `Invariant`, `Structure`, `Timing`, `Steps`, `Runs` prove that the program keeps its structures in
  agreement and its devices in step with their sessions. `Caching` adds the rate cache and `Prelock`
  a run in which it is stale, `Overrun` a run in which a CCA scan outlasts its abort time, `AirTime`
  the order of the events in one microsecond and the meaning of the transmission list, `Progress`
  termination, `Schedule` when time falls back, when packets start late or overstay, and the
  comparison with the documented schedule.
- `Merging` and `Pcapng` are the merge of trace files by start time, the blocks written for it, and a
  reader of the file which knows the format but not the program.

Log entries (`Types.Item`) are the messages of a device plus two milestones, the lock to a packet
and the loss of it. The fields `errs` and `taken` of a reception and `samples` of a CCA scan record the
errors, the samples they were drawn from and the measurements so far, and the field `basis` of a
receiver what its rate was last calculated for; no handler bases a decision on them.

## Where code and documentation differ

`tx_schedule_next_event` (src/p2G4_main.c:180-212) schedules the start and the end of a packet at
the end of the transmission, and tests whether the packet is ongoing rather than whether it has
started. The activity diagram (docs/Device_interface.svg) has the packet start at its own time, or
at once if that has passed. The model follows the code; the field `documented` of `Device.Config`
selects the documented schedule instead. The program does what is documented exactly as long as no
event departs from it: a run of the program is a run of the documented schedule if and only if no
event of it puts off the start of a packet, puts off its end past the present, or handles such an end
(`Schedule.DocumentedRunIff`). What goes wrong otherwise, with the exact condition over whole runs:

- Time can fall back (`Schedule.TimeCanFall` is a run of times 10, 100, 30). An event puts it back
  if and only if it is the start of a packet at the end of its transmission, after the recheck time,
  and the packet has ended before or does not end before the recheck time
  (`Invariant.FallsFrom`, a condition on the state before the event; `Schedule.FallsBackIff`). Hence
  simulated time never decreases over a run if and only if no event of it is such a start
  (`Schedule.TimeNeverFallsIff`). These are the straight runs, and every result which speaks of time
  holds for all of them, aligned transmissions or not.
- A packet can be started late, at the end of its transmission, so that no receiver can catch it at
  its time (`Schedule.PacketStartsLate` is such a run, in which time does not fall back and no packet
  end is put off). An event puts the start off if and only if it leaves a packet unstarted which is to
  start before the end of its transmission and before the next recheck (`Schedule.StartIsPutOffIff`),
  and a straight run has no such pending start if and only if it has no such event
  (`Schedule.PacketsStartInTimeIff`).
- The end of a packet can be put off to the end of its transmission, where the packet starts a
  second time (`Schedule.PacketOverstays` is such a run). An event does so if and only if it leaves
  a packet ongoing which is to end before its transmission and before the next recheck
  (`Schedule.EndIsPutOffIff`, `Schedule.EveryEndIsFollowedByAStart`), and a straight run has no such
  packet end if and only if it has no such event (`Schedule.PacketsEndInTimeIff`).
  `Schedule.BeforePacketAgreeIff`, `Schedule.OngoingAgreeIff` and `Schedule.EndedAgreeIff` say in
  each state of a packet when the two schedules agree.

Time does not fall back under the documented schedule, nor under the code with transmissions which
carry their packet over their whole duration (`Types.Aligned`), as all version 1 transmissions do:
such runs are straight (`Schedule.LegalIsStraight`). Aligned transmissions have no packet events of
their own (`Schedule.NoPacketEvents`), and their runs are the same under both schedules
(`Schedule.AlignedRunsAreDocumented`).

The error message for a rejected error calculation rate offers multiples of 333 kHz. The code
accepts the divisors of 1 MHz and the multiples of 250 kHz, as long as the products of its search
fit in 32 bits (`ErrorCalc.AcceptedRates`); `ErrorCalc.LargeRatesIff` says for which of the larger
rates this still holds, and `ErrorCalc.ExactPatternIff` that the pattern of an accepted rate is
exact if and only if it is a supported rate. `ErrorCalc.OverflowAcceptsZeroSamples` shows one which
is accepted and never draws an error.

The scan end of a CCA is not cut by the abort time it is requested with, only by later ones
(src/p2G4_main.c:1036, 728-730), so that a scan can be answered long after it
(`Overrun.ScanOverruns`). It ends by its last abort time if and only if that is a later one, or the
scan asked for ends by then, or a measurement stops it by then (`SessionLaws.ScanEndsByAbortIff`).

A prelocked reception does not check whether the packet fits it, and does not refresh the rate cache
(src/p2G4_main.c:464). As long as the models give the same figures for the same air at all times
(`ChannelModem.TimeInvariant`), every reception draws its errors with its own rate if a transmission
has started or ended since the cached rate was calculated, and otherwise with the rate, in the present
air, of the reception and the transmitter it was calculated for (`Runs.RunRate`); so its rate is right
if and only if one of the two conditions of `Runs.RunRateIsExactIff` holds. For receptions which were
not prelocked it always is (`Runs.RunRateIsExact`), for others it may not be
(`Prelock.RateCanBeStale`).

## Model

| member | source | states |
|---|---|---|
| FuncQueue.NextIsUnique | src/p2G4_func_queue.c:36-44 | A device is the one chosen if and only if its event precedes every other by time, then higher kind, then lower device |
| FuncQueue.KindsInOrder | src/p2G4_func_queue.h:20-37 | The value of each kind is its place among the enumerators |
| FuncQueue.NextIsLeast | src/p2G4_func_queue.c:36-64 | No pending event is earlier than the chosen one, none at the same time has a higher kind, and none of the same time and kind belongs to a lower device |
| FuncQueue.Queue.constructor | src/p2G4_func_queue.c:22-31 | Every device starts without an event, at TIME_NEVER |
| FuncQueue.Queue.Add | src/p2G4_func_queue.c:69-72 | The event of one device is replaced, the others stay |
| FuncQueue.Queue.Remove | src/p2G4_func_queue.c:77-80 | One device is left without an event, the others stay |
| FuncQueue.Queue.FindNext | src/p2G4_func_queue.c:45-64 | The linear search chooses the unique first event |
| FuncQueue.Queue.NextTime | src/p2G4_func_queue.c:93-95 | The time of the event of the chosen device |
| TxList.GreatestKept | src/p2G4_pending_tx_list.c:44-94 | Each operation keeps max_tx_nbr at the greatest transmitting device, or -1 if there is none |
| TxList.CounterGuardsActive | src/p2G4_pending_tx_list.c:53-94 | Operations which leave the counter alone leave the set and the parameters of the active transmissions alone; starts and ends raise it |
| TxList.ActiveAre | src/p2G4_channel_and_modem.c:231-235 | Active are the devices with any state bit set, with all their parameters but the abort times |
| TxList.List.constructor | src/p2G4_pending_tx_list.c:19-26 | The list starts with no device transmitting |
| TxList.List.Register | src/p2G4_pending_tx_list.c:44-48 | Parameters and packet of one device are stored and its state is off |
| TxList.List.StartTx | src/p2G4_pending_tx_list.c:53-57 | One device transmits noise, the counter is raised, the greatest device is updated |
| TxList.List.StartPacket | src/p2G4_pending_tx_list.c:62-65 | The started and ongoing bits of one device are set, nothing else |
| TxList.List.EndPacket | src/p2G4_pending_tx_list.c:70-74 | The ended bit of one device is set and its ongoing bit cleared, nothing else |
| TxList.List.SetAbort | src/p2G4_main.c:230-243 | The abort times of a registered transmission are replaced in place |
| TxList.List.Clear | src/p2G4_pending_tx_list.c:79-94 | One device is off and holds no packet, the counter is raised, and the downward search finds the greatest device still transmitting |
| ErrorCalc.SetRate | src/p2G4_main.c:939-965 | The sampling pattern of an error rate, with the products of the search in 32 bits |
| ErrorCalc.AcceptedRates | src/p2G4_main.c:939-965 | Below 2^30 a rate is accepted if and only if it divides 1 MHz or is a multiple of 250 kHz, and the pattern then has exactly that rate, with the shortest period possible |
| ErrorCalc.LargeRatesIff | src/p2G4_main.c:947-956 | From 2^30 on, acceptance is still right exactly for the rates given by a condition on the rate alone |
| ErrorCalc.ExactPatternIff | src/p2G4_main.c:939-956 | The pattern of any accepted rate has exactly that rate if and only if the rate divides 1 MHz or is a multiple of 250 kHz |
| ErrorCalc.OverflowAcceptsZeroSamples | src/p2G4_main.c:948-950 | The rate 2^30, neither a divisor nor a multiple, is accepted with no samples at all |
| ErrorCalc.SamplesAfter | src/p2G4_main.c:489-506 | From any state, k calls take errorspercalc samples for each period of the pattern that begins in them |
| ErrorCalc.DueIff | src/p2G4_main.c:489-506 | While the next draw is w calls away, call k draws iff it is the w-th or a multiple of rate_uspercalc after it |
| ErrorCalc.SamplesFromFresh | src/p2G4_main.c:489-506 | From a fresh state k calls take errorspercalc * ceil(k / rate_uspercalc) samples |
| ChannelModem.PowersReceived | src/p2G4_channel_and_modem.c:226-236 | The powers of a receiver are the ones which, with the attenuation, make the power transmitted plus the gain, for the active devices, and none for the others |
| ChannelModem.PowersAreMonotone | src/p2G4_channel_and_modem.c:233 | Less attenuation or more gain never means less power |
| ChannelModem.RateOfModels | src/p2G4_channel_and_modem.c:251-273 | The rate is the one of the modem of the receiver for the modulation, frequency and coding rate of the reception, at the ratio combined from the analog one and the interference, for the powers received with its gain |
| ChannelModem.SyncOfModels | src/p2G4_channel_and_modem.c:278-306 | So is the probability of a synchronization, for the packet at hand |
| ChannelModem.RssiOfModels | src/p2G4_channel_and_modem.c:311-324 | The RSSI is the one of the modem for the powers received with the gain and the radio of the measurement, without a desired transmitter |
| ChannelModem.SkipIsExact | src/p2G4_channel_and_modem.c:251-273 | On a coherent cache the rate used equals a full recalculation now, whether it is recalculated or not |
| ChannelModem.RateUsed | src/p2G4_channel_and_modem.c:251-273 | On any sound cache the rate used is the present one of this reception if the transmission counter has moved, and otherwise the present one of what it was calculated for |
| ChannelModem.SynchedIsCoherent | src/p2G4_channel_and_modem.c:278-306 | A synchronization check makes the cache coherent, whatever it held |
| ChannelModem.DrawKeepsSound | src/p2G4_channel_and_modem.c:251-273 | After a draw, for whatever reception, the cached rate is still that of the parameters it was last calculated for |
| ChannelModem.RssiKeepsCoherent | src/p2G4_channel_and_modem.c:311-324 | RSSI measurements with any parameters leave a sound cache sound and a coherent one coherent |
| ChannelModem.Receivers.CalculateRxPower | src/p2G4_channel_and_modem.c:226-236 | In the power array of one receiver the entry of each active transmitter plus its attenuation becomes its power plus the gain, and all others keep what they held |
| ChannelModem.Receivers.Recalculate | src/p2G4_channel_and_modem.c:261-267 | All figures of one receiver are computed anew from the air, the other receivers stay |
| ChannelModem.Receivers.BitErrors | src/p2G4_channel_and_modem.c:251-273 | Figures are recomputed only if a counter moved; the rate used is that of the receiver afterwards |
| ChannelModem.Receivers.IsPacketSynched | src/p2G4_channel_and_modem.c:278-306 | The counters are renewed and all figures and the synchronization probability recomputed |
| ChannelModem.Receivers.MeasureRssi | src/p2G4_channel_and_modem.c:311-324 | Only the analog figures of one receiver change, and the RSSI is that of the present air |
| Structure.StepStructured | src/p2G4_main.c:1159-1163 | If list, queue, receptions and device count agree, the event called has a handler, and they agree after it unless the simulation is over |
| Structure.StepCounter | src/p2G4_pending_tx_list.c:53-94 | An event never lowers the transmission counter, and while it stands still the active set and its parameters do |
| Structure.DispatchShape | src/p2G4_main.c:162-172 | An event changes its own device and the list, and other devices only from searching to found now |
| Steps.StepInv | src/p2G4_main.c:1159-1163 | Unless it is a start which puts time back, one event keeps all devices in step with their sessions, and time does not fall |
| Caching.DrawnRateIsExact | src/p2G4_main.c:489-506 | The errors of a microsecond are drawn with the rate which the models give for the present air |
| Caching.StepCached | src/p2G4_channel_and_modem.c:251-324 | Every event keeps all caches sound, and those of receptions which were not prelocked coherent |
| Runs.RunStructured | src/p2G4_main.c:1112-1170 | Over every run, aligned or not, used[d] is on iff the event of d is one of a transmission in the air, a receiver searches iff its event is the search re-evaluation, packets are held only for transmissions, max_tx_nbr is exact, and nbr_active_devs counts the devices with an event |
| Runs.AlwaysHandled | src/p2G4_func_queue.c:82-88 | The running loop never calls the missing handler of State_None |
| Runs.EventsAreInTime | src/p2G4_main.c:1157-1163 | An event runs only while no error has been raised, devices are left, and the simulated time is not over |
| Runs.RunInv | src/p2G4_main.c:1112-1170 | Over every straight run each pending event fits the messages of its device and is not in the past |
| Runs.SessionsConform | docs/README.md:37-38 | Over every straight run the messages of every device are in the protocol language, each at its time and with the results of the closed forms |
| Runs.TimeNeverDecreases | src/channel_if.h:53 | Over every straight run simulated time never decreases, between any two of its states |
| Runs.EqualCounterEqualAir | src/p2G4_pending_tx_list.c:44-94 | Two states of a run with the same counter have the same devices in the air with the same parameters |
| Runs.RunCached | src/p2G4_channel_and_modem.c:251-324 | Over every run with time-invariant models all caches are sound, and those of receptions which were not prelocked coherent |
| Runs.RunRate | src/p2G4_channel_and_modem.c:251-273 | In every run with time-invariant models a reception, prelocked or not, draws its errors with its own rate in the present air if the counter has moved since the rate was calculated, and otherwise with the rate in the present air of the reception and the transmitter it was calculated for |
| Runs.RunRateIsExactIff | src/p2G4_main.c:489-506 | In every run with time-invariant models a reception draws its errors with its own rate in the present air iff the counter has moved, or the reception its rate was calculated for has the same rate in the present air |
| Runs.RunRateIsExact | src/p2G4_main.c:489-506 | It does so whenever it was not prelocked, or the counter has moved, or the rate was calculated with its parameters |
| Runs.RunSamples | src/p2G4_main.c:489-506 | In every straight run the errors of a reception have been drawn from errorspercalc * ceil(k / rate_uspercalc) samples, where k is the number of microseconds reported since its request and drawn since, and the next samples are due iff k is a multiple of rate_uspercalc |
| Prelock.RateCanBeStale | src/p2G4_main.c:464 | A run in which a prelocked reception with another gain draws with the rate of the reception before it, which is not its own |
| AirTime.ThreePhases | src/p2G4_func_queue.h:20-37 | In each microsecond of a straight run all starts of transmissions run first, and after an end of a transmission or a wait only such ends run |
| AirTime.AirSettled | src/p2G4_main.c:40-59 | Later messages do not change which times the transmissions of a device cover, unless it drops out at that very time |
| AirTime.ListIsAir | src/p2G4_pending_tx_list.c:44-94 | At an event other than a start, an end or a wait a device is in the list iff its messages so far cover the present time |
| AirTime.RunLogs | src/p2G4_main.c:1159-1163 | Over a straight run the messages of a device only grow, with times between those of the states |
| AirTime.AirIsDeclarative | src/p2G4_pending_tx_list.c:44-94 | At any such event of a straight run, used[i] is on iff by the messages up to any later state a transmission of i runs from its start to the earlier of its end and last abort time over the present time |
| Progress.StepBelow | src/p2G4_main.c:1159-1163 | If devices neither recheck nor wait until now, every event which does not put time back lowers a lexicographic measure of the time left and the work left in this microsecond |
| Progress.RunEnds | src/p2G4_main.c:1159-1163 | Every straight run with such devices can be continued to its end, or to an event which puts time back; none is endless |
| Schedule.VersionOneIsAligned | src/p2G4_v1_v2_remap.c:38-49 | Every version 1 transmission is aligned |
| Schedule.ScheduleIs | src/p2G4_main.c:180-212 | The recheck comes first unless the next packet event or the end is due before it; the start of a packet takes precedence over an end of the transmission at the same time, its end does not; and whatever comes instead of the recheck comes at the end of the transmission |
| Schedule.PastIff | src/p2G4_main.c:199-211 | The event scheduled for a transmission is in the past iff the recheck time has passed, but is not after the next packet event |
| Schedule.AlignedAgree | src/p2G4_main.c:180-212 | For an aligned transmission in the air the written and the documented schedule are the same |
| Schedule.BeforePacketAgreeIff | src/p2G4_main.c:185-206 | Before a packet starts they are the same iff the recheck or the end of the transmission does not come after its start |
| Schedule.OngoingAgreeIff | src/p2G4_main.c:188-211 | While a packet is ongoing they are the same iff the recheck or the end of the transmission does not come after its end |
| Schedule.EndedAgreeIff | src/p2G4_main.c:185-206 | After a packet has ended they are the same iff the recheck time does not come after its start |
| Schedule.FallsBackIff | src/p2G4_main.c:1159-1163 | Any event puts time back iff, in the state before it, it is the start of a packet at the end of its transmission under the condition of Invariant.FallsFrom |
| Schedule.TimeNeverFallsIff | src/channel_if.h:53 | Over any run, whatever the devices ask, time never decreases iff no event of it is such a start |
| Schedule.EndIsPutOffIff | src/p2G4_main.c:188-211 | After an event which leaves a packet ongoing, its end is put off to the end of the transmission iff it is to end before that and before the next recheck |
| Schedule.EveryEndIsFollowedByAStart | src/p2G4_main.c:253-260 | A packet end event comes after the end of the packet and leads to a second packet start in the same microsecond |
| Schedule.PastItsEnd | src/p2G4_main.c:188-211 | A packet is ongoing after its end only while its end is put off, or when it has started again |
| Schedule.PacketsEndInTimeIff | src/p2G4_main.c:180-212 | Over any straight run no packet end is put off iff no event leaves a packet ongoing which is to end before its transmission and the next recheck |
| Schedule.StartIsPutOffIff | src/p2G4_main.c:185-206 | After an event which leaves a packet unstarted, its start is put off to the end of the transmission iff it is to start before that and before the next recheck |
| Schedule.PastItsStart | src/p2G4_main.c:185-206 | A packet in the air is unstarted after its time only while its start is put off to the end of the transmission |
| Schedule.PacketsStartInTimeIff | src/p2G4_main.c:180-212 | Over any straight run no packet start is put off past its time iff no event leaves a packet unstarted which is to start before the end of its transmission and the next recheck |
| Schedule.DocumentedRunIff | src/p2G4_main.c:180-212 | A run of the program, or of the documented schedule, whatever the devices ask, is one of the other as well iff no event of it puts off the start of a packet, puts off its end past the present, or handles such an end |
| Schedule.PacketStartsLate | src/p2G4_main.c:203-205 | With noise before its packet and no recheck, a packet due at 20 starts at 100; time does not fall back, and no packet end is put off |
| Schedule.TimeCanFall | src/p2G4_main.c:203-205 | A single transmission with noise before its packet makes time run 10, 100, 30 |
| Schedule.PacketOverstays | src/p2G4_main.c:185-210 | With noise after its packet, a packet which ends at 50 is still ongoing at 100 and starts again; EndIsPutOffIff and PacketsEndInTimeIff say exactly when this happens |
| Schedule.LegalIsStraight | src/p2G4_main.c:199-211 | Runs with aligned transmissions, or under the documented schedule, are straight |
| Schedule.LegalTimeNeverDecreases | src/channel_if.h:53 | Over every such run simulated time never decreases |
| Schedule.LegalRunEnds | src/p2G4_main.c:1159-1163 | Every such run whose devices let time move can be continued to its end |
| Schedule.AlignedRunsAreDocumented | src/p2G4_main.c:180-212 | With aligned transmissions the runs of the program are the runs of the documented schedule |
| Dialogue.NextTalks | src/p2G4_main.c:1048-1087 | What a device sends as its next request is what is logged, prepared with its times and parameters, or makes it leave or end the simulation; an unknown or unacceptable one is an error |
| Dialogue.PickTalks | src/p2G4_main.c:62-113 | A re-evaluation asks, measures each immediate RSSI asked for, and takes the answer which was sent; the device goes on exactly with abort times which have not passed |
| Dialogue.DecidedTalks | src/p2G4_main.c:560-608 | After an address the device continues, continues with the abort times sent, stops and makes the request sent, leaves or ends the simulation, exactly as it has answered; a packet goes on with its header, or its payload, one microsecond later, or at once without a preamble |
| Dialogue.RunTalks | src/p2G4_main.c:1159-1163 | In every run each event adds to the log of its device, and to no other, messages of which each is followed by what the device has answered to it; the count of active devices changes exactly as they say, and an error is raised exactly if the last of them is not acceptable |
| Dialogue.FirstTalks | src/p2G4_main.c:1151-1155 | The devices are asked for their first requests in turn, until one ends the simulation or makes a request which is an error |
| Searches.FittingIsLeast | src/p2G4_main.c:131-160 | The search of a receiver returns the least device with an ongoing packet of its frequency, its modulation, one of its addresses, and no more truncation than acceptable, or -1 |
| Searches.FittingCcaIsLeast | src/p2G4_main.c:696-712 | The search of a CCA scan returns the least device which transmits anything on its frequency with its modulation, or -1 |
| Searches.SearchesAreComplete | src/p2G4_main.c:298-309 | They do so in every run, although they stop at max_tx_nbr |
| Searches.MatchesNeverWrap | src/p2G4_main.c:138 | In a straight run, when a receiver looks at a packet in the air, current_time - start_packet_time does not wrap |
| Searches.ActivationsNeverWrap | src/p2G4_main.c:138 | Nor does it for the packet of a packet start event |
| Searches.NeverItself | src/p2G4_main.c:298-309 | In a straight run no device synchronizes to its own transmission |
| Searches.BuffersBelongToTransmissions | src/p2G4_main.c:835-867 | A packet buffer is held exactly for a transmission with a packet, from its request to its end |
| Searches.NoEventIsLost | src/p2G4_main.c:162-172 | The event of another device changes only from the search re-evaluation to found, now |
| Searches.PacketStartsAreHeard | src/p2G4_main.c:162-178 | A packet start activates exactly the searching receivers of its frequency and modulation which ask for its address and can do without what is gone of it, and leaves all other devices as they were |
| Searches.SearchesLock | src/p2G4_main.c:356-388 | In every run the start of a search locks to the least packet which can be caught iff it is synchronized; prelocked, it goes on with its transmitter iff the packet is ongoing and has not started too long ago; otherwise it searches on |
| Searches.FoundLocks | src/p2G4_main.c:450-486 | In every straight run a receiver found by a packet start locks to that packet iff it is synchronized |
| Searches.LocksFit | src/p2G4_main.c:131-160 | In every straight run each packet a reception locks to, unless prelocked, is of its frequency, its modulation and one of its addresses, and has started not more than the acceptable truncation ago |
| Searches.SyncIsAsked | src/p2G4_main.c:464-465 | A synchronization is decided on the probability of the modem for that very packet and reception |
| Searches.CcaSampleIsFaithful | src/p2G4_main.c:735-768 | A measurement records the RSSI of the present air with the gain and radio of the scan, and a compatible signal iff any device transmits one |
| Searches.MeasurementsAreFaithful | src/p2G4_main.c:735-789 | In every run a measurement which is due is made so, and added to the others or answered with them |
| Sampling.LostIff | src/p2G4_main.c:530-534 | In every run a synchronizing reception loses its packet iff that is not ongoing any more, and searches again one microsecond later |
| Sampling.ErrorsAreDrawn | src/p2G4_main.c:489-543 | In every run a microsecond of a reception adds the errors drawn if samples are due, and none otherwise, which are kept or reported at once; and samples due without the packet mark it as lost |
| Sampling.OthersLeaveTheRate | src/p2G4_main.c:489-502 | In every run a microsecond without samples, of a lost packet or of one with another coding rate leaves the cached rate alone |
| SessionLaws.FinishedFirst | docs/README.md:37-38 | A request is read only when the one before it has been finished |
| SessionLaws.AcceptedIff | src/p2G4_main.c:798-1046 | The requests which go on with an idle session are exactly those whose times have not passed and are in order, whose abort times lie ahead and not before the start, and whose other fields are supported |
| SessionLaws.AbortsAreInTime | src/p2G4_main.c:62-79 | No session goes on with new abort times which have passed |
| SessionLaws.VersionOne | src/p2G4_v1_v2_remap.c:21-49 | Version 1 requests are version 2 requests field by field |
| SessionLaws.VerdictsAreAnnounced | src/p2G4_main.c:410-426 | A reception ends without synchronization iff no address was found, and otherwise only after the device accepted the packet |
| SessionLaws.RepliesAreDue | docs/README.md:37-38 | Waits and RSSI measurements are answered exactly at their time, transmissions at the earlier of end and last abort time, CCA scans and receptions not before their start |
| SessionLaws.ReceptionsEnd | src/p2G4_main.c:428-447 | A reception without synchronization ends exactly one after the end of its scan, cut by all new abort times; none ends later than its last abort time plus one |
| SessionLaws.RechecksAreAsked | src/p2G4_main.c:313-324 | When a recheck time is reached new abort times are asked for, and no other message of the request comes after it |
| SessionLaws.AddressesInTime | src/p2G4_main.c:545-560 | An address is found not before the start, nor after the scan asked for or the abort time in force |
| SessionLaws.ScanEnds | src/p2G4_main.c:922-937 | The last microsecond of a scan is the last one asked for if that is not after the abort time, and otherwise the one before the abort time |
| SessionLaws.ScanNeverGrows | src/p2G4_main.c:313-324 | New abort times never move the end of a scan later |
| SessionLaws.NeverTwice | src/p2G4_main.c:530-543 | A reception never locks twice to the same packet, so not to one it has lost |
| SessionLaws.NoReplyAfterStop | src/p2G4_main.c:581-608 | A reception which the device has stopped gets no reply |
| SessionLaws.OneSamplePerMicrosecond | src/p2G4_main.c:536-611 | Errors are drawn once in each microsecond of the synchronization, and from there to the verdict |
| SessionLaws.ScanResults | src/p2G4_main.c:735-789 | A CCA scan has measured at start and every period up to its end, which is its first measurement over the RSSI threshold (if it stops at 2 or 3) or compatible and over the modulation threshold (if at 1 or 3), or else the end of the scan, and never later; its count, maxima and flags are exactly those of its measurements |
| SessionLaws.ScanEndsByAbortIff | src/p2G4_main.c:728-730 | A CCA scan ends by its last abort time iff that was agreed on while it ran, or the scan asked for ends by it, or a measurement stops it by then |
| Overrun.ScanOverruns | src/p2G4_main.c:1036 | A run in which a scan with an abort time of 20 is answered at 109 |
| SessionLaws.CorrectIff | src/p2G4_main.c:649-683 | An accepted packet is received correctly iff no error was drawn after its address and no abort time came up to its end, and then at its end |
| SessionLaws.FailuresAre | src/p2G4_main.c:615-683 | A header fails iff the reception ends in it, by its abort time or at its end over the threshold, which no other header exceeds; a payload fails by the abort time or at its end with an error |
| SessionLaws.LossesExceed | src/p2G4_main.c:530-546 | A synchronization is lost with the first microsecond whose errors exceed the threshold, or with its transmission; an address is found if they never do |
| Machine.Simulation.constructor | src/p2G4_main.c:1126-1151 | The arrays before the first request |
| Machine.Simulation.PickAbort | src/p2G4_main.c:85-113 | The re-evaluation: immediate RSSI measurements one by one, then the answer of the device |
| Machine.Simulation.TakeAnswer | src/p2G4_main.c:62-79 | Leaving, ending the simulation, abort times which have passed (fatal) and abort times which are taken |
| Machine.Simulation.CheckAbort | src/p2G4_main.c:815-833 | Abort times are acceptable iff both lie in the future and not before the start |
| Machine.Simulation.PrepareTx | src/p2G4_main.c:835-870 | A transmission is checked, registered and scheduled for its start |
| Machine.Simulation.PrepareRx | src/p2G4_main.c:905-970 | A reception is checked and initialized, with the end of its scan, and scheduled for its start |
| Machine.Simulation.PrepareRxV2 | src/p2G4_main.c:984-1013 | A version 2 reception passes its own checks and is prepared, or is fatal |
| Machine.Simulation.PrepareWait | src/p2G4_main.c:798-813 | A wait is scheduled, and is fatal if its end has passed |
| Machine.Simulation.PrepareRssi | src/p2G4_main.c:890-903 | An RSSI measurement in the future is scheduled, any other is fatal |
| Machine.Simulation.PrepareCca | src/p2G4_main.c:1015-1046 | A CCA scan is checked and initialized, and scheduled for its start |
| Machine.Simulation.HandleNextRequest | src/p2G4_main.c:1048-1087 | Each request a device may send is prepared, ends its part, or is fatal, as by Device.HandleNext |
| Machine.Simulation.ScheduleNextEvent | src/p2G4_main.c:180-212 | The next event of a transmission is the one of Device.TxNextEvent, and nothing else changes |
| Machine.Simulation.OnTxAbortReeval | src/p2G4_main.c:230-243 | A transmission is re-evaluated, or cleared if its device leaves |
| Machine.Simulation.OnTxPacketEnd | src/p2G4_main.c:253-260 | The packet ends and the next event is scheduled |
| Machine.Simulation.OnTxEnd | src/p2G4_main.c:40-59 | The transmission is cleared and answered, and the next request is read |
| Machine.Simulation.OnWaitDone | src/p2G4_main.c:34-38 | The wait is answered, and the next request is read |
| Machine.Simulation.OnRssiMeas | src/p2G4_main.c:263-274 | The RSSI is measured and answered, and the next request is read |
| Machine.Simulation.FindFittingTx | src/p2G4_main.c:298-309 | The upward search finds the least ongoing packet below the bound which fits, or -1 |
| Machine.Simulation.EnqueueSearchReeval | src/p2G4_main.c:284-291 | The receiver searches until the end of the scan or the recheck time |
| Machine.Simulation.RxPossibleRecheck | src/p2G4_main.c:313-324 | At the recheck time new abort times are taken and, while scanning, cut the scan |
| Machine.Simulation.PrelockCheck | src/p2G4_main.c:327-354 | A prelocked transmission is kept only if its packet is ongoing and started recently enough |
| Machine.Simulation.OnRxSearchStart | src/p2G4_main.c:356-388 | A reception starts: re-evaluation, search, and lock or wait |
| Machine.Simulation.RxScanEnded | src/p2G4_main.c:410-426 | The reception ends without synchronization, and the next request is read |
| Machine.Simulation.OnRxSearchReeval | src/p2G4_main.c:428-447 | The search ends after its last microsecond or goes on |
| Machine.Simulation.OnRxFound | src/p2G4_main.c:450-486 | The receiver locks to the packet, or searches on if it is not synchronized |
| Machine.Simulation.BitErrorCalc | src/p2G4_main.c:489-506 | The errors of one microsecond, drawn only when due, from the cached rate or as of a lost transmission |
| Machine.Simulation.OnRxSync | src/p2G4_main.c:508-613 | One event of the synchronization |
| Machine.Simulation.SyncDone | src/p2G4_main.c:545-608 | The address is announced and the device continues, stops, leaves or ends the simulation |
| Machine.Simulation.OnRxHeader | src/p2G4_main.c:615-647 | One microsecond of a header |
| Machine.Simulation.OnRxPayload | src/p2G4_main.c:649-684 | One microsecond of a payload |
| Machine.Simulation.FindFittingTxCca | src/p2G4_main.c:696-712 | The upward search finds the least compatible transmission below the bound, or -1 |
| Machine.Simulation.Sensed | src/p2G4_main.c:737-772 | One measurement of a CCA scan, and its effect on the results and on the end of the scan |
| Machine.Simulation.OnCcaMeas | src/p2G4_main.c:715-789 | One event of a CCA scan: re-evaluation, measurement if due, answer or next event |
| Machine.Simulation.FindAndActivateRx | src/p2G4_main.c:162-172 | The loop moves exactly the searching receivers which fit to the found state, now |
| Machine.Simulation.OnTxStart | src/p2G4_main.c:214-228 | A transmission starts, with its packet and the receivers if that is due, and is scheduled on |
| Machine.Simulation.OnTxPacketStart | src/p2G4_main.c:245-251 | A packet starts, receivers are activated, and the transmission is scheduled on |
| Machine.Simulation.CallNext | src/p2G4_func_queue.c:86-88 | The handler of the chosen event runs; its effect on the whole state is Phy.Dispatch |
| Machine.Simulation.FindNext | src/p2G4_main.c:1157-1158 | The next event is chosen and its time becomes the current time |
| Machine.Simulation.FirstRequests | src/p2G4_main.c:1153-1155 | Devices are asked for their first request in turn while any is active |
| Machine.Simulation.RunFor | src/p2G4_main.c:1112-1170 | For any number of events and any devices, the main program follows a run of the model, and stops before only when no device is left, the time is over, or an error is raised |
| Machine.Simulation.Run | src/p2G4_main.c:1112-1170 | With devices which ask for aligned transmissions and let time move, the main program ends, after a run of the model |
| Merging.RowsArePrefix | dump_post_process/csv2pcapng:82-101 | The rows of a file are those up to its first truncated line |
| Merging.MergeTakesAll | dump_post_process/csv2pcapng:85-101 | The merge takes every row of every file once, in the order of the file |
| Merging.MergeOrdered | dump_post_process/csv2pcapng:85-101 | The merge of sorted files is ordered by start time, ties going to the lower file |
| Merging.OnlyOneMerge | dump_post_process/csv2pcapng:85-101 | The merge of sorted files is the only sequence which is so ordered and holds exactly the rows of each file in their order |
| Pcapng.ReadAll | dump_post_process/csv2pcapng:139-188 | Framed blocks are read back by their lengths, whatever they contain |
| Pcapng.ReadPacket | dump_post_process/csv2pcapng:139-188 | An Enhanced Packet Block is read back, by the link type and resolution of its interface, as the packet it was written for |
| Pcapng.RowFails | dump_post_process/csv2pcapng:103-145 | A row is skipped iff its packet is empty, and raises an exception iff its frequency is in no band, or its time, length or address does not fit |
| Pcapng.RowIsWritten | dump_post_process/csv2pcapng:107-180 | Otherwise its packet has its time, kind, address and channel, and as much of its payload as fits in 512 bytes with its header |
| Pcapng.RowIsCut | dump_post_process/csv2pcapng:150-177 | An exception over the address comes after the first 28 bytes of the block, any other before |
| Pcapng.RaisedIff | dump_post_process/csv2pcapng:109-137 | The output is cut short iff some merged row raises an exception |
| Pcapng.OutputIsCut | dump_post_process/csv2pcapng:103-188 | It is cut at the first such row, with the blocks of all rows before it |
| Pcapng.PacketsAre | dump_post_process/csv2pcapng:103-188 | The packets of the rows are those of all rows which have one, in their order |
| Pcapng.ReadsBack | dump_post_process/csv2pcapng:22-188 | If no row raises an exception, a reader which takes version, link types, resolutions and lengths from the file reads the packets of the merged rows, in order |
| Pcapng.EarliestRow | dump_post_process/csv2pcapng:86-95 | The scan over the rows read ahead finds the earliest, the first of several |
| Pcapng.WriteRow | dump_post_process/csv2pcapng:103-188 | The pieces written for one row are its framed block, nothing for an empty packet, or what precedes an exception |
| Pcapng.Write | dump_post_process/csv2pcapng:22-188 | The file is the prologue and the blocks of the merged rows, up to the first exception; without one it reads back as their packets |

## Left out

- The pipes to the devices (src/p2G4_com.c): what a device sends is a parameter, what it is sent is a log.
- Loading, initializing and deleting channel and modem libraries, and their floating-point figures: uninterpreted functions over the reals, with no rounding.
- The channel and the modem are taken to depend on the parameters and powers of the active transmissions, but not on their abort times, packets or state bits, nor on what the power array holds for the others.
- The random generator: whether a packet is synchronized, and how many errors a microsecond has, are arbitrary values; their probabilities are not modelled.
- The modulation masked with P2G4_MOD_SIMILAR_MASK is a field of its own, `Types.Radio.family`; the bit operation is not modelled.
- The contents of responses other than status, end time, and the results of a CCA scan: timestamps, RSSI values, packet sizes and packets.
- RSSI_ave of a CCA scan, an average of powers in floating point.
- Wrap-around of 64-bit counters and of sums of a time and a duration; differences of times which the code forms, and subtracting one, do wrap in the model.
- Preamble, header and truncation lengths of 2^31 microseconds or more.
- A header_threshold, sync_threshold or address wider than the fields of the request: they are natural numbers here.
- Runs of the program after an event which has put time back, in the results about time: the condition of Schedule.TimeNeverFallsIff says which runs have none.
- The transmission which a prelocked first reception of a device continues is that of device 0, as in the zeroed memory of the program.
- Machine.Simulation.Run: terminates only with devices which neither ask to be rechecked now nor to wait until now, since these can hold the simulated time, and which ask for aligned transmissions, since others can put it back; Machine.Simulation.RunFor has neither condition.
- Command line, dump files, traces, memory allocation and clean-up.
- The text of trace files: a row is a record of numbers, a packet is absent if its hexadecimal text is broken, and frequencies are real numbers.
- csv2pcap, csv2pcap_15.4.py and the Ellisys scripts.
