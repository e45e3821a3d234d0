# pnio: a Dafny model of a PROFINET IO-Device stack

pnio is a PROFINET IO-Device. A controller opens an application relation (AR) with it over DCE-RPC,
exchanges process data with it in cyclic real-time frames, and is told about faults by alarms on an
acknowledged channel. This project models the stack's two connected systems and proves what they keep
over every run.

**The acyclic side.** `Ar` is the connection state machine, `Cm` wraps it with a retransmission cache and
numbered outgoing calls, `AlarmChannel` is a stop-and-wait sender and receiver with two levels of
acknowledgement, proved to process each message of a stop-and-wait peer exactly once over links that lose and
repeat (`AlarmLink.ExactlyOnce`), `DiagStore` holds the active channel diagnoses, and `Device` joins them in one loop whose
alarm actions are collected early and applied last. The main result is `DeviceRuns.ControllerMirror`: a
controller that parses the octets the device puts on the wire, and knows nothing else, reconstructs exactly
the active diagnoses, through any sequence of faults, retries, aborts and reconnects; and those are exactly the
ones the application's commands left active (`DeviceReference.ActiveFromCommands`).

**Every answer, from what was observed.** Each machine is also compared with a reference that keeps none of its
state: what it must do next is computed from the requests, frames, times and answers so far. Over every run the AR
answers every event so (`ArReference.AnswersAsReference`), the context manager sends every datagram so
(`CmReference.OutputsAsReference`), the alarm channel acts so (`AlarmReference.ActsAsReference`), and every
operation on the image returns, in every interleaving, what the operations before it say
(`ImageReference.ResultsFromHistory`). The device is then shown to consist of them: its context manager is a run of
the manager over exactly the inputs meant for it (`DeviceReference.ManagerRuns`), and its open alarm channel a run of
the channel, with the parameters of the Connect that established the AR (`DeviceChannel.ChannelRuns`).

**The cyclic side.** A declared field list is packed into octets, described to the controller, negotiated at
Connect, turned into a layout of disjoint ranges, shared with the real-time thread through `IoImage`, and
sent by `RtEngine`. `IoImage` is proved linearizable and deadlock free under every interleaving
(`Image.Linearizable`, `Image.DeadlockFree`). The main results build on that:
`DataPath.InputReachesController` says of every interleaving of application writes, rebuilds and snapshots
that a field reads back at the controller as it was last written when the RT thread's buffer was last filled
(a tick that finds the image busy sends the previous snapshot again), and `DataPath.OutputReachesApplication`
that a value the controller put in the last valid frame reads back at the application.

**Both.** `Bringup.EveryConfigComesUp` takes every configuration that can be built from power-on to Data, so
the theorems about open channels and built layouts speak of states that occur.

**Codecs.** The nested RTA and PNIO block formats, MultipleWrite and DCP blocks read back what they print, and each
field is proved to stand at its own octets; and the latency histogram against true order statistics.

## How it is organised

State machines are given twice. A module of functions on values says what each step does (`Ars`, `Cms`,
`AlarmChannels`, `Diag`, `Devices`, `Producer`, `Consumer`); the theorems quantify over all runs of these.
A class whose methods assign fields, arrays and loops says how the source does it (`ArMachine`, `CmMachine`,
`AlarmMachine`, `DiagMachine`, `DeviceMachine`, `Engine`); each method is proved to take exactly the step of
the function of the same name. A run is a value `Start | Then(run, event)`, and what a theorem compares the
state with is computed from the observable events of the run.

`IoImage` is used by several threads at once, so it is a step machine instead of a class: one lock
acquisition or one copied octet at a time, for any number of threads.

## What is taken as given

- Time is an integer passed in; there is no clock. Milliseconds in the acyclic modules, nanoseconds in the
  watchdog.
- The DCE-RPC and NDR envelope is abstract: a datagram is its decoded fields, a PDU to send is the record
  its octets are built from. Connect and Read requests carry the outcome of parsing their blocks; Write,
  Control and Release blocks are parsed by the modelled parsers.
- Alarm actions carry PDUs; `AlarmMirror.OctetsSayTheSame` connects them with the octets of `BuildFrame`.
- In the closed loop of `AlarmLink` the link to the device carries octets and the link back carries PDUs; an
  ACK-RTA always reads back from its octets (`AlarmMirror.AckIsLegible`).
- Transport sends succeed.
- The RT thread is its events, its snapshots and publishes, and whether it can be started.
- Floating-point field values are their 32-bit patterns. Percentiles are over reals.
- Call numbers and channel epochs are unbounded; alarm ids wrap at 32 bits as in the source.
- A name of station has at most 240 octets, which the configuration checks.

## Where the code and its comments differ

- A comment (crates/pnio/src/device/mod.rs:583-585) takes it that a diagnosis alarm is never refused. It is,
  when the negotiated MaxAlarmDataLength is below 30 octets (`Bringup.DiagnosisLost` gives such a run).
  `DeviceRuns.ControllerMirror` says exactly what then holds: the controller is told nothing, so the mirror
  is exact if and only if the length is at least 30 or nothing is active.
- Cells are documented to exist only while the AR is in Data (crates/pnio/src/api.rs:339-345). When the RT thread cannot be started the image has
  been rebuilt already and is not cleared when the AR ends (`Bringup.CellsOutliveData` gives such a run).
  `DeviceRuns.ImageLife` gives the exact condition: with no RT thread alive cells exist if and only if the RT
  thread of the last image did not come up.
- Any DCE-RPC response moves an AR that waits for one to Data or aborts it: it is not matched with the call
  it answers. An alarm acknowledgement is matched by type, slot and subslot only. Both are modelled as they
  are.

## Model

| member | source | states |
|---|---|---|
| DeviceRuns.ControllerMirror | crates/pnio/src/device/mod.rs:498-589 | Over every run, with the alarm channel open, parsing the octets the channel put on the wire and learning from each notification once (a repeated number is ignored), then from those still queued, gives exactly the store's active diagnoses with their severities if MaxAlarmDataLength is at least 30, and nothing otherwise; hence the exact condition for the mirror to hold |
| DeviceRuns.EpochSafety | crates/pnio/src/device/mod.rs:600-650 | Over every run the channel is open exactly in Data; every frame sent, every ERR-RTA and every AR torn down was done for the channel open at that moment; the frames of each channel leave in the order asked for, all of them while it is open |
| DeviceRuns.ImageLife | crates/pnio/src/device/mod.rs:740-799 | Over every run the RT thread lives only in Data; in Data the image is the current AR's whenever its layout can be built, and no RT thread lives otherwise; whenever none lives, in Data or not, cells exist if and only if the last RT thread did not come up |
| DeviceRuns.PublishedAgrees | crates/pnio/src/device/mod.rs:535-543 | Over every run the published list holds each active diagnosis exactly once and the problem bit is set exactly when a controller knowing the active set knows of a fault |
| DeviceRuns.AbortsInOrder | crates/pnio/src/device/mod.rs:600-650 | Over every run and for every abort in it: an AR torn down at its channel's request is announced at once by an ERR-RTA on that channel unless the controller's own is the reason, every ERR-RTA parses back with the code of its reason, and nothing is done for a channel after its end, so it has at most one ERR-RTA and no frame follows it |
| DeviceRuns.AbortAnnounced | crates/pnio/src/device/mod.rs:353-360 | After every run an abort that finds the channel open puts exactly one ERR-RTA on the wire, with the channel's references and counters, whose octets parse back with the code of the reason, none if the controller's own ERR-RTA is the reason, and closes the channel |
| DeviceRuns.RunKeeps | crates/pnio/src/device/mod.rs:341-493 | Every iteration, every shutdown and every abort asked for in between keeps the joint invariant of AR, channel, store, pending actions, wire log and image |
| DeviceReference.RtEventsExact | crates/pnio/src/device/mod.rs:803-826 | Over every run and iteration: if the RT thread is there when its events are drained and one of them is a watchdog expiry or a socket error, then the AR is Idle, channel, thread and cells are gone, and the log has gained exactly one ERR-RTA, on the epoch that was open and for the reason of the first such event; otherwise nothing changes |
| DeviceReference.ManagerRuns | crates/pnio/src/device/mod.rs:376-490 | Over every run the context manager inside the device is a run of its own machine over exactly the datagrams that came, the failures of the RT thread, one timer per iteration and the teardowns asked for by alarm channels, and every datagram it sends is on the wire in order |
| DeviceReference.ActiveFromCommands | crates/pnio/src/device/mod.rs:498-533 | Over every run a diagnosis is active exactly when the last command about its slot, channel and error raised it on a slot the device diagnoses, with that severity |
| DeviceChannel.ChannelRuns | crates/pnio/src/device/mod.rs:376-490 | Over every run the open channel is a run of its own machine since it was opened, over the alarm frames to the device, the notifications of the store, stamped 0, 1, 2, and so on modulo 2048, and one tick per iteration; its references, timeout, retries and limits are those of the Connect that established the AR; all it asked to send is on the wire, and it has not asked for an abort |
| DeviceChannel.UnheardCounted | crates/pnio/src/device/mod.rs:376-490 | Over every run exactly the alarm frames for the device that came with no channel open are counted as such |
| DeviceRuns.DiagnosisRefused | crates/pnio/src/alarm/channel.rs:180-187 | A channel diagnosis is refused if and only if the negotiated length is below 30 |
| Bringup.DiagnosisLost | crates/pnio/src/device/mod.rs:578-589 | For every device, every accepted Connect of a controller that takes less than 30 octets and every diagnosis on a known slot there is a run after which the AR is in Data, the diagnosis is active, and a controller that hears everything sent and queued knows of nothing |
| Bringup.ComesUp | crates/pnio/src/device/mod.rs:376-493 | For every device, every Connect it accepts and every time: one iteration that finds Connect, PrmEnd and a positive ApplicationReady answer takes it from power-on to Data with the negotiated parameters and an open alarm channel |
| Bringup.EveryConfigComesUp | crates/pnio/src/config.rs:312-344 | Every configuration that can be built, met by a canonically packing controller, reaches Data with its RT thread and its image in place |
| Bringup.CellsOutliveData | crates/pnio/src/device/mod.rs:754-798 | For every device whose layout can be built there is a run after which the AR is Idle and cells exist: brought up with an RT thread that cannot start, then shut down |
| DeviceMachine.Device.Step | crates/pnio/src/device/mod.rs:376-493 | The loop with its seven stages, as drained queues and a pending list, takes the step `Devices.Iterate` |
| DeviceMachine.Device.ApplyAlarmActions | crates/pnio/src/device/mod.rs:600-631 | A batch of a channel that is gone is dropped whole, otherwise its actions are done in order; equals `Devices.ApplyBatch` |
| DeviceMachine.Device.AbortWithErrRta | crates/pnio/src/device/mod.rs:635-647 | ERR-RTA is sent first unless the controller aborted, then the AR goes; equals `Devices.AbortWithErrRta` |
| DeviceMachine.Device.Dispatch | crates/pnio/src/device/mod.rs:671-713 | Datagrams out, then every notice in order; the mutual recursion with `ApplyAlarmActions` terminates |
| DeviceMachine.Device.OnNotice | crates/pnio/src/device/mod.rs:685-708 | Data starts the runner, opens a channel and replays; Idle stops and closes |
| DeviceMachine.Device.QueueNotification | crates/pnio/src/device/mod.rs:566-589 | Stamped, numbered and queued; a refused or channel-less one takes no id |
| DeviceMachine.Device.OpenAlarmChannel | crates/pnio/src/device/mod.rs:652-666 | A new epoch and a fresh channel with the negotiated parameters |
| DeviceMachine.Device.DrainDiagQueue | crates/pnio/src/device/mod.rs:498-531 | Commands in order, published only if there were any |
| DeviceMachine.Device.DrainRtEvents | crates/pnio/src/device/mod.rs:803-823 | Takes the step `Devices.AllRtEvents`: events only while a runner exists, so an abort ends the draining; `DeviceReference.RtEventsExact` says what that does |
| DeviceMachine.Device.OnEthernet | crates/pnio/src/device/mod.rs:425-452 | An alarm frame addressed to the device goes to the open channel, or is counted |
| DeviceMachine.Device.StartRunner | crates/pnio/src/device/mod.rs:740-771 | The image is rebuilt before the thread is started, and kept if that fails |
| DeviceMachine.Device.StopRunner | crates/pnio/src/device/mod.rs:781-799 | Cells go with the runner, if there is one |
| DeviceMachine.Device.Shutdown | crates/pnio/src/device/mod.rs:365-370 | No AR, nothing; otherwise announced and aborted |
| AlarmMirror.OctetsSayTheSame | crates/pnio/src/alarm/rta.rs:658-728 | Hearing the octets built from legible PDUs is hearing the PDUs, one frame each |
| AlarmMirror.SendNextTells | crates/pnio/src/alarm/channel.rs:309-335 | Moving the head of the queue to the wire leaves what the controller will know unchanged |
| AlarmMirror.EnqueueTells | crates/pnio/src/alarm/channel.rs:180-190 | An accepted request adds exactly its notification to what the controller will know |
| AlarmMirror.OnFrameTells | crates/pnio/src/alarm/channel.rs:194-222 | No frame from anyone changes what the controller will know, unless it makes the channel abort |
| AlarmMirror.OnTickTells | crates/pnio/src/alarm/channel.rs:228-249 | Nor does a timer: a resend carries the number of the last DATA |
| AlarmMirror.BatchShapes | crates/pnio/src/alarm/channel.rs:410-450 | A batch of actions holding an abort holds nothing else |
| AlarmSender.SenderSequence | crates/pnio/src/alarm/channel.rs:309-335 | Over every run an idle sender has an empty queue, the n-th fresh DATA carries 0xFFFF for n = 0 and (n - 1) mod 0x8000 after, `sent` counts them, and no alarm is resent more than the negotiated retries |
| AlarmSender.SenderDelivery | crates/pnio/src/alarm/channel.rs:180-222 | Over every run the acknowledged ids are an in-order, at-most-once subsequence of the accepted ones; fresh DATA carry accepted alarms in order, and with the queue all of them as long as nothing was aborted |
| AlarmSender.SenderConservation | crates/pnio/src/alarm/channel.rs:337-467 | Over every run sent = acked + ack timeouts + send failures + killed by ERR-RTA + in flight |
| AlarmSender.SenderDrains | crates/pnio/src/alarm/channel.rs:228-249 | With no further input the channel falls idle after exactly the computed number of expired ticks |
| AlarmReference.ActsAsReference | crates/pnio/src/alarm/channel.rs:180-483 | Over every run what the channel does at the next event, whatever it is, is what the alarms asked for, the frames of the peer, the times and the actions so far say: numbers, references, resends and their times, acknowledgements, aborts |
| AlarmReference.AckedExactly | crates/pnio/src/alarm/channel.rs:356-408 | Over every run an alarm is reported acknowledged if and only if a DATA of the peer with a new number carries an acknowledgement of the type, slot and subslot of the notification in the last fresh DATA while that alarm is in flight; id and status are its own, and the next alarm waiting is then in flight |
| AlarmReference.CountersTold | crates/pnio/src/alarm/channel.rs:294-307 | Over every run the counters are what the trace of actions shows, stray ACK-RTAs included, and specifier numbers count up modulo 2048 |
| AlarmReceiver.ReceiverExact | crates/pnio/src/alarm/channel.rs:356-408 | Over every run each DATA of the peer gets one ACK-RTA with its own number and priority, in order, and content is processed exactly at the entries that do not repeat the number before them |
| AlarmLink.ExactlyOnce | crates/pnio/src/alarm/channel.rs:356-408 | Over every trace of a closed loop with a stop-and-wait peer, whose FIFO links both ways lose and repeat and whose channel meanwhile handles any alarm requests, timers and other frames: the messages processed are the peer's, in order, each once, up to those it knows to be acknowledged or one more; when it is done, all of them |
| AlarmLink.CanFinish | crates/pnio/src/alarm/channel.rs:356-408 | From every point of every such trace the peer can still get all its messages processed and acknowledged |
| AlarmLink.BuiltIsHeard | crates/pnio/src/alarm/channel.rs:194-215 | Every canonical DATA the peer builds for us is one the channel hears, so such loops exist |
| AlarmReceiver.ArrivalsProcessedOnce | crates/pnio/src/alarm/channel.rs:356-373 | Messages that arrive in order, each at least once, are each processed exactly once |
| AlarmReceiver.OwnNumberingIsAccepted | crates/pnio/src/alarm/channel.rs:309-326 | The numbers this sender gives out meet the receiver's condition |
| AlarmMachine.AlarmChannel.Enqueue | crates/pnio/src/alarm/channel.rs:180-190 | Too long is refused with both lengths and changes nothing; else queued and sent if idle |
| AlarmMachine.AlarmChannel.OnFrame | crates/pnio/src/alarm/channel.rs:194-222 | Takes the step `AlarmChannels.OnFrame`, for any octets |
| AlarmMachine.AlarmChannel.OnTick | crates/pnio/src/alarm/channel.rs:228-249 | Takes the step `AlarmChannels.OnTick` |
| AlarmMachine.AlarmChannel.SendNext | crates/pnio/src/alarm/channel.rs:309-335 | Takes the step `AlarmChannels.SendNext` |
| AlarmMachine.AlarmChannel.OnTransportAck | crates/pnio/src/alarm/channel.rs:337-354 | Takes the step `AlarmChannels.OnTransportAck` |
| AlarmMachine.AlarmChannel.OnData | crates/pnio/src/alarm/channel.rs:356-408 | Takes the step `AlarmChannels.OnData`, which `AlarmReference.AckedExactly` and `ActsAsReference` determine |
| AlarmMachine.AlarmChannel.RetryOrAbort | crates/pnio/src/alarm/channel.rs:419-450 | Takes the step `AlarmChannels.RetryOrAbort` |
| AlarmMachine.AlarmChannel.DropUnacknowledged | crates/pnio/src/alarm/channel.rs:452-467 | Takes the step `AlarmChannels.DropUnacknowledged` |
| Diag.RaiseMirrors | crates/pnio/src/diag.rs:192-204 | A raise changes what a controller should know exactly as its notification says, and changes nothing when it sends none |
| Diag.ClearMirrors | crates/pnio/src/diag.rs:206-226 | The same for a clear; it notifies exactly when the diagnosis was active, and "others remain" exactly when the channel has another |
| Diag.ReplayTellsAll | crates/pnio/src/diag.rs:239-247 | A controller that knows nothing learns the whole active set from the replay |
| Diag.RaiseSays | crates/pnio/src/diag.rs:192-204 | For every device model: a Diagnosis alarm with the module and submodule of the slot, its direction, the severity, and the flags for slot and device, unless it is active so already; nothing on a slot the device does not diagnose |
| Diag.ClearSays | crates/pnio/src/diag.rs:206-226 | A DiagnosisDisappears alarm exactly for an active entry, with the severity it had and whether others remain on its channel |
| Diag.ReplaySays | crates/pnio/src/diag.rs:239-247 | Every active entry once, in ascending order, each as a Diagnosis alarm of its slot |
| Diag.PublishedList | crates/pnio/src/diag.rs:233-237 | The list holds each active diagnosis once |
| Diag.ProblemAgrees | crates/pnio/src/diag.rs:228-231 | The problem indicator says what the controller's view says |
| DiagMachine.DiagStore.Raise | crates/pnio/src/diag.rs:192-204 | Takes the step `Diag.Raise` |
| DiagMachine.DiagStore.Clear | crates/pnio/src/diag.rs:206-226 | Takes the step `Diag.ClearOne` |
| DiagMachine.DiagStore.Replay | crates/pnio/src/diag.rs:239-247 | Every active diagnosis announced once, in ascending key order |
| DiagMachine.DiagStore.Active | crates/pnio/src/diag.rs:233-237 | The active diagnoses in ascending key order |
| CmRuns.StepKeepsInv | crates/pnio/src/cm/mod.rs:422-500 | In every reachable state no `expect` on controller address, context or outstanding number fails |
| CmRuns.CacheIsLastFour | crates/pnio/src/cm/mod.rs:525-538 | Over every run the cache is the last at most four answered calls with the replies they got |
| CmRuns.RetransmissionIsIdempotent | crates/pnio/src/cm/mod.rs:274-283 | Repeating any of them, from any address and with any body, gets the identical PDU and leaves the whole state, the AR included, alone |
| CmRuns.CallNumbers | crates/pnio/src/cm/mod.rs:458-478 | Over every run and all its ARs call numbers never go back, every new call has a larger one than all before, equal numbers are the identical PDU to the same address, and no number is used more than three times |
| CmRuns.CallsGoToEstablisher | crates/pnio/src/cm/mod.rs:288-325 | Every call any run places goes to the sender of the Connect accepted last before it: a refused, malformed or repeated Connect redirects nothing |
| CmRuns.AdvanceShifts | crates/pnio/src/cm/mod.rs:240-417 | A step keeps an AR in or out of Data silently, begins Data and says so, or ends the AR and says so first |
| CmReference.OutputsAsReference | crates/pnio/src/cm/mod.rs:240-540 | Over every run everything any input sends and reports is told from the inputs and outputs before it: a repetition gets its old reply, any other request one reply to its sender with its header, operation number, limit and the status of the move it makes, blocks only if that is OK; calls go to the last accepted Connect, numbered on or repeated |
| CmReference.GrantedExactly | crates/pnio/src/cm/mod.rs:543-580 | Over every run a new request is answered OK if and only if it is grantable, from the request and the AR there is: a Connect to an idle AR exactly when acceptable, a write exactly when all records are the AR's and fit; a refusal carries no blocks |
| CmReference.ArRuns | crates/pnio/src/cm/mod.rs:240-420 | The AR inside is a run of its own machine over exactly the events the inputs are to it; a repeated call is none |
| CmMachine.Cm.HandleDatagram | crates/pnio/src/cm/mod.rs:240-397 | Takes the step of `CmRuns.Advance`; an envelope error and only that is reported as one |
| CmMachine.Cm.Apply | crates/pnio/src/cm/mod.rs:422-453 | The AR's actions in order, each reply cached as it is sent; what it says is determined by `CmReference.OutputsAsReference` |
| CmMachine.Cm.BuildCall | crates/pnio/src/cm/mod.rs:458-500 | A new call takes the next number, a repetition the outstanding one |
| CmMachine.Cm.Serve | crates/pnio/src/cm/mod.rs:287-384 | Each operation's event, or the status its parse error is answered with |
| CmMachine.Cm.CacheLookup | crates/pnio/src/cm/mod.rs:525-530 | The reply stored under the key, if any |
| CmMachine.Cm.CacheInsert | crates/pnio/src/cm/mod.rs:532-537 | Oldest out at four, newest in |
| CmMachine.Cm.Tick | crates/pnio/src/cm/mod.rs:401-406 | Takes the step of `CmRuns.Advance` for the timer |
| CmMachine.Cm.Abort | crates/pnio/src/cm/mod.rs:411-416 | Takes the step of `CmRuns.Advance` for an abort |
| Ars.StepKeepsInv | crates/pnio/src/cm/ar.rs:209-475 | The state decides whether there is a context, which deadline is armed and the attempts; stored records belong to the AR within 64 records and 64 KiB; the kept response is the one of the parameters |
| Ars.NotifyGrammar | crates/pnio/src/cm/ar.rs:209-257 | Over every run the notified states form a prefix of (Connected Data? Idle)* |
| Ars.Lifecycle | crates/pnio/src/cm/ar.rs:356-462 | Over every run notifications are in step with the state, and an AR places at most three ApplicationReady calls, all identical, as many as its attempts |
| Ars.OneResponse | crates/pnio/src/cm/ar.rs:259-415 | Every request gets exactly one response, anything else none |
| Ars.StepMoves | crates/pnio/src/cm/ar.rs:209-475 | Every event makes one of ten moves, told from its actions; the reconnect recursion is one of them |
| Ars.ContextExplained | crates/pnio/src/cm/ar.rs:259-354 | Over every run the context is the parameters and response of the Connect accepted last and the records of the writes answered OK since, in order |
| Ars.HalfOpenExpires | crates/pnio/src/cm/ar.rs:435-460 | With no further input a Connected or AppReadySent AR is given up after exactly the computed number of expired deadlines |
| ArReference.AnswersAsReference | crates/pnio/src/cm/ar.rs:209-475 | Over every run and for every event the actions are those told from the Connect that established the AR, the records written since, the calls placed and when the running timer was started: a Release of its own UUID ends it, an answer other than OK to ApplicationReady aborts it with that status, and so on |
| ArMachine.Ar.On | crates/pnio/src/cm/ar.rs:209-230 | Takes the step `Ars.On` and keeps its invariant |
| ArMachine.Ar.HandleConnect | crates/pnio/src/cm/ar.rs:259-320 | Retransmission, takeover, refusal and establishment; the recursion of a takeover terminates |
| ArMachine.Ar.HandleWrite | crates/pnio/src/cm/ar.rs:322-354 | Foreign AR, record limits, then stored; the timer is touched in Connected only |
| ArMachine.Ar.HandlePrmEnd | crates/pnio/src/cm/ar.rs:356-396 | Starts calling once, answers repetitions |
| ArMachine.Ar.HandleRelease | crates/pnio/src/cm/ar.rs:398-415 | Takes the step `Ars.OnRelease`: answered also when there is no AR, and the end of its own AR (`ArReference.AnswersAsReference`) |
| ArMachine.Ar.HandleAppReadyRsp | crates/pnio/src/cm/ar.rs:417-433 | Data, or an abort with the status |
| ArMachine.Ar.HandleTick | crates/pnio/src/cm/ar.rs:435-460 | Due timers only: abort, call again, or give up |
| ArMachine.Ar.ExceedsRecordCap | crates/pnio/src/cm/ar.rs:490-499 | Stored and incoming records together, counted and summed |
| Connect.ValidateExact | crates/pnio/src/cm/connect.rs:239-338 | A Connect is accepted if and only if one Input and one Output CR, in either order, and every AR, alarm and submodule condition hold |
| Connect.ValidatedParams | crates/pnio/src/cm/connect.rs:206-338 | Accepted objects fit their data length and both FrameIDs are in range |
| Connect.NegotiatedFields | crates/pnio/src/cm/connect.rs:239-338 | Every negotiated parameter is the request field it is named after, whichever order the CRs come in, or the device's own |
| Connect.RefusedWith | crates/pnio/src/cm/connect.rs:206-338 | A request is refused with the first verdict against it, in a fixed order and within the expected submodules in request order, and accepted if there is none |
| Connect.SelectOutputFrameId | crates/pnio/src/cm/connect.rs:191-195 | A FrameID in range that differs from the Input CR's |
| ConnectRes.ResponseReads | crates/pnio/src/cm/connect.rs:348-398 | The controller reads back its AR and session, the device's address and name, both CRs with their references and FrameIDs, and the alarm reference and length |
| Control.ControlRoundTrip | crates/pnio/src/cm/control.rs:44-83 | Parsing inverts writing for the six control types and refuses every other |
| Control.ControlOctets | crates/pnio/src/cm/control.rs:44-83 | The octets each field of a control block is printed to |
| Control.ControlAccepted | crates/pnio/src/cm/control.rs:44-72 | Exactly a whole block of one of the six types and of 28 octets is read as a control block |
| Records.ReadRecords | crates/pnio/src/cm/write.rs:48-65 | The loop over a MultipleWrite container computes `ParseWrite` and terminates on every input |
| Records.MultipleWriteRoundTrip | crates/pnio/src/cm/write.rs:48-116 | A container printed with records on four-octet boundaries, the last padded or not, parses to the container followed by exactly those records |
| Records.SingleWriteRoundTrip | crates/pnio/src/cm/write.rs:60-62 | Any other printed record parses to itself |
| Records.ResponseEchoes | crates/pnio/src/cm/write.rs:119-137 | The i-th 64 octets of the response name the i-th record and report no data and status 0 |
| Records.RecordOctets | crates/pnio/src/cm/write.rs:70-114 | The octets each field of a record is read from; its data follows the header block |
| Records.RecordAccepted | crates/pnio/src/cm/write.rs:70-114 | Exactly a request block of at least 64 octets with all its data there is read as a record |
| Records.WriteRes | crates/pnio/src/cm/write.rs:119-137 | The loop writes one header per record, in order |
| Blocks.ReadAllInvertsWriteAll | crates/pnio/src/cm/block.rs:152-201 | Reading blocks written back to back gives each type and body, in order |
| Blocks.ReadAll | crates/pnio/src/cm/block.rs:192-201 | The loop over consecutive blocks, with its first error |
| Blocks.BlockAccepted | crates/pnio/src/cm/block.rs:152-182 | Exactly a block of version 1.0 that is all there is read, as its type and body |
| Rta.FrameRoundTripIff | crates/pnio/src/alarm/rta.rs:539-728 | Parsing a built frame gives the PDU back if and only if the PDU is canonical: body and type agree, no field holds what its encoding drops |
| Rta.ParsedIsCanonical | crates/pnio/src/alarm/rta.rs:539-656 | Every parsed PDU is canonical |
| Rta.FrameOctets | crates/pnio/src/alarm/rta.rs:658-678 | The octets each header field of an alarm frame is printed to |
| Rta.NotificationOctets | crates/pnio/src/alarm/rta.rs:691-712 | The octets and bits each field of a notification and of its channel diagnosis is printed to |
| Rta.AckOctets | crates/pnio/src/alarm/rta.rs:714-729 | The octets each field of an acknowledgement is printed to |
| Rta.FrameAccepted | crates/pnio/src/alarm/rta.rs:539-656 | Exactly the frames of the stated shape are read as alarms: headers, FrameID, version, type, lengths, and a whole block in a DATA |
| Rta.PropertiesBijection | crates/pnio/src/alarm/rta.rs:307-336 | Channel properties and 16-bit words correspond one to one |
| Rta.SpecifierRoundTrip | crates/pnio/src/alarm/rta.rs:239-256 | An alarm specifier with an eleven-bit sequence number survives its word |
| Dcp.ParseInvertsWrite | crates/pnio/src/dcp/block.rs:24-85 | Parsing inverts printing for every list of blocks, odd lengths and padding included |
| Dcp.BlockOctets | crates/pnio/src/dcp/block.rs:67-85 | The octets each field of a block is printed to, the pad octet included |
| Dcp.LastPadOptional | crates/pnio/src/dcp/block.rs:60-62 | The last block's pad octet may be missing |
| Dcp.ParseBlocks | crates/pnio/src/dcp/block.rs:24-63 | The loop computes `BlocksFrom` with its first error |
| Dcp.WriteBlocks | crates/pnio/src/dcp/block.rs:67-86 | The loop prints the blocks in order |
| Dcp.BlocksEncodedLen | crates/pnio/src/dcp/block.rs:89-101 | The printed length modulo 65536, exact if and only if it fits 16 bits |
| Histograms.Histogram.Record | crates/pnio/src/rt/hist.rs:44-49 | Each bin counts its samples, the count and the maximum are theirs |
| Histograms.Histogram.AtRank | crates/pnio/src/rt/hist.rs:72-80 | The bin found is the bin of the r-th smallest sample of the sorted samples |
| Histograms.Histogram.Percentile | crates/pnio/src/rt/hist.rs:64-80 | None exactly when empty, else the bin of the sample of the percentile's rank |
| Histograms.BinsSum | crates/pnio/src/rt/hist.rs:44-49 | The first n bins together hold the samples that belong there, and all bins together hold as many as were recorded |
| Histograms.PercentilesMonotone | crates/pnio/src/rt/hist.rs:64-80 | A larger percentile lies in the same or a later bin |
| Histograms.RankBinBounds | crates/pnio/src/rt/hist.rs:44-80 | The bin is the sample of that rank in whole microseconds; only the last stands for anything longer |
| Histograms.RankExact | crates/pnio/src/rt/hist.rs:64-80 | The rank is the least, from 1, that reaches the percentage, clamped to 0 to 100, of the samples |
| DataPath.TickCarries | crates/pnio/src/rt/engine.rs:258-296 | In every interleaving on the image and at every point of it, the frame of a tick parses to what the application had last written successfully to each submodule when the RT thread's buffer was last filled, or zeros if nothing since the layout came in place |
| DataPath.InputArrives | crates/pnio/src/rt/image.rs:170-245 | For every device, submodule with inputs and content there is a run of the image in which the RT thread's buffer carries that content |
| DataPath.OutputArrives | crates/pnio/src/rt/image.rs:249-331 | For every device, submodule with outputs and run of received frames there is a run of the image in which a read follows the publish of that run's C-SDU |
| DataPath.InputReachesController | crates/pnio/src/api.rs:573-609 | When the write so carried holds a series of typed writes, each field reads back from the parsed frame with its last value, or with what it was before the series |
| ImageData.BufferIsLastSnapshot | crates/pnio/src/rt/runner.rs:458-468 | Over every history the RT thread's buffer holds for each cell the last write before the last snapshot that got through; a snapshot that finds the image busy leaves it alone |
| ImageData.InputsAreLastWrites | crates/pnio/src/rt/image.rs:213-245 | Over every history the input buffer holds for each cell the last successful write since the layout came in place, or zeros |
| ImageData.EngineIsFull | crates/pnio/src/rt/image.rs:321-331 | When every publish carries a C-SDU of the layout in place no publish leaves part of an older one behind |
| Image.BuiltTableInside | crates/pnio/src/rt/layout.rs:142-158 | Every built layout meets what the image needs of one that is put in place |
| DataPath.EngineLength | crates/pnio/src/rt/engine.rs:299-361 | After any run the engine's received C-SDU has the length of its layout |
| DataPath.ReadShowsLastFrame | crates/pnio/src/rt/image.rs:249-275 | In every interleaving a read returns the octets of the last valid received frame at the submodule's place |
| DataPath.OutputReachesApplication | crates/pnio/src/api.rs:765-776 | When that frame was built with a series of typed writes at that place, each field of the read has its last written value, or what it was before the series |
| Fields.LayoutFields | crates/pnio/src/config.rs:138-172 | The packing loop computes offsets, bits and length |
| Fields.FieldsApart | crates/pnio/src/config.rs:138-172 | Fields occupy pairwise disjoint bits, in order, inside the computed length |
| Fields.CountIsSize | crates/pnio/src/config.rs:537-565 | The guard's separate octet count is the length the packing computes |
| Fields.NoGaps | crates/pnio/src/config.rs:138-172 | No bit is wasted: a bool after a bool takes the next bit, any other field the next octet boundary, and the length is the last field's end |
| Fields.CheckedLayout | crates/pnio/src/config.rs:537-565 | Refused exactly when the packing exceeds the limit, with its size |
| Fields.GsdmlAgreement | crates/pnio/src/gsdml.rs:65-79 | The described items list every field once in order, a bit group is one octet with bits 0 to k - 1 and k at most 8, and the sizes before an item add up to the octet the device uses |
| Fields.Items | crates/pnio/src/gsdml.rs:65-79 | The grouping loop, extending the last bit group of the same octet |
| Typed.FieldIndependence | crates/pnio/src/api.rs:837-853 | Writing a field and reading it returns the value and leaves every other field; no codec error or overrun can occur |
| Typed.CommittedWrites | crates/pnio/src/api.rs:573-609 | After a committed series every field reads its last written value, or what it read before |
| Typed.WithBitExact | crates/pnio/src/data.rs:176-203 | Setting a bit changes that bit and no other |
| Typed.WithBitIsMask | crates/pnio/src/data.rs:188-203 | Setting a bit adds or removes its mask, or changes nothing |
| Typed.DecodeEncode | crates/pnio/src/data.rs:65-97 | Every value decodes from what it was encoded to |
| Typed.EncodedOctets | crates/pnio/src/data.rs:65-135 | The octets a value is encoded to: big-endian two's complement, a bool into its bit of its octet, and no other octet changes |
| Typed.SlotWriter.Set | crates/pnio/src/api.rs:837-853 | Changes the buffer in place exactly as `SetField`, or not at all |
| Typed.InputSlot.WithInputs | crates/pnio/src/api.rs:573-598 | All writes of the series reach the working copy together and are written to the image whole, or none is; a refusal by the image leaves the image as it was, the copy committed, and an unknown submodule reads as no layout yet |
| DeviceConfigs.Build | crates/pnio/src/config.rs:465-515 | Succeeds if and only if the declared submodules, sorted, are buildable, and blames an error that is there |
| DeviceConfigs.CrLengthsOf | crates/pnio/src/config.rs:587-609 | The loop that adds up both C-SDU lengths |
| DeviceConfigs.SortSorts | crates/pnio/src/config.rs:482-483 | The sorted submodules are the declared ones in slot order |
| Canonical.BuiltConfigConnects | crates/pnio/src/config.rs:312-344 | For every built configuration a canonically packing controller needs exactly the computed lengths, at most 1440 octets each, its Connect is accepted and the layout is built |
| Canonical.PackedLength | crates/pnio/src/config.rs:587-628 | The canonical packing has exactly the lengths the configuration adds up |
| Layout.CrTableExact | crates/pnio/src/rt/layout.rs:189-267 | A CR table is built if and only if the cycle step fits 16 bits, every data object is known, all ranges fit and are pairwise disjoint |
| Layout.BuildCr | crates/pnio/src/rt/layout.rs:189-267 | The occupancy bitmap finds exactly the overlaps of the ranges, with the same first error |
| Layout.Mark | crates/pnio/src/rt/layout.rs:171-187 | Marks a free range, or reports the overlap |
| Layout.ValidatedLayout | crates/pnio/src/rt/layout.rs:137-166 | After an accepted Connect the layout can fail only by overlap or by the cycle step |
| Layout.BuiltCr | crates/pnio/src/rt/layout.rs:189-267 | A built table has the CR's cycle step and a watchdog window of its data hold factor, lists the negotiated objects in order and is sound |
| Layout.FromAr | crates/pnio/src/rt/layout.rs:137-166 | Both CRs and one cell per submodule in model order |
| Layout.CellsInside | crates/pnio/src/rt/layout.rs:142-158 | With unique places every cell lies inside the buffers of the same layout |
| Layout.CellsFollow | crates/pnio/src/rt/layout.rs:137-160 | A cell is a submodule of the model with its own lengths at the offsets the two CRs asked for |
| Layout.CrRefusedFor | crates/pnio/src/rt/layout.rs:189-267 | A CR is refused for the first object that is unknown, too long or in the way of one before it, and accepted if there is none |
| RtFrames.RtRoundTrip | crates/pnio/src/rt/frame.rs:111-193 | Parsing a written frame gives the frame back with its C-SDU padded |
| RtFrames.FrameOctets | crates/pnio/src/rt/frame.rs:163-193 | The octets each part of a frame is written to, padding included |
| RtFrames.WriteFrame | crates/pnio/src/rt/frame.rs:163-193 | Fills the caller's buffer in place, or reports that it is too short |
| Producer.TickRefinement | crates/pnio/src/rt/engine.rs:258-296 | For any built layout and any run of ticks the frame parses to every object's input octets, every status octet good, zeros elsewhere, and the cycle counter of all expirations modulo 65536 |
| Producer.CounterIsTotal | crates/pnio/src/rt/engine.rs:258-284 | Truncating each expiration count to 16 bits loses nothing modulo 65536 |
| Engine.RtEngine.OnTick | crates/pnio/src/rt/engine.rs:258-296 | The preallocated buffers changed in place hold exactly the frame of `Producer.SentBytes`; the write never fails |
| Engine.RtEngine.OnFrame | crates/pnio/src/rt/engine.rs:299-361 | Takes the step `Consumer.OnFrame` in place |
| Engine.RtEngine.CheckWatchdog | crates/pnio/src/rt/engine.rs:365-393 | Takes the step `Consumer.CheckWatchdog` |
| Engine.RtEngine.MarkOutputsStale | crates/pnio/src/rt/engine.rs:397-399 | Clears every provider bit and nothing else |
| Consumer.FramesAccountedFor | crates/pnio/src/rt/engine.rs:299-361 | Over every run each frame bumps exactly one of four counters, the one of its verdict |
| Consumer.ImageIsLastValid | crates/pnio/src/rt/engine.rs:299-361 | Over every run the received C-SDU is the last accepted valid one, cut to length; consumer bits mirror it always, a provider bit implies it |
| Consumer.WatchdogExact | crates/pnio/src/rt/engine.rs:365-393 | Over every run with monotone time each verdict of a check, told from the events alone |
| Consumer.ExpirationsNeedFrames | crates/pnio/src/rt/engine.rs:365-393 | In every run with monotone time an accepted frame lies between any two expiry verdicts |
| Consumer.ExpirationsCounted | crates/pnio/src/rt/engine.rs:365-393 | The counter is the number of expiry verdicts, and there are no more of them than accepted frames |
| Consumer.VerdictExact | crates/pnio/src/rt/engine.rs:299-361 | Accepted exactly if sent by the controller under the FrameID, without transfer error and long enough, with the bits of its status; a foreign frame is ignored; anything else is dropped for what is wrong with it |
| Consumer.StateTold | crates/pnio/src/rt/engine.rs:299-400 | Over every run status bits and counter are the last usable frame's, frames out of order are counted, and the provider bits are the last valid C-SDU's or clear if marked stale since |
| Image.Linearizable | crates/pnio/src/rt/image.rs:170-344 | In every interleaving the finished operations' results are those of running them one at a time in the order they ended |
| ImageReference.ResultsFromHistory | crates/pnio/src/rt/image.rs:170-344 | In every interleaving each result is what the operations that ended before it say: octets of the last publish or write to reach them, the validity carried by the last uncontended operation that set one since the last rebuild, the error the layout in place calls for; only an RT operation finds the image busy |
| ImageRuns.Realizable | crates/pnio/src/rt/image.rs:170-344 | The converse: for every sequence of operations some run of the machine finishes exactly these, in this order, with the results they have one at a time |
| Image.ReadsOnePublish | crates/pnio/src/rt/image.rs:249-334 | A read returns one slice of one publish, or of the zeros a rebuild left, never a mixture |
| Image.QuiescentMemory | crates/pnio/src/rt/image.rs:170-344 | With nothing in progress the memory is the sequential result |
| Image.DefensiveBranchesDead | crates/pnio/src/rt/image.rs:213-275 | In every interleaving the defensive length branches never fire |
| ImageReference.BusyExactly | crates/pnio/src/rt/image.rs:307-344 | In every interleaving an RT operation finds the image busy exactly when another operation in progress holds the lock it needs |
| Image.RtNeverBlocks | crates/pnio/src/rt/image.rs:307-344 | In every reachable state an RT operation can step |
| Image.DeadlockFree | crates/pnio/src/rt/image.rs:170-344 | In every reachable state with operations in progress one of them can step |
| Image.RunInv | crates/pnio/src/rt/image.rs:170-344 | Every step of every thread keeps lock ownership, what each holder sees, and each copy's progress |
| Wire.EthRoundTrip | crates/pnio/src/eth/header.rs:36-77 | An Ethernet header, tagged or not, parses from what it is written to |

## Left out

- Syscalls, sockets, packet capture, the BPF program, thread scheduling and the RT runner's own loop.
- The octets of the DCE-RPC and NDR envelope and of UUID byte order: fixed-offset codecs.
- Parsing the blocks of a Connect request into fields, and requests for records: field-by-field reads.
- I&M records, their store and the records read service: fixed-shape data and file persistence.
- DCP identify and set decisions: one branch per request.
- GSDML text: only the grouping of fields into items carries a property.
- Counters published for the application, log messages and the poll interval.
- The grammar of station names, beyond their length.
- Atomics ordering in the histogram and lock poisoning in the image.
- DeviceConfigs.Build: the checks of station name, send interval, vendor id and identification record, each one comparison.
- Dcp.WriteBlocks: blocks longer than 65535 octets, which the source asserts away and would truncate.
- Rta.FrameRoundTripIff: PDUs whose block is too long for its 16-bit length field.
- Fields.FieldsApart: field lists over 65535 octets, whose 16-bit offsets wrap; the configuration refuses everything over 1440.
- Fields.GsdmlAgreement: the same lists.
- Fields.NoGaps: the same lists.
- Image.ReadsOnePublish: publishes shorter or longer than the layout in place, of which `ImageReference.ResultsFromHistory` speaks octet by octet. An engine publishes its own layout's length (`DataPath.EngineLength`); one that outlives its layout, because joining its thread timed out, is not modelled.
- ImageData.BufferIsLastSnapshot: a second RT thread still snapshotting for an earlier layout, for the same reason.
- CmMachine.Cm.Serve: the identification records a write may change, and what a record read returns, which is an input.
- DeviceMachine.Device.Step: an early return on a failed send, which drops the rest of the iteration.
- DeviceMachine.Device.OnEthernet: frames that are not alarms are answered by the name server and change nothing here.
