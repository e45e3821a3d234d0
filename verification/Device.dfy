/** The device's acyclic loop (crates/pnio/src/device/mod.rs), as a function of its state: Ethernet
    frames, diagnosis commands, RPC datagrams, RT thread events and timers join the context manager,
    the diagnosis store and the alarm channel. The transports, the application, the clock and the RT
    thread are inputs. */
module Devices {
  import opened Wire
  import opened Rta
  import opened Status
  import opened Connect
  import opened AlarmChannels
  import opened AlarmMirror
  import D = Diag
  import C = Cms
  import R = CmRuns
  import L = Layout

  const RTA_TIMEOUT_UNIT := 100

  datatype DiagCommand = Raise(d: D.ActiveDiagnosis) | Clear(slot: u16, channel: u16, error: D.ErrorCode)

  datatype RtEvent = WatchdogExpired | SocketError | SchedWarning | Exited

  /** What the alarm channel did to the outside. `prod` is the channel it was done for, `live` the one open
      at that moment, if one was. */
  datatype Entry =
    | Frame(prod: nat, live: Option<nat>, pdu: RtaPdu)
    | ErrRta(prod: nat, live: Option<nat>, reason: AbortReason, pdu: RtaPdu)
    | TornDown(prod: nat, live: Option<nat>, reason: AbortReason)

  /** Actions with the epoch of the channel that produced them. */
  type Batch = (nat, seq<AlarmAction>)

  /** `cells` are the parameters the I/O image was last built from, if it holds cells; `spawned` says
      whether the RT thread of the last image came up. `log`, `rpc` and `produced` record what was done
      on the wire and what the channels asked for, in order. */
  datatype Dev = Dev(mac: Mac, rt: bool, cm: R.LiveCm, diag: D.Store, alarm: Option<Channel>, epoch: nat, nextId: u32,
                     active: seq<D.ActiveDiagnosis>, problem: bool, runner: bool, cells: Option<ArParams>,
                     spawned: Option<bool>, rxNoChannel: nat,
                     log: seq<Entry>, rpc: seq<C.Outgoing>, produced: seq<Batch>)

  ghost function NewDevice(model: DeviceModel, mac: Mac, rt: bool, activitySeed: Uuid): Dev {
    Dev(mac, rt, C.NewCm(model, activitySeed), D.FromModel(model), None, 0, 0, [], false, false, None, None, 0,
        [], [], [])
  }

  /** The channel open now. */
  function Live(dev: Dev): Option<nat> { if dev.alarm.Some? then Some(dev.epoch) else None }

  // --- diagnosis ------------------------------------------------------------------------

  ghost function Publish(dev: Dev): Dev {
    dev.(active := D.ActiveList(dev.diag), problem := D.ProblemIndicator(dev.diag))
  }

  /** The notification as queued: Low priority, stamped with the channel's next specifier number. */
  function Stamped(n: AlarmNotification, s: u16): AlarmNotification {
    n.(specifier := n.specifier.(sequence := s))
  }

  ghost function QueueNotification(dev: Dev, n: AlarmNotification, now: int): (r: (Dev, seq<AlarmAction>))
    ensures !HasAbort(r.1)
  {
    if dev.alarm.None? then (dev, [])
    else
      var (s, ch) := TakeSpecifier(dev.alarm.value);
      match Enqueue(ch, AlarmReq(dev.nextId, Low, Stamped(n, s)), now)
      case Ok((ch', acts)) =>
        (dev.(alarm := Some(ch'), nextId := (dev.nextId + 1) % 0x1_0000_0000), acts)
      case Err(_) => (dev.(alarm := Some(ch)), [])
  }

  // --- the AR's life --------------------------------------------------------------------

  function Code2(reason: AbortReason): Option<u8> {
    match reason
    case ControllerErrRta(_) => None
    case RtWatchdog => Some(5)
    case AlarmSendFailed => Some(3)
    case _ => Some(17)
  }

  function ConfigFor(p: ArParams, our: Mac): Config {
    Config(p.alarmRefLocal, p.alarmRefRemote, RTA_TIMEOUT_UNIT * Max(p.rtaTimeoutFactor, 1), p.rtaRetries,
           p.maxAlarmDataLengthRemote, p.initiatorMac, our)
  }

  /** `spawnOk`: whether the RT thread can be started. */
  ghost function StartRunner(dev: Dev, spawnOk: bool): Dev {
    if !dev.rt || dev.cm.ar.ctx.None? then dev
    else
      var params := dev.cm.ar.ctx.value.params;
      if L.TableFor(params, dev.cm.ar.model).Err? then dev
      else dev.(cells := Some(params), runner := spawnOk || dev.runner, spawned := Some(spawnOk))
  }

  ghost function StopRunner(dev: Dev): Dev {
    if dev.runner then dev.(runner := false, cells := None) else dev
  }

  ghost function OpenChannel(dev: Dev): Dev {
    if dev.cm.ar.ctx.None? then dev
    else
      dev.(epoch := dev.epoch + 1, alarm := Some(NewChannel(ConfigFor(dev.cm.ar.ctx.value.params, dev.mac))))
  }

  ghost function Produce(dev: Dev, b: Batch): Dev {
    if b.1 == [] then dev else dev.(produced := dev.produced + [b])
  }

  /** A batch whose channel is gone is dropped whole. */
  ghost function ApplyBatch(dev: Dev, b: Batch, now: int, spawnOk: bool): Dev
    decreases if HasAbort(b.1) then 1 else 0, 4
  {
    if dev.alarm.None? || dev.epoch != b.0 then dev else ActAll(dev, b.0, b.1, now, spawnOk)
  }

  ghost function ActAll(dev: Dev, prod: nat, acts: seq<AlarmAction>, now: int, spawnOk: bool): Dev
    decreases if HasAbort(acts) then 1 else 0, 3, |acts|
  {
    if acts == [] then dev
    else
      assert forall a <- acts[1..] :: a in acts;
      assert acts[0] in acts;
      var dev' :=
        match acts[0]
        case Send(pdu) => dev.(log := dev.log + [Frame(prod, Live(dev), pdu)])
        case Abort(reason) =>
          AbortWithErrRta(dev.(log := dev.log + [TornDown(prod, Live(dev), reason)]), reason, now, spawnOk)
        case Acked(_, _) => dev
        case UnexpectedRx => dev;
      ActAll(dev', prod, acts[1..], now, spawnOk)
  }

  /** The ERR-RTA that announces an abort, unless there is no channel or the controller aborted first. */
  function Announcement(dev: Dev, reason: AbortReason): seq<Entry> {
    if Code2(reason).None? || dev.alarm.None? then []
    else
      var status := StatusWord(0xCF, 0x81, 0xFD, Code2(reason).value);
      [ErrRta(dev.epoch, Live(dev), reason, ErrRtaPdu(dev.alarm.value, status))]
  }

  ghost function AbortWithErrRta(dev: Dev, reason: AbortReason, now: int, spawnOk: bool): Dev
    decreases 1, 2
  {
    StepCm(dev.(log := dev.log + Announcement(dev, reason)), C.Abandon(reason), now, spawnOk)
  }

  ghost function StepCm(dev: Dev, inp: C.Input, now: int, spawnOk: bool): Dev
    decreases 1, 1
  {
    var (cm', out) := R.Advance(dev.cm, inp, now);
    Dispatch(dev.(cm := cm', rpc := dev.rpc + out.send), out.notify, now, spawnOk)
  }

  ghost function Dispatch(dev: Dev, notices: seq<C.Notice>, now: int, spawnOk: bool): Dev
    decreases 1, 0, 2, |notices|
  {
    if notices == [] then dev
    else Dispatch(OnNotice(dev, notices[0], now, spawnOk), notices[1..], now, spawnOk)
  }

  ghost function OnNotice(dev: Dev, n: C.Notice, now: int, spawnOk: bool): Dev
    decreases 1, 0, 1
  {
    if n.0.Data? && n.1.None? then
      var open := OpenChannel(StartRunner(dev, spawnOk));
      Publish(ReplayAll(open, D.Replay(open.diag), open.epoch, now, spawnOk))
    else if n.0.Idle? && n.1.Some? then StopRunner(dev).(alarm := None)
    else dev
  }

  /** Each notification is queued and its frames sent at once. */
  ghost function ReplayAll(dev: Dev, ns: seq<AlarmNotification>, epoch: nat, now: int, spawnOk: bool): Dev
    decreases 1, 0, 0, |ns|
  {
    if ns == [] then dev
    else
      var (dev', acts) := QueueNotification(dev, ns[0], now);
      ReplayAll(ApplyBatch(Produce(dev', (epoch, acts)), (epoch, acts), now, spawnOk), ns[1..], epoch, now, spawnOk)
  }

  // --- one loop iteration ------------------------------------------------------------------

  /** The loop's state inside an iteration: the device and the actions still to apply. */
  datatype Busy = Busy(dev: Dev, pending: seq<Batch>)

  ghost function Push(dev: Dev, pending: seq<Batch>, acts: seq<AlarmAction>): Busy {
    Busy(Produce(dev, (dev.epoch, acts)), if acts == [] then pending else pending + [(dev.epoch, acts)])
  }

  predicate IsAlarmFrame(frame: Bytes) {
    match ParseEth(frame)
    case None => false
    case Some((eth, off)) =>
      && eth.ethertype == ETHERTYPE_PROFINET && |frame| >= off + 2
      && (U16At(frame, off) == FRAME_ID_HIGH || U16At(frame, off) == FRAME_ID_LOW)
  }

  /** An alarm frame for us goes to the channel; other frames concern the name server only. */
  ghost function OnEthernet(b: Busy, frame: Bytes, now: int): Busy {
    if !IsAlarmFrame(frame) || |frame| < 6 || frame[..6] != b.dev.mac then b
    else if b.dev.alarm.None? then b.(dev := b.dev.(rxNoChannel := b.dev.rxNoChannel + 1))
    else
      var (ch, acts) := OnFrame(b.dev.alarm.value, frame, now);
      Push(b.dev.(alarm := Some(ch)), b.pending, acts)
  }

  ghost function OnCommand(b: Busy, cmd: DiagCommand, now: int): Busy {
    var (diag, n) :=
      match cmd
      case Raise(d) => D.Raise(b.dev.diag, d)
      case Clear(slot, channel, error) => D.ClearOne(b.dev.diag, slot, channel, error);
    var dev := b.dev.(diag := diag);
    match n
    case None => b.(dev := dev)
    case Some(note) =>
      var (dev', acts) := QueueNotification(dev, note, now);
      Push(dev', b.pending, acts)
  }

  ghost function OnRtEvent(dev: Dev, ev: RtEvent, now: int, spawnOk: bool): Dev {
    match ev
    case WatchdogExpired => AbortWithErrRta(dev, RtWatchdog, now, spawnOk)
    case SocketError => AbortWithErrRta(dev, RtSocket, now, spawnOk)
    case SchedWarning => dev
    case Exited => dev
  }

  ghost function OnRtaTimer(b: Busy, now: int): Busy {
    if b.dev.alarm.None? then b
    else
      var (ch, acts) := OnTick(b.dev.alarm.value, now);
      Push(b.dev.(alarm := Some(ch)), b.pending, acts)
  }

  ghost function AllFrames(b: Busy, frames: seq<Bytes>, now: int): Busy
    decreases |frames|
  {
    if frames == [] then b else AllFrames(OnEthernet(b, frames[0], now), frames[1..], now)
  }

  ghost function AllCommands(b: Busy, cmds: seq<DiagCommand>, now: int): Busy
    decreases |cmds|
  {
    if cmds == [] then b else AllCommands(OnCommand(b, cmds[0], now), cmds[1..], now)
  }

  /** The new state is published if there were commands. */
  ghost function Drain(b: Busy, cmds: seq<DiagCommand>, now: int): Busy {
    if cmds == [] then b
    else
      var b' := AllCommands(b, cmds, now);
      b'.(dev := Publish(b'.dev))
  }

  ghost function AllDatagrams(dev: Dev, ds: seq<(C.Packet, C.Addr)>, now: int, spawnOk: bool): Dev
    decreases |ds|
  {
    if ds == [] then dev
    else AllDatagrams(StepCm(dev, C.Datagram(ds[0].0, ds[0].1), now, spawnOk), ds[1..], now, spawnOk)
  }

  /** Events are taken only while the RT thread is there. */
  ghost function AllRtEvents(dev: Dev, evs: seq<RtEvent>, now: int, spawnOk: bool): Dev
    decreases |evs|
  {
    if evs == [] || !dev.runner then dev
    else AllRtEvents(OnRtEvent(dev, evs[0], now, spawnOk), evs[1..], now, spawnOk)
  }

  ghost function ApplyAll(dev: Dev, pending: seq<Batch>, now: int, spawnOk: bool): Dev
    decreases |pending|
  {
    if pending == [] then dev
    else ApplyAll(ApplyBatch(dev, pending[0], now, spawnOk), pending[1..], now, spawnOk)
  }

  /** What one iteration finds. */
  datatype Arrivals = Arrivals(frames: seq<Bytes>, cmds: seq<DiagCommand>, datagrams: seq<(C.Packet, C.Addr)>,
                               events: seq<RtEvent>, now: int, spawnOk: bool)

  /** Frames, commands and datagrams, up to where the RT thread's events are taken. */
  ghost function UpToEvents(dev: Dev, arr: Arrivals): Busy {
    var b := Drain(AllFrames(Busy(dev, []), arr.frames, arr.now), arr.cmds, arr.now);
    b.(dev := AllDatagrams(b.dev, arr.datagrams, arr.now, arr.spawnOk))
  }

  ghost function Iterate(dev: Dev, arr: Arrivals): Dev {
    var b := UpToEvents(dev, arr);
    var e := AllRtEvents(b.dev, arr.events, arr.now, arr.spawnOk);
    var f := StepCm(e, C.Timer, arr.now, arr.spawnOk);
    var g := OnRtaTimer(Busy(f, b.pending), arr.now);
    ApplyAll(g.dev, g.pending, arr.now, arr.spawnOk)
  }

  ghost function Shutdown(dev: Dev, now: int): Dev {
    if dev.cm.ar.state.Idle? then dev else AbortWithErrRta(dev, Status.Shutdown, now, false)
  }

  /** Iterations of the loop, with shutdowns and aborts asked for in between. */
  datatype Run = Start(model: DeviceModel, mac: Mac, rt: bool, activitySeed: Uuid)
               | Then(before: Run, arr: Arrivals)
               | ThenShutdown(before: Run, now: int)
               | ThenAbort(before: Run, reason: AbortReason, now: int)

  ghost function After(run: Run): Dev {
    match run
    case Start(model, mac, rt, seed) => NewDevice(model, mac, rt, seed)
    case Then(before, arr) => Iterate(After(before), arr)
    case ThenShutdown(before, now) => Shutdown(After(before), now)
    case ThenAbort(before, reason, now) => AbortWithErrRta(After(before), reason, now, false)
  }
}
