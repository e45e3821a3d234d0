/** The acyclic loop told from its inputs (crates/pnio/src/device/mod.rs): what an RT event does, and that the
    context manager, the diagnosis store and the alarm channel inside the device each make a run of their own
    over exactly the inputs that are meant for them. */
module DeviceReference {
  import opened Wire
  import opened Rta
  import opened Status
  import opened Connect
  import opened AlarmChannels
  import opened AlarmMirror
  import opened Devices
  import opened DeviceRuns
  import D = Diag
  import A = Ars
  import C = Cms
  import R = CmRuns
  import L = Layout

  // --- events of the RT thread ----------------------------------------------------------

  /** Why the AR must go, if an event says so. */
  function FirstFatal(evs: seq<RtEvent>): Option<AbortReason> {
    if evs == [] then None
    else match evs[0]
         case WatchdogExpired => Some(RtWatchdog)
         case SocketError => Some(RtSocket)
         case _ => FirstFatal(evs[1..])
  }

  /** The AR is given up for that reason: nothing of it is left, and one ERR-RTA says so on the channel that was
      open. */
  predicate GivenUp(dev: Dev, dev': Dev, reason: AbortReason) {
    && dev.alarm.Some? && dev.cm.ar.state.Data?
    && dev'.cm.ar == A.NewAr(dev.cm.ar.model) && dev'.alarm.None? && !dev'.runner && dev'.cells.None?
    && dev'.epoch == dev.epoch && dev'.diag == dev.diag && dev'.produced == dev.produced
    && |dev'.log| == |dev.log| + 1 && dev'.log[..|dev.log|] == dev.log
    && var x := dev'.log[|dev.log|];
       x.prod == dev.epoch && x.live == Some(dev.epoch) && Announces(x, dev.alarm.value, reason)
  }

  lemma AbandonIdles(cm: R.LiveCm, reason: AbortReason, now: int)
    requires !cm.ar.state.Idle?
    ensures R.Advance(cm, C.Abandon(reason), now).0.ar == A.NewAr(cm.ar.model)
  {
    hide C.Apply, R.Effect, C.CacheOk;
    var m := R.EventEffect(cm, A.Abort(reason), now);
  }

  lemma AbortGivesUp(dev: Dev, pending: seq<Batch>, reason: AbortReason, now: int, spawnOk: bool)
    requires Kept(dev, pending) && dev.runner && !reason.ControllerErrRta?
    ensures GivenUp(dev, AbortWithErrRta(dev, reason, now, spawnOk), reason)
  {
    hide R.Advance, Announces, ErrRtaPdu, StatusWord, Dispatch, Logged, Ordered;
    AbortKeeps(dev, pending, reason, now, spawnOk);
    ErrRtaAnnounces(dev, reason);
    AbandonIdles(dev.cm, reason, now);
    var s := R.AdvanceShifts(dev.cm, C.Abandon(reason), now);
    var (cm', out) := R.Advance(dev.cm, C.Abandon(reason), now);
    var dev1 := dev.(log := dev.log + Announcement(dev, reason), cm := cm', rpc := dev.rpc + out.send);
    DispatchEnd(dev1, out.notify, now, spawnOk);
  }

  lemma {:induction false} EventsGiveUp(dev: Dev, pending: seq<Batch>, evs: seq<RtEvent>, now: int, spawnOk: bool)
    requires Kept(dev, pending)
    ensures var dev' := AllRtEvents(dev, evs, now, spawnOk);
      if !dev.runner || FirstFatal(evs).None? then dev' == dev else GivenUp(dev, dev', FirstFatal(evs).value)
    decreases |evs|
  {
    hide Kept, AbortWithErrRta, Announces;
    if evs != [] && dev.runner {
      var dev1 := OnRtEvent(dev, evs[0], now, spawnOk);
      if evs[0].WatchdogExpired? || evs[0].SocketError? {
        AbortGivesUp(dev, pending, FirstFatal(evs).value, now, spawnOk);
        assert AllRtEvents(dev1, evs[1..], now, spawnOk) == dev1;
      } else {
        EventsGiveUp(dev, pending, evs[1..], now, spawnOk);
      }
    }
  }

  /** Over every run and every iteration: if the RT thread is there when its events are drained and one of them is a
      watchdog expiry or a socket error, the AR is given up for the reason of the first such event; otherwise draining
      changes nothing. */
  lemma RtEventsExact(run: Run, arr: Arrivals)
    ensures var dev := UpToEvents(After(run), arr).dev;
      var dev' := AllRtEvents(dev, arr.events, arr.now, arr.spawnOk);
      if dev.runner && FirstFatal(arr.events).Some? then GivenUp(dev, dev', FirstFatal(arr.events).value) else dev' == dev
  {
    hide After, UpToEvents, AllRtEvents, Kept, Tells, Published, GivenUp;
    RunKeeps(run);
    UpToEventsKeeps(After(run), arr);
    var b := UpToEvents(After(run), arr);
    EventsGiveUp(b.dev, b.pending, arr.events, arr.now, arr.spawnOk);
  }

  // --- the context manager's own run --------------------------------------------------------

  /** Why ARs were torn down at their channel's request, in order. */
  function Tears(log: seq<Entry>): seq<AbortReason> {
    if log == [] then []
    else Tears(log[..|log| - 1]) + (if log[|log| - 1].TornDown? then [log[|log| - 1].reason] else [])
  }

  function Abandons(reasons: seq<AbortReason>): seq<C.Input> {
    seq(|reasons|, i requires 0 <= i < |reasons| => C.Abandon(reasons[i]))
  }

  function DatagramsOf(ds: seq<(C.Packet, C.Addr)>): seq<C.Input> {
    seq(|ds|, i requires 0 <= i < |ds| => C.Datagram(ds[i].0, ds[i].1))
  }

  function Ran(r: R.Run, inps: seq<C.Input>, now: int): R.Run
    decreases |inps|
  {
    if inps == [] then r else Ran(R.Then(r, inps[0], now), inps[1..], now)
  }

  /** Every datagram a run of the context manager sends. */
  function SentBy(r: R.Run): seq<C.Outgoing> {
    match r case Start(_, _) => [] case Then(before, _, _) => SentBy(before) + R.LastOutput(r).send
  }

  /** The manager is that run's, and what it sent went out. */
  predicate Managed(dev: Dev, r: R.Run) { dev.cm == R.After(r) && dev.rpc == SentBy(r) }

  /** No more teardowns, and no alarm frame that found no channel. */
  predicate SameTears(dev: Dev, dev': Dev) { Tears(dev'.log) == Tears(dev.log) && dev'.rxNoChannel == dev.rxNoChannel }

  /** What concerns the manager is the same. */
  predicate SameManager(dev: Dev, dev': Dev) {
    dev'.cm == dev.cm && dev'.rpc == dev.rpc && SameTears(dev, dev')
  }

  lemma TearsSnoc(log: seq<Entry>, x: Entry)
    ensures Tears(log + [x]) == Tears(log) + if x.TornDown? then [x.reason] else []
  {
    assert (log + [x])[..|log|] == log;
  }

  lemma {:induction false} QuietActs(dev: Dev, prod: nat, acts: seq<AlarmAction>, now: int, spawnOk: bool)
    requires !HasAbort(acts)
    ensures SameManager(dev, ActAll(dev, prod, acts, now, spawnOk))
    decreases |acts|
  {
    hide AbortWithErrRta, Tears;
    if acts != [] {
      assert acts[0] in acts && forall a <- acts[1..] :: a in acts;
      if acts[0].Send? {
        var x := Frame(prod, Live(dev), acts[0].pdu);
        TearsSnoc(dev.log, x);
        QuietActs(dev.(log := dev.log + [x]), prod, acts[1..], now, spawnOk);
      } else {
        QuietActs(dev, prod, acts[1..], now, spawnOk);
      }
    }
  }

  lemma QuietQueue(dev: Dev, n: AlarmNotification, epoch: nat, now: int)
    ensures var (dev', acts) := QueueNotification(dev, n, now); SameManager(dev, Produce(dev', (epoch, acts)))
  {
    hide Enqueue, Tears;
  }

  lemma SameTwice(a: Dev, b: Dev, c: Dev)
    requires SameManager(a, b) && SameManager(b, c)
    ensures SameManager(a, c)
  {
  }

  lemma {:induction false} QuietReplay(dev: Dev, ns: seq<AlarmNotification>, epoch: nat, now: int, spawnOk: bool)
    ensures SameManager(dev, ReplayAll(dev, ns, epoch, now, spawnOk))
    decreases |ns|
  {
    hide ActAll, SameManager, QueueNotification, HasAbort, Produce;
    if ns == [] {
      SameSelf(dev);
    } else {
      var (dev1, acts) := QueueNotification(dev, ns[0], now);
      var dev2 := Produce(dev1, (epoch, acts));
      var dev3 := ApplyBatch(dev2, (epoch, acts), now, spawnOk);
      QuietQueue(dev, ns[0], epoch, now);
      QuietActs(dev2, epoch, acts, now, spawnOk);
      SameSelf(dev2);
      SameTwice(dev, dev2, dev3);
      QuietReplay(dev3, ns[1..], epoch, now, spawnOk);
      SameTwice(dev, dev3, ReplayAll(dev3, ns[1..], epoch, now, spawnOk));
    }
  }

  lemma SameSelf(dev: Dev)
    ensures SameManager(dev, dev)
  {
  }

  lemma QuietOpen(dev: Dev, spawnOk: bool)
    ensures SameManager(dev, OpenChannel(StartRunner(dev, spawnOk))) && SameManager(dev, StopRunner(dev).(alarm := None))
  {
    hide Tears, NewChannel, L.TableFor;
  }

  lemma QuietNotice(dev: Dev, n: C.Notice, now: int, spawnOk: bool)
    ensures SameManager(dev, OnNotice(dev, n, now, spawnOk))
  {
    hide ReplayAll, Tears, D.Replay, D.ActiveList, D.ProblemIndicator, OpenChannel, StartRunner, StopRunner;
    var open := OpenChannel(StartRunner(dev, spawnOk));
    QuietOpen(dev, spawnOk);
    QuietReplay(open, D.Replay(open.diag), open.epoch, now, spawnOk);
  }

  lemma {:induction false} QuietDispatch(dev: Dev, notices: seq<C.Notice>, now: int, spawnOk: bool)
    ensures SameManager(dev, Dispatch(dev, notices, now, spawnOk))
    decreases |notices|
  {
    hide OnNotice, Tears;
    if notices != [] {
      QuietNotice(dev, notices[0], now, spawnOk);
      QuietDispatch(OnNotice(dev, notices[0], now, spawnOk), notices[1..], now, spawnOk);
    }
  }

  /** One input to the manager. */
  lemma StepManaged(dev: Dev, r: R.Run, inp: C.Input, now: int, spawnOk: bool)
    requires Managed(dev, r)
    ensures var dev' := StepCm(dev, inp, now, spawnOk); Managed(dev', R.Then(r, inp, now)) && SameTears(dev, dev')
  {
    hide Dispatch, Tears, C.Step, C.Inv;
    var (cm', out) := R.Advance(dev.cm, inp, now);
    QuietDispatch(dev.(cm := cm', rpc := dev.rpc + out.send), out.notify, now, spawnOk);
  }

  lemma AbortManaged(dev: Dev, r: R.Run, reason: AbortReason, now: int, spawnOk: bool)
    requires Managed(dev, r)
    ensures var dev' := AbortWithErrRta(dev, reason, now, spawnOk);
      Managed(dev', R.Then(r, C.Abandon(reason), now)) && SameTears(dev, dev')
  {
    hide StepCm, Tears;
    var more := Announcement(dev, reason);
    if more == [] { assert dev.log + more == dev.log; } else { assert more == [more[0]]; TearsSnoc(dev.log, more[0]); }
    StepManaged(dev.(log := dev.log + more), r, C.Abandon(reason), now, spawnOk);
  }

  lemma {:induction false} RanConcat(r: R.Run, a: seq<C.Input>, b: seq<C.Input>, now: int)
    ensures Ran(Ran(r, a, now), b, now) == Ran(r, a + b, now)
    decreases |a|
  {
    if a == [] {
      assert a + b == b;
    } else {
      assert (a + b)[1..] == a[1..] + b;
      RanConcat(R.Then(r, a[0], now), a[1..], b, now);
    }
  }

  lemma QuietFrame(b: Busy, frame: Bytes, now: int)
    ensures SameManager(b.dev, OnEthernet(b, frame, now).dev.(rxNoChannel := b.dev.rxNoChannel))
  {
    hide Tears, OnFrame, IsAlarmFrame;
  }

  lemma QuietCommand(b: Busy, cmd: DiagCommand, now: int)
    ensures SameManager(b.dev, OnCommand(b, cmd, now).dev)
  {
    hide Tears, Enqueue, D.Raise, D.ClearOne;
  }

  lemma {:induction false} QuietFrames(b: Busy, frames: seq<Bytes>, now: int)
    ensures SameManager(b.dev, AllFrames(b, frames, now).dev.(rxNoChannel := b.dev.rxNoChannel))
    decreases |frames|
  {
    hide OnEthernet, Tears;
    if frames != [] {
      QuietFrame(b, frames[0], now);
      QuietFrames(OnEthernet(b, frames[0], now), frames[1..], now);
    }
  }

  lemma {:induction false} QuietCommands(b: Busy, cmds: seq<DiagCommand>, now: int)
    ensures SameManager(b.dev, AllCommands(b, cmds, now).dev)
    decreases |cmds|
  {
    hide OnCommand, Tears;
    if cmds != [] {
      QuietCommand(b, cmds[0], now);
      QuietCommands(OnCommand(b, cmds[0], now), cmds[1..], now);
    }
  }

  lemma {:induction false} DatagramsManaged(dev: Dev, r: R.Run, ds: seq<(C.Packet, C.Addr)>, now: int, spawnOk: bool)
    requires Managed(dev, r)
    ensures var dev' := AllDatagrams(dev, ds, now, spawnOk);
      Managed(dev', Ran(r, DatagramsOf(ds), now)) && SameTears(dev, dev')
    decreases |ds|
  {
    hide StepCm, Tears, Managed;
    if ds != [] {
      var inp := C.Datagram(ds[0].0, ds[0].1);
      StepManaged(dev, r, inp, now, spawnOk);
      DatagramsManaged(StepCm(dev, inp, now, spawnOk), R.Then(r, inp, now), ds[1..], now, spawnOk);
      assert DatagramsOf(ds)[1..] == DatagramsOf(ds[1..]);
    }
  }

  lemma BeforeManaged(dev: Dev, r: R.Run, arr: Arrivals)
    requires Managed(dev, r)
    ensures var dev' := UpToEvents(dev, arr).dev;
      && Managed(dev', Ran(r, DatagramsOf(arr.datagrams), arr.now)) && Tears(dev'.log) == Tears(dev.log)
      && dev'.rxNoChannel == AllFrames(Busy(dev, []), arr.frames, arr.now).dev.rxNoChannel
  {
    hide AllFrames, AllCommands, AllDatagrams, Tears, D.ActiveList, D.ProblemIndicator, Ran, R.After, SentBy;
    var a := AllFrames(Busy(dev, []), arr.frames, arr.now);
    QuietFrames(Busy(dev, []), arr.frames, arr.now);
    QuietCommands(a, arr.cmds, arr.now);
    DatagramsManaged(Drain(a, arr.cmds, arr.now).dev, r, arr.datagrams, arr.now, arr.spawnOk);
  }

  /** What the RT thread's events are to the manager. */
  function FatalInput(runner: bool, evs: seq<RtEvent>): seq<C.Input> {
    if runner && FirstFatal(evs).Some? then [C.Abandon(FirstFatal(evs).value)] else []
  }

  lemma {:induction false} EventsManaged(dev: Dev, pending: seq<Batch>, r: R.Run, evs: seq<RtEvent>, now: int, spawnOk: bool)
    requires Kept(dev, pending) && Managed(dev, r)
    ensures var dev' := AllRtEvents(dev, evs, now, spawnOk);
      Managed(dev', Ran(r, FatalInput(dev.runner, evs), now)) && SameTears(dev, dev')
    decreases |evs|
  {
    hide Kept, AbortWithErrRta, Tears, Managed, Announces;
    if evs != [] && dev.runner {
      if evs[0].WatchdogExpired? || evs[0].SocketError? {
        var reason := FirstFatal(evs).value;
        AbortManaged(dev, r, reason, now, spawnOk);
        AbortGivesUp(dev, pending, reason, now, spawnOk);
        assert [C.Abandon(reason)][1..] == [];
      } else {
        EventsManaged(dev, pending, r, evs[1..], now, spawnOk);
      }
    }
  }

  /** Applying one batch: nothing to the manager, or the teardown the log then shows. */
  lemma BatchManaged(dev: Dev, pending: seq<Batch>, r: R.Run, now: int, spawnOk: bool) returns (torn: seq<AbortReason>)
    requires Kept(dev, pending) && pending != [] && Managed(dev, r)
    ensures var dev' := ApplyBatch(dev, pending[0], now, spawnOk);
      && |torn| <= 1 && Tears(dev'.log) == Tears(dev.log) + torn && dev'.rxNoChannel == dev.rxNoChannel
      && Managed(dev', Ran(r, Abandons(torn), now))
  {
    hide Kept, AbortWithErrRta, Tears, HasAbort, ActAll, R.After, SentBy, BatchOk;
    var b := pending[0];
    torn := [];
    assert Tears(dev.log) + [] == Tears(dev.log);
    PastOf(dev, pending);
    if dev.alarm.Some? && dev.epoch == b.0 {
      if HasAbort(b.1) {
        ActAbort(dev, b, now, spawnOk);
        var reason := b.1[0].reason;
        torn := [reason];
        var x := TornDown(b.0, Some(dev.epoch), reason);
        TearsSnoc(dev.log, x);
        AbortManaged(dev.(log := dev.log + [x]), r, reason, now, spawnOk);
        RanOne(r, C.Abandon(reason), now);
        assert Abandons(torn) == [C.Abandon(reason)];
      } else {
        QuietActs(dev, b.0, b.1, now, spawnOk);
      }
    }
  }

  lemma {:induction false} BatchesManaged(dev: Dev, pending: seq<Batch>, r: R.Run, now: int, spawnOk: bool)
    requires Inv(dev, pending) && Managed(dev, r)
    ensures var dev' := ApplyAll(dev, pending, now, spawnOk);
      && Tears(dev.log) <= Tears(dev'.log) && dev'.rxNoChannel == dev.rxNoChannel
      && Managed(dev', Ran(r, Abandons(Tears(dev'.log)[|Tears(dev.log)|..]), now))
    decreases |pending|
  {
    hide Kept, Tells, ApplyBatch, Tears, Managed, Ran;
    if pending == [] {
      RanNone(r, now);
      var t := Tears(dev.log);
      assert t[|t|..] == [] && Abandons([]) == [];
    } else {
      var dev1 := ApplyBatch(dev, pending[0], now, spawnOk);
      ApplyKeeps(dev, pending, now, spawnOk);
      var torn := BatchManaged(dev, pending, r, now, spawnOk);
      var r1 := Ran(r, Abandons(torn), now);
      BatchesManaged(dev1, pending[1..], r1, now, spawnOk);
      var all := Tears(ApplyAll(dev1, pending[1..], now, spawnOk).log);
      var (n, m) := (|Tears(dev.log)|, |Tears(dev1.log)|);
      RanConcat(r, Abandons(torn), Abandons(all[m..]), now);
      assert all[n..] == torn + all[m..];
      assert Abandons(all[n..]) == Abandons(torn) + Abandons(all[m..]);
    }
  }

  lemma RanNone(r: R.Run, now: int)
    ensures Ran(r, [], now) == r
  {
  }

  /** What one iteration gives the context manager: every datagram in order, the AR given up for a failure of the RT
      thread, the timer, and the ARs torn down at their channel's request. */
  ghost function Given(dev: Dev, arr: Arrivals): seq<C.Input> {
    var torn, all := Tears(dev.log), Tears(Iterate(dev, arr).log);
    DatagramsOf(arr.datagrams) + FatalInput(UpToEvents(dev, arr).dev.runner, arr.events) + [C.Timer]
    + (if |torn| <= |all| then Abandons(all[|torn|..]) else [])
  }

  ghost function ManagerRun(run: Run): R.Run {
    match run
    case Start(model, _, _, seed) => R.Start(model, seed)
    case Then(before, arr) => Ran(ManagerRun(before), Given(After(before), arr), arr.now)
    case ThenShutdown(before, now) =>
      if After(before).cm.ar.state.Idle? then ManagerRun(before)
      else R.Then(ManagerRun(before), C.Abandon(Status.Shutdown), now)
    case ThenAbort(before, reason, now) => R.Then(ManagerRun(before), C.Abandon(reason), now)
  }

  lemma IterateManaged(dev: Dev, r: R.Run, arr: Arrivals)
    requires Inv(dev, []) && Published(dev) && Managed(dev, r)
    ensures Managed(Iterate(dev, arr), Ran(r, Given(dev, arr), arr.now))
    ensures Iterate(dev, arr).rxNoChannel == AllFrames(Busy(dev, []), arr.frames, arr.now).dev.rxNoChannel
  {
    hide Kept, Tells, UpToEvents, AllRtEvents, StepCm, OnRtaTimer, ApplyAll, Tears, Published, Ran, Managed, FatalInput,
         DatagramsOf, Abandons;
    var b, now := UpToEvents(dev, arr), arr.now;
    var (x, y) := (DatagramsOf(arr.datagrams), FatalInput(b.dev.runner, arr.events));
    UpToEventsKeeps(dev, arr);
    BeforeManaged(dev, r, arr);
    var e := AllRtEvents(b.dev, arr.events, now, arr.spawnOk);
    RtEventsKeep(b.dev, b.pending, arr.events, now, arr.spawnOk);
    EventsManaged(b.dev, b.pending, Ran(r, x, now), arr.events, now, arr.spawnOk);
    RanConcat(r, x, y, now);
    var f := StepCm(e, C.Timer, now, arr.spawnOk);
    StepCmKeeps(e, b.pending, C.Timer, now, arr.spawnOk);
    StepManaged(e, Ran(r, x + y, now), C.Timer, now, arr.spawnOk);
    RanOne(Ran(r, x + y, now), C.Timer, now);
    RanConcat(r, x + y, [C.Timer], now);
    var g := OnRtaTimer(Busy(f, b.pending), now);
    RtaTimerKeeps(Busy(f, b.pending), now);
    QuietTimer(Busy(f, b.pending), now, Ran(r, x + y + [C.Timer], now));
    BatchesManaged(g.dev, g.pending, Ran(r, x + y + [C.Timer], now), now, arr.spawnOk);
    RanConcat(r, x + y + [C.Timer], Abandons(Tears(Iterate(dev, arr).log)[|Tears(dev.log)|..]), now);
  }

  lemma RanOne(r: R.Run, inp: C.Input, now: int)
    ensures Ran(r, [inp], now) == R.Then(r, inp, now)
  {
    assert [inp][1..] == [];
  }

  lemma QuietTimer(b: Busy, now: int, r: R.Run)
    ensures var b' := OnRtaTimer(b, now);
      (Managed(b.dev, r) ==> Managed(b'.dev, r)) && SameTears(b.dev, b'.dev)
  {
    hide OnTick, Tears, R.After, SentBy;
  }

  /** Over every run: the context manager in the device is a run of the manager's own machine, over exactly those
      inputs and no others, and every datagram that run sends is on the wire, in order. */
  lemma {:induction false} ManagerRuns(run: Run)
    ensures After(run).cm == R.After(ManagerRun(run)) && After(run).rpc == SentBy(ManagerRun(run))
  {
    hide Inv, Published, Iterate, AbortWithErrRta, R.After, SentBy, Ran;
    match run
    case Start(model, mac, rt, seed) =>
      NewManaged(model, mac, rt, seed);
    case Then(before, arr) =>
      ManagerRuns(before);
      RunKeeps(before);
      IterateManaged(After(before), ManagerRun(before), arr);
    case ThenShutdown(before, now) =>
      ManagerRuns(before);
      AbortManaged(After(before), ManagerRun(before), Status.Shutdown, now, false);
    case ThenAbort(before, reason, now) =>
      ManagerRuns(before);
      AbortManaged(After(before), ManagerRun(before), reason, now, false);
  }

  lemma NewManaged(model: DeviceModel, mac: Mac, rt: bool, seed: Uuid)
    ensures Managed(NewDevice(model, mac, rt, seed), R.Start(model, seed))
  {
  }

  // --- the active diagnoses, from the commands -------------------------------------------------

  function ModelOf(run: Run): DeviceModel {
    match run
    case Start(model, _, _, _) => model
    case Then(before, _) => ModelOf(before)
    case ThenShutdown(before, _) => ModelOf(before)
    case ThenAbort(before, _, _) => ModelOf(before)
  }

  /** Every command the application gave, in order. */
  function Commands(run: Run): seq<DiagCommand> {
    match run
    case Start(_, _, _, _) => []
    case Then(before, arr) => Commands(before) + arr.cmds
    case ThenShutdown(before, _) => Commands(before)
    case ThenAbort(before, _, _) => Commands(before)
  }

  function About(cmd: DiagCommand): D.Key {
    match cmd case Raise(d) => (d.slot, d.channel, d.error) case Clear(slot, channel, error) => (slot, channel, error)
  }

  /** The last command about a slot, channel and error. */
  function LastAbout(cmds: seq<DiagCommand>, key: D.Key): Option<DiagCommand> {
    if cmds == [] then None
    else if About(cmds[|cmds| - 1]) == key then Some(cmds[|cmds| - 1]) else LastAbout(cmds[..|cmds| - 1], key)
  }

  /** The commands carried out one after the other. */
  function Obeyed(store: D.Store, cmds: seq<DiagCommand>): D.Store
    decreases |cmds|
  {
    if cmds == [] then store else Obeyed(Obeyed1(store, cmds[0]).0, cmds[1..])
  }

  function Obeyed1(store: D.Store, cmd: DiagCommand): (D.Store, Option<AlarmNotification>) {
    match cmd
    case Raise(d) => D.Raise(store, d)
    case Clear(slot, channel, error) => D.ClearOne(store, slot, channel, error)
  }

  lemma {:induction false} ObeyedConcat(store: D.Store, a: seq<DiagCommand>, b: seq<DiagCommand>)
    ensures Obeyed(store, a + b) == Obeyed(Obeyed(store, a), b)
    decreases |a|
  {
    hide Obeyed1;
    if a == [] {
      assert a + b == b;
    } else {
      assert (a + b)[1..] == a[1..] + b;
      ObeyedConcat(Obeyed1(store, a[0]).0, a[1..], b);
    }
  }

  /** A raise on a slot the device diagnoses makes the entry what it says, a clear removes it; other entries stay. */
  lemma ObeyedOne(store: D.Store, cmd: DiagCommand, key: D.Key)
    requires D.WellFormed(store)
    ensures var store' := Obeyed1(store, cmd).0;
      && store'.submodules == store.submodules && D.WellFormed(store')
      && (About(cmd) != key || (cmd.Raise? && !D.Knows(store, cmd.d.slot)) ==>
            (key in store'.active <==> key in store.active)
            && (key in store.active ==> store'.active[key] == store.active[key]))
      && (About(cmd) == key && cmd.Clear? ==> key !in store'.active)
      && (About(cmd) == key && cmd.Raise? && D.Knows(store, cmd.d.slot) ==>
            key in store'.active && store'.active[key].severity == cmd.d.severity)
  {
    hide D.BuildNotification, D.Info;
  }

  /** An entry is active exactly when the last command about it was a raise, with the severity of that. */
  predicate ActiveBy(store: D.Store, cmds: seq<DiagCommand>, key: D.Key) {
    var cmd := LastAbout(cmds, key);
    && (key in store.active <==> cmd.Some? && cmd.value.Raise? && D.Knows(store, key.0))
    && (key in store.active ==>
          D.KeyOf(store.active[key]) == key && store.active[key].severity == cmd.value.d.severity)
  }

  lemma {:induction false} ObeyedTold(submodules: seq<D.SubmoduleInfo>, cmds: seq<DiagCommand>, key: D.Key)
    ensures var store := Obeyed(D.Store(submodules, map[]), cmds);
      store.submodules == submodules && D.WellFormed(store) && ActiveBy(store, cmds, key)
    decreases |cmds|
  {
    hide Obeyed1, D.Info;
    var empty := D.Store(submodules, map[]);
    if cmds != [] {
      var init, cmd := cmds[..|cmds| - 1], cmds[|cmds| - 1];
      assert cmds == init + [cmd];
      ObeyedTold(submodules, init, key);
      ObeyedConcat(empty, init, [cmd]);
      var was := Obeyed(empty, init);
      assert [cmd][1..] == [];
      assert Obeyed(was, [cmd]) == Obeyed1(was, cmd).0;
      ObeyedOne(was, cmd, key);
    }
  }

  lemma CommandObeyed(b: Busy, cmd: DiagCommand, now: int)
    ensures OnCommand(b, cmd, now).dev.diag == Obeyed1(b.dev.diag, cmd).0
  {
    hide QueueNotification, D.Raise, D.ClearOne;
    var (diag, n) := Obeyed1(b.dev.diag, cmd);
    if n.Some? { QueueSpares(b.dev.(diag := diag), n.value, now); }
  }

  lemma QueueSpares(dev: Dev, n: AlarmNotification, now: int)
    ensures QueueNotification(dev, n, now).0.diag == dev.diag
  {
    hide Enqueue, TakeSpecifier, Stamped;
  }

  lemma {:induction false} CommandsObeyed(b: Busy, cmds: seq<DiagCommand>, now: int)
    ensures AllCommands(b, cmds, now).dev.diag == Obeyed(b.dev.diag, cmds)
    decreases |cmds|
  {
    hide OnCommand, Obeyed1;
    if cmds != [] {
      CommandObeyed(b, cmds[0], now);
      CommandsObeyed(OnCommand(b, cmds[0], now), cmds[1..], now);
    }
  }

  lemma {:induction false} DatagramsSpare(dev: Dev, pending: seq<Batch>, ds: seq<(C.Packet, C.Addr)>, now: int, spawnOk: bool)
    requires Inv(dev, pending)
    ensures AllDatagrams(dev, ds, now, spawnOk).diag == dev.diag
    decreases |ds|
  {
    hide Inv, StepCm, Published;
    if ds != [] {
      var inp := C.Datagram(ds[0].0, ds[0].1);
      StepCmKeeps(dev, pending, inp, now, spawnOk);
      DatagramsSpare(StepCm(dev, inp, now, spawnOk), pending, ds[1..], now, spawnOk);
    }
  }

  lemma {:induction false} BatchesSpare(dev: Dev, pending: seq<Batch>, now: int, spawnOk: bool)
    requires Inv(dev, pending)
    ensures ApplyAll(dev, pending, now, spawnOk).diag == dev.diag
    decreases |pending|
  {
    hide Inv, ApplyBatch;
    if pending != [] {
      ApplyKeeps(dev, pending, now, spawnOk);
      BatchesSpare(ApplyBatch(dev, pending[0], now, spawnOk), pending[1..], now, spawnOk);
    }
  }

  /** Frames, commands and datagrams: only the commands touch the store. */
  lemma BeforeObeyed(dev: Dev, arr: Arrivals)
    requires Inv(dev, []) && Published(dev)
    ensures UpToEvents(dev, arr).dev.diag == Obeyed(dev.diag, arr.cmds)
  {
    hide Inv, AllFrames, AllCommands, AllDatagrams, D.ActiveList, D.ProblemIndicator;
    var a := AllFrames(Busy(dev, []), arr.frames, arr.now);
    FramesKeep(Busy(dev, []), arr.frames, arr.now);
    DrainKeeps(a, arr.cmds, arr.now);
    CommandsObeyed(a, arr.cmds, arr.now);
    var b := Drain(a, arr.cmds, arr.now);
    DatagramsSpare(b.dev, b.pending, arr.datagrams, arr.now, arr.spawnOk);
  }

  lemma IterateObeyed(dev: Dev, arr: Arrivals)
    requires Inv(dev, []) && Published(dev)
    ensures Iterate(dev, arr).diag == Obeyed(dev.diag, arr.cmds)
  {
    hide Inv, UpToEvents, AllRtEvents, StepCm, OnRtaTimer, ApplyAll, Published, Kept;
    var b, now := UpToEvents(dev, arr), arr.now;
    UpToEventsKeeps(dev, arr);
    BeforeObeyed(dev, arr);
    var e := AllRtEvents(b.dev, arr.events, now, arr.spawnOk);
    RtEventsKeep(b.dev, b.pending, arr.events, now, arr.spawnOk);
    KeptIn(b.dev, b.pending);
    EventsGiveUp(b.dev, b.pending, arr.events, now, arr.spawnOk);
    StepCmKeeps(e, b.pending, C.Timer, now, arr.spawnOk);
    var f := StepCm(e, C.Timer, now, arr.spawnOk);
    RtaTimerKeeps(Busy(f, b.pending), now);
    var g := OnRtaTimer(Busy(f, b.pending), now);
    BatchesSpare(g.dev, g.pending, now, arr.spawnOk);
  }

  lemma KeptIn(dev: Dev, pending: seq<Batch>)
    requires Inv(dev, pending)
    ensures Kept(dev, pending)
  {
  }

  lemma {:induction false} StoreObeys(run: Run)
    ensures After(run).diag == Obeyed(D.FromModel(ModelOf(run)), Commands(run))
  {
    hide Inv, Published, Iterate, AbortWithErrRta, D.FromModel, Kept;
    match run
    case Start(model, mac, rt, seed) =>
    case Then(before, arr) =>
      StoreObeys(before);
      RunKeeps(before);
      IterateObeyed(After(before), arr);
      ObeyedConcat(D.FromModel(ModelOf(run)), Commands(before), arr.cmds);
    case ThenShutdown(before, now) =>
      StoreObeys(before);
      RunKeeps(before);
      AbortSpares(After(before), Status.Shutdown, now);
    case ThenAbort(before, reason, now) =>
      StoreObeys(before);
      RunKeeps(before);
      AbortSpares(After(before), reason, now);
  }

  lemma AbortSpares(dev: Dev, reason: AbortReason, now: int)
    requires Inv(dev, [])
    ensures AbortWithErrRta(dev, reason, now, false).diag == dev.diag
  {
    hide Kept, Tells, StepCm, Published;
    if dev.cm.ar.state.Idle? {
      IdleIsClosed(dev);
      assert dev.log + [] == dev.log;
      StepCmKeeps(dev, [], C.Abandon(reason), now, false);
    } else {
      AbortKeeps(dev, [], reason, now, false);
    }
  }

  /** Over every run, whatever else happens in it: a diagnosis is active exactly when the last command about its slot,
      channel and error was to raise it, on a slot the device diagnoses, and with that command's severity. */
  lemma ActiveFromCommands(run: Run, key: D.Key)
    ensures var active, cmd := After(run).diag.active, LastAbout(Commands(run), key);
      && (key in active <==> cmd.Some? && cmd.value.Raise? && D.Diagnosable(ModelOf(run), key.0))
      && (key in active ==> D.KeyOf(active[key]) == key && active[key].severity == cmd.value.d.severity)
  {
    hide After, Commands, Obeyed, D.Infos, D.Info, LastAbout;
    StoreObeys(run);
    ObeyedTold(D.Infos(ModelOf(run).slots), Commands(run), key);
    D.InfoFromModel(ModelOf(run).slots, key.0);
  }
}
