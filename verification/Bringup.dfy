/** Every device can be brought up: a Connect that is accepted, PrmEnd and a positive answer to
    ApplicationReady take it from power-on to Data (crates/pnio/src/cm/ar.rs, crates/pnio/src/cm/mod.rs,
    crates/pnio/src/device/mod.rs). So what is proved of the open alarm channel is about states that
    occur. */
module Bringup {
  import opened Wire
  import opened Status
  import opened Connect
  import opened Control
  import opened AlarmChannels
  import opened Devices
  import Rta
  import A = Ars
  import C = Cms
  import R = CmRuns
  import D = Diag
  import L = Layout
  import X = DeviceRuns
  import G = DeviceConfigs
  import K = Canonical

  const NOBODY: Uuid := NIL_UUID

  /** A request of a controller with the given call number. */
  function Ask(n: u32, call: C.Call): C.Packet { C.Request(C.ReqHeader(NOBODY, C.DEVICE_INTERFACE, NOBODY, n), Some((0, call))) }

  /** End of parameterisation for an AR. */
  function PrmEndOf(p: ArParams): ControlBlock { ControlBlock(REQ_PRM_END, p.arUuid, p.sessionKey, CMD_PRM_END, 0) }

  /** What a controller sends to bring the device up. */
  function Conversation(req: ConnectReq, p: ArParams, from: C.Addr): seq<(C.Packet, C.Addr)> {
    [(Ask(0, C.ConnectCall(Ok(req))), from),
     (Ask(1, C.ControlCall(WriteControl(PrmEndOf(p)))), from),
     (C.Response(Some(OK)), from)]
  }

  // --- the context manager ------------------------------------------------------------------

  /** An AR event that is not a request leaves the AR it leads to. */
  lemma EventAr(cm: R.LiveCm, ev: A.Event, now: int)
    requires !A.IsRequest(ev)
    ensures A.HasContext(cm.ar)
    ensures var (cm', actions) := C.OnAr(cm, ev, now);
      var o := C.Apply(cm', actions, None, false, C.NOTHING); o.Done? && o.cm.ar == A.On(cm.ar, ev, now).0
  {
    hide A.On, C.Apply, A.Inv;
    R.HasContextIn(cm);
    var m := R.EventEffect(cm, ev, now);
    var (cm', actions) := C.OnAr(cm, ev, now);
    R.ApplyKeepsAr(cm', actions, None, false, C.NOTHING);
  }

  /** A request answered for the first time leaves the AR it is served with. */
  lemma RequestAr(cm: R.LiveCm, n: u32, call: C.Call, from: C.Addr, now: int)
    requires C.Lookup(cm.cache, (NOBODY, n)).None?
    ensures A.HasContext(cm.ar)
    ensures var o := C.Step(cm, C.Datagram(Ask(n, call), from), now);
      && o.Done? && o.cm.ar == C.Serve(cm, call, from, now).0.ar && |o.cm.cache| <= |cm.cache| + 1
      && (cm.cache == [] ==> |o.cm.cache| == 1 && o.cm.cache[0].0 == (NOBODY, n))
  {
    hide C.Serve, C.Apply, A.Inv, C.CacheOk;
    R.HasContextIn(cm);
    var h := C.ReqHeader(NOBODY, C.DEVICE_INTERFACE, NOBODY, n);
    var m := R.RequestEffect(cm, h, 0, call, from, now);
    var (cm', actions) := C.Serve(cm, call, from, now);
    R.ApplyKeepsAr(cm', actions, Some(C.RespondCtx(h, C.OpnumOf(call), 0, from)), true, C.NOTHING);
  }

  /** The first request: an accepted Connect. */
  lemma Connected(cm: R.LiveCm, req: ConnectReq, from: C.Addr, now: int)
    requires cm.ar.state.Idle? && cm.cache == [] && Validate(req, cm.ar.model).Ok?
    ensures var (cm', out) := R.Advance(cm, C.Datagram(Ask(0, C.ConnectCall(Ok(req))), from), now);
      && cm'.ar.state.Connected? && cm'.ar.model == cm.ar.model
      && cm'.ar.ctx.Some? && cm'.ar.ctx.value.params == Validate(req, cm.ar.model).value
      && |cm'.cache| == 1 && cm'.cache[0].0 == (NOBODY, 0)
  {
    hide Validate, C.Step, C.Inv;
    RequestAr(cm, 0, C.ConnectCall(Ok(req)), from, now);
  }

  lemma Called(cm: R.LiveCm, from: C.Addr, now: int)
    requires cm.ar.state.Connected? && |cm.cache| == 1 && cm.cache[0].0 == (NOBODY, 0) && cm.ar.ctx.Some?
    ensures var p := cm.ar.ctx.value.params;
      var (cm', out) := R.Advance(cm, C.Datagram(Ask(1, C.ControlCall(WriteControl(PrmEndOf(p)))), from), now);
      && cm'.ar.state.AppReadySent? && cm'.ar.model == cm.ar.model
      && cm'.ar.ctx.Some? && cm'.ar.ctx.value.params == p
  {
    hide C.Step, C.Inv, WriteControl, ParseControl;
    var p := cm.ar.ctx.value.params;
    var blocks := WriteControl(PrmEndOf(p));
    ControlRoundTrip(PrmEndOf(p), []);
    assert blocks + [] == blocks;
    assert cm.cache[1..] == [];
    RequestAr(cm, 1, C.ControlCall(blocks), from, now);
  }

  lemma Running(cm: R.LiveCm, from: C.Addr, now: int)
    requires cm.ar.state.AppReadySent?
    ensures var (cm', out) := R.Advance(cm, C.Datagram(C.Response(Some(OK)), from), now);
      cm'.ar.state.Data? && cm'.ar.model == cm.ar.model && cm'.ar.ctx == cm.ar.ctx
  {
    hide C.Inv, C.Apply;
    EventAr(cm, A.AppReadyRsp(OK), now);
  }

  /** In Data the timer has nothing to do. */
  lemma Resting(cm: R.LiveCm, now: int)
    requires cm.ar.state.Data?
    ensures R.Advance(cm, C.Timer, now) == (cm, C.NOTHING)
  {
    hide C.Inv;
    R.HasContextIn(cm);
    R.ApplyNone(cm, None, false, C.NOTHING);
  }

  // --- the device ------------------------------------------------------------------------------

  /** A step that stays out of Data changes nothing of the device but the context manager. */
  lemma QuietStep(dev: Dev, inp: C.Input, now: int, spawnOk: bool)
    requires !dev.cm.ar.state.Data?
    requires var ar := R.Advance(dev.cm, inp, now).0.ar; ar.state.Connected? || ar.state.AppReadySent?
    requires dev.alarm.None? && !dev.runner
    ensures var (cm', out) := R.Advance(dev.cm, inp, now);
      StepCm(dev, inp, now, spawnOk) == dev.(cm := cm', rpc := dev.rpc + out.send)
  {
    hide R.Advance, Dispatch, A.Inv;
    var s := R.AdvanceShifts(dev.cm, inp, now);
    var (cm', out) := R.Advance(dev.cm, inp, now);
    var dev1 := dev.(cm := cm', rpc := dev.rpc + out.send);
    if s.Keep? { X.DispatchKeep(dev1, out.notify, now, spawnOk); } else { X.DispatchEnd(dev1, out.notify, now, spawnOk); }
  }

  /** Reaching Data with nothing active: image, channel, and nothing to announce. */
  lemma LiveStep(dev: Dev, inp: C.Input, now: int, spawnOk: bool)
    requires !dev.cm.ar.state.Data? && R.Advance(dev.cm, inp, now).0.ar.state.Data?
    requires dev.diag.active == map[]
    ensures var (cm', out) := R.Advance(dev.cm, inp, now);
      StepCm(dev, inp, now, spawnOk)
      == Publish(OpenChannel(StartRunner(dev.(cm := cm', rpc := dev.rpc + out.send), spawnOk)))
  {
    hide R.Advance, Dispatch, A.Inv, StartRunner, OpenChannel, Publish, ReplayAll;
    var s := R.AdvanceShifts(dev.cm, inp, now);
    var (cm', out) := R.Advance(dev.cm, inp, now);
    var dev1 := dev.(cm := cm', rpc := dev.rpc + out.send);
    X.DispatchBegin(dev1, now, spawnOk);
    var open := OpenChannel(StartRunner(dev1, spawnOk));
    SameStore(dev1, spawnOk);
    NothingToReplay(open, now, spawnOk);
  }

  lemma SameStore(dev: Dev, spawnOk: bool)
    ensures OpenChannel(StartRunner(dev, spawnOk)).diag == dev.diag
  {
    hide L.TableFor;
  }

  lemma NothingToReplay(dev: Dev, now: int, spawnOk: bool)
    requires dev.diag.active == map[]
    ensures ReplayAll(dev, D.Replay(dev.diag), dev.epoch, now, spawnOk) == dev
  {
    hide ApplyBatch, QueueNotification;
    assert D.SortedKeys({}) == [];
  }

  /** The device after the conversation: in Data, with a channel, and with the image if it can have one. */
  predicate IsUp(dev: Dev, p: ArParams, spawnOk: bool) {
    && dev.cm.ar.state.Data? && dev.cm.ar.ctx.Some? && dev.cm.ar.ctx.value.params == p
    && dev.alarm == Some(NewChannel(ConfigFor(p, dev.mac)))
    && (dev.rt && L.TableFor(p, dev.cm.ar.model).Ok? ==> dev.runner == spawnOk && dev.spawned == Some(spawnOk))
  }

  lemma OpenIsUp(dev: Dev, p: ArParams, spawnOk: bool)
    requires dev.cm.ar.state.Data? && dev.cm.ar.ctx.Some? && dev.cm.ar.ctx.value.params == p && !dev.runner
    ensures IsUp(Publish(OpenChannel(StartRunner(dev, spawnOk))), p, spawnOk)
  {
    hide L.TableFor, ConfigFor, NewChannel, D.ActiveList, D.ProblemIndicator;
  }

  lemma Talked(dev: Dev, req: ConnectReq, from: C.Addr, now: int, spawnOk: bool)
    requires dev.cm.ar.state.Idle? && dev.cm.cache == [] && dev.alarm.None? && !dev.runner && dev.diag.active == map[]
    requires Validate(req, dev.cm.ar.model).Ok?
    ensures var p := Validate(req, dev.cm.ar.model).value;
      var up := AllDatagrams(dev, Conversation(req, p, from), now, spawnOk);
      IsUp(up, p, spawnOk) && up.cm.ar.model == dev.cm.ar.model && up.rt == dev.rt
  {
    hide Validate, StepCm, R.Advance, IsUp, WriteControl, StartRunner, OpenChannel, Publish;
    var p := Validate(req, dev.cm.ar.model).value;
    var ds := Conversation(req, p, from);
    var i1, i2, i3 := C.Datagram(ds[0].0, from), C.Datagram(ds[1].0, from), C.Datagram(ds[2].0, from);
    Connected(dev.cm, req, from, now);
    QuietStep(dev, i1, now, spawnOk);
    var d1 := StepCm(dev, i1, now, spawnOk);
    Called(d1.cm, from, now);
    QuietStep(d1, i2, now, spawnOk);
    var d2 := StepCm(d1, i2, now, spawnOk);
    Running(d2.cm, from, now);
    LiveStep(d2, i3, now, spawnOk);
    var (cm', out) := R.Advance(d2.cm, i3, now);
    var d3 := d2.(cm := cm', rpc := d2.rpc + out.send);
    OpenIsUp(d3, p, spawnOk);
    OpenKeepsSetup(d3, spawnOk);
    ThreeDatagrams(dev, ds, now, spawnOk);
  }

  lemma OpenKeepsSetup(dev: Dev, spawnOk: bool)
    ensures var up := Publish(OpenChannel(StartRunner(dev, spawnOk))); up.cm == dev.cm && up.rt == dev.rt
  {
    hide L.TableFor, D.ActiveList, D.ProblemIndicator;
  }

  lemma ThreeDatagrams(dev: Dev, ds: seq<(C.Packet, C.Addr)>, now: int, spawnOk: bool)
    requires |ds| == 3
    ensures var d1 := StepCm(dev, C.Datagram(ds[0].0, ds[0].1), now, spawnOk);
      var d2 := StepCm(d1, C.Datagram(ds[1].0, ds[1].1), now, spawnOk);
      AllDatagrams(dev, ds, now, spawnOk) == StepCm(d2, C.Datagram(ds[2].0, ds[2].1), now, spawnOk)
  {
    hide StepCm;
    var d1 := StepCm(dev, C.Datagram(ds[0].0, ds[0].1), now, spawnOk);
    var d2 := StepCm(d1, C.Datagram(ds[1].0, ds[1].1), now, spawnOk);
    var d3 := StepCm(d2, C.Datagram(ds[2].0, ds[2].1), now, spawnOk);
    var r1 := ds[1..];
    var r2 := r1[1..];
    assert r2 == [ds[2]] && r2[1..] == [];
    assert AllDatagrams(d3, r2[1..], now, spawnOk) == d3;
    assert AllDatagrams(d2, r2, now, spawnOk) == d3;
    assert AllDatagrams(d1, r1, now, spawnOk) == d3;
  }

  /** The rest of an iteration with nothing else to do leaves a device that is up as it is. */
  lemma RestOfIteration(dev: Dev, now: int, spawnOk: bool, p: ArParams)
    requires IsUp(dev, p, spawnOk)
    ensures StepCm(dev, C.Timer, now, spawnOk) == dev
    ensures OnRtaTimer(Busy(dev, []), now) == Busy(dev, [])
    ensures ApplyAll(dev, [], now, spawnOk) == dev
  {
    hide R.Advance, L.TableFor, ConfigFor;
    Resting(dev.cm, now);
    X.DispatchKeep(dev, [], now, spawnOk);
    assert dev.rpc + [] == dev.rpc;
  }

  function BringUp(model: DeviceModel, mac: Mac, rt: bool, seed: Uuid, req: ConnectReq, p: ArParams, from: C.Addr,
                   now: int, spawnOk: bool): Run
  {
    Then(Start(model, mac, rt, seed), Arrivals([], [], Conversation(req, p, from), [], now, spawnOk))
  }

  /** For every device, every Connect it accepts and every time: one iteration that finds the conversation
      brings it from power-on to Data with the negotiated parameters and an open alarm channel. */
  lemma ComesUp(model: DeviceModel, mac: Mac, rt: bool, seed: Uuid, req: ConnectReq, from: C.Addr, now: int, spawnOk: bool)
    requires Validate(req, model).Ok?
    ensures var p := Validate(req, model).value;
      var dev := After(BringUp(model, mac, rt, seed, req, p, from, now, spawnOk));
      IsUp(dev, p, spawnOk) && dev.cm.ar.model == model && dev.rt == rt
  {
    hide Validate, StepCm, IsUp, AllDatagrams, Conversation, OnRtaTimer, D.Infos;
    var p := Validate(req, model).value;
    var dev := NewDevice(model, mac, rt, seed);
    Talked(dev, req, from, now, spawnOk);
    var up := AllDatagrams(dev, Conversation(req, p, from), now, spawnOk);
    RestOfIteration(up, now, spawnOk, p);
    var arr := Arrivals([], [], Conversation(req, p, from), [], now, spawnOk);
    assert AllFrames(Busy(dev, []), [], now) == Busy(dev, []);
    assert Drain(Busy(dev, []), [], now) == Busy(dev, []);
    assert AllRtEvents(up, [], now, spawnOk) == up;
    assert Iterate(dev, arr) == up;
  }

  /** The device of a configuration, brought up by a controller asking for `req`. */
  ghost predicate Reaches(c: G.DeviceConfig, name: StationName, mac: Mac, req: ConnectReq, seed: Uuid, from: C.Addr, now: int)
    requires |c.derived| == |c.submodules|
  {
    var model := K.ModelOf(c, name, mac);
    && Validate(req, model).Ok?
    && var p := Validate(req, model).value;
       var dev := After(BringUp(model, mac, true, seed, req, p, from, now, true));
       dev.cm.ar.state.Data? && dev.alarm.Some? && dev.runner && dev.cells == Some(p)
  }

  lemma AcceptedReaches(c: G.DeviceConfig, name: StationName, mac: Mac, req: ConnectReq, seed: Uuid, from: C.Addr, now: int)
    requires |c.derived| == |c.submodules|
    requires var model := K.ModelOf(c, name, mac);
      Validate(req, model).Ok? && L.TableFor(Validate(req, model).value, model).Ok?
    ensures Reaches(c, name, mac, req, seed, from, now)
  {
    hide Validate, After, K.ModelOf, L.TableFor;
    var model := K.ModelOf(c, name, mac);
    var p := Validate(req, model).value;
    ComesUp(model, mac, true, seed, req, from, now, true);
    X.ImageLife(BringUp(model, mac, true, seed, req, p, from, now, true));
  }

  /** Every configuration that can be built, met by a controller that packs its data canonically, reaches
      Data with its RT thread and its cyclic image in place. */
  lemma EveryConfigComesUp(c: G.DeviceConfig, name: StationName, mac: Mac, ar: ArBlockReq, seed: Uuid, from: C.Addr, now: int)
    requires G.Buildable(c.submodules) && c.derived == G.DerivedAll(c.submodules)
    requires ar.arType == 1 && ar.arUuid != NIL_UUID
    ensures var model := K.ModelOf(c, name, mac);
      var packed := K.PackPlaces(K.Places(model.slots));
      && packed.inOff <= 1440 && packed.outOff <= 1440
      && Reaches(c, name, mac, K.CanonicalReq(model, ar), seed, from, now)
  {
    hide Reaches, Validate, K.CanonicalReq, K.PackPlaces, K.ModelOf, L.TableFor, G.Buildable, K.Places, G.CrLengths;
    K.BuiltConfigConnects(c, name, mac, ar);
    AcceptedReaches(c, name, mac, K.CanonicalReq(K.ModelOf(c, name, mac), ar), seed, from, now);
  }

  /** Cells are documented to exist in Data only. For every device whose layout can be built: brought up with
      an RT thread that cannot be started, and shut down, it is `Idle` and the cells are still there. */
  lemma CellsOutliveData(model: DeviceModel, mac: Mac, seed: Uuid, req: ConnectReq, from: C.Addr, now: int)
    requires Validate(req, model).Ok? && L.TableFor(Validate(req, model).value, model).Ok?
    ensures var p := Validate(req, model).value;
      var dev := After(ThenShutdown(BringUp(model, mac, true, seed, req, p, from, now, false), now));
      dev.cm.ar.state.Idle? && dev.cells.Some?
  {
    hide Validate, L.TableFor, Conversation, Iterate;
    var p := Validate(req, model).value;
    var run := BringUp(model, mac, true, seed, req, p, from, now, false);
    ComesUp(model, mac, true, seed, req, from, now, false);
    ShutDown(After(run), now);
    X.ImageLife(ThenShutdown(run, now));
  }

  lemma ShutDown(dev: Dev, now: int)
    requires dev.cm.ar.state.Data?
    ensures var dev' := Devices.Shutdown(dev, now); dev'.cm.ar.state.Idle? && dev'.spawned == dev.spawned
  {
    hide Dispatch, R.Advance, ErrRtaPdu, A.Inv;
    var announced := dev.(log := dev.log + Announcement(dev, Status.Shutdown));
    var s := R.AdvanceShifts(announced.cm, C.Abandon(Status.Shutdown), now);
    var (cm', out) := R.Advance(announced.cm, C.Abandon(Status.Shutdown), now);
    var dev1 := announced.(cm := cm', rpc := announced.rpc + out.send);
    X.DispatchEnd(dev1, out.notify, now, false);
    GivenUp(announced.cm, now);
    assert StepCm(announced, C.Abandon(Status.Shutdown), now, false) == Dispatch(dev1, out.notify, now, false);
  }

  lemma GivenUp(cm: R.LiveCm, now: int)
    requires cm.ar.state.Data?
    ensures R.Advance(cm, C.Abandon(Status.Shutdown), now).0.ar.state.Idle?
  {
    hide C.Inv, C.Apply;
    EventAr(cm, A.Abort(Status.Shutdown), now);
  }

  // --- a diagnosis the controller never hears of -------------------------------------------------

  /** A diagnosis raised on a device that is up, on a slot it knows, towards a controller that takes less
      than 30 octets: active, refused, and the AR and the channel's queue as they were. */
  lemma RaisedInVain(dev: Dev, p: ArParams, spawnOk: bool, d: D.ActiveDiagnosis, now: int)
    requires IsUp(dev, p, spawnOk) && p.maxAlarmDataLengthRemote < X.DIAGNOSIS_LEN
    requires D.Knows(dev.diag, d.slot) && dev.diag.active == map[]
    ensures var b := Drain(Busy(dev, []), [Raise(d)], now);
      && b.pending == [] && b.dev.cm == dev.cm && b.dev.diag.active != map[]
      && b.dev.alarm.Some? && b.dev.alarm.value.state.Idle?
  {
    hide R.Advance, L.TableFor, ConfigFor, D.ActiveList, D.ProblemIndicator, D.BuildNotification, C.Inv;
    var (diag, n) := D.Raise(dev.diag, d);
    var info := D.Info(dev.diag.submodules, d.slot).value;
    assert D.KeyOf(d.(direction := info.direction)) in diag.active;
    X.NotesArePlain(dev.diag, Raise(d));
    RefusedQuietly(dev.(diag := diag), p, n.value, now);
    assert [Raise(d)][1..] == [];
    var b := OnCommand(Busy(dev, []), Raise(d), now);
    assert AllCommands(b, [], now) == b;
  }

  lemma RefusedQuietly(dev: Dev, p: ArParams, n: Rta.AlarmNotification, now: int)
    requires dev.alarm == Some(NewChannel(ConfigFor(p, dev.mac))) && p.maxAlarmDataLengthRemote < X.DIAGNOSIS_LEN
    requires n.data.Channel?
    ensures var (dev', acts) := QueueNotification(dev, n, now);
      && acts == [] && dev'.cm == dev.cm && dev'.diag == dev.diag
      && dev'.alarm.Some? && dev'.alarm.value.state.Idle?
  {
  }

  /** An iteration that finds only commands leaves what draining them left, as long as nothing is due. */
  lemma CommandsOnly(dev: Dev, cmds: seq<DiagCommand>, now: int, spawnOk: bool)
    requires var b := Drain(Busy(dev, []), cmds, now);
      b.pending == [] && b.dev.cm.ar.state.Data? && b.dev.alarm.Some? && b.dev.alarm.value.state.Idle?
    ensures var b := Drain(Busy(dev, []), cmds, now);
      var dev' := Iterate(dev, Arrivals([], cmds, [], [], now, spawnOk));
      dev'.cm == b.dev.cm && dev'.diag == b.dev.diag && dev'.alarm == b.dev.alarm
  {
    hide Drain, R.Advance, StepCm;
    var b := Drain(Busy(dev, []), cmds, now);
    assert AllFrames(Busy(dev, []), [], now) == Busy(dev, []);
    assert AllDatagrams(b.dev, [], now, spawnOk) == b.dev;
    assert AllRtEvents(b.dev, [], now, spawnOk) == b.dev;
    QuietTimer(b.dev, now, spawnOk);
    assert OnRtaTimer(Busy(b.dev, []), now) == Busy(b.dev, []);
    assert ApplyAll(b.dev, [], now, spawnOk) == b.dev;
  }

  lemma QuietTimer(dev: Dev, now: int, spawnOk: bool)
    requires dev.cm.ar.state.Data?
    ensures StepCm(dev, C.Timer, now, spawnOk) == dev
  {
    hide R.Advance;
    Resting(dev.cm, now);
    X.DispatchKeep(dev, [], now, spawnOk);
    assert dev.rpc + [] == dev.rpc;
  }

  /** The run of a device brought up and then told of a diagnosis. */
  function RaiseOnce(up: Run, d: D.ActiveDiagnosis, now: int): Run {
    Then(up, Arrivals([], [Raise(d)], [], [], now, true))
  }

  /** For every device, every Connect it accepts from a controller that takes less than 30 octets of alarm
      data, and every diagnosis on a slot it knows: brought up and told of it, the device is in Data with the
      diagnosis active, and a controller that hears everything sent and queued knows of nothing. */
  lemma DiagnosisLost(model: DeviceModel, mac: Mac, rt: bool, seed: Uuid, req: ConnectReq, from: C.Addr, now: int,
                      d: D.ActiveDiagnosis)
    requires Validate(req, model).Ok? && Validate(req, model).value.maxAlarmDataLengthRemote < X.DIAGNOSIS_LEN
    requires D.Knows(D.FromModel(model), d.slot)
    ensures var p := Validate(req, model).value;
      var dev := After(RaiseOnce(BringUp(model, mac, rt, seed, req, p, from, now, true), d, now));
      && dev.cm.ar.state.Data? && dev.alarm.Some? && dev.diag.active != map[]
      && X.Known(dev) == map[]
  {
    hide Validate, Iterate, Conversation, D.Infos, Drain, X.Heard, D.LearnAll, D.Info;
    var p := Validate(req, model).value;
    var run := BringUp(model, mac, rt, seed, req, p, from, now, true);
    var dev := After(run);
    ComesUp(model, mac, rt, seed, req, from, now, true);
    StoreUntouched(model, mac, rt, seed, req, from, now, true);
    RaisedInVain(dev, p, true, d, now);
    CommandsOnly(dev, [Raise(d)], now, true);
    X.ControllerMirror(RaiseOnce(run, d, now));
  }

  lemma StoreUntouched(model: DeviceModel, mac: Mac, rt: bool, seed: Uuid, req: ConnectReq, from: C.Addr, now: int,
                       spawnOk: bool)
    requires Validate(req, model).Ok?
    ensures var p := Validate(req, model).value;
      After(BringUp(model, mac, rt, seed, req, p, from, now, spawnOk)).diag == D.FromModel(model)
  {
    hide Validate, StepCm, AllDatagrams, Conversation, D.Infos, OnRtaTimer;
    var p := Validate(req, model).value;
    var dev := NewDevice(model, mac, rt, seed);
    X.StartKeeps(model, mac, rt, seed);
    var ds := Conversation(req, p, from);
    Talked(dev, req, from, now, spawnOk);
    DatagramsKeepStore(dev, ds, now, spawnOk);
    var up := AllDatagrams(dev, ds, now, spawnOk);
    RestOfIteration(up, now, spawnOk, p);
    assert AllFrames(Busy(dev, []), [], now) == Busy(dev, []);
    assert Drain(Busy(dev, []), [], now) == Busy(dev, []);
    assert AllRtEvents(up, [], now, spawnOk) == up;
  }

  lemma {:induction false} DatagramsKeepStore(dev: Dev, ds: seq<(C.Packet, C.Addr)>, now: int, spawnOk: bool)
    requires X.Inv(dev, [])
    ensures AllDatagrams(dev, ds, now, spawnOk).diag == dev.diag
    decreases |ds|
  {
    hide X.Inv, StepCm, X.Published;
    if ds != [] {
      var inp := C.Datagram(ds[0].0, ds[0].1);
      X.StepCmKeeps(dev, [], inp, now, spawnOk);
      DatagramsKeepStore(StepCm(dev, inp, now, spawnOk), ds[1..], now, spawnOk);
    }
  }
}
