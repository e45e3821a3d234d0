/** The device's acyclic loop as an object that changes in place (crates/pnio/src/device/mod.rs). Each
    method is proved to take the step the functions of `Devices` describe, which is what the theorems
    of `DeviceRuns` speak of. Frames and datagrams sent are recorded in `log` and `rpc`. */
module DeviceMachine {
  import opened Wire
  import opened Rta
  import opened Status
  import opened Connect
  import opened AlarmChannels
  import opened AlarmMirror
  import S = Devices
  import D = Diag
  import C = Cms
  import R = CmRuns
  import L = Layout
  import CM = CmMachine
  import AM = AlarmMachine
  import DM = DiagMachine

  class Device {
    const mac: Mac
    const rt: bool
    const cm: CM.Cm
    const diag: DM.DiagStore
    var alarm: AM.AlarmChannel?
    var epoch: nat
    var nextId: u32
    var active: seq<D.ActiveDiagnosis>
    var problem: bool
    var runner: bool
    var cells: Option<ArParams>
    var rxNoChannel: nat
    var log: seq<S.Entry>
    var rpc: seq<C.Outgoing>
    ghost var spawned: Option<bool>
    ghost var produced: seq<S.Batch>

    ghost predicate Valid()
      reads this, cm, cm.ar
    {
      cm.Valid()
    }

    ghost function Repr(): set<object>
      reads this
    {
      {this, cm, cm.ar, diag} + (if alarm == null then {} else {alarm})
    }

    ghost function Value(): S.Dev
      requires Valid()
      reads this, cm, cm.ar, diag, alarm
    {
      S.Dev(mac, rt, cm.Value(), diag.Value(), if alarm == null then None else Some(alarm.Value()), epoch, nextId,
            active, problem, runner, cells, spawned, rxNoChannel, log, rpc, produced)
    }

    constructor (model: DeviceModel, mac: Mac, rt: bool, activitySeed: Uuid)
      ensures Valid() && fresh(Repr() - {this}) && Value() == S.NewDevice(model, mac, rt, activitySeed)
    {
      this.mac := mac;
      this.rt := rt;
      cm := new CM.Cm(model, activitySeed);
      diag := new DM.DiagStore(model);
      alarm := null;
      epoch := 0;
      nextId := 0;
      active := [];
      problem := false;
      runner := false;
      cells := None;
      rxNoChannel := 0;
      log := [];
      rpc := [];
      spawned := None;
      produced := [];
    }

    // --- diagnosis ----------------------------------------------------------------------

    method PublishDiagState()
      requires Valid()
      modifies this`active, this`problem
      ensures Valid() && Value() == S.Publish(old(Value()))
    {
      hide C.Inv, D.ActiveList, D.ProblemIndicator;
      active := diag.Active();
      problem := diag.ProblemIndicator();
    }

    /** No channel drops the notification; the store keeps the diagnosis for the next AR. */
    method QueueNotification(n: AlarmNotification, now: int) returns (acts: seq<AlarmAction>)
      requires Valid()
      modifies this`nextId, alarm
      ensures Valid() && (Value(), acts) == S.QueueNotification(old(Value()), n, now) && alarm == old(alarm)
    {
      hide C.Inv, Enqueue;
      if alarm == null { return []; }
      var s := alarm.NextSpecifierSequence();
      var r := alarm.Enqueue(AlarmReq(nextId, Low, S.Stamped(n, s)), now);
      match r
      case Ok(actions) =>
        nextId := (nextId + 1) % 0x1_0000_0000;
        acts := actions;
      case Err(_) =>
        acts := [];
    }

    ghost method Produce(e: nat, acts: seq<AlarmAction>)
      requires Valid()
      modifies this`produced
      ensures Valid() && Value() == S.Produce(old(Value()), (e, acts))
    {
      hide C.Inv;
      if acts != [] { produced := produced + [(e, acts)]; }
    }

    /** The channel open now. */
    function Live(): Option<nat>
      reads this
    {
      if alarm != null then Some(epoch) else None
    }

    // --- the AR's life ----------------------------------------------------------------------

    method StartRunner(spawnOk: bool)
      requires Valid()
      modifies this`cells, this`runner, this`spawned
      ensures Valid() && Value() == S.StartRunner(old(Value()), spawnOk)
    {
      hide C.Inv, L.TableFor;
      if !rt || cm.ar.ctx.None? { return; }
      var params := cm.ar.ctx.value.params;
      var layout := L.FromAr(params, cm.ar.model);
      if layout.Err? { return; }
      cells := Some(params);
      if spawnOk { runner := true; }
      spawned := Some(spawnOk);
    }

    method StopRunner()
      requires Valid()
      modifies this`cells, this`runner
      ensures Valid() && Value() == S.StopRunner(old(Value()))
    {
      hide C.Inv;
      if runner {
        runner := false;
        cells := None;
      }
    }

    method OpenAlarmChannel()
      requires Valid()
      modifies this`alarm, this`epoch
      ensures Valid() && Value() == S.OpenChannel(old(Value()))
      ensures alarm == old(alarm) || fresh(alarm)
    {
      hide C.Inv;
      if cm.ar.ctx.None? { return; }
      epoch := epoch + 1;
      alarm := new AM.AlarmChannel(S.ConfigFor(cm.ar.ctx.value.params, mac));
    }

    /** A batch whose channel is gone is dropped whole. */
    method ApplyAlarmActions(actions: seq<AlarmAction>, e: nat, now: int, spawnOk: bool)
      requires Valid()
      modifies Repr()
      ensures Valid() && fresh(Repr() - old(Repr()))
      ensures Value() == S.ApplyBatch(old(Value()), (e, actions), now, spawnOk)
      decreases if HasAbort(actions) then 1 else 0, 4
    {
      hide C.Inv, S.AbortWithErrRta;
      if alarm == null || epoch != e { return; }
      ghost var before := Value();
      assert actions[0..] == actions;
      for i := 0 to |actions|
        invariant Valid() && fresh(Repr() - old(Repr()))
        invariant S.ActAll(Value(), e, actions[i..], now, spawnOk) == S.ActAll(before, e, actions, now, spawnOk)
      {
        assert actions[i..][1..] == actions[i + 1..] && actions[i] in actions;
        match actions[i]
        case Send(pdu) => log := log + [S.Frame(e, Live(), pdu)];
        case Abort(reason) =>
          log := log + [S.TornDown(e, Live(), reason)];
          AbortWithErrRta(reason, now, spawnOk);
        case Acked(_, _) =>
        case UnexpectedRx =>
      }
    }

    /** Announces the abort to the controller unless the controller aborted first. */
    method AbortWithErrRta(reason: AbortReason, now: int, spawnOk: bool)
      requires Valid()
      modifies Repr()
      ensures Valid() && fresh(Repr() - old(Repr()))
      ensures Value() == S.AbortWithErrRta(old(Value()), reason, now, spawnOk)
      decreases 1, 2
    {
      hide C.Inv, R.Advance, S.Dispatch;
      var code := S.Code2(reason);
      if code.Some? && alarm != null {
        var pdu := alarm.ErrRta(StatusWord(0xCF, 0x81, 0xFD, code.value));
        log := log + [S.ErrRta(epoch, Live(), reason, pdu)];
      } else {
        assert log + [] == log;
      }
      var out := cm.Abort(reason, now);
      Dispatch(out, now, spawnOk);
    }

    method Dispatch(out: C.Output, now: int, spawnOk: bool)
      requires Valid()
      modifies Repr()
      ensures Valid() && fresh(Repr() - old(Repr()))
      ensures Value() == S.Dispatch(old(Value()).(rpc := old(rpc) + out.send), out.notify, now, spawnOk)
      decreases 1, 0, 2
    {
      hide C.Inv, S.OnNotice;
      rpc := rpc + out.send;
      ghost var before := Value();
      assert out.notify[0..] == out.notify;
      for i := 0 to |out.notify|
        invariant Valid() && fresh(Repr() - old(Repr()))
        invariant S.Dispatch(Value(), out.notify[i..], now, spawnOk) == S.Dispatch(before, out.notify, now, spawnOk)
      {
        assert out.notify[i..][1..] == out.notify[i + 1..];
        OnNotice(out.notify[i], now, spawnOk);
      }
    }

    method OnNotice(n: C.Notice, now: int, spawnOk: bool)
      requires Valid()
      modifies Repr()
      ensures Valid() && fresh(Repr() - old(Repr()))
      ensures Value() == S.OnNotice(old(Value()), n, now, spawnOk)
      decreases 1, 0, 1
    {
      hide C.Inv, S.ReplayAll, S.StartRunner, S.OpenChannel, S.Publish, D.Replay, D.Announce;
      if n.0.Data? && n.1.None? {
        StartRunner(spawnOk);
        OpenAlarmChannel();
        var ns := diag.Replay();
        ReplayAll(ns, now, spawnOk);
        PublishDiagState();
      } else if n.0.Idle? && n.1.Some? {
        StopRunner();
        alarm := null;
      }
    }

    /** Each notification is queued and its frames sent at once. */
    method ReplayAll(ns: seq<AlarmNotification>, now: int, spawnOk: bool)
      requires Valid()
      modifies Repr()
      ensures Valid() && fresh(Repr() - old(Repr()))
      ensures Value() == S.ReplayAll(old(Value()), ns, old(epoch), now, spawnOk)
      decreases 1, 0, 0
    {
      hide C.Inv, S.ApplyBatch, S.QueueNotification;
      var e := epoch;
      ghost var before := Value();
      assert ns[0..] == ns;
      for i := 0 to |ns|
        invariant Valid() && fresh(Repr() - old(Repr()))
        invariant S.ReplayAll(Value(), ns[i..], e, now, spawnOk) == S.ReplayAll(before, ns, e, now, spawnOk)
      {
        assert ns[i..][1..] == ns[i + 1..];
        var acts := QueueNotification(ns[i], now);
        Produce(e, acts);
        ApplyAlarmActions(acts, e, now, spawnOk);
      }
    }

    // --- one loop iteration -------------------------------------------------------------------

    /** Collects a channel's actions, to be applied last. */
    method Push(pending: seq<S.Batch>, acts: seq<AlarmAction>) returns (more: seq<S.Batch>)
      requires Valid()
      modifies this`produced
      ensures Valid() && S.Busy(Value(), more) == S.Push(old(Value()), pending, acts)
    {
      hide C.Inv;
      Produce(epoch, acts);
      more := if acts == [] then pending else pending + [(epoch, acts)];
    }

    method OnEthernet(frame: Bytes, pending: seq<S.Batch>, now: int) returns (more: seq<S.Batch>)
      requires Valid()
      modifies this`produced, this`rxNoChannel, alarm
      ensures Valid() && S.Busy(Value(), more) == S.OnEthernet(S.Busy(old(Value()), pending), frame, now)
      ensures alarm == old(alarm)
    {
      hide C.Inv, S.IsAlarmFrame, OnFrame, S.Push;
      if !S.IsAlarmFrame(frame) || |frame| < 6 || frame[..6] != mac { return pending; }
      if alarm == null {
        rxNoChannel := rxNoChannel + 1;
        return pending;
      }
      var acts := alarm.OnFrame(frame, now);
      more := Push(pending, acts);
    }

    method OnCommand(cmd: S.DiagCommand, pending: seq<S.Batch>, now: int) returns (more: seq<S.Batch>)
      requires Valid()
      modifies this`produced, this`nextId, diag, alarm
      ensures Valid() && S.Busy(Value(), more) == S.OnCommand(S.Busy(old(Value()), pending), cmd, now)
      ensures alarm == old(alarm)
    {
      hide C.Inv, D.Raise, D.ClearOne, S.QueueNotification, S.Push;
      var n;
      match cmd {
        case Raise(d) => n := diag.Raise(d);
        case Clear(slot, channel, error) => n := diag.Clear(slot, channel, error);
      }
      if n.None? { return pending; }
      var acts := QueueNotification(n.value, now);
      more := Push(pending, acts);
    }

    /** Ethernet frames, in order of arrival. */
    method DrainFrames(frames: seq<Bytes>, now: int) returns (pending: seq<S.Batch>)
      requires Valid()
      modifies this`produced, this`rxNoChannel, alarm
      ensures Valid() && S.Busy(Value(), pending) == S.AllFrames(S.Busy(old(Value()), []), frames, now)
      ensures alarm == old(alarm)
    {
      hide C.Inv, S.OnEthernet;
      pending := [];
      assert frames[0..] == frames;
      for i := 0 to |frames|
        invariant Valid() && alarm == old(alarm)
        invariant S.AllFrames(S.Busy(Value(), pending), frames[i..], now) == S.AllFrames(S.Busy(old(Value()), []), frames, now)
      {
        assert frames[i..][1..] == frames[i + 1..];
        pending := OnEthernet(frames[i], pending, now);
      }
    }

    /** The application's commands; the new state is published if there were any. */
    method DrainDiagQueue(cmds: seq<S.DiagCommand>, pending: seq<S.Batch>, now: int) returns (more: seq<S.Batch>)
      requires Valid()
      modifies this`produced, this`nextId, this`active, this`problem, diag, alarm
      ensures Valid() && S.Busy(Value(), more) == S.Drain(S.Busy(old(Value()), pending), cmds, now)
      ensures alarm == old(alarm)
    {
      hide C.Inv, S.OnCommand, S.Publish;
      more := pending;
      if cmds == [] { return; }
      assert cmds[0..] == cmds;
      for i := 0 to |cmds|
        invariant Valid() && alarm == old(alarm)
        invariant S.AllCommands(S.Busy(Value(), more), cmds[i..], now) == S.AllCommands(S.Busy(old(Value()), pending), cmds, now)
      {
        assert cmds[i..][1..] == cmds[i + 1..];
        more := OnCommand(cmds[i], more, now);
      }
      PublishDiagState();
    }

    method DrainDatagrams(ds: seq<(C.Packet, C.Addr)>, now: int, spawnOk: bool)
      requires Valid()
      modifies Repr()
      ensures Valid() && fresh(Repr() - old(Repr()))
      ensures Value() == S.AllDatagrams(old(Value()), ds, now, spawnOk)
    {
      hide C.Inv, S.StepCm;
      assert ds[0..] == ds;
      for i := 0 to |ds|
        invariant Valid() && fresh(Repr() - old(Repr()))
        invariant S.AllDatagrams(Value(), ds[i..], now, spawnOk) == S.AllDatagrams(old(Value()), ds, now, spawnOk)
      {
        assert ds[i..][1..] == ds[i + 1..];
        OnDatagram(ds[i].0, ds[i].1, now, spawnOk);
      }
    }

    /** A datagram whose envelope does not parse is dropped. */
    method OnDatagram(p: C.Packet, from: C.Addr, now: int, spawnOk: bool)
      requires Valid()
      modifies Repr()
      ensures Valid() && fresh(Repr() - old(Repr()))
      ensures Value() == S.StepCm(old(Value()), C.Datagram(p, from), now, spawnOk)
    {
      hide C.Inv, R.Advance, C.HandleDatagram, S.OnNotice;
      var out := cm.HandleDatagram(p, from, now);
      if out.Some? {
        Dispatch(out.value, now, spawnOk);
      } else {
        assert rpc + [] == rpc;
      }
    }

    /** Events are taken only while the RT thread is there. */
    method DrainRtEvents(evs: seq<S.RtEvent>, now: int, spawnOk: bool)
      requires Valid()
      modifies Repr()
      ensures Valid() && fresh(Repr() - old(Repr()))
      ensures Value() == S.AllRtEvents(old(Value()), evs, now, spawnOk)
    {
      hide C.Inv, S.AbortWithErrRta;
      assert evs[0..] == evs;
      var i := 0;
      while i < |evs| && runner
        invariant i <= |evs| && Valid() && fresh(Repr() - old(Repr()))
        invariant S.AllRtEvents(Value(), evs[i..], now, spawnOk) == S.AllRtEvents(old(Value()), evs, now, spawnOk)
      {
        assert evs[i..][1..] == evs[i + 1..];
        match evs[i] {
          case WatchdogExpired => AbortWithErrRta(RtWatchdog, now, spawnOk);
          case SocketError => AbortWithErrRta(RtSocket, now, spawnOk);
          case SchedWarning =>
          case Exited =>
        }
        i := i + 1;
      }
    }

    method OnCmTimer(now: int, spawnOk: bool)
      requires Valid()
      modifies Repr()
      ensures Valid() && fresh(Repr() - old(Repr()))
      ensures Value() == S.StepCm(old(Value()), C.Timer, now, spawnOk)
    {
      hide C.Inv, R.Advance, S.Dispatch;
      var out := cm.Tick(now);
      Dispatch(out, now, spawnOk);
    }

    method OnRtaTimer(pending: seq<S.Batch>, now: int) returns (more: seq<S.Batch>)
      requires Valid()
      modifies this`produced, alarm
      ensures Valid() && S.Busy(Value(), more) == S.OnRtaTimer(S.Busy(old(Value()), pending), now)
      ensures alarm == old(alarm)
    {
      hide C.Inv, OnTick, S.Push;
      if alarm == null { return pending; }
      var acts := alarm.OnTick(now);
      more := Push(pending, acts);
    }

    method ApplyPending(pending: seq<S.Batch>, now: int, spawnOk: bool)
      requires Valid()
      modifies Repr()
      ensures Valid() && fresh(Repr() - old(Repr()))
      ensures Value() == S.ApplyAll(old(Value()), pending, now, spawnOk)
    {
      hide C.Inv, S.ApplyBatch;
      assert pending[0..] == pending;
      for i := 0 to |pending|
        invariant Valid() && fresh(Repr() - old(Repr()))
        invariant S.ApplyAll(Value(), pending[i..], now, spawnOk) == S.ApplyAll(old(Value()), pending, now, spawnOk)
      {
        assert pending[i..][1..] == pending[i + 1..];
        ApplyAlarmActions(pending[i].1, pending[i].0, now, spawnOk);
      }
    }

    /** Actions are collected along the way and applied last, under the channel that asked for them. */
    method Step(arr: S.Arrivals)
      requires Valid()
      modifies Repr()
      ensures Valid() && fresh(Repr() - old(Repr()))
      ensures Value() == S.Iterate(old(Value()), arr)
    {
      hide Value, Valid, S.AllFrames, S.Drain, S.AllDatagrams, S.AllRtEvents, S.StepCm, S.OnRtaTimer, S.ApplyAll;
      var pending := DrainFrames(arr.frames, arr.now);
      pending := DrainDiagQueue(arr.cmds, pending, arr.now);
      DrainDatagrams(arr.datagrams, arr.now, arr.spawnOk);
      DrainRtEvents(arr.events, arr.now, arr.spawnOk);
      OnCmTimer(arr.now, arr.spawnOk);
      pending := OnRtaTimer(pending, arr.now);
      ApplyPending(pending, arr.now, arr.spawnOk);
    }

    method Shutdown(now: int)
      requires Valid()
      modifies Repr()
      ensures Valid() && fresh(Repr() - old(Repr()))
      ensures Value() == S.Shutdown(old(Value()), now)
    {
      hide C.Inv, S.AbortWithErrRta;
      if cm.ar.state.Idle? { return; }
      AbortWithErrRta(Status.Shutdown, now, false);
    }
  }
}
