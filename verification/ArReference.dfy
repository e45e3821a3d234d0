/** The application relation told from what can be observed of it (crates/pnio/src/cm/ar.rs): a reference
    that keeps no state machine, only the Connect that established the AR, the records written since, the
    calls placed and when the running timer was last started. Over every run the machine of `Ars` answers
    every event exactly as this reference does. */
module ArReference {
  import opened Wire
  import opened Status
  import opened Connect
  import opened ConnectRes
  import opened Control
  import opened Records
  import opened Ars

  /** The timer an observer knows to be running, and since when. */
  datatype Clock = Off | Activity(since: int) | Calling(since: int)

  predicate Called(actions: seq<Action>) { exists a <- actions :: a.CallController? }

  function Tock(c: Clock, ev: Event, now: int, actions: seq<Action>): Clock {
    if Established(actions) then Activity(now)
    else if WentDown(actions) || Notify(Data, None) in actions then Off
    else if Called(actions) then Calling(now)
    else if c.Activity? && ev.Writing? && Answered(actions) then Activity(now)
    else c
  }

  function ClockOf(model: DeviceModel, run: Run): Clock {
    match run
    case Start => Off
    case Then(before, ev, now) => Tock(ClockOf(model, before), ev, now, Last(model, run))
  }

  /** The life of the current AR, its running timer, and how often the controller was called for it. */
  datatype Known = Known(life: Option<Life>, clock: Clock, calls: nat)

  function KnownOf(model: DeviceModel, run: Run): Known {
    Known(LifeOf(model, run), ClockOf(model, run), |Seen(model, run).calls|)
  }

  // --- the reference ------------------------------------------------------------------

  /** A Connect with no AR in the way. */
  ghost function Fresh(req: ConnectReq, model: DeviceModel): Move {
    ValidateExact(req, model);
    if Acceptable(req, model) then ComeUp(BuildConnectRes(Validate(req, model).value, model))
    else Served(Validate(req, model).error, [])
  }

  ghost function OnConnecting(life: Option<Life>, req: ConnectReq, model: DeviceModel): Move {
    if life.None? then Fresh(req, model)
    else
      var was := life.value.req;
      if req.ar.arUuid == was.ar.arUuid && req.ar.sessionKey == was.ar.sessionKey
      then Served(OK, var p := Validate(was, model); if p.Ok? then BuildConnectRes(p.value, model) else [])
      else if req.ar.arUuid == was.ar.arUuid || req.ar.initiatorObjectUuid == was.ar.initiatorObjectUuid
      then match Fresh(req, model)
           case ComeUp(blocks) => Reborn(blocks)
           case m => Replaced(m.status)
      else Served(CONNECT_AR_ALREADY_EXISTS, [])
  }

  /** The data of all records, end to end. */
  function Joined(rs: seq<Record>): Bytes { if rs == [] then [] else rs[0].data + Joined(rs[1..]) }

  function OnWriting(life: Option<Life>, records: seq<Record>): Move {
    if life.None? then Served(CONTROL_WRONG_STATE, [])
    else
      var all := life.value.records + records;
      if exists r <- records :: r.arUuid != life.value.req.ar.arUuid then Served(WRITE_WRONG_AR, [])
      else if |all| > 64 || |Joined(all)| > 65536 then Served(WRITE_RESOURCE_UNAVAILABLE, [])
      else Served(OK, BuildWriteRes(records))
  }

  /** A control block answered, naming the AR and session of the request. */
  function DoneBlock(blockType: u16, req: ControlBlock): Bytes {
    WriteControl(ControlBlock(blockType, req.arUuid, req.sessionKey, CMD_DONE, 0))
  }

  function ReadyCall(ar: ArBlockReq): Bytes {
    WriteControl(ControlBlock(REQ_APP_READY, ar.arUuid, ar.sessionKey, CMD_APPLICATION_READY, 0))
  }

  function OnTicking(k: Known, now: int): Move {
    if k.life.None? then Still
    else
      var ar := k.life.value.req.ar;
      match k.clock
      case Off => Still
      case Activity(since) => if now >= since + 100 * ar.activityTimeoutFactor then GoDown(ActivityTimeout) else Still
      case Calling(since) =>
        if now < since + 1000 then Still
        else if k.calls < 3 then Retry(ReadyCall(ar)) else GoDown(AppReadyFailed)
  }

  /** The move an event makes, from what was observed before it. */
  ghost function Reference(model: DeviceModel, k: Known, ev: Event, now: int): Move {
    match ev
    case Connecting(req) => OnConnecting(k.life, req, model)
    case Writing(records) => OnWriting(k.life, records)
    case PrmEnd(control) =>
      if k.life.None? || control.arUuid != k.life.value.req.ar.arUuid then Served(CONTROL_WRONG_STATE, [])
      else if k.clock.Activity? then StartCalling(DoneBlock(RES_PRM_END, control), ReadyCall(k.life.value.req.ar))
      else Served(OK, DoneBlock(RES_PRM_END, control))
    case Release(control) =>
      if k.life.None? then Served(OK, DoneBlock(RES_RELEASE, control))
      else if control.arUuid != k.life.value.req.ar.arUuid then Served(CONTROL_WRONG_STATE, [])
      else Released(DoneBlock(RES_RELEASE, control))
    case AppReadyRsp(status) =>
      if !k.clock.Calling? then Still else if status == OK then Run else GoDown(AppReadyRejected(status))
    case Tick => OnTicking(k, now)
    case Abort(reason) => if k.life.None? then Still else GoDown(reason)
  }

  function StateFor(k: Known): ArState {
    if k.life.None? then Idle
    else match k.clock case Off => Data case Activity(_) => Connected case Calling(_) => AppReadySent
  }

  // --- the machine agrees -------------------------------------------------------------

  function Deadline(c: Clock, calling: bool, wait: int): Option<int> {
    if calling then (if c.Calling? then Some(c.since + wait) else None)
    else if c.Activity? then Some(c.since + wait) else None
  }

  /** State and timers follow the observed life and clock. */
  predicate InTime(life: Option<Life>, c: Clock, ar: Ar) {
    && ar.state == StateFor(Known(life, c, 0)) && (life.None? ==> c.Off?)
    && ar.activityDeadline == Deadline(c, false, if life.Some? then 100 * life.value.req.ar.activityTimeoutFactor else 0)
    && ar.appReadyDeadline == Deadline(c, true, 1000)
  }

  /** The AR is what the observer makes of it. */
  predicate Agrees(k: Known, ar: Ar) {
    Explains(k.life, ar) && InTime(k.life, k.clock, ar) && (ar.state.AppReadySent? ==> k.calls == ar.attempts)
  }

  lemma {:induction false} JoinedSnoc(rs: seq<Record>, r: Record)
    ensures Joined(rs + [r]) == Joined(rs) + r.data
  {
    if rs == [] {
      assert rs + [r] == [r];
    } else {
      assert (rs + [r])[1..] == rs[1..] + [r];
      JoinedSnoc(rs[1..], r);
    }
  }

  lemma {:induction false} JoinedBytes(rs: seq<Record>)
    ensures |Joined(rs)| == DataBytes(rs)
  {
    if rs != [] {
      var init, r := rs[..|rs| - 1], rs[|rs| - 1];
      assert rs == init + [r];
      JoinedBytes(init);
      JoinedSnoc(init, r);
    }
  }

  /** The negotiated parameters an AR is recognised by are the request's own. */
  lemma KeptFields(req: ConnectReq, model: DeviceModel)
    requires Validate(req, model).Ok?
    ensures var p := Validate(req, model).value;
      && p.arUuid == req.ar.arUuid && p.sessionKey == req.ar.sessionKey
      && p.initiatorObjectUuid == req.ar.initiatorObjectUuid && p.activityTimeoutFactor == req.ar.activityTimeoutFactor
  {
    hide Validate;
    NegotiatedFields(req, model);
  }

  lemma ConnectAgrees(ar: Ar, req: ConnectReq, now: int, k: Known)
    requires Inv(ar) && Agrees(k, ar)
    ensures OnConnect(ar, req, now).1 == ActionsOf(OnConnecting(k.life, req, ar.model))
  {
    hide Validate, BuildConnectRes, ContextOk, TimersMatch, Acceptable;
    ValidateExact(req, ar.model);
    if k.life.Some? { KeptFields(k.life.value.req, ar.model); }
    assert OnConnect(ToIdle(ar), req, now) == Establish(ToIdle(ar), req, now);
  }

  lemma WriteAgrees(ar: Ar, records: seq<Record>, now: int, k: Known)
    requires Inv(ar) && Agrees(k, ar)
    ensures OnWrite(ar, records, now).1 == ActionsOf(OnWriting(k.life, records))
  {
    hide Validate, BuildConnectRes, BuildWriteRes, DataBytes, Joined;
    if k.life.Some? {
      KeptFields(k.life.value.req, ar.model);
      JoinedBytes(k.life.value.records + records);
    }
  }

  /** Any event is answered as the reference says. */
  lemma StepAgrees(ar: Ar, ev: Event, now: int, k: Known)
    requires Inv(ar) && Agrees(k, ar)
    ensures On(ar, ev, now).1 == ActionsOf(Reference(ar.model, k, ev, now))
  {
    hide Validate, BuildConnectRes, BuildWriteRes, OnConnect, OnWrite, OnConnecting, OnWriting, WriteControl, ContextOk;
    if k.life.Some? { KeptFields(k.life.value.req, ar.model); }
    match ev
    case Connecting(req) => ConnectAgrees(ar, req, now, k);
    case Writing(records) => WriteAgrees(ar, records, now, k);
    case _ =>
  }

  lemma ConnectInTime(ar: Ar, req: ConnectReq, now: int, life: Option<Life>, c: Clock)
    requires Inv(ar) && Explains(life, ar) && InTime(life, c, ar)
    ensures var (ar', actions) := OnConnect(ar, req, now);
      InTime(Live(life, Connecting(req), now, actions), Tock(c, Connecting(req), now, actions), ar')
  {
    hide Validate, BuildConnectRes, ContextOk, Explains;
    var (ar', actions) := OnConnect(ar, req, now);
    assert OnConnect(ToIdle(ar), req, now) == Establish(ToIdle(ar), req, now);
    if Validate(req, ar.model).Ok? {
      KeptFields(req, ar.model);
      if |actions| >= 2 { assert actions[|actions| - 1] == Notify(Connected, None); }
    } else if |actions| == 2 {
      assert actions[0] == Notify(Idle, Some(ControllerReconnect));
    }
  }

  lemma WriteInTime(ar: Ar, records: seq<Record>, now: int, life: Option<Life>, c: Clock)
    requires Inv(ar) && Explains(life, ar) && InTime(life, c, ar)
    ensures var (ar', actions) := OnWrite(ar, records, now);
      InTime(Live(life, Writing(records), now, actions), Tock(c, Writing(records), now, actions), ar')
  {
    hide Validate, BuildConnectRes, BuildWriteRes, ExceedsCap, ContextOk;
    var (ar', actions) := OnWrite(ar, records, now);
    if life.Some? { KeptFields(life.value.req, ar.model); }
    assert actions[0] in actions;
  }

  lemma StepInTime(ar: Ar, ev: Event, now: int, life: Option<Life>, c: Clock)
    requires Inv(ar) && Explains(life, ar) && InTime(life, c, ar)
    ensures var (ar', actions) := On(ar, ev, now); InTime(Live(life, ev, now, actions), Tock(c, ev, now, actions), ar')
  {
    hide OnConnect, OnWrite, Explains, AppReadyCall, WriteControl, ContextOk;
    var (ar', actions) := On(ar, ev, now);
    if ev.Connecting? {
      ConnectInTime(ar, ev.req, now, life, c);
    } else if ev.Writing? {
      WriteInTime(ar, ev.records, now, life, c);
    } else if |actions| > 0 {
      assert actions[0] in actions;
      if |actions| == 2 { assert actions[1] in actions; }
    }
  }

  lemma {:induction false} RunInTime(model: DeviceModel, run: Run)
    ensures InTime(LifeOf(model, run), ClockOf(model, run), After(model, run))
  {
    hide On;
    if run.Then? {
      hide InTime, Explains, Inv;
      RunInTime(model, run.before);
      ContextExplained(model, run.before);
      StepInTime(After(model, run.before), run.ev, run.now, LifeOf(model, run.before), ClockOf(model, run.before));
    }
  }

  /** Over every run: the AR's next actions, whatever the event, are those of the reference; and its state is
      the one the observations name. */
  lemma AnswersAsReference(model: DeviceModel, run: Run, ev: Event, now: int)
    ensures Last(model, Then(run, ev, now)) == ActionsOf(Reference(model, KnownOf(model, run), ev, now))
    ensures After(model, run).state == StateFor(KnownOf(model, run))
  {
    hide On, Reference, Explains, Inv;
    RunInTime(model, run);
    ContextExplained(model, run);
    Lifecycle(model, run);
    StepAgrees(After(model, run), ev, now, KnownOf(model, run));
  }
}
