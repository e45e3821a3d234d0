/** The application relation as an object that changes in place (crates/pnio/src/cm/ar.rs). Each
    handler is proved to take the step the functions of `Ars` describe. */
module ArMachine {
  import opened Wire
  import opened Status
  import opened Connect
  import opened ConnectRes
  import opened Control
  import opened Records
  import S = Ars

  class Ar {
    const model: DeviceModel
    var state: S.ArState
    var ctx: Option<S.Context>
    var attempts: nat
    var appReadyDeadline: Option<int>
    var activityDeadline: Option<int>

    ghost function Value(): S.Ar
      reads this
    {
      S.Ar.Ar(model, state, ctx, attempts, appReadyDeadline, activityDeadline)
    }

    ghost predicate Valid()
      reads this
    {
      S.Inv(Value())
    }

    constructor (model: DeviceModel)
      ensures Valid() && Value() == S.NewAr(model)
    {
      this.model := model;
      state := S.Idle;
      ctx := None;
      attempts := 0;
      appReadyDeadline := None;
      activityDeadline := None;
    }

    method On(ev: S.Event, now: int) returns (actions: seq<S.Action>)
      requires Valid()
      modifies this
      ensures Valid() && (Value(), actions) == S.On(old(Value()), ev, now)
    {
      hide S.OnConnect, S.OnWrite, S.OnPrmEnd, S.OnRelease, S.OnTick, S.Inv;
      S.StepKeepsInv(Value(), ev, now);
      ContextPresent();
      match ev
      case Connecting(req) => actions := HandleConnect(req, now);
      case Writing(records) => actions := HandleWrite(records, now);
      case PrmEnd(control) => actions := HandlePrmEnd(control, now);
      case Release(control) => actions := HandleRelease(control);
      case AppReadyRsp(status) => actions := HandleAppReadyRsp(status);
      case Tick => actions := HandleTick(now);
      case Abort(reason) =>
        if state.Idle? { return []; }
        var gone := GiveUp(reason);
        return [gone];
    }

    lemma ContextPresent()
      requires Valid()
      ensures S.HasContext(Value())
    {
    }

    /** A reconnect drops the stale AR and is then handled as in `Idle`. */
    method HandleConnect(req: ConnectReq, now: int) returns (actions: seq<S.Action>)
      requires S.HasContext(Value())
      modifies this
      ensures (Value(), actions) == S.OnConnect(old(Value()), req, now)
      decreases if state.Idle? then 0 else 1
    {
      hide Validate, BuildConnectRes;
      if state.Idle? {
        match Validate(req, model)
        case Err(status) => return [S.Respond(status, [])];
        case Ok(params) =>
          var res := BuildConnectRes(params, model);
          ctx := Some(S.Context(params, [], now, res));
          state := S.Connected;
          activityDeadline := Some(now + S.ACTIVITY_TIMEOUT_UNIT * params.activityTimeoutFactor);
          return [S.Respond(OK, res), S.Notify(S.Connected, None)];
      }
      var c := ctx.value;
      var sameAr := req.ar.arUuid == c.params.arUuid;
      var sameSession := req.ar.sessionKey == c.params.sessionKey;
      var sameInitiator := req.ar.initiatorObjectUuid == c.params.initiatorObjectUuid;
      if sameAr && sameSession { return [S.Respond(OK, c.connectRes)]; }
      if sameAr || sameInitiator {
        var gone := GiveUp(ControllerReconnect);
        var rest := HandleConnect(req, now);
        return [gone] + rest;
      }
      return [S.Respond(CONNECT_AR_ALREADY_EXISTS, [])];
    }

    method HandleWrite(records: seq<Record>, now: int) returns (actions: seq<S.Action>)
      requires S.HasContext(Value())
      modifies this
      ensures (Value(), actions) == S.OnWrite(old(Value()), records, now)
    {
      hide BuildWriteRes, S.DataBytes;
      if state.Idle? { return [S.Respond(CONTROL_WRONG_STATE, [])]; }
      var c := ctx.value;
      var foreign := AnyForeign(records, c.params.arUuid);
      if foreign { return [S.Respond(WRITE_WRONG_AR, [])]; }
      var over := ExceedsRecordCap(c.records, records);
      if over { return [S.Respond(WRITE_RESOURCE_UNAVAILABLE, [])]; }
      var blocks := WriteRes(records);
      ctx := Some(c.(records := c.records + records));
      if state.Connected? {
        activityDeadline := Some(now + S.ACTIVITY_TIMEOUT_UNIT * c.params.activityTimeoutFactor);
      }
      return [S.Respond(OK, blocks)];
    }

    static method AnyForeign(records: seq<Record>, arUuid: Uuid) returns (b: bool)
      ensures b <==> exists r <- records :: r.arUuid != arUuid
    {
      for i := 0 to |records|
        invariant forall k :: 0 <= k < i ==> records[k].arUuid == arUuid
      {
        if records[i].arUuid != arUuid { return true; }
      }
      return false;
    }

    /** The limits hold for what is stored and what comes in together. */
    static method ExceedsRecordCap(stored: seq<Record>, incoming: seq<Record>) returns (b: bool)
      ensures b <==> S.ExceedsCap(stored, incoming)
    {
      var all := stored + incoming;
      var bytes := 0;
      for i := 0 to |all|
        invariant bytes == S.DataBytes(all[..i])
      {
        assert all[..i + 1][..i] == all[..i];
        bytes := bytes + |all[i].data|;
      }
      assert all[..|all|] == all;
      return |all| > S.MAX_RECORDS || bytes > S.MAX_RECORD_BYTES;
    }

    method HandlePrmEnd(control: ControlBlock, now: int) returns (actions: seq<S.Action>)
      requires S.HasContext(Value())
      modifies this
      ensures (Value(), actions) == S.OnPrmEnd(old(Value()), control, now)
    {
      hide WriteControl;
      if state.Idle? || control.arUuid != ctx.value.params.arUuid { return [S.Respond(CONTROL_WRONG_STATE, [])]; }
      var done := S.Respond(OK, WriteControl(PrmEndDone(control)));
      if !state.Connected? { return [done]; }
      var call := WriteControl(AppReadyReq(ctx.value.params.arUuid, ctx.value.params.sessionKey));
      state := S.AppReadySent;
      attempts := 1;
      appReadyDeadline := Some(now + S.APP_READY_TIMEOUT);
      activityDeadline := None;
      return [done, S.CallController(call)];
    }

    method HandleRelease(control: ControlBlock) returns (actions: seq<S.Action>)
      requires S.HasContext(Value())
      modifies this
      ensures (Value(), actions) == S.OnRelease(old(Value()), control)
    {
      hide WriteControl;
      if !state.Idle? && control.arUuid != ctx.value.params.arUuid { return [S.Respond(CONTROL_WRONG_STATE, [])]; }
      actions := [S.Respond(OK, WriteControl(ReleaseDone(control)))];
      if !state.Idle? {
        var gone := GiveUp(ControllerRelease);
        actions := actions + [gone];
      }
    }

    method HandleAppReadyRsp(status: PnioStatus) returns (actions: seq<S.Action>)
      modifies this
      ensures (Value(), actions) == S.OnAppReadyRsp(old(Value()), status)
    {
      if !state.AppReadySent? { return []; }
      if status != OK {
        var gone := GiveUp(AppReadyRejected(status));
        return [gone];
      }
      state := S.Data;
      appReadyDeadline := None;
      activityDeadline := None;
      attempts := 0;
      return [S.Notify(S.Data, None)];
    }

    method HandleTick(now: int) returns (actions: seq<S.Action>)
      requires S.HasContext(Value())
      modifies this
      ensures (Value(), actions) == S.OnTick(old(Value()), now)
    {
      hide WriteControl;
      if state.Connected? && activityDeadline.Some? && now >= activityDeadline.value {
        var gone := GiveUp(ActivityTimeout);
        return [gone];
      }
      if state.AppReadySent? && appReadyDeadline.Some? && now >= appReadyDeadline.value {
        if attempts < S.APP_READY_MAX_ATTEMPTS {
          attempts := attempts + 1;
          appReadyDeadline := Some(now + S.APP_READY_TIMEOUT);
          return [S.CallController(WriteControl(AppReadyReq(ctx.value.params.arUuid, ctx.value.params.sessionKey)))];
        }
        var gone := GiveUp(AppReadyFailed);
        return [gone];
      }
      return [];
    }

    /** Back to `Idle`: context, attempts and both timers are dropped. */
    method GiveUp(reason: AbortReason) returns (a: S.Action)
      modifies this
      ensures (Value(), [a]) == S.Aborting(old(Value()), reason)
    {
      ctx := None;
      appReadyDeadline := None;
      activityDeadline := None;
      attempts := 0;
      state := S.Idle;
      return S.Notify(S.Idle, Some(reason));
    }
  }
}
