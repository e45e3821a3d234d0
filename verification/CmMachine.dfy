/** The context manager as an object that changes in place (crates/pnio/src/cm/mod.rs). Each method is
    proved to take the step the functions of `Cms` describe; the addresses, contexts and numbers the
    source takes with `expect` are there whenever they are taken. */
module CmMachine {
  import opened Wire
  import opened Status
  import opened Connect
  import opened Control
  import opened Records
  import S = Cms
  import A = Ars
  import R = CmRuns
  import M = ArMachine

  lemma {:induction false} ApplyGoesThrough(cm: S.Cm, actions: seq<A.Action>, ctx: Option<S.RespondCtx>, isNew: bool, out: S.Output)
    ensures S.Apply(cm, actions, ctx, isNew, out) != S.Failed
    decreases |actions|
  {
    if actions != [] {
      var rest := actions[1..];
      match actions[0]
      case Respond(status, blocks) =>
        if ctx.Some? {
          var pdu := S.ReplyPdu(ctx.value, status, blocks);
          ApplyGoesThrough(cm.(cache := S.Insert(cm.cache, S.KeyOf(ctx.value.h), pdu)), rest, ctx, isNew,
                           out.(send := out.send + [S.Outgoing(pdu, ctx.value.from)]));
        } else {
          ApplyGoesThrough(cm, rest, ctx, isNew, out);
        }
      case CallController(blocks) =>
        if S.CanCall(cm, isNew) {
          var (cm', o) := S.Place(cm, blocks, isNew);
          ApplyGoesThrough(cm', rest, ctx, isNew, out.(send := out.send + [o]));
        }
      case Notify(state, reason) =>
        ApplyGoesThrough(cm, rest, ctx, isNew, out.(notify := out.notify + [(state, reason)]));
    }
  }

  class Cm {
    const ar: M.Ar
    const activitySeed: Uuid
    var callSeq: nat
    var currentCallSeq: Option<nat>
    var controllerAddr: Option<S.Addr>
    var cache: seq<(S.Key, S.Pdu)>

    ghost function Value(): S.Cm
      reads this, ar
    {
      S.Cm.Cm(ar.Value(), activitySeed, callSeq, currentCallSeq, controllerAddr, cache)
    }

    ghost predicate Valid()
      reads this, ar
    {
      ar.Valid() && S.Inv(Value())
    }

    constructor (model: DeviceModel, activitySeed: Uuid)
      ensures Valid() && fresh(ar) && Value() == S.NewCm(model, activitySeed)
    {
      ar := new M.Ar(model);
      this.activitySeed := activitySeed;
      callSeq := 0;
      currentCallSeq := None;
      controllerAddr := None;
      cache := [];
    }

    /** `None` when the envelope does not parse. */
    method HandleDatagram(p: S.Packet, from: S.Addr, now: int) returns (r: Option<S.Output>)
      requires Valid()
      modifies this, ar
      ensures Valid() && (Value(), if r.Some? then r.value else S.NOTHING) == R.Advance(old(Value()), S.Datagram(p, from), now)
      ensures r.None? <==> S.HandleDatagram(old(Value()), p, from, now).Failed?
    {
      hide S.Inv, S.Apply, S.OnRequest, S.OnAr;
      Live();
      R.StepKeepsInv(Value(), S.Datagram(p, from), now);
      match p
      case NotRpc => return None;
      case OtherType => return Some(S.NOTHING);
      case Response(ndr) =>
        if ndr.None? { return None; }
        var out := Step(A.AppReadyRsp(ndr.value), now);
        return Some(out);
      case Request(h, args) =>
        r := HandleRequest(h, args, from, now);
    }

    lemma Live()
      requires Valid()
      ensures A.HasContext(Value().ar) && A.HasContext(ar.Value())
    {
    }

    method HandleRequest(h: S.ReqHeader, args: Option<(u32, S.Call)>, from: S.Addr, now: int) returns (r: Option<S.Output>)
      requires Valid() && A.HasContext(Value().ar)
      requires S.OnRequest(Value(), h, args, from, now) != S.Panic
      requires S.OnRequest(Value(), h, args, from, now).Done? ==> S.Inv(S.OnRequest(Value(), h, args, from, now).cm)
      modifies this, ar
      ensures Valid()
      ensures match S.OnRequest(old(Value()), h, args, from, now)
              case Done(cm, out) => Value() == cm && r == Some(out)
              case Failed => Value() == old(Value()) && r == None
              case Panic => false
    {
      hide S.Inv, S.Apply, S.Serve;
      if h.iface != S.DEVICE_INTERFACE { return None; }
      var hit := CacheLookup(S.KeyOf(h));
      if hit.Some? { return Some(S.Output([S.Outgoing(hit.value, from)], [])); }
      if args.None? { return None; }
      var (argsMax, call) := args.value;
      var actions := Serve(call, from, now);
      ApplyGoesThrough(Value(), actions, Some(S.RespondCtx(h, S.OpnumOf(call), argsMax, from)), true, S.NOTHING);
      var out := Apply(actions, Some(S.RespondCtx(h, S.OpnumOf(call), argsMax, from)), true);
      return Some(out);
    }

    method Tick(now: int) returns (out: S.Output)
      requires Valid()
      modifies this, ar
      ensures Valid() && (Value(), out) == R.Advance(old(Value()), S.Timer, now)
    {
      hide S.Inv, S.Apply, S.OnAr;
      Live();
      R.StepKeepsInv(Value(), S.Timer, now);
      out := Step(A.Tick, now);
    }

    method Abort(reason: AbortReason, now: int) returns (out: S.Output)
      requires Valid()
      modifies this, ar
      ensures Valid() && (Value(), out) == R.Advance(old(Value()), S.Abandon(reason), now)
    {
      hide S.Inv, S.Apply, S.OnAr;
      Live();
      R.StepKeepsInv(Value(), S.Abandon(reason), now);
      out := Step(A.Abort(reason), now);
    }

    /** An AR event that answers no request. */
    method Step(ev: A.Event, now: int) returns (out: S.Output)
      requires Valid() && A.HasContext(Value().ar)
      requires var (cm, actions) := S.OnAr(Value(), ev, now);
        var o := S.Apply(cm, actions, None, false, S.NOTHING);
        o != S.Panic && (o.Done? ==> S.Inv(o.cm))
      modifies this, ar
      ensures Valid()
      ensures var (cm, actions) := S.OnAr(old(Value()), ev, now);
        S.Apply(cm, actions, None, false, S.NOTHING) == S.Done(Value(), out)
    {
      hide S.Inv, S.Apply, A.On;
      var actions := ar.On(ev, now);
      ApplyGoesThrough(Value(), actions, None, false, S.NOTHING);
      out := Apply(actions, None, false);
    }

    method Serve(call: S.Call, from: S.Addr, now: int) returns (actions: seq<A.Action>)
      requires ar.Valid() && A.HasContext(Value().ar)
      modifies this, ar
      ensures ar.Valid() && (Value(), actions) == S.Serve(old(Value()), call, from, now)
    {
      hide A.On, A.Inv, ParseWrite, ParseControl;
      match call
      case ConnectCall(connect) =>
        match connect {
          case Ok(req) => actions := ar.On(A.Connecting(req), now);
          case Err(e) => actions := [A.Respond(S.ErrorStatus(e, ConnectReject(AR_BLOCK, 0xfe)), [])];
        }
        if exists a <- actions :: a.Notify? && a.state.Connected? {
          controllerAddr := Some(S.Addr(from.ip, S.PNIO_UDP_PORT));
          currentCallSeq := None;
        }
      case WriteCall(blocks) =>
        var parsed := ReadRecords(blocks);
        match parsed {
          case Ok(records) => actions := ar.On(A.Writing(records), now);
          case Err(_) => actions := [A.Respond(WRITE_INDEX_UNSUPPORTED, [])];
        }
      case ControlCall(blocks) =>
        match ParseControl(blocks) {
          case Ok(cb) =>
            if cb.command == CMD_PRM_END { actions := ar.On(A.PrmEnd(cb), now); }
            else { actions := [A.Respond(CONTROL_WRONG_STATE, [])]; }
          case Err(_) => actions := [A.Respond(CONTROL_WRONG_STATE, [])];
        }
      case ReleaseCall(blocks) =>
        match ParseControl(blocks) {
          case Ok(cb) => actions := ar.On(A.Release(cb), now);
          case Err(_) => actions := [A.Respond(CONTROL_WRONG_STATE, [])];
        }
      case ReadCall(implicit, read) =>
        match read {
          case Ok(req) => actions := HandleRead(req, !implicit);
          case Err(e) => actions := [A.Respond(S.ErrorStatus(e, READ_INDEX_UNSUPPORTED), [])];
        }
      case UnknownCall(_) => actions := [A.Respond(SERVICE_UNSUPPORTED, [])];
    }

    method HandleRead(req: S.ReadReq, checkAr: bool) returns (actions: seq<A.Action>)
      ensures actions == S.ServeRead(Value(), req, checkAr)
    {
      if checkAr && (ar.ctx.None? || ar.ctx.value.params.arUuid != req.arUuid) { return [A.Respond(READ_WRONG_AR, [])]; }
      match req.served
      case Some(blocks) => return [A.Respond(OK, blocks)];
      case None => return [A.Respond(READ_INDEX_UNSUPPORTED, [])];
    }

    /** Carries out the AR's actions in order. */
    method Apply(actions: seq<A.Action>, ctx: Option<S.RespondCtx>, isNew: bool) returns (out: S.Output)
      requires S.Apply(Value(), actions, ctx, isNew, S.NOTHING).Done?
      modifies this
      ensures S.Apply(old(Value()), actions, ctx, isNew, S.NOTHING) == S.Done(Value(), out)
    {
      out := S.NOTHING;
      ghost var result := S.Apply(Value(), actions, ctx, isNew, out);
      assert actions[0..] == actions;
      for i := 0 to |actions|
        invariant unchanged(ar) && S.Apply(Value(), actions[i..], ctx, isNew, out) == result
      {
        assert actions[i..][1..] == actions[i + 1..];
        match actions[i]
        case Respond(status, blocks) =>
          if ctx.Some? {
            var pdu := S.ReplyPdu(ctx.value, status, blocks);
            CacheInsert(S.KeyOf(ctx.value.h), pdu);
            out := out.(send := out.send + [S.Outgoing(pdu, ctx.value.from)]);
          }
        case CallController(blocks) =>
          var o := BuildCall(blocks, isNew);
          out := out.(send := out.send + [o]);
        case Notify(state, reason) =>
          out := out.(notify := out.notify + [(state, reason)]);
      }
    }

    /** A new call takes the next number, a repetition the outstanding one. */
    method BuildCall(blocks: Bytes, isNew: bool) returns (o: S.Outgoing)
      requires S.CanCall(Value(), isNew)
      modifies this`callSeq, this`currentCallSeq
      ensures (Value(), o) == S.Place(old(Value()), blocks, isNew)
    {
      var seqNum;
      if isNew {
        seqNum := callSeq;
        callSeq := callSeq + 1;
        currentCallSeq := Some(seqNum);
      } else {
        seqNum := currentCallSeq.value;
      }
      return S.Outgoing(S.AppReady(ar.ctx.value.params.initiatorObjectUuid, activitySeed, seqNum, blocks), controllerAddr.value);
    }

    method CacheLookup(key: S.Key) returns (r: Option<S.Pdu>)
      ensures r == S.Lookup(cache, key)
    {
      assert cache[0..] == cache;
      for i := 0 to |cache|
        invariant S.Lookup(cache, key) == S.Lookup(cache[i..], key)
      {
        assert cache[i..][1..] == cache[i + 1..];
        if cache[i].0 == key { return Some(cache[i].1); }
      }
      return None;
    }

    method CacheInsert(key: S.Key, pdu: S.Pdu)
      modifies this`cache
      ensures cache == S.Insert(old(cache), key, pdu)
    {
      if |cache| >= S.CACHE_CAPACITY { cache := cache[1..]; }
      cache := cache + [(key, pdu)];
    }
  }
}
