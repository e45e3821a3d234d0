/** What the context manager keeps over every run of datagrams, timer ticks and aborts
    (crates/pnio/src/cm/mod.rs). */
module CmRuns {
  import opened Wire
  import opened Status
  import opened Connect
  import opened Control
  import opened Records
  import opened Cms
  import A = Ars

  // --- the effect of one AR move -----------------------------------------------------

  function ReplyFor(m: A.Move, ctx: RespondCtx): Pdu
    requires A.Answers(m)
  {
    if m.Served? then ReplyPdu(ctx, m.status, m.blocks)
    else if m.Replaced? then ReplyPdu(ctx, m.status, [])
    else ReplyPdu(ctx, OK, m.blocks)
  }

  function NoticesOf(m: A.Move): seq<Notice> {
    match m
    case ComeUp(_) => [(A.Connected, None)]
    case Run => [(A.Data, None)]
    case GoDown(reason) => [(A.Idle, Some(reason))]
    case Released(_) => [(A.Idle, Some(ControllerRelease))]
    case Replaced(_) => [(A.Idle, Some(ControllerReconnect))]
    case Reborn(_) => [(A.Idle, Some(ControllerReconnect)), (A.Connected, None)]
    case _ => []
  }

  predicate Calls(m: A.Move) { m.StartCalling? || m.Retry? }

  predicate Establishes(m: A.Move) { m.ComeUp? || m.Reborn? }

  /** The call as the controller receives it. */
  function CallPdu(cm: Cm): Outgoing
    requires CanCall(cm, false)
  {
    Outgoing(AppReady(cm.ar.ctx.value.params.initiatorObjectUuid, cm.activitySeed, cm.currentCallSeq.value,
                      A.AppReadyCall(cm.ar.ctx.value.params)), cm.controllerAddr.value)
  }

  /** The state and output a move leaves behind, request or not. */
  predicate Effect(m: A.Move, cm: Cm, cm': Cm, out: Output, ctx: Option<RespondCtx>)
    requires A.Answers(m) ==> ctx.Some?
  {
    && A.Inv(cm'.ar) && cm'.ar.model == cm.ar.model && A.Moves(m, cm.ar, cm'.ar)
    && cm'.activitySeed == cm.activitySeed
    && out.notify == NoticesOf(m)
    && cm'.cache == (if A.Answers(m) then Insert(cm.cache, KeyOf(ctx.value.h), ReplyFor(m, ctx.value)) else cm.cache)
    && cm'.controllerAddr == (if Establishes(m) then Some(Addr(ctx.value.from.ip, PNIO_UDP_PORT))
                              else cm.controllerAddr)
    && cm'.callSeq == cm.callSeq + (if m.StartCalling? then 1 else 0)
    && cm'.currentCallSeq == (if Establishes(m) then None
                              else if m.StartCalling? then Some(cm.callSeq) else cm.currentCallSeq)
    && (Calls(m) ==> CanCall(cm', false))
    && out.send == (if A.Answers(m) then [Outgoing(ReplyFor(m, ctx.value), ctx.value.from)] else [])
                   + (if Calls(m) then [CallPdu(cm')] else [])
  }

  lemma ApplyTwo(cm: Cm, a: A.Action, b: A.Action, ctx: Option<RespondCtx>, isNew: bool, out: Output)
    ensures Apply(cm, [a, b], ctx, isNew, out)
         == match Apply(cm, [a], ctx, isNew, out)
            case Done(cm', out') => Apply(cm', [b], ctx, isNew, out')
            case Panic => Panic
            case Failed => Failed
  {
    assert [a, b][1..] == [b] && [a][1..] == [];
  }

  lemma ApplyThree(cm: Cm, a: A.Action, b: A.Action, c: A.Action, ctx: Option<RespondCtx>, isNew: bool, out: Output)
    ensures Apply(cm, [a, b, c], ctx, isNew, out)
         == match Apply(cm, [a], ctx, isNew, out)
            case Done(cm', out') => Apply(cm', [b, c], ctx, isNew, out')
            case Panic => Panic
            case Failed => Failed
  {
    assert [a, b, c][1..] == [b, c] && [a][1..] == [];
  }

  lemma ApplyOne(cm: Cm, a: A.Action, ctx: Option<RespondCtx>, isNew: bool, out: Output)
    ensures a.Respond? && ctx.Some? ==>
      var pdu := ReplyPdu(ctx.value, a.status, a.blocks);
      Apply(cm, [a], ctx, isNew, out) == Done(cm.(cache := Insert(cm.cache, KeyOf(ctx.value.h), pdu)),
                                              out.(send := out.send + [Outgoing(pdu, ctx.value.from)]))
    ensures a.CallController? && CanCall(cm, isNew) ==>
      Apply(cm, [a], ctx, isNew, out)
      == Done(Place(cm, a.blocks, isNew).0, out.(send := out.send + [Place(cm, a.blocks, isNew).1]))
    ensures a.Notify? ==> Apply(cm, [a], ctx, isNew, out) == Done(cm, out.(notify := out.notify + [(a.state, a.reason)]))
  {
    assert [a][1..] == [];
  }

  /** Carrying out a move that places no call. */
  lemma ApplyQuiet(cm: Cm, m: A.Move, ctx: Option<RespondCtx>, isNew: bool)
    requires (A.Answers(m) ==> ctx.Some?) && !Calls(m)
    ensures Apply(cm, A.ActionsOf(m), ctx, isNew, NOTHING)
         == Done(if A.Answers(m) then cm.(cache := Insert(cm.cache, KeyOf(ctx.value.h), ReplyFor(m, ctx.value))) else cm,
                 Output(if A.Answers(m) then [Outgoing(ReplyFor(m, ctx.value), ctx.value.from)] else [], NoticesOf(m)))
  {
    hide Insert, ReplyPdu, Apply;
    var acts := A.ActionsOf(m);
    if |acts| == 0 {
      assert Apply(cm, [], ctx, isNew, NOTHING) == Done(cm, NOTHING) by { ApplyNone(cm, ctx, isNew, NOTHING); }
    } else {
      var x := acts[0];
      ApplyOne(cm, x, ctx, isNew, NOTHING);
      var d := Apply(cm, [x], ctx, isNew, NOTHING);
      if |acts| == 2 {
        ApplyTwo(cm, x, acts[1], ctx, isNew, NOTHING);
        ApplyOne(d.cm, acts[1], ctx, isNew, d.out);
      } else if |acts| == 3 {
        ApplyThree(cm, x, acts[1], acts[2], ctx, isNew, NOTHING);
        ApplyTwo(d.cm, acts[1], acts[2], ctx, isNew, d.out);
        ApplyOne(d.cm, acts[1], ctx, isNew, d.out);
        var e := Apply(d.cm, [acts[1]], ctx, isNew, d.out);
        ApplyOne(e.cm, acts[2], ctx, isNew, e.out);
      }
    }
  }

  lemma ApplyNone(cm: Cm, ctx: Option<RespondCtx>, isNew: bool, out: Output)
    ensures Apply(cm, [], ctx, isNew, out) == Done(cm, out)
  {
  }

  /** The controller's first call after PrmEnd: answered, then called with the next number. */
  lemma ApplyStart(cm: Cm, m: A.Move, ctx: RespondCtx)
    requires m.StartCalling? && cm.controllerAddr.Some? && cm.ar.ctx.Some?
    ensures var pdu := ReplyFor(m, ctx);
      var (cm', o) := Place(cm.(cache := Insert(cm.cache, KeyOf(ctx.h), pdu)), m.call, true);
      Apply(cm, A.ActionsOf(m), Some(ctx), true, NOTHING) == Done(cm', Output([Outgoing(pdu, ctx.from), o], []))
  {
    hide Insert, ReplyPdu, Apply;
    var acts := A.ActionsOf(m);
    ApplyTwo(cm, acts[0], acts[1], Some(ctx), true, NOTHING);
    ApplyOne(cm, acts[0], Some(ctx), true, NOTHING);
    var d := Apply(cm, [acts[0]], Some(ctx), true, NOTHING);
    ApplyOne(d.cm, acts[1], Some(ctx), true, d.out);
  }

  lemma ApplyRetry(cm: Cm, m: A.Move)
    requires m.Retry? && CanCall(cm, false)
    ensures Apply(cm, A.ActionsOf(m), None, false, NOTHING) == Done(cm, Output([Place(cm, m.call, false).1], []))
  {
    hide Apply;
    ApplyOne(cm, A.ActionsOf(m)[0], None, false, NOTHING);
  }

  // --- one step --------------------------------------------------------------------------

  /** The AR event a request turns into, if it does. */
  function RequestEvent(call: Call): Option<A.Event> {
    match call
    case ConnectCall(Ok(req)) => Some(A.Connecting(req))
    case WriteCall(blocks) =>
      (match ParseWrite(blocks) case Ok(records) => Some(A.Writing(records)) case Err(_) => None)
    case ControlCall(blocks) =>
      (match ParseControl(blocks)
       case Ok(cb) => if cb.command == CMD_PRM_END then Some(A.PrmEnd(cb)) else None
       case Err(_) => None)
    case ReleaseCall(blocks) =>
      (match ParseControl(blocks) case Ok(cb) => Some(A.Release(cb)) case Err(_) => None)
    case _ => None
  }

  /** A request that is an event to the AR is served by it; calls are redirected if that establishes one. */
  lemma ServeOnAr(cm: Cm, call: Call, from: Addr, now: int)
    requires A.HasContext(cm.ar) && RequestEvent(call).Some?
    ensures var (ar, actions) := A.On(cm.ar, RequestEvent(call).value, now);
      Serve(cm, call, from, now) == (if call.ConnectCall? then Redirect(cm.(ar := ar), actions, from) else cm.(ar := ar), actions)
    ensures RequestEvent(call).value.Connecting? <==> call.ConnectCall?
    ensures A.IsRequest(RequestEvent(call).value)
  {
    hide A.On, ParseWrite, ParseControl, Redirect;
  }

  /** Any other is answered at once, and the AR left alone. */
  lemma ServeAside(cm: Cm, call: Call, from: Addr, now: int)
    requires A.HasContext(cm.ar) && RequestEvent(call).None?
    ensures var (cm', actions) := Serve(cm, call, from, now); cm' == cm && |actions| == 1 && actions[0].Respond?
  {
    hide A.On, ParseWrite, ParseControl;
  }

  lemma RedirectMoves(cm: Cm, m: A.Move, from: Addr)
    ensures Redirect(cm, A.ActionsOf(m), from)
         == if Establishes(m) then cm.(controllerAddr := Some(PortOf(from)), currentCallSeq := None) else cm
  {
    var actions := A.ActionsOf(m);
    if Establishes(m) { assert actions[|actions| - 1] == A.Notify(A.Connected, None); }
  }

  /** Serving a request makes an answering move and, if that establishes an AR, redirects calls. */
  lemma ServeMoves(cm: Cm, call: Call, from: Addr, now: int) returns (m: A.Move)
    requires Inv(cm)
    ensures var (cm', actions) := Serve(cm, call, from, now);
      && actions == A.ActionsOf(m) && A.Answers(m)
      && A.Inv(cm'.ar) && cm'.ar.model == cm.ar.model && A.Moves(m, cm.ar, cm'.ar)
      && cm' == (if Establishes(m)
                 then cm.(ar := cm'.ar, controllerAddr := Some(Addr(from.ip, PNIO_UDP_PORT)), currentCallSeq := None)
                 else cm.(ar := cm'.ar))
  {
    hide A.On, A.Inv, Serve, CallsOk, CacheOk, RequestEvent, Redirect;
    HasContextOf(cm.ar);
    var ev := RequestEvent(call);
    if ev.Some? {
      A.StepKeepsInv(cm.ar, ev.value, now);
      m := A.StepMoves(cm.ar, ev.value, now);
      ServeOnAr(cm, call, from, now);
      RedirectMoves(cm.(ar := A.On(cm.ar, ev.value, now).0), m, from);
    } else {
      ServeAside(cm, call, from, now);
      var actions := Serve(cm, call, from, now).1;
      m := A.Served(actions[0].status, actions[0].blocks);
    }
  }

  lemma RequestEffect(cm: Cm, h: ReqHeader, argsMax: u32, call: Call, from: Addr, now: int) returns (m: A.Move)
    requires Inv(cm) && h.iface == DEVICE_INTERFACE && Lookup(cm.cache, KeyOf(h)).None?
    ensures var o := OnRequest(cm, h, Some((argsMax, call)), from, now);
      && o.Done? && A.Answers(m)
      && Effect(m, cm, o.cm, o.out, Some(RespondCtx(h, OpnumOf(call), argsMax, from)))
      && o.cm.ar == Serve(cm, call, from, now).0.ar && Serve(cm, call, from, now).1 == A.ActionsOf(m)
  {
    hide Serve, A.Inv, CacheOk, Apply, Insert, ReplyFor, A.ActionsOf;
    HasContextOf(cm.ar);
    m := ServeMoves(cm, call, from, now);
    var (cm', actions) := Serve(cm, call, from, now);
    var ctx := RespondCtx(h, OpnumOf(call), argsMax, from);
    HasContextOf(cm'.ar);
    if m.StartCalling? {
      ApplyStart(cm', m, ctx);
    } else {
      ApplyQuiet(cm', m, Some(ctx), true);
    }
  }

  lemma HasContextOf(ar: A.Ar)
    requires A.Inv(ar)
    ensures A.HasContext(ar)
  {
  }

  lemma EventEffect(cm: Cm, ev: A.Event, now: int) returns (m: A.Move)
    requires Inv(cm) && !A.IsRequest(ev)
    ensures var (cm', actions) := OnAr(cm, ev, now);
      var o := Apply(cm', actions, None, false, NOTHING);
      && o.Done? && !A.Answers(m) && Effect(m, cm, o.cm, o.out, None)
      && o.cm.ar == cm'.ar && actions == A.ActionsOf(m)
    ensures m.Retry? ==> ev.Tick?
    ensures ev.Abort? ==> m == if cm.ar.state.Idle? then A.Still else A.GoDown(ev.reason)
  {
    hide A.On, A.Inv, CacheOk, Apply, Insert, A.ActionsOf;
    HasContextOf(cm.ar);
    A.StepKeepsInv(cm.ar, ev, now);
    m := A.StepMoves(cm.ar, ev, now);
    var (cm', actions) := OnAr(cm, ev, now);
    HasContextOf(cm'.ar);
    if m.Retry? {
      ApplyRetry(cm', m);
    } else {
      ApplyQuiet(cm', m, None, false);
    }
  }

  /** The key a well-formed request is answered under. */
  function RequestKey(inp: Input): Option<Key> {
    match inp
    case Datagram(Request(h, _), _) => if h.iface == DEVICE_INTERFACE then Some(KeyOf(h)) else None
    case _ => None
  }

  predicate IsHit(cm: Cm, inp: Input) {
    RequestKey(inp).Some? && Lookup(cm.cache, RequestKey(inp).value).Some?
  }

  function CtxOf(inp: Input): Option<RespondCtx> {
    match inp
    case Datagram(Request(h, Some((argsMax, call))), from) => Some(RespondCtx(h, OpnumOf(call), argsMax, from))
    case _ => None
  }

  /** What a step is: dropped, a retransmission answered from the cache, or one move of the AR.
      No `expect` fails. */
  lemma StepEffect(cm: Cm, inp: Input, now: int) returns (m: A.Move)
    requires Inv(cm)
    ensures var o := Step(cm, inp, now);
      && (IsHit(cm, inp) ==> o == Done(cm, Output([Outgoing(Lookup(cm.cache, RequestKey(inp).value).value, inp.from)], [])))
      && (!IsHit(cm, inp) ==>
            || o.Failed?
            || (&& o.Done? && (A.Answers(m) <==> RequestKey(inp).Some?)
                && (A.Answers(m) ==> CtxOf(inp).Some?) && Effect(m, cm, o.cm, o.out, CtxOf(inp))))
    ensures m.Retry? ==> inp.Timer?
    ensures inp.Abandon? ==> m == if cm.ar.state.Idle? then A.Still else A.GoDown(inp.reason)
  {
    hide Serve, Apply, Effect, OnAr, A.Inv;
    m := A.Still;
    HasContextOf(cm.ar);
    match inp
    case Timer =>
      m := EventEffect(cm, A.Tick, now);
    case Abandon(reason) =>
      m := EventEffect(cm, A.Abort(reason), now);
    case Datagram(p, from) =>
      match p {
        case Response(ndr) =>
          if ndr.Some? { m := EventEffect(cm, A.AppReadyRsp(ndr.value), now); }
        case Request(h, args) =>
          if h.iface == DEVICE_INTERFACE && Lookup(cm.cache, KeyOf(h)).None? && args.Some? {
            m := RequestEffect(cm, h, args.value.0, args.value.1, from, now);
          }
        case OtherType =>
          StillEffect(cm, CtxOf(inp));
        case NotRpc =>
      }
  }

  lemma StillEffect(cm: Cm, ctx: Option<RespondCtx>)
    requires Inv(cm)
    ensures Effect(A.Still, cm, cm, NOTHING, ctx)
  {
  }

  // --- runs ------------------------------------------------------------------------------

  lemma InsertKeepsCache(cache: seq<(Key, Pdu)>, key: Key, pdu: Pdu)
    requires CacheOk(cache) && Lookup(cache, key).None? && pdu.Reply? && KeyOf(pdu.h) == key
    ensures CacheOk(Insert(cache, key, pdu))
  {
    var kept := if |cache| >= CACHE_CAPACITY then cache[1..] else cache;
    forall e | e in kept ensures e in cache {}
  }

  lemma EffectKeepsInv(m: A.Move, cm: Cm, cm': Cm, out: Output, ctx: Option<RespondCtx>)
    requires Inv(cm) && (A.Answers(m) ==> ctx.Some? && Lookup(cm.cache, KeyOf(ctx.value.h)).None?)
    requires Effect(m, cm, cm', out, ctx)
    ensures Inv(cm')
  {
    hide Insert, CacheOk, Lookup, A.AppReadyCall, A.ContextOk;
    if A.Answers(m) { InsertKeepsCache(cm.cache, KeyOf(ctx.value.h), ReplyFor(m, ctx.value)); }
  }

  /** The state after a step; a dropped datagram leaves it alone. */
  function Settle(cm: Cm, o: Outcome): Cm { if o.Done? then o.cm else cm }

  function OutputOf(o: Outcome): Output { if o.Done? then o.out else NOTHING }

  /** Every step keeps the invariant, and no `expect` fails. */
  lemma StepKeepsInv(cm: Cm, inp: Input, now: int)
    requires Inv(cm)
    ensures Step(cm, inp, now) != Panic && Inv(Settle(cm, Step(cm, inp, now)))
    ensures Settle(cm, Step(cm, inp, now)).ar.model == cm.ar.model
  {
    hide Step, Inv, Effect;
    HasContextIn(cm);
    var m := StepEffect(cm, inp, now);
    var o := Step(cm, inp, now);
    if o.Done? && !IsHit(cm, inp) {
      KeyOfCtx(inp);
      EffectKeepsInv(m, cm, o.cm, o.out, CtxOf(inp));
      EffectKeepsModel(m, cm, o.cm, o.out, CtxOf(inp));
    }
  }

  lemma EffectKeepsModel(m: A.Move, cm: Cm, cm': Cm, out: Output, ctx: Option<RespondCtx>)
    requires (A.Answers(m) ==> ctx.Some?) && Effect(m, cm, cm', out, ctx)
    ensures cm'.ar.model == cm.ar.model
  {
  }

  lemma HasContextIn(cm: Cm)
    requires Inv(cm)
    ensures A.HasContext(cm.ar)
  {
  }

  lemma KeyOfCtx(inp: Input)
    ensures RequestKey(inp).Some? && CtxOf(inp).Some? ==> KeyOf(CtxOf(inp).value.h) == RequestKey(inp).value
  {
  }

  /** Carrying out actions leaves the AR as it is. */
  lemma {:induction false} ApplyKeepsAr(cm: Cm, actions: seq<A.Action>, ctx: Option<RespondCtx>, isNew: bool, out: Output)
    ensures var o := Apply(cm, actions, ctx, isNew, out); o.Done? ==> o.cm.ar == cm.ar
    decreases |actions|
  {
    if actions != [] {
      var a, rest := actions[0], actions[1..];
      if a.Respond? && ctx.Some? {
        var pdu := ReplyPdu(ctx.value, a.status, a.blocks);
        ApplyKeepsAr(cm.(cache := Insert(cm.cache, KeyOf(ctx.value.h), pdu)), rest, ctx, isNew,
                     out.(send := out.send + [Outgoing(pdu, ctx.value.from)]));
      } else if a.CallController? && CanCall(cm, isNew) {
        var (cm', o) := Place(cm, a.blocks, isNew);
        ApplyKeepsAr(cm', rest, ctx, isNew, out.(send := out.send + [o]));
      } else if a.Notify? {
        ApplyKeepsAr(cm, rest, ctx, isNew, out.(notify := out.notify + [(a.state, a.reason)]));
      } else {
        ApplyKeepsAr(cm, rest, ctx, isNew, out);
      }
    }
  }

  /** A context manager in a state it can reach. */
  type LiveCm = cm: Cm | Inv(cm)
    ghost witness NewCm(DeviceModel([], [0, 0, 0, 0, 0, 0], 0, []), NIL_UUID)

  /** One step: the new state and what comes out. */
  function Advance(cm: LiveCm, inp: Input, now: int): (LiveCm, Output) {
    StepKeepsInv(cm, inp, now);
    var o := Step(cm, inp, now);
    (Settle(cm, o), OutputOf(o))
  }

  datatype Run = Start(model: DeviceModel, activitySeed: Uuid) | Then(before: Run, inp: Input, now: int)

  function After(run: Run): (cm: Cm)
    ensures Inv(cm)
  {
    match run
    case Start(model, seed) => NewCm(model, seed)
    case Then(before, inp, now) =>
      var cm := After(before);
      StepKeepsInv(cm, inp, now);
      Settle(cm, Step(cm, inp, now))
  }

  function LastOutcome(run: Run): Outcome
    requires run.Then?
  {
    Step(After(run.before), run.inp, run.now)
  }

  function LastOutput(run: Run): Output
    requires run.Then?
  {
    OutputOf(LastOutcome(run))
  }

  // --- the cache: the last four answered calls ---------------------------------------------

  function LastFour(answers: seq<(Key, Pdu)>): seq<(Key, Pdu)> {
    if |answers| <= 4 then answers else answers[|answers| - 4..]
  }

  /** The calls answered so far with the replies sent, in order. A request whose key is among the
      last four is a retransmission and is not answered anew. */
  function Answered(run: Run): seq<(Key, Pdu)> {
    match run
    case Start(_, _) => []
    case Then(before, inp, _) =>
      var so := Answered(before);
      var out := LastOutput(run);
      if RequestKey(inp).None? || out.send == [] || Lookup(LastFour(so), RequestKey(inp).value).Some? then so
      else so + [(RequestKey(inp).value, out.send[0].pdu)]
  }

  lemma LastFourSnoc(answers: seq<(Key, Pdu)>, key: Key, pdu: Pdu)
    ensures LastFour(answers + [(key, pdu)]) == Insert(LastFour(answers), key, pdu)
  {
  }

  lemma EffectCache(m: A.Move, cm: Cm, cm': Cm, out: Output, ctx: Option<RespondCtx>)
    requires (A.Answers(m) ==> ctx.Some?) && Effect(m, cm, cm', out, ctx)
    ensures !A.Answers(m) ==> cm'.cache == cm.cache
    ensures A.Answers(m) ==>
      && out.send != [] && out.send[0] == Outgoing(ReplyFor(m, ctx.value), ctx.value.from)
      && cm'.cache == Insert(cm.cache, KeyOf(ctx.value.h), out.send[0].pdu)
  {
    hide Insert, ReplyFor;
  }

  lemma {:induction false} CacheIsLastFour(run: Run)
    ensures After(run).cache == LastFour(Answered(run))
  {
    if run.Then? {
      hide Step, Inv, Effect, Insert, LastFour, A.HasContext;
      CacheIsLastFour(run.before);
      var cm := After(run.before);
      HasContextIn(cm);
      StepKeepsInv(cm, run.inp, run.now);
      var m := StepEffect(cm, run.inp, run.now);
      var o := Step(cm, run.inp, run.now);
      KeyOfCtx(run.inp);
      if o.Done? && !IsHit(cm, run.inp) {
        EffectCache(m, cm, o.cm, o.out, CtxOf(run.inp));
        if A.Answers(m) {
          LastFourSnoc(Answered(run.before), RequestKey(run.inp).value, o.out.send[0].pdu);
        }
      }
    }
  }

  /** Over every run: the cache holds the last at most four answered calls, with distinct keys, and
      retransmitting any of them gets exactly the reply it got before, from whatever address it now
      comes, with no AR event: the whole state is left alone. */
  lemma RetransmissionIsIdempotent(run: Run, i: nat, h: ReqHeader, args: Option<(u32, Call)>, from: Addr, now: int)
    ensures var answered := LastFour(Answered(run));
      i < |answered| && answered[i].0 == KeyOf(h) && h.iface == DEVICE_INTERFACE ==>
        HandleDatagram(After(run), Request(h, args), from, now)
        == Done(After(run), Output([Outgoing(answered[i].1, from)], []))
  {
    hide Step, LastFour, Answered, Serve, Apply;
    CacheIsLastFour(run);
    var cm := After(run);
    HasContextIn(cm);
    if i < |cm.cache| && cm.cache[i].0 == KeyOf(h) && h.iface == DEVICE_INTERFACE {
      var hit := Lookup(cm.cache, KeyOf(h));
      assert cm.cache[i] in cm.cache;
      var j :| 0 <= j < |cm.cache| && cm.cache[j] == (KeyOf(h), hit.value);
      assert j == i;
    }
  }

  // --- outgoing calls ------------------------------------------------------------------------

  /** A call placed: with a new number, or a repetition. */
  datatype Placed = Placed(o: Outgoing, isNew: bool)

  function CallsIn(send: seq<Outgoing>, isNew: bool): seq<Placed> {
    if send == [] then []
    else (if send[0].pdu.AppReady? then [Placed(send[0], isNew)] else []) + CallsIn(send[1..], isNew)
  }

  /** All calls to controllers, in order; those placed while a datagram is handled are new. */
  function AllCalls(run: Run): seq<Placed> {
    match run
    case Start(_, _) => []
    case Then(before, inp, _) => AllCalls(before) + CallsIn(LastOutput(run).send, inp.Datagram?)
  }

  /** New calls are numbered 0, 1, 2, ... up to `n`; a repetition equals the call before it. */
  predicate Numbered(calls: seq<Placed>, n: nat) {
    if calls == [] then n == 0
    else
      var init, last := calls[..|calls| - 1], calls[|calls| - 1];
      && last.o.pdu.AppReady?
      && if last.isNew then n > 0 && last.o.pdu.seqNum == n - 1 && Numbered(init, n - 1)
         else init != [] && last.o == init[|init| - 1].o && Numbered(init, n)
  }

  /** How often the last number was used. */
  function Uses(calls: seq<Placed>): nat {
    if calls == [] then 0
    else if calls[|calls| - 1].isNew then 1 else 1 + Uses(calls[..|calls| - 1])
  }

  predicate CallsSettled(cm: Cm, calls: seq<Placed>) {
    && Numbered(calls, cm.callSeq)
    && (cm.ar.state.AppReadySent? && CanCall(cm, false) ==>
          calls != [] && calls[|calls| - 1].o == CallPdu(cm) && Uses(calls) == cm.ar.attempts)
  }

  lemma CallsInEffect(m: A.Move, cm: Cm, cm': Cm, out: Output, ctx: Option<RespondCtx>, isNew: bool)
    requires (A.Answers(m) ==> ctx.Some?) && Effect(m, cm, cm', out, ctx)
    ensures CallsIn(out.send, isNew) == if Calls(m) then [Placed(CallPdu(cm'), isNew)] else []
  {
    hide A.Inv, A.Moves, Insert, A.AppReadyCall;
    var send := out.send;
    if |send| == 2 {
      var rest := send[1..];
      assert rest == [send[1]] && rest[1..] == [];
      assert CallsIn(rest, isNew) == if send[1].pdu.AppReady? then [Placed(send[1], isNew)] else [];
    }
  }

  lemma EffectCalls(m: A.Move, cm: Cm, cm': Cm, out: Output, ctx: Option<RespondCtx>, calls: seq<Placed>, isNew: bool)
    requires Inv(cm) && (A.Answers(m) ==> ctx.Some?) && Effect(m, cm, cm', out, ctx)
    requires m.StartCalling? ==> isNew
    requires m.Retry? ==> !isNew
    requires CallsSettled(cm, calls) && AllUsesShort(calls)
    ensures var calls' := calls + CallsIn(out.send, isNew); CallsSettled(cm', calls') && AllUsesShort(calls')
  {
    hide Insert, CacheOk, ReplyFor, A.AppReadyCall, A.ContextOk, NoticesOf;
    CallsInEffect(m, cm, cm', out, ctx, isNew);
    if Calls(m) {
      var calls' := calls + [Placed(CallPdu(cm'), isNew)];
      assert calls'[..|calls|] == calls;
    } else {
      assert calls + [] == calls;
    }
  }

  /** No number is used more than three times. */
  predicate AllUsesShort(calls: seq<Placed>) {
    calls == [] || (Uses(calls) <= A.APP_READY_MAX_ATTEMPTS && AllUsesShort(calls[..|calls| - 1]))
  }

  lemma {:induction false} CallsOfRun(run: Run)
    ensures CallsSettled(After(run), AllCalls(run)) && AllUsesShort(AllCalls(run))
  {
    if run.Then? {
      hide Step, Inv, Effect, CallsSettled, AllUsesShort, A.HasContext;
      CallsOfRun(run.before);
      var cm, calls := After(run.before), AllCalls(run.before);
      HasContextIn(cm);
      StepKeepsInv(cm, run.inp, run.now);
      var m := StepEffect(cm, run.inp, run.now);
      var o := Step(cm, run.inp, run.now);
      if IsHit(cm, run.inp) {
        CacheRepliesOnly(cm, RequestKey(run.inp).value, run.inp.from, run.inp.Datagram?);
        assert calls + [] == calls;
      } else if o.Done? {
        FromOfCtx(run.inp);
        EffectCalls(m, cm, o.cm, o.out, CtxOf(run.inp), calls, run.inp.Datagram?);
      } else {
        assert calls + [] == calls;
      }
    }
  }

  lemma CacheRepliesOnly(cm: Cm, key: Key, to: Addr, isNew: bool)
    requires Inv(cm) && Lookup(cm.cache, key).Some?
    ensures CallsIn([Outgoing(Lookup(cm.cache, key).value, to)], isNew) == []
  {
    var send := [Outgoing(Lookup(cm.cache, key).value, to)];
    assert send[1..] == [];
  }

  lemma {:induction false} NewerIsLarger(calls: seq<Placed>, n: nat, i: nat, j: nat)
    requires Numbered(calls, n) && i < j < |calls|
    ensures calls[i].o.pdu.AppReady? && calls[j].o.pdu.AppReady?
    ensures calls[j].o.pdu.seqNum < n
    ensures calls[i].o.pdu.seqNum <= calls[j].o.pdu.seqNum
    ensures calls[j].isNew ==> calls[i].o.pdu.seqNum < calls[j].o.pdu.seqNum
    decreases |calls|
  {
    var k := |calls| - 1;
    var init, n' := calls[..k], if calls[k].isNew then n - 1 else n;
    NumbersBelow(init, n', i);
    NumbersBelow(calls, n, j);
    if j < k {
      NewerIsLarger(init, n', i, j);
    } else if !calls[k].isNew && i < k - 1 {
      NewerIsLarger(init, n', i, k - 1);
    }
  }

  lemma {:induction false} NumbersBelow(calls: seq<Placed>, n: nat, i: nat)
    requires Numbered(calls, n) && i < |calls|
    ensures calls[i].o.pdu.AppReady? && calls[i].o.pdu.seqNum < n
    decreases |calls|
  {
    var k := |calls| - 1;
    var init, n' := calls[..k], if calls[k].isNew then n - 1 else n;
    if i < k { NumbersBelow(init, n', i); } else if !calls[k].isNew { NumbersBelow(init, n', k - 1); }
  }

  /** Over every run and all its ARs: numbers never go back, each new call has a larger number than
      every call before it, a call with the number of an earlier one is the same PDU to the same
      address, and no number is used more than three times. */
  lemma CallNumbers(run: Run, i: nat, j: nat)
    requires i < j < |AllCalls(run)|
    ensures var (x, y) := (AllCalls(run)[i], AllCalls(run)[j]);
      && x.o.pdu.AppReady? && y.o.pdu.AppReady? && x.o.pdu.seqNum <= y.o.pdu.seqNum
      && (y.isNew ==> x.o.pdu.seqNum < y.o.pdu.seqNum)
      && (x.o.pdu.seqNum == y.o.pdu.seqNum ==> x.o == y.o && j < i + 3)
  {
    hide AllCalls, After;
    CallsOfRun(run);
    var calls, n := AllCalls(run), After(run).callSeq;
    NewerIsLarger(calls, n, i, j);
    if calls[i].o.pdu.seqNum == calls[j].o.pdu.seqNum { SameNumber(calls, n, i, j); }
  }

  lemma {:induction false} SameNumber(calls: seq<Placed>, n: nat, i: nat, j: nat)
    requires Numbered(calls, n) && AllUsesShort(calls) && i < j < |calls|
    requires calls[i].o.pdu.AppReady? && calls[j].o.pdu.AppReady?
    requires calls[i].o.pdu.seqNum == calls[j].o.pdu.seqNum
    ensures calls[i].o == calls[j].o && j - i < Uses(calls[..j + 1]) <= 3
    decreases |calls|, j
  {
    var k := |calls| - 1;
    var init, n' := calls[..k], if calls[k].isNew then n - 1 else n;
    assert calls[..k + 1] == calls;
    if j < k {
      assert init[..j + 1] == calls[..j + 1];
      SameNumber(init, n', i, j);
    } else {
      NewerIsLarger(calls, n, i, j);
      if i < k - 1 {
        NewerIsLarger(init, n', i, k - 1);
        NumbersBelow(init, n', k - 1);
        assert init[..k] == init;
        SameNumber(init, n', i, k - 1);
      } else {
        assert Uses(init) >= 1;
      }
    }
  }

  // --- who is called ---------------------------------------------------------------------------

  /** The sender of the Connect that established an AR last. */
  function Establisher(run: Run): Option<Addr> {
    match run
    case Start(_, _) => None
    case Then(before, inp, _) =>
      if (A.Connected, None) in LastOutput(run).notify && inp.Datagram? then Some(inp.from) else Establisher(before)
  }

  /** The controller's well-known port at an address. */
  function PortOf(a: Addr): Addr { Addr(a.ip, 34964) }

  predicate CallsTo(send: seq<Outgoing>, to: Option<Addr>) { forall o <- send :: o.pdu.AppReady? ==> Some(o.to) == to }

  /** Every call any run places goes to the host whose Connect was accepted last before it; a refused,
      malformed or repeated Connect from anywhere changes nothing about that. */
  lemma {:induction false} CallsGoToEstablisher(run: Run)
    ensures After(run).controllerAddr == match Establisher(run) case None => None case Some(a) => Some(PortOf(a))
    ensures run.Then? ==>
      CallsTo(LastOutput(run).send, match Establisher(run) case None => None case Some(a) => Some(PortOf(a)))
  {
    if run.Then? {
      hide Step, Inv, Effect, A.HasContext, CallsTo;
      CallsGoToEstablisher(run.before);
      var cm := After(run.before);
      HasContextIn(cm);
      StepKeepsInv(cm, run.inp, run.now);
      var m := StepEffect(cm, run.inp, run.now);
      var o := Step(cm, run.inp, run.now);
      if IsHit(cm, run.inp) {
        HitCallsNobody(cm, RequestKey(run.inp).value, run.inp.from, After(run).controllerAddr);
      } else if o.Done? {
        EffectAddr(m, cm, o.cm, o.out, CtxOf(run.inp));
        FromOfCtx(run.inp);
      } else {
        NoCalls(After(run).controllerAddr);
      }
    }
  }

  lemma NoCalls(to: Option<Addr>)
    ensures CallsTo([], to)
  {
  }

  lemma HitCallsNobody(cm: Cm, key: Key, from: Addr, to: Option<Addr>)
    requires Inv(cm) && Lookup(cm.cache, key).Some?
    ensures CallsTo([Outgoing(Lookup(cm.cache, key).value, from)], to)
  {
    hide A.Inv, CallsOk;
  }

  lemma FromOfCtx(inp: Input)
    ensures CtxOf(inp).Some? ==> inp.Datagram? && CtxOf(inp).value.from == inp.from
  {
  }

  lemma EffectAddr(m: A.Move, cm: Cm, cm': Cm, out: Output, ctx: Option<RespondCtx>)
    requires (A.Answers(m) ==> ctx.Some?) && Effect(m, cm, cm', out, ctx)
    ensures Establishes(m) <==> (A.Connected, None) in out.notify
    ensures cm'.controllerAddr == if Establishes(m) then Some(PortOf(ctx.value.from)) else cm.controllerAddr
    ensures CallsTo(out.send, cm'.controllerAddr)
  {
    hide A.Inv, A.Moves, Insert, A.AppReadyCall;
  }

  // --- as the device sees it ---------------------------------------------------------------------

  /** What a step of the context manager means for cyclic operation. */
  datatype Shift = Keep | Begin | End

  predicate Shifts(s: Shift, ar: A.Ar, ar': A.Ar, notify: seq<Notice>) {
    && ar'.model == ar.model && A.Inv(ar')
    && match s
       case Keep =>
         && (ar.state.Data? <==> ar'.state.Data?) && (ar.state.Data? ==> A.SameParams(ar, ar'))
         && (notify == [] || notify == [(A.Connected, None)])
       case Begin => !ar.state.Data? && ar'.state.Data? && notify == [(A.Data, None)]
       case End =>
         && !ar'.state.Data? && |notify| > 0 && notify[0].0.Idle? && notify[0].1.Some?
         && (|notify| == 1 || notify == [notify[0], (A.Connected, None)])
  }

  /** A step keeps an AR in or out of Data without a word, begins Data and says so, or ends the AR and
      says so first. */
  lemma AdvanceShifts(cm: LiveCm, inp: Input, now: int) returns (s: Shift)
    ensures var (cm', out) := Advance(cm, inp, now); Shifts(s, cm.ar, cm'.ar, out.notify)
    ensures inp.Abandon? ==> s == if cm.ar.state.Idle? then Keep else End
  {
    hide Step, Insert, CacheOk, ReplyFor, A.AppReadyCall, A.ContextOk, Lookup, IsHit;
    HasContextIn(cm);
    var m := StepEffect(cm, inp, now);
    s := if m.Run? then Begin
         else if m.GoDown? || m.Released? || m.Replaced? || m.Reborn? then End else Keep;
    if IsHit(cm, inp) || Step(cm, inp, now).Failed? {
      s := Keep;
      if inp.Abandon? { NotDropped(cm, inp.reason, now); }
    }
    StepKeepsInv(cm, inp, now);
  }

  lemma NotDropped(cm: LiveCm, reason: AbortReason, now: int)
    ensures !IsHit(cm, Abandon(reason)) && Step(cm, Abandon(reason), now).Done?
  {
    hide A.On, Apply;
    var m := EventEffect(cm, A.Abort(reason), now);
  }
}
