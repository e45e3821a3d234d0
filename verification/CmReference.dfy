/** The context manager told from the datagrams it was given (crates/pnio/src/cm/mod.rs): which event each
    input is to the application relation, and from that every datagram and notice it sends. */
module CmReference {
  import opened Wire
  import opened Status
  import opened Connect
  import opened Control
  import opened Records
  import opened Cms
  import opened CmRuns
  import opened ConnectRes
  import opened ArReference
  import A = Ars

  function ModelOf(run: Run): DeviceModel {
    match run case Start(model, _) => model case Then(before, _, _) => ModelOf(before)
  }

  function SeedOf(run: Run): Uuid {
    match run case Start(_, seed) => seed case Then(before, _, _) => SeedOf(before)
  }

  // --- the AR's own run ---------------------------------------------------------------------

  /** The reply given to this call if it is one of the last four answered: same activity, same number. */
  function Remembered(run: Run, h: ReqHeader): Option<Pdu> {
    Lookup(LastFour(Answered(run)), (h.activity, h.seqNum))
  }

  /** A request for the device that is not a repetition. */
  predicate IsNew(run: Run, h: ReqHeader) { h.iface == DEVICE_INTERFACE && Remembered(run, h).None? }

  /** The event an input is to the AR, if it is one. */
  function EventOf(run: Run, inp: Input): Option<A.Event> {
    match inp
    case Timer => Some(A.Tick)
    case Abandon(reason) => Some(A.Abort(reason))
    case Datagram(Response(Some(status)), _) => Some(A.AppReadyRsp(status))
    case Datagram(Request(h, Some((_, call))), _) => if IsNew(run, h) then RequestEvent(call) else None
    case _ => None
  }

  function ArRun(run: Run): A.Run {
    match run
    case Start(_, _) => A.Start
    case Then(before, inp, now) =>
      match EventOf(before, inp)
      case Some(ev) => A.Then(ArRun(before), ev, now)
      case None => ArRun(before)
  }

  lemma RememberedIsHit(run: Run, h: ReqHeader)
    ensures Remembered(run, h) == Lookup(After(run).cache, KeyOf(h))
  {
    CacheIsLastFour(run);
  }

  /** Serving a request is its event to the AR. */
  lemma ServeEvent(cm: Cm, call: Call, from: Addr, now: int)
    requires A.HasContext(cm.ar)
    ensures var (cm', actions) := Serve(cm, call, from, now);
      match RequestEvent(call)
      case Some(ev) => cm'.ar == A.On(cm.ar, ev, now).0 && actions == A.On(cm.ar, ev, now).1
      case None => cm'.ar == cm.ar
  {
    hide A.On, ParseWrite, ParseControl;
  }

  /** The state and the output of a step that is neither dropped nor a repetition, with the AR's move. */
  predicate Stepped(run: Run, inp: Input, now: int, m: A.Move) {
    var cm, cm' := After(run), After(Then(run, inp, now));
    && (A.Answers(m) ==> CtxOf(inp).Some?)
    && Effect(m, cm, cm', LastOutput(Then(run, inp, now)), CtxOf(inp))
    && A.HasContext(cm.ar)
    && match EventOf(run, inp)
       case Some(ev) => cm'.ar == A.On(cm.ar, ev, now).0 && A.ActionsOf(m) == A.On(cm.ar, ev, now).1
       case None => cm'.ar == cm.ar
  }

  lemma EventStepped(run: Run, inp: Input, now: int) returns (m: A.Move)
    requires EventOf(run, inp).Some? && !A.IsRequest(EventOf(run, inp).value)
    ensures !A.Answers(m) && Stepped(run, inp, now, m)
  {
    hide A.On, Apply, After, ParseWrite, ParseControl, Remembered, Effect, A.HasContext, Inv;
    var cm := After(run);
    HasContextIn(cm);
    StepKeepsInv(cm, inp, now);
    AfterThen(run, inp, now);
    m := EventEffect(cm, EventOf(run, inp).value, now);
  }

  lemma RequestStepped(run: Run, h: ReqHeader, argsMax: u32, call: Call, from: Addr, now: int) returns (m: A.Move)
    requires IsNew(run, h)
    ensures A.Answers(m) && Stepped(run, Datagram(Request(h, Some((argsMax, call))), from), now, m)
    ensures Serve(After(run), call, from, now).1 == A.ActionsOf(m)
  {
    hide A.On, Apply, After, ParseWrite, ParseControl, Remembered, Effect, A.HasContext, Inv, Serve, RequestEvent;
    var cm, inp := After(run), Datagram(Request(h, Some((argsMax, call))), from);
    HasContextIn(cm);
    StepKeepsInv(cm, inp, now);
    AfterThen(run, inp, now);
    RememberedIsHit(run, h);
    m := RequestEffect(cm, h, argsMax, call, from, now);
    ServeEvent(cm, call, from, now);
  }

  lemma AfterThen(run: Run, inp: Input, now: int)
    ensures A.HasContext(After(run).ar)
    ensures After(Then(run, inp, now)) == Settle(After(run), Step(After(run), inp, now))
    ensures LastOutput(Then(run, inp, now)) == OutputOf(Step(After(run), inp, now))
  {
  }

  /** Anything else leaves the state alone and is answered from the cache or not at all. */
  lemma OtherStepped(run: Run, inp: Input, now: int)
    requires EventOf(run, inp).None?
    requires inp.Datagram? && inp.p.Request? ==> inp.p.args.None? || !IsNew(run, inp.p.h)
    ensures After(Then(run, inp, now)) == After(run)
    ensures LastOutput(Then(run, inp, now))
         == if RequestKey(inp).Some? && Remembered(run, inp.p.h).Some?
            then Output([Outgoing(Remembered(run, inp.p.h).value, inp.from)], []) else NOTHING
  {
    hide A.On, Apply, After, Remembered, A.HasContext, Inv, Serve, RequestEvent, Lookup;
    AfterThen(run, inp, now);
    if RequestKey(inp).Some? { RememberedIsHit(run, inp.p.h); }
  }

  lemma EffectOutput(m: A.Move, cm: Cm, cm': Cm, out: Output, ctx: Option<RespondCtx>)
    requires (A.Answers(m) ==> ctx.Some?) && Effect(m, cm, cm', out, ctx)
    ensures cm'.activitySeed == cm.activitySeed && cm'.ar.model == cm.ar.model
    ensures out == Output((if A.Answers(m) then [Outgoing(ReplyFor(m, ctx.value), ctx.value.from)] else [])
                          + (if Calls(m) then [CallPdu(cm')] else []), NoticesOf(m))
  {
    hide Insert, ReplyFor, A.Inv, A.Moves, A.AppReadyCall;
  }

  /** The AR inside is exactly a run of its own machine, over the events the inputs are to it. */
  lemma {:induction false} ArRuns(run: Run)
    ensures After(run).ar == A.After(ModelOf(run), ArRun(run))
    ensures After(run).activitySeed == SeedOf(run)
  {
    if run.Then? {
      hide After, A.On, EventOf, IsNew, Effect, RequestEvent, LastOutput;
      var before, inp, now := run.before, run.inp, run.now;
      ArRuns(before);
      if inp.Datagram? && inp.p.Request? && inp.p.args.Some? && IsNew(before, inp.p.h) {
        var m := RequestStepped(before, inp.p.h, inp.p.args.value.0, inp.p.args.value.1, inp.from, now);
        EffectOutput(m, After(before), After(run), LastOutput(run), CtxOf(inp));
      } else {
        EventKinds(before, inp);
        if EventOf(before, inp).Some? {
          var m := EventStepped(before, inp, now);
          EffectOutput(m, After(before), After(run), LastOutput(run), CtxOf(inp));
        } else {
          OtherStepped(before, inp, now);
        }
      }
    } else {
      assert After(run) == NewCm(run.model, run.activitySeed);
    }
  }

  lemma EventKinds(run: Run, inp: Input)
    ensures EventOf(run, inp).Some? && A.IsRequest(EventOf(run, inp).value) ==>
      inp.Datagram? && inp.p.Request? && inp.p.args.Some? && IsNew(run, inp.p.h)
  {
  }

  // --- every output -------------------------------------------------------------------------

  /** The operation numbers of the PNIO interface. */
  function Number(call: Call): u16 {
    match call
    case ConnectCall(_) => 0
    case ReleaseCall(_) => 1
    case ReadCall(false, _) => 2
    case WriteCall(_) => 3
    case ControlCall(_) => 4
    case ReadCall(true, _) => 5
    case UnknownCall(number) => number
  }

  function StatusOf(m: A.Move): PnioStatus {
    match m case Served(status, _) => status case Replaced(status) => status case _ => OK
  }

  function BlocksOf(m: A.Move): Bytes {
    match m
    case Served(_, blocks) => blocks
    case ComeUp(blocks) => blocks
    case StartCalling(blocks, _) => blocks
    case Released(blocks) => blocks
    case Reborn(blocks) => blocks
    case _ => []
  }

  /** The answer to a request: its own header, operation and limit, and blocks only if it is granted. */
  function ReplyTo(h: ReqHeader, call: Call, argsMax: u32, m: A.Move): Pdu {
    Reply(h, Number(call), argsMax, StatusOf(m), if StatusOf(m) == OK then BlocksOf(m) else [])
  }

  function Knows(run: Run): Known { KnownOf(ModelOf(run), ArRun(run)) }

  /** What becomes of a request that is no event to the AR. */
  function Aside(k: Known, call: Call): A.Move {
    match call
    case ConnectCall(Err(RejectedWith(status))) => A.Served(status, [])
    case ConnectCall(_) => A.Served(ConnectReject(AR_BLOCK, 0xfe), [])
    case ReadCall(_, Err(RejectedWith(status))) => A.Served(status, [])
    case ReadCall(_, Err(BadBlocks)) => A.Served(READ_INDEX_UNSUPPORTED, [])
    case ReadCall(implicit, Ok(req)) =>
      if !implicit && (k.life.None? || k.life.value.req.ar.arUuid != req.arUuid) then A.Served(READ_WRONG_AR, [])
      else (match req.served
            case Some(blocks) => A.Served(OK, blocks)
            case None => A.Served(READ_INDEX_UNSUPPORTED, []))
    case WriteCall(_) => A.Served(WRITE_INDEX_UNSUPPORTED, [])
    case UnknownCall(_) => A.Served(SERVICE_UNSUPPORTED, [])
    case _ => A.Served(CONTROL_WRONG_STATE, [])
  }

  /** What a new request brings about. */
  ghost function Asked(run: Run, call: Call, now: int): A.Move {
    match RequestEvent(call)
    case Some(ev) => Reference(ModelOf(run), Knows(run), ev, now)
    case None => Aside(Knows(run), call)
  }

  /** Calls placed with a number of their own. */
  function NewCalls(calls: seq<Placed>): nat {
    if calls == [] then 0 else NewCalls(calls[..|calls| - 1]) + (if calls[|calls| - 1].isNew then 1 else 0)
  }

  /** The call a move places: a new one to whoever established the AR, numbered by the calls before it, or the
      last one again. */
  function CallFor(run: Run, m: A.Move): seq<Outgoing> {
    var calls, life, to := AllCalls(run), Knows(run).life, Establisher(run);
    if m.StartCalling? && life.Some? && to.Some? then
      [Outgoing(AppReady(life.value.req.ar.initiatorObjectUuid, SeedOf(run), NewCalls(calls), m.call), PortOf(to.value))]
    else if m.Retry? && calls != [] then [calls[|calls| - 1].o]
    else []
  }

  /** What a step sends and reports, from the inputs and outputs before it. */
  ghost function Expected(run: Run, inp: Input, now: int): Output {
    if RequestKey(inp).Some? then
      match Remembered(run, inp.p.h)
      case Some(pdu) => Output([Outgoing(pdu, inp.from)], [])
      case None =>
        match inp.p.args
        case None => NOTHING
        case Some((argsMax, call)) =>
          var m := Asked(run, call, now);
          Output([Outgoing(ReplyTo(inp.p.h, call, argsMax, m), inp.from)] + CallFor(run, m), NoticesOf(m))
    else
      match EventOf(run, inp)
      case None => NOTHING
      case Some(ev) =>
        var m := Reference(ModelOf(run), Knows(run), ev, now);
        Output(CallFor(run, m), NoticesOf(m))
  }

  lemma SameMove(m: A.Move, n: A.Move)
    requires A.ActionsOf(m) == A.ActionsOf(n)
    ensures m == n
  {
    var a, b := A.ActionsOf(m), A.ActionsOf(n);
    assert |a| == |b|;
    if |a| >= 1 { assert a[0] == b[0]; }
    if |a| >= 2 { assert a[1] == b[1]; }
    if |a| >= 3 { assert a[2] == b[2]; }
  }

  lemma {:induction false} NumberedCount(calls: seq<Placed>, n: nat)
    requires Numbered(calls, n)
    ensures NewCalls(calls) == n
    decreases |calls|
  {
    if calls != [] { NumberedCount(calls[..|calls| - 1], if calls[|calls| - 1].isNew then n - 1 else n); }
  }

  /** The move an event made is the one the reference names. */
  lemma MoveIsReference(run: Run, ev: A.Event, now: int, m: A.Move)
    requires A.HasContext(After(run).ar) && A.ActionsOf(m) == A.On(After(run).ar, ev, now).1
    ensures m == Reference(ModelOf(run), Knows(run), ev, now)
  {
    hide After, A.On, Reference, A.ActionsOf;
    ArRuns(run);
    AnswersAsReference(ModelOf(run), ArRun(run), ev, now);
    SameMove(m, Reference(ModelOf(run), Knows(run), ev, now));
  }

  /** The life known of the current AR names its initiator. */
  lemma InitiatorKnown(run: Run)
    ensures var ctx, life := After(run).ar.ctx, Knows(run).life;
      (ctx.Some? <==> life.Some?)
      && (ctx.Some? ==> ctx.value.params.initiatorObjectUuid == life.value.req.ar.initiatorObjectUuid
                        && ctx.value.params.arUuid == life.value.req.ar.arUuid)
  {
    hide After, A.On, Validate;
    ArRuns(run);
    A.ContextExplained(ModelOf(run), ArRun(run));
    var life := Knows(run).life;
    if life.Some? { KeptFields(life.value.req, ModelOf(run)); }
  }

  /** The call placed is the expected one. */
  lemma CallIsExpected(run: Run, cm': Cm, out: Output, ctx: Option<RespondCtx>, m: A.Move)
    requires (A.Answers(m) ==> ctx.Some?) && Effect(m, After(run), cm', out, ctx)
    ensures (if Calls(m) then [CallPdu(cm')] else []) == CallFor(run, m)
  {
    hide After, A.AppReadyCall, A.ContextOk, Insert, ReplyFor, CacheOk, AllCalls, Numbered, Uses, AllUsesShort, Establisher,
         LastFour, Answered, KnownOf;
    if Calls(m) {
      var cm := After(run);
      ArRuns(run);
      InitiatorKnown(run);
      CallsGoToEstablisher(run);
      CallsOfRun(run);
      NumberedCount(AllCalls(run), cm.callSeq);
    }
  }

  lemma AsideServes(run: Run, call: Call, from: Addr, now: int)
    requires RequestEvent(call).None? && A.HasContext(After(run).ar)
    ensures Serve(After(run), call, from, now).1 == A.ActionsOf(Aside(Knows(run), call))
  {
    hide After, A.On, ParseWrite, ParseControl, KnownOf;
    InitiatorKnown(run);
  }

  lemma ReplyIsExpected(h: ReqHeader, argsMax: u32, call: Call, from: Addr, m: A.Move)
    requires A.Answers(m)
    ensures ReplyFor(m, RespondCtx(h, OpnumOf(call), argsMax, from)) == ReplyTo(h, call, argsMax, m)
  {
  }

  /** Over every run, what any input sends and reports is what the history before it says: a repetition of one of
      the last four calls gets the reply it got before; any other request is answered to its sender, under its own
      header, operation number and limit, with the status the AR's move has and with blocks only if that is OK;
      calls go where the last accepted Connect came from; nothing else is sent. */
  lemma OutputsAsReference(run: Run, inp: Input, now: int)
    ensures LastOutput(Then(run, inp, now)) == Expected(run, inp, now)
  {
    hide After, A.On, Reference, Effect, RequestEvent, LastOutput, Remembered, Answered, KnownOf, CallFor, ReplyTo, ReplyFor,
         Serve, A.ActionsOf, A.HasContext, Aside, NoticesOf;
    if RequestKey(inp).Some? && Remembered(run, inp.p.h).None? && inp.p.args.Some? {
      var (argsMax, call) := inp.p.args.value;
      var m := RequestStepped(run, inp.p.h, argsMax, call, inp.from, now);
      var cm' := After(Then(run, inp, now));
      EffectOutput(m, After(run), cm', LastOutput(Then(run, inp, now)), CtxOf(inp));
      CallIsExpected(run, cm', LastOutput(Then(run, inp, now)), CtxOf(inp), m);
      ReplyIsExpected(inp.p.h, argsMax, call, inp.from, m);
      if RequestEvent(call).Some? {
        MoveIsReference(run, RequestEvent(call).value, now, m);
      } else {
        AsideServes(run, call, inp.from, now);
        SameMove(m, Aside(Knows(run), call));
      }
    } else {
      EventKinds(run, inp);
      if EventOf(run, inp).Some? {
        var m := EventStepped(run, inp, now);
        var cm' := After(Then(run, inp, now));
        EffectOutput(m, After(run), cm', LastOutput(Then(run, inp, now)), CtxOf(inp));
        CallIsExpected(run, cm', LastOutput(Then(run, inp, now)), CtxOf(inp), m);
        MoveIsReference(run, EventOf(run, inp).value, now, m);
      } else {
        OtherStepped(run, inp, now);
      }
    }
  }

  // --- which requests are granted ------------------------------------------------------------

  /** The AR a request names is the one there is. */
  predicate Own(k: Known, arUuid: Uuid) { k.life.Some? && k.life.value.req.ar.arUuid == arUuid }

  /** From the request and the AR there is: what a request must be to be answered OK. */
  ghost predicate Grantable(model: DeviceModel, k: Known, call: Call) {
    match call
    case ConnectCall(Ok(req)) =>
      || (Own(k, req.ar.arUuid) && k.life.value.req.ar.sessionKey == req.ar.sessionKey)
      || (Acceptable(req, model)
          && (k.life.None? || Own(k, req.ar.arUuid)
              || k.life.value.req.ar.initiatorObjectUuid == req.ar.initiatorObjectUuid))
    case WriteCall(blocks) =>
      && ParseWrite(blocks).Ok? && k.life.Some?
      && (forall r <- ParseWrite(blocks).value :: Own(k, r.arUuid))
      && var all := k.life.value.records + ParseWrite(blocks).value;
         |all| <= 64 && |Joined(all)| <= 65536
    case ControlCall(blocks) =>
      ParseControl(blocks).Ok? && ParseControl(blocks).value.command == CMD_PRM_END && Own(k, ParseControl(blocks).value.arUuid)
    case ReleaseCall(blocks) =>
      ParseControl(blocks).Ok? && (k.life.None? || Own(k, ParseControl(blocks).value.arUuid))
    case ReadCall(implicit, Ok(req)) => req.served.Some? && (implicit || Own(k, req.arUuid))
    case _ => false
  }

  lemma {:induction false} SubmodulesNotOk(sms: seq<ExpectedSubmodule>, slot: u16, model: DeviceModel)
    ensures CheckSubmodules(sms, slot, model) != Some(OK)
  {
    hide Find;
    if sms != [] { SubmodulesNotOk(sms[1..], slot, model); }
  }

  lemma {:induction false} ExpectedNotOk(apis: seq<ExpectedApi>, model: DeviceModel)
    ensures CheckExpected(apis, model) != Some(OK)
  {
    hide FindSlot, CheckSubmodules;
    if apis != [] {
      SubmodulesNotOk(apis[0].submodules, apis[0].slot, model);
      ExpectedNotOk(apis[1..], model);
    }
  }

  lemma RefusedIsNotOk(req: ConnectReq, model: DeviceModel)
    ensures Validate(req, model) != Err(OK)
  {
    hide Find, FindSlot, CheckExpected, FindIocr;
    ExpectedNotOk(req.expected, model);
  }

  /** Over every run, a new request is answered OK if and only if it is grantable: a Connect to an idle AR exactly
      when it is acceptable to the device, a write exactly when all its records are the AR's own and fit. */
  lemma GrantedExactly(run: Run, h: ReqHeader, argsMax: u32, call: Call, from: Addr, now: int)
    requires IsNew(run, h)
    ensures var send := LastOutput(Then(run, Datagram(Request(h, Some((argsMax, call))), from), now)).send;
      && send != [] && send[0].to == from && send[0].pdu.Reply? && send[0].pdu.h == h
      && send[0].pdu.opnum == Number(call) && send[0].pdu.argsMax == argsMax
      && (send[0].pdu.status == OK <==> Grantable(ModelOf(run), Knows(run), call))
      && (send[0].pdu.status != OK ==> send[0].pdu.blocks == [])
  {
    hide LastOutput, Remembered, KnownOf, CallFor, Acceptable, Joined, ParseWrite, ParseControl, BuildConnectRes, BuildWriteRes,
         WriteControl, NoticesOf, Validate;
    OutputsAsReference(run, Datagram(Request(h, Some((argsMax, call))), from), now);
    if call.ConnectCall? && call.connect.Ok? {
      RefusedIsNotOk(call.connect.value, ModelOf(run));
      ValidateExact(call.connect.value, ModelOf(run));
    }
  }
}
