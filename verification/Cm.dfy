/** The context manager (crates/pnio/src/cm/mod.rs), as a function of its state: the retransmission
    cache, the numbering of outgoing calls and the controller's address around the AR machine.
    The DCE-RPC and NDR envelope is abstract: a datagram is its decoded fields, and a PDU to send is
    the fields its octets are built from, so equal PDUs are equal octets. */
module Cms {
  import opened Wire
  import opened Status
  import opened Connect
  import opened Control
  import opened Records
  import A = Ars

  const PNIO_UDP_PORT: u16 := 34964
  const CACHE_CAPACITY := 4
  const DEVICE_INTERFACE: Uuid :=
    [0xDE, 0xA0, 0x00, 0x01, 0x6C, 0x97, 0x11, 0xD1, 0x82, 0x71, 0x00, 0xA0, 0x24, 0x42, 0xDF, 0x7D]

  datatype Addr = Addr(ip: u32, port: u16)

  /** Activity and sequence number: what identifies a call. */
  type Key = (Uuid, u32)

  type Refusal = s: PnioStatus | s != OK witness 1

  datatype CmError = RejectedWith(status: Refusal) | BadBlocks

  /** A read that parsed: its AR, and the response blocks if the record is served. */
  datatype ReadReq = ReadReq(arUuid: Uuid, served: Option<Bytes>)

  /** The operation a request asks for, with its blocks. Connect and Read carry the outcome of parsing
      theirs. */
  datatype Call =
    | ConnectCall(connect: Result<ConnectReq, CmError>)
    | ReleaseCall(blocks: Bytes)
    | ReadCall(implicit: bool, read: Result<ReadReq, CmError>)
    | WriteCall(blocks: Bytes)
    | ControlCall(blocks: Bytes)
    | UnknownCall(number: u16)

  datatype ReqHeader = ReqHeader(object: Uuid, iface: Uuid, activity: Uuid, seqNum: u32)

  datatype Packet =
    | NotRpc
    | Response(ndr: Option<PnioStatus>)
    | OtherType
    | Request(h: ReqHeader, args: Option<(u32, Call)>)

  datatype Pdu =
    | Reply(h: ReqHeader, opnum: u16, argsMax: u32, status: PnioStatus, blocks: Bytes)
    | AppReady(object: Uuid, activity: Uuid, seqNum: nat, blocks: Bytes)

  datatype Outgoing = Outgoing(pdu: Pdu, to: Addr)

  type Notice = (A.ArState, Option<AbortReason>)

  datatype Output = Output(send: seq<Outgoing>, notify: seq<Notice>)

  datatype Cm = Cm(ar: A.Ar, activitySeed: Uuid, callSeq: nat, currentCallSeq: Option<nat>,
                   controllerAddr: Option<Addr>, cache: seq<(Key, Pdu)>)

  /** `Panic` is a failed `expect`; `Failed` an envelope error the caller logs and drops. */
  datatype Outcome = Panic | Failed | Done(cm: Cm, out: Output)

  datatype RespondCtx = RespondCtx(h: ReqHeader, opnum: u16, argsMax: u32, from: Addr)

  const NOTHING := Output([], [])

  function NewCm(model: DeviceModel, activitySeed: Uuid): Cm {
    Cm.Cm(A.NewAr(model), activitySeed, 0, None, None, [])
  }

  function KeyOf(h: ReqHeader): Key { (h.activity, h.seqNum) }

  function OpnumOf(call: Call): u16 {
    match call
    case ConnectCall(_) => 0
    case ReleaseCall(_) => 1
    case ReadCall(implicit, _) => if implicit then 5 else 2
    case WriteCall(_) => 3
    case ControlCall(_) => 4
    case UnknownCall(number) => number
  }

  function ErrorStatus(e: CmError, fallback: PnioStatus): PnioStatus {
    match e case RejectedWith(status) => status case BadBlocks => fallback
  }

  function Lookup(cache: seq<(Key, Pdu)>, key: Key): (r: Option<Pdu>)
    ensures r.Some? ==> (key, r.value) in cache
    ensures r.None? ==> forall e <- cache :: e.0 != key
  {
    if cache == [] then None else if cache[0].0 == key then Some(cache[0].1) else Lookup(cache[1..], key)
  }

  function Insert(cache: seq<(Key, Pdu)>, key: Key, pdu: Pdu): seq<(Key, Pdu)> {
    (if |cache| >= CACHE_CAPACITY then cache[1..] else cache) + [(key, pdu)]
  }

  function ReplyPdu(ctx: RespondCtx, status: PnioStatus, blocks: Bytes): Pdu {
    Reply(ctx.h, ctx.opnum, ctx.argsMax, status, if status == OK then blocks else [])
  }

  /** What placing a call relies on. */
  predicate CanCall(cm: Cm, isNew: bool) {
    cm.controllerAddr.Some? && cm.ar.ctx.Some? && (isNew || cm.currentCallSeq.Some?)
  }

  function Place(cm: Cm, blocks: Bytes, isNew: bool): (Cm, Outgoing)
    requires CanCall(cm, isNew)
  {
    var seqNum := if isNew then cm.callSeq else cm.currentCallSeq.value;
    (if isNew then cm.(callSeq := cm.callSeq + 1, currentCallSeq := Some(seqNum)) else cm,
     Outgoing(AppReady(cm.ar.ctx.value.params.initiatorObjectUuid, cm.activitySeed, seqNum, blocks),
              cm.controllerAddr.value))
  }

  /** Carries out the AR's actions in order. */
  function Apply(cm: Cm, actions: seq<A.Action>, ctx: Option<RespondCtx>, isNew: bool, out: Output): Outcome
    decreases |actions|
  {
    if actions == [] then Done(cm, out)
    else
      match actions[0]
      case Respond(status, blocks) =>
        if ctx.None? then Apply(cm, actions[1..], ctx, isNew, out)
        else
          var pdu := ReplyPdu(ctx.value, status, blocks);
          Apply(cm.(cache := Insert(cm.cache, KeyOf(ctx.value.h), pdu)), actions[1..], ctx, isNew,
                out.(send := out.send + [Outgoing(pdu, ctx.value.from)]))
      case CallController(blocks) =>
        if !CanCall(cm, isNew) then Panic
        else
          var (cm', o) := Place(cm, blocks, isNew);
          Apply(cm', actions[1..], ctx, isNew, out.(send := out.send + [o]))
      case Notify(state, reason) =>
        Apply(cm, actions[1..], ctx, isNew, out.(notify := out.notify + [(state, reason)]))
  }

  function OnAr(cm: Cm, ev: A.Event, now: int): (Cm, seq<A.Action>)
    requires A.HasContext(cm.ar)
  {
    var (ar, actions) := A.On(cm.ar, ev, now);
    (cm.(ar := ar), actions)
  }

  /** A Connect that establishes an AR makes its sender the controller and forgets the last call. */
  function Redirect(cm: Cm, actions: seq<A.Action>, from: Addr): Cm {
    if exists a <- actions :: a.Notify? && a.state.Connected?
    then cm.(controllerAddr := Some(Addr(from.ip, PNIO_UDP_PORT)), currentCallSeq := None)
    else cm
  }

  function ServeRead(cm: Cm, req: ReadReq, checkAr: bool): seq<A.Action> {
    if checkAr && (cm.ar.ctx.None? || cm.ar.ctx.value.params.arUuid != req.arUuid)
    then [A.Reject(READ_WRONG_AR)]
    else
      match req.served
      case Some(blocks) => [A.Respond(OK, blocks)]
      case None => [A.Reject(READ_INDEX_UNSUPPORTED)]
  }

  /** The effect of a request on the AR and the actions it asks for. */
  function Serve(cm: Cm, call: Call, from: Addr, now: int): (Cm, seq<A.Action>)
    requires A.HasContext(cm.ar)
  {
    match call
    case ConnectCall(connect) =>
      var (cm', actions) :=
        match connect
        case Ok(req) => OnAr(cm, A.Connecting(req), now)
        case Err(e) => (cm, [A.Reject(ErrorStatus(e, ConnectReject(AR_BLOCK, 0xfe)))]);
      (Redirect(cm', actions, from), actions)
    case WriteCall(blocks) =>
      (match ParseWrite(blocks)
       case Ok(records) => OnAr(cm, A.Writing(records), now)
       case Err(_) => (cm, [A.Reject(WRITE_INDEX_UNSUPPORTED)]))
    case ControlCall(blocks) =>
      (match ParseControl(blocks)
       case Ok(cb) =>
         if cb.command == CMD_PRM_END then OnAr(cm, A.PrmEnd(cb), now)
         else (cm, [A.Reject(CONTROL_WRONG_STATE)])
       case Err(_) => (cm, [A.Reject(CONTROL_WRONG_STATE)]))
    case ReleaseCall(blocks) =>
      (match ParseControl(blocks)
       case Ok(cb) => OnAr(cm, A.Release(cb), now)
       case Err(_) => (cm, [A.Reject(CONTROL_WRONG_STATE)]))
    case ReadCall(implicit, read) =>
      (match read
       case Ok(req) => (cm, ServeRead(cm, req, !implicit))
       case Err(e) => (cm, [A.Reject(ErrorStatus(e, READ_INDEX_UNSUPPORTED))]))
    case UnknownCall(_) => (cm, [A.Reject(SERVICE_UNSUPPORTED)])
  }

  function OnRequest(cm: Cm, h: ReqHeader, args: Option<(u32, Call)>, from: Addr, now: int): Outcome
    requires A.HasContext(cm.ar)
  {
    if h.iface != DEVICE_INTERFACE then Failed
    else
      match Lookup(cm.cache, KeyOf(h))
      case Some(pdu) => Done(cm, Output([Outgoing(pdu, from)], []))
      case None =>
        match args
        case None => Failed
        case Some((argsMax, call)) =>
          var (cm', actions) := Serve(cm, call, from, now);
          Apply(cm', actions, Some(RespondCtx(h, OpnumOf(call), argsMax, from)), true, NOTHING)
  }

  function HandleDatagram(cm: Cm, p: Packet, from: Addr, now: int): Outcome
    requires A.HasContext(cm.ar)
  {
    match p
    case NotRpc => Failed
    case OtherType => Done(cm, NOTHING)
    case Response(ndr) =>
      if ndr.None? then Failed
      else
        var (cm', actions) := OnAr(cm, A.AppReadyRsp(ndr.value), now);
        Apply(cm', actions, None, false, NOTHING)
    case Request(h, args) => OnRequest(cm, h, args, from, now)
  }

  function Ticking(cm: Cm, now: int): Outcome
    requires A.HasContext(cm.ar)
  {
    var (cm', actions) := OnAr(cm, A.Tick, now);
    Apply(cm', actions, None, false, NOTHING)
  }

  function Aborting(cm: Cm, reason: AbortReason, now: int): Outcome
    requires A.HasContext(cm.ar)
  {
    var (cm', actions) := OnAr(cm, A.Abort(reason), now);
    Apply(cm', actions, None, false, NOTHING)
  }

  // --- what holds in every reachable state -----------------------------------------

  predicate DistinctKeys(cache: seq<(Key, Pdu)>) {
    forall i, j :: 0 <= i < j < |cache| ==> cache[i].0 != cache[j].0
  }

  /** At most four entries with distinct keys, each the reply to its own key. */
  predicate CacheOk(cache: seq<(Key, Pdu)>) {
    && |cache| <= CACHE_CAPACITY && DistinctKeys(cache)
    && forall e <- cache :: e.1.Reply? && KeyOf(e.1.h) == e.0
  }

  /** An AR has an address to call; once called, the call's number is the last one given out. */
  predicate CallsOk(cm: Cm) {
    && (!cm.ar.state.Idle? ==> cm.controllerAddr.Some?)
    && (cm.ar.state.AppReadySent? || cm.ar.state.Data? ==> cm.currentCallSeq.Some?)
    && (cm.currentCallSeq.Some? ==> cm.currentCallSeq.value + 1 == cm.callSeq)
  }

  predicate Inv(cm: Cm) { A.Inv(cm.ar) && CallsOk(cm) && CacheOk(cm.cache) }

  /** The steps of the context manager. */
  datatype Input = Datagram(p: Packet, from: Addr) | Timer | Abandon(reason: AbortReason)

  function Step(cm: Cm, inp: Input, now: int): Outcome
    requires A.HasContext(cm.ar)
  {
    match inp
    case Datagram(p, from) => HandleDatagram(cm, p, from, now)
    case Timer => Ticking(cm, now)
    case Abandon(reason) => Aborting(cm, reason, now)
  }
}
