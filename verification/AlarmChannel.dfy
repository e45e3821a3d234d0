/** One alarm priority's sender and receiver (crates/pnio/src/alarm/channel.rs), as a
    function of its state. Frames to send are kept as the PDUs they carry; their
    bytes are `Rta.BuildFrame(cfg.peer, cfg.our, pdu)`. */
module AlarmChannels {
  import opened Wire
  import opened Rta
  import opened Status

  const NOTIFICATION_FIXED_LEN := 24
  const ALARM_ACK_TIMEOUT_FACTOR := 10

  datatype Config = Config(localRef: u16, remoteRef: u16, rtaTimeout: nat, rtaRetries: u16,
                           maxAlarmDataLength: u16, peer: Mac, our: Mac)

  datatype AlarmReq = AlarmReq(id: u32, priority: Priority, notification: AlarmNotification)

  datatype AlarmAction =
    | Send(pdu: RtaPdu)
    | Acked(id: u32, status: PnioStatus)
    | Abort(reason: AbortReason)
    | UnexpectedRx

  datatype AlarmError = TooLong(len: nat, max: u16)

  datatype Stats = Stats(sent: nat, acked: nat, retries: nat, unexpectedRx: nat,
                         sendFailures: nat, ackTimeouts: nat, rxErrRta: nat)

  datatype SendState =
    | Idle
    | SentData(req: AlarmReq, seqNum: u16, frame: RtaPdu, deadline: int)
    | AwaitAlarmAck(req: AlarmReq, deadline: int)

  datatype Channel = Channel(cfg: Config, state: SendState, queue: seq<AlarmReq>,
                             nextSendSeq: u16, lastSentSeq: u16, lastRxSeq: u16,
                             attempt: nat, stats: Stats, specifierSeq: u16)

  type Step = (Channel, seq<AlarmAction>)

  function NewChannel(cfg: Config): Channel {
    Channel.Channel(cfg, Idle, [], SEQ_INIT, SEQ_NONE, SEQ_NONE, 0, Stats(0, 0, 0, 0, 0, 0, 0), 0)
  }

  function DataLen(d: UserData): nat {
    match d case Raw(b) => |b| case Channel(_) => 6 case ExtChannel(_) => 12
  }

  function NextSeq(s: u16): u16 {
    if s == SEQ_INIT then 0 else (s + 1) % 0x8000
  }

  function DataPdu(cfg: Config, req: AlarmReq, s: u16, ackSeq: u16): RtaPdu {
    RtaPdu(req.priority, RtaHeader(cfg.remoteRef, cfg.localRef, TData, true, s, ackSeq),
           BData(Notification(req.notification)))
  }

  /** The transport acknowledgement of the DATA numbered `received`. */
  function AckPdu(ch: Channel, priority: Priority, received: u16): RtaPdu {
    RtaPdu(priority, RtaHeader(ch.cfg.remoteRef, ch.cfg.localRef, TAck, false, ch.lastSentSeq, received),
           BAck)
  }

  function ErrRtaPdu(ch: Channel, status: PnioStatus): RtaPdu {
    RtaPdu(Low, RtaHeader(ch.cfg.remoteRef, ch.cfg.localRef, TErr, false, ch.lastSentSeq, ch.lastRxSeq),
           BErr(status))
  }

  function Unexpected(ch: Channel): Channel {
    ch.(stats := ch.stats.(unexpectedRx := ch.stats.unexpectedRx + 1))
  }

  function SendNext(ch: Channel, now: int): Step {
    if !ch.state.Idle? || ch.queue == [] then (ch, [])
    else
      var req, s := ch.queue[0], ch.nextSendSeq;
      var frame := DataPdu(ch.cfg, req, s, ch.lastRxSeq);
      (ch.(state := SentData(req, s, frame, now + ch.cfg.rtaTimeout), queue := ch.queue[1..],
           nextSendSeq := NextSeq(s), lastSentSeq := s, attempt := 0,
           stats := ch.stats.(sent := ch.stats.sent + 1)),
       [Send(frame)])
  }

  predicate Refused(cfg: Config, req: AlarmReq) {
    NOTIFICATION_FIXED_LEN + DataLen(req.notification.data) > cfg.maxAlarmDataLength
  }

  function Enqueue(ch: Channel, req: AlarmReq, now: int): Result<Step, AlarmError> {
    if Refused(ch.cfg, req) then
      Err(TooLong(NOTIFICATION_FIXED_LEN + DataLen(req.notification.data), ch.cfg.maxAlarmDataLength))
    else Ok(SendNext(ch.(queue := ch.queue + [req]), now))
  }

  function OnTransportAck(ch: Channel, ackSeq: u16, now: int): Step {
    if ch.state.SentData? && ackSeq == ch.state.seqNum then
      (ch.(state := AwaitAlarmAck(ch.state.req, now + ch.cfg.rtaTimeout * ALARM_ACK_TIMEOUT_FACTOR)), [])
    else (Unexpected(ch), [])
  }

  /** An acknowledgement is matched by alarm type, slot and subslot. */
  predicate MatchesInFlight(ch: Channel, a: AlarmAck) {
    !ch.state.Idle?
    && ch.state.req.notification.alarmType == a.alarmType
    && ch.state.req.notification.slot == a.slot
    && ch.state.req.notification.subslot == a.subslot
  }

  function OnContent(ch: Channel, data: RtaData, now: int): Step {
    if data.Ack? && MatchesInFlight(ch, data.a) then
      var done := ch.(state := Idle, stats := ch.stats.(acked := ch.stats.acked + 1));
      var (ch', sends) := SendNext(done, now);
      (ch', [Acked(ch.state.req.id, data.a.status)] + sends)
    else (Unexpected(ch), [UnexpectedRx])
  }

  function OnData(ch: Channel, header: RtaHeader, priority: Priority, data: RtaData, now: int): Step {
    var ack := Send(AckPdu(ch, priority, header.sendSeq));
    if header.sendSeq == ch.lastRxSeq then (ch, [ack])
    else
      var (ch', actions) := OnContent(ch.(lastRxSeq := header.sendSeq), data, now);
      (ch', [ack] + actions)
  }

  function OnErrRta(ch: Channel, status: PnioStatus): Step {
    (ch.(state := Idle, queue := [], stats := ch.stats.(rxErrRta := ch.stats.rxErrRta + 1)),
     [Abort(ControllerErrRta(status))])
  }

  function RetryOrAbort(ch: Channel, now: int): Step
    requires ch.state.SentData?
  {
    if ch.attempt < ch.cfg.rtaRetries then
      (ch.(state := SentData(ch.state.req, ch.state.seqNum, ch.state.frame, now + ch.cfg.rtaTimeout),
           attempt := ch.attempt + 1, stats := ch.stats.(retries := ch.stats.retries + 1)),
       [Send(ch.state.frame)])
    else
      (ch.(state := Idle, queue := [], stats := ch.stats.(sendFailures := ch.stats.sendFailures + 1)),
       [Abort(AlarmSendFailed)])
  }

  function DropUnacknowledged(ch: Channel, now: int): Step
    requires ch.state.AwaitAlarmAck?
  {
    SendNext(ch.(state := Idle, stats := ch.stats.(ackTimeouts := ch.stats.ackTimeouts + 1)), now)
  }

  function OnTick(ch: Channel, now: int): Step {
    if ch.state.Idle? || now < ch.state.deadline then (ch, [])
    else if ch.state.SentData? then RetryOrAbort(ch, now)
    else DropUnacknowledged(ch, now)
  }

  function OnPdu(ch: Channel, pdu: RtaPdu, now: int): Step {
    match pdu.body
    case BAck => OnTransportAck(ch, pdu.header.ackSeq, now)
    case BData(d) => OnData(ch, pdu.header, pdu.priority, d, now)
    case BErr(status) => OnErrRta(ch, status)
    case BNack => (Unexpected(ch), [UnexpectedRx])
  }

  /** The PDU of a frame that parses and comes from the peer; any other frame is unexpected. */
  function FromPeer(cfg: Config, frame: Bytes): Option<RtaPdu> {
    match ParseFrame(frame)
    case Err(_) => None
    case Ok(pdu) =>
      if ParseEth(frame).None? || ParseEth(frame).value.0.src != cfg.peer then None else Some(pdu)
  }

  function OnFrame(ch: Channel, frame: Bytes, now: int): Step {
    match FromPeer(ch.cfg, frame)
    case None => (Unexpected(ch), [UnexpectedRx])
    case Some(pdu) => OnPdu(ch, pdu, now)
  }

  /** The per-AR specifier sequence to stamp, and the channel after taking it. */
  function TakeSpecifier(ch: Channel): (u16, Channel) {
    (ch.specifierSeq, ch.(specifierSeq := (ch.specifierSeq + 1) % 0x800))
  }
}
