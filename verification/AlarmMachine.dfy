/** The alarm channel as an object that changes in place (crates/pnio/src/alarm/channel.rs). Each
    method is proved to take the step the functions of `AlarmChannels` describe, which is what the
    theorems about senders and receivers speak of. */
module AlarmMachine {
  import opened Wire
  import opened Rta
  import opened Status
  import opened AlarmChannels

  class AlarmChannel {
    const cfg: Config
    var state: SendState
    var queue: seq<AlarmReq>
    var nextSendSeq: u16
    var lastSentSeq: u16
    var lastRxSeq: u16
    var attempt: nat
    var stats: Stats
    var specifierSeq: u16

    ghost function Value(): Channel
      reads this
    {
      Channel.Channel(cfg, state, queue, nextSendSeq, lastSentSeq, lastRxSeq, attempt, stats, specifierSeq)
    }

    constructor (cfg: Config)
      ensures Value() == NewChannel(cfg)
    {
      this.cfg := cfg;
      state := Idle;
      queue := [];
      nextSendSeq := SEQ_INIT;
      lastSentSeq := SEQ_NONE;
      lastRxSeq := SEQ_NONE;
      attempt := 0;
      stats := Stats(0, 0, 0, 0, 0, 0, 0);
      specifierSeq := 0;
    }

    method Enqueue(req: AlarmReq, now: int) returns (r: Result<seq<AlarmAction>, AlarmError>)
      modifies this
      ensures match AlarmChannels.Enqueue(old(Value()), req, now)
              case Ok(step) => Value() == step.0 && r == Ok(step.1)
              case Err(e) => Value() == old(Value()) && r == Err(e)
    {
      var len := NOTIFICATION_FIXED_LEN + DataLen(req.notification.data);
      if len > cfg.maxAlarmDataLength { return Err(TooLong(len, cfg.maxAlarmDataLength)); }
      queue := queue + [req];
      var actions := SendNext(now);
      return Ok(actions);
    }

    method OnFrame(frame: Bytes, now: int) returns (actions: seq<AlarmAction>)
      modifies this
      ensures (Value(), actions) == AlarmChannels.OnFrame(old(Value()), frame, now)
    {
      var p := ParseFrame(frame);
      if p.Err? {
        actions := Unexpected();
        return;
      }
      var eth := ParseEth(frame);
      if eth.None? || eth.value.0.src != cfg.peer {
        actions := Unexpected();
        return;
      }
      var pdu := p.value;
      match pdu.body
      case BAck => actions := OnTransportAck(pdu.header.ackSeq, now);
      case BData(data) => actions := OnData(pdu.header, pdu.priority, data, now);
      case BErr(status) => actions := OnErrRta(status);
      case BNack => actions := Unexpected();
    }

    method OnTick(now: int) returns (actions: seq<AlarmAction>)
      modifies this
      ensures (Value(), actions) == AlarmChannels.OnTick(old(Value()), now)
    {
      match state
      case Idle => return [];
      case SentData(_, _, _, deadline) =>
        if now < deadline { return []; }
        actions := RetryOrAbort(now);
      case AwaitAlarmAck(_, deadline) =>
        if now < deadline { return []; }
        actions := DropUnacknowledged(now);
    }

    /** The ERR-RTA to announce an abort with. */
    method ErrRta(status: PnioStatus) returns (pdu: RtaPdu)
      ensures pdu == ErrRtaPdu(Value(), status)
    {
      pdu := RtaPdu(Low, RtaHeader(cfg.remoteRef, cfg.localRef, TErr, false, lastSentSeq, lastRxSeq), BErr(status));
    }

    method NextSpecifierSequence() returns (v: u16)
      modifies this
      ensures (v, Value()) == TakeSpecifier(old(Value()))
    {
      v := specifierSeq;
      specifierSeq := (specifierSeq + 1) % 0x800;
    }

    method SendNext(now: int) returns (actions: seq<AlarmAction>)
      modifies this
      ensures (Value(), actions) == AlarmChannels.SendNext(old(Value()), now)
    {
      if !state.Idle? || queue == [] { return []; }
      var req, s := queue[0], nextSendSeq;
      queue := queue[1..];
      var frame := DataPdu(cfg, req, s, lastRxSeq);
      lastSentSeq := s;
      nextSendSeq := NextSeq(s);
      attempt := 0;
      stats := stats.(sent := stats.sent + 1);
      state := SentData(req, s, frame, now + cfg.rtaTimeout);
      return [Send(frame)];
    }

    method OnTransportAck(ackSeq: u16, now: int) returns (actions: seq<AlarmAction>)
      modifies this
      ensures (Value(), actions) == AlarmChannels.OnTransportAck(old(Value()), ackSeq, now)
    {
      if state.SentData? && ackSeq == state.seqNum {
        state := AwaitAlarmAck(state.req, now + cfg.rtaTimeout * ALARM_ACK_TIMEOUT_FACTOR);
      } else {
        stats := stats.(unexpectedRx := stats.unexpectedRx + 1);
      }
      return [];
    }

    method OnData(header: RtaHeader, priority: Priority, data: RtaData, now: int) returns (actions: seq<AlarmAction>)
      modifies this
      ensures (Value(), actions) == AlarmChannels.OnData(old(Value()), header, priority, data, now)
    {
      var ack := Send(RtaPdu(priority, RtaHeader(cfg.remoteRef, cfg.localRef, TAck, false, lastSentSeq, header.sendSeq),
                             BAck));
      if header.sendSeq == lastRxSeq { return [ack]; }
      lastRxSeq := header.sendSeq;
      var more;
      if data.Ack? && !state.Idle? && state.req.notification.alarmType == data.a.alarmType
         && state.req.notification.slot == data.a.slot && state.req.notification.subslot == data.a.subslot {
        var id := state.req.id;
        state := Idle;
        stats := stats.(acked := stats.acked + 1);
        more := SendNext(now);
        more := [Acked(id, data.a.status)] + more;
      } else {
        more := Unexpected();
      }
      return [ack] + more;
    }

    method OnErrRta(status: PnioStatus) returns (actions: seq<AlarmAction>)
      modifies this
      ensures (Value(), actions) == AlarmChannels.OnErrRta(old(Value()), status)
    {
      stats := stats.(rxErrRta := stats.rxErrRta + 1);
      state := Idle;
      queue := [];
      return [Abort(ControllerErrRta(status))];
    }

    method RetryOrAbort(now: int) returns (actions: seq<AlarmAction>)
      requires state.SentData?
      modifies this
      ensures (Value(), actions) == AlarmChannels.RetryOrAbort(old(Value()), now)
    {
      if attempt < cfg.rtaRetries {
        attempt := attempt + 1;
        stats := stats.(retries := stats.retries + 1);
        var frame := state.frame;
        state := SentData(state.req, state.seqNum, frame, now + cfg.rtaTimeout);
        return [Send(frame)];
      } else {
        stats := stats.(sendFailures := stats.sendFailures + 1);
        state := Idle;
        queue := [];
        return [Abort(AlarmSendFailed)];
      }
    }

    method DropUnacknowledged(now: int) returns (actions: seq<AlarmAction>)
      requires state.AwaitAlarmAck?
      modifies this
      ensures (Value(), actions) == AlarmChannels.DropUnacknowledged(old(Value()), now)
    {
      state := Idle;
      stats := stats.(ackTimeouts := stats.ackTimeouts + 1);
      actions := SendNext(now);
    }

    /** Counts a frame that means nothing here. */
    method Unexpected() returns (actions: seq<AlarmAction>)
      modifies this
      ensures Value() == AlarmChannels.Unexpected(old(Value())) && actions == [UnexpectedRx]
    {
      stats := stats.(unexpectedRx := stats.unexpectedRx + 1);
      return [UnexpectedRx];
    }
  }
}
