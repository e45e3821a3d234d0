/** What the receiving half of an alarm channel guarantees over every run: every DATA of
    the peer is acknowledged, and its content is processed once per message. */
module AlarmReceiver {
  import opened Wire
  import opened Rta
  import opened AlarmChannels
  import opened AlarmSender

  /** The DATA PDU an event brings from the peer, if it brings one. */
  function DataOf(cfg: Config, ev: Event): (d: seq<RtaPdu>)
    ensures |d| <= 1
  {
    if ev.EvFrame? then
      match FromPeer(cfg, ev.frame)
      case Some(pdu) => if pdu.body.BData? then [pdu] else []
      case None => []
    else []
  }

  function Received(cfg: Config, run: Run): seq<RtaPdu> {
    match run
    case Start => []
    case Then(pre, ev) => Received(cfg, pre) + DataOf(cfg, ev)
  }

  /** The received DATA whose step did more than acknowledge it. */
  function Processed(cfg: Config, run: Run): seq<RtaPdu> {
    match run
    case Start => []
    case Then(pre, ev) =>
      Processed(cfg, pre) + if |Apply(After(cfg, pre), ev).1| > 1 then DataOf(cfg, ev) else []
  }

  /** Priority and acknowledged number of every ACK-RTA in a trace. */
  function AcksSent(acts: seq<AlarmAction>): seq<(Priority, u16)> {
    if acts == [] then []
    else
      var a := acts[|acts| - 1];
      AcksSent(acts[..|acts| - 1])
      + if a.Send? && a.pdu.body.BAck? then [(a.pdu.priority, a.pdu.header.ackSeq)] else []
  }

  function AcksDue(data: seq<RtaPdu>): seq<(Priority, u16)> {
    seq(|data|, i requires 0 <= i < |data| => (data[i].priority, data[i].header.sendSeq))
  }

  /** `data` without the PDUs that repeat the number just before them, `last` to begin with. */
  function Destutter(last: u16, data: seq<RtaPdu>): seq<RtaPdu> {
    if data == [] then []
    else
      var d := data[|data| - 1];
      var init := data[..|data| - 1];
      Destutter(last, init) + if d.header.sendSeq != LastSeq(last, init) then [d] else []
  }

  function LastSeq(last: u16, data: seq<RtaPdu>): u16 {
    if data == [] then last else data[|data| - 1].header.sendSeq
  }

  lemma DestutterAppend(data: seq<RtaPdu>, d: RtaPdu)
    ensures Destutter(SEQ_NONE, data + [d])
         == Destutter(SEQ_NONE, data) + if d.header.sendSeq != LastSeq(SEQ_NONE, data) then [d] else []
  {
    assert (data + [d])[..|data|] == data;
  }

  lemma {:induction false} AcksAppend(acts: seq<AlarmAction>, more: seq<AlarmAction>)
    ensures AcksSent(acts + more) == AcksSent(acts) + AcksSent(more)
  {
    if more == [] {
      assert acts + more == acts;
    } else {
      AcksAppend(acts, more[..|more| - 1]);
      assert (acts + more)[..|acts + more| - 1] == acts + more[..|more| - 1];
    }
  }

  lemma SendNextSendsNoAck(ch: Channel, now: int, pre: seq<AlarmAction>)
    ensures AcksSent(pre + SendNext(ch, now).1) == AcksSent(pre)
  {
    AcksAppend(pre, SendNext(ch, now).1);
  }

  /** The step on one DATA: acknowledged first, processed exactly when its number is new. */
  lemma DataStep(ch: Channel, h: RtaHeader, p: Priority, d: RtaData, now: int)
    ensures var (ch', out) := OnData(ch, h, p, d, now);
      && AcksSent(out) == [(p, h.sendSeq)]
      && (|out| > 1 <==> h.sendSeq != ch.lastRxSeq)
      && ch'.lastRxSeq == h.sendSeq
  {
    var ack := Send(AckPdu(ch, p, h.sendSeq));
    var out := OnData(ch, h, p, d, now).1;
    assert AcksSent([ack]) == [(p, h.sendSeq)];
    if h.sendSeq != ch.lastRxSeq {
      var ch1 := ch.(lastRxSeq := h.sendSeq);
      if d.Ack? && MatchesInFlight(ch1, d.a) {
        var acked := Acked(ch.state.req.id, d.a.status);
        var done := ch1.(state := Idle, stats := ch.stats.(acked := ch.stats.acked + 1));
        assert out == [ack, acked] + SendNext(done, now).1;
        SendNextSendsNoAck(done, now, [ack, acked]);
        assert [ack, acked] == [ack] + [acked];
      } else {
        assert out == [ack] + [UnexpectedRx];
      }
    }
  }

  /** A step that brings no DATA acknowledges nothing. */
  lemma OtherStep(ch: Channel, ev: Event)
    requires DataOf(ch.cfg, ev) == []
    requires ch.state.SentData? ==> ch.state.frame.body.BData?
    ensures var (ch', out) := Apply(ch, ev); AcksSent(out) == [] && ch'.lastRxSeq == ch.lastRxSeq
  {
    hide FromPeer, NextSeq;
    match ev
    case EvSpecifier =>
    case EvEnqueue(req, now) =>
      if !Refused(ch.cfg, req) { SendNextSendsNoAck(ch.(queue := ch.queue + [req]), now, []); }
    case EvTick(now) =>
      if ch.state.AwaitAlarmAck? {
        SendNextSendsNoAck(ch.(state := Idle, stats := ch.stats.(ackTimeouts := ch.stats.ackTimeouts + 1)), now, []);
      }
    case EvFrame(frame, now) =>
  }

  lemma ReceiverStep(cfg: Config, pre: Run, ev: Event)
    requires After(cfg, pre).lastRxSeq == LastSeq(SEQ_NONE, Received(cfg, pre))
    ensures var got := DataOf(cfg, ev); var (ch', out) := Apply(After(cfg, pre), ev);
      && AcksSent(out) == AcksDue(got)
      && ch'.lastRxSeq == LastSeq(SEQ_NONE, Received(cfg, pre) + got)
      && (got != [] ==> (|out| > 1 <==> got[0].header.sendSeq != LastSeq(SEQ_NONE, Received(cfg, pre))))
  {
    hide FromPeer, Enqueue, OnTick, OnData, OnErrRta, OnTransportAck, TakeSpecifier, Actions, FreshData;
    var ch, got := After(cfg, pre), DataOf(cfg, ev);
    RunNumbered(cfg, pre);
    if got == [] {
      OtherStep(ch, ev);
      assert Received(cfg, pre) + got == Received(cfg, pre);
    } else {
      DataStep(ch, got[0].header, got[0].priority, got[0].body.data, ev.now);
    }
  }

  lemma {:induction false} RunLastSeq(cfg: Config, run: Run)
    ensures After(cfg, run).lastRxSeq == LastSeq(SEQ_NONE, Received(cfg, run))
  {
    match run
    case Start =>
    case Then(pre, ev) =>
      hide Apply, DataOf;
      RunLastSeq(cfg, pre);
      ReceiverStep(cfg, pre, ev);
  }

  lemma AcksDueAppend(a: seq<RtaPdu>, b: seq<RtaPdu>)
    ensures AcksDue(a + b) == AcksDue(a) + AcksDue(b)
  {
  }

  lemma {:induction false} RunAcks(cfg: Config, run: Run)
    ensures AcksSent(Actions(cfg, run)) == AcksDue(Received(cfg, run))
  {
    match run
    case Start =>
    case Then(pre, ev) =>
      hide Apply, AcksSent, AcksDue, DataOf, After, LastSeq;
      RunAcks(cfg, pre);
      RunLastSeq(cfg, pre);
      ReceiverStep(cfg, pre, ev);
      AcksAppend(Actions(cfg, pre), Apply(After(cfg, pre), ev).1);
      AcksDueAppend(Received(cfg, pre), DataOf(cfg, ev));
  }

  lemma {:induction false} RunProcessed(cfg: Config, run: Run)
    ensures Processed(cfg, run) == Destutter(SEQ_NONE, Received(cfg, run))
  {
    match run
    case Start =>
    case Then(pre, ev) =>
      hide Apply, AcksSent, DataOf, After, Actions, Destutter;
      var got := DataOf(cfg, ev);
      RunProcessed(cfg, pre);
      RunLastSeq(cfg, pre);
      ReceiverStep(cfg, pre, ev);
      if got == [] {
        assert Received(cfg, run) == Received(cfg, pre);
      } else {
        DestutterAppend(Received(cfg, pre), got[0]);
        assert got == [got[0]];
      }
  }

  /** Over every run: one ACK-RTA per DATA, with its own number and priority, in order; and the
      content is processed exactly at the entries that do not repeat the number before them. */
  lemma ReceiverExact(cfg: Config, run: Run)
    ensures AcksSent(Actions(cfg, run)) == AcksDue(Received(cfg, run))
    ensures Processed(cfg, run) == Destutter(SEQ_NONE, Received(cfg, run))
  {
    RunAcks(cfg, run);
    RunProcessed(cfg, run);
  }

  // --- arrivals that repeat ------------------------------------------------------

  function Copies(pdu: RtaPdu, n: nat): seq<RtaPdu> { seq(n, _ => pdu) }

  /** What arrives of `msgs` when message i arrives `copies[i]` times before message i + 1. */
  function Arrivals(msgs: seq<RtaPdu>, copies: seq<nat>): seq<RtaPdu>
    requires |msgs| == |copies|
  {
    if msgs == [] then []
    else
      var k := |msgs| - 1;
      Arrivals(msgs[..k], copies[..k]) + Copies(msgs[k], copies[k])
  }

  /** Neighbouring messages carry different numbers and the first is not the reserved 0xFFFE. */
  predicate NumberedByPeer(msgs: seq<RtaPdu>) {
    && (msgs != [] ==> msgs[0].header.sendSeq != SEQ_NONE)
    && forall i :: 0 < i < |msgs| ==> msgs[i].header.sendSeq != msgs[i - 1].header.sendSeq
  }

  lemma {:induction false} DestutterCopies(pre: seq<RtaPdu>, pdu: RtaPdu, n: nat)
    requires n > 0
    ensures Destutter(SEQ_NONE, pre + Copies(pdu, n))
         == Destutter(SEQ_NONE, pre) + if pdu.header.sendSeq != LastSeq(SEQ_NONE, pre) then [pdu] else []
  {
    var all := pre + Copies(pdu, n);
    assert all[..|all| - 1] == pre + Copies(pdu, n - 1);
    if n == 1 {
      assert pre + Copies(pdu, 0) == pre;
    } else {
      DestutterCopies(pre, pdu, n - 1);
    }
  }

  lemma {:induction false} ArrivalsDestutter(msgs: seq<RtaPdu>, copies: seq<nat>)
    requires |msgs| == |copies| && forall i :: 0 <= i < |copies| ==> copies[i] > 0
    requires NumberedByPeer(msgs)
    ensures Destutter(SEQ_NONE, Arrivals(msgs, copies)) == msgs
    ensures LastSeq(SEQ_NONE, Arrivals(msgs, copies)) == LastSeq(SEQ_NONE, msgs)
    decreases |msgs|
  {
    if msgs != [] {
      var k := |msgs| - 1;
      ArrivalsDestutter(msgs[..k], copies[..k]);
      DestutterCopies(Arrivals(msgs[..k], copies[..k]), msgs[k], copies[k]);
    }
  }

  /** Messages that each arrive at least once, in order, are each processed exactly once, however often
      they are repeated. */
  lemma ArrivalsProcessedOnce(cfg: Config, run: Run, msgs: seq<RtaPdu>, copies: seq<nat>)
    requires |msgs| == |copies| && forall i :: 0 <= i < |copies| ==> copies[i] > 0
    requires NumberedByPeer(msgs)
    requires Received(cfg, run) == Arrivals(msgs, copies)
    ensures Processed(cfg, run) == msgs
  {
    RunProcessed(cfg, run);
    ArrivalsDestutter(msgs, copies);
  }

  /** The numbers this stack itself sends satisfy the peer's side of that argument. */
  lemma OwnNumberingIsAccepted(cfg: Config, run: Run)
    ensures NumberedByPeer(FreshData(Actions(cfg, run)))
  {
    hide FreshData, Actions, After, Resends;
    RunNumbered(cfg, run);
    var sent := FreshData(Actions(cfg, run));
    forall i | 0 < i < |sent| ensures sent[i].header.sendSeq != sent[i - 1].header.sendSeq {
      SeqAtNext(i - 1);
    }
  }
}
