/** What the receiving end of an alarm channel learns from the DATA it hears, and that the sender
    (crates/pnio/src/alarm/channel.rs) loses and reorders nothing between its queue and the wire. */
module AlarmMirror {
  import opened Wire
  import opened Rta
  import opened AlarmChannels
  import D = Diag

  /** A controller: the number of the last DATA it took, the diagnoses it knows of, and whether every
      frame so far could be read back. */
  datatype Controller = Controller(last: u16, view: D.View, legible: bool)

  const KNOWS_NOTHING := Controller(SEQ_NONE, map[], true)

  /** The frame built from the PDU parses to the PDU. */
  predicate Legible(pdu: RtaPdu) { Fits(pdu) && Canonical(pdu) }

  /** It takes a notification unless it repeats the number of the one before. */
  function Hear(c: Controller, pdu: RtaPdu): Controller {
    var legible := c.legible && Legible(pdu);
    if pdu.body.BData? && pdu.body.data.Notification? && pdu.header.sendSeq != c.last
    then Controller(pdu.header.sendSeq, D.Learn(c.view, pdu.body.data.n), legible)
    else c.(legible := legible)
  }

  function HearAll(c: Controller, pdus: seq<RtaPdu>): Controller
    decreases |pdus|
  {
    if pdus == [] then c else HearAll(Hear(c, pdus[0]), pdus[1..])
  }

  lemma {:induction false} HearConcat(c: Controller, a: seq<RtaPdu>, b: seq<RtaPdu>)
    ensures HearAll(c, a + b) == HearAll(HearAll(c, a), b)
    decreases |a|
  {
    if a == [] {
      assert a + b == b;
    } else {
      assert (a + b)[1..] == a[1..] + b;
      HearConcat(Hear(c, a[0]), a[1..], b);
    }
  }

  /** The frames among some actions, in order. */
  function SendsOf(acts: seq<AlarmAction>): seq<RtaPdu> {
    if acts == [] then [] else (if acts[0].Send? then [acts[0].pdu] else []) + SendsOf(acts[1..])
  }

  function Notes(queue: seq<AlarmReq>): seq<AlarmNotification> {
    seq(|queue|, i requires 0 <= i < |queue| => queue[i].notification)
  }

  predicate HasAbort(acts: seq<AlarmAction>) { exists a <- acts :: a.Abort? }

  /** A batch of actions that aborts does nothing else. */
  predicate BatchOk(acts: seq<AlarmAction>) { HasAbort(acts) ==> |acts| == 1 }

  /** A channel diagnosis none of whose fields its encoding drops; a stamped one has a sequence number
      of eleven bits. */
  predicate Plain(n: AlarmNotification) {
    CanonicalType(n.alarmType) && n.data.Channel? && CanonicalData(n.usi, n.data)
  }

  predicate PlainAndStamped(n: AlarmNotification) { Plain(n) && n.specifier.sequence < 0x800 }

  predicate LegibleChannel(ch: Channel) {
    && ch.specifierSeq < 0x800
    && (forall r <- ch.queue :: PlainAndStamped(r.notification))
    && (ch.state.SentData? ==> Legible(ch.state.frame))
  }

  /** The next number differs from the last one, and what may be sent again carries the last one. */
  predicate NumbersOk(ch: Channel) {
    && (if ch.lastSentSeq == SEQ_NONE then ch.nextSendSeq == SEQ_INIT
        else (ch.lastSentSeq == SEQ_INIT || ch.lastSentSeq < 0x8000) && ch.nextSendSeq == NextSeq(ch.lastSentSeq))
    && (ch.state.SentData? ==> ch.state.frame.header.sendSeq == ch.lastSentSeq)
  }

  /** Having heard what `c` heard, and then what is still queued, the controller knows `target`. */
  predicate Telling(c: Controller, ch: Channel, target: D.View) {
    && NumbersOk(ch) && LegibleChannel(ch)
    && c.legible && c.last == ch.lastSentSeq && D.LearnAll(c.view, Notes(ch.queue)) == target
  }

  lemma SendsOfOne(a: AlarmAction)
    ensures SendsOf([a]) == if a.Send? then [a.pdu] else []
  {
    assert [a][1..] == [];
  }

  lemma SendsOfFirst(a: AlarmAction, rest: seq<AlarmAction>)
    ensures SendsOf([a] + rest) == (if a.Send? then [a.pdu] else []) + SendsOf(rest)
  {
    assert ([a] + rest)[1..] == rest;
  }

  lemma HearOne(c: Controller, pdu: RtaPdu)
    ensures HearAll(c, [pdu]) == Hear(c, pdu)
  {
    assert [pdu][1..] == [];
  }

  lemma NotesFirst(queue: seq<AlarmReq>)
    requires queue != []
    ensures Notes(queue) == [queue[0].notification] + Notes(queue[1..])
  {
  }

  /** Moving the head of the queue to the wire tells the controller what it was queued to tell. */
  lemma SendNextTells(ch: Channel, now: int, c: Controller, target: D.View)
    requires Telling(c, ch, target)
    ensures var (ch', acts) := SendNext(ch, now);
      Telling(HearAll(c, SendsOf(acts)), ch', target) && ch'.cfg == ch.cfg && !HasAbort(acts)
  {
    hide D.Learn, D.LearnAll, NextSeq, Legible, PlainAndStamped;
    var (ch', acts) := SendNext(ch, now);
    NextSeqMoves(ch.lastSentSeq);
    if acts != [] {
      assert ch.queue[0] in ch.queue && forall r <- ch.queue[1..] :: r in ch.queue;
      DataIsLegible(ch.cfg, ch.queue[0], ch.nextSendSeq, ch.lastRxSeq);
      SendsOfOne(acts[0]);
      HearOne(c, acts[0].pdu);
      NotesFirst(ch.queue);
      D.LearnAllFront(c.view, ch.queue[0].notification, Notes(ch.queue[1..]));
    }
  }

  lemma DataIsLegible(cfg: Config, req: AlarmReq, s: u16, ackSeq: u16)
    requires PlainAndStamped(req.notification)
    ensures Legible(DataPdu(cfg, req, s, ackSeq))
  {
  }

  lemma AckIsLegible(ch: Channel, p: Priority, s: u16)
    ensures Legible(AckPdu(ch, p, s))
  {
  }

  lemma NextSeqMoves(s: u16)
    ensures s == SEQ_INIT || s < 0x8000 ==> NextSeq(s) != s && NextSeq(s) < 0x8000
  {
  }

  lemma EnqueueTells(ch: Channel, req: AlarmReq, now: int, c: Controller, target: D.View)
    requires Telling(c, ch, target) && !Refused(ch.cfg, req) && PlainAndStamped(req.notification)
    ensures var (ch', acts) := Enqueue(ch, req, now).value;
      && Telling(HearAll(c, SendsOf(acts)), ch', D.Learn(target, req.notification))
      && ch'.cfg == ch.cfg && !HasAbort(acts)
  {
    hide D.Learn, D.LearnAll, SendNext, HasAbort, PlainAndStamped, Legible;
    var more := ch.(queue := ch.queue + [req]);
    assert Notes(more.queue) == Notes(ch.queue) + [req.notification];
    LearnSnoc(c.view, Notes(ch.queue), req.notification);
    SendNextTells(more, now, c, D.Learn(target, req.notification));
  }

  lemma LearnSnoc(view: D.View, ns: seq<AlarmNotification>, n: AlarmNotification)
    ensures D.LearnAll(view, ns + [n]) == D.Learn(D.LearnAll(view, ns), n)
  {
    assert (ns + [n])[..|ns|] == ns;
  }

  /** Any frame from anyone leaves what the controller is told alone, or asks for an abort and nothing
      else. */
  lemma OnFrameTells(ch: Channel, frame: Bytes, now: int, c: Controller, target: D.View)
    requires Telling(c, ch, target)
    ensures var (ch', acts) := OnFrame(ch, frame, now);
      && (HasAbort(acts) || Telling(HearAll(c, SendsOf(acts)), ch', target))
  {
    hide D.Learn, D.LearnAll, SendNext, FromPeer, OnData, Legible, PlainAndStamped;
    var p := FromPeer(ch.cfg, frame);
    var (ch', acts) := OnFrame(ch, frame, now);
    if p.Some? && p.value.body.BData? {
      OnDataTells(ch, p.value.header, p.value.priority, p.value.body.data, now, c, target);
    } else if p.Some? && p.value.body.BErr? {
      assert acts[0].Abort?;
    } else if acts != [] {
      SendsOfOne(acts[0]);
    }
  }

  lemma OnDataTells(ch: Channel, h: RtaHeader, p: Priority, d: RtaData, now: int, c: Controller, target: D.View)
    requires Telling(c, ch, target)
    ensures var (ch', acts) := OnData(ch, h, p, d, now); Telling(HearAll(c, SendsOf(acts)), ch', target)
  {
    hide D.Learn, D.LearnAll, SendNext, HearAll, NextSeq, Legible, PlainAndStamped;
    var ack := Send(AckPdu(ch, p, h.sendSeq));
    AckIsLegible(ch, p, h.sendSeq);
    HearOne(c, ack.pdu);
    SendsOfOne(ack);
    if h.sendSeq != ch.lastRxSeq {
      var ch1 := ch.(lastRxSeq := h.sendSeq);
      var rest := OnContent(ch1, d, now).1;
      SendsOfFirst(ack, rest);
      HearConcat(c, [ack.pdu], SendsOf(rest));
      if d.Ack? && MatchesInFlight(ch1, d.a) {
        var done := ch1.(state := Idle, stats := ch1.stats.(acked := ch1.stats.acked + 1));
        SendNextTells(done, now, c, target);
        SendsOfFirst(rest[0], SendNext(done, now).1);
        assert [] + SendsOf(SendNext(done, now).1) == SendsOf(SendNext(done, now).1);
      } else {
        SendsOfOne(UnexpectedRx);
        HearNone(c);
      }
    }
  }

  lemma HearNone(c: Controller)
    ensures HearAll(c, []) == c
  {
  }

  lemma OnTickTells(ch: Channel, now: int, c: Controller, target: D.View)
    requires Telling(c, ch, target)
    ensures var (ch', acts) := OnTick(ch, now);
      HasAbort(acts) || Telling(HearAll(c, SendsOf(acts)), ch', target)
  {
    hide D.Learn, D.LearnAll, SendNext, NextSeq, Legible, PlainAndStamped;
    var (ch', acts) := OnTick(ch, now);
    if !ch.state.Idle? && now >= ch.state.deadline {
      if ch.state.AwaitAlarmAck? {
        SendNextTells(ch.(state := Idle, stats := ch.stats.(ackTimeouts := ch.stats.ackTimeouts + 1)), now, c, target);
      } else {
        SendsOfOne(acts[0]);
        if acts[0].Send? { HearOne(c, acts[0].pdu); } else { assert acts[0].Abort?; }
      }
    }
  }

  /** Whatever the channel is asked, a batch that holds an abort holds only that, and the configuration
      stays. */
  lemma BatchShapes(ch: Channel, frame: Bytes, now: int)
    ensures BatchOk(OnFrame(ch, frame, now).1) && OnFrame(ch, frame, now).0.cfg == ch.cfg
    ensures BatchOk(OnTick(ch, now).1) && OnTick(ch, now).0.cfg == ch.cfg
  {
    hide FromPeer, AckPdu, NextSeq, MatchesInFlight;
  }

  // --- from octets -------------------------------------------------------------------------

  /** A controller that is handed octets: what does not parse it ignores. */
  function HearFrame(c: Controller, frame: Bytes): Controller {
    match ParseFrame(frame)
    case Ok(pdu) => Hear(c, pdu)
    case Err(_) => c
  }

  function HearFrames(c: Controller, frames: seq<Bytes>): Controller
    decreases |frames|
  {
    if frames == [] then c else HearFrames(HearFrame(c, frames[0]), frames[1..])
  }

  /** The frames of some PDUs; one too long for its length fields has none. */
  function FramesOf(dst: Mac, src: Mac, pdus: seq<RtaPdu>): seq<Bytes> {
    if pdus == [] then []
    else (if Fits(pdus[0]) then [BuildFrame(dst, src, pdus[0])] else []) + FramesOf(dst, src, pdus[1..])
  }

  lemma {:induction false} IllegibleStays(c: Controller, pdus: seq<RtaPdu>)
    requires !c.legible
    ensures !HearAll(c, pdus).legible
    decreases |pdus|
  {
    hide Legible, D.Learn;
    if pdus != [] { IllegibleStays(Hear(c, pdus[0]), pdus[1..]); }
  }

  /** When every frame can be read back, hearing the octets is hearing the PDUs, and no PDU is too long
      to build. */
  lemma {:induction false} OctetsSayTheSame(c: Controller, dst: Mac, src: Mac, pdus: seq<RtaPdu>)
    requires HearAll(c, pdus).legible
    ensures HearFrames(c, FramesOf(dst, src, pdus)) == HearAll(c, pdus) && |FramesOf(dst, src, pdus)| == |pdus|
    decreases |pdus|
  {
    hide Fits, Canonical, ParseFrame, BuildFrame, D.Learn;
    if pdus != [] {
      var c' := Hear(c, pdus[0]);
      if !c'.legible { IllegibleStays(c', pdus[1..]); }
      FrameRoundTrip(dst, src, pdus[0]);
      OctetsSayTheSame(c', dst, src, pdus[1..]);
      var frames := FramesOf(dst, src, pdus);
      assert frames[1..] == FramesOf(dst, src, pdus[1..]);
    }
  }
}
