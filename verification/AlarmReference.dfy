/** The alarm channel told from what passed over it (crates/pnio/src/alarm/channel.rs): the alarms asked for,
    the frames that came from the peer, the clock, and the actions so far. Over every run the channel
    does exactly what this reference says, to every event. */
module AlarmReference {
  import opened Wire
  import opened Rta
  import opened Status
  import opened AlarmChannels
  import opened AlarmSender

  // --- observations ----------------------------------------------------------

  /** A frame the peer sent: it parses, and the peer is its source. */
  function Heard(cfg: Config, frame: Bytes): Option<RtaPdu> {
    if ParseFrame(frame).Ok? && ParseEth(frame).Some? && ParseEth(frame).value.0.src == cfg.peer
    then Some(ParseFrame(frame).value) else None
  }

  /** The notification block is longer than the controller takes, counting its two version octets. */
  predicate TooLong(cfg: Config, req: AlarmReq) {
    |WriteNotificationBody(req.notification)| + 2 > cfg.maxAlarmDataLength
  }

  function TimeOf(ev: Event): int { if ev.EvSpecifier? then 0 else ev.now }

  /** The alarm on the wire and not done with: when it was last sent or, once delivered, acknowledged. */
  datatype Flight = Flight(req: AlarmReq, since: int, delivered: bool)

  /** The alarms waiting, the one in flight, the DATA sent for the first time so far, how often the last of
      them was repeated, and the number of the last DATA that came in. */
  datatype Known = Known(queue: seq<AlarmReq>, flight: Option<Flight>, firsts: seq<RtaPdu>, resends: nat, heard: u16)

  predicate SomeData(acts: seq<AlarmAction>) { exists a <- acts :: IsData(a) }

  predicate SomeAcked(acts: seq<AlarmAction>) { exists a <- acts :: a.Acked? }

  /** The peer's ACK-RTA for the DATA sent last. */
  predicate Confirms(cfg: Config, ev: Event, firsts: seq<RtaPdu>) {
    && ev.EvFrame? && firsts != []
    && var pdu := Heard(cfg, ev.frame);
       pdu.Some? && pdu.value.body.BAck? && pdu.value.header.ackSeq == firsts[|firsts| - 1].header.sendSeq
  }

  function FlightAfter(cfg: Config, k: Known, queue: seq<AlarmReq>, ev: Event, acts: seq<AlarmAction>, isNew: bool)
    : Option<Flight>
  {
    if Aborted(acts) then None
    else if isNew && queue != [] then Some(Flight(queue[0], TimeOf(ev), false))
    else if k.flight.None? || SomeAcked(acts) then None
    else
      var f := k.flight.value;
      if SomeData(acts) then Some(f.(since := TimeOf(ev)))
      else if !f.delivered && Confirms(cfg, ev, k.firsts) then Some(f.(since := TimeOf(ev), delivered := true))
      else if f.delivered && ev.EvTick? && ev.now >= f.since + 10 * cfg.rtaTimeout then None
      else Some(f)
  }

  /** What is known after one more event and its actions; `firsts` and `resends` are read off the whole trace. */
  function Learn(cfg: Config, k: Known, ev: Event, acts: seq<AlarmAction>, firsts: seq<RtaPdu>, resends: nat): Known {
    var isNew := |firsts| > |k.firsts|;
    var queue := k.queue + if ev.EvEnqueue? && !TooLong(cfg, ev.req) then [ev.req] else [];
    var pdu := if ev.EvFrame? then Heard(cfg, ev.frame) else None;
    Known(if Aborted(acts) then [] else if isNew && queue != [] then queue[1..] else queue,
          FlightAfter(cfg, k, queue, ev, acts, isNew), firsts, resends,
          if pdu.Some? && pdu.value.body.BData? then pdu.value.header.sendSeq else k.heard)
  }

  function KnownOf(cfg: Config, run: Run): Known {
    match run
    case Start => Known([], None, [], 0, 0xFFFE)
    case Then(pre, ev) =>
      var acts := Actions(cfg, run);
      Learn(cfg, KnownOf(cfg, pre), ev, Apply(After(cfg, pre), ev).1, FreshData(acts), Resends(acts))
  }

  // --- the reference -----------------------------------------------------------

  /** The first waiting alarm goes out with the next number. */
  function Ready(cfg: Config, queue: seq<AlarmReq>, sent: nat, heard: u16): seq<AlarmAction> {
    if queue == [] then []
    else
      [Send(RtaPdu(queue[0].priority, RtaHeader(cfg.remoteRef, cfg.localRef, TData, true, SeqAt(sent), heard),
                   BData(Notification(queue[0].notification))))]
  }

  /** The acknowledgement names alarm type, slot and subslot of the notification a DATA carries. */
  predicate Names(a: AlarmAck, pdu: RtaPdu) {
    && pdu.body.BData? && pdu.body.data.Notification?
    && var n := pdu.body.data.n; a.alarmType == n.alarmType && a.slot == n.slot && a.subslot == n.subslot
  }

  function OnHeard(cfg: Config, k: Known, pdu: RtaPdu): seq<AlarmAction> {
    match pdu.body
    case BAck => []
    case BNack => [UnexpectedRx]
    case BErr(status) => [Abort(ControllerErrRta(status))]
    case BData(d) =>
      var sent := if k.firsts == [] then 0xFFFE else SeqAt(|k.firsts| - 1);
      var n := pdu.header.sendSeq;
      [Send(RtaPdu(pdu.priority, RtaHeader(cfg.remoteRef, cfg.localRef, TAck, false, sent, n), BAck))]
      + (if n == k.heard then []
         else if d.Ack? && k.flight.Some? && k.firsts != [] && Names(d.a, k.firsts[|k.firsts| - 1])
         then [Acked(k.flight.value.req.id, d.a.status)] + Ready(cfg, k.queue, |k.firsts|, n)
         else [UnexpectedRx])
  }

  /** What an event brings about, from what passed before it. */
  function Reference(cfg: Config, k: Known, ev: Event): seq<AlarmAction> {
    match ev
    case EvSpecifier => []
    case EvEnqueue(req, _) => if TooLong(cfg, req) || k.flight.Some? then [] else Ready(cfg, [req], |k.firsts|, k.heard)
    case EvFrame(frame, _) =>
      (match Heard(cfg, frame) case None => [UnexpectedRx] case Some(pdu) => OnHeard(cfg, k, pdu))
    case EvTick(now) =>
      if k.flight.None? || k.firsts == [] then []
      else
        var f := k.flight.value;
        if f.delivered then (if now < f.since + 10 * cfg.rtaTimeout then [] else Ready(cfg, k.queue, |k.firsts|, k.heard))
        else if now < f.since + cfg.rtaTimeout then []
        else if k.resends < cfg.rtaRetries then [Send(k.firsts[|k.firsts| - 1])] else [Abort(AlarmSendFailed)]
  }

  // --- the channel agrees --------------------------------------------------------

  /** The channel is what the observer makes of it. */
  predicate Agrees(k: Known, ch: Channel) {
    && ch.queue == k.queue && ch.lastRxSeq == k.heard
    && k.flight == (match ch.state
                    case Idle => None
                    case SentData(req, _, _, deadline) => Some(Flight(req, deadline - ch.cfg.rtaTimeout, false))
                    case AwaitAlarmAck(req, deadline) => Some(Flight(req, deadline - 10 * ch.cfg.rtaTimeout, true)))
    && (!ch.state.Idle? ==> k.firsts != [] && k.firsts[|k.firsts| - 1].body == BData(Notification(ch.state.req.notification)))
  }

  ghost predicate Follows(k: Known, ch: Channel, acts: seq<AlarmAction>) {
    && Numbered(ch, acts) && (ch.state.Idle? ==> ch.queue == [])
    && k.firsts == FreshData(acts) && k.resends == Resends(acts) && Agrees(k, ch)
  }

  lemma HeardIsFromPeer(cfg: Config, frame: Bytes)
    ensures Heard(cfg, frame) == FromPeer(cfg, frame)
  {
    hide ParseFrame, ParseEth;
  }

  lemma TooLongIsRefused(cfg: Config, req: AlarmReq)
    ensures TooLong(cfg, req) <==> Refused(cfg, req)
  {
    hide AlarmTypeCode, SpecifierCode, PropertiesCode;
  }

  /** The channel does what the reference says. */
  lemma StepFollows(ch: Channel, ev: Event, k: Known, acts: seq<AlarmAction>)
    requires Follows(k, ch, acts)
    ensures Apply(ch, ev).1 == Reference(ch.cfg, k, ev)
  {
    hide FreshData, Resends, FromPeer, Heard, SeqAt, Refused, TooLong, NextSeq;
    if ev.EvFrame? { HeardIsFromPeer(ch.cfg, ev.frame); }
    if ev.EvEnqueue? { TooLongIsRefused(ch.cfg, ev.req); }
  }

  lemma {:induction false} FirstsGrow(acts: seq<AlarmAction>, more: seq<AlarmAction>)
    ensures FreshData(acts) <= FreshData(acts + more)
  {
    if more == [] {
      assert acts + more == acts;
    } else {
      var init := more[..|more| - 1];
      FirstsGrow(acts, init);
      assert (acts + more)[..|acts + more| - 1] == acts + init;
    }
  }

  /** What is known after the event, given what the trace shows then. */
  predicate Learnt(k: Known, ch: Channel, ev: Event, firsts: seq<RtaPdu>, resends: nat) {
    var (ch', out) := Apply(ch, ev);
    Agrees(Learn(ch.cfg, k, ev, out, firsts, resends), ch')
  }

  /** The trace shows a new DATA exactly when the channel counted one, and the new one is what it sent. */
  predicate Shows(k: Known, ch: Channel, ch': Channel, firsts: seq<RtaPdu>) {
    && k.firsts <= firsts && |k.firsts| == ch.stats.sent && |firsts| == ch'.stats.sent
    && (ch'.state.SentData? ==> firsts != [] && ch'.state.frame == firsts[|firsts| - 1])
  }

  lemma TickLearnt(k: Known, ch: Channel, now: int, firsts: seq<RtaPdu>, resends: nat)
    requires Agrees(k, ch) && Shows(k, ch, OnTick(ch, now).0, firsts) && (ch.state.Idle? ==> ch.queue == [])
    requires ch.state.SentData? ==> ch.state.frame.body.BData?
    ensures Learnt(k, ch, EvTick(now), firsts, resends)
  {
    hide NextSeq, Refused, TooLong;
    var out := OnTick(ch, now).1;
    if out != [] { assert out == [out[0]] && out[0] in out; }
  }

  lemma EnqueueLearnt(k: Known, ch: Channel, req: AlarmReq, now: int, firsts: seq<RtaPdu>, resends: nat)
    requires Agrees(k, ch) && Shows(k, ch, Apply(ch, EvEnqueue(req, now)).0, firsts) && (ch.state.Idle? ==> ch.queue == [])
    ensures Learnt(k, ch, EvEnqueue(req, now), firsts, resends)
  {
    hide NextSeq, Refused, TooLong;
    TooLongIsRefused(ch.cfg, req);
    assert ch.queue + [] == ch.queue;
    var out := Apply(ch, EvEnqueue(req, now)).1;
    if out != [] { assert out == [out[0]] && out[0] in out; }
  }

  /** A DATA that completes the alarm in flight. */
  lemma AckLearnt(k: Known, ch: Channel, frame: Bytes, h: RtaHeader, p: Priority, a: AlarmAck, now: int,
                  firsts: seq<RtaPdu>, resends: nat)
    requires Heard(ch.cfg, frame) == Some(RtaPdu(p, h, BData(Ack(a)))) && h.sendSeq != ch.lastRxSeq && MatchesInFlight(ch, a)
    requires Agrees(k, ch) && Shows(k, ch, OnData(ch, h, p, Ack(a), now).0, firsts)
    ensures var (ch', out) := OnData(ch, h, p, Ack(a), now);
      Agrees(Learn(ch.cfg, k, EvFrame(frame, now), out, firsts, resends), ch')
  {
    hide NextSeq, Refused, TooLong, Heard;
    assert ch.queue + [] == ch.queue;
    var out := OnData(ch, h, p, Ack(a), now).1;
    assert out[1] in out && out[1].Acked?;
    assert |out| == 3 <==> ch.queue != [];
    assert !Aborted(out);
  }

  /** Any other DATA changes nothing but the last number heard. */
  lemma DataLearnt(k: Known, ch: Channel, frame: Bytes, h: RtaHeader, p: Priority, d: RtaData, now: int,
                   firsts: seq<RtaPdu>, resends: nat)
    requires Heard(ch.cfg, frame) == Some(RtaPdu(p, h, BData(d)))
    requires h.sendSeq == ch.lastRxSeq || !d.Ack? || !MatchesInFlight(ch, d.a)
    requires Agrees(k, ch) && Shows(k, ch, OnData(ch, h, p, d, now).0, firsts)
    ensures var (ch', out) := OnData(ch, h, p, d, now);
      Agrees(Learn(ch.cfg, k, EvFrame(frame, now), out, firsts, resends), ch')
  {
    hide NextSeq, Refused, TooLong, Heard, SendNext;
    assert ch.queue + [] == ch.queue;
    var out := OnData(ch, h, p, d, now).1;
    assert !Aborted(out) && !SomeAcked(out) && !SomeData(out);
  }

  lemma FrameLearnt(k: Known, ch: Channel, frame: Bytes, now: int, firsts: seq<RtaPdu>, resends: nat)
    requires Agrees(k, ch) && Shows(k, ch, OnFrame(ch, frame, now).0, firsts)
    requires ch.state.SentData? ==> ch.state.seqNum == k.firsts[|k.firsts| - 1].header.sendSeq
    ensures Learnt(k, ch, EvFrame(frame, now), firsts, resends)
  {
    hide NextSeq, Refused, TooLong, FromPeer, Heard, OnData;
    HeardIsFromPeer(ch.cfg, frame);
    var pdu := Heard(ch.cfg, frame);
    if pdu.Some? && pdu.value.body.BData? {
      var (h, p, d) := (pdu.value.header, pdu.value.priority, pdu.value.body.data);
      if h.sendSeq != ch.lastRxSeq && d.Ack? && MatchesInFlight(ch, d.a) {
        AckLearnt(k, ch, frame, h, p, d.a, now, firsts, resends);
      } else {
        DataLearnt(k, ch, frame, h, p, d, now, firsts, resends);
      }
    } else {
      assert ch.queue + [] == ch.queue;
      var out := OnFrame(ch, frame, now).1;
      if out != [] { assert out == [out[0]] && out[0] in out; }
    }
  }

  lemma EventLearnt(k: Known, ch: Channel, ev: Event, firsts: seq<RtaPdu>, resends: nat)
    requires Agrees(k, ch) && Shows(k, ch, Apply(ch, ev).0, firsts) && (ch.state.Idle? ==> ch.queue == [])
    requires ch.state.SentData? ==> ch.state.seqNum == k.firsts[|k.firsts| - 1].header.sendSeq && ch.state.frame.body.BData?
    ensures Learnt(k, ch, ev, firsts, resends)
  {
    hide OnTick, OnFrame, SendNext, Agrees, Learnt, Shows, Refused, TooLong;
    match ev
    case EvSpecifier => SpecifierLearnt(k, ch, firsts, resends);
    case EvTick(now) => TickLearnt(k, ch, now, firsts, resends);
    case EvEnqueue(req, now) => EnqueueLearnt(k, ch, req, now, firsts, resends);
    case EvFrame(frame, now) => FrameLearnt(k, ch, frame, now, firsts, resends);
  }

  lemma SpecifierLearnt(k: Known, ch: Channel, firsts: seq<RtaPdu>, resends: nat)
    requires Agrees(k, ch) && Shows(k, ch, TakeSpecifier(ch).1, firsts)
    ensures Learnt(k, ch, EvSpecifier, firsts, resends)
  {
    assert ch.queue + [] == ch.queue;
  }

  lemma StepLearnt(k: Known, ch: Channel, ev: Event, acts: seq<AlarmAction>)
    requires Follows(k, ch, acts)
    ensures var (ch', out) := Apply(ch, ev);
      Follows(Learn(ch.cfg, k, ev, out, FreshData(acts + out), Resends(acts + out)), ch', acts + out)
  {
    hide Apply, FreshData, Resends, Agrees, SeqAt, FlightAfter;
    var (ch', out) := Apply(ch, ev);
    StepNumbered(ch, ev, acts);
    FirstsGrow(acts, out);
    AgreesShows(k, ch);
    EventLearnt(k, ch, ev, FreshData(acts + out), Resends(acts + out));
  }

  lemma AgreesShows(k: Known, ch: Channel)
    requires Agrees(k, ch)
    ensures !ch.state.Idle? ==> k.firsts != []
  {
  }

  lemma {:induction false} RunFollows(cfg: Config, run: Run)
    ensures Follows(KnownOf(cfg, run), After(cfg, run), Actions(cfg, run)) && After(cfg, run).cfg == cfg
  {
    if run.Then? {
      hide Apply, FreshData, Resends, Follows, Learn;
      RunFollows(cfg, run.before);
      ConfigKept(After(cfg, run.before), run.ev);
      StepLearnt(KnownOf(cfg, run.before), After(cfg, run.before), run.ev, Actions(cfg, run.before));
    }
  }

  /** Over every run: what the channel does at the next event, whatever that is, is what the reference says. */
  lemma ActsAsReference(cfg: Config, run: Run, ev: Event)
    ensures Apply(After(cfg, run), ev).1 == Reference(cfg, KnownOf(cfg, run), ev)
  {
    hide After, Actions, KnownOf, Apply, Reference;
    RunFollows(cfg, run);
    StepFollows(After(cfg, run), ev, KnownOf(cfg, run), Actions(cfg, run));
  }

  // --- which acknowledgement completes an alarm ---------------------------------

  /** A DATA of the peer with a new number that carries an AlarmAck for the notification in the last DATA sent for
      the first time, while that alarm is in flight. */
  predicate Completes(cfg: Config, k: Known, ev: Event, id: u32, status: PnioStatus) {
    && ev.EvFrame? && Heard(cfg, ev.frame).Some? && k.flight.Some? && k.firsts != []
    && var pdu := Heard(cfg, ev.frame).value;
       && pdu.header.sendSeq != k.heard && pdu.body.BData? && pdu.body.data.Ack?
       && Names(pdu.body.data.a, k.firsts[|k.firsts| - 1])
       && id == k.flight.value.req.id && status == pdu.body.data.a.status
  }

  lemma NextTakesOff(k: Known, ch: Channel, ev: Event, id: u32, status: PnioStatus)
    requires Agrees(k, ch) && Completes(ch.cfg, k, ev, id, status)
    ensures var ch' := Apply(ch, ev).0;
      if k.queue == [] then ch'.state.Idle?
      else ch'.state.SentData? && ch'.state.req == k.queue[0] && ch'.state.deadline == ev.now + ch.cfg.rtaTimeout
    ensures Apply(ch, ev).0.cfg == ch.cfg
  {
    hide Heard, FromPeer, NextSeq;
    HeardIsFromPeer(ch.cfg, ev.frame);
  }

  /** Over every run: an alarm is reported acknowledged if and only if such a DATA comes in, with its own id and the
      status of the acknowledgement. It is then no longer in flight: the next alarm waiting is, if there is one. */
  lemma AckedExactly(cfg: Config, run: Run, ev: Event, id: u32, status: PnioStatus)
    ensures var k := KnownOf(cfg, run);
      Acked(id, status) in Apply(After(cfg, run), ev).1 <==> Completes(cfg, k, ev, id, status)
    ensures var k, k' := KnownOf(cfg, run), KnownOf(cfg, Then(run, ev));
      Completes(cfg, k, ev, id, status) ==>
        k'.flight == if k.queue == [] then None else Some(Flight(k.queue[0], ev.now, false))
    ensures InFlight(After(cfg, run)) == match KnownOf(cfg, run).flight case None => [] case Some(f) => [f.req]
  {
    hide After, Actions, Apply, Heard, TooLong, FreshData, Resends, SeqAt, Numbered;
    ActsAsReference(cfg, run, ev);
    RunFollows(cfg, run);
    RunFollows(cfg, Then(run, ev));
    var k := KnownOf(cfg, run);
    if Completes(cfg, k, ev, id, status) {
      NextTakesOff(k, After(cfg, run), ev, id, status);
    }
  }

  // --- the counters ---------------------------------------------------------------

  datatype Kind = DataSent | AlarmAcked | GaveUp | PeerAborted | NotExpected

  predicate Is(a: AlarmAction, kind: Kind) {
    match kind
    case DataSent => IsData(a)
    case AlarmAcked => a.Acked?
    case GaveUp => a == Abort(AlarmSendFailed)
    case PeerAborted => a.Abort? && a.reason.ControllerErrRta?
    case NotExpected => a.UnexpectedRx?
  }

  function Tally(acts: seq<AlarmAction>, kind: Kind): nat {
    if acts == [] then 0 else Tally(acts[..|acts| - 1], kind) + if Is(acts[|acts| - 1], kind) then 1 else 0
  }

  /** An ACK-RTA of the peer that acknowledges nothing outstanding. */
  predicate Stray(cfg: Config, k: Known, ev: Event) {
    && ev.EvFrame? && Heard(cfg, ev.frame).Some? && Heard(cfg, ev.frame).value.body.BAck?
    && !(k.flight.Some? && !k.flight.value.delivered && Confirms(cfg, ev, k.firsts))
  }

  function Strays(cfg: Config, run: Run): nat {
    match run
    case Start => 0
    case Then(pre, ev) => Strays(cfg, pre) + if Stray(cfg, KnownOf(cfg, pre), ev) then 1 else 0
  }

  function Specifiers(run: Run): nat {
    match run case Start => 0 case Then(pre, ev) => Specifiers(pre) + if ev.EvSpecifier? then 1 else 0
  }

  lemma {:induction false} TallyConcat(a: seq<AlarmAction>, b: seq<AlarmAction>, kind: Kind)
    ensures Tally(a + b, kind) == Tally(a, kind) + Tally(b, kind)
    decreases |b|
  {
    if b == [] {
      assert a + b == a;
    } else {
      var init := b[..|b| - 1];
      assert (a + b)[..|a + b| - 1] == a + init;
      TallyConcat(a, init, kind);
    }
  }

  lemma TallyShort(acts: seq<AlarmAction>, kind: Kind)
    requires |acts| <= 3
    ensures Tally(acts, kind) == (if |acts| > 0 && Is(acts[0], kind) then 1 else 0)
                                 + (if |acts| > 1 && Is(acts[1], kind) then 1 else 0)
                                 + (if |acts| > 2 && Is(acts[2], kind) then 1 else 0)
  {
    if |acts| > 0 {
      var x := acts[..|acts| - 1];
      if |x| > 0 {
        var y := x[..|x| - 1];
        if |y| > 0 { assert Tally(y[..|y| - 1], kind) == 0; }
        assert Tally(x, kind) == Tally(y, kind) + if Is(x[|x| - 1], kind) then 1 else 0;
      }
    }
  }

  /** The counters an event moves are those its actions, or its being a stray ACK-RTA, call for. */
  predicate Counted(s: Stats, s': Stats, out: seq<AlarmAction>, stray: bool) {
    && s'.sent + s'.retries == s.sent + s.retries + Tally(out, DataSent)
    && s'.acked == s.acked + Tally(out, AlarmAcked)
    && s'.sendFailures == s.sendFailures + Tally(out, GaveUp)
    && s'.rxErrRta == s.rxErrRta + Tally(out, PeerAborted)
    && s'.unexpectedRx == s.unexpectedRx + Tally(out, NotExpected) + if stray then 1 else 0
  }

  lemma TalliesShort(acts: seq<AlarmAction>)
    requires |acts| <= 3
    ensures forall kind :: Tally(acts, kind) == (if |acts| > 0 && Is(acts[0], kind) then 1 else 0)
                                                + (if |acts| > 1 && Is(acts[1], kind) then 1 else 0)
                                                + (if |acts| > 2 && Is(acts[2], kind) then 1 else 0)
  {
    forall kind { TallyShort(acts, kind); }
  }

  lemma DataCounted(ch: Channel, h: RtaHeader, p: Priority, d: RtaData, now: int)
    ensures var (ch', out) := OnData(ch, h, p, d, now);
      Counted(ch.stats, ch'.stats, out, false) && ch'.specifierSeq == ch.specifierSeq
  {
    hide NextSeq, Tally;
    TalliesShort(OnData(ch, h, p, d, now).1);
  }

  lemma FrameCounted(ch: Channel, frame: Bytes, now: int, k: Known)
    requires Agrees(k, ch)
    requires ch.state.SentData? ==> ch.state.seqNum == k.firsts[|k.firsts| - 1].header.sendSeq
    ensures var (ch', out) := OnFrame(ch, frame, now);
      Counted(ch.stats, ch'.stats, out, Stray(ch.cfg, k, EvFrame(frame, now))) && ch'.specifierSeq == ch.specifierSeq
  {
    hide FromPeer, Heard, Tally, OnData;
    HeardIsFromPeer(ch.cfg, frame);
    var pdu := FromPeer(ch.cfg, frame);
    if pdu.Some? && pdu.value.body.BData? {
      DataCounted(ch, pdu.value.header, pdu.value.priority, pdu.value.body.data, now);
    } else {
      TalliesShort(OnFrame(ch, frame, now).1);
    }
  }

  lemma StepCounted(ch: Channel, ev: Event, k: Known, acts: seq<AlarmAction>)
    requires Follows(k, ch, acts)
    ensures var (ch', out) := Apply(ch, ev);
      && Counted(ch.stats, ch'.stats, out, Stray(ch.cfg, k, ev))
      && ch'.specifierSeq == (if ev.EvSpecifier? then (ch.specifierSeq + 1) % 0x800 else ch.specifierSeq)
  {
    hide OnFrame, Heard, Refused, NextSeq, Tally, FreshData, Resends, SeqAt;
    if ev.EvFrame? { FrameCounted(ch, ev.frame, ev.now, k); } else { TalliesShort(Apply(ch, ev).1); }
  }

  /** The counters are what the trace shows. */
  predicate Shown(s: Stats, acts: seq<AlarmAction>, strays: nat) {
    && s.sent + s.retries == Tally(acts, DataSent) && s.acked == Tally(acts, AlarmAcked)
    && s.sendFailures == Tally(acts, GaveUp) && s.rxErrRta == Tally(acts, PeerAborted)
    && s.unexpectedRx == Tally(acts, NotExpected) + strays
  }

  lemma ShownNext(s: Stats, s': Stats, acts: seq<AlarmAction>, out: seq<AlarmAction>, strays: nat, stray: bool)
    requires Shown(s, acts, strays) && Counted(s, s', out, stray)
    ensures Shown(s', acts + out, strays + if stray then 1 else 0)
  {
    hide Tally;
    TallyConcat(acts, out, DataSent);
    TallyConcat(acts, out, AlarmAcked);
    TallyConcat(acts, out, GaveUp);
    TallyConcat(acts, out, PeerAborted);
    TallyConcat(acts, out, NotExpected);
  }

  lemma {:induction false} RunShown(cfg: Config, run: Run)
    ensures Shown(After(cfg, run).stats, Actions(cfg, run), Strays(cfg, run))
  {
    hide Apply, Follows, Counted, Stray, KnownOf, Shown;
    if run.Then? {
      var pre, ev := run.before, run.ev;
      RunShown(cfg, pre);
      RunFollows(cfg, pre);
      var ch, acts, k := After(cfg, pre), Actions(cfg, pre), KnownOf(cfg, pre);
      StepCounted(ch, ev, k, acts);
      ShownNext(ch.stats, Apply(ch, ev).0.stats, acts, Apply(ch, ev).1, Strays(cfg, pre), Stray(cfg, k, ev));
    } else {
      NothingShown(cfg);
    }
  }

  lemma NothingShown(cfg: Config)
    ensures Shown(NewChannel(cfg).stats, [], 0)
  {
  }

  lemma {:induction false} SpecifiersTold(cfg: Config, run: Run)
    ensures After(cfg, run).specifierSeq == Specifiers(run) % 0x800
  {
    hide Apply, Follows, Counted, KnownOf, Actions;
    if run.Then? {
      SpecifiersTold(cfg, run.before);
      RunFollows(cfg, run.before);
      StepCounted(After(cfg, run.before), run.ev, KnownOf(cfg, run.before), Actions(cfg, run.before));
    }
  }

  /** Over every run the counters are what the trace shows, and the specifier numbers given out count up modulo 2048. */
  lemma CountersTold(cfg: Config, run: Run)
    ensures var s, acts := After(cfg, run).stats, Actions(cfg, run);
      && s.sent == |FreshData(acts)| && s.retries == Tally(acts, DataSent) - |FreshData(acts)|
      && s.acked == Tally(acts, AlarmAcked) && s.sendFailures == Tally(acts, GaveUp)
      && s.rxErrRta == Tally(acts, PeerAborted) && s.unexpectedRx == Tally(acts, NotExpected) + Strays(cfg, run)
    ensures After(cfg, run).specifierSeq == Specifiers(run) % 0x800
  {
    hide After, Actions, FreshData, Tally, Strays;
    RunShown(cfg, run);
    SpecifiersTold(cfg, run);
    SenderSequence(cfg, run);
  }
}
