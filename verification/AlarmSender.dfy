/** What the sending half of an alarm channel guarantees over every run: what goes on
    the wire, in which order and with which numbers, and that it always drains. */
module AlarmSender {
  import opened Wire
  import opened Rta
  import opened Status
  import opened AlarmChannels

  // --- runs ------------------------------------------------------------------

  datatype Event =
    | EvEnqueue(req: AlarmReq, now: int)
    | EvFrame(frame: Bytes, now: int)
    | EvTick(now: int)
    | EvSpecifier

  function Apply(ch: Channel, ev: Event): Step {
    match ev
    case EvEnqueue(req, now) =>
      (match Enqueue(ch, req, now) case Ok(s) => s case Err(_) => (ch, []))
    case EvFrame(frame, now) => OnFrame(ch, frame, now)
    case EvTick(now) => OnTick(ch, now)
    case EvSpecifier => (TakeSpecifier(ch).1, [])
  }

  /** A run of a fresh channel, latest event last. */
  datatype Run = Start | Then(before: Run, ev: Event)

  function After(cfg: Config, run: Run): Channel {
    match run
    case Start => NewChannel(cfg)
    case Then(pre, ev) => Apply(After(cfg, pre), ev).0
  }

  /** Every action the run asked for, in order. */
  function Actions(cfg: Config, run: Run): seq<AlarmAction> {
    match run
    case Start => []
    case Then(pre, ev) => Actions(cfg, pre) + Apply(After(cfg, pre), ev).1
  }

  function AcceptedBy(cfg: Config, ev: Event): seq<AlarmReq> {
    if ev.EvEnqueue? && !Refused(cfg, ev.req) then [ev.req] else []
  }

  /** The requests the run enqueued, refused ones left out. */
  function Accepted(cfg: Config, run: Run): seq<AlarmReq> {
    match run
    case Start => []
    case Then(pre, ev) => Accepted(cfg, pre) + AcceptedBy(cfg, ev)
  }

  // --- observations on an action trace ---------------------------------------

  predicate IsData(a: AlarmAction) { a.Send? && a.pdu.body.BData? }

  /** The DATA frames that are not resends: a resend repeats the number of the DATA before it. */
  function FreshData(acts: seq<AlarmAction>): seq<RtaPdu> {
    if acts == [] then []
    else
      var before, a := FreshData(acts[..|acts| - 1]), acts[|acts| - 1];
      if IsData(a) && (before == [] || before[|before| - 1].header.sendSeq != a.pdu.header.sendSeq)
      then before + [a.pdu] else before
  }

  /** How many resends follow the last fresh DATA. */
  function Resends(acts: seq<AlarmAction>): nat {
    if acts == [] then 0
    else
      var init, a := acts[..|acts| - 1], acts[|acts| - 1];
      if !IsData(a) then Resends(init)
      else if |FreshData(acts)| > |FreshData(init)| then 0
      else Resends(init) + 1
  }

  function AckedIds(acts: seq<AlarmAction>): seq<u32> {
    if acts == [] then []
    else
      var a := acts[|acts| - 1];
      AckedIds(acts[..|acts| - 1]) + if a.Acked? then [a.id] else []
  }

  predicate Aborted(acts: seq<AlarmAction>) { exists a <- acts :: a.Abort? }

  /** The number the n-th fresh DATA carries: 0xFFFF, then 0, 1, 2, ... wrapping after 0x7FFF. */
  function SeqAt(n: nat): u16 {
    if n == 0 then SEQ_INIT else (n - 1) % 0x8000
  }

  function Carried(pdus: seq<RtaPdu>): seq<(Priority, RtaBody)> {
    seq(|pdus|, i requires 0 <= i < |pdus| => (pdus[i].priority, pdus[i].body))
  }

  function Wanted(reqs: seq<AlarmReq>): seq<(Priority, RtaBody)> {
    seq(|reqs|, i requires 0 <= i < |reqs| =>
      (reqs[i].priority, BData(Notification(reqs[i].notification))))
  }

  function Ids(reqs: seq<AlarmReq>): seq<u32> {
    seq(|reqs|, i requires 0 <= i < |reqs| => reqs[i].id)
  }

  /** `a` is obtained from `b` by leaving elements out: in order, each used at most once. */
  predicate Subsequence<T(==)>(a: seq<T>, b: seq<T>) {
    a == []
    || (b != [] && (
          || (a[|a| - 1] == b[|b| - 1] && Subsequence(a[..|a| - 1], b[..|b| - 1]))
          || Subsequence(a, b[..|b| - 1])))
  }

  // --- the invariant ---------------------------------------------------------

  function InFlight(ch: Channel): seq<AlarmReq> {
    if ch.state.Idle? then [] else [ch.state.req]
  }

  /** The sequence numbers and the resend count agree with the trace. */
  ghost predicate Numbered(ch: Channel, acts: seq<AlarmAction>) {
    var firsts := FreshData(acts);
    && ch.stats.sent == |firsts|
    && (forall i :: 0 <= i < |firsts| ==> firsts[i].header.sendSeq == SeqAt(i))
    && ch.nextSendSeq == SeqAt(|firsts|)
    && ch.lastSentSeq == (if firsts == [] then SEQ_NONE else SeqAt(|firsts| - 1))
    && Resends(acts) <= ch.cfg.rtaRetries
    && (ch.state.SentData? ==>
          && firsts != [] && ch.state.frame == firsts[|firsts| - 1]
          && ch.state.seqNum == ch.state.frame.header.sendSeq
          && ch.state.frame.body.BData?
          && ch.attempt == Resends(acts))
  }

  function Pending(ch: Channel): seq<AlarmReq> { InFlight(ch) + ch.queue }

  /** The requests accepted so far split into those already transmitted or discarded and the queue. */
  ghost predicate Ledger(ch: Channel, acts: seq<AlarmAction>, accepted: seq<AlarmReq>) {
    && |Pending(ch)| <= |accepted|
    && var q, d := |accepted| - |ch.queue|, |accepted| - |Pending(ch)|;
    && accepted[d..] == Pending(ch)
    && Subsequence(AckedIds(acts), Ids(accepted[..d]))
    && Subsequence(Carried(FreshData(acts)), Wanted(accepted[..q]))
    && (!Aborted(acts) ==> Carried(FreshData(acts)) == Wanted(accepted[..q]))
  }

  // --- appending to a trace --------------------------------------------------

  lemma {:induction false} QuietAppend(acts: seq<AlarmAction>, more: seq<AlarmAction>)
    requires forall a <- more :: !IsData(a)
    ensures FreshData(acts + more) == FreshData(acts)
    ensures Resends(acts + more) == Resends(acts)
  {
    if more == [] {
      assert acts + more == acts;
    } else {
      var init := more[..|more| - 1];
      QuietAppend(acts, init);
      assert (acts + more)[..|acts + more| - 1] == acts + init;
      assert more[|more| - 1] in more;
    }
  }

  lemma FreshAppend(acts: seq<AlarmAction>, pdu: RtaPdu)
    requires pdu.body.BData?
    requires var f := FreshData(acts); f == [] || f[|f| - 1].header.sendSeq != pdu.header.sendSeq
    ensures FreshData(acts + [Send(pdu)]) == FreshData(acts) + [pdu]
    ensures Resends(acts + [Send(pdu)]) == 0
  {
    assert (acts + [Send(pdu)])[..|acts|] == acts;
  }

  lemma ResendAppend(acts: seq<AlarmAction>, pdu: RtaPdu)
    requires pdu.body.BData?
    requires var f := FreshData(acts); f != [] && f[|f| - 1] == pdu
    ensures FreshData(acts + [Send(pdu)]) == FreshData(acts)
    ensures Resends(acts + [Send(pdu)]) == Resends(acts) + 1
  {
    assert (acts + [Send(pdu)])[..|acts|] == acts;
  }

  lemma SeqAtNext(n: nat)
    ensures SeqAt(n + 1) == NextSeq(SeqAt(n)) != SeqAt(n)
  {
    if n > 0 { assert n % 0x8000 == ((n - 1) % 0x8000 + 1) % 0x8000; }
  }

  // --- one step keeps the numbering ------------------------------------------

  lemma SendNextNumbered(ch: Channel, now: int, acts: seq<AlarmAction>)
    requires Numbered(ch, acts)
    ensures var (ch', sends) := SendNext(ch, now);
      && Numbered(ch', acts + sends)
      && (ch'.state.Idle? ==> ch'.queue == [])
  {
    var (ch', sends) := SendNext(ch, now);
    if sends == [] {
      assert acts + sends == acts;
    } else {
      SeqAtNext(|FreshData(acts)|);
      if FreshData(acts) != [] { SeqAtNext(|FreshData(acts)| - 1); }
      FreshAppend(acts, sends[0].pdu);
    }
  }

  lemma OnDataNumbered(ch: Channel, h: RtaHeader, p: Priority, d: RtaData, now: int, acts: seq<AlarmAction>)
    requires Numbered(ch, acts) && (ch.state.Idle? ==> ch.queue == [])
    ensures var (ch', out) := OnData(ch, h, p, d, now);
      && Numbered(ch', acts + out)
      && (ch'.state.Idle? ==> ch'.queue == [])
  {
    hide FreshData, Resends, SeqAt, SendNext, NextSeq;
    var ack := Send(AckPdu(ch, p, h.sendSeq));
    var ch1 := ch.(lastRxSeq := h.sendSeq);
    var (ch', out) := OnData(ch, h, p, d, now);
    if h.sendSeq != ch.lastRxSeq && d.Ack? && MatchesInFlight(ch1, d.a) {
      var quiet := [ack, Acked(ch.state.req.id, d.a.status)];
      QuietAppend(acts, quiet);
      var done := ch1.(state := Idle, stats := ch.stats.(acked := ch.stats.acked + 1));
      SendNextNumbered(done, now, acts + quiet);
      assert acts + out == acts + quiet + SendNext(done, now).1;
    } else {
      QuietAppend(acts, out);
    }
  }

  lemma OnTickNumbered(ch: Channel, now: int, acts: seq<AlarmAction>)
    requires Numbered(ch, acts) && (ch.state.Idle? ==> ch.queue == [])
    ensures var (ch', out) := OnTick(ch, now);
      && Numbered(ch', acts + out)
      && (ch'.state.Idle? ==> ch'.queue == [])
  {
    var (ch', out) := OnTick(ch, now);
    if ch.state.Idle? || now < ch.state.deadline {
      assert acts + out == acts;
    } else if ch.state.AwaitAlarmAck? {
      SendNextNumbered(ch.(state := Idle, stats := ch.stats.(ackTimeouts := ch.stats.ackTimeouts + 1)), now, acts);
    } else if ch.attempt < ch.cfg.rtaRetries {
      ResendAppend(acts, ch.state.frame);
    } else {
      QuietAppend(acts, out);
    }
  }

  lemma StepNumbered(ch: Channel, ev: Event, acts: seq<AlarmAction>)
    requires Numbered(ch, acts) && (ch.state.Idle? ==> ch.queue == [])
    ensures var (ch', out) := Apply(ch, ev);
      && Numbered(ch', acts + out)
      && (ch'.state.Idle? ==> ch'.queue == [])
  {
    hide FreshData, Resends, SeqAt, FromPeer, SendNext, OnTick, OnContent;
    var (ch', out) := Apply(ch, ev);
    assert acts + [] == acts;
    match ev
    case EvSpecifier =>
    case EvTick(now) => OnTickNumbered(ch, now, acts);
    case EvEnqueue(req, now) =>
      if !Refused(ch.cfg, req) { SendNextNumbered(ch.(queue := ch.queue + [req]), now, acts); }
    case EvFrame(frame, now) =>
      match FromPeer(ch.cfg, frame)
      case None => QuietAppend(acts, out);
      case Some(pdu) =>
        match pdu.body
        case BData(d) => OnDataNumbered(ch, pdu.header, pdu.priority, d, now, acts);
        case _ => QuietAppend(acts, out);
  }

  lemma ConfigKept(ch: Channel, ev: Event)
    ensures Apply(ch, ev).0.cfg == ch.cfg
  {
    hide FromPeer, NextSeq;
  }

  lemma {:induction false} RunNumbered(cfg: Config, run: Run)
    ensures var ch := After(cfg, run);
      Numbered(ch, Actions(cfg, run)) && (ch.state.Idle? ==> ch.queue == []) && ch.cfg == cfg
  {
    match run
    case Start =>
    case Then(pre, ev) =>
      hide Apply, FreshData, Resends;
      RunNumbered(cfg, pre);
      StepNumbered(After(cfg, pre), ev, Actions(cfg, pre));
      ConfigKept(After(cfg, pre), ev);
  }

  /** Over every run: an idle channel has nothing queued, the n-th fresh DATA carries the n-th
      sequence number, and no alarm is resent more than `rtaRetries` times. */
  lemma SenderSequence(cfg: Config, run: Run)
    ensures var ch, firsts := After(cfg, run), FreshData(Actions(cfg, run));
      && (ch.state.Idle? ==> ch.queue == [])
      && ch.stats.sent == |firsts|
      && (forall i :: 0 <= i < |firsts| ==>
            firsts[i].header.sendSeq == if i == 0 then 0xFFFF else (i - 1) % 0x8000)
      && Resends(Actions(cfg, run)) <= cfg.rtaRetries
  {
    RunNumbered(cfg, run);
  }

  // --- the ledger ------------------------------------------------------------

  lemma SubsequenceSkip<T>(a: seq<T>, b: seq<T>, y: T)
    requires Subsequence(a, b)
    ensures Subsequence(a, b + [y])
  {
    assert (b + [y])[..|b|] == b;
  }

  lemma SubsequenceTake<T>(a: seq<T>, b: seq<T>, y: T)
    requires Subsequence(a, b)
    ensures Subsequence(a + [y], b + [y])
  {
    assert (b + [y])[..|b|] == b && (a + [y])[..|a|] == a;
  }

  lemma {:induction false} SubsequenceWiden<T>(a: seq<T>, b: seq<T>, c: seq<T>)
    requires Subsequence(a, b)
    ensures Subsequence(a, b + c)
  {
    if c == [] {
      assert b + c == b;
    } else {
      var init := c[..|c| - 1];
      SubsequenceWiden(a, b, init);
      SubsequenceSkip(a, b + init, c[|c| - 1]);
      assert b + init + [c[|c| - 1]] == b + c;
    }
  }

  /** Actions that carry no DATA and no acknowledgement leave the ledger's trace side alone. */
  lemma {:induction false} SilentAppend(acts: seq<AlarmAction>, more: seq<AlarmAction>)
    requires forall a <- more :: !a.Acked?
    ensures AckedIds(acts + more) == AckedIds(acts)
    ensures Aborted(acts + more) <==> Aborted(acts) || Aborted(more)
  {
    if more == [] {
      assert acts + more == acts;
    } else {
      var init := more[..|more| - 1];
      SilentAppend(acts, init);
      assert (acts + more)[..|acts + more| - 1] == acts + init;
      assert more[|more| - 1] in more;
    }
  }

  lemma AbortedOne(a: AlarmAction)
    ensures Aborted([a]) <==> a.Abort?
  {
    assert a in [a];
  }

  lemma WantedNext(reqs: seq<AlarmReq>, q: nat)
    requires q < |reqs|
    ensures Wanted(reqs[..q + 1]) == Wanted(reqs[..q]) + [(reqs[q].priority, BData(Notification(reqs[q].notification)))]
  {
  }

  lemma DataCarries(cfg: Config, req: AlarmReq, s: u16, ackSeq: u16)
    ensures var pdu := DataPdu(cfg, req, s, ackSeq);
      && pdu.priority == req.priority && pdu.body == BData(Notification(req.notification)) && pdu.header.sendSeq == s
  {
  }

  lemma CarriedNext(pdus: seq<RtaPdu>, pdu: RtaPdu)
    ensures Carried(pdus + [pdu]) == Carried(pdus) + [(pdu.priority, pdu.body)]
  {
  }

  lemma SendNextLedger(ch: Channel, now: int, acts: seq<AlarmAction>, accepted: seq<AlarmReq>)
    requires Numbered(ch, acts) && Ledger(ch, acts, accepted)
    ensures var (ch', sends) := SendNext(ch, now); Ledger(ch', acts + sends, accepted)
  {
    hide SeqAt, FreshData, Resends, Subsequence, AckedIds, Ids, Carried, Wanted, NextSeq, Aborted, DataPdu;
    var (ch', sends) := SendNext(ch, now);
    SilentAppend(acts, sends);
    if sends == [] {
      assert acts + sends == acts;
    } else {
      var q := |accepted| - |ch.queue|;
      AbortedOne(sends[0]);
      DataCarries(ch.cfg, ch.queue[0], ch.nextSendSeq, ch.lastRxSeq);
      SeqAtNext(|FreshData(acts)|);
      if FreshData(acts) != [] { SeqAtNext(|FreshData(acts)| - 1); }
      FreshAppend(acts, sends[0].pdu);
      var item := (ch.queue[0].priority, BData(Notification(ch.queue[0].notification)));
      QueueIsTail(ch, accepted);
      assert accepted[q] == accepted[q..][0] == ch.queue[0];
      WantedNext(accepted, q);
      CarriedNext(FreshData(acts), sends[0].pdu);
      SubsequenceTake(Carried(FreshData(acts)), Wanted(accepted[..q]), item);
      assert Pending(ch') == Pending(ch);
    }
  }

  /** Retiring the alarm in flight, whatever the outcome. */
  lemma RetireLedger(ch: Channel, ch': Channel, acts: seq<AlarmAction>, accepted: seq<AlarmReq>)
    requires Ledger(ch, acts, accepted) && !ch.state.Idle?
    requires ch'.state.Idle? && ch'.queue == ch.queue
    ensures Ledger(ch', acts, accepted)
    ensures var d := |accepted| - |Pending(ch)|;
      Subsequence(AckedIds(acts) + [ch.state.req.id], Ids(accepted[..d + 1]))
  {
    hide FreshData, AckedIds, Subsequence, Carried, Wanted, Aborted;
    var d := |accepted| - |Pending(ch)|;
    assert accepted[d..][0] == accepted[d] == ch.state.req;
    assert accepted[d + 1..] == accepted[d..][1..] == ch.queue;
    assert Pending(ch') == ch.queue;
    assert Ids(accepted[..d + 1]) == Ids(accepted[..d]) + [ch.state.req.id];
    SubsequenceSkip(AckedIds(acts), Ids(accepted[..d]), ch.state.req.id);
    SubsequenceTake(AckedIds(acts), Ids(accepted[..d]), ch.state.req.id);
  }

  lemma AckLedger(ch: Channel, ch': Channel, acts: seq<AlarmAction>, ack: AlarmAction, status: PnioStatus,
                  accepted: seq<AlarmReq>)
    requires Ledger(ch, acts, accepted) && !ch.state.Idle?
    requires ch'.state.Idle? && ch'.queue == ch.queue
    requires ack.Send? && !IsData(ack)
    ensures Ledger(ch', acts + [ack, Acked(ch.state.req.id, status)], accepted)
  {
    hide FreshData, Subsequence, Carried, Wanted, Ids;
    var acked := Acked(ch.state.req.id, status);
    RetireLedger(ch, ch', acts, accepted);
    SilentAppend(acts, [ack]);
    QuietAppend(acts, [ack, acked]);
    assert acts + [ack, acked] == (acts + [ack]) + [acked];
    assert (acts + [ack, acked])[..|acts| + 1] == acts + [ack];
    assert Pending(ch') == ch'.queue;
    assert Aborted(acts + [ack, acked]) ==> Aborted(acts);
  }

  lemma IdsSplit(reqs: seq<AlarmReq>, d: nat)
    requires d <= |reqs|
    ensures Ids(reqs) == Ids(reqs[..d]) + Ids(reqs[d..])
  {
  }

  lemma WantedSplit(reqs: seq<AlarmReq>, q: nat)
    requires q <= |reqs|
    ensures Wanted(reqs) == Wanted(reqs[..q]) + Wanted(reqs[q..])
  {
  }

  lemma AbortLedger(ch: Channel, ch': Channel, acts: seq<AlarmAction>, reason: AbortReason, accepted: seq<AlarmReq>)
    requires Ledger(ch, acts, accepted)
    requires ch'.state.Idle? && ch'.queue == []
    ensures Ledger(ch', acts + [Abort(reason)], accepted)
  {
    hide FreshData, AckedIds, Subsequence, Carried, Ids, Wanted, Aborted;
    var q, d := |accepted| - |ch.queue|, |accepted| - |Pending(ch)|;
    SilentAppend(acts, [Abort(reason)]);
    QuietAppend(acts, [Abort(reason)]);
    AbortedOne(Abort(reason));
    assert accepted[..|accepted|] == accepted;
    IdsSplit(accepted, d);
    SubsequenceWiden(AckedIds(acts), Ids(accepted[..d]), Ids(accepted[d..]));
    WantedSplit(accepted, q);
    SubsequenceWiden(Carried(FreshData(acts)), Wanted(accepted[..q]), Wanted(accepted[q..]));
  }

  lemma EnqueueLedger(ch: Channel, req: AlarmReq, acts: seq<AlarmAction>, accepted: seq<AlarmReq>)
    requires Ledger(ch, acts, accepted)
    ensures Ledger(ch.(queue := ch.queue + [req]), acts, accepted + [req])
  {
    hide FreshData, Subsequence, AckedIds, Carried, Wanted, Ids;
    var q, d := |accepted| - |ch.queue|, |accepted| - |Pending(ch)|;
    assert (accepted + [req])[d..] == accepted[d..] + [req];
    assert Pending(ch.(queue := ch.queue + [req])) == Pending(ch) + [req];
    assert (accepted + [req])[..d] == accepted[..d];
    assert (accepted + [req])[..q] == accepted[..q];
  }

  /** Steps that move no alarm leave the ledger as it is. */
  lemma StutterLedger(ch: Channel, ch': Channel, acts: seq<AlarmAction>, more: seq<AlarmAction>,
                      accepted: seq<AlarmReq>)
    requires Ledger(ch, acts, accepted)
    requires InFlight(ch') == InFlight(ch) && ch'.queue == ch.queue
    requires FreshData(acts + more) == FreshData(acts)
    requires forall a <- more :: !a.Acked? && !a.Abort?
    ensures Ledger(ch', acts + more, accepted)
  {
    hide FreshData, Subsequence, AckedIds, Carried, Wanted, Ids;
    SilentAppend(acts, more);
    assert !Aborted(more);
  }

  lemma OnDataLedger(ch: Channel, h: RtaHeader, p: Priority, d: RtaData, now: int,
                     acts: seq<AlarmAction>, accepted: seq<AlarmReq>)
    requires Numbered(ch, acts) && Ledger(ch, acts, accepted)
    ensures var (ch', out) := OnData(ch, h, p, d, now); Ledger(ch', acts + out, accepted)
  {
    hide FreshData, Resends, SeqAt, SendNext, Ledger, NextSeq;
    var ack := Send(AckPdu(ch, p, h.sendSeq));
    var ch1 := ch.(lastRxSeq := h.sendSeq);
    var (ch', out) := OnData(ch, h, p, d, now);
    if h.sendSeq != ch.lastRxSeq && d.Ack? && MatchesInFlight(ch1, d.a) {
      var quiet := [ack, Acked(ch.state.req.id, d.a.status)];
      var done := ch1.(state := Idle, stats := ch.stats.(acked := ch.stats.acked + 1));
      QuietAppend(acts, quiet);
      AckLedger(ch, done, acts, ack, d.a.status, accepted);
      SendNextLedger(done, now, acts + quiet, accepted);
      assert acts + out == acts + quiet + SendNext(done, now).1;
    } else {
      QuietAppend(acts, out);
      StutterLedger(ch, ch', acts, out, accepted);
    }
  }

  lemma OnTickLedger(ch: Channel, now: int, acts: seq<AlarmAction>, accepted: seq<AlarmReq>)
    requires Numbered(ch, acts) && Ledger(ch, acts, accepted)
    ensures var (ch', out) := OnTick(ch, now); Ledger(ch', acts + out, accepted)
  {
    hide FreshData, Resends, SeqAt, SendNext, Ledger, NextSeq;
    var (ch', out) := OnTick(ch, now);
    if ch.state.Idle? || now < ch.state.deadline {
      assert acts + out == acts;
    } else if ch.state.AwaitAlarmAck? {
      var idle := ch.(state := Idle, stats := ch.stats.(ackTimeouts := ch.stats.ackTimeouts + 1));
      RetireLedger(ch, idle, acts, accepted);
      SendNextLedger(idle, now, acts, accepted);
    } else if ch.attempt < ch.cfg.rtaRetries {
      ResendAppend(acts, ch.state.frame);
      StutterLedger(ch, ch', acts, out, accepted);
    } else {
      AbortLedger(ch, ch', acts, AlarmSendFailed, accepted);
    }
  }

  lemma StepLedger(ch: Channel, ev: Event, acts: seq<AlarmAction>, accepted: seq<AlarmReq>)
    requires Numbered(ch, acts) && Ledger(ch, acts, accepted)
    ensures var (ch', out) := Apply(ch, ev);
      Ledger(ch', acts + out,
             accepted + AcceptedBy(ch.cfg, ev))
  {
    hide FreshData, Resends, SeqAt, SendNext, Ledger, NextSeq, FromPeer, OnTick, OnData;
    var (ch', out) := Apply(ch, ev);
    assert accepted + [] == accepted;
    assert acts + [] == acts;
    match ev
    case EvSpecifier => StutterLedger(ch, ch', acts, out, accepted);
    case EvTick(now) => OnTickLedger(ch, now, acts, accepted);
    case EvEnqueue(req, now) =>
      if !Refused(ch.cfg, req) {
        EnqueueLedger(ch, req, acts, accepted);
        SendNextLedger(ch.(queue := ch.queue + [req]), now, acts, accepted + [req]);
      }
    case EvFrame(frame, now) =>
      match FromPeer(ch.cfg, frame) {
        case None => QuietAppend(acts, out); StutterLedger(ch, ch', acts, out, accepted);
        case Some(pdu) =>
          match pdu.body
          case BData(d) => OnDataLedger(ch, pdu.header, pdu.priority, d, now, acts, accepted);
          case BErr(status) => AbortLedger(ch, ch', acts, ControllerErrRta(status), accepted);
          case _ => QuietAppend(acts, out); StutterLedger(ch, ch', acts, out, accepted);
      }
  }

  lemma {:induction false} RunLedger(cfg: Config, run: Run)
    ensures Ledger(After(cfg, run), Actions(cfg, run), Accepted(cfg, run))
  {
    match run
    case Start =>
    case Then(pre, ev) =>
      hide FreshData, Resends, SeqAt, Apply, Ledger, Numbered;
      RunLedger(cfg, pre);
      RunNumbered(cfg, pre);
      StepLedger(After(cfg, pre), ev, Actions(cfg, pre), Accepted(cfg, pre));
  }

  /** Over every run, acknowledged ids and first transmissions are in-order, at-most-once
      selections of what was enqueued; and until the channel asks for an abort nothing is lost:
      what was enqueued is exactly what was transmitted followed by what is queued. */
  lemma SenderDelivery(cfg: Config, run: Run)
    ensures var ch, acts, accepted := After(cfg, run), Actions(cfg, run), Accepted(cfg, run);
      && Subsequence(AckedIds(acts), Ids(accepted))
      && Subsequence(Carried(FreshData(acts)), Wanted(accepted))
      && (!Aborted(acts) ==> Carried(FreshData(acts)) + Wanted(ch.queue) == Wanted(accepted))
  {
    hide FreshData, AckedIds, After, Actions, Accepted, Subsequence, Carried, Ids, Wanted, Aborted, Ledger;
    RunLedger(cfg, run);
    LedgerDelivers(After(cfg, run), Actions(cfg, run), Accepted(cfg, run));
  }

  lemma LedgerDelivers(ch: Channel, acts: seq<AlarmAction>, accepted: seq<AlarmReq>)
    requires Ledger(ch, acts, accepted)
    ensures Subsequence(AckedIds(acts), Ids(accepted))
    ensures Subsequence(Carried(FreshData(acts)), Wanted(accepted))
    ensures !Aborted(acts) ==> Carried(FreshData(acts)) + Wanted(ch.queue) == Wanted(accepted)
  {
    hide FreshData, AckedIds, Subsequence, Carried, Ids, Wanted, Aborted;
    var q, d := |accepted| - |ch.queue|, |accepted| - |Pending(ch)|;
    QueueIsTail(ch, accepted);
    IdsSplit(accepted, d);
    SubsequenceWiden(AckedIds(acts), Ids(accepted[..d]), Ids(accepted[d..]));
    WantedSplit(accepted, q);
    SubsequenceWiden(Carried(FreshData(acts)), Wanted(accepted[..q]), Wanted(accepted[q..]));
  }

  lemma QueueIsTail(ch: Channel, accepted: seq<AlarmReq>)
    requires |Pending(ch)| <= |accepted| && accepted[|accepted| - |Pending(ch)|..] == Pending(ch)
    ensures accepted[|accepted| - |ch.queue|..] == ch.queue
  {
    var n := |InFlight(ch)|;
    assert accepted[|accepted| - |Pending(ch)|..][n..] == accepted[|accepted| - |ch.queue|..];
    assert Pending(ch)[n..] == ch.queue;
  }

  // --- conservation ----------------------------------------------------------

  /** 1 when the event is an ERR-RTA of the controller that finds an alarm in flight. */
  function Killed(ch: Channel, ev: Event): nat {
    if ev.EvFrame? && FromPeer(ch.cfg, ev.frame).Some? && FromPeer(ch.cfg, ev.frame).value.body.BErr?
       && !ch.state.Idle? then 1 else 0
  }

  function KilledByErrRta(cfg: Config, run: Run): nat {
    match run
    case Start => 0
    case Then(pre, ev) => KilledByErrRta(cfg, pre) + Killed(After(cfg, pre), ev)
  }

  lemma StepConserves(ch: Channel, ev: Event)
    ensures var ch' := Apply(ch, ev).0; var s, s' := ch.stats, ch'.stats;
      s'.sent - s.sent == s'.acked - s.acked + s'.ackTimeouts - s.ackTimeouts
                          + s'.sendFailures - s.sendFailures + Killed(ch, ev) + |InFlight(ch')| - |InFlight(ch)|
  {
    hide FromPeer, NextSeq;
  }

  /** Every alarm ever transmitted is accounted for exactly once. */
  lemma {:induction false} SenderConservation(cfg: Config, run: Run)
    ensures var ch := After(cfg, run); var s := ch.stats;
      s.sent == s.acked + s.ackTimeouts + s.sendFailures + KilledByErrRta(cfg, run) + |InFlight(ch)|
  {
    match run
    case Start =>
    case Then(pre, ev) =>
      hide Apply, InFlight, Killed;
      SenderConservation(cfg, pre);
      StepConserves(After(cfg, pre), ev);
  }

  // --- draining --------------------------------------------------------------

  /** How many expired ticks it takes to empty the channel when the controller stays silent. */
  function TicksToDrain(ch: Channel): nat {
    match ch.state
    case Idle => 0
    case SentData(_, _, _, _) => Max(ch.cfg.rtaRetries - ch.attempt, 0) + 1
    case AwaitAlarmAck(_, _) => if ch.queue == [] then 1 else ch.cfg.rtaRetries + 2
  }

  /** The channel after ticks at the given times. */
  function Ticks(ch: Channel, times: seq<int>): Channel
    decreases |times|
  {
    if times == [] then ch else Ticks(OnTick(ch, times[0]).0, times[1..])
  }

  /** Each time is at or past the deadline the channel then has, if it has one. */
  predicate AllExpired(ch: Channel, times: seq<int>)
    decreases |times|
  {
    times == []
    || ((ch.state.Idle? || times[0] >= ch.state.deadline) && AllExpired(OnTick(ch, times[0]).0, times[1..]))
  }

  /** A silent controller cannot keep the channel busy: after exactly that many expired ticks
      (and no fewer) it is idle with an empty queue. */
  lemma {:induction false} SenderDrains(ch: Channel, times: seq<int>)
    requires ch.state.Idle? ==> ch.queue == []
    requires AllExpired(ch, times)
    ensures var end := Ticks(ch, times);
      && (end.state.Idle? <==> |times| >= TicksToDrain(ch))
      && (end.state.Idle? ==> end.queue == [])
    decreases |times|
  {
    if times != [] { SenderDrains(OnTick(ch, times[0]).0, times[1..]); }
  }
}
