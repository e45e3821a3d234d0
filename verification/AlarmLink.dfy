/** The receiving half of an alarm channel in a closed loop with a stop-and-wait peer
    (crates/pnio/src/alarm/channel.rs): two FIFO links that lose and repeat, and everything else that can
    happen to the channel in between. */
module AlarmLink {
  import opened Wire
  import opened Rta
  import opened AlarmChannels
  import opened AlarmSender
  import opened AlarmReceiver
  import M = AlarmMirror

  // --- the loop ----------------------------------------------------------------

  /** The peer's count of acknowledged messages, both links with the oldest first, and what happened to the
      channel so far. The link back carries everything the channel sends. */
  datatype Loop = Loop(acked: nat, forth: seq<Bytes>, back: seq<RtaPdu>, run: Run)

  datatype Step =
    | PeerSends                    // the message not yet acknowledged, for the first time or again
    | LoseForth
    | RepeatForth
    | DeliverForth(now: int)
    | LoseBack
    | RepeatBack
    | DeliverBack
    | Local(ev: Event)             // an alarm request, a timer, any other frame

  const AT_REST := Loop(0, [], [], Start)

  /** Every frame of the peer brings the channel a DATA. */
  predicate PeerFrames(cfg: Config, frames: seq<Bytes>) {
    forall f <- frames :: FromPeer(cfg, f).Some? && FromPeer(cfg, f).value.body.BData?
  }

  /** A DATA that its encoding keeps whole, sent by the peer to us, is such a frame. */
  lemma BuiltIsHeard(cfg: Config, m: RtaPdu)
    requires Fits(m) && Canonical(m)
    ensures FromPeer(cfg, BuildFrame(cfg.our, cfg.peer, m)) == Some(m)
  {
    hide ParseFrame, WriteRtaHeader, WriteVarPart;
    var frame := BuildFrame(cfg.our, cfg.peer, m);
    FrameRoundTrip(cfg.our, cfg.peer, m);
    var eth := EthHeader(cfg.our, cfg.peer, Some(m.priority.Tci()), ETHERTYPE_PROFINET);
    EthRoundTrip(eth, frame[|WriteEth(eth)|..]);
    assert frame == WriteEth(eth) + frame[|WriteEth(eth)|..];
  }

  function Messages(cfg: Config, frames: seq<Bytes>): seq<RtaPdu>
    requires PeerFrames(cfg, frames)
  {
    seq(|frames|, i requires 0 <= i < |frames| => assert frames[i] in frames; FromPeer(cfg, frames[i]).value)
  }

  /** The channel takes an event, and what it sends goes on the link back. */
  function Feed(cfg: Config, s: Loop, ev: Event): Loop {
    s.(run := Then(s.run, ev), back := s.back + M.SendsOf(Apply(After(cfg, s.run), ev).1))
  }

  /** The peer goes on to the next message when an ACK-RTA acknowledges the current one. */
  function Hear(cfg: Config, frames: seq<Bytes>, s: Loop, pdu: RtaPdu): Loop
    requires PeerFrames(cfg, frames)
  {
    if pdu.body.BAck? && s.acked < |frames| && pdu.header.ackSeq == Messages(cfg, frames)[s.acked].header.sendSeq
    then s.(acked := s.acked + 1) else s
  }

  /** A step that is not possible changes nothing. */
  function Next(cfg: Config, frames: seq<Bytes>, s: Loop, step: Step): Loop
    requires PeerFrames(cfg, frames)
  {
    match step
    case PeerSends => if s.acked < |frames| then s.(forth := s.forth + [frames[s.acked]]) else s
    case LoseForth => if s.forth == [] then s else s.(forth := s.forth[1..])
    case RepeatForth => if s.forth == [] then s else s.(forth := [s.forth[0]] + s.forth)
    case DeliverForth(now) =>
      if s.forth == [] then s else Feed(cfg, s.(forth := s.forth[1..]), EvFrame(s.forth[0], now))
    case LoseBack => if s.back == [] then s else s.(back := s.back[1..])
    case RepeatBack => if s.back == [] then s else s.(back := [s.back[0]] + s.back)
    case DeliverBack => if s.back == [] then s else Hear(cfg, frames, s.(back := s.back[1..]), s.back[0])
    case Local(ev) => if DataOf(cfg, ev) != [] then s else Feed(cfg, s, ev)
  }

  datatype Trace = Begin | And(before: Trace, step: Step)

  function At(cfg: Config, frames: seq<Bytes>, trace: Trace): Loop
    requires PeerFrames(cfg, frames)
  {
    match trace
    case Begin => AT_REST
    case And(before, step) => Next(cfg, frames, At(cfg, frames, before), step)
  }

  // --- a queue of at most two kinds ------------------------------------------------

  predicate AllAre<T(==)>(q: seq<T>, b: Option<T>) { forall x <- q :: Some(x) == b }

  /** Some of `a`, then some of `b`; none of what is `None`. */
  predicate FirstThen<T(==)>(q: seq<T>, a: Option<T>, b: Option<T>) {
    AllAre(q, b) || (q != [] && Some(q[0]) == a && FirstThen(q[1..], a, b))
  }

  lemma {:induction false} AllOfFirst<T>(q: seq<T>, a: Option<T>, b: Option<T>)
    requires AllAre(q, a)
    ensures FirstThen(q, a, b)
    decreases |q|
  {
    if q != [] {
      assert q[0] in q && forall x <- q[1..] :: x in q;
      AllOfFirst(q[1..], a, b);
    }
  }

  lemma FirstThenTail<T>(q: seq<T>, a: Option<T>, b: Option<T>)
    requires FirstThen(q, a, b) && q != []
    ensures FirstThen(q[1..], a, b) && (Some(q[0]) == a || Some(q[0]) == b)
    ensures a != b && Some(q[0]) == b ==> AllAre(q[1..], b)
  {
    assert q[0] in q && forall x <- q[1..] :: x in q;
  }

  lemma FirstThenRepeat<T>(q: seq<T>, a: Option<T>, b: Option<T>)
    requires FirstThen(q, a, b) && q != []
    ensures FirstThen([q[0]] + q, a, b)
  {
    FirstThenTail(q, a, b);
    assert ([q[0]] + q)[1..] == q;
  }

  lemma {:induction false} FirstThenSnoc<T>(q: seq<T>, a: Option<T>, b: Option<T>, x: T)
    requires FirstThen(q, a, b) && Some(x) == b
    ensures FirstThen(q + [x], a, b)
    decreases |q|
  {
    if !AllAre(q, b) {
      FirstThenSnoc(q[1..], a, b, x);
      assert (q + [x])[1..] == q[1..] + [x];
    }
  }

  lemma AllAreParts<T>(q: seq<T>, b: Option<T>)
    requires AllAre(q, b) && q != []
    ensures Some(q[0]) == b && AllAre(q[1..], b) && AllAre([q[0]] + q, b)
  {
    assert q[0] in q && forall x <- q[1..] :: x in q;
  }

  // --- acknowledgements on the link back -----------------------------------------------

  /** The numbers the ACK-RTAs among some PDUs acknowledge. */
  function AckNumbers(pdus: seq<RtaPdu>): seq<u16> {
    if pdus == [] then []
    else (if pdus[0].body.BAck? then [pdus[0].header.ackSeq] else []) + AckNumbers(pdus[1..])
  }

  lemma {:induction false} AckNumbersConcat(a: seq<RtaPdu>, b: seq<RtaPdu>)
    ensures AckNumbers(a + b) == AckNumbers(a) + AckNumbers(b)
    decreases |a|
  {
    if a == [] {
      assert a + b == b;
    } else {
      assert (a + b)[1..] == a[1..] + b;
      AckNumbersConcat(a[1..], b);
    }
  }

  lemma {:induction false} SendsSnoc(acts: seq<AlarmAction>, a: AlarmAction)
    ensures M.SendsOf(acts + [a]) == M.SendsOf(acts) + if a.Send? then [a.pdu] else []
    decreases |acts|
  {
    if acts == [] {
      M.SendsOfOne(a);
      assert acts + [a] == [a];
    } else {
      var rest := acts[1..];
      assert acts == [acts[0]] + rest && acts + [a] == [acts[0]] + (rest + [a]);
      M.SendsOfFirst(acts[0], rest);
      M.SendsOfFirst(acts[0], rest + [a]);
      hide M.SendsOf;
      SendsSnoc(rest, a);
    }
  }

  function Numbers(acks: seq<(Priority, u16)>): seq<u16> { seq(|acks|, i requires 0 <= i < |acks| => acks[i].1) }

  /** What goes on the link back acknowledges what the actions acknowledge. */
  lemma {:induction false} SentAcks(acts: seq<AlarmAction>)
    ensures AckNumbers(M.SendsOf(acts)) == Numbers(AcksSent(acts))
    decreases |acts|
  {
    if acts != [] {
      var init, a := acts[..|acts| - 1], acts[|acts| - 1];
      assert acts == init + [a];
      SentAcks(init);
      SendsSnoc(init, a);
      if a.Send? {
        AckNumbersConcat(M.SendsOf(init), [a.pdu]);
        assert [a.pdu][1..] == [];
      } else {
        assert M.SendsOf(init) + [] == M.SendsOf(init);
      }
    }
  }

  // --- one event of the channel ----------------------------------------------------------

  /** An event that brings no DATA acknowledges and processes nothing. */
  lemma FeedOther(cfg: Config, s: Loop, ev: Event)
    requires DataOf(cfg, ev) == []
    ensures var s' := Feed(cfg, s, ev);
      && Processed(cfg, s'.run) == Processed(cfg, s.run) && Received(cfg, s'.run) == Received(cfg, s.run)
      && AckNumbers(s'.back) == AckNumbers(s.back)
  {
    hide Apply, DataOf, AckNumbers, After, AcksSent, LastSeq;
    var out := Apply(After(cfg, s.run), ev).1;
    RunLastSeq(cfg, s.run);
    ReceiverStep(cfg, s.run, ev);
    SentAcks(out);
    AckNumbersConcat(s.back, M.SendsOf(out));
  }

  /** A DATA is acknowledged with its number, and processed unless it repeats the number before it. */
  lemma FeedData(cfg: Config, s: Loop, f: Bytes, now: int)
    requires FromPeer(cfg, f).Some? && FromPeer(cfg, f).value.body.BData?
    ensures var s' := Feed(cfg, s, EvFrame(f, now));
      var m := FromPeer(cfg, f).value;
      && Received(cfg, s'.run) == Received(cfg, s.run) + [m]
      && Processed(cfg, s'.run)
         == Processed(cfg, s.run) + (if m.header.sendSeq != LastSeq(SEQ_NONE, Received(cfg, s.run)) then [m] else [])
      && AckNumbers(s'.back) == AckNumbers(s.back) + [m.header.sendSeq]
  {
    hide Apply, AckNumbers, After, AcksSent, LastSeq, FromPeer;
    var ev := EvFrame(f, now);
    var out := Apply(After(cfg, s.run), ev).1;
    RunLastSeq(cfg, s.run);
    ReceiverStep(cfg, s.run, ev);
    SentAcks(out);
    AckNumbersConcat(s.back, M.SendsOf(out));
  }

  // --- the invariant ------------------------------------------------------------------------

  function FrameAt(frames: seq<Bytes>, i: int): Option<Bytes> {
    if 0 <= i < |frames| then Some(frames[i]) else None
  }

  function NumberAt(msgs: seq<RtaPdu>, i: int): Option<u16> {
    if 0 <= i < |msgs| then Some(msgs[i].header.sendSeq) else None
  }

  /** Everything up to the acknowledged count is processed, and at most the message after it. Before that is,
      the link forth may still hold copies of the one before; once it is, the link back may still hold
      acknowledgements of the one before. */
  predicate Agrees(frames: seq<Bytes>, msgs: seq<RtaPdu>, s: Loop, done: seq<RtaPdu>, last: u16) {
    var k, p := s.acked, |done|;
    && k <= p <= k + 1 && p <= |msgs| && done == msgs[..p]
    && last == (if p == 0 then SEQ_NONE else msgs[p - 1].header.sendSeq)
    && if p == k then FirstThen(s.forth, FrameAt(frames, k - 1), FrameAt(frames, k))
                      && AllAre(AckNumbers(s.back), NumberAt(msgs, k - 1))
       else AllAre(s.forth, FrameAt(frames, k))
            && FirstThen(AckNumbers(s.back), NumberAt(msgs, k - 1), NumberAt(msgs, k))
  }

  predicate Inv(cfg: Config, frames: seq<Bytes>, s: Loop)
    requires PeerFrames(cfg, frames)
  {
    Agrees(frames, Messages(cfg, frames), s, Processed(cfg, s.run), LastSeq(SEQ_NONE, Received(cfg, s.run)))
  }

  /** Neighbouring messages, and so their frames, differ. */
  lemma NeighboursDiffer(cfg: Config, frames: seq<Bytes>, k: nat)
    requires PeerFrames(cfg, frames) && NumberedByPeer(Messages(cfg, frames)) && k < |frames|
    ensures var msgs := Messages(cfg, frames);
      && NumberAt(msgs, k - 1) != NumberAt(msgs, k) && FrameAt(frames, k - 1) != FrameAt(frames, k)
      && msgs[k].header.sendSeq != if k == 0 then SEQ_NONE else msgs[k - 1].header.sendSeq
  {
    hide FromPeer;
    if k > 0 {
      assert Messages(cfg, frames)[k].header.sendSeq != Messages(cfg, frames)[k - 1].header.sendSeq;
    }
  }

  lemma DeliverForthKeeps(cfg: Config, frames: seq<Bytes>, s: Loop, now: int)
    requires PeerFrames(cfg, frames) && NumberedByPeer(Messages(cfg, frames)) && Inv(cfg, frames, s) && s.forth != []
    ensures Inv(cfg, frames, Feed(cfg, s.(forth := s.forth[1..]), EvFrame(s.forth[0], now)))
  {
    hide FromPeer, AckNumbers, Feed, FirstThen, AllAre, Processed, Received, NumberedByPeer;
    var msgs, p := Messages(cfg, frames), |Processed(cfg, s.run)|;
    var k: int := s.acked;
    var f, t := s.forth[0], s.(forth := s.forth[1..]);
    if p == k {
      FirstThenTail(s.forth, FrameAt(frames, k - 1), FrameAt(frames, k));
    } else {
      AllAreParts(s.forth, FrameAt(frames, k));
    }
    var i := if Some(f) == FrameAt(frames, k) then k else k - 1;
    assert f == frames[i] && frames[i] in frames;
    FeedData(cfg, t, f, now);
    LastOfSnoc(Received(cfg, s.run), msgs[i]);
    FeedFrame(cfg, t, EvFrame(f, now));
    var acks := AckNumbers(s.back);
    if i == k {
      NeighboursDiffer(cfg, frames, k);
      if p == k { AllOfFirst(acks, NumberAt(msgs, k - 1), NumberAt(msgs, k)); }
      FirstThenSnoc(acks, NumberAt(msgs, k - 1), NumberAt(msgs, k), msgs[k].header.sendSeq);
    } else {
      AllAreSnoc(acks, NumberAt(msgs, k - 1), msgs[k - 1].header.sendSeq);
    }
  }

  lemma LastOfSnoc(data: seq<RtaPdu>, d: RtaPdu)
    ensures LastSeq(SEQ_NONE, data + [d]) == d.header.sendSeq
  {
  }

  lemma FeedFrame(cfg: Config, s: Loop, ev: Event)
    ensures var s' := Feed(cfg, s, ev); s'.acked == s.acked && s'.forth == s.forth
  {
  }

  lemma AllAreSnoc<T>(q: seq<T>, b: Option<T>, x: T)
    requires AllAre(q, b) && Some(x) == b
    ensures AllAre(q + [x], b)
  {
  }

  lemma DeliverBackKeeps(cfg: Config, frames: seq<Bytes>, s: Loop)
    requires PeerFrames(cfg, frames) && NumberedByPeer(Messages(cfg, frames)) && Inv(cfg, frames, s) && s.back != []
    ensures Inv(cfg, frames, Hear(cfg, frames, s.(back := s.back[1..]), s.back[0]))
  {
    hide FromPeer, FirstThen, AllAre, Processed, Received, NumberedByPeer;
    var msgs, p := Messages(cfg, frames), |Processed(cfg, s.run)|;
    var k: int := s.acked;
    var acks, rest := AckNumbers(s.back), AckNumbers(s.back[1..]);
    if s.back[0].body.BAck? {
      assert acks[0] == s.back[0].header.ackSeq && acks[1..] == rest;
      if k < |frames| { NeighboursDiffer(cfg, frames, k); }
      if p == k {
        AllAreParts(acks, NumberAt(msgs, k - 1));
      } else {
        FirstThenTail(acks, NumberAt(msgs, k - 1), NumberAt(msgs, k));
        AllOfFirst(s.forth, FrameAt(frames, k), FrameAt(frames, k + 1));
      }
    } else {
      assert acks == rest;
    }
  }

  /** Losing or repeating the oldest on either link. */
  lemma LinksKeep(cfg: Config, frames: seq<Bytes>, s: Loop)
    requires PeerFrames(cfg, frames) && Inv(cfg, frames, s)
    ensures s.forth != [] ==> Inv(cfg, frames, s.(forth := s.forth[1..])) && Inv(cfg, frames, s.(forth := [s.forth[0]] + s.forth))
    ensures s.back != [] ==> Inv(cfg, frames, s.(back := s.back[1..])) && Inv(cfg, frames, s.(back := [s.back[0]] + s.back))
  {
    hide FromPeer, FirstThen, AllAre, Processed, Received;
    var msgs, p := Messages(cfg, frames), |Processed(cfg, s.run)|;
    var k: int := s.acked;
    if s.forth != [] {
      if p == k {
        FirstThenTail(s.forth, FrameAt(frames, k - 1), FrameAt(frames, k));
        FirstThenRepeat(s.forth, FrameAt(frames, k - 1), FrameAt(frames, k));
      } else {
        AllAreParts(s.forth, FrameAt(frames, k));
      }
    }
    if s.back != [] {
      var acks, rest := AckNumbers(s.back), AckNumbers(s.back[1..]);
      assert ([s.back[0]] + s.back)[1..] == s.back;
      if s.back[0].body.BAck? {
        assert acks[1..] == rest;
        if p == k {
          AllAreParts(acks, NumberAt(msgs, k - 1));
        } else {
          FirstThenTail(acks, NumberAt(msgs, k - 1), NumberAt(msgs, k));
          FirstThenRepeat(acks, NumberAt(msgs, k - 1), NumberAt(msgs, k));
        }
        assert AckNumbers([s.back[0]] + s.back) == [acks[0]] + acks;
      } else {
        assert acks == rest && AckNumbers([s.back[0]] + s.back) == acks;
      }
    }
  }

  lemma PeerSendsKeeps(cfg: Config, frames: seq<Bytes>, s: Loop)
    requires PeerFrames(cfg, frames) && Inv(cfg, frames, s) && s.acked < |frames|
    ensures Inv(cfg, frames, s.(forth := s.forth + [frames[s.acked]]))
  {
    hide FromPeer, FirstThen, AllAre, Processed, Received, AckNumbers;
    var k: int, p: int := s.acked, |Processed(cfg, s.run)|;
    if p == k {
      FirstThenSnoc(s.forth, FrameAt(frames, k - 1), FrameAt(frames, k), frames[k]);
    } else {
      AllAreSnoc(s.forth, FrameAt(frames, k), frames[k]);
    }
  }

  lemma NextKeeps(cfg: Config, frames: seq<Bytes>, s: Loop, step: Step)
    requires PeerFrames(cfg, frames) && NumberedByPeer(Messages(cfg, frames)) && Inv(cfg, frames, s)
    ensures Inv(cfg, frames, Next(cfg, frames, s, step))
  {
    hide FromPeer, FirstThen, AllAre, Processed, Received, AckNumbers, Feed, Hear, DataOf, NumberedByPeer, PeerFrames, Messages;
    match step
    case PeerSends => if s.acked < |frames| { PeerSendsKeeps(cfg, frames, s); }
    case DeliverForth(now) => if s.forth != [] { DeliverForthKeeps(cfg, frames, s, now); }
    case DeliverBack => if s.back != [] { DeliverBackKeeps(cfg, frames, s); }
    case Local(ev) =>
      if DataOf(cfg, ev) == [] {
        FeedOther(cfg, s, ev);
        FeedFrame(cfg, s, ev);
      }
    case _ => LinksKeep(cfg, frames, s);
  }

  lemma {:induction false} TraceKeeps(cfg: Config, frames: seq<Bytes>, trace: Trace)
    requires PeerFrames(cfg, frames) && NumberedByPeer(Messages(cfg, frames))
    ensures Inv(cfg, frames, At(cfg, frames, trace))
  {
    match trace
    case Begin =>
    case And(before, step) =>
      hide Inv, Next;
      TraceKeeps(cfg, frames, before);
      NextKeeps(cfg, frames, At(cfg, frames, before), step);
  }

  // --- the theorems ------------------------------------------------------------------------------

  /** Over every trace of the loop, whatever the links lose and repeat and whatever else happens to the
      channel: what it has processed is the messages in order, each once, up to those the peer knows to be
      acknowledged or one more. So each acknowledged message was processed exactly once, and when the peer
      is done every message was. */
  lemma ExactlyOnce(cfg: Config, frames: seq<Bytes>, trace: Trace)
    requires PeerFrames(cfg, frames) && NumberedByPeer(Messages(cfg, frames))
    ensures var s, msgs := At(cfg, frames, trace), Messages(cfg, frames);
      && s.acked <= |msgs|
      && (Processed(cfg, s.run) == msgs[..s.acked]
          || (s.acked < |msgs| && Processed(cfg, s.run) == msgs[..s.acked + 1]))
      && (s.acked == |msgs| ==> Processed(cfg, s.run) == msgs)
  {
    hide FromPeer, FirstThen, AllAre, Processed, Received, AckNumbers, At, NumberedByPeer;
    TraceKeeps(cfg, frames, trace);
    var msgs := Messages(cfg, frames);
    assert msgs[..|msgs|] == msgs;
  }

  /** `trace` goes on to `later`. */
  predicate GoesOn(trace: Trace, later: Trace) { later == trace || (later.And? && GoesOn(trace, later.before)) }

  lemma {:induction false} GoesOnTrans(a: Trace, b: Trace, c: Trace)
    requires GoesOn(a, b) && GoesOn(b, c)
    ensures GoesOn(a, c)
    decreases c
  {
    if b != c { GoesOnTrans(a, b, c.before); }
  }

  /** From wherever losses and repetitions have led, the peer can still get everything through. */
  lemma {:induction false} CanFinish(cfg: Config, frames: seq<Bytes>, trace: Trace) returns (later: Trace)
    requires PeerFrames(cfg, frames) && NumberedByPeer(Messages(cfg, frames))
    ensures GoesOn(trace, later) && At(cfg, frames, later).acked == |frames|
    ensures Processed(cfg, At(cfg, frames, later).run) == Messages(cfg, frames)
    decreases |frames| - At(cfg, frames, trace).acked
  {
    hide At, NumberedByPeer, Processed, Messages, PeerFrames;
    ExactlyOnce(cfg, frames, trace);
    SameCount(cfg, frames);
    if At(cfg, frames, trace).acked == |frames| {
      later := trace;
    } else {
      var more := CanAdvance(cfg, frames, trace);
      later := CanFinish(cfg, frames, more);
      GoesOnTrans(trace, more, later);
    }
    ExactlyOnce(cfg, frames, later);
  }

  lemma SameCount(cfg: Config, frames: seq<Bytes>)
    requires PeerFrames(cfg, frames)
    ensures |Messages(cfg, frames)| == |frames|
  {
  }

  /** Emptying both links, sending once and delivering what comes. */
  lemma CanAdvance(cfg: Config, frames: seq<Bytes>, trace: Trace) returns (later: Trace)
    requires PeerFrames(cfg, frames) && NumberedByPeer(Messages(cfg, frames))
    requires At(cfg, frames, trace).acked < |frames|
    ensures GoesOn(trace, later) && At(cfg, frames, later).acked == At(cfg, frames, trace).acked + 1
  {
    hide At, NumberedByPeer, Messages, PeerFrames, AckNumbers, Feed, FromPeer;
    var k := At(cfg, frames, trace).acked;
    var empty := Emptied(cfg, frames, trace);
    var sent := And(empty, PeerSends);
    Stepped(cfg, frames, sent);
    assert At(cfg, frames, sent).forth == [frames[k]];
    var heard := And(sent, DeliverForth(0));
    Stepped(cfg, frames, heard);
    var f, t := frames[k], At(cfg, frames, sent).(forth := [frames[k]][1..]);
    SameCount(cfg, frames);
    IsMessage(cfg, frames, k);
    FeedData(cfg, t, f, 0);
    FeedFrame(cfg, t, EvFrame(f, 0));
    NothingBack();
    assert AckNumbers(At(cfg, frames, heard).back) == [Messages(cfg, frames)[k].header.sendSeq];
    later := BroughtBack(cfg, frames, heard);
    GoesOnTrans(trace, empty, sent);
    GoesOnTrans(trace, sent, heard);
    GoesOnTrans(trace, heard, later);
  }

  lemma NothingBack()
    ensures AckNumbers([]) == []
  {
  }

  lemma IsMessage(cfg: Config, frames: seq<Bytes>, k: nat)
    requires PeerFrames(cfg, frames) && k < |frames|
    ensures FromPeer(cfg, frames[k]) == Some(Messages(cfg, frames)[k]) && Messages(cfg, frames)[k].body.BData?
  {
    assert frames[k] in frames;
  }

  lemma Stepped(cfg: Config, frames: seq<Bytes>, trace: Trace)
    requires PeerFrames(cfg, frames) && trace.And?
    ensures At(cfg, frames, trace) == Next(cfg, frames, At(cfg, frames, trace.before), trace.step)
    ensures GoesOn(trace.before, trace)
  {
    hide Next, PeerFrames;
  }

  /** Both links can come to be empty. */
  lemma {:induction false} Emptied(cfg: Config, frames: seq<Bytes>, trace: Trace) returns (later: Trace)
    requires PeerFrames(cfg, frames)
    ensures GoesOn(trace, later)
    ensures var s := At(cfg, frames, later);
      s.forth == [] && s.back == [] && s.acked == At(cfg, frames, trace).acked && s.run == At(cfg, frames, trace).run
    decreases |At(cfg, frames, trace).forth| + |At(cfg, frames, trace).back|
  {
    hide At, PeerFrames, Feed, Hear;
    var s := At(cfg, frames, trace);
    if s.forth == [] && s.back == [] {
      later := trace;
    } else {
      var one := And(trace, if s.forth != [] then LoseForth else LoseBack);
      Stepped(cfg, frames, one);
      later := Emptied(cfg, frames, one);
      GoesOnTrans(trace, one, later);
    }
  }

  /** An acknowledgement of the current message on the link back can reach the peer. */
  lemma {:induction false} BroughtBack(cfg: Config, frames: seq<Bytes>, trace: Trace) returns (later: Trace)
    requires PeerFrames(cfg, frames) && At(cfg, frames, trace).acked < |frames|
    requires AckNumbers(At(cfg, frames, trace).back) == [Messages(cfg, frames)[At(cfg, frames, trace).acked].header.sendSeq]
    ensures GoesOn(trace, later) && At(cfg, frames, later).acked == At(cfg, frames, trace).acked + 1
    decreases |At(cfg, frames, trace).back|
  {
    hide At, PeerFrames, Feed, Messages;
    SameCount(cfg, frames);
    var s := At(cfg, frames, trace);
    later := And(trace, DeliverBack);
    Stepped(cfg, frames, later);
    if s.back[0].body.BAck? {
      assert AckNumbers(s.back)[0] == s.back[0].header.ackSeq;
    } else {
      assert AckNumbers(s.back) == AckNumbers(s.back[1..]);
      var rest := BroughtBack(cfg, frames, later);
      GoesOnTrans(trace, later, rest);
      later := rest;
    }
  }
}
