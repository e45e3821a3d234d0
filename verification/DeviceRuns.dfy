/** What the acyclic loop keeps over every run (crates/pnio/src/device/mod.rs): the controller can
    reconstruct the active diagnoses, no action outlives its alarm channel, and channel, image and
    published state follow the AR. */
module DeviceRuns {
  import opened Wire
  import opened Rta
  import opened Status
  import opened Connect
  import opened AlarmChannels
  import opened AlarmMirror
  import opened Devices
  import D = Diag
  import A = Ars
  import C = Cms
  import R = CmRuns
  import L = Layout

  // --- what left, what was asked for ------------------------------------------------------

  /** The frames channel `e` put on the wire, in order. */
  function OnWire(log: seq<Entry>, e: nat): seq<RtaPdu> {
    if log == [] then []
    else
      var last := log[|log| - 1];
      OnWire(log[..|log| - 1], e) + (if last.Frame? && last.prod == e then [last.pdu] else [])
  }

  /** The frames some batches hold for channel `e`, in order. */
  function BatchPdus(bs: seq<Batch>, e: nat): seq<RtaPdu> {
    if bs == [] then [] else PdusIn(bs[0], e) + BatchPdus(bs[1..], e)
  }

  lemma OnWireSnoc(log: seq<Entry>, x: Entry, e: nat)
    ensures OnWire(log + [x], e) == OnWire(log, e) + (if x.Frame? && x.prod == e then [x.pdu] else [])
  {
    assert (log + [x])[..|log|] == log;
  }

  /** What one batch holds for channel `e`. */
  function PdusIn(b: Batch, e: nat): seq<RtaPdu> { if b.0 == e then SendsOf(b.1) else [] }

  lemma {:induction false} BatchSnoc(bs: seq<Batch>, b: Batch, e: nat)
    ensures BatchPdus(bs + [b], e) == BatchPdus(bs, e) + PdusIn(b, e)
    decreases |bs|
  {
    hide PdusIn;
    if bs == [] {
      assert bs + [b] == [b] && [b][1..] == [];
      assert PdusIn(b, e) + [] == PdusIn(b, e) == [] + PdusIn(b, e);
    } else {
      assert (bs + [b])[1..] == bs[1..] + [b];
      BatchSnoc(bs[1..], b, e);
      var x, y, z := PdusIn(bs[0], e), BatchPdus(bs[1..], e), PdusIn(b, e);
      assert x + (y + z) == (x + y) + z;
    }
  }

  lemma {:induction false} NoBatch(bs: seq<Batch>, e: nat)
    requires forall b <- bs :: b.0 != e
    ensures BatchPdus(bs, e) == []
    decreases |bs|
  {
    hide SendsOf;
    if bs != [] {
      assert bs[0] in bs && forall b <- bs[1..] :: b in bs;
      NoBatch(bs[1..], e);
    }
  }

  lemma {:induction false} NoFrame(log: seq<Entry>, e: nat)
    requires forall x <- log :: x.Frame? ==> x.prod != e
    ensures OnWire(log, e) == []
    decreases |log|
  {
    if log != [] {
      var init := log[..|log| - 1];
      assert log[|log| - 1] in log && forall x <- init :: x in log;
      NoFrame(init, e);
    }
  }

  // --- the invariant ------------------------------------------------------------------------

  /** Done under the channel that asked for it. */
  predicate EntryOk(x: Entry, epoch: nat) { x.live == Some(x.prod) && x.prod <= epoch }

  /** The last thing done for a channel: announcing its end, or ending it at the controller's ERR-RTA. */
  predicate Final(x: Entry) { x.ErrRta? || (x.TornDown? && x.reason.ControllerErrRta?) }

  /** Nothing is done for a channel after that. */
  predicate Closes(log: seq<Entry>) {
    forall i, j :: 0 <= i < j < |log| && Final(log[i]) ==> log[j].prod != log[i].prod
  }

  predicate AnnouncedBy(x: Entry, y: Entry) {
    x.TornDown? && y.ErrRta? && y.prod == x.prod && y.reason == x.reason
  }

  /** An AR torn down at its own channel's request is announced at once. */
  predicate Paired(log: seq<Entry>) {
    forall i :: 0 <= i < |log| && log[i].TornDown? && !log[i].reason.ControllerErrRta? ==>
      i + 1 < |log| && AnnouncedBy(log[i], log[i + 1])
  }

  /** An ERR-RTA is legible, carries the code of its reason, and never answers the controller's own. */
  predicate Speaks(x: Entry) {
    x.ErrRta? ==>
      && !x.reason.ControllerErrRta? && Legible(x.pdu)
      && x.pdu.body == BErr(StatusWord(0xCF, 0x81, 0xFD, if x.reason.RtWatchdog? then 5
                                                         else if x.reason.AlarmSendFailed? then 3 else 17))
  }

  predicate Unfinished(log: seq<Entry>, epoch: nat) { forall x <- log :: Final(x) ==> x.prod != epoch }

  predicate Tidy(log: seq<Entry>, open: bool, epoch: nat) {
    && Closes(log) && Paired(log) && (forall x <- log :: Speaks(x))
    && (open ==> Unfinished(log, epoch))
  }

  predicate Past(bs: seq<Batch>, epoch: nat) { forall b <- bs :: b.0 <= epoch && BatchOk(b.1) }

  /** An abort of the open channel is waiting to be applied. */
  predicate Doomed(pending: seq<Batch>, epoch: nat) { exists b <- pending :: b.0 == epoch && HasAbort(b.1) }

  predicate Logged(dev: Dev, pending: seq<Batch>) {
    && (forall x <- dev.log :: EntryOk(x, dev.epoch))
    && Past(pending, dev.epoch) && Past(dev.produced, dev.epoch)
    && Tidy(dev.log, dev.alarm.Some?, dev.epoch)
  }

  /** The open channel's frames are on the wire or waiting, in the order they were asked for; a closed
      one's are on the wire up to some point. */
  ghost predicate Ordered(dev: Dev, pending: seq<Batch>) {
    && (dev.alarm.Some? ==> OnWire(dev.log, dev.epoch) + BatchPdus(pending, dev.epoch) == BatchPdus(dev.produced, dev.epoch))
    && forall e: nat :: OnWire(dev.log, e) <= BatchPdus(dev.produced, e)
  }

  predicate ChannelFollows(dev: Dev) {
    && (dev.alarm.Some? <==> dev.cm.ar.state.Data?)
    && A.Inv(dev.cm.ar)
    && (dev.alarm.Some? ==> dev.alarm.value.cfg == ConfigFor(dev.cm.ar.ctx.value.params, dev.mac))
  }

  predicate ImageFollows(dev: Dev) {
    && A.Inv(dev.cm.ar)
    && (dev.runner ==>
          && dev.cm.ar.state.Data? && dev.spawned == Some(true) && dev.rt
          && dev.cells == Some(dev.cm.ar.ctx.value.params)
          && L.TableFor(dev.cm.ar.ctx.value.params, dev.cm.ar.model).Ok?)
    && (dev.cells.Some? <==> dev.runner || dev.spawned == Some(false))
    && (dev.cm.ar.state.Data? && dev.rt && L.TableFor(dev.cm.ar.ctx.value.params, dev.cm.ar.model).Ok? ==>
          dev.cells == Some(dev.cm.ar.ctx.value.params))
  }

  /** Everything the channel has been asked to tell. */
  function Told(dev: Dev): Controller { HearAll(KNOWS_NOTHING, BatchPdus(dev.produced, dev.epoch)) }

  /** The shortest MaxAlarmDataLength that takes a channel diagnosis. */
  const DIAGNOSIS_LEN := 30

  function Mirrored(view: D.View, cfg: Config): D.View {
    if cfg.maxAlarmDataLength >= DIAGNOSIS_LEN then view else map[]
  }

  predicate Tells(dev: Dev, pending: seq<Batch>, view: D.View) {
    dev.alarm.Some? && !Doomed(pending, dev.epoch) ==>
      Telling(Told(dev), dev.alarm.value, Mirrored(view, dev.alarm.value.cfg))
  }

  ghost predicate Kept(dev: Dev, pending: seq<Batch>) {
    && Logged(dev, pending) && Ordered(dev, pending) && ChannelFollows(dev) && ImageFollows(dev)
    && D.WellFormed(dev.diag)
  }

  ghost predicate Inv(dev: Dev, pending: seq<Batch>) {
    Kept(dev, pending) && Tells(dev, pending, D.ViewOf(dev.diag.active))
  }

  // --- a channel operation ----------------------------------------------------------------------

  lemma PastSnoc(bs: seq<Batch>, b: Batch, epoch: nat)
    requires Past(bs, epoch) && b.0 <= epoch && BatchOk(b.1)
    ensures Past(bs + [b], epoch)
  {
  }

  lemma DoomedSnoc(pending: seq<Batch>, b: Batch, epoch: nat)
    ensures Doomed(pending + [b], epoch) <==> Doomed(pending, epoch) || (b.0 == epoch && HasAbort(b.1))
  {
    hide HasAbort;
    assert forall x :: x in pending + [b] <==> x in pending || x == b;
  }

  lemma ProduceOrdered(dev: Dev, pending: seq<Batch>, b: Batch)
    requires Ordered(dev, pending) && b.0 == dev.epoch && b.1 != []
    ensures Ordered(Produce(dev, b), pending + [b])
  {
    hide OnWire, BatchPdus, SendsOf;
    var dev' := Produce(dev, b);
    BatchSnoc(pending, b, dev.epoch);
    forall e: nat ensures OnWire(dev'.log, e) <= BatchPdus(dev'.produced, e) {
      BatchSnoc(dev.produced, b, e);
    }
    BatchSnoc(dev.produced, b, dev.epoch);
  }

  /** The channel moved to `ch` asking for `acts`, telling `view` unless it gave up. */
  lemma PushKeeps(dev: Dev, pending: seq<Batch>, acts: seq<AlarmAction>, view: D.View)
    requires Kept(dev, pending) && dev.alarm.Some? && BatchOk(acts)
    requires !Doomed(pending, dev.epoch) ==>
      HasAbort(acts) || Telling(HearAll(Told(dev), SendsOf(acts)), dev.alarm.value, Mirrored(view, dev.alarm.value.cfg))
    ensures var b := Push(dev, pending, acts); Kept(b.dev, b.pending) && Tells(b.dev, b.pending, view)
  {
    hide Ordered, SendsOf, HearAll, Telling, BatchPdus, ImageFollows, ChannelFollows, D.WellFormed, BatchOk, HasAbort,
         L.TableFor, Mirrored, Doomed, Past;
    var x: Batch := (dev.epoch, acts);
    if acts == [] {
      NoSends();
      assert !HasAbort([]) by { NoAbort(); }
    } else {
      ProduceOrdered(dev, pending, x);
      PastSnoc(pending, x, dev.epoch);
      PastSnoc(dev.produced, x, dev.epoch);
      DoomedSnoc(pending, x, dev.epoch);
      BatchSnoc(dev.produced, x, dev.epoch);
      HearConcat(KNOWS_NOTHING, BatchPdus(dev.produced, dev.epoch), SendsOf(acts));
      var dev' := Produce(dev, x);
      assert ImageFollows(dev') && ChannelFollows(dev') by { SameImage(dev, dev'); }
    }
  }

  lemma NoSends()
    ensures SendsOf([]) == [] && forall c :: HearAll(c, []) == c
  {
  }

  lemma NoAbort()
    ensures !HasAbort([])
  {
  }

  /** Neither predicate looks at what was produced, logged or published. */
  lemma SameImage(dev: Dev, dev': Dev)
    requires dev'.mac == dev.mac && dev'.rt == dev.rt && dev'.cm == dev.cm && dev'.runner == dev.runner
    requires dev'.cells == dev.cells && dev'.spawned == dev.spawned
    ensures ImageFollows(dev') == ImageFollows(dev)
    ensures dev'.alarm == dev.alarm ==> ChannelFollows(dev') == ChannelFollows(dev)
    ensures dev'.alarm.Some? && dev.alarm.Some? && dev'.alarm.value.cfg == dev.alarm.value.cfg ==>
      ChannelFollows(dev') == ChannelFollows(dev)
  {
    hide A.Inv, L.TableFor;
  }

  /** A channel with the same configuration, another store, other ids. */
  lemma SwapChannel(dev: Dev, pending: seq<Batch>, ch: Option<Channel>, diag: D.Store, nextId: u32)
    requires Kept(dev, pending) && D.WellFormed(diag) && (ch.Some? <==> dev.alarm.Some?)
    requires ch.Some? ==> ch.value.cfg == dev.alarm.value.cfg
    ensures var dev' := dev.(alarm := ch, diag := diag, nextId := nextId); Kept(dev', pending) && Told(dev') == Told(dev)
  {
    hide OnWire, BatchPdus, ImageFollows, D.WellFormed, HearAll, Past, A.Inv, Tidy;
    var dev' := dev.(alarm := ch, diag := diag, nextId := nextId);
    SameImage(dev, dev');
  }

  lemma EthernetKeeps(b: Busy, frame: Bytes, now: int)
    requires Inv(b.dev, b.pending)
    ensures var b' := OnEthernet(b, frame, now);
      Inv(b'.dev, b'.pending) && b'.dev.diag == b.dev.diag && SamePublished(b.dev, b'.dev)
  {
    hide IsAlarmFrame, OnFrame, Push, Kept, Telling, HearAll, SendsOf, BatchPdus, D.ViewOf, BatchOk, Told, Doomed;
    if IsAlarmFrame(frame) && |frame| >= 6 && frame[..6] == b.dev.mac {
      if b.dev.alarm.Some? {
        var ch := b.dev.alarm.value;
        var (ch', acts) := OnFrame(ch, frame, now);
        var view := D.ViewOf(b.dev.diag.active);
        BatchShapes(ch, frame, now);
        WellFormedIn(b.dev, b.pending);
        SwapChannel(b.dev, b.pending, Some(ch'), b.dev.diag, b.dev.nextId);
        if !Doomed(b.pending, b.dev.epoch) { OnFrameTells(ch, frame, now, Told(b.dev), Mirrored(view, ch.cfg)); }
        PushKeeps(b.dev.(alarm := Some(ch')), b.pending, acts, view);
        PushDiag(b.dev.(alarm := Some(ch')), b.pending, acts);
      } else {
        Counted(b.dev, b.pending, b.dev.rxNoChannel + 1);
      }
    }
  }

  lemma WellFormedIn(dev: Dev, pending: seq<Batch>)
    requires Kept(dev, pending)
    ensures D.WellFormed(dev.diag)
  {
  }

  lemma PushDiag(dev: Dev, pending: seq<Batch>, acts: seq<AlarmAction>)
    ensures Push(dev, pending, acts).dev.diag == dev.diag && SamePublished(dev, Push(dev, pending, acts).dev)
  {
  }

  lemma Counted(dev: Dev, pending: seq<Batch>, n: nat)
    requires Kept(dev, pending)
    ensures Kept(dev.(rxNoChannel := n), pending)
  {
    hide OnWire, BatchPdus, D.WellFormed, Past, A.Inv, Tidy;
    SameImage(dev, dev.(rxNoChannel := n));
  }

  /** Queueing a diagnosis tells it, if the controller takes alarms that long. */
  lemma QueueTells(dev: Dev, pending: seq<Batch>, n: AlarmNotification, now: int, view: D.View)
    requires Kept(dev, pending) && Tells(dev, pending, view) && Plain(n)
    ensures var (dev', acts) := QueueNotification(dev, n, now);
      var b := Push(dev', pending, acts);
      && Kept(b.dev, b.pending) && Tells(b.dev, b.pending, D.Learn(view, n))
      && !HasAbort(acts) && dev'.epoch == dev.epoch && (dev'.alarm.Some? <==> dev.alarm.Some?)
      && dev'.diag == dev.diag
  {
    hide Enqueue, Push, Kept, Telling, HearAll, SendsOf, BatchPdus, BatchOk, HasAbort, D.Learn, Told, Doomed, Plain, PlainAndStamped;
    var (dev', acts) := QueueNotification(dev, n, now);
    WellFormedIn(dev, pending);
    NoAborts(acts);
    if dev.alarm.Some? {
      var (s, ch) := TakeSpecifier(dev.alarm.value);
      var req := AlarmReq(dev.nextId, Low, Stamped(n, s));
      StampedTells(n, s, view);
      EnqueueOutcome(ch, req, now);
      DiagnosisRefused(ch.cfg, req);
      if !Doomed(pending, dev.epoch) {
        SpecifierSilent(Told(dev), dev.alarm.value, Mirrored(view, ch.cfg));
        if !Refused(ch.cfg, req) {
          EnqueueTells(ch, req, now, Told(dev), Mirrored(view, ch.cfg));
        } else {
          NoSends();
        }
      }
      SwapChannel(dev, pending, dev'.alarm, dev'.diag, dev'.nextId);
      PushKeeps(dev', pending, acts, D.Learn(view, n));
    } else {
      PushNothing(dev, pending);
    }
  }

  lemma NoAborts(acts: seq<AlarmAction>)
    ensures !HasAbort(acts) ==> BatchOk(acts)
  {
  }

  lemma PushNothing(dev: Dev, pending: seq<Batch>)
    ensures Push(dev, pending, []) == Busy(dev, pending)
  {
  }

  lemma EnqueueOutcome(ch: Channel, req: AlarmReq, now: int)
    ensures Enqueue(ch, req, now).Ok? <==> !Refused(ch.cfg, req)
    ensures Enqueue(ch, req, now).Ok? ==> Enqueue(ch, req, now).value.0.cfg == ch.cfg
  {
  }

  lemma StampedTells(n: AlarmNotification, s: u16, view: D.View)
    ensures D.Learn(view, Stamped(n, s)) == D.Learn(view, n)
    ensures Plain(n) && s < 0x800 ==> PlainAndStamped(Stamped(n, s))
    ensures Plain(n) ==> Stamped(n, s).data.Channel?
  {
  }

  lemma SpecifierSilent(c: Controller, ch: Channel, target: D.View)
    ensures Telling(c, ch, target) ==> Telling(c, TakeSpecifier(ch).1, target) && TakeSpecifier(ch).0 < 0x800
    ensures TakeSpecifier(ch).1.cfg == ch.cfg
  {
    hide D.LearnAll, PlainAndStamped, Legible;
  }

  lemma CommandKeeps(b: Busy, cmd: DiagCommand, now: int)
    requires Inv(b.dev, b.pending)
    ensures var b' := OnCommand(b, cmd, now); Inv(b'.dev, b'.pending)
  {
    hide QueueNotification, Push, Kept, Tells, D.Learn, D.ViewOf, D.Raise, D.ClearOne, D.WellFormed;
    var dev, view := b.dev, D.ViewOf(b.dev.diag.active);
    WellFormedIn(dev, b.pending);
    var (diag, n) := if cmd.Raise? then D.Raise(dev.diag, cmd.d)
                     else D.ClearOne(dev.diag, cmd.slot, cmd.channel, cmd.error);
    if cmd.Raise? {
      D.RaiseMirrors(dev.diag, cmd.d);
    } else {
      D.ClearMirrors(dev.diag, cmd.slot, cmd.channel, cmd.error);
    }
    NotesArePlain(dev.diag, cmd);
    SwapChannel(dev, b.pending, dev.alarm, diag, dev.nextId);
    TellsSame(dev, dev.(diag := diag), b.pending, view);
    if n.Some? {
      QueueTells(dev.(diag := diag), b.pending, n.value, now, view);
      PushDiag(QueueNotification(dev.(diag := diag), n.value, now).0, b.pending,
               QueueNotification(dev.(diag := diag), n.value, now).1);
    }
  }

  lemma NotesArePlain(store: D.Store, cmd: DiagCommand)
    ensures cmd.Raise? ==> var n := D.Raise(store, cmd.d).1; n.Some? ==> Plain(n.value)
    ensures cmd.Clear? ==> var n := D.ClearOne(store, cmd.slot, cmd.channel, cmd.error).1; n.Some? ==> Plain(n.value)
  {
  }

  lemma TellsSame(dev: Dev, dev': Dev, pending: seq<Batch>, view: D.View)
    requires dev'.alarm == dev.alarm && dev'.epoch == dev.epoch && dev'.produced == dev.produced
    ensures Tells(dev', pending, view) == Tells(dev, pending, view)
  {
  }

  lemma RtaTimerKeeps(b: Busy, now: int)
    requires Inv(b.dev, b.pending)
    ensures var b' := OnRtaTimer(b, now);
      Inv(b'.dev, b'.pending) && b'.dev.diag == b.dev.diag && SamePublished(b.dev, b'.dev)
  {
    hide OnTick, Push, Kept, Telling, HearAll, SendsOf, BatchPdus, D.ViewOf, BatchOk, Told, Doomed;
    if b.dev.alarm.Some? {
      var ch := b.dev.alarm.value;
      var (ch', acts) := OnTick(ch, now);
      var view := D.ViewOf(b.dev.diag.active);
      BatchShapes(ch, [], now);
      WellFormedIn(b.dev, b.pending);
      SwapChannel(b.dev, b.pending, Some(ch'), b.dev.diag, b.dev.nextId);
      if !Doomed(b.pending, b.dev.epoch) { OnTickTells(ch, now, Told(b.dev), Mirrored(view, ch.cfg)); }
      PushKeeps(b.dev.(alarm := Some(ch')), b.pending, acts, view);
      PushDiag(b.dev.(alarm := Some(ch')), b.pending, acts);
    }
  }

  // --- applying a batch -------------------------------------------------------------------------

  /** The log after one action that is not an abort. */
  function LogOne(log: seq<Entry>, epoch: nat, a: AlarmAction): seq<Entry> {
    if a.Send? then log + [Frame(epoch, Some(epoch), a.pdu)] else log
  }

  lemma ActFirst(dev: Dev, acts: seq<AlarmAction>, now: int, spawnOk: bool)
    requires acts != [] && !acts[0].Abort? && dev.alarm.Some?
    ensures ActAll(dev, dev.epoch, acts, now, spawnOk)
         == ActAll(dev.(log := LogOne(dev.log, dev.epoch, acts[0])), dev.epoch, acts[1..], now, spawnOk)
  {
    hide AbortWithErrRta;
  }

  lemma LoggedOne(log: seq<Entry>, epoch: nat, acts: seq<AlarmAction>, e: nat)
    requires acts != []
    ensures OnWire(LogOne(log, epoch, acts[0]), e) + (if e == epoch then SendsOf(acts[1..]) else [])
         == OnWire(log, e) + (if e == epoch then SendsOf(acts) else [])
    ensures (forall x <- log :: EntryOk(x, epoch)) ==> forall x <- LogOne(log, epoch, acts[0]) :: EntryOk(x, epoch)
    ensures Tidy(log, true, epoch) ==> Tidy(LogOne(log, epoch, acts[0]), true, epoch)
  {
    hide OnWire, EntryOk, Tidy;
    var rest := SendsOf(acts[1..]);
    if acts[0].Send? {
      var x := Frame(epoch, Some(epoch), acts[0].pdu);
      if Tidy(log, true, epoch) { TidyFrame(log, epoch, x); }
      OnWireSnoc(log, x, e);
      assert EntryOk(x, epoch) by { FreshEntry(epoch, x.pdu); }
      assert OnWire(log, e) + [x.pdu] + rest == OnWire(log, e) + ([x.pdu] + rest);
    } else {
      assert [] + rest == rest;
    }
  }

  lemma FreshEntry(epoch: nat, pdu: RtaPdu)
    ensures EntryOk(Frame(epoch, Some(epoch), pdu), epoch)
  {
  }

  lemma TidyFrame(log: seq<Entry>, epoch: nat, x: Entry)
    requires Tidy(log, true, epoch) && x.Frame? && x.prod == epoch
    ensures Tidy(log + [x], true, epoch)
  {
    hide Speaks;
    assert Speaks(x) by { FrameSpeaks(x); }
    assert forall i :: 0 <= i < |log| ==> log[i] in log && (log + [x])[i] == log[i];
  }

  lemma FrameSpeaks(x: Entry)
    ensures !x.ErrRta? ==> Speaks(x)
  {
  }

  /** A batch without an abort only adds its frames to the log, in order. */
  lemma {:induction false} SentAll(dev: Dev, acts: seq<AlarmAction>, now: int, spawnOk: bool, e: nat)
    requires !HasAbort(acts) && dev.alarm.Some?
    ensures var dev' := ActAll(dev, dev.epoch, acts, now, spawnOk);
      && dev' == dev.(log := dev'.log)
      && (Tidy(dev.log, true, dev.epoch) ==> Tidy(dev'.log, true, dev.epoch))
      && OnWire(dev'.log, e) == OnWire(dev.log, e) + (if e == dev.epoch then SendsOf(acts) else [])
      && ((forall x <- dev.log :: EntryOk(x, dev.epoch)) ==> forall x <- dev'.log :: EntryOk(x, dev.epoch))
    decreases |acts|
  {
    hide OnWire, ActAll, EntryOk, LogOne, Tidy;
    if acts == [] {
      ActNone(dev, dev.epoch, now, spawnOk);
    } else {
      assert acts[0] in acts && forall a <- acts[1..] :: a in acts;
      ActFirst(dev, acts, now, spawnOk);
      LoggedOne(dev.log, dev.epoch, acts, e);
      SentAll(dev.(log := LogOne(dev.log, dev.epoch, acts[0])), acts[1..], now, spawnOk, e);
    }
  }

  /** What applying the frames of a live batch leaves, whatever else is pending. */
  lemma SendKeeps(dev: Dev, pending: seq<Batch>, rest: seq<Batch>, b: Batch, now: int, spawnOk: bool, view: D.View)
    requires Kept(dev, pending) && Tells(dev, pending, view)
    requires b.0 == dev.epoch && dev.alarm.Some? && !HasAbort(b.1)
    requires BatchPdus(pending, dev.epoch) == SendsOf(b.1) + BatchPdus(rest, dev.epoch)
    requires Past(rest, dev.epoch) && (Doomed(rest, dev.epoch) <==> Doomed(pending, dev.epoch))
    ensures var dev' := ApplyBatch(dev, b, now, spawnOk);
      Kept(dev', rest) && Tells(dev', rest, view) && dev' == dev.(log := dev'.log)
  {
    hide OnWire, BatchPdus, SendsOf, ActAll, D.WellFormed, HasAbort, Past, Doomed, Telling, HearAll, Mirrored, Tidy;
    var dev' := ActAll(dev, b.0, b.1, now, spawnOk);
    forall e: nat
      ensures OnWire(dev'.log, e) == OnWire(dev.log, e) + (if e == dev.epoch then SendsOf(b.1) else [])
    {
      SentAll(dev, b.1, now, spawnOk, e);
    }
    SentAll(dev, b.1, now, spawnOk, dev.epoch);
    SameImage(dev, dev');
    var w, p := OnWire(dev.log, dev.epoch), BatchPdus(rest, dev.epoch);
    assert OnWire(dev'.log, dev.epoch) == w + SendsOf(b.1);
    assert w + SendsOf(b.1) + p == w + (SendsOf(b.1) + p);
  }

  /** Dropping the first batch of a channel that is gone. */
  lemma DropKeeps(dev: Dev, pending: seq<Batch>)
    requires Kept(dev, pending) && pending != [] && (dev.alarm.None? || dev.epoch != pending[0].0)
    ensures Kept(dev, pending[1..])
    ensures forall view :: Tells(dev, pending, view) ==> Tells(dev, pending[1..], view)
  {
    hide OnWire, SendsOf, D.WellFormed, HasAbort, BatchOk, Telling, ChannelFollows, ImageFollows, Tidy;
    var rest := pending[1..];
    assert pending == [pending[0]] + rest;
    assert forall b <- rest :: b in pending;
    if dev.alarm.Some? && Doomed(pending, dev.epoch) {
      var b :| b in pending && b.0 == dev.epoch && HasAbort(b.1);
      assert b in rest;
    }
  }

  // --- an AR goes down -----------------------------------------------------------------------------

  /** What is logged as a channel closes: nothing, or its end and the announcement of it. */
  predicate Closing(more: seq<Entry>, open: bool, epoch: nat) {
    more == []
    || (&& open && (forall x <- more :: x.live == Some(epoch) && x.prod == epoch && !x.Frame? && Speaks(x))
        && ((|more| == 1 && Final(more[0]))
            || (|more| == 2 && AnnouncedBy(more[0], more[1]) && !more[0].reason.ControllerErrRta?)))
  }

  lemma TidyClose(log: seq<Entry>, open: bool, epoch: nat, more: seq<Entry>)
    requires Tidy(log, open, epoch) && Closing(more, open, epoch)
    ensures Tidy(log + more, false, epoch)
  {
    hide Speaks;
    var all := log + more;
    if more == [] {
      assert all == log;
    } else {
      assert forall i :: 0 <= i < |log| ==> log[i] in log && all[i] == log[i];
      assert forall i :: 0 <= i < |more| ==> more[i] in more && all[|log| + i] == more[i];
      forall i, j | 0 <= i < j < |all| && Final(all[i]) ensures all[j].prod != all[i].prod {
        if i < |log| && j < |log| { assert Final(log[i]); }
      }
    }
  }

  lemma QuietLog(log: seq<Entry>, more: seq<Entry>, e: nat)
    requires |more| <= 2 && forall x <- more :: !x.Frame?
    ensures OnWire(log + more, e) == OnWire(log, e)
  {
    hide OnWire;
    if more == [] {
      assert log + more == log;
    } else {
      OnWireSnoc(log, more[0], e);
      if |more| == 2 {
        OnWireSnoc(log + [more[0]], more[1], e);
        assert log + more == log + [more[0]] + [more[1]];
      } else {
        assert more == [more[0]];
      }
    }
  }

  /** The channel and the RT thread go with the AR. */
  lemma CloseKeeps(dev: Dev, pending: seq<Batch>, more: seq<Entry>, cm: R.LiveCm, rpc: seq<C.Outgoing>)
    requires Kept(dev, pending) && A.Inv(cm.ar) && !cm.ar.state.Data?
    requires Closing(more, dev.alarm.Some?, dev.epoch)
    ensures Kept(StopRunner(dev.(log := dev.log + more, cm := cm, rpc := rpc)).(alarm := None), pending)
  {
    hide OnWire, BatchPdus, D.WellFormed, Past, L.TableFor, Tidy, Final, Speaks, AnnouncedBy;
    TidyClose(dev.log, dev.alarm.Some?, dev.epoch, more);
    forall e: nat ensures OnWire(dev.log + more, e) == OnWire(dev.log, e) { QuietLog(dev.log, more, e); }
    assert forall x <- dev.log + more :: x in dev.log || x in more;
  }

  lemma {:induction false} DispatchEnd(dev: Dev, notify: seq<C.Notice>, now: int, spawnOk: bool)
    requires |notify| > 0 && notify[0].0.Idle? && notify[0].1.Some?
    requires |notify| == 1 || notify == [notify[0], (A.Connected, None)]
    ensures Dispatch(dev, notify, now, spawnOk) == StopRunner(dev).(alarm := None)
  {
    hide StartRunner, ReplayAll, OpenChannel, StopRunner;
    var rest := notify[1..];
    assert rest == [] || (rest == [(A.Connected, None)] && rest[1..] == []);
    var dev1 := StopRunner(dev).(alarm := None);
    assert OnNotice(dev, notify[0], now, spawnOk) == dev1;
    assert Dispatch(dev1, rest, now, spawnOk) == dev1;
  }

  lemma DispatchKeep(dev: Dev, notify: seq<C.Notice>, now: int, spawnOk: bool)
    requires notify == [] || notify == [(A.Connected, None)]
    ensures Dispatch(dev, notify, now, spawnOk) == dev
  {
    hide StartRunner, ReplayAll, OpenChannel, StopRunner;
    if notify != [] { assert notify[1..] == []; }
  }

  /** What the log says of an abort the channel itself asked for. */
  predicate Asked(pre: seq<Entry>, dev: Dev, reason: AbortReason) {
    pre == [] || (dev.alarm.Some? && pre == [TornDown(dev.epoch, Some(dev.epoch), reason)])
  }

  lemma AnnouncementCloses(dev: Dev, pre: seq<Entry>, reason: AbortReason)
    requires Asked(pre, dev, reason)
    ensures Closing(pre + Announcement(dev, reason), dev.alarm.Some?, dev.epoch)
  {
    hide StatusWord, Legible;
    if dev.alarm.Some? && Code2(reason).Some? {
      ErrRtaLegible(dev.alarm.value, StatusWord(0xCF, 0x81, 0xFD, Code2(reason).value));
    }
  }

  lemma ErrRtaLegible(ch: Channel, status: PnioStatus)
    ensures Legible(ErrRtaPdu(ch, status)) && ErrRtaPdu(ch, status).body == BErr(status)
  {
  }

  /** A device-side abort leaves no AR, no channel and no RT thread behind. */
  lemma TearKeeps(dev: Dev, pending: seq<Batch>, pre: seq<Entry>, reason: AbortReason, now: int, spawnOk: bool)
    requires Kept(dev, pending) && !dev.cm.ar.state.Idle? && Asked(pre, dev, reason)
    ensures var dev' := AbortWithErrRta(dev.(log := dev.log + pre), reason, now, spawnOk);
      && Kept(dev', pending) && dev'.alarm.None? && dev'.diag == dev.diag && SamePublished(dev, dev')
      && dev'.log == dev.log + pre + Announcement(dev, reason)
  {
    hide Kept, Dispatch, R.Advance, ErrRtaPdu, Closing, Asked;
    var torn := dev.(log := dev.log + pre);
    var more := pre + Announcement(dev, reason);
    assert torn.log + Announcement(torn, reason) == dev.log + more;
    AnnouncementCloses(dev, pre, reason);
    var s := R.AdvanceShifts(dev.cm, C.Abandon(reason), now);
    var (cm', out) := R.Advance(dev.cm, C.Abandon(reason), now);
    var dev1 := dev.(log := dev.log + more, cm := cm', rpc := dev.rpc + out.send);
    DispatchEnd(dev1, out.notify, now, spawnOk);
    CloseKeeps(dev, pending, more, cm', dev1.rpc);
  }

  lemma AbortKeeps(dev: Dev, pending: seq<Batch>, reason: AbortReason, now: int, spawnOk: bool)
    requires Kept(dev, pending) && !dev.cm.ar.state.Idle?
    ensures var dev' := AbortWithErrRta(dev, reason, now, spawnOk);
      && Kept(dev', pending) && dev'.alarm.None? && dev'.diag == dev.diag && SamePublished(dev, dev')
      && dev'.log == dev.log + Announcement(dev, reason)
  {
    hide Kept, AbortWithErrRta, Announcement;
    assert dev.log + [] == dev.log;
    TearKeeps(dev, pending, [], reason, now, spawnOk);
  }

  predicate SamePublished(dev: Dev, dev': Dev) { dev'.active == dev.active && dev'.problem == dev.problem }

  /** The next batch: dropped, sent, or an abort of the channel that asked for it. */
  lemma ApplyKeeps(dev: Dev, pending: seq<Batch>, now: int, spawnOk: bool)
    requires Inv(dev, pending) && pending != []
    ensures var dev' := ApplyBatch(dev, pending[0], now, spawnOk);
      Inv(dev', pending[1..]) && dev'.diag == dev.diag && SamePublished(dev, dev')
  {
    hide Kept, SendsOf, Telling, HearAll, Told, Mirrored, D.ViewOf, AbortWithErrRta, HasAbort, ActAll, A.Inv;
    var (b, rest) := (pending[0], pending[1..]);
    PastOf(dev, pending);
    if dev.alarm.None? || dev.epoch != b.0 {
      DropKeeps(dev, pending);
    } else if !HasAbort(b.1) {
      DoomedFirst(pending, dev.epoch);
      SendKeeps(dev, pending, rest, b, now, spawnOk, D.ViewOf(dev.diag.active));
    } else {
      ActAbort(dev, b, now, spawnOk);
      InData(dev, pending);
      var pre := [TornDown(b.0, Some(dev.epoch), b.1[0].reason)];
      var torn := dev.(log := dev.log + pre);
      TearKeeps(dev, pending, pre, b.1[0].reason, now, spawnOk);
      DropKeeps(AbortWithErrRta(torn, b.1[0].reason, now, spawnOk), pending);
    }
  }

  lemma PastOf(dev: Dev, pending: seq<Batch>)
    requires Kept(dev, pending) && pending != []
    ensures BatchOk(pending[0].1) && Past(pending[1..], dev.epoch) && pending[0].0 <= dev.epoch
  {
    hide BatchOk, Ordered, ChannelFollows, ImageFollows, D.WellFormed, Tidy;
    assert pending[0] in pending && forall b <- pending[1..] :: b in pending;
  }

  lemma DoomedFirst(pending: seq<Batch>, epoch: nat)
    requires pending != [] && !HasAbort(pending[0].1)
    ensures Doomed(pending[1..], epoch) <==> Doomed(pending, epoch)
  {
    hide HasAbort;
    assert pending == [pending[0]] + pending[1..];
  }

  lemma InData(dev: Dev, pending: seq<Batch>)
    requires Kept(dev, pending) && dev.alarm.Some?
    ensures dev.cm.ar.state.Data?
  {
  }

  lemma ActAbort(dev: Dev, b: Batch, now: int, spawnOk: bool)
    requires HasAbort(b.1) && BatchOk(b.1) && dev.alarm.Some?
    ensures |b.1| == 1 && b.1[0].Abort?
    ensures ActAll(dev, b.0, b.1, now, spawnOk)
         == AbortWithErrRta(dev.(log := dev.log + [TornDown(b.0, Some(dev.epoch), b.1[0].reason)]), b.1[0].reason, now, spawnOk)
  {
    hide AbortWithErrRta;
    assert b.1[1..] == [];
    var dev1 := AbortWithErrRta(dev.(log := dev.log + [TornDown(b.0, Some(dev.epoch), b.1[0].reason)]), b.1[0].reason, now, spawnOk);
    assert ActAll(dev1, b.0, [], now, spawnOk) == dev1;
  }

  // --- an AR comes up --------------------------------------------------------------------------------

  predicate Older(pending: seq<Batch>, epoch: nat) { forall b <- pending :: b.0 < epoch }

  /** The new channel starts with nothing said and nothing pending. */
  lemma OpenKeeps(dev: Dev, pending: seq<Batch>, cm: R.LiveCm, rpc: seq<C.Outgoing>, spawnOk: bool)
    requires Kept(dev, pending) && !dev.cm.ar.state.Data?
    requires cm.ar.state.Data? && A.Inv(cm.ar)
    ensures var dev' := OpenChannel(StartRunner(dev.(cm := cm, rpc := rpc), spawnOk));
      && Kept(dev', pending) && Tells(dev', pending, map[]) && dev'.alarm.Some? && Older(pending, dev'.epoch)
      && dev'.diag == dev.diag
  {
    hide Logged, Ordered, ImageFollows, ChannelFollows, Tells, NewChannel, StartRunner, D.WellFormed, ConfigFor, Past;
    var dev0 := dev.(cm := cm, rpc := rpc);
    var dev' := OpenChannel(StartRunner(dev0, spawnOk));
    NotOpen(dev);
    OpenFrame(dev0, spawnOk);
    OpenImage(dev, cm, rpc, spawnOk);
    OpenLogged(dev, dev', pending);
    OpenTells(dev', pending, ConfigFor(cm.ar.ctx.value.params, dev.mac));
  }

  lemma NotOpen(dev: Dev)
    requires ChannelFollows(dev) && !dev.cm.ar.state.Data?
    ensures dev.alarm.None?
  {
  }

  lemma OpenFrame(dev: Dev, spawnOk: bool)
    requires A.Inv(dev.cm.ar) && dev.cm.ar.state.Data?
    ensures var dev' := OpenChannel(StartRunner(dev, spawnOk));
      && dev'.epoch == dev.epoch + 1 && dev'.log == dev.log && dev'.produced == dev.produced && dev'.diag == dev.diag
      && dev'.alarm == Some(NewChannel(ConfigFor(dev.cm.ar.ctx.value.params, dev.mac)))
  {
    hide NewChannel, ConfigFor, L.TableFor;
  }

  lemma OpenImage(dev: Dev, cm: R.LiveCm, rpc: seq<C.Outgoing>, spawnOk: bool)
    requires ImageFollows(dev) && !dev.cm.ar.state.Data? && cm.ar.state.Data? && A.Inv(cm.ar)
    ensures var dev' := OpenChannel(StartRunner(dev.(cm := cm, rpc := rpc), spawnOk));
      ImageFollows(dev') && ChannelFollows(dev')
  {
    hide ConfigFor, L.TableFor, A.ContextOk, A.TimersMatch;
  }

  lemma OpenLogged(dev: Dev, dev': Dev, pending: seq<Batch>)
    requires Logged(dev, pending) && Ordered(dev, pending)
    requires dev'.epoch == dev.epoch + 1 && dev'.log == dev.log && dev'.produced == dev.produced
    ensures Logged(dev', pending) && Ordered(dev', pending) && Older(pending, dev'.epoch)
    ensures BatchPdus(dev'.produced, dev'.epoch) == []
  {
    hide OnWire, BatchPdus, BatchOk, Tidy;
    NoFrame(dev.log, dev'.epoch);
    NoBatch(pending, dev'.epoch);
    NoBatch(dev.produced, dev'.epoch);
    TidyOpen(dev.log, dev.alarm.Some?, dev.epoch);
  }

  lemma TidyOpen(log: seq<Entry>, open: bool, epoch: nat)
    requires Tidy(log, open, epoch) && forall x <- log :: EntryOk(x, epoch)
    ensures Tidy(log, true, epoch + 1) && Tidy(log, false, epoch + 1)
  {
    hide Speaks, Closes, Paired;
  }

  lemma OpenTells(dev: Dev, pending: seq<Batch>, cfg: Config)
    requires dev.alarm == Some(NewChannel(cfg)) && BatchPdus(dev.produced, dev.epoch) == []
    ensures Tells(dev, pending, map[])
  {
    hide BatchPdus, Doomed;
    NoSends();
    NothingQueued();
  }

  lemma NothingQueued()
    ensures Notes([]) == [] && forall v :: D.LearnAll(v, []) == v
  {
  }

  /** Replayed notifications are told in order, at once. */
  lemma {:induction false} ReplayKeeps(dev: Dev, pending: seq<Batch>, ns: seq<AlarmNotification>, now: int, spawnOk: bool,
                                       view: D.View)
    requires Kept(dev, pending) && Tells(dev, pending, view) && dev.alarm.Some? && Older(pending, dev.epoch)
    requires forall n <- ns :: Plain(n)
    ensures var dev' := ReplayAll(dev, ns, dev.epoch, now, spawnOk);
      Kept(dev', pending) && Tells(dev', pending, D.LearnFrom(view, ns)) && dev'.diag == dev.diag
    decreases |ns|
  {
    hide Kept, Tells, QueueNotification, ActAll, D.Learn, HasAbort;
    if ns != [] {
      assert ns[0] in ns && forall n <- ns[1..] :: n in ns;
      var (dev1, acts) := QueueNotification(dev, ns[0], now);
      var x: Batch := (dev.epoch, acts);
      QueueTells(dev, pending, ns[0], now, view);
      var dev2 := Produce(dev1, x);
      if acts == [] {
        ActNone(dev2, dev.epoch, now, spawnOk);
      } else {
        ReplayedBatch(dev2, pending, x, now, spawnOk, D.Learn(view, ns[0]));
      }
      ReplayKeeps(ApplyBatch(dev2, x, now, spawnOk), pending, ns[1..], now, spawnOk, D.Learn(view, ns[0]));
    }
  }

  lemma ActNone(dev: Dev, prod: nat, now: int, spawnOk: bool)
    ensures ActAll(dev, prod, [], now, spawnOk) == dev
  {
  }

  lemma ReplayedBatch(dev: Dev, older: seq<Batch>, b: Batch, now: int, spawnOk: bool, view: D.View)
    requires Kept(dev, older + [b]) && Tells(dev, older + [b], view)
    requires b.0 == dev.epoch && dev.alarm.Some? && !HasAbort(b.1) && Older(older, dev.epoch)
    ensures var dev' := ApplyBatch(dev, b, now, spawnOk);
      Kept(dev', older) && Tells(dev', older, view) && dev' == dev.(log := dev'.log)
  {
    hide Kept, Tells, BatchPdus, SendsOf, HasAbort, ApplyBatch, BatchOk;
    BatchSnoc(older, b, dev.epoch);
    NoBatch(older, dev.epoch);
    DoomedSnoc(older, b, dev.epoch);
    PastFront(dev, older, b);
    SendKeeps(dev, older + [b], older, b, now, spawnOk, view);
  }

  lemma PastFront(dev: Dev, older: seq<Batch>, b: Batch)
    requires Kept(dev, older + [b])
    ensures Past(older, dev.epoch)
  {
    hide BatchOk, Ordered, ChannelFollows, ImageFollows, D.WellFormed, Tidy;
    assert forall x <- older :: x in older + [b];
  }

  lemma {:induction false} AnnouncedArePlain(store: D.Store, keys: seq<D.Key>)
    requires forall k <- keys :: k in store.active
    ensures forall n <- D.Announce(store, keys) :: Plain(n)
    decreases |keys|
  {
    if keys != [] {
      var rest := D.Announce(store, keys[1..]);
      AnnouncedArePlain(store, keys[1..]);
      assert D.Announce(store, keys) == D.Announce(store, keys)[..|D.Announce(store, keys)| - |rest|] + rest;
    }
  }

  ghost predicate Published(dev: Dev) {
    dev.active == D.ActiveList(dev.diag) && dev.problem == D.ProblemIndicator(dev.diag)
  }

  lemma PublishKeeps(dev: Dev, pending: seq<Batch>, view: D.View)
    requires Kept(dev, pending) && Tells(dev, pending, view)
    ensures var dev' := Publish(dev); Kept(dev', pending) && Tells(dev', pending, view) && Published(dev')
  {
    hide OnWire, BatchPdus, D.WellFormed, Past, D.ActiveList, D.ProblemIndicator, Tidy;
    SameImage(dev, Publish(dev));
    TellsSame(dev, Publish(dev), pending, view);
  }

  lemma DispatchBegin(dev: Dev, now: int, spawnOk: bool)
    ensures var open := OpenChannel(StartRunner(dev, spawnOk));
      Dispatch(dev, [(A.Data, None)], now, spawnOk) == Publish(ReplayAll(open, D.Replay(open.diag), open.epoch, now, spawnOk))
  {
    hide StartRunner, ReplayAll, OpenChannel, Publish;
    var open := OpenChannel(StartRunner(dev, spawnOk));
    var dev1 := Publish(ReplayAll(open, D.Replay(open.diag), open.epoch, now, spawnOk));
    var n: C.Notice := (A.Data, None);
    assert [n][1..] == [];
    assert OnNotice(dev, n, now, spawnOk) == dev1;
    assert Dispatch(dev1, [], now, spawnOk) == dev1;
  }

  /** Reaching Data opens a channel and tells a controller that knows nothing the whole active set. */
  lemma BeginKeeps(dev: Dev, pending: seq<Batch>, cm: R.LiveCm, rpc: seq<C.Outgoing>, now: int, spawnOk: bool)
    requires Kept(dev, pending) && !dev.cm.ar.state.Data?
    requires cm.ar.state.Data? && A.Inv(cm.ar)
    ensures var dev' := Dispatch(dev.(cm := cm, rpc := rpc), [(A.Data, None)], now, spawnOk);
      Inv(dev', pending) && Published(dev') && dev'.diag == dev.diag
  {
    hide Kept, Tells, Dispatch, ReplayAll, OpenChannel, StartRunner, A.Inv, D.WellFormed, D.SortedKeys, D.Announce;
    var dev0 := dev.(cm := cm, rpc := rpc);
    var open := OpenChannel(StartRunner(dev0, spawnOk));
    OpenKeeps(dev, pending, cm, rpc, spawnOk);
    DispatchBegin(dev0, now, spawnOk);
    WellFormedIn(dev, pending);
    AnnouncedArePlain(open.diag, D.SortedKeys(open.diag.active.Keys));
    var ns := D.Replay(open.diag);
    ReplayKeeps(open, pending, ns, now, spawnOk, map[]);
    D.LearnFromIsLearnAll(map[], ns);
    D.ReplayTellsAll(open.diag);
    var told := ReplayAll(open, ns, open.epoch, now, spawnOk);
    PublishKeeps(told, pending, D.ViewOf(open.diag.active));
    assert Publish(told).diag == dev.diag;
  }

  // --- a step of the context manager -------------------------------------------------------------------

  lemma KeepKeeps(dev: Dev, pending: seq<Batch>, cm: R.LiveCm, rpc: seq<C.Outgoing>)
    requires Kept(dev, pending) && A.Inv(cm.ar) && cm.ar.model == dev.cm.ar.model
    requires dev.cm.ar.state.Data? <==> cm.ar.state.Data?
    requires dev.cm.ar.state.Data? ==> A.SameParams(dev.cm.ar, cm.ar)
    ensures var dev' := dev.(cm := cm, rpc := rpc); Kept(dev', pending) && (Inv(dev, pending) ==> Inv(dev', pending))
  {
    hide OnWire, BatchPdus, D.WellFormed, Past, L.TableFor, ConfigFor, D.ViewOf, Tidy;
    TellsSame(dev, dev.(cm := cm, rpc := rpc), pending, D.ViewOf(dev.diag.active));
  }

  lemma StepCmKeeps(dev: Dev, pending: seq<Batch>, inp: C.Input, now: int, spawnOk: bool)
    requires Inv(dev, pending)
    ensures var dev' := StepCm(dev, inp, now, spawnOk);
      Inv(dev', pending) && dev'.diag == dev.diag && (Published(dev) ==> Published(dev'))
  {
    hide Kept, Tells, Dispatch, R.Advance, A.Inv, D.ActiveList, D.ProblemIndicator;
    var s := R.AdvanceShifts(dev.cm, inp, now);
    var (cm', out) := R.Advance(dev.cm, inp, now);
    var rpc := dev.rpc + out.send;
    var dev1 := dev.(cm := cm', rpc := rpc);
    match s
    case Keep =>
      DispatchKeep(dev1, out.notify, now, spawnOk);
      KeepKeeps(dev, pending, cm', rpc);
    case Begin =>
      BeginKeeps(dev, pending, cm', rpc, now, spawnOk);
    case End =>
      DispatchEnd(dev1, out.notify, now, spawnOk);
      assert dev.log + [] == dev.log;
      CloseKeeps(dev, pending, [], cm', rpc);
      Silent(StopRunner(dev1).(alarm := None), pending, D.ViewOf(dev.diag.active));
  }

  lemma Silent(dev: Dev, pending: seq<Batch>, view: D.View)
    ensures dev.alarm.None? ==> Tells(dev, pending, view)
  {
  }

  lemma RtEventKeeps(dev: Dev, pending: seq<Batch>, ev: RtEvent, now: int, spawnOk: bool)
    requires Inv(dev, pending) && dev.runner
    ensures var dev' := OnRtEvent(dev, ev, now, spawnOk);
      Inv(dev', pending) && dev'.diag == dev.diag && (Published(dev) ==> Published(dev'))
  {
    hide Kept, Tells, AbortWithErrRta, D.ActiveList, D.ProblemIndicator;
    if ev.WatchdogExpired? || ev.SocketError? {
      var reason := if ev.WatchdogExpired? then RtWatchdog else RtSocket;
      RunnerInData(dev, pending);
      AbortKeeps(dev, pending, reason, now, spawnOk);
      Silent(AbortWithErrRta(dev, reason, now, spawnOk), pending, D.ViewOf(dev.diag.active));
    }
  }

  lemma RunnerInData(dev: Dev, pending: seq<Batch>)
    requires Kept(dev, pending) && dev.runner
    ensures !dev.cm.ar.state.Idle?
  {
  }

  // --- a whole iteration ---------------------------------------------------------------------------------

  lemma {:induction false} FramesKeep(b: Busy, frames: seq<Bytes>, now: int)
    requires Inv(b.dev, b.pending)
    ensures var b' := AllFrames(b, frames, now);
      Inv(b'.dev, b'.pending) && b'.dev.diag == b.dev.diag && SamePublished(b.dev, b'.dev)
    decreases |frames|
  {
    hide Inv, OnEthernet;
    if frames != [] {
      EthernetKeeps(b, frames[0], now);
      FramesKeep(OnEthernet(b, frames[0], now), frames[1..], now);
    }
  }

  lemma {:induction false} CommandsKeep(b: Busy, cmds: seq<DiagCommand>, now: int)
    requires Inv(b.dev, b.pending)
    ensures var b' := AllCommands(b, cmds, now); Inv(b'.dev, b'.pending)
    decreases |cmds|
  {
    hide Inv, OnCommand;
    if cmds != [] {
      CommandKeeps(b, cmds[0], now);
      CommandsKeep(OnCommand(b, cmds[0], now), cmds[1..], now);
    }
  }

  lemma DrainKeeps(b: Busy, cmds: seq<DiagCommand>, now: int)
    requires Inv(b.dev, b.pending) && Published(b.dev)
    ensures var b' := Drain(b, cmds, now); Inv(b'.dev, b'.pending) && Published(b'.dev)
  {
    hide AllCommands, Kept, Tells, D.ViewOf, D.ActiveList, D.ProblemIndicator;
    if cmds != [] {
      CommandsKeep(b, cmds, now);
      var b' := AllCommands(b, cmds, now);
      PublishKeeps(b'.dev, b'.pending, D.ViewOf(b'.dev.diag.active));
    }
  }

  lemma {:induction false} DatagramsKeep(dev: Dev, pending: seq<Batch>, ds: seq<(C.Packet, C.Addr)>, now: int, spawnOk: bool)
    requires Inv(dev, pending) && Published(dev)
    ensures var dev' := AllDatagrams(dev, ds, now, spawnOk); Inv(dev', pending) && Published(dev')
    decreases |ds|
  {
    hide Inv, StepCm, Published;
    if ds != [] {
      var inp := C.Datagram(ds[0].0, ds[0].1);
      StepCmKeeps(dev, pending, inp, now, spawnOk);
      DatagramsKeep(StepCm(dev, inp, now, spawnOk), pending, ds[1..], now, spawnOk);
    }
  }

  lemma {:induction false} RtEventsKeep(dev: Dev, pending: seq<Batch>, evs: seq<RtEvent>, now: int, spawnOk: bool)
    requires Inv(dev, pending) && Published(dev)
    ensures var dev' := AllRtEvents(dev, evs, now, spawnOk); Inv(dev', pending) && Published(dev')
    decreases |evs|
  {
    hide Inv, OnRtEvent, Published;
    if evs != [] && dev.runner {
      RtEventKeeps(dev, pending, evs[0], now, spawnOk);
      RtEventsKeep(OnRtEvent(dev, evs[0], now, spawnOk), pending, evs[1..], now, spawnOk);
    }
  }

  lemma {:induction false} BatchesKeep(dev: Dev, pending: seq<Batch>, now: int, spawnOk: bool)
    requires Inv(dev, pending) && Published(dev)
    ensures var dev' := ApplyAll(dev, pending, now, spawnOk); Inv(dev', []) && Published(dev')
    decreases |pending|
  {
    hide Inv, ApplyBatch, D.ActiveList, D.ProblemIndicator;
    if pending != [] {
      ApplyKeeps(dev, pending, now, spawnOk);
      BatchesKeep(ApplyBatch(dev, pending[0], now, spawnOk), pending[1..], now, spawnOk);
    }
  }

  lemma UpToEventsKeeps(dev: Dev, arr: Arrivals)
    requires Inv(dev, []) && Published(dev)
    ensures var b := UpToEvents(dev, arr); Inv(b.dev, b.pending) && Published(b.dev)
  {
    hide Inv, AllFrames, Drain, AllDatagrams, D.ActiveList, D.ProblemIndicator;
    var a := AllFrames(Busy(dev, []), arr.frames, arr.now);
    FramesKeep(Busy(dev, []), arr.frames, arr.now);
    var b := Drain(a, arr.cmds, arr.now);
    DrainKeeps(a, arr.cmds, arr.now);
    DatagramsKeep(b.dev, b.pending, arr.datagrams, arr.now, arr.spawnOk);
  }

  lemma IterateKeeps(dev: Dev, arr: Arrivals)
    requires Inv(dev, []) && Published(dev)
    ensures Inv(Iterate(dev, arr), []) && Published(Iterate(dev, arr))
  {
    hide Inv, UpToEvents, AllRtEvents, StepCm, OnRtaTimer, ApplyAll, D.ActiveList, D.ProblemIndicator;
    var b := UpToEvents(dev, arr);
    UpToEventsKeeps(dev, arr);
    var e := AllRtEvents(b.dev, arr.events, arr.now, arr.spawnOk);
    RtEventsKeep(b.dev, b.pending, arr.events, arr.now, arr.spawnOk);
    var f := StepCm(e, C.Timer, arr.now, arr.spawnOk);
    StepCmKeeps(e, b.pending, C.Timer, arr.now, arr.spawnOk);
    var g := OnRtaTimer(Busy(f, b.pending), arr.now);
    RtaTimerKeeps(Busy(f, b.pending), arr.now);
    BatchesKeep(g.dev, g.pending, arr.now, arr.spawnOk);
  }

  lemma ShutdownKeeps(dev: Dev, now: int)
    requires Inv(dev, []) && Published(dev)
    ensures Inv(Devices.Shutdown(dev, now), []) && Published(Devices.Shutdown(dev, now))
  {
    hide Kept, Tells, AbortWithErrRta, D.ActiveList, D.ProblemIndicator;
    if !dev.cm.ar.state.Idle? {
      AbortKeeps(dev, [], Status.Shutdown, now, false);
      Silent(AbortWithErrRta(dev, Status.Shutdown, now, false), [], D.ViewOf(dev.diag.active));
    }
  }

  /** An abort asked for between iterations; without an AR it does nothing. */
  lemma AskedAbortKeeps(dev: Dev, reason: AbortReason, now: int)
    requires Inv(dev, []) && Published(dev)
    ensures var dev' := AbortWithErrRta(dev, reason, now, false); Inv(dev', []) && Published(dev')
  {
    hide Kept, Tells, StepCm, D.ActiveList, D.ProblemIndicator, D.ViewOf;
    if dev.cm.ar.state.Idle? {
      IdleIsClosed(dev);
      assert dev.log + [] == dev.log;
      StepCmKeeps(dev, [], C.Abandon(reason), now, false);
    } else {
      AbortKeeps(dev, [], reason, now, false);
      Silent(AbortWithErrRta(dev, reason, now, false), [], D.ViewOf(dev.diag.active));
    }
  }

  lemma IdleIsClosed(dev: Dev)
    requires Kept(dev, []) && dev.cm.ar.state.Idle?
    ensures dev.alarm.None?
  {
  }

  lemma StartKeeps(model: DeviceModel, mac: Mac, rt: bool, seed: Uuid)
    ensures var dev := NewDevice(model, mac, rt, seed); Inv(dev, []) && Published(dev)
  {
    hide D.Infos, L.TableFor;
    var dev := NewDevice(model, mac, rt, seed);
    assert D.SortedKeys({}) == [];
  }

  lemma {:induction false} RunKeeps(run: Run)
    ensures Inv(After(run), []) && Published(After(run))
  {
    hide Inv, Published, Iterate, Devices.Shutdown, NewDevice, AbortWithErrRta;
    match run
    case Start(model, mac, rt, seed) => StartKeeps(model, mac, rt, seed);
    case Then(before, arr) =>
      RunKeeps(before);
      IterateKeeps(After(before), arr);
    case ThenShutdown(before, now) =>
      RunKeeps(before);
      ShutdownKeeps(After(before), now);
    case ThenAbort(before, reason, now) =>
      RunKeeps(before);
      AskedAbortKeeps(After(before), reason, now);
  }

  // --- the theorems ---------------------------------------------------------------------------------------

  /** The octets of the frames the open channel put on the wire. */
  function WireFrames(dev: Dev): seq<Bytes>
    requires dev.alarm.Some?
  {
    FramesOf(dev.alarm.value.cfg.peer, dev.alarm.value.cfg.our, OnWire(dev.log, dev.epoch))
  }

  /** What a controller knows that has heard all of them, starting from nothing. */
  function Heard(dev: Dev): Controller
    requires dev.alarm.Some?
  {
    HearFrames(KNOWS_NOTHING, WireFrames(dev))
  }

  /** What it will know once it has heard the queue too. */
  function Known(dev: Dev): D.View
    requires dev.alarm.Some?
  {
    D.LearnAll(Heard(dev).view, Notes(dev.alarm.value.queue))
  }

  /** Over every run of raises, clears, aborts and reconnects: with the channel open, what the controller
      makes of the octets on the wire, followed by what is still queued, is exactly the active set with its
      severities, if the negotiated MaxAlarmDataLength is at least 30; with less it is told nothing at all. So
      the mirror is exact if and only if the length suffices or nothing is active. */
  lemma ControllerMirror(run: Run)
    ensures After(run).alarm.Some? ==> Mirrors(After(run))
  {
    hide After, OnWire, BatchPdus, HearAll, HearFrames, FramesOf, D.LearnAll, D.WellFormed, ImageFollows, Past,
         LegibleChannel, NumbersOk;
    RunKeeps(run);
    var dev := After(run);
    if dev.alarm.Some? {
      assert BatchPdus([], dev.epoch) == [] by { EmptyBatches(dev.epoch); }
      assert OnWire(dev.log, dev.epoch) + [] == OnWire(dev.log, dev.epoch);
      var cfg := dev.alarm.value.cfg;
      OctetsSayTheSame(KNOWS_NOTHING, cfg.peer, cfg.our, OnWire(dev.log, dev.epoch));
      ActiveIsView(dev.diag.active);
    }
  }

  predicate Mirrors(dev: Dev)
    requires dev.alarm.Some?
  {
    var ctx := dev.cm.ar.ctx;
    && ctx.Some?
    && |WireFrames(dev)| == |OnWire(dev.log, dev.epoch)|
    && var known := Known(dev);
       var active := D.ViewOf(dev.diag.active);
       var enough := ctx.value.params.maxAlarmDataLengthRemote >= DIAGNOSIS_LEN;
       && known == (if enough then active else map[])
       && (known == active <==> enough || dev.diag.active == map[])
  }

  lemma EmptyBatches(e: nat)
    ensures BatchPdus([], e) == []
  {
  }

  lemma ActiveIsView(active: map<D.Key, D.ActiveDiagnosis>)
    ensures D.ViewOf(active) == map[] <==> active == map[]
  {
    assert D.ViewOf(active).Keys == active.Keys;
  }

  /** Over every run: the channel is open exactly in Data; every frame sent and every AR torn down was
      asked for by the channel open at that moment; and the frames of any channel leave in the order it asked for
      them, all of them while it is open. */
  lemma EpochSafety(run: Run, e: nat)
    ensures var dev := After(run);
      && (dev.alarm.Some? <==> dev.cm.ar.state.Data?)
      && (forall x <- dev.log :: x.live == Some(x.prod))
      && OnWire(dev.log, e) <= BatchPdus(dev.produced, e)
      && (dev.alarm.Some? ==> OnWire(dev.log, dev.epoch) == BatchPdus(dev.produced, dev.epoch))
  {
    hide After, OnWire, BatchPdus, D.WellFormed, ImageFollows, Past, Tells, Tidy;
    RunKeeps(run);
    var dev := After(run);
    assert BatchPdus([], dev.epoch) == [] by { EmptyBatches(dev.epoch); }
    assert OnWire(dev.log, dev.epoch) + [] == OnWire(dev.log, dev.epoch);
  }

  /** Over every run: the published list holds each active diagnosis once, and the problem bit says
      whether a controller that knows the active set knows of a fault. */
  lemma PublishedAgrees(run: Run, d: D.ActiveDiagnosis)
    ensures var dev := After(run);
      && (d in dev.active <==> D.KeyOf(d) in dev.diag.active && dev.diag.active[D.KeyOf(d)] == d)
      && (forall i, j :: 0 <= i < j < |dev.active| ==> dev.active[i] != dev.active[j])
      && var view := D.ViewOf(dev.diag.active);
         dev.problem <==> exists k :: k in view && view[k] == Fault
  {
    hide After, D.ActiveList, D.ProblemIndicator, D.ViewOf, Tells, Ordered, Logged, ImageFollows, ChannelFollows;
    RunKeeps(run);
    D.PublishedList(After(run).diag, d);
    D.ProblemAgrees(After(run).diag);
  }

  /** Over every run: the RT thread lives only in Data, with the image of the current AR; in Data the
      image is the current AR's whenever its layout can be built; and whenever no RT thread lives, in Data
      or not, cells exist if and only if the RT thread of the last image did not come up. So in Data with a
      layout that cannot be built, and outside Data, the only cells there can be are left over from that. */
  lemma ImageLife(run: Run)
    ensures var dev := After(run);
      && (dev.runner ==> dev.cm.ar.state.Data?)
      && (dev.cm.ar.state.Data? ==>
            && dev.cm.ar.ctx.Some?
            && var params := dev.cm.ar.ctx.value.params;
               && (dev.runner ==> dev.cells == Some(params))
               && if dev.rt && L.TableFor(params, dev.cm.ar.model).Ok? then dev.cells == Some(params)
                  else !dev.runner)
      && (!dev.runner ==> (dev.cells.Some? <==> dev.spawned == Some(false)))
  {
    hide After, Tells, Ordered, Logged, ChannelFollows, L.TableFor, D.WellFormed;
    RunKeeps(run);
  }

  /** Over every run, for every abort in it wherever it came from: an AR torn down at its channel's request is
      announced at once by an ERR-RTA on that channel, unless the controller's own ERR-RTA is the reason; an
      ERR-RTA reads back from its octets with the code of its reason; and nothing is done for a channel after
      its end, so it has at most one ERR-RTA and no frame follows it. */
  lemma AbortsInOrder(run: Run, dst: Mac, src: Mac)
    ensures var dev := After(run);
      && Closes(dev.log) && Paired(dev.log) && (dev.alarm.Some? ==> Unfinished(dev.log, dev.epoch))
      && forall x <- dev.log :: x.ErrRta? ==>
           Speaks(x) && Fits(x.pdu) && ParseFrame(BuildFrame(dst, src, x.pdu)) == Ok(x.pdu)
  {
    hide After, Tells, Ordered, ImageFollows, ChannelFollows, D.WellFormed, Closes, Paired, ParseFrame, BuildFrame, Fits,
         Canonical, Past;
    RunKeeps(run);
    var dev := After(run);
    forall x | x in dev.log && x.ErrRta? ensures Fits(x.pdu) && ParseFrame(BuildFrame(dst, src, x.pdu)) == Ok(x.pdu) {
      FrameRoundTrip(dst, src, x.pdu);
    }
  }

  /** An ERR-RTA for that reason, of low priority, between the channel's references and with its counters, which the
      controller's parser reads as such. */
  predicate Announces(x: Entry, ch: Channel, reason: AbortReason) {
    && x.ErrRta? && x.reason == reason && Speaks(x) && x.pdu.priority.Low?
    && x.pdu.header == RtaHeader(ch.cfg.remoteRef, ch.cfg.localRef, TErr, false, ch.lastSentSeq, ch.lastRxSeq)
    && Fits(x.pdu) && ParseFrame(BuildFrame(ch.cfg.peer, ch.cfg.our, x.pdu)) == Ok(x.pdu)
  }

  /** The channel is closed, and one more frame is on the wire announcing that, unless the controller's own
      ERR-RTA is the reason. */
  predicate AbortedFrom(dev: Dev, dev': Dev, reason: AbortReason)
    requires dev.alarm.Some?
  {
    && dev'.alarm.None?
    && if reason.ControllerErrRta? then dev'.log == dev.log
       else dev'.log != [] && dev'.log[..|dev'.log| - 1] == dev.log
            && Announces(dev'.log[|dev'.log| - 1], dev.alarm.value, reason)
  }

  /** Over every run, aborting an AR whose channel is open does exactly that. */
  lemma AbortAnnounced(run: Run, reason: AbortReason, now: int, spawnOk: bool)
    ensures After(run).alarm.Some? ==> AbortedFrom(After(run), AbortWithErrRta(After(run), reason, now, spawnOk), reason)
  {
    hide After, Kept, AbortWithErrRta, Tells, Announces, ErrRtaPdu, StatusWord, Published, D.ViewOf;
    RunKeeps(run);
    var dev := After(run);
    if dev.alarm.Some? {
      InData(dev, []);
      AbortKeeps(dev, [], reason, now, spawnOk);
      if Code2(reason).Some? { ErrRtaAnnounces(dev, reason); }
    }
  }

  lemma ErrRtaAnnounces(dev: Dev, reason: AbortReason)
    requires dev.alarm.Some? && !reason.ControllerErrRta?
    ensures |Announcement(dev, reason)| == 1 && Announces(Announcement(dev, reason)[0], dev.alarm.value, reason)
  {
    hide ParseFrame, BuildFrame, StatusWord, Fits, Canonical;
    var pdu := Announcement(dev, reason)[0].pdu;
    ErrRtaLegible(dev.alarm.value, StatusWord(0xCF, 0x81, 0xFD, Code2(reason).value));
    FrameRoundTrip(dev.alarm.value.cfg.peer, dev.alarm.value.cfg.our, pdu);
  }

  /** A channel diagnosis is refused exactly when the controller takes less than 30 octets of alarm data:
      `ControllerMirror` says what that costs. */
  lemma DiagnosisRefused(cfg: Config, req: AlarmReq)
    requires req.notification.data.Channel?
    ensures Refused(cfg, req) <==> cfg.maxAlarmDataLength < DIAGNOSIS_LEN
  {
  }
}
