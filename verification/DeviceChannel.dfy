/** The alarm channel inside the device (crates/pnio/src/device/mod.rs): over every run the open channel is a run
    of the channel's own machine since it was opened, over the alarm frames that came for the device, the
    notifications the diagnosis store made and one timer tick in each iteration, in that order. */
module DeviceChannel {
  import opened Wire
  import opened Rta
  import opened Status
  import opened Connect
  import opened AlarmChannels
  import opened AlarmMirror
  import opened Devices
  import opened DeviceRuns
  import opened DeviceReference
  import D = Diag
  import A = Ars
  import C = Cms
  import R = CmRuns
  import M = CmReference
  import S = AlarmSender
  import T = AlarmReference

  // --- what is meant for the channel --------------------------------------------------------

  datatype Obs = Came(frame: Bytes, now: int) | Note(n: AlarmNotification, now: int) | Ticked(now: int)

  /** An Ethernet frame to the device's own address that carries an alarm, of high or low priority. */
  predicate ForUs(frame: Bytes, mac: Mac) {
    && ParseEth(frame).Some?
    && var (eth, off) := ParseEth(frame).value;
       && eth.dst == mac && eth.ethertype == 0x8892 && |frame| >= off + 2
       && (U16At(frame, off) == 0xFC01 || U16At(frame, off) == 0xFE01)
  }

  function FramesFor(frames: seq<Bytes>, mac: Mac, now: int): seq<Obs> {
    if frames == [] then []
    else (if ForUs(frames[0], mac) then [Came(frames[0], now)] else []) + FramesFor(frames[1..], mac, now)
  }

  function NoteBy(store: D.Store, cmd: DiagCommand, now: int): seq<Obs> {
    match Obeyed1(store, cmd).1 case Some(note) => [Note(note, now)] case None => []
  }

  /** The notifications commands bring about, in order. */
  function NotesBy(store: D.Store, cmds: seq<DiagCommand>, now: int): seq<Obs>
    decreases |cmds|
  {
    if cmds == [] then [] else NoteBy(store, cmds[0], now) + NotesBy(Obeyed1(store, cmds[0]).0, cmds[1..], now)
  }

  function NotesOf(ns: seq<AlarmNotification>, now: int): seq<Obs> { seq(|ns|, i requires 0 <= i < |ns| => Note(ns[i], now)) }

  /** Everything meant for the open channel since it was opened. A channel opens when a datagram brings the AR to Data,
      and is told the active diagnoses first. */
  ghost function Meant(run: Run): seq<Obs> {
    match run
    case Start(_, _, _, _) => []
    case Then(before, arr) =>
      var dev, dev' := After(before), After(run);
      if dev'.epoch != dev.epoch then NotesOf(D.Replay(dev'.diag), arr.now) + [Ticked(arr.now)]
      else Meant(before) + FramesFor(arr.frames, dev.mac, arr.now) + NotesBy(dev.diag, arr.cmds, arr.now) + [Ticked(arr.now)]
    case ThenShutdown(before, _) => Meant(before)
    case ThenAbort(before, _, _) => Meant(before)
  }

  // --- a run of the channel's machine -------------------------------------------------------

  /** What a run of the channel was given; notifications as the store made them, before they were stamped. */
  function GivenTo(r: S.Run): seq<Obs> {
    match r
    case Start => []
    case Then(pre, EvFrame(frame, now)) => GivenTo(pre) + [Came(frame, now)]
    case Then(pre, EvEnqueue(req, now)) => GivenTo(pre) + [Note(Stamped(req.notification, 0), now)]
    case Then(pre, EvTick(now)) => GivenTo(pre) + [Ticked(now)]
    case Then(pre, EvSpecifier) => GivenTo(pre)
  }

  /** Every alarm asked for is of low priority and stamped with a specifier number of its own: 0, 1, 2, ... modulo 2048. */
  predicate WellStamped(r: S.Run) {
    match r
    case Start => true
    case Then(pre, EvSpecifier) => false
    case Then(pre, EvEnqueue(req, _)) =>
      && pre.Then? && pre.ev.EvSpecifier? && WellStamped(pre.before)
      && req.priority.Low? && req.notification.specifier.sequence == T.Specifiers(pre.before) % 0x800
    case Then(pre, _) => WellStamped(pre)
  }

  /** The open channel is what that run leaves, and the device put on the wire, or holds to put there, what it asked for. */
  ghost predicate Voiced(dev: Dev, pending: seq<Batch>, r: S.Run, obs: seq<Obs>) {
    dev.alarm.Some? ==>
      var cfg := dev.alarm.value.cfg; var acts := S.Actions(cfg, r);
      && dev.alarm.value == S.After(cfg, r) && GivenTo(r) == obs && WellStamped(r)
      && SendsOf(acts) == BatchPdus(dev.produced, dev.epoch)
      && (S.Aborted(acts) ==> Doomed(pending, dev.epoch))
  }

  lemma {:induction false} SendsConcat(a: seq<AlarmAction>, b: seq<AlarmAction>)
    ensures SendsOf(a + b) == SendsOf(a) + SendsOf(b)
    decreases |a|
  {
    hide SendsOf;
    if a == [] {
      assert a + b == b;
      NoSends();
    } else {
      var x, rest := a[0], a[1..];
      SendsConcat(rest, b);
      assert a == [x] + rest && a + b == [x] + (rest + b);
      SendsOfFirst(x, rest);
      SendsOfFirst(x, rest + b);
      var y, z := SendsOf(rest), SendsOf(b);
      assert (if x.Send? then [x.pdu] else []) + (y + z) == (if x.Send? then [x.pdu] else []) + y + z;
    }
  }

  lemma AbortedConcat(a: seq<AlarmAction>, b: seq<AlarmAction>)
    ensures S.Aborted(a + b) <==> S.Aborted(a) || HasAbort(b)
  {
    assert forall x :: x in a + b <==> x in a || x in b;
  }

  /** The channel moved on to `ch` asking for `acts`, as the longer run does. */
  lemma PushVoiced(dev: Dev, pending: seq<Batch>, r: S.Run, obs: seq<Obs>, ch: Channel, acts: seq<AlarmAction>, r': S.Run)
    requires Voiced(dev, pending, r, obs) && dev.alarm.Some? && ch.cfg == dev.alarm.value.cfg && WellStamped(r')
    requires S.After(ch.cfg, r') == ch && S.Actions(ch.cfg, r') == S.Actions(ch.cfg, r) + acts
    ensures var b := Push(dev.(alarm := Some(ch)), pending, acts); Voiced(b.dev, b.pending, r', GivenTo(r'))
  {
    hide S.After, S.Actions, S.Aborted, HasAbort, SendsOf, BatchPdus, Doomed, GivenTo, WellStamped;
    var was := S.Actions(ch.cfg, r);
    SendsConcat(was, acts);
    AbortedConcat(was, acts);
    if acts == [] {
      assert was + acts == was;
    } else {
      var x: Batch := (dev.epoch, acts);
      BatchSnoc(dev.produced, x, dev.epoch);
      DoomedSnoc(pending, x, dev.epoch);
    }
  }

  lemma ForUsIsTaken(frame: Bytes, mac: Mac)
    ensures ForUs(frame, mac) <==> IsAlarmFrame(frame) && |frame| >= 6 && frame[..6] == mac
  {
  }

  lemma FramesForOne(frame: Bytes, mac: Mac, now: int)
    ensures FramesFor([frame], mac, now) == if ForUs(frame, mac) then [Came(frame, now)] else []
  {
    hide ForUs;
    assert [frame][1..] == [];
  }

  lemma FrameVoiced(b: Busy, frame: Bytes, now: int, r: S.Run, obs: seq<Obs>) returns (r': S.Run)
    requires Voiced(b.dev, b.pending, r, obs)
    ensures var b' := OnEthernet(b, frame, now);
      && b'.dev.epoch == b.dev.epoch && b'.dev.mac == b.dev.mac && (b'.dev.alarm.Some? <==> b.dev.alarm.Some?)
      && Voiced(b'.dev, b'.pending, r', obs + FramesFor([frame], b.dev.mac, now))
  {
    hide IsAlarmFrame, ForUs, OnFrame, Voiced, Push;
    ForUsIsTaken(frame, b.dev.mac);
    FramesForOne(frame, b.dev.mac, now);
    assert obs + [] == obs;
    r' := r;
    if b.dev.alarm.Some? {
      if ForUs(frame, b.dev.mac) {
        r' := S.Then(r, S.EvFrame(frame, now));
        FrameTaken(b.dev, b.pending, frame, now, r, obs);
      }
    } else {
      ClosedIsVoiced(OnEthernet(b, frame, now).dev, OnEthernet(b, frame, now).pending, r, obs + FramesFor([frame], b.dev.mac, now));
    }
  }

  lemma ClosedIsVoiced(dev: Dev, pending: seq<Batch>, r: S.Run, obs: seq<Obs>)
    ensures dev.alarm.None? ==> Voiced(dev, pending, r, obs)
  {
  }

  lemma FrameTaken(dev: Dev, pending: seq<Batch>, frame: Bytes, now: int, r: S.Run, obs: seq<Obs>)
    requires Voiced(dev, pending, r, obs) && dev.alarm.Some?
    ensures var (ch, acts) := OnFrame(dev.alarm.value, frame, now); var b := Push(dev.(alarm := Some(ch)), pending, acts);
      && b.dev.epoch == dev.epoch && b.dev.mac == dev.mac && b.dev.alarm.Some?
      && Voiced(b.dev, b.pending, S.Then(r, S.EvFrame(frame, now)), obs + [Came(frame, now)])
  {
    hide OnFrame, BatchPdus, Doomed, SendsOf, S.Aborted;
    var ch := dev.alarm.value;
    var ev := S.EvFrame(frame, now);
    S.ConfigKept(ch, ev);
    PushVoiced(dev, pending, r, obs, OnFrame(ch, frame, now).0, OnFrame(ch, frame, now).1, S.Then(r, ev));
  }

  lemma TickVoiced(b: Busy, now: int, r: S.Run, obs: seq<Obs>) returns (r': S.Run)
    requires Voiced(b.dev, b.pending, r, obs)
    ensures var b' := OnRtaTimer(b, now);
      && b'.dev.epoch == b.dev.epoch && (b'.dev.alarm.Some? <==> b.dev.alarm.Some?)
      && Voiced(b'.dev, b'.pending, r', obs + [Ticked(now)])
  {
    hide OnTick, BatchPdus, Doomed, SendsOf, S.Aborted;
    r' := S.Then(r, S.EvTick(now));
    if b.dev.alarm.Some? {
      var ch := b.dev.alarm.value;
      S.ConfigKept(ch, S.EvTick(now));
      PushVoiced(b.dev, b.pending, r, obs, OnTick(ch, now).0, OnTick(ch, now).1, r');
    }
  }

  /** A notification is stamped with the next specifier number and queued. */
  lemma QueueVoiced(dev: Dev, pending: seq<Batch>, n: AlarmNotification, now: int, r: S.Run, obs: seq<Obs>) returns (r': S.Run)
    requires Voiced(dev, pending, r, obs) && n.specifier.sequence == 0
    ensures var (dev', acts) := QueueNotification(dev, n, now); var b := Push(dev', pending, acts);
      && b.dev.epoch == dev.epoch && b.dev.mac == dev.mac && (b.dev.alarm.Some? <==> dev.alarm.Some?) && b.dev.diag == dev.diag
      && Voiced(b.dev, b.pending, r', obs + [Note(n, now)])
  {
    hide Voiced, Push, Enqueue, Stamped;
    r' := r;
    if dev.alarm.Some? {
      r' := QueueTaken(dev, pending, n, now, r, obs);
    } else {
      ClosedIsVoiced(dev, pending, r, obs + [Note(n, now)]);
      PushNothing(dev, pending);
    }
  }

  /** The run of the channel that stamps and queues. */
  lemma QueueRun(ch: Channel, r: S.Run, id: u32, n: AlarmNotification, now: int) returns (req: AlarmReq, r': S.Run)
    requires ch == S.After(ch.cfg, r) && WellStamped(r) && n.specifier.sequence == 0
    ensures var (s, ch1) := TakeSpecifier(ch); req == AlarmReq(id, Low, Stamped(n, s)) && ch1.cfg == ch.cfg
    ensures r' == S.Then(S.Then(r, S.EvSpecifier), S.EvEnqueue(req, now))
    ensures var ch1 := TakeSpecifier(ch).1; var (ch', acts) := S.Apply(ch1, S.EvEnqueue(req, now));
      S.After(ch.cfg, r') == ch' && ch'.cfg == ch.cfg && S.Actions(ch.cfg, r') == S.Actions(ch.cfg, r) + acts
    ensures WellStamped(r') && GivenTo(r') == GivenTo(r) + [Note(n, now)]
  {
    hide Enqueue;
    var (s, ch1) := TakeSpecifier(ch);
    req := AlarmReq(id, Low, Stamped(n, s));
    var r1 := S.Then(r, S.EvSpecifier);
    r' := S.Then(r1, S.EvEnqueue(req, now));
    T.SpecifiersTold(ch.cfg, r);
    S.ConfigKept(ch1, S.EvEnqueue(req, now));
    assert S.Apply(ch, S.EvSpecifier) == (ch1, []);
    assert S.Actions(ch.cfg, r) + [] == S.Actions(ch.cfg, r);
    assert Stamped(req.notification, 0) == n;
  }

  lemma QueueResult(dev: Dev, n: AlarmNotification, now: int)
    requires dev.alarm.Some?
    ensures var (s, ch) := TakeSpecifier(dev.alarm.value);
      var (ch', acts) := S.Apply(ch, S.EvEnqueue(AlarmReq(dev.nextId, Low, Stamped(n, s)), now));
      var (dev', acts') := QueueNotification(dev, n, now);
      acts' == acts && dev' == dev.(alarm := Some(ch'), nextId := dev'.nextId)
  {
    hide Enqueue, Stamped;
  }

  lemma QueueTaken(dev: Dev, pending: seq<Batch>, n: AlarmNotification, now: int, r: S.Run, obs: seq<Obs>) returns (r': S.Run)
    requires Voiced(dev, pending, r, obs) && dev.alarm.Some? && n.specifier.sequence == 0
    ensures var (dev', acts) := QueueNotification(dev, n, now); var b := Push(dev', pending, acts);
      && b.dev.epoch == dev.epoch && b.dev.mac == dev.mac && b.dev.alarm.Some? && b.dev.diag == dev.diag
      && Voiced(b.dev, b.pending, r', obs + [Note(n, now)])
  {
    hide BatchPdus, Doomed, SendsOf, S.Aborted, S.Apply, S.After, S.Actions, GivenTo, WellStamped, Stamped, QueueNotification,
         TakeSpecifier;
    var req;
    QueueResult(dev, n, now);
    req, r' := QueueRun(dev.alarm.value, r, dev.nextId, n, now);
    var (dev', acts) := QueueNotification(dev, n, now);
    PushVoiced(dev.(nextId := dev'.nextId), pending, r, obs, dev'.alarm.value, acts, r');
  }

  // --- the stages of an iteration ---------------------------------------------------------

  lemma {:induction false} FramesVoiced(b: Busy, frames: seq<Bytes>, now: int, r: S.Run, obs: seq<Obs>) returns (r': S.Run)
    requires Voiced(b.dev, b.pending, r, obs)
    ensures var b' := AllFrames(b, frames, now);
      && b'.dev.epoch == b.dev.epoch && (b'.dev.alarm.Some? <==> b.dev.alarm.Some?)
      && Voiced(b'.dev, b'.pending, r', obs + FramesFor(frames, b.dev.mac, now))
    decreases |frames|
  {
    hide Voiced, OnEthernet, ForUs;
    if frames == [] {
      r' := r;
      assert obs + [] == obs;
    } else {
      var one := FramesFor([frames[0]], b.dev.mac, now);
      r' := FrameVoiced(b, frames[0], now, r, obs);
      r' := FramesVoiced(OnEthernet(b, frames[0], now), frames[1..], now, r', obs + one);
      FramesForOne(frames[0], b.dev.mac, now);
      assert obs + one + FramesFor(frames[1..], b.dev.mac, now) == obs + FramesFor(frames, b.dev.mac, now);
    }
  }

  lemma NoteUnstamped(store: D.Store, cmd: DiagCommand)
    ensures var n := Obeyed1(store, cmd).1; n.Some? ==> n.value.specifier.sequence == 0
  {
    hide D.Info, D.AnyOnSlot, D.AnyOnChannel;
  }

  lemma CommandVoiced(b: Busy, cmd: DiagCommand, now: int, r: S.Run, obs: seq<Obs>) returns (r': S.Run)
    requires Voiced(b.dev, b.pending, r, obs)
    ensures var b' := OnCommand(b, cmd, now);
      && b'.dev.epoch == b.dev.epoch && (b'.dev.alarm.Some? <==> b.dev.alarm.Some?)
      && b'.dev.diag == Obeyed1(b.dev.diag, cmd).0
      && Voiced(b'.dev, b'.pending, r', obs + NoteBy(b.dev.diag, cmd, now))
  {
    hide Voiced, QueueNotification, Push, D.Raise, D.ClearOne;
    NoteUnstamped(b.dev.diag, cmd);
    var (diag, n) := Obeyed1(b.dev.diag, cmd);
    var dev := b.dev.(diag := diag);
    SameVoice(b.dev, dev, b.pending, r, obs);
    r' := r;
    if n.Some? { r' := QueueVoiced(dev, b.pending, n.value, now, r, obs); } else { assert obs + [] == obs; }
  }

  /** Only the channel, its epoch and what was produced matter. */
  lemma SameVoice(dev: Dev, dev': Dev, pending: seq<Batch>, r: S.Run, obs: seq<Obs>)
    requires dev'.alarm == dev.alarm && dev'.epoch == dev.epoch && dev'.produced == dev.produced
    ensures Voiced(dev', pending, r, obs) == Voiced(dev, pending, r, obs)
  {
  }

  lemma {:induction false} CommandsVoiced(b: Busy, cmds: seq<DiagCommand>, now: int, r: S.Run, obs: seq<Obs>) returns (r': S.Run)
    requires Voiced(b.dev, b.pending, r, obs)
    ensures var b' := AllCommands(b, cmds, now);
      && b'.dev.epoch == b.dev.epoch && (b'.dev.alarm.Some? <==> b.dev.alarm.Some?)
      && Voiced(b'.dev, b'.pending, r', obs + NotesBy(b.dev.diag, cmds, now))
    decreases |cmds|
  {
    hide Voiced, OnCommand, Obeyed1;
    if cmds == [] {
      r' := r;
      assert obs + [] == obs;
    } else {
      var one := NoteBy(b.dev.diag, cmds[0], now);
      r' := CommandVoiced(b, cmds[0], now, r, obs);
      var b1 := OnCommand(b, cmds[0], now);
      r' := CommandsVoiced(b1, cmds[1..], now, r', obs + one);
      assert obs + one + NotesBy(b1.dev.diag, cmds[1..], now) == obs + NotesBy(b.dev.diag, cmds, now);
    }
  }

  lemma SentVoiced(dev: Dev, pending: seq<Batch>, rest: seq<Batch>, b: Batch, now: int, spawnOk: bool, r: S.Run, obs: seq<Obs>)
    requires Voiced(dev, pending, r, obs) && dev.alarm.Some? && b.0 == dev.epoch && !HasAbort(b.1)
    requires Doomed(pending, dev.epoch) ==> Doomed(rest, dev.epoch)
    ensures var dev' := ApplyBatch(dev, b, now, spawnOk);
      Voiced(dev', rest, r, obs) && dev' == dev.(log := dev'.log)
  {
    hide ActAll, BatchPdus, Doomed, SendsOf, S.Aborted, S.After, S.Actions, GivenTo, WellStamped, HasAbort, Tidy;
    SentAll(dev, b.1, now, spawnOk, dev.epoch);
  }

  lemma {:induction false} ReplayVoiced(dev: Dev, pending: seq<Batch>, ns: seq<AlarmNotification>, now: int, spawnOk: bool,
                                        r: S.Run, obs: seq<Obs>) returns (r': S.Run)
    requires Voiced(dev, pending, r, obs) && dev.alarm.Some? && forall n <- ns :: n.specifier.sequence == 0
    ensures var dev' := ReplayAll(dev, ns, dev.epoch, now, spawnOk);
      dev'.epoch == dev.epoch && Voiced(dev', pending, r', obs + NotesOf(ns, now))
    decreases |ns|
  {
    hide Voiced, QueueNotification, ActAll, Doomed, HasAbort, ApplyBatch;
    if ns == [] {
      r' := r;
      assert obs + [] == obs;
    } else {
      assert ns[0] in ns && forall n <- ns[1..] :: n in ns;
      var (dev1, acts) := QueueNotification(dev, ns[0], now);
      var x: Batch := (dev.epoch, acts);
      r' := QueueVoiced(dev, pending, ns[0], now, r, obs);
      var dev2 := Produce(dev1, x);
      var obs1 := obs + [Note(ns[0], now)];
      DoomedSnoc(pending, x, dev.epoch);
      SentVoiced(dev2, if acts == [] then pending else pending + [x], pending, x, now, spawnOk, r', obs1);
      r' := ReplayVoiced(ApplyBatch(dev2, x, now, spawnOk), pending, ns[1..], now, spawnOk, r', obs1);
      assert obs1 + NotesOf(ns[1..], now) == obs + NotesOf(ns, now);
    }
  }

  /** What the open channel was given when `epoch` counts the channels before. */
  ghost function Since(dev: Dev, epoch: nat, obs: seq<Obs>, diag: D.Store, now: int): seq<Obs> {
    if dev.epoch == epoch then obs else NotesOf(D.Replay(diag), now)
  }

  lemma {:induction false} AnnouncedUnstamped(store: D.Store, keys: seq<D.Key>)
    requires forall k <- keys :: k in store.active
    ensures forall n <- D.Announce(store, keys) :: n.specifier.sequence == 0
    decreases |keys|
  {
    hide D.Info, D.AnyOnSlot;
    if keys != [] {
      var rest := D.Announce(store, keys[1..]);
      AnnouncedUnstamped(store, keys[1..]);
      assert D.Announce(store, keys) == D.Announce(store, keys)[..|D.Announce(store, keys)| - |rest|] + rest;
    }
  }

  lemma BeginVoiced(dev: Dev, pending: seq<Batch>, cm: R.LiveCm, rpc: seq<C.Outgoing>, now: int, spawnOk: bool) returns (r': S.Run)
    requires Kept(dev, pending) && !dev.cm.ar.state.Data? && cm.ar.state.Data? && A.Inv(cm.ar)
    ensures var dev' := Dispatch(dev.(cm := cm, rpc := rpc), [(A.Data, None)], now, spawnOk);
      dev'.epoch == dev.epoch + 1 && Voiced(dev', pending, r', NotesOf(D.Replay(dev.diag), now))
  {
    hide Voiced, Dispatch, ReplayAll, OpenChannel, StartRunner, A.Inv, D.SortedKeys, D.Announce, Ordered, Tidy, ImageFollows,
         D.WellFormed, NewChannel, ConfigFor, D.ActiveList, D.ProblemIndicator;
    var dev0 := dev.(cm := cm, rpc := rpc);
    var open := OpenChannel(StartRunner(dev0, spawnOk));
    OpenFrame(dev0, spawnOk);
    DispatchBegin(dev0, now, spawnOk);
    R.HasContextOf(cm.ar);
    FreshVoiced(dev, open, pending, ConfigFor(cm.ar.ctx.value.params, dev.mac));
    AnnouncedUnstamped(open.diag, D.SortedKeys(open.diag.active.Keys));
    r' := ReplayVoiced(open, pending, D.Replay(open.diag), now, spawnOk, S.Start, []);
    var told := ReplayAll(open, D.Replay(open.diag), open.epoch, now, spawnOk);
    SameVoice(told, Publish(told), pending, r', NotesOf(D.Replay(open.diag), now));
    assert [] + NotesOf(D.Replay(open.diag), now) == NotesOf(D.Replay(open.diag), now);
  }

  /** A channel just opened has been given nothing and has asked for nothing. */
  lemma FreshVoiced(dev: Dev, open: Dev, pending: seq<Batch>, cfg: Config)
    requires Past(dev.produced, dev.epoch) && open.produced == dev.produced && open.epoch == dev.epoch + 1
    requires open.alarm == Some(NewChannel(cfg))
    ensures Voiced(open, pending, S.Start, [])
  {
    hide BatchPdus, BatchOk, Doomed;
    NoBatch(open.produced, open.epoch);
  }

  lemma StepVoiced(dev: Dev, pending: seq<Batch>, inp: C.Input, now: int, spawnOk: bool, r: S.Run, obs: seq<Obs>)
    returns (r': S.Run)
    requires Kept(dev, pending) && Voiced(dev, pending, r, obs)
    ensures var dev' := StepCm(dev, inp, now, spawnOk);
      dev'.epoch >= dev.epoch && Voiced(dev', pending, r', Since(dev', dev.epoch, obs, dev.diag, now))
  {
    hide Kept, Voiced, Dispatch, R.Advance, A.Inv, NotesOf, D.Replay;
    var s := R.AdvanceShifts(dev.cm, inp, now);
    var (cm', out) := R.Advance(dev.cm, inp, now);
    var rpc := dev.rpc + out.send;
    var dev1 := dev.(cm := cm', rpc := rpc);
    r' := r;
    match s
    case Keep =>
      DispatchKeep(dev1, out.notify, now, spawnOk);
      SameVoice(dev, dev1, pending, r, obs);
    case Begin =>
      r' := BeginVoiced(dev, pending, cm', rpc, now, spawnOk);
    case End =>
      DispatchEnd(dev1, out.notify, now, spawnOk);
      ClosedIsVoiced(StopRunner(dev1).(alarm := None), pending, r, obs);
  }

  lemma {:induction false} DatagramsVoiced(dev: Dev, pending: seq<Batch>, ds: seq<(C.Packet, C.Addr)>, now: int, spawnOk: bool,
                                           r: S.Run, obs: seq<Obs>) returns (r': S.Run)
    requires Inv(dev, pending) && Voiced(dev, pending, r, obs)
    ensures var dev' := AllDatagrams(dev, ds, now, spawnOk);
      dev'.epoch >= dev.epoch && Voiced(dev', pending, r', Since(dev', dev.epoch, obs, dev.diag, now))
    decreases |ds|
  {
    hide Kept, Tells, Voiced, StepCm, NotesOf, D.Replay, Published;
    r' := r;
    if ds != [] {
      var inp := C.Datagram(ds[0].0, ds[0].1);
      var dev1 := StepCm(dev, inp, now, spawnOk);
      StepCmKeeps(dev, pending, inp, now, spawnOk);
      r' := StepVoiced(dev, pending, inp, now, spawnOk, r, obs);
      r' := DatagramsVoiced(dev1, pending, ds[1..], now, spawnOk, r', Since(dev1, dev.epoch, obs, dev.diag, now));
    }
  }

  lemma DoomedRest(pending: seq<Batch>, epoch: nat)
    requires pending != [] && (pending[0].0 != epoch || !HasAbort(pending[0].1))
    ensures Doomed(pending, epoch) ==> Doomed(pending[1..], epoch)
  {
    hide HasAbort;
    assert pending == [pending[0]] + pending[1..];
  }

  lemma {:induction false} BatchesVoiced(dev: Dev, pending: seq<Batch>, now: int, spawnOk: bool, r: S.Run, obs: seq<Obs>)
    requires Inv(dev, pending) && Voiced(dev, pending, r, obs)
    ensures var dev' := ApplyAll(dev, pending, now, spawnOk); dev'.epoch == dev.epoch && Voiced(dev', [], r, obs)
    decreases |pending|
  {
    hide Kept, Tells, Voiced, ApplyBatch, Doomed, HasAbort;
    if pending != [] {
      var dev1 := ApplyBatch(dev, pending[0], now, spawnOk);
      ApplyKeeps(dev, pending, now, spawnOk);
      BatchVoiced(dev, pending, now, spawnOk, r, obs);
      BatchesVoiced(dev1, pending[1..], now, spawnOk, r, obs);
    }
  }

  lemma BatchVoiced(dev: Dev, pending: seq<Batch>, now: int, spawnOk: bool, r: S.Run, obs: seq<Obs>)
    requires Kept(dev, pending) && pending != [] && Voiced(dev, pending, r, obs)
    ensures var dev' := ApplyBatch(dev, pending[0], now, spawnOk); dev'.epoch == dev.epoch && Voiced(dev', pending[1..], r, obs)
  {
    hide Kept, Voiced, ActAll, Doomed, HasAbort, AbortWithErrRta, BatchOk;
    var b := pending[0];
    PastOf(dev, pending);
    if dev.alarm.None? {
      ClosedIsVoiced(dev, pending[1..], r, obs);
    } else if dev.epoch != b.0 {
      DoomedRest(pending, dev.epoch);
      FewerPending(dev, pending, pending[1..], r, obs);
    } else if !HasAbort(b.1) {
      DoomedRest(pending, dev.epoch);
      SentVoiced(dev, pending, pending[1..], b, now, spawnOk, r, obs);
    } else {
      ActAbort(dev, b, now, spawnOk);
      InData(dev, pending);
      var pre := [TornDown(b.0, Some(dev.epoch), b.1[0].reason)];
      TornVoiced(dev, pending, pre, b.1[0].reason, now, spawnOk);
      ClosedIsVoiced(AbortWithErrRta(dev.(log := dev.log + pre), b.1[0].reason, now, spawnOk), pending[1..], r, obs);
    }
  }

  lemma FewerPending(dev: Dev, pending: seq<Batch>, rest: seq<Batch>, r: S.Run, obs: seq<Obs>)
    requires Voiced(dev, pending, r, obs) && (Doomed(pending, dev.epoch) ==> Doomed(rest, dev.epoch))
    ensures Voiced(dev, rest, r, obs)
  {
  }

  lemma TornVoiced(dev: Dev, pending: seq<Batch>, pre: seq<Entry>, reason: AbortReason, now: int, spawnOk: bool)
    requires Kept(dev, pending) && dev.cm.ar.state.Data?
    ensures var dev' := AbortWithErrRta(dev.(log := dev.log + pre), reason, now, spawnOk);
      dev'.epoch == dev.epoch && dev'.alarm.None?
  {
    hide Kept, Dispatch, R.Advance, ErrRtaPdu;
    var s := R.AdvanceShifts(dev.cm, C.Abandon(reason), now);
    var (cm', out) := R.Advance(dev.cm, C.Abandon(reason), now);
    var torn := dev.(log := dev.log + pre);
    var gone := torn.(log := torn.log + Announcement(torn, reason), cm := cm', rpc := dev.rpc + out.send);
    DispatchEnd(gone, out.notify, now, spawnOk);
  }

  lemma BeforeVoiced(dev: Dev, arr: Arrivals, r: S.Run, obs: seq<Obs>) returns (r': S.Run)
    requires Inv(dev, []) && Published(dev) && Voiced(dev, [], r, obs)
    ensures var b := UpToEvents(dev, arr);
      && b.dev.epoch >= dev.epoch
      && Voiced(b.dev, b.pending, r',
                Since(b.dev, dev.epoch, obs + FramesFor(arr.frames, dev.mac, arr.now) + NotesBy(dev.diag, arr.cmds, arr.now),
                      Obeyed(dev.diag, arr.cmds), arr.now))
  {
    hide Inv, Voiced, AllFrames, AllCommands, AllDatagrams, D.ActiveList, D.ProblemIndicator, NotesBy, FramesFor, NotesOf, Obeyed,
         D.Replay;
    var now := arr.now;
    var a := AllFrames(Busy(dev, []), arr.frames, now);
    FramesKeep(Busy(dev, []), arr.frames, now);
    r' := FramesVoiced(Busy(dev, []), arr.frames, now, r, obs);
    var obs1 := obs + FramesFor(arr.frames, dev.mac, now);
    DrainKeeps(a, arr.cmds, now);
    CommandsObeyed(a, arr.cmds, now);
    var b := Drain(a, arr.cmds, now);
    var obs2 := obs1 + NotesBy(dev.diag, arr.cmds, now);
    if arr.cmds == [] {
      NothingBy(dev.diag, now);
      assert obs1 + [] == obs1;
    } else {
      r' := CommandsVoiced(a, arr.cmds, now, r', obs1);
      var c := AllCommands(a, arr.cmds, now);
      SameVoice(c.dev, Publish(c.dev), c.pending, r', obs2);
    }
    r' := DatagramsVoiced(b.dev, b.pending, arr.datagrams, now, arr.spawnOk, r', obs2);
  }

  lemma NothingBy(store: D.Store, now: int)
    ensures NotesBy(store, [], now) == [] && Obeyed(store, []) == store
  {
  }

  lemma IterateVoiced(dev: Dev, arr: Arrivals, r: S.Run, obs: seq<Obs>) returns (r': S.Run)
    requires Inv(dev, []) && Published(dev) && Voiced(dev, [], r, obs)
    ensures var dev' := Iterate(dev, arr);
      Voiced(dev', [], r',
             Since(dev', dev.epoch, obs + FramesFor(arr.frames, dev.mac, arr.now) + NotesBy(dev.diag, arr.cmds, arr.now),
                   Obeyed(dev.diag, arr.cmds), arr.now) + [Ticked(arr.now)])
  {
    hide Kept, Tells, Voiced, UpToEvents, AllRtEvents, StepCm, OnRtaTimer, ApplyAll, Published, NotesBy, FramesFor, NotesOf, Obeyed,
         D.Replay, Announces;
    var b, now := UpToEvents(dev, arr), arr.now;
    var obs1 := obs + FramesFor(arr.frames, dev.mac, now) + NotesBy(dev.diag, arr.cmds, now);
    UpToEventsKeeps(dev, arr);
    BeforeObeyed(dev, arr);
    r' := BeforeVoiced(dev, arr, r, obs);
    var obs2 := Since(b.dev, dev.epoch, obs1, b.dev.diag, now);
    var e := AllRtEvents(b.dev, arr.events, now, arr.spawnOk);
    RtEventsKeep(b.dev, b.pending, arr.events, now, arr.spawnOk);
    EventsGiveUp(b.dev, b.pending, arr.events, now, arr.spawnOk);
    ClosedIsVoiced(e, b.pending, r', obs2);
    StepCmKeeps(e, b.pending, C.Timer, now, arr.spawnOk);
    r' := StepVoiced(e, b.pending, C.Timer, now, arr.spawnOk, r', obs2);
    var f := StepCm(e, C.Timer, now, arr.spawnOk);
    var obs3 := Since(f, dev.epoch, obs1, b.dev.diag, now);
    RtaTimerKeeps(Busy(f, b.pending), now);
    var g := OnRtaTimer(Busy(f, b.pending), now);
    r' := TickVoiced(Busy(f, b.pending), now, r', obs3);
    BatchesVoiced(g.dev, g.pending, now, arr.spawnOk, r', obs3 + [Ticked(now)]);
  }

  lemma AbortVoiced(dev: Dev, reason: AbortReason, now: int, r: S.Run, obs: seq<Obs>)
    requires Inv(dev, []) && Voiced(dev, [], r, obs)
    ensures Voiced(AbortWithErrRta(dev, reason, now, false), [], r, obs)
  {
    hide Kept, Tells, StepCm, Published, Voiced;
    if dev.alarm.Some? {
      InData(dev, []);
      AbortKeeps(dev, [], reason, now, false);
      ClosedIsVoiced(AbortWithErrRta(dev, reason, now, false), [], r, obs);
    } else {
      AbortStaysClosed(dev, reason, now);
      ClosedIsVoiced(AbortWithErrRta(dev, reason, now, false), [], r, obs);
    }
  }

  lemma AbortStaysClosed(dev: Dev, reason: AbortReason, now: int)
    requires Inv(dev, []) && dev.alarm.None?
    ensures AbortWithErrRta(dev, reason, now, false).alarm.None?
  {
    hide Kept, Tells, StepCm, Published;
    if dev.cm.ar.state.Idle? {
      assert dev.log + [] == dev.log;
      StillClosed(dev, reason, now);
    } else {
      AbortKeeps(dev, [], reason, now, false);
    }
  }

  lemma StillClosed(dev: Dev, reason: AbortReason, now: int)
    requires dev.alarm.None? && dev.cm.ar.state.Idle?
    ensures StepCm(dev, C.Abandon(reason), now, false).alarm.None?
  {
    hide Dispatch, R.Advance;
    var s := R.AdvanceShifts(dev.cm, C.Abandon(reason), now);
    var (cm', out) := R.Advance(dev.cm, C.Abandon(reason), now);
    DispatchKeep(dev.(cm := cm', rpc := dev.rpc + out.send), out.notify, now, false);
  }

  lemma {:induction false} RunVoiced(run: Run) returns (r: S.Run)
    ensures Voiced(After(run), [], r, Meant(run))
  {
    hide Inv, Voiced, Published, Iterate, AbortWithErrRta, D.Replay, NotesOf, NotesBy, FramesFor, Obeyed;
    match run
    case Start(model, mac, rt, seed) =>
      r := S.Start;
      ClosedIsVoiced(After(run), [], r, []);
    case Then(before, arr) =>
      r := RunVoiced(before);
      RunKeeps(before);
      IterateObeyed(After(before), arr);
      r := IterateVoiced(After(before), arr, r, Meant(before));
    case ThenShutdown(before, now) =>
      r := RunVoiced(before);
      RunKeeps(before);
      AbortVoiced(After(before), Status.Shutdown, now, r, Meant(before));
    case ThenAbort(before, reason, now) =>
      r := RunVoiced(before);
      RunKeeps(before);
      AbortVoiced(After(before), reason, now, r, Meant(before));
  }

  /** The channel a Connect asks for: its references, limits and address, with the device's own reference 0. */
  function NegotiatedBy(req: ConnectReq, mac: Mac): Config {
    Config(0, req.alarmCr.localAlarmReference,
           if req.alarmCr.rtaTimeoutFactor == 0 then 100 else 100 * req.alarmCr.rtaTimeoutFactor, req.alarmCr.rtaRetries,
           req.alarmCr.maxAlarmDataLength, req.ar.initiatorMac, mac)
  }

  /** The open channel is the one the Connect that established the AR asked for. */
  lemma ConfigNegotiated(run: Run)
    ensures var dev := After(run); var life := M.Knows(ManagerRun(run)).life;
      dev.cm.ar.ctx.Some? ==>
        life.Some? && ConfigFor(dev.cm.ar.ctx.value.params, dev.mac) == NegotiatedBy(life.value.req, dev.mac)
  {
    hide After, ManagerRun, R.After, M.ArRun, Validate, SentBy, A.After, A.LifeOf;
    ManagerRuns(run);
    var r := ManagerRun(run);
    M.ArRuns(r);
    A.ContextExplained(M.ModelOf(r), M.ArRun(r));
    var life := M.Knows(r).life;
    if life.Some? { NegotiatedFields(life.value.req, M.ModelOf(r)); }
  }

  /** Over every run, with the channel open: it is what its own machine makes of everything meant for it since it was
      opened, and of nothing else, with the parameters of the Connect that established the AR; every alarm is stamped
      with the next specifier number; what it asked to send is on the wire, all of it and in order; and it has not asked
      for an abort, for then it would be closed. */
  lemma ChannelRuns(run: Run) returns (r: S.Run)
    ensures var dev := After(run);
      dev.alarm.Some? ==>
        var life := M.Knows(ManagerRun(run)).life;
        && life.Some?
        && var cfg := NegotiatedBy(life.value.req, dev.mac);
           && dev.alarm == Some(S.After(cfg, r)) && GivenTo(r) == Meant(run) && WellStamped(r)
           && OnWire(dev.log, dev.epoch) == SendsOf(S.Actions(cfg, r)) && !S.Aborted(S.Actions(cfg, r))
  {
    hide After, Meant, S.After, S.Actions, S.Aborted, GivenTo, WellStamped, OnWire, BatchPdus, SendsOf, Published, Tells, Logged,
         Ordered, ImageFollows, D.WellFormed, ConfigFor, NegotiatedBy, ManagerRun, M.Knows;
    r := RunVoiced(run);
    RunKeeps(run);
    EpochSafety(run, 0);
    ConfigNegotiated(run);
  }

  // --- frames that find no channel --------------------------------------------------------

  ghost function Unheard(run: Run): nat {
    match run
    case Start(_, _, _, _) => 0
    case Then(before, arr) =>
      var dev := After(before);
      Unheard(before) + (if dev.alarm.None? then |FramesFor(arr.frames, dev.mac, arr.now)| else 0)
    case ThenShutdown(before, _) => Unheard(before)
    case ThenAbort(before, _, _) => Unheard(before)
  }

  lemma FrameUnheard(b: Busy, frame: Bytes, now: int)
    ensures var b' := OnEthernet(b, frame, now);
      && (b'.dev.alarm.Some? <==> b.dev.alarm.Some?) && b'.dev.mac == b.dev.mac
      && b'.dev.rxNoChannel == b.dev.rxNoChannel + (if b.dev.alarm.None? && ForUs(frame, b.dev.mac) then 1 else 0)
  {
    hide IsAlarmFrame, ForUs, OnFrame;
    ForUsIsTaken(frame, b.dev.mac);
  }

  lemma {:induction false} FramesUnheard(b: Busy, frames: seq<Bytes>, now: int)
    ensures AllFrames(b, frames, now).dev.rxNoChannel
         == b.dev.rxNoChannel + (if b.dev.alarm.None? then |FramesFor(frames, b.dev.mac, now)| else 0)
    decreases |frames|
  {
    hide OnEthernet, ForUs;
    if frames != [] {
      FrameUnheard(b, frames[0], now);
      FramesUnheard(OnEthernet(b, frames[0], now), frames[1..], now);
    }
  }

  /** Over every run, the alarm frames for the device that came while no channel was open are counted, all of them and no
      others. */
  lemma {:induction false} UnheardCounted(run: Run)
    ensures After(run).rxNoChannel == Unheard(run)
  {
    hide Inv, Published, Iterate, AbortWithErrRta, R.After, SentBy, Ran, ManagerRun, FramesFor, AllFrames, Given;
    match run
    case Start(model, mac, rt, seed) =>
    case Then(before, arr) =>
      UnheardCounted(before);
      RunKeeps(before);
      ManagerRuns(before);
      IterateManaged(After(before), ManagerRun(before), arr);
      FramesUnheard(Busy(After(before), []), arr.frames, arr.now);
    case ThenShutdown(before, now) =>
      UnheardCounted(before);
      ManagerRuns(before);
      AbortManaged(After(before), ManagerRun(before), Status.Shutdown, now, false);
    case ThenAbort(before, reason, now) =>
      UnheardCounted(before);
      ManagerRuns(before);
      AbortManaged(After(before), ManagerRun(before), reason, now, false);
  }
}
