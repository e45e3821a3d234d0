/** The consuming half of the cyclic engine (crates/pnio/src/rt/engine.rs, `on_frame`,
    `check_watchdog`, `mark_outputs_stale`): its step functions and what they keep over
    every run with monotone time. */
module Consumer {
  import opened Wire
  import opened Layout
  import opened RtFrames

  datatype DropReason =
    | TransferStatus(status: u8)
    | ShortCsdu(have: nat, need: nat)
    | Malformed

  datatype RxVerdict =
    | Accepted(providerRun: bool, primary: bool, dataValid: bool)
    | Ignored
    | Dropped(reason: DropReason)

  datatype WatchdogVerdict = NotArmed | WithinWindow | Expired | Stopped

  datatype Watchdog = WdNotArmed | WdOk | WdExpired

  datatype RxStats = RxStats(accepted: nat, ignored: nat, dropped: nat, invalid: nat, reordered: nat,
                             watchdogExpirations: nat)

  datatype Rx = Rx(csdu: Bytes, iopsGood: seq<bool>, iocsGood: seq<bool>, lastRx: Option<int>,
                   lastCounter: Option<u16>, watchdog: Watchdog, providerRun: bool, primary: bool,
                   stats: RxStats)

  /** The parts of the configuration the consumer reads. */
  datatype Consuming = Consuming(cr: CrLayout, cpu: Mac)

  function NewRx(cfg: Consuming): Rx {
    Rx(Zeros(cfg.cr.dataLength), seq(|cfg.cr.objects|, _ => false), seq(|cfg.cr.iocs|, _ => false),
       None, None, WdNotArmed, false, false, RxStats(0, 0, 0, 0, 0, 0))
  }

  /** Bit 7 of an IOxS byte. */
  predicate Good(b: u8) { b >= 0x80 }

  function IopsBits(cr: CrLayout, csdu: Bytes): (g: seq<bool>)
    requires Sound(cr) && |csdu| == cr.dataLength
    ensures |g| == |cr.objects|
  {
    seq(|cr.objects|, i requires 0 <= i < |cr.objects| =>
      assert cr.objects[i] in cr.objects; Good(csdu[cr.objects[i].iopsOff]))
  }

  function IocsBits(cr: CrLayout, csdu: Bytes): (g: seq<bool>)
    requires Sound(cr) && |csdu| == cr.dataLength
    ensures |g| == |cr.iocs|
  {
    seq(|cr.iocs|, j requires 0 <= j < |cr.iocs| =>
      assert cr.iocs[j] in cr.iocs; Good(csdu[cr.iocs[j].iocsOff]))
  }

  /** The cycle counter did not advance by 1 .. 0x8000 since the previous accepted frame. */
  predicate Reordered(last: Option<u16>, counter: u16) {
    last.Some? && var d := (counter - last.value) % 0x1_0000; d == 0 || d > 0x8000
  }

  /** What a frame amounts to, without its effect on the state. */
  function Verdict(cfg: Consuming, frame: Bytes): RxVerdict {
    match ParseRt(frame)
    case Err(_) => Dropped(Malformed)
    case Ok((eth, rt)) =>
      if eth.src != cfg.cpu || rt.frameId != cfg.cr.frameId then Ignored
      else if rt.transferStatus != 0 then Dropped(TransferStatus(rt.transferStatus))
      else if |rt.csdu| < cfg.cr.dataLength then Dropped(ShortCsdu(|rt.csdu|, cfg.cr.dataLength))
      else Accepted(ProviderRun(rt.dataStatus), Primary(rt.dataStatus), DataValid(rt.dataStatus))
  }

  /** The state after an accepted frame; its C-SDU is taken only when its data is valid. */
  function Take(rx: Rx, cfg: Consuming, rt: RtFrame, now: int): Rx
    requires Sound(cfg.cr) && |rt.csdu| >= cfg.cr.dataLength
  {
    var s := rx.stats;
    var s1 := if Reordered(rx.lastCounter, rt.cycleCounter) then s.(reordered := s.reordered + 1) else s;
    var rx1 := rx.(lastRx := Some(now), watchdog := WdOk, lastCounter := Some(rt.cycleCounter),
                   providerRun := ProviderRun(rt.dataStatus), primary := Primary(rt.dataStatus));
    if DataValid(rt.dataStatus) then
      var csdu := rt.csdu[..cfg.cr.dataLength];
      rx1.(csdu := csdu, iopsGood := IopsBits(cfg.cr, csdu), iocsGood := IocsBits(cfg.cr, csdu),
           stats := s1.(accepted := s.accepted + 1))
    else rx1.(stats := s1.(invalid := s.invalid + 1))
  }

  function OnFrame(rx: Rx, cfg: Consuming, frame: Bytes, now: int): (Rx, RxVerdict)
    requires Sound(cfg.cr)
  {
    var v := Verdict(cfg, frame);
    var s := rx.stats;
    match v
    case Ignored => (rx.(stats := s.(ignored := s.ignored + 1)), v)
    case Dropped(_) => (rx.(stats := s.(dropped := s.dropped + 1)), v)
    case Accepted(_, _, _) => (Take(rx, cfg, ParseRt(frame).value.1, now), v)
  }

  function CheckWatchdog(rx: Rx, cfg: Consuming, now: int): (Rx, WatchdogVerdict) {
    match rx.lastRx
    case None => (rx, NotArmed)
    case Some(t) =>
      if Max(now - t, 0) <= cfg.cr.watchdog then (rx.(watchdog := WdOk), WithinWindow)
      else if rx.watchdog.WdExpired? then (rx, Stopped)
      else
        (rx.(watchdog := WdExpired,
             stats := rx.stats.(watchdogExpirations := rx.stats.watchdogExpirations + 1)), Expired)
  }

  function MarkStale(rx: Rx): Rx { rx.(iopsGood := seq(|rx.iopsGood|, _ => false)) }

  // --- runs --------------------------------------------------------------------

  datatype Event = EvFrame(frame: Bytes, now: int) | EvCheck(now: int) | EvStale

  datatype Run = Start | Then(before: Run, ev: Event)

  function Step(rx: Rx, cfg: Consuming, ev: Event): Rx
    requires Sound(cfg.cr)
  {
    match ev
    case EvFrame(frame, now) => OnFrame(rx, cfg, frame, now).0
    case EvCheck(now) => CheckWatchdog(rx, cfg, now).0
    case EvStale => MarkStale(rx)
  }

  function After(cfg: Consuming, run: Run): Rx
    requires Sound(cfg.cr)
  {
    match run
    case Start => NewRx(cfg)
    case Then(pre, ev) => Step(After(cfg, pre), cfg, ev)
  }

  // --- what a run shows, from its events alone -----------------------------------

  function Frames(run: Run): nat {
    match run case Start => 0 case Then(pre, ev) => Frames(pre) + if ev.EvFrame? then 1 else 0
  }

  /** The four ways a frame is counted. */
  datatype Kind = KValid | KInvalid | KIgnored | KDropped

  function KindOf(v: RxVerdict): Kind {
    match v
    case Accepted(_, _, valid) => if valid then KValid else KInvalid
    case Ignored => KIgnored
    case Dropped(_) => KDropped
  }

  /** How many frames of the run are of kind `k`. */
  function Count(cfg: Consuming, run: Run, k: Kind): nat {
    match run
    case Start => 0
    case Then(pre, ev) =>
      Count(cfg, pre, k) + if ev.EvFrame? && KindOf(Verdict(cfg, ev.frame)) == k then 1 else 0
  }

  /** The C-SDU of the last accepted frame with valid data, cut to the negotiated length. */
  function LastValid(cfg: Consuming, run: Run): (c: Bytes)
    ensures |c| == cfg.cr.dataLength
  {
    match run
    case Start => Zeros(cfg.cr.dataLength)
    case Then(pre, ev) =>
      if ev.EvFrame? && Verdict(cfg, ev.frame).Accepted? && Verdict(cfg, ev.frame).dataValid
      then ParseRt(ev.frame).value.1.csdu[..cfg.cr.dataLength]
      else LastValid(cfg, pre)
  }

  /** When the last accepted frame came in. */
  function LastAccepted(cfg: Consuming, run: Run): Option<int> {
    match run
    case Start => None
    case Then(pre, ev) =>
      if ev.EvFrame? && Verdict(cfg, ev.frame).Accepted? then Some(ev.now) else LastAccepted(cfg, pre)
  }

  predicate Late(cfg: Consuming, run: Run, now: int) {
    var t := LastAccepted(cfg, run); t.Some? && now - t.value > cfg.cr.watchdog
  }

  /** A check since the last accepted frame already found the window exceeded. */
  predicate LateCheckBefore(cfg: Consuming, run: Run) {
    match run
    case Start => false
    case Then(pre, ev) =>
      if ev.EvFrame? && Verdict(cfg, ev.frame).Accepted? then false
      else if ev.EvCheck? && Late(cfg, pre, ev.now) then true
      else LateCheckBefore(cfg, pre)
  }

  function Time(ev: Event): Option<int> {
    match ev case EvFrame(_, now) => Some(now) case EvCheck(now) => Some(now) case EvStale => None
  }

  /** The latest time stamp of the run. */
  function Latest(run: Run): Option<int> {
    match run
    case Start => None
    case Then(pre, ev) => if Time(ev).Some? then Time(ev) else Latest(pre)
  }

  /** Time never runs backwards. */
  predicate Monotone(run: Run) {
    match run
    case Start => true
    case Then(pre, ev) =>
      Monotone(pre) && (Time(ev).Some? && Latest(pre).Some? ==> Latest(pre).value <= Time(ev).value)
  }

  // --- properties ------------------------------------------------------------------

  lemma StepCounts(rx: Rx, cfg: Consuming, ev: Event)
    requires Sound(cfg.cr)
    ensures var s, s' := rx.stats, Step(rx, cfg, ev).stats;
      var k := if ev.EvFrame? then Some(KindOf(Verdict(cfg, ev.frame))) else None;
      && s'.accepted == s.accepted + (if k == Some(KValid) then 1 else 0)
      && s'.invalid == s.invalid + (if k == Some(KInvalid) then 1 else 0)
      && s'.ignored == s.ignored + (if k == Some(KIgnored) then 1 else 0)
      && s'.dropped == s.dropped + (if k == Some(KDropped) then 1 else 0)
  {
    hide ParseRt, IopsBits, IocsBits, Sound, Reordered, ProviderRun, Primary, DataValid;
  }

  /** Every frame bumps exactly one of the four receive counters, the one of its verdict. */
  lemma {:induction false} FramesAccountedFor(cfg: Consuming, run: Run)
    requires Sound(cfg.cr)
    ensures var s := After(cfg, run).stats;
      && s.accepted == Count(cfg, run, KValid)
      && s.invalid == Count(cfg, run, KInvalid)
      && s.ignored == Count(cfg, run, KIgnored)
      && s.dropped == Count(cfg, run, KDropped)
      && s.accepted + s.invalid + s.ignored + s.dropped == Frames(run)
  {
    match run
    case Start =>
    case Then(pre, ev) =>
      hide Step, Verdict, Sound;
      FramesAccountedFor(cfg, pre);
      StepCounts(After(cfg, pre), cfg, ev);
  }

  /** The consumer's image is the last valid C-SDU; the IOCS bits mirror it always, an IOPS bit only
      when it is good (a stale mark may have cleared it). */
  lemma {:induction false} ImageIsLastValid(cfg: Consuming, run: Run)
    requires Sound(cfg.cr)
    ensures var rx := After(cfg, run); var csdu := LastValid(cfg, run);
      && rx.csdu == csdu
      && rx.iocsGood == IocsBits(cfg.cr, csdu)
      && |rx.iopsGood| == |cfg.cr.objects|
      && forall i :: 0 <= i < |rx.iopsGood| && rx.iopsGood[i] ==> IopsBits(cfg.cr, csdu)[i]
  {
    match run
    case Start =>
    case Then(pre, ev) =>
      hide ParseRt, Reordered, Sound;
      ImageIsLastValid(cfg, pre);
  }

  lemma {:induction false} LatestBounds(cfg: Consuming, run: Run)
    requires Monotone(run)
    ensures LastAccepted(cfg, run).Some? ==>
      Latest(run).Some? && LastAccepted(cfg, run).value <= Latest(run).value
  {
    match run
    case Start =>
    case Then(pre, ev) => hide Verdict; LatestBounds(cfg, pre);
  }

  /** Under monotone time a late check stays late until a frame is accepted. */
  lemma {:induction false} LateStaysLate(cfg: Consuming, run: Run)
    requires Monotone(run)
    ensures LateCheckBefore(cfg, run) ==> Latest(run).Some? && Late(cfg, run, Latest(run).value)
  {
    match run
    case Start =>
    case Then(pre, ev) => hide Verdict; LateStaysLate(cfg, pre);
  }

  lemma {:induction false} WatchdogState(cfg: Consuming, run: Run)
    requires Sound(cfg.cr) && Monotone(run)
    ensures After(cfg, run).lastRx == LastAccepted(cfg, run)
    ensures After(cfg, run).watchdog.WdExpired? <==> LateCheckBefore(cfg, run)
  {
    match run
    case Start =>
    case Then(pre, ev) =>
      hide Verdict, ParseRt, IopsBits, IocsBits, Sound;
      WatchdogState(cfg, pre);
      LateStaysLate(cfg, pre);
      LatestBounds(cfg, pre);
  }

  /** The verdict of a check after any run with monotone time, told from the events alone:
      `Expired` exactly at the first late check since the last accepted frame. */
  lemma WatchdogExact(cfg: Consuming, run: Run, now: int)
    requires Sound(cfg.cr) && Monotone(Then(run, EvCheck(now)))
    ensures var v := CheckWatchdog(After(cfg, run), cfg, now).1;
      && (v.NotArmed? <==> LastAccepted(cfg, run).None?)
      && (v.WithinWindow? <==> LastAccepted(cfg, run).Some? && !Late(cfg, run, now))
      && (v.Expired? <==> Late(cfg, run, now) && !LateCheckBefore(cfg, run))
      && (v.Stopped? <==> Late(cfg, run, now) && LateCheckBefore(cfg, run))
  {
    WatchdogState(cfg, run);
    LatestBounds(cfg, run);
  }

  /** How many checks of the run answered `Expired`. */
  function Expirations(cfg: Consuming, run: Run): nat
    requires Sound(cfg.cr)
  {
    match run
    case Start => 0
    case Then(pre, ev) =>
      Expirations(cfg, pre)
      + if ev.EvCheck? && CheckWatchdog(After(cfg, pre), cfg, ev.now).1.Expired? then 1 else 0
  }

  /** The counter is the number of `Expired` verdicts, and there are no more of them than accepted frames. */
  lemma {:induction false} ExpirationsCounted(cfg: Consuming, run: Run)
    requires Sound(cfg.cr) && Monotone(run)
    ensures After(cfg, run).stats.watchdogExpirations == Expirations(cfg, run)
    ensures Expirations(cfg, run)
         <= Count(cfg, run, KValid) + Count(cfg, run, KInvalid)
            - if LastAccepted(cfg, run).Some? && !LateCheckBefore(cfg, run) then 1 else 0
  {
    match run
    case Start =>
    case Then(pre, ev) =>
      hide Verdict, ParseRt, IopsBits, IocsBits, Sound, Late;
      ExpirationsCounted(cfg, pre);
      if ev.EvCheck? { WatchdogExact(cfg, pre, ev.now); }
  }

  function Extend(run: Run, evs: seq<Event>): Run {
    if evs == [] then run else Then(Extend(run, evs[..|evs| - 1]), evs[|evs| - 1])
  }

  predicate IsAccepted(cfg: Consuming, ev: Event) { ev.EvFrame? && Verdict(cfg, ev.frame).Accepted? }

  lemma {:induction false} MonotonePrefix(run: Run, evs: seq<Event>)
    requires Monotone(Extend(run, evs))
    ensures Monotone(run)
    decreases |evs|
  {
    if evs != [] { MonotonePrefix(run, evs[..|evs| - 1]); }
  }

  /** Only an accepted frame forgets a late check. */
  lemma {:induction false} LateCheckSurvives(cfg: Consuming, run: Run, evs: seq<Event>)
    requires LateCheckBefore(cfg, run) && forall ev <- evs :: !IsAccepted(cfg, ev)
    ensures LateCheckBefore(cfg, Extend(run, evs))
    decreases |evs|
  {
    hide Verdict, Late;
    if evs != [] {
      var init := evs[..|evs| - 1];
      assert evs[|evs| - 1] in evs && forall ev <- init :: ev in evs;
      LateCheckSurvives(cfg, run, init);
    }
  }

  /** Between two `Expired` verdicts of any run with monotone time lies an accepted frame. */
  lemma ExpirationsNeedFrames(cfg: Consuming, run: Run, t1: int, evs: seq<Event>, t2: int)
    requires Sound(cfg.cr) && Monotone(Then(Extend(Then(run, EvCheck(t1)), evs), EvCheck(t2)))
    requires CheckWatchdog(After(cfg, run), cfg, t1).1.Expired?
    requires CheckWatchdog(After(cfg, Extend(Then(run, EvCheck(t1)), evs)), cfg, t2).1.Expired?
    ensures exists ev <- evs :: IsAccepted(cfg, ev)
  {
    hide After, Late, IsAccepted, Sound, CheckWatchdog;
    MonotonePrefix(Then(run, EvCheck(t1)), evs);
    WatchdogExact(cfg, run, t1);
    WatchdogExact(cfg, Extend(Then(run, EvCheck(t1)), evs), t2);
    if forall ev <- evs :: !IsAccepted(cfg, ev) { LateCheckSurvives(cfg, Then(run, EvCheck(t1)), evs); }
  }

  // --- what a frame amounts to, from its fields ------------------------------------------

  /** Sent by the controller of this AR under the CR's FrameID. */
  predicate Ours(cfg: Consuming, frame: Bytes) {
    && ParseRt(frame).Ok?
    && var (eth, rt) := ParseRt(frame).value; eth.src == cfg.cpu && rt.frameId == cfg.cr.frameId
  }

  /** And usable: sent without a transfer error and as long as negotiated. */
  predicate Usable(cfg: Consuming, frame: Bytes) {
    && Ours(cfg, frame)
    && var rt := ParseRt(frame).value.1; rt.transferStatus == 0 && |rt.csdu| >= cfg.cr.dataLength
  }

  /** Bit 0 (weight 1): primary; bit 2 (weight 4): data valid; bit 4 (weight 16): provider running. */
  predicate BitSet(status: u8, weight: nat)
    requires weight > 0
  {
    status / weight % 2 == 1
  }

  /** A frame is accepted exactly when it is usable, with the bits of its data status; a well-formed frame of anyone else
      or of another CR is ignored; anything else is dropped for what is wrong with it. */
  lemma VerdictExact(cfg: Consuming, frame: Bytes)
    ensures var v := Verdict(cfg, frame);
      && (v.Accepted? <==> Usable(cfg, frame))
      && (v.Accepted? ==>
            var status := ParseRt(frame).value.1.dataStatus;
            v.primary == BitSet(status, 1) && v.dataValid == BitSet(status, 4) && v.providerRun == BitSet(status, 16))
      && (v.Ignored? <==> ParseRt(frame).Ok? && !Ours(cfg, frame))
      && (v.Dropped? <==> ParseRt(frame).Err? || (Ours(cfg, frame) && !Usable(cfg, frame)))
      && (v.Dropped? ==>
            if ParseRt(frame).Err? then v.reason == Malformed
            else var rt := ParseRt(frame).value.1;
                 v.reason == if rt.transferStatus != 0 then TransferStatus(rt.transferStatus)
                             else ShortCsdu(|rt.csdu|, cfg.cr.dataLength))
  {
    hide ParseRt;
  }

  // --- the rest of the state, from the frames ---------------------------------------------

  /** The last usable frame. */
  function LastFrame(cfg: Consuming, run: Run): Option<RtFrame> {
    match run
    case Start => None
    case Then(pre, ev) =>
      if ev.EvFrame? && Usable(cfg, ev.frame) then Some(ParseRt(ev.frame).value.1) else LastFrame(cfg, pre)
  }

  /** Usable frames whose cycle counter is not ahead of the one before by 1 to 32768. */
  function OutOfOrder(cfg: Consuming, run: Run): nat {
    match run
    case Start => 0
    case Then(pre, ev) =>
      var last := LastFrame(cfg, pre);
      OutOfOrder(cfg, pre)
      + if ev.EvFrame? && Usable(cfg, ev.frame) && last.Some?
           && !(1 <= (ParseRt(ev.frame).value.1.cycleCounter - last.value.cycleCounter) % 65536 <= 32768) then 1 else 0
  }

  /** The provider bits were cleared since the last frame with valid data. */
  predicate Stale(cfg: Consuming, run: Run) {
    match run
    case Start => true
    case Then(pre, ev) =>
      if ev.EvStale? then true
      else if ev.EvFrame? && Usable(cfg, ev.frame) && BitSet(ParseRt(ev.frame).value.1.dataStatus, 4) then false
      else Stale(cfg, pre)
  }

  /** What a usable frame does to that part of the state; anything else leaves it alone, but for a stale mark. */
  lemma StepTold(rx: Rx, cfg: Consuming, ev: Event)
    requires Sound(cfg.cr)
    ensures var rx' := Step(rx, cfg, ev);
      if ev.EvFrame? && Usable(cfg, ev.frame) then
        var rt := ParseRt(ev.frame).value.1;
        && rx'.providerRun == BitSet(rt.dataStatus, 16) && rx'.primary == BitSet(rt.dataStatus, 1)
        && rx'.lastCounter == Some(rt.cycleCounter)
        && rx'.stats.reordered == rx.stats.reordered + (if Reordered(rx.lastCounter, rt.cycleCounter) then 1 else 0)
        && rx'.iopsGood == (if BitSet(rt.dataStatus, 4) then IopsBits(cfg.cr, rt.csdu[..cfg.cr.dataLength]) else rx.iopsGood)
      else
        && rx'.providerRun == rx.providerRun && rx'.primary == rx.primary && rx'.lastCounter == rx.lastCounter
        && rx'.stats.reordered == rx.stats.reordered
        && rx'.iopsGood == (if ev.EvStale? then seq(|rx.iopsGood|, _ => false) else rx.iopsGood)
  {
    hide ParseRt, Sound, IopsBits, IocsBits, Reordered;
    if ev.EvFrame? { VerdictExact(cfg, ev.frame); }
  }

  /** Over every run: the status bits and the counter are the last usable frame's, frames out of order are counted, and
      the provider bits are those of the last valid C-SDU, or all clear if they were marked stale since. */
  lemma {:induction false} StateTold(cfg: Consuming, run: Run)
    requires Sound(cfg.cr)
    ensures var rx, last := After(cfg, run), LastFrame(cfg, run);
      && rx.providerRun == (last.Some? && BitSet(last.value.dataStatus, 16))
      && rx.primary == (last.Some? && BitSet(last.value.dataStatus, 1))
      && rx.lastCounter == (match last case None => None case Some(f) => Some(f.cycleCounter))
      && rx.stats.reordered == OutOfOrder(cfg, run)
      && rx.iopsGood == (if Stale(cfg, run) then seq(|cfg.cr.objects|, _ => false) else IopsBits(cfg.cr, LastValid(cfg, run)))
  {
    hide Step, ParseRt, Verdict, IocsBits, Sound;
    if run.Then? {
      hide IopsBits;
      StateTold(cfg, run.before);
      ImageIsLastValid(cfg, run);
      ImageIsLastValid(cfg, run.before);
      StepTold(After(cfg, run.before), cfg, run.ev);
      if run.ev.EvFrame? { VerdictExact(cfg, run.ev.frame); }
    }
  }
}
