/** The I/O image shared between application threads, the acyclic loop and the RT thread
    (crates/pnio/src/rt/image.rs). `Effect` is each operation executed alone. The machine below
    it runs any number of operations concurrently, one lock acquisition or one copied byte at a
    time, and is proved linearizable and deadlock free. */
module Image {
  import opened Wire
  import opened Connect
  import opened Layout

  datatype WatchdogState = WdNotArmed | WdOk | WdExpired

  /** Data-status bits of the last accepted frame; ages and cycle numbers are left out. */
  datatype Validity = Validity(providerRun: bool, primary: bool, watchdog: WatchdogState)

  const NO_VALIDITY := Validity(false, false, WdNotArmed)

  datatype ImageError =
    | UnknownSubmodule
    | LengthMismatch(expected: nat, got: nat)
    | NoInput
    | NoOutput

  datatype IoImage = IoImage(cells: seq<Cell>, inputs: Bytes, csdu: Bytes, validity: Validity)

  const EMPTY := IoImage([], [], [], NO_VALIDITY)

  /** `RtX` operations use `try_lock`; the others block. Snapshots carry the caller's buffer. */
  datatype Op =
    | WriteInputs(slot: u16, subslot: u16, bytes: Bytes)
    | ReadOutputs(slot: u16, subslot: u16)
    | SnapshotOutputs(dst: Bytes)
    | GetValidity
    | SetValidity(v: Validity)
    | Rebuild(layout: LayoutTable)
    | Clear
    | RtSnapshotInputs(dst: Bytes)
    | RtPublish(data: Bytes, v: Validity)
    | RtSetValidity(v: Validity)

  datatype Res =
    | Done
    | Failed(error: ImageError)
    | Data(bytes: Bytes, validity: Validity)
    | Snapshot(bytes: Bytes)
    | Contended

  predicate IsRt(op: Op) { op.RtSnapshotInputs? || op.RtPublish? || op.RtSetValidity? }

  // --- one operation alone -----------------------------------------------------------

  function FindCell(cells: seq<Cell>, slot: u16, subslot: u16): (r: Option<Cell>)
    ensures r.Some? ==> r.value in cells && r.value.slot == slot && r.value.subslot == subslot
  {
    if cells == [] then None
    else if cells[0].slot == slot && cells[0].subslot == subslot then Some(cells[0])
    else FindCell(cells[1..], slot, subslot)
  }

  /** Offset and length the cell index gives for a keyed operation, or why it is refused. */
  function Lookup(cells: seq<Cell>, op: Op): (r: Result<(nat, nat), ImageError>)
    requires op.WriteInputs? || op.ReadOutputs?
    ensures r.Ok? && op.WriteInputs? ==> r.value.1 == |op.bytes|
  {
    match FindCell(cells, op.slot, op.subslot)
    case None => Err(ImageError.UnknownSubmodule)
    case Some(c) =>
      if op.WriteInputs? then
        if c.inputOff.None? then Err(NoInput)
        else if |op.bytes| != c.inputLen then Err(LengthMismatch(c.inputLen, |op.bytes|))
        else Ok((c.inputOff.value, c.inputLen))
      else
        if c.outputOff.None? then Err(NoOutput) else Ok((c.outputOff.value, c.outputLen))
  }

  /** The defensive length check: the looked-up range runs past the buffer. */
  predicate Overruns(at: (nat, nat), buf: Bytes) { at.0 + at.1 > |buf| }

  function Overrun(at: (nat, nat), buf: Bytes): ImageError { LengthMismatch(at.1, Max(|buf| - at.0, 0)) }

  /** `buf` with the first `k` bytes of `src` copied in at `off`. */
  function Splice(buf: Bytes, off: nat, src: Bytes, k: nat): (r: Bytes)
    requires k <= |src| && off + k <= |buf|
    ensures |r| == |buf|
  {
    buf[..off] + src[..k] + buf[off + k..]
  }

  function Effect(im: IoImage, op: Op): (IoImage, Res) {
    match op
    case WriteInputs(_, _, bytes) =>
      (match Lookup(im.cells, op)
       case Err(e) => (im, Failed(e))
       case Ok(at) =>
         if Overruns(at, im.inputs) then (im, Failed(Overrun(at, im.inputs)))
         else (im.(inputs := Splice(im.inputs, at.0, bytes, at.1)), Done))
    case ReadOutputs(_, _) =>
      (match Lookup(im.cells, op)
       case Err(e) => (im, Failed(e))
       case Ok(at) =>
         if Overruns(at, im.csdu) then (im, Failed(Overrun(at, im.csdu)))
         else (im, Data(im.csdu[at.0..at.0 + at.1], im.validity)))
    case SnapshotOutputs(dst) =>
      var n := Min(|dst|, |im.csdu|);
      (im, Data(im.csdu[..n] + dst[n..], im.validity))
    case GetValidity => (im, Data([], im.validity))
    case SetValidity(v) => (im.(validity := v), Done)
    case Rebuild(t) =>
      (IoImage(t.cells, Zeros(t.inputCr.dataLength), Zeros(t.outputCr.dataLength), NO_VALIDITY), Done)
    case Clear => (im.(cells := [], inputs := [], csdu := []), Done)
    case RtSnapshotInputs(dst) =>
      var n := Min(|dst|, |im.inputs|);
      (im, Snapshot(im.inputs[..n] + dst[n..]))
    case RtPublish(data, v) =>
      var n := Min(|data|, |im.csdu|);
      (im.(csdu := Splice(im.csdu, 0, data, n), validity := v), Done)
    case RtSetValidity(v) => (im.(validity := v), Done)
  }

  // --- locks ---------------------------------------------------------------------------

  datatype Lock = LCells | LInputs | LOutputs

  const NOT_NEEDED := 9

  /** The position of a lock in the order the operation takes its locks. */
  function Pos(op: Op, l: Lock): nat {
    match op
    case WriteInputs(_, _, _) => (match l case LCells => 0 case LInputs => 1 case LOutputs => NOT_NEEDED)
    case ReadOutputs(_, _) => (match l case LCells => 0 case LInputs => NOT_NEEDED case LOutputs => 1)
    case Rebuild(_) => (match l case LCells => 0 case LInputs => 1 case LOutputs => 2)
    case Clear => (match l case LCells => 0 case LInputs => 1 case LOutputs => 2)
    case RtSnapshotInputs(_) => if l == LInputs then 0 else NOT_NEEDED
    case _ => if l == LOutputs then 0 else NOT_NEEDED
  }

  /** How many locks the operation takes. */
  function Needed(op: Op): nat {
    match op
    case WriteInputs(_, _, _) => 2
    case ReadOutputs(_, _) => 2
    case Rebuild(_) => 3
    case Clear => 3
    case _ => 1
  }

  function NextLock(op: Op, held: nat): Lock
    requires held < Needed(op)
  {
    if Pos(op, LCells) == held then LCells else if Pos(op, LInputs) == held then LInputs else LOutputs
  }

  // --- the concurrent machine -----------------------------------------------------------

  /** An operation in progress: locks taken so far, bytes copied so far, bytes read so far. */
  datatype Thread = Thread(op: Op, held: nat, k: nat, acc: Bytes)

  datatype Finished = Finished(op: Op, res: Res)

  datatype State = State(mem: IoImage, owner: map<Lock, nat>, threads: map<nat, Thread>, history: seq<Finished>)

  const START := State(EMPTY, map[], map[], [])

  predicate Holds(th: Thread, l: Lock) { Pos(th.op, l) < th.held }

  predicate Keyed(op: Op) { op.WriteInputs? || op.ReadOutputs? }

  /** The number of single copies the operation makes once it has its locks. */
  function Extent(im: IoImage, op: Op): nat {
    match op
    case WriteInputs(_, _, _) => (match Lookup(im.cells, op) case Ok(at) => at.1 case Err(_) => 0)
    case ReadOutputs(_, _) => (match Lookup(im.cells, op) case Ok(at) => at.1 case Err(_) => 0)
    case SnapshotOutputs(dst) => Min(|dst|, |im.csdu|)
    case RtSnapshotInputs(dst) => Min(|dst|, |im.inputs|)
    case RtPublish(data, _) => Min(|data|, |im.csdu|)
    case Rebuild(_) => 3
    case Clear => 3
    case _ => 0
  }

  datatype Label =
    | Begin(t: nat, op: Op)
    | Acquire(t: nat)
    | TryFails(t: nat)
    | LookupFails(t: nat)
    | OverrunFails(t: nat)
    | Copy(t: nat)
    | Finish(t: nat)

  /** Every cell of a layout lies inside the buffers sized from it. */
  predicate TableInside(t: LayoutTable) { forall c <- t.cells :: CellInside(c, t) }

  /** Every layout that was built for a model with unique places may be put in place. */
  lemma BuiltTableInside(params: ArParams, model: DeviceModel)
    requires UniquePlaces(model) && TableFor(params, model).Ok?
    ensures TableInside(TableFor(params, model).value)
  {
    CellsInside(params, model);
  }

  /** The buffer the defensive check of a keyed operation looks at. */
  function Buffer(im: IoImage, op: Op): Bytes { if op.WriteInputs? then im.inputs else im.csdu }

  predicate Enabled(s: State, lab: Label) {
    match lab
    case Begin(t, op) => t !in s.threads && (op.Rebuild? ==> TableInside(op.layout))
    case Acquire(t) =>
      && t in s.threads && var th := s.threads[t];
      && th.held < Needed(th.op) && NextLock(th.op, th.held) !in s.owner
      && !(Keyed(th.op) && th.held == 1 && Lookup(s.mem.cells, th.op).Err?)
    case TryFails(t) =>
      && t in s.threads && var th := s.threads[t];
      && IsRt(th.op) && th.held == 0 && NextLock(th.op, 0) in s.owner
    case LookupFails(t) =>
      && t in s.threads && var th := s.threads[t];
      && Keyed(th.op) && th.held == 1 && Lookup(s.mem.cells, th.op).Err?
    case OverrunFails(t) =>
      && t in s.threads && var th := s.threads[t];
      && Keyed(th.op) && th.held == 2 && th.k == 0
      && Lookup(s.mem.cells, th.op).Ok? && Overruns(Lookup(s.mem.cells, th.op).value, Buffer(s.mem, th.op))
    case Copy(t) =>
      && t in s.threads && var th := s.threads[t];
      && th.held == Needed(th.op) && th.k < Extent(s.mem, th.op)
      && (Keyed(th.op) ==> !Overruns(Lookup(s.mem.cells, th.op).value, Buffer(s.mem, th.op)))
    case Finish(t) =>
      && t in s.threads && var th := s.threads[t];
      && th.held == Needed(th.op) && th.k >= Extent(s.mem, th.op)
      && (Keyed(th.op) ==>
            && Lookup(s.mem.cells, th.op).Ok?
            && !Overruns(Lookup(s.mem.cells, th.op).value, Buffer(s.mem, th.op)))
  }

  /** Memory after one more copy by `th`. */
  function CopyMem(m: IoImage, th: Thread): IoImage
    requires th.k < Extent(m, th.op)
    requires Keyed(th.op) ==> !Overruns(Lookup(m.cells, th.op).value, Buffer(m, th.op))
  {
    match th.op
    case WriteInputs(_, _, bytes) =>
      var at := Lookup(m.cells, th.op).value;
      m.(inputs := m.inputs[at.0 + th.k := bytes[th.k]])
    case RtPublish(data, _) => m.(csdu := m.csdu[th.k := data[th.k]])
    case Rebuild(t) =>
      if th.k == 0 then m.(cells := t.cells)
      else if th.k == 1 then m.(inputs := Zeros(t.inputCr.dataLength))
      else m.(csdu := Zeros(t.outputCr.dataLength), validity := NO_VALIDITY)
    case Clear =>
      if th.k == 0 then m.(cells := []) else if th.k == 1 then m.(inputs := []) else m.(csdu := [])
    case _ => m
  }

  /** What `th` has read after one more copy. */
  function CopyAcc(m: IoImage, th: Thread): Bytes
    requires th.k < Extent(m, th.op)
    requires Keyed(th.op) ==> !Overruns(Lookup(m.cells, th.op).value, Buffer(m, th.op))
  {
    match th.op
    case ReadOutputs(_, _) => th.acc + [m.csdu[Lookup(m.cells, th.op).value.0 + th.k]]
    case SnapshotOutputs(_) => th.acc + [m.csdu[th.k]]
    case RtSnapshotInputs(_) => th.acc + [m.inputs[th.k]]
    case _ => th.acc
  }

  function FinishMem(m: IoImage, op: Op): IoImage {
    match op
    case SetValidity(v) => m.(validity := v)
    case RtPublish(_, v) => m.(validity := v)
    case RtSetValidity(v) => m.(validity := v)
    case _ => m
  }

  function FinishRes(m: IoImage, th: Thread): Res {
    match th.op
    case ReadOutputs(_, _) => Data(th.acc, m.validity)
    case SnapshotOutputs(dst) => Data(th.acc + dst[Min(|th.acc|, |dst|)..], m.validity)
    case GetValidity => Data([], m.validity)
    case RtSnapshotInputs(dst) => Snapshot(th.acc + dst[Min(|th.acc|, |dst|)..])
    case _ => Done
  }

  /** `t` ends: its locks are released and its result recorded. */
  function End(s: State, t: nat, mem: IoImage, res: Res): State
    requires t in s.threads
  {
    State(mem, map l | l in s.owner && s.owner[l] != t :: s.owner[l], s.threads - {t},
          s.history + [Finished(s.threads[t].op, res)])
  }

  function Next(s: State, lab: Label): State
    requires Enabled(s, lab)
  {
    match lab
    case Begin(t, op) => s.(threads := s.threads[t := Thread(op, 0, 0, [])])
    case Acquire(t) =>
      var th := s.threads[t];
      s.(owner := s.owner[NextLock(th.op, th.held) := t], threads := s.threads[t := th.(held := th.held + 1)])
    case TryFails(t) => End(s, t, s.mem, Contended)
    case LookupFails(t) => End(s, t, s.mem, Failed(Lookup(s.mem.cells, s.threads[t].op).error))
    case OverrunFails(t) =>
      var op := s.threads[t].op;
      End(s, t, s.mem, Failed(Overrun(Lookup(s.mem.cells, op).value, Buffer(s.mem, op))))
    case Copy(t) =>
      var th := s.threads[t];
      s.(mem := CopyMem(s.mem, th), threads := s.threads[t := th.(k := th.k + 1, acc := CopyAcc(s.mem, th))])
    case Finish(t) =>
      var th := s.threads[t];
      End(s, t, FinishMem(s.mem, th.op), FinishRes(s.mem, th))
  }

  /** A run of the machine, latest step last. */
  datatype Run = Init | Then(before: Run, lab: Label)

  /** The state a run leads to, if every step of it was enabled. */
  function StateOf(run: Run): Option<State> {
    match run
    case Init => Some(START)
    case Then(pre, lab) =>
      match StateOf(pre)
      case None => None
      case Some(s) => if Enabled(s, lab) then Some(Next(s, lab)) else None
  }

  // --- sequential histories -----------------------------------------------------------

  /** The image after executing the finished operations one at a time, in the order they ended. */
  function Replay(h: seq<Finished>): IoImage {
    if h == [] then EMPTY
    else
      var im, f := Replay(h[..|h| - 1]), h[|h| - 1];
      if f.res.Contended? then im else Effect(im, f.op).0
  }

  /** Every result is the one the operation has when executed alone at that point; only an RT
      operation may instead report contention. */
  ghost predicate Sequential(h: seq<Finished>) {
    forall i :: 0 <= i < |h| ==>
      || (h[i].res.Contended? && IsRt(h[i].op))
      || (!h[i].res.Contended? && h[i].res == Effect(Replay(h[..i]), h[i].op).1)
  }

  // --- the invariant --------------------------------------------------------------------

  /** The part of the image a lock protects is the same. */
  predicate Same(l: Lock, a: IoImage, b: IoImage) {
    match l
    case LCells => a.cells == b.cells
    case LInputs => a.inputs == b.inputs
    case LOutputs => a.csdu == b.csdu && a.validity == b.validity
  }

  predicate Inside(im: IoImage) {
    forall c <- im.cells ::
      && (c.inputOff.Some? ==> c.inputOff.value + c.inputLen <= |im.inputs|)
      && (c.outputOff.Some? ==> c.outputOff.value + c.outputLen <= |im.csdu|)
  }

  /** The image `im` with the first `th.k` copies of `th` applied. */
  function Progress(im: IoImage, th: Thread): IoImage {
    match th.op
    case WriteInputs(_, _, bytes) =>
      if Lookup(im.cells, th.op).Ok? && th.k <= |bytes| && Lookup(im.cells, th.op).value.0 + th.k <= |im.inputs|
      then im.(inputs := Splice(im.inputs, Lookup(im.cells, th.op).value.0, bytes, th.k)) else im
    case RtPublish(data, _) =>
      if th.k <= Min(|data|, |im.csdu|) then im.(csdu := Splice(im.csdu, 0, data, th.k)) else im
    case Rebuild(t) =>
      var a := if th.k >= 1 then im.(cells := t.cells) else im;
      var b := if th.k >= 2 then a.(inputs := Zeros(t.inputCr.dataLength)) else a;
      if th.k >= 3 then b.(csdu := Zeros(t.outputCr.dataLength), validity := NO_VALIDITY) else b
    case Clear =>
      var a := if th.k >= 1 then im.(cells := []) else im;
      var b := if th.k >= 2 then a.(inputs := []) else a;
      if th.k >= 3 then b.(csdu := []) else b
    case _ => im
  }

  /** What `k` copies of a reading operation deliver. */
  function ReadSoFar(im: IoImage, op: Op, k: nat): Bytes {
    match op
    case ReadOutputs(_, _) =>
      (match Lookup(im.cells, op)
       case Ok(at) => if at.0 + k <= |im.csdu| then im.csdu[at.0..at.0 + k] else []
       case Err(_) => [])
    case SnapshotOutputs(_) => if k <= |im.csdu| then im.csdu[..k] else []
    case RtSnapshotInputs(_) => if k <= |im.inputs| then im.inputs[..k] else []
    case _ => []
  }

  predicate ThreadOk(th: Thread, im: IoImage) {
    && th.held <= Needed(th.op)
    && (th.op.Rebuild? ==> TableInside(th.op.layout))
    && (Keyed(th.op) && th.held == 2 ==> Lookup(im.cells, th.op).Ok?)
    && (th.held < Needed(th.op) ==> th.k == 0 && th.acc == [])
    && (th.held == Needed(th.op) ==> th.k <= Extent(im, th.op) && th.acc == ReadSoFar(im, th.op, th.k))
  }

  predicate LocksOk(s: State) {
    && (forall l :: l in s.owner ==> s.owner[l] in s.threads && Holds(s.threads[s.owner[l]], l))
    && (forall t, l {:trigger Holds(s.threads[t], l)} ::
          t in s.threads && Holds(s.threads[t], l) ==> l in s.owner && s.owner[l] == t)
  }

  /** The image a lock's current holder has brought about. */
  function Seen(s: State, im: IoImage, l: Lock): IoImage {
    if l in s.owner && s.owner[l] in s.threads then Progress(im, s.threads[s.owner[l]]) else im
  }

  ghost predicate Inv(s: State) {
    var im := Replay(s.history);
    && LocksOk(s) && Sequential(s.history) && Inside(im)
    && (forall t :: t in s.threads ==> ThreadOk(s.threads[t], im))
    && (forall l :: Same(l, s.mem, Seen(s, im, l)))
  }

  // --- locks -----------------------------------------------------------------------------

  lemma AcquireLocks(s: State, t: nat)
    requires LocksOk(s) && Enabled(s, Acquire(t))
    ensures LocksOk(Next(s, Acquire(t)))
  {
    hide Lookup;
    var s', th := Next(s, Acquire(t)), s.threads[t];
    var l0 := NextLock(th.op, th.held);
    assert forall l :: Holds(s'.threads[t], l) <==> Holds(th, l) || l == l0;
    assert forall u :: u in s'.threads && u != t ==> s'.threads[u] == s.threads[u];
  }

  /** A thread that keeps its operation and its lock count keeps its locks. */
  lemma SameHoldings(s: State, t: nat, th: Thread, mem: IoImage)
    requires LocksOk(s) && t in s.threads && th.op == s.threads[t].op && th.held == s.threads[t].held
    ensures LocksOk(s.(mem := mem, threads := s.threads[t := th]))
  {
    assert forall l :: Holds(th, l) == Holds(s.threads[t], l);
  }

  lemma EndLocks(s: State, t: nat, mem: IoImage, res: Res)
    requires LocksOk(s) && t in s.threads
    ensures LocksOk(End(s, t, mem, res))
  {
  }

  // --- one thread's view ---------------------------------------------------------------

  lemma LookupInside(im: IoImage, op: Op)
    requires Inside(im) && Keyed(op) && Lookup(im.cells, op).Ok?
    ensures !Overruns(Lookup(im.cells, op).value, Buffer(im, op))
  {
    hide FindCell;
  }

  /** A thread that has all its locks sees in memory what it made of `im`. */
  lemma OwnView(im: IoImage, th: Thread, m: IoImage)
    requires Inside(im) && ThreadOk(th, im) && th.held == Needed(th.op)
    requires forall l :: Holds(th, l) ==> Same(l, m, Progress(im, th))
    ensures Extent(m, th.op) == Extent(im, th.op)
    ensures Keyed(th.op) ==> Lookup(m.cells, th.op) == Lookup(im.cells, th.op)
                             && |Buffer(m, th.op)| == |Buffer(im, th.op)|
  {
    hide Lookup;
    assert Holds(th, LCells) || !Keyed(th.op);
    if th.op.WriteInputs? {
      LookupInside(im, th.op);
      assert Holds(th, LInputs);
      assert Same(LInputs, m, Progress(im, th)) && Same(LCells, m, Progress(im, th));
    } else if th.op.RtSnapshotInputs? {
      assert Same(LInputs, m, Progress(im, th));
    } else if !th.op.Rebuild? && !th.op.Clear? {
      assert Holds(th, LOutputs);
      assert Same(LOutputs, m, Progress(im, th));
    }
  }

  lemma SpliceNext(buf: Bytes, off: nat, src: Bytes, k: nat)
    requires k < |src| && off + k < |buf|
    ensures Splice(buf, off, src, k)[off + k := src[k]] == Splice(buf, off, src, k + 1)
  {
    assert src[..k + 1] == src[..k] + [src[k]];
  }

  /** One more copy of a reading operation. */
  lemma ReadStep(im: IoImage, th: Thread, m: IoImage)
    requires th.op.ReadOutputs? || th.op.SnapshotOutputs? || th.op.RtSnapshotInputs?
    requires Inside(im) && ThreadOk(th, im) && th.held == Needed(th.op) && th.k < Extent(im, th.op)
    requires forall l :: Holds(th, l) ==> Same(l, m, Progress(im, th))
    requires th.k < Extent(m, th.op)
    requires Keyed(th.op) ==> !Overruns(Lookup(m.cells, th.op).value, Buffer(m, th.op))
    ensures ThreadOk(th.(k := th.k + 1, acc := CopyAcc(m, th)), im)
  {
    hide Lookup;
    OwnView(im, th, m);
    if th.op.RtSnapshotInputs? {
      assert Same(LInputs, m, Progress(im, th));
    } else {
      assert Same(LOutputs, m, Progress(im, th));
      if th.op.ReadOutputs? {
        var at := Lookup(im.cells, th.op).value;
        assert im.csdu[at.0..at.0 + th.k + 1] == im.csdu[at.0..at.0 + th.k] + [im.csdu[at.0 + th.k]];
      }
    }
  }

  /** One more copy advances the thread's own view and touches nothing other locks protect. */
  lemma CopyStep(im: IoImage, th: Thread, m: IoImage)
    requires Inside(im) && ThreadOk(th, im) && th.held == Needed(th.op) && th.k < Extent(im, th.op)
    requires forall l :: Holds(th, l) ==> Same(l, m, Progress(im, th))
    requires th.k < Extent(m, th.op)
    requires Keyed(th.op) ==> !Overruns(Lookup(m.cells, th.op).value, Buffer(m, th.op))
    ensures var th' := th.(k := th.k + 1, acc := CopyAcc(m, th)); var m' := CopyMem(m, th);
      && ThreadOk(th', im)
      && (forall l :: Holds(th, l) ==> Same(l, m', Progress(im, th')))
      && (forall l :: !Holds(th, l) ==> Same(l, m', m))
  {
    hide Lookup, Inside;
    OwnView(im, th, m);
    match th.op
    case WriteInputs(_, _, bytes) =>
      var at := Lookup(im.cells, th.op).value;
      LookupInside(im, th.op);
      assert Same(LInputs, m, Progress(im, th)) && Same(LCells, m, Progress(im, th));
      SpliceNext(im.inputs, at.0, bytes, th.k);
    case RtPublish(data, _) =>
      assert Same(LOutputs, m, Progress(im, th));
      SpliceNext(im.csdu, 0, data, th.k);
    case Rebuild(t) =>
      assert Same(LInputs, m, Progress(im, th)) && Same(LCells, m, Progress(im, th))
        && Same(LOutputs, m, Progress(im, th));
    case Clear =>
      assert Same(LInputs, m, Progress(im, th)) && Same(LCells, m, Progress(im, th))
        && Same(LOutputs, m, Progress(im, th));
    case _ =>
      ReadStep(im, th, m);
  }

  /** Ending commits exactly the effect of the operation executed alone. */
  lemma FinishStep(im: IoImage, th: Thread, m: IoImage)
    requires Inside(im) && ThreadOk(th, im) && th.held == Needed(th.op) && th.k == Extent(im, th.op)
    requires forall l :: Holds(th, l) ==> Same(l, m, Progress(im, th))
    ensures var (im', res) := Effect(im, th.op); var m' := FinishMem(m, th.op);
      && FinishRes(m, th) == res && !res.Contended?
      && Inside(im')
      && (forall l :: Holds(th, l) ==> Same(l, m', im'))
      && (forall l :: !Holds(th, l) ==> Same(l, m', m) && Same(l, im', im))
  {
    hide Lookup;
    assert Holds(th, LCells) || !(Keyed(th.op) || th.op.Rebuild? || th.op.Clear?);
    match th.op
    case WriteInputs(_, _, bytes) =>
      LookupInside(im, th.op);
      assert Same(LInputs, m, Progress(im, th)) && Same(LCells, m, Progress(im, th));
    case ReadOutputs(_, _) =>
      LookupInside(im, th.op);
      assert Same(LOutputs, m, Progress(im, th)) && Same(LCells, m, Progress(im, th));
    case RtSnapshotInputs(_) =>
      assert Same(LInputs, m, Progress(im, th));
    case Rebuild(t) =>
      assert Same(LInputs, m, Progress(im, th)) && Same(LOutputs, m, Progress(im, th));
    case Clear =>
      assert Same(LInputs, m, Progress(im, th)) && Same(LOutputs, m, Progress(im, th));
    case _ =>
      assert Same(LOutputs, m, Progress(im, th));
  }

  /** A thread does not notice a change to what its locks do not protect. */
  lemma Undisturbed(th: Thread, im: IoImage, im': IoImage)
    requires ThreadOk(th, im) && forall l :: Holds(th, l) ==> Same(l, im', im)
    ensures ThreadOk(th, im')
    ensures forall l :: Holds(th, l) ==> Same(l, Progress(im', th), Progress(im, th))
  {
    hide Lookup;
    if Keyed(th.op) && th.held == 2 {
      assert Holds(th, LCells);
    }
    if th.held == Needed(th.op) {
      if th.op.WriteInputs? || th.op.RtSnapshotInputs? || th.op.Rebuild? || th.op.Clear? {
        assert Holds(th, LInputs);
      }
      if !(th.op.WriteInputs? || th.op.RtSnapshotInputs?) { assert Holds(th, LOutputs); }
    }
  }

  // --- every step keeps the invariant ---------------------------------------------------

  lemma {:induction false} SequentialSnoc(h: seq<Finished>, f: Finished)
    requires Sequential(h)
    requires || (f.res.Contended? && IsRt(f.op))
             || (!f.res.Contended? && f.res == Effect(Replay(h), f.op).1)
    ensures Sequential(h + [f])
    ensures Replay(h + [f]) == if f.res.Contended? then Replay(h) else Effect(Replay(h), f.op).0
  {
    hide Effect;
    var h' := h + [f];
    assert h'[..|h|] == h;
    forall i | 0 <= i < |h'|
      ensures || (h'[i].res.Contended? && IsRt(h'[i].op))
              || (!h'[i].res.Contended? && h'[i].res == Effect(Replay(h'[..i]), h'[i].op).1)
    {
      if i < |h| { assert h'[..i] == h[..i]; }
    }
  }

  /** The locks a thread holds show it its own view of the image. */
  lemma Mine(s: State, t: nat)
    requires Inv(s) && t in s.threads
    ensures forall l :: Holds(s.threads[t], l) ==> Same(l, s.mem, Progress(Replay(s.history), s.threads[t]))
  {
    hide Same, Progress, Replay, Sequential, Inside, ThreadOk;
    var im := Replay(s.history);
    forall l | Holds(s.threads[t], l) ensures Same(l, s.mem, Progress(im, s.threads[t])) {
      assert Seen(s, im, l) == Progress(im, s.threads[t]);
    }
  }

  lemma BeginInv(s: State, t: nat, op: Op)
    requires Inv(s) && Enabled(s, Begin(t, op))
    ensures Inv(Next(s, Begin(t, op)))
  {
    hide Same, Progress, Replay, Sequential, Inside, Extent, ReadSoFar, Lookup;
    var s' := Next(s, Begin(t, op));
    var im := Replay(s.history);
    assert LocksOk(s');
    forall l ensures Same(l, s'.mem, Seen(s', im, l)) { assert Seen(s', im, l) == Seen(s, im, l); }
  }

  /** Before its last lock a thread has changed nothing; taking a lock changes nothing either. */
  lemma NoProgressYet(im: IoImage, th: Thread)
    requires th.k == 0
    ensures Progress(im, th) == im
  {
    hide Lookup;
  }

  lemma AcquireInv(s: State, t: nat)
    requires Inv(s) && Enabled(s, Acquire(t))
    ensures Inv(Next(s, Acquire(t)))
  {
    hide Same, Progress, Replay, Sequential, Inside, LocksOk;
    var s', th, im := Next(s, Acquire(t)), s.threads[t], Replay(s.history);
    var th' := th.(held := th.held + 1);
    AcquireLocks(s, t);
    NoProgressYet(im, th);
    NoProgressYet(im, th');
    if Keyed(th.op) && th.held == 1 {
      Mine(s, t);
      assert Holds(th, LCells);
      CellsShown(s.mem, im);
    }
    assert ThreadOk(th', im) by { NothingRead(im, th.op); }
    forall l ensures Same(l, s'.mem, Seen(s', im, l)) {
      assert Same(l, s.mem, Seen(s, im, l));
      if l == NextLock(th.op, th.held) {
        assert Seen(s, im, l) == im && Seen(s', im, l) == Progress(im, th');
      } else if l in s.owner && s.owner[l] == t {
        assert Seen(s', im, l) == Progress(im, th') && Seen(s, im, l) == Progress(im, th);
      } else {
        assert Seen(s', im, l) == Seen(s, im, l);
      }
    }
  }

  lemma CellsShown(m: IoImage, im: IoImage)
    ensures Same(LCells, m, im) <==> m.cells == im.cells
  {
  }

  lemma NothingRead(im: IoImage, op: Op)
    ensures ReadSoFar(im, op, 0) == []
  {
    hide Lookup;
  }

  lemma CopyInv(s: State, t: nat)
    requires Inv(s) && Enabled(s, Copy(t))
    ensures Inv(Next(s, Copy(t)))
  {
    hide Same, Progress, Replay, Sequential, Inside, ThreadOk, CopyMem, CopyAcc, Lookup, Extent, Overruns;
    var s', th, im := Next(s, Copy(t)), s.threads[t], Replay(s.history);
    var th' := s'.threads[t];
    Mine(s, t);
    OwnView(im, th, s.mem);
    CopyStep(im, th, s.mem);
    SameHoldings(s, t, th', s'.mem);
    forall l ensures Same(l, s'.mem, Seen(s', im, l)) {
      assert Same(l, s.mem, Seen(s, im, l));
      if Holds(th, l) {
        assert Seen(s', im, l) == Progress(im, th');
      } else {
        assert Seen(s', im, l) == Seen(s, im, l);
        SameTrans(l, s'.mem, s.mem, Seen(s, im, l));
      }
    }
  }

  lemma SameTrans(l: Lock, a: IoImage, b: IoImage, c: IoImage)
    requires Same(l, a, b) && Same(l, b, c)
    ensures Same(l, a, c)
  {
  }

  lemma SameFlip(l: Lock, a: IoImage, b: IoImage)
    requires Same(l, a, b)
    ensures Same(l, b, a)
  {
  }

  lemma Exclusive(s: State, t: nat, u: nat, l: Lock)
    requires LocksOk(s) && t in s.threads && u in s.threads && t != u && Holds(s.threads[u], l)
    ensures !Holds(s.threads[t], l)
  {
  }

  /** A thread ends with the image `im'` in place of `im`: the others keep what they have. */
  lemma EndInv(s: State, t: nat, mem: IoImage, res: Res, im': IoImage)
    requires Inv(s) && t in s.threads
    requires var h := s.history + [Finished(s.threads[t].op, res)]; Sequential(h) && Replay(h) == im'
    requires Inside(im')
    requires var im := Replay(s.history); forall l ::
      if Holds(s.threads[t], l) then Same(l, mem, im') else Same(l, mem, s.mem) && Same(l, im', im)
    ensures Inv(End(s, t, mem, res))
  {
    hide Same, Progress, Replay, Sequential, Inside, ThreadOk;
    var s', im := End(s, t, mem, res), Replay(s.history);
    EndLocks(s, t, mem, res);
    forall u | u in s'.threads
      ensures ThreadOk(s'.threads[u], im')
      ensures forall l :: Holds(s'.threads[u], l) ==> Same(l, Progress(im', s'.threads[u]), Progress(im, s'.threads[u]))
    {
      forall l | Holds(s.threads[u], l) ensures Same(l, im', im) { Exclusive(s, t, u, l); }
      Undisturbed(s.threads[u], im, im');
    }
    forall l ensures Same(l, s'.mem, Seen(s', im', l)) {
      assert Same(l, s.mem, Seen(s, im, l));
      if Holds(s.threads[t], l) {
        assert Seen(s', im', l) == im';
      } else if l in s.owner {
        var u := s.owner[l];
        assert Seen(s, im, l) == Progress(im, s.threads[u]) && Seen(s', im', l) == Progress(im', s.threads[u]);
        SameFlip(l, Progress(im', s.threads[u]), Progress(im, s.threads[u]));
        SameTrans(l, mem, s.mem, Progress(im, s.threads[u]));
        SameTrans(l, mem, Progress(im, s.threads[u]), Progress(im', s.threads[u]));
      } else {
        assert Seen(s, im, l) == im && Seen(s', im', l) == im';
        SameFlip(l, im', im);
        SameTrans(l, mem, s.mem, im);
        SameTrans(l, mem, im, im');
      }
    }
  }

  lemma SameAlways(a: IoImage)
    ensures forall l :: Same(l, a, a)
  {
  }

  lemma FinishInv(s: State, t: nat)
    requires Inv(s) && Enabled(s, Finish(t))
    ensures Inv(Next(s, Finish(t)))
  {
    hide Same, Progress, Replay, Sequential, Inside, ThreadOk, Lookup, Extent, Overruns, Effect, FinishRes, FinishMem;
    var th, im := s.threads[t], Replay(s.history);
    Mine(s, t);
    OwnView(im, th, s.mem);
    assert th.k == Extent(im, th.op) by { WithinExtent(th, im); }
    FinishStep(im, th, s.mem);
    SequentialSnoc(s.history, Finished(th.op, FinishRes(s.mem, th)));
    EndInv(s, t, FinishMem(s.mem, th.op), FinishRes(s.mem, th), Effect(im, th.op).0);
  }

  lemma WithinExtent(th: Thread, im: IoImage)
    requires ThreadOk(th, im) && th.held == Needed(th.op)
    ensures th.k <= Extent(im, th.op)
  {
  }

  lemma TryFailsInv(s: State, t: nat)
    requires Inv(s) && Enabled(s, TryFails(t))
    ensures Inv(Next(s, TryFails(t)))
  {
    hide Same, Progress, Replay, Sequential, Inside, ThreadOk, Effect;
    var im := Replay(s.history);
    SequentialSnoc(s.history, Finished(s.threads[t].op, Contended));
    SameAlways(s.mem);
    SameAlways(im);
    assert forall l :: !Holds(s.threads[t], l);
    EndInv(s, t, s.mem, Contended, im);
  }

  lemma LookupFailsInv(s: State, t: nat)
    requires Inv(s) && Enabled(s, LookupFails(t))
    ensures Inv(Next(s, LookupFails(t)))
  {
    hide Same, Progress, Replay, Sequential, Inside, Lookup;
    var th, im := s.threads[t], Replay(s.history);
    Mine(s, t);
    NoProgressYet(im, th);
    assert Holds(th, LCells);
    CellsShown(s.mem, im);
    var res := Failed(Lookup(s.mem.cells, th.op).error);
    SequentialSnoc(s.history, Finished(th.op, res));
    SameAlways(s.mem);
    SameAlways(im);
    EndInv(s, t, s.mem, res, im);
  }

  /** The defensive length branches are dead: a lookup and the buffer it is used on always belong
      to the same layout. */
  lemma NeverOverruns(s: State, t: nat)
    requires Inv(s)
    ensures !Enabled(s, OverrunFails(t))
  {
    hide Same, Progress, Replay, Sequential, Lookup, LocksOk, Extent, ReadSoFar;
    if Enabled(s, OverrunFails(t)) {
      var th, im := s.threads[t], Replay(s.history);
      Mine(s, t);
      OwnView(im, th, s.mem);
      LookupInside(im, th.op);
    }
  }

  lemma StepInv(s: State, lab: Label)
    requires Inv(s) && Enabled(s, lab)
    ensures Inv(Next(s, lab))
  {
    hide Inv, Enabled, Next;
    match lab
    case Begin(t, op) => BeginInv(s, t, op);
    case Acquire(t) => AcquireInv(s, t);
    case TryFails(t) => TryFailsInv(s, t);
    case LookupFails(t) => LookupFailsInv(s, t);
    case OverrunFails(t) => NeverOverruns(s, t);
    case Copy(t) => CopyInv(s, t);
    case Finish(t) => FinishInv(s, t);
  }

  lemma {:induction false} RunInv(run: Run)
    requires StateOf(run).Some?
    ensures Inv(StateOf(run).value)
  {
    match run
    case Init =>
    case Then(pre, lab) =>
      hide Inv, Enabled, Next;
      RunInv(pre);
      StepInv(StateOf(pre).value, lab);
  }

  // --- the theorems -------------------------------------------------------------------------

  /** Linearizability: in every interleaving, the results of all finished operations are those of
      executing them one at a time in the order they ended; a read therefore returns bytes of one
      publish only. */
  lemma Linearizable(run: Run)
    requires StateOf(run).Some?
    ensures Sequential(StateOf(run).value.history)
  {
    RunInv(run);
  }

  /** The output C-SDU last put in place: the whole of the last publish, or the zeros of a rebuild. */
  function LastPublished(h: seq<Finished>): Bytes {
    if h == [] then []
    else
      var f := h[|h| - 1];
      if f.res.Contended? then LastPublished(h[..|h| - 1])
      else match f.op
        case RtPublish(data, _) => data
        case Rebuild(t) => Zeros(t.outputCr.dataLength)
        case Clear => []
        case _ => LastPublished(h[..|h| - 1])
  }

  /** Every publish that went through carried exactly as many bytes as the layout then in place. */
  predicate FullPublishes(h: seq<Finished>) {
    h == []
    || (FullPublishes(h[..|h| - 1])
        && var f := h[|h| - 1];
           (f.op.RtPublish? && !f.res.Contended? ==> |f.op.data| == |LastPublished(h[..|h| - 1])|))
  }

  lemma {:induction false} PublishedIsImage(h: seq<Finished>)
    requires FullPublishes(h)
    ensures Replay(h).csdu == LastPublished(h)
  {
    if h != [] {
      hide Lookup;
      PublishedIsImage(h[..|h| - 1]);
    }
  }

  /** A read returns one slice of one publish (or of the zeros a rebuild left), never a mixture. */
  lemma ReadsOnePublish(run: Run, i: nat)
    requires StateOf(run).Some? && i < |StateOf(run).value.history|
    requires var h := StateOf(run).value.history; FullPublishes(h[..i]) && h[i].op.ReadOutputs? && h[i].res.Data?
    ensures var h := StateOf(run).value.history; var at := Lookup(Replay(h[..i]).cells, h[i].op);
      && at.Ok? && at.value.0 + at.value.1 <= |LastPublished(h[..i])|
      && h[i].res.bytes == LastPublished(h[..i])[at.value.0..at.value.0 + at.value.1]
  {
    hide Lookup, Replay, StateOf;
    Linearizable(run);
    var h := StateOf(run).value.history;
    PublishedIsImage(h[..i]);
    assert h[i].res == Effect(Replay(h[..i]), h[i].op).1;
  }

  /** With nothing in progress the memory is the replayed image. */
  lemma QuiescentMemory(run: Run)
    requires StateOf(run).Some? && StateOf(run).value.threads == map[]
    ensures StateOf(run).value.mem == Replay(StateOf(run).value.history)
  {
    hide Replay, Sequential, StateOf;
    RunInv(run);
    var s := StateOf(run).value;
    var im := Replay(s.history);
    assert forall l :: l !in s.owner;
    assert Same(LCells, s.mem, Seen(s, im, LCells)) && Same(LInputs, s.mem, Seen(s, im, LInputs))
      && Same(LOutputs, s.mem, Seen(s, im, LOutputs));
  }

  /** The defensive branches never fire, in any interleaving. */
  lemma DefensiveBranchesDead(run: Run, t: nat)
    requires StateOf(run).Some?
    ensures !Enabled(StateOf(run).value, OverrunFails(t))
  {
    RunInv(run);
    NeverOverruns(StateOf(run).value, t);
  }

  /** A step of thread `t` other than starting an operation. */
  predicate CanStep(s: State, t: nat) {
    || Enabled(s, Acquire(t)) || Enabled(s, TryFails(t)) || Enabled(s, LookupFails(t))
    || Enabled(s, OverrunFails(t)) || Enabled(s, Copy(t)) || Enabled(s, Finish(t))
  }

  /** A thread can always go on, except when it blocks on a lock another one holds. */
  lemma RunsOrWaits(s: State, t: nat)
    requires Inv(s) && t in s.threads
    ensures var th := s.threads[t];
      CanStep(s, t)
      || (!(IsRt(th.op) && th.held == 0) && th.held < Needed(th.op) && NextLock(th.op, th.held) in s.owner)
  {
    hide Same, Progress, Replay, Sequential, Lookup, LocksOk, ReadSoFar, Inside, Extent;
    var th, im := s.threads[t], Replay(s.history);
    if th.held == Needed(th.op) {
      Mine(s, t);
      OwnView(im, th, s.mem);
      NeverOverruns(s, t);
      if Keyed(th.op) { LookupInside(im, th.op); }
      if th.k < Extent(s.mem, th.op) { assert Enabled(s, Copy(t)); } else { assert Enabled(s, Finish(t)); }
    } else if Keyed(th.op) && th.held == 1 && Lookup(s.mem.cells, th.op).Err? {
      assert Enabled(s, LookupFails(t));
    } else if NextLock(th.op, th.held) !in s.owner {
      assert Enabled(s, Acquire(t));
    } else if IsRt(th.op) && th.held == 0 {
      assert Enabled(s, TryFails(t));
    }
  }

  /** The RT side never blocks. */
  lemma RtNeverBlocks(run: Run, t: nat)
    requires StateOf(run).Some? && t in StateOf(run).value.threads && IsRt(StateOf(run).value.threads[t].op)
    ensures CanStep(StateOf(run).value, t)
  {
    hide StateOf, CanStep, Enabled;
    RunInv(run);
    RunsOrWaits(StateOf(run).value, t);
  }

  /** Whoever holds the latest lock in the order taken can always go on. */
  lemma HolderProceeds(s: State, l: Lock)
    requires Inv(s) && l in s.owner
    requires l == LCells ==> LInputs !in s.owner && LOutputs !in s.owner
    requires l == LInputs ==> LOutputs !in s.owner
    ensures s.owner[l] in s.threads && CanStep(s, s.owner[l])
  {
    hide CanStep, Same, Progress, Replay, Sequential, Inside, ThreadOk;
    assert LocksOk(s);
    RunsOrWaits(s, s.owner[l]);
  }

  /** No deadlock: in every reachable state with an operation in progress, one of them can step. */
  lemma DeadlockFree(run: Run)
    requires StateOf(run).Some? && StateOf(run).value.threads != map[]
    ensures var s := StateOf(run).value; exists t :: t in s.threads && CanStep(s, t)
  {
    hide StateOf, CanStep, Inv;
    RunInv(run);
    var s := StateOf(run).value;
    if LOutputs in s.owner {
      HolderProceeds(s, LOutputs);
    } else if LInputs in s.owner {
      HolderProceeds(s, LInputs);
    } else if LCells in s.owner {
      HolderProceeds(s, LCells);
    } else {
      var t :| t in s.threads;
      RunsOrWaits(s, t);
    }
  }
}
