/** Every result the shared image gives, told from the operations that finished before it
    (crates/pnio/src/rt/image.rs): octet by octet, with the validity that goes with them. */
module ImageReference {
  import opened Wire
  import opened Layout
  import opened Image
  import opened ImageData

  // --- told from the finished operations ------------------------------------------------

  /** The validity carried by the last operation that set one, since the layout was put in place. */
  function LastValidity(h: seq<Finished>): Validity {
    if h == [] then NO_VALIDITY
    else
      var f := h[|h| - 1];
      match f.op
      case SetValidity(v) => v
      case RtPublish(_, v) => if f.res.Contended? then LastValidity(h[..|h| - 1]) else v
      case RtSetValidity(v) => if f.res.Contended? then LastValidity(h[..|h| - 1]) else v
      case Rebuild(_) => NO_VALIDITY
      case _ => LastValidity(h[..|h| - 1])
  }

  function OutLen(h: seq<Finished>): nat {
    match InPlace(h) case Some(t) => t.outputCr.dataLength case None => 0
  }

  function InLen(h: seq<Finished>): nat {
    match InPlace(h) case Some(t) => t.inputCr.dataLength case None => 0
  }

  /** Octet `j` of the outputs: of the last publish that reaches so far. */
  function OutOctet(h: seq<Finished>, j: nat): u8 {
    if h == [] then 0
    else
      var f := h[|h| - 1];
      match f.op
      case Rebuild(_) => 0
      case RtPublish(data, _) => if !f.res.Contended? && j < |data| then data[j] else OutOctet(h[..|h| - 1], j)
      case _ => OutOctet(h[..|h| - 1], j)
  }

  /** The cell a place has in the layout in place. */
  function CellAt(h: seq<Finished>, slot: u16, subslot: u16): Option<Cell> {
    match InPlace(h) case Some(t) => FindCell(t.cells, slot, subslot) case None => None
  }

  /** Octet `j` of the inputs: of the last write accepted for a cell it lies in. */
  function InOctet(h: seq<Finished>, j: nat): u8 {
    if h == [] then 0
    else
      var init, f := h[..|h| - 1], h[|h| - 1];
      match f.op
      case Rebuild(_) => 0
      case WriteInputs(slot, subslot, bytes) =>
        var c := CellAt(init, slot, subslot);
        if && c.Some? && c.value.inputOff.Some? && |bytes| == c.value.inputLen
           && c.value.inputOff.value <= j < c.value.inputOff.value + |bytes|
        then bytes[j - c.value.inputOff.value] else InOctet(init, j)
      case _ => InOctet(init, j)
  }

  function Outputs(h: seq<Finished>, off: nat, n: nat): Bytes { seq<u8>(n, j requires 0 <= j < n => OutOctet(h, off + j)) }

  function Inputs(h: seq<Finished>, n: nat): Bytes { seq<u8>(n, j requires 0 <= j < n => InOctet(h, j)) }

  /** The result of an operation that gets its locks. */
  function Result(h: seq<Finished>, op: Op): Res {
    match op
    case WriteInputs(slot, subslot, bytes) =>
      (match CellAt(h, slot, subslot)
       case None => Failed(ImageError.UnknownSubmodule)
       case Some(c) =>
         if c.inputOff.None? then Failed(NoInput)
         else if |bytes| != c.inputLen then Failed(LengthMismatch(c.inputLen, |bytes|)) else Done)
    case ReadOutputs(slot, subslot) =>
      (match CellAt(h, slot, subslot)
       case None => Failed(ImageError.UnknownSubmodule)
       case Some(c) =>
         if c.outputOff.None? then Failed(NoOutput)
         else Data(Outputs(h, c.outputOff.value, c.outputLen), LastValidity(h)))
    case SnapshotOutputs(dst) => Data(Outputs(h, 0, Min(|dst|, OutLen(h))) + dst[Min(|dst|, OutLen(h))..], LastValidity(h))
    case GetValidity => Data([], LastValidity(h))
    case RtSnapshotInputs(dst) => Snapshot(Inputs(h, Min(|dst|, InLen(h))) + dst[Min(|dst|, InLen(h))..])
    case _ => Done
  }

  // --- the image agrees -------------------------------------------------------------------

  /** The image is what the history says. */
  predicate Told(h: seq<Finished>, im: IoImage) {
    && im.cells == (match InPlace(h) case Some(t) => t.cells case None => [])
    && im.inputs == Inputs(h, InLen(h)) && im.csdu == Outputs(h, 0, OutLen(h)) && im.validity == LastValidity(h)
  }

  lemma {:induction false} ImageTold(h: seq<Finished>)
    requires Sequential(h) && forall i :: 0 <= i <= |h| ==> Inside(Replay(h[..i]))
    ensures Told(h, Replay(h))
    decreases |h|
  {
    if h != [] {
      hide Sequential, Inside, Effect;
      var init, f := h[..|h| - 1], h[|h| - 1];
      SequentialFront(h);
      assert forall i :: 0 <= i <= |init| ==> init[..i] == h[..i];
      ImageTold(init);
      assert init[..|init|] == init;
      EffectTold(h, Replay(init));
    }
  }

  lemma WriteTold(h: seq<Finished>, im: IoImage)
    requires h != [] && Told(h[..|h| - 1], im) && Inside(im) && h[|h| - 1].op.WriteInputs?
    ensures Told(h, Effect(im, h[|h| - 1].op).0)
  {
    hide FindCell, OutOctet, LastValidity;
    var op := h[|h| - 1].op;
    SameOutputs(h);
    if Lookup(im.cells, op).Ok? { LookupInside(im, op); }
  }

  lemma PublishTold(h: seq<Finished>, im: IoImage)
    requires h != [] && Told(h[..|h| - 1], im) && h[|h| - 1].op.RtPublish? && !h[|h| - 1].res.Contended?
    ensures Told(h, Effect(im, h[|h| - 1].op).0)
  {
    hide FindCell, InOctet;
    SameInputs(h);
  }

  /** A write leaves the outputs alone, and anything but a write or a rebuild the inputs. */
  lemma SameOutputs(h: seq<Finished>)
    requires h != [] && h[|h| - 1].op.WriteInputs?
    ensures Outputs(h, 0, OutLen(h)) == Outputs(h[..|h| - 1], 0, OutLen(h[..|h| - 1]))
    ensures LastValidity(h) == LastValidity(h[..|h| - 1])
  {
    assert forall j: nat :: OutOctet(h, j) == OutOctet(h[..|h| - 1], j);
  }

  lemma SameInputs(h: seq<Finished>)
    requires h != [] && !h[|h| - 1].op.WriteInputs? && !h[|h| - 1].op.Rebuild? && !h[|h| - 1].op.Clear?
    ensures Inputs(h, InLen(h)) == Inputs(h[..|h| - 1], InLen(h[..|h| - 1]))
  {
    assert forall j: nat :: InOctet(h, j) == InOctet(h[..|h| - 1], j);
  }

  lemma EffectTold(h: seq<Finished>, im: IoImage)
    requires h != [] && Told(h[..|h| - 1], im) && Inside(im)
    requires h[|h| - 1].res.Contended? ==> IsRt(h[|h| - 1].op)
    ensures Told(h, if h[|h| - 1].res.Contended? then im else Effect(im, h[|h| - 1].op).0)
  {
    hide FindCell, Lookup;
    var f := h[|h| - 1];
    if f.op.WriteInputs? {
      WriteTold(h, im);
    } else if f.op.RtPublish? && !f.res.Contended? {
      PublishTold(h, im);
    } else {
      RestTold(h, im);
    }
  }

  lemma RestTold(h: seq<Finished>, im: IoImage)
    requires h != [] && Told(h[..|h| - 1], im) && !h[|h| - 1].op.WriteInputs?
    requires h[|h| - 1].op.RtPublish? ==> h[|h| - 1].res.Contended?
    ensures Told(h, if h[|h| - 1].res.Contended? && IsRt(h[|h| - 1].op) then im else Effect(im, h[|h| - 1].op).0)
  {
    hide FindCell, Lookup;
  }

  /** Nothing of any history lies outside the buffers. */
  lemma {:induction false} AlwaysInside(run: Run)
    requires StateOf(run).Some?
    ensures var h := StateOf(run).value.history; forall i :: 0 <= i <= |h| ==> Inside(Replay(h[..i]))
  {
    hide Enabled, Next, Replay, Inside, Sequential, LocksOk, ThreadOk, Same, Seen;
    RunInv(run);
    var h := StateOf(run).value.history;
    assert h[..|h|] == h;
    if run.Then? {
      AlwaysInside(run.before);
      HistoryGrows(StateOf(run.before).value, run.lab);
      var g := StateOf(run.before).value.history;
      forall i | 0 <= i <= |h| ensures Inside(Replay(h[..i])) { if i <= |g| { assert h[..i] == g[..i]; } }
    } else {
      forall i | 0 <= i <= |h| ensures Inside(Replay(h[..i])) { assert h[..i] == h; }
    }
  }

  lemma HistoryGrows(s: State, lab: Label)
    requires Enabled(s, lab)
    ensures |s.history| <= |Next(s, lab).history| <= |s.history| + 1 && Next(s, lab).history[..|s.history|] == s.history
  {
    hide Lookup;
  }

  lemma ResultTold(h: seq<Finished>, im: IoImage, op: Op)
    requires Told(h, im) && Inside(im)
    ensures Effect(im, op).1 == Result(h, op)
  {
    hide FindCell, InPlace, OutOctet, InOctet, LastValidity;
    if Keyed(op) && Lookup(im.cells, op).Ok? { LookupInside(im, op); }
  }

  /** In every interleaving, every result is the one the operations that ended before it say: bytes are those of the
      last publish or write to reach them, the validity is the one set last, refusals name what the layout in place
      lacks; and only an RT operation finds the image busy. */
  lemma ResultsFromHistory(run: Run, i: nat)
    requires StateOf(run).Some? && i < |StateOf(run).value.history|
    ensures var h := StateOf(run).value.history;
      if h[i].res.Contended? then IsRt(h[i].op) else h[i].res == Result(h[..i], h[i].op)
  {
    hide StateOf, Replay, Inside, Effect, Result, Told;
    Linearizable(run);
    AlwaysInside(run);
    var h := StateOf(run).value.history;
    if !h[i].res.Contended? {
      var pre := h[..i];
      assert forall j :: 0 <= j <= i ==> pre[..j] == h[..j];
      assert pre[..i] == pre;
      ImageTold(pre);
      ResultTold(pre, Replay(pre), h[i].op);
    }
  }

  /** In every interleaving, an RT operation about to start finds the image busy exactly when another operation in
      progress holds the lock it needs; otherwise it takes it. */
  lemma BusyExactly(run: Run, t: nat)
    requires StateOf(run).Some? && t in StateOf(run).value.threads
    requires var th := StateOf(run).value.threads[t]; IsRt(th.op) && th.held == 0
    ensures var s := StateOf(run).value; var l := NextLock(s.threads[t].op, 0);
      && (Enabled(s, TryFails(t)) <==> exists u :: u in s.threads && u != t && Holds(s.threads[u], l))
      && (Enabled(s, Acquire(t)) <==> !Enabled(s, TryFails(t)))
  {
    hide StateOf, Sequential, Replay, Inside, ThreadOk, Same, Seen;
    RunInv(run);
    var s := StateOf(run).value;
    var l := NextLock(s.threads[t].op, 0);
    assert LocksOk(s);
    if l in s.owner { assert Holds(s.threads[s.owner[l]], l); }
  }
}
