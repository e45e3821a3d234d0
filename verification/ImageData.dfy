/** What the shared image carries from the application to the RT thread and back, in every interleaving
    (crates/pnio/src/rt/image.rs), and what the RT thread's own buffer holds at a tick
    (crates/pnio/src/rt/runner.rs). */
module ImageData {
  import opened Wire
  import opened Layout
  import opened Image

  // --- told from the finished operations ------------------------------------------------

  /** The layout in place. */
  function InPlace(h: seq<Finished>): Option<LayoutTable> {
    if h == [] then None
    else
      match h[|h| - 1].op
      case Rebuild(t) => Some(t)
      case Clear => None
      case _ => InPlace(h[..|h| - 1])
  }

  /** The last successful write to a place since the layout was put in place. */
  function LastWritten(h: seq<Finished>, slot: u16, subslot: u16): Option<Bytes> {
    if h == [] then None
    else
      var f := h[|h| - 1];
      match f.op
      case Rebuild(_) => None
      case Clear => None
      case WriteInputs(s, ss, bytes) =>
        if s == slot && ss == subslot && f.res.Done? then Some(bytes) else LastWritten(h[..|h| - 1], slot, subslot)
      case _ => LastWritten(h[..|h| - 1], slot, subslot)
  }

  /** What a submodule's inputs are then: the last write, or the zeros of the rebuild. */
  function Octets(h: seq<Finished>, c: Cell): Bytes {
    match LastWritten(h, c.slot, c.subslot) case Some(b) => b case None => Zeros(c.inputLen)
  }

  predicate GotThrough(f: Finished) { f.op.RtSnapshotInputs? && !f.res.Contended? }

  /** Where the RT thread's buffer was last filled: the last snapshot that got through, or the rebuild its
      thread was started after. */
  function FilledAt(h: seq<Finished>): (n: nat)
    ensures n <= |h|
  {
    if h == [] then 0
    else if GotThrough(h[|h| - 1]) || h[|h| - 1].op.Rebuild? then |h|
    else FilledAt(h[..|h| - 1])
  }

  /** The RT thread's input buffer: zeros when the thread is started for a layout, then what each snapshot
      leaves in it; one that finds the image busy leaves it as it is. */
  function RtBuffer(h: seq<Finished>): Bytes {
    if h == [] then []
    else
      var f := h[|h| - 1];
      match f.op
      case Rebuild(t) => Zeros(t.inputCr.dataLength)
      case RtSnapshotInputs(_) => if f.res.Snapshot? then f.res.bytes else RtBuffer(h[..|h| - 1])
      case _ => RtBuffer(h[..|h| - 1])
  }

  /** Every snapshot is taken into that buffer, of the layout then in place. */
  predicate OneRtThread(h: seq<Finished>) {
    h == []
    || (&& OneRtThread(h[..|h| - 1])
        && (h[|h| - 1].op.RtSnapshotInputs? ==>
              InPlace(h[..|h| - 1]).Some? && h[|h| - 1].op.dst == RtBuffer(h[..|h| - 1])))
  }

  /** Cells of different places use disjoint inputs. */
  predicate CellsApart(t: LayoutTable) {
    forall c, d | c in t.cells && d in t.cells && c.inputOff.Some? && d.inputOff.Some?
                  && (c.slot != d.slot || c.subslot != d.subslot) ::
      Apart(Range(c.inputOff.value, c.inputOff.value + c.inputLen), Range(d.inputOff.value, d.inputOff.value + d.inputLen))
  }

  predicate HasInput(t: LayoutTable, c: Cell) {
    && FindCell(t.cells, c.slot, c.subslot) == Some(c)
    && c.inputOff.Some? && c.inputOff.value + c.inputLen <= t.inputCr.dataLength
  }

  function InputAt(buf: Bytes, c: Cell): Bytes
    requires c.inputOff.Some? && c.inputOff.value + c.inputLen <= |buf|
  {
    buf[c.inputOff.value..c.inputOff.value + c.inputLen]
  }

  // --- the input buffer ------------------------------------------------------------------

  lemma SequentialFront(h: seq<Finished>)
    requires Sequential(h) && h != []
    ensures Sequential(h[..|h| - 1])
    ensures var f := h[|h| - 1];
      (f.res.Contended? && IsRt(f.op)) || (!f.res.Contended? && f.res == Effect(Replay(h[..|h| - 1]), f.op).1)
  {
    hide Effect, Replay;
    var init := h[..|h| - 1];
    assert forall i :: 0 <= i <= |init| ==> init[..i] == h[..i];
  }

  /** Operations other than a write, a rebuild or a clear leave cells and inputs alone. */
  lemma InputsKept(im: IoImage, op: Op)
    requires !op.WriteInputs? && !op.Rebuild? && !op.Clear?
    ensures var im' := Effect(im, op).0; im'.cells == im.cells && im'.inputs == im.inputs
  {
    hide Lookup;
  }

  /** A write lands in its own cell or nowhere. */
  lemma WriteEffect(im: IoImage, op: Op, t: LayoutTable, c: Cell)
    requires op.WriteInputs? && im.cells == t.cells && |im.inputs| == t.inputCr.dataLength
    requires CellsApart(t) && HasInput(t, c)
    ensures var (im', res) := Effect(im, op);
      && im'.cells == im.cells && |im'.inputs| == |im.inputs|
      && InputAt(im'.inputs, c)
         == (if op.slot == c.slot && op.subslot == c.subslot && res.Done? then op.bytes else InputAt(im.inputs, c))
  {
    hide FindCell;
    var at := Lookup(im.cells, op);
    if at.Ok? && !Overruns(at.value, im.inputs) {
      var d := FindCell(im.cells, op.slot, op.subslot).value;
      assert op.bytes[..at.value.1] == op.bytes;
      if d.slot != c.slot || d.subslot != c.subslot {
        assert d in t.cells && c in t.cells;
        assert Apart(Range(c.inputOff.value, c.inputOff.value + c.inputLen),
                     Range(d.inputOff.value, d.inputOff.value + d.inputLen));
      }
    }
  }

  /** The input buffer holds, for every cell, the last successful write since the layout came in place, or
      zeros. */
  lemma {:induction false} InputsAreLastWrites(h: seq<Finished>, t: LayoutTable, c: Cell)
    requires Sequential(h) && InPlace(h) == Some(t) && CellsApart(t) && HasInput(t, c)
    ensures Replay(h).cells == t.cells && |Replay(h).inputs| == t.inputCr.dataLength
    ensures InputAt(Replay(h).inputs, c) == Octets(h, c)
    decreases |h|
  {
    hide CellsApart, HasInput, Sequential, Effect;
    var init, f := h[..|h| - 1], h[|h| - 1];
    SequentialFront(h);
    if f.op.Rebuild? {
      RebuildZeros(Replay(init), t, c);
    } else {
      InputsAreLastWrites(init, t, c);
      if f.op.WriteInputs? { WriteEffect(Replay(init), f.op, t, c); } else { InputsKept(Replay(init), f.op); }
    }
  }

  lemma RebuildZeros(im: IoImage, t: LayoutTable, c: Cell)
    requires HasInput(t, c)
    ensures var im' := Effect(im, Rebuild(t)).0;
      && im'.cells == t.cells && |im'.inputs| == t.inputCr.dataLength
      && c.inputOff.Some? && c.inputOff.value + c.inputLen <= |im'.inputs| && InputAt(im'.inputs, c) == Zeros(c.inputLen)
  {
    hide FindCell;
  }

  // --- the RT thread's buffer ----------------------------------------------------------------

  /** Between a rebuild and the next the RT thread's buffer has the layout's length. */
  lemma {:induction false} BufferLength(h: seq<Finished>, t: LayoutTable)
    requires Sequential(h) && OneRtThread(h) && InPlace(h) == Some(t)
    ensures |RtBuffer(h)| == t.inputCr.dataLength
    decreases |h|
  {
    hide Sequential, Effect;
    var init, f := h[..|h| - 1], h[|h| - 1];
    SequentialFront(h);
    if !f.op.Rebuild? {
      BufferLength(init, t);
      if GotThrough(f) { SnapshotTaken(Replay(init), f.op.dst); }
    }
  }

  lemma SnapshotTaken(im: IoImage, dst: Bytes)
    ensures var res := Effect(im, RtSnapshotInputs(dst)).1;
      res.Snapshot? && |res.bytes| == |dst| && (|dst| == |im.inputs| ==> res.bytes == im.inputs)
  {
  }

  /** Over every history of the image: the buffer a tick sends holds, for every cell, what the application
      had last written when the buffer was filled, whatever was written since and however many snapshots
      found the image busy. */
  lemma {:induction false} BufferIsLastSnapshot(h: seq<Finished>, t: LayoutTable, c: Cell)
    requires Sequential(h) && OneRtThread(h) && InPlace(h) == Some(t) && CellsApart(t) && HasInput(t, c)
    ensures |RtBuffer(h)| == t.inputCr.dataLength
    ensures InputAt(RtBuffer(h), c) == Octets(h[..FilledAt(h)], c)
    decreases |h|
  {
    hide CellsApart, HasInput, Sequential, Effect, LastWritten;
    var init, f := h[..|h| - 1], h[|h| - 1];
    SequentialFront(h);
    BufferLength(h, t);
    assert h[..|h|] == h;
    if f.op.Rebuild? {
      StartsAtZero(h, c);
      ZerosAt(t, c);
    } else {
      BufferIsLastSnapshot(init, t, c);
      if GotThrough(f) {
        InputsAreLastWrites(init, t, c);
        SnapshotTaken(Replay(init), f.op.dst);
        SnapshotWritesNothing(h, c);
      } else {
        assert init[..FilledAt(init)] == h[..FilledAt(init)];
      }
    }
  }

  lemma StartsAtZero(h: seq<Finished>, c: Cell)
    requires h != [] && h[|h| - 1].op.Rebuild?
    ensures Octets(h, c) == Zeros(c.inputLen)
  {
  }

  lemma SnapshotWritesNothing(h: seq<Finished>, c: Cell)
    requires h != [] && h[|h| - 1].op.RtSnapshotInputs?
    ensures Octets(h, c) == Octets(h[..|h| - 1], c)
  {
  }

  lemma ZerosAt(t: LayoutTable, c: Cell)
    requires HasInput(t, c)
    ensures c.inputOff.Some? && InputAt(Zeros(t.inputCr.dataLength), c) == Zeros(c.inputLen)
  {
    hide FindCell;
  }

  // --- the output side ------------------------------------------------------------------------

  /** Every publish carries a C-SDU of the layout then in place. */
  predicate EnginePublishes(h: seq<Finished>) {
    h == []
    || (&& EnginePublishes(h[..|h| - 1])
        && var f := h[|h| - 1];
           (f.op.RtPublish? && !f.res.Contended? ==>
              var t := InPlace(h[..|h| - 1]); t.Some? && |f.op.data| == t.value.outputCr.dataLength))
  }

  /** So no publish leaves part of an older one behind. */
  lemma {:induction false} EngineIsFull(h: seq<Finished>)
    requires Sequential(h) && EnginePublishes(h)
    ensures FullPublishes(h)
    ensures |LastPublished(h)| == match InPlace(h) case Some(t) => t.outputCr.dataLength case None => 0
    decreases |h|
  {
    hide Sequential, Effect;
    if h != [] {
      SequentialFront(h);
      EngineIsFull(h[..|h| - 1]);
    }
  }

  /** The cells in place are the layout's. */
  lemma {:induction false} CellsInPlace(h: seq<Finished>)
    requires Sequential(h)
    ensures InPlace(h).Some? ==> Replay(h).cells == InPlace(h).value.cells
    decreases |h|
  {
    hide Lookup, Sequential;
    if h != [] {
      SequentialFront(h);
      CellsInPlace(h[..|h| - 1]);
    }
  }
}
