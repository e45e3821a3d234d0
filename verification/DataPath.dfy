/** The cyclic path from end to end: a typed value set by the application reads back from the frame the
    controller receives, and a value the controller sends reads back at the application. Joins the field
    packing (crates/pnio/src/config.rs), the typed access (crates/pnio/src/api.rs), the shared image
    (crates/pnio/src/rt/image.rs) under every interleaving, the layout (crates/pnio/src/rt/layout.rs) and the
    engine (crates/pnio/src/rt/engine.rs). */
module DataPath {
  import opened Wire
  import opened Connect
  import opened Layout
  import opened Fields
  import opened Typed
  import I = Image
  import V = ImageData
  import Z = ImageRuns
  import P = Producer
  import N = Consumer
  import F = RtFrames

  /** The object behind a cell's offset: same place, same length. */
  lemma CellObject(cr: IocrParams, model: DeviceModel, isOutput: bool, s: SlotModel, sm: SubmoduleModel)
    returns (o: IoObject)
    requires UniquePlaces(model) && s in model.slots && sm in s.submodules
    requires CrTable(cr, model, isOutput).Ok?
    requires OffsetIn(CrTable(cr, model, isOutput).value, s.slot, sm.subslot).Some?
    ensures var t := CrTable(cr, model, isOutput).value;
      && o in t.objects && o.slot == s.slot && o.subslot == sm.subslot
      && Some(o.dataOff) == OffsetIn(t, s.slot, sm.subslot) && o.dataLen == ModelLen(sm, isOutput)
      && o.dataOff + o.dataLen < t.dataLength
  {
    hide CrTable, PairwiseApart;
    BuiltCr(cr, model, isOutput);
    var t := CrTable(cr, model, isOutput).value;
    FindSlotUnique(model.slots, s);
    FindSubmoduleUnique(s.submodules, sm);
    o := FindObject(t.objects, s.slot, sm.subslot).value;
    var i :| 0 <= i < |t.objects| && t.objects[i] == o;
  }

  /** Both CRs of a built table, and the objects a cell points at. */
  lemma CellParts(params: ArParams, model: DeviceModel, c: Cell) returns (input: Option<IoObject>, output: Option<IoObject>)
    requires UniquePlaces(model) && TableFor(params, model).Ok? && c in TableFor(params, model).value.cells
    ensures var t := TableFor(params, model).value;
      && Sound(t.inputCr) && Sound(t.outputCr)
      && (c.inputOff.Some? ==>
            && input.Some? && input.value in t.inputCr.objects
            && input.value.slot == c.slot && input.value.subslot == c.subslot
            && input.value.dataOff == c.inputOff.value && input.value.dataLen == c.inputLen
            && c.inputOff.value + c.inputLen < t.inputCr.dataLength)
      && (c.outputOff.Some? ==>
            && output.Some? && output.value in t.outputCr.objects
            && output.value.dataOff == c.outputOff.value && output.value.dataLen == c.outputLen
            && c.outputOff.value + c.outputLen < t.outputCr.dataLength)
  {
    hide CrTable, Cells, UniquePlaces, OffsetIn, Sound;
    var t := TableFor(params, model).value;
    SoundTable(params.inputCr, model, false);
    SoundTable(params.outputCr, model, true);
    var s, sm := CellOrigin(model.slots, t.inputCr, t.outputCr, c);
    input, output := None, None;
    if c.inputOff.Some? {
      var o := CellObject(params.inputCr, model, false, s, sm);
      input := Some(o);
    }
    if c.outputOff.Some? {
      var o := CellObject(params.outputCr, model, true, s, sm);
      output := Some(o);
    }
  }

  lemma SoundTable(cr: IocrParams, model: DeviceModel, isOutput: bool)
    requires CrTable(cr, model, isOutput).Ok?
    ensures Sound(CrTable(cr, model, isOutput).value)
  {
    hide CrTable, Sound;
    BuiltCr(cr, model, isOutput);
  }

  lemma ObjectsApart(cr: CrLayout, o: IoObject, p: IoObject)
    requires Sound(cr) && o in cr.objects && p in cr.objects && o != p
    ensures Apart(ObjectRange(o), ObjectRange(p))
  {
    var rs := ObjectRanges(cr.objects) + IocsRanges(cr.iocs);
    var i :| 0 <= i < |cr.objects| && cr.objects[i] == o;
    var k :| 0 <= k < |cr.objects| && cr.objects[k] == p;
    assert rs[i] == ObjectRange(o) && rs[k] == ObjectRange(p);
    assert Apart(rs[Min(i, k)], rs[Max(i, k)]);
  }

  /** In a built layout no two submodules share input octets. */
  lemma BuiltCellsApart(params: ArParams, model: DeviceModel)
    requires UniquePlaces(model) && TableFor(params, model).Ok?
    ensures V.CellsApart(TableFor(params, model).value)
  {
    hide TableFor, Sound, UniquePlaces;
    var t := TableFor(params, model).value;
    forall c, d | c in t.cells && d in t.cells && c.inputOff.Some? && d.inputOff.Some?
                  && (c.slot != d.slot || c.subslot != d.subslot)
      ensures Apart(Range(c.inputOff.value, c.inputOff.value + c.inputLen),
                    Range(d.inputOff.value, d.inputOff.value + d.inputLen))
    {
      var o, _ := CellParts(params, model, c);
      var p, _ := CellParts(params, model, d);
      ObjectsApart(t.inputCr, o.value, p.value);
      IopsBehind(t.inputCr, o.value);
      IopsBehind(t.inputCr, p.value);
    }
  }

  lemma IopsBehind(cr: CrLayout, o: IoObject)
    requires Sound(cr) && o in cr.objects
    ensures o.iopsOff == o.dataOff + o.dataLen
  {
  }

  // --- application to controller ----------------------------------------------------------------

  /** The application's operations on the image and the RT thread's snapshots, interleaved in any way; a
      layout built for a device is in place, and its RT thread snapshots into its own buffer. */
  ghost predicate Exchange(run: I.Run, n: nat, params: ArParams, model: DeviceModel) {
    && UniquePlaces(model) && TableFor(params, model).Ok?
    && I.StateOf(run).Some?
    && var h := I.StateOf(run).value.history;
       n <= |h| && V.InPlace(h[..n]) == Some(TableFor(params, model).value) && V.OneRtThread(h[..n])
  }

  function History(run: I.Run, n: nat): seq<I.Finished>
    requires I.StateOf(run).Some? && n <= |I.StateOf(run).value.history|
  {
    I.StateOf(run).value.history[..n]
  }

  /** The C-SDU the controller parses from a tick's frame. */
  function Received(cr: CrLayout, ticks: seq<u32>, buffer: Bytes, problem: bool, dst: Mac, src: Mac): Bytes
    requires |buffer| >= cr.dataLength
  {
    match F.ParseRt(P.SentBytes(cr, ticks, buffer, problem, dst, src)) case Ok((_, rt)) => rt.csdu case Err(_) => []
  }

  predicate IsInput(t: LayoutTable, c: Cell) { I.FindCell(t.cells, c.slot, c.subslot) == Some(c) && c.inputOff.Some? }

  lemma PlacedInput(params: ArParams, model: DeviceModel, c: Cell)
    requires UniquePlaces(model) && TableFor(params, model).Ok? && IsInput(TableFor(params, model).value, c)
    ensures V.HasInput(TableFor(params, model).value, c)
  {
    hide TableFor, Sound, UniquePlaces;
    var o, _ := CellParts(params, model, c);
  }

  /** In every interleaving and at every point of it, the frame of a tick carries for every submodule what
      the application had last written successfully when the RT thread's buffer was last filled, or zeros
      if it had written nothing since the layout came in place. A tick that finds the image busy carries
      the previous snapshot. */
  lemma TickCarries(run: I.Run, n: nat, params: ArParams, model: DeviceModel, c: Cell,
                    ticks: seq<u32>, problem: bool, dst: Mac, src: Mac)
    requires Exchange(run, n, params, model) && IsInput(TableFor(params, model).value, c)
    ensures var t, h := TableFor(params, model).value, History(run, n);
      && |V.RtBuffer(h)| == t.inputCr.dataLength
      && var csdu := Received(t.inputCr, ticks, V.RtBuffer(h), problem, dst, src);
      && c.inputOff.value + c.inputLen <= |csdu|
      && V.InputAt(csdu, c) == V.Octets(h[..V.FilledAt(h)], c)
  {
    hide TableFor, Sound, UniquePlaces, I.StateOf, I.Sequential, I.FindCell, F.ParseRt, P.SentBytes, P.Sum, P.InData,
         P.IsStatus, V.CellsApart, V.OneRtThread, V.RtBuffer, V.InPlace, V.Octets, V.FilledAt, I.Replay;
    var t, h := TableFor(params, model).value, History(run, n);
    I.Linearizable(run);
    SequentialPrefix(I.StateOf(run).value.history, n);
    BuiltCellsApart(params, model);
    PlacedInput(params, model, c);
    V.BufferIsLastSnapshot(h, t, c);
    var _, _ := CellParts(params, model, c);
    TickShows(t, c, params, model, ticks, V.RtBuffer(h), problem, dst, src);
  }

  lemma SequentialPrefix(h: seq<I.Finished>, n: nat)
    requires I.Sequential(h) && n <= |h|
    ensures I.Sequential(h[..n])
  {
    hide I.Effect, I.Replay;
    assert forall i :: 0 <= i <= n ==> h[..n][..i] == h[..i];
  }

  /** What the controller parses at a cell's place is what the buffer holds there. */
  lemma TickShows(t: LayoutTable, c: Cell, params: ArParams, model: DeviceModel, ticks: seq<u32>, buffer: Bytes,
                  problem: bool, dst: Mac, src: Mac)
    requires UniquePlaces(model) && TableFor(params, model) == Ok(t) && IsInput(t, c) && |buffer| == t.inputCr.dataLength
    ensures var csdu := Received(t.inputCr, ticks, buffer, problem, dst, src);
      && c.inputOff.value + c.inputLen <= |csdu| && c.inputOff.value + c.inputLen <= |buffer|
      && V.InputAt(csdu, c) == V.InputAt(buffer, c)
  {
    hide TableFor, Sound, UniquePlaces, F.ParseRt, P.SentBytes, P.Sum, P.InData, P.IsStatus, I.FindCell;
    var o, _ := CellParts(params, model, c);
    P.TickRefinement(t.inputCr, ticks, buffer, problem, dst, src);
  }

  /** So a field the application set reads back at the controller: when the write last carried was the
      buffer of a series of typed writes, field `j` is its last written value, or what it was. */
  lemma InputReachesController(run: I.Run, n: nat, params: ArParams, model: DeviceModel, c: Cell, types: seq<FieldType>,
                               was: Bytes, writes: seq<(nat, Value)>, j: nat,
                               ticks: seq<u32>, problem: bool, dst: Mac, src: Mac)
    requires Exchange(run, n, params, model) && IsInput(TableFor(params, model).value, c)
    requires Size(types) <= MAX_SUBMODULE_BYTES && c.inputLen == Size(types) == |was| && j < |types|
    requires TableFits(Refs(types), |was|) && SetAll(Refs(types), was, writes).Ok?
    requires var h := History(run, n);
      V.LastWritten(h[..V.FilledAt(h)], c.slot, c.subslot) == Some(SetAll(Refs(types), was, writes).value)
    ensures var t, h := TableFor(params, model).value, History(run, n);
      && |V.RtBuffer(h)| == t.inputCr.dataLength
      && var csdu := Received(t.inputCr, ticks, V.RtBuffer(h), problem, dst, src);
      && c.inputOff.value + c.inputLen <= |csdu|
      && GetField(Refs(types), V.InputAt(csdu, c), j)
         == (match LastWrite(writes, j) case Some(v) => Ok(v) case None => GetField(Refs(types), was, j))
  {
    hide TableFor, Exchange, IsInput, Received, Refs, Size, SetAll, GetField, LastWrite, TableFits, UniquePlaces,
         V.LastWritten, V.FilledAt, V.RtBuffer;
    TickCarries(run, n, params, model, c, ticks, problem, dst, src);
    CommittedWrites(types, was, writes, j);
  }

  /** Such exchanges occur for every device, every submodule with inputs and every content: putting the layout
      in place, writing and taking a snapshot, one after the other, is a run of the image. */
  lemma InputArrives(params: ArParams, model: DeviceModel, c: Cell, bytes: Bytes) returns (run: I.Run)
    requires UniquePlaces(model) && TableFor(params, model).Ok? && IsInput(TableFor(params, model).value, c)
    requires |bytes| == c.inputLen
    ensures Exchange(run, 3, params, model)
    ensures var h := History(run, 3); V.LastWritten(h[..V.FilledAt(h)], c.slot, c.subslot) == Some(bytes)
  {
    hide TableFor, UniquePlaces, I.StateOf, I.Sequential, I.TableInside, I.Lookup, I.FindCell, V.InPlace, V.OneRtThread,
         V.RtBuffer, V.FilledAt, V.LastWritten;
    var t := TableFor(params, model).value;
    I.BuiltTableInside(params, model);
    PlacedInput(params, model, c);
    var put, write := I.Rebuild(t), I.WriteInputs(c.slot, c.subslot, bytes);
    run := Z.Realizable([put, write, I.RtSnapshotInputs(Zeros(t.inputCr.dataLength))]);
    var h := I.StateOf(run).value.history;
    SequentialPrefix(h, 2);
    assert h[..3] == h && h[..2][..1] == [h[0]] && [h[0]][..0] == [];
    V.SequentialFront(h);
    V.SequentialFront(h[..2]);
    assert I.Replay([h[0]]) == I.Effect(I.EMPTY, put).0;
    WriteLands(I.Replay([h[0]]), c, bytes);
    V.SnapshotTaken(I.Replay(h[..2]), Zeros(t.inputCr.dataLength));
    WrittenThenTaken(h, t, c, bytes);
  }

  lemma WrittenThenTaken(h: seq<I.Finished>, t: LayoutTable, c: Cell, bytes: Bytes)
    requires |h| == 3 && h[0].op == I.Rebuild(t) && h[1] == I.Finished(I.WriteInputs(c.slot, c.subslot, bytes), I.Done)
    requires h[2].op == I.RtSnapshotInputs(Zeros(t.inputCr.dataLength)) && h[2].res.Snapshot?
    ensures V.InPlace(h) == Some(t) && V.OneRtThread(h)
    ensures V.LastWritten(h[..V.FilledAt(h)], c.slot, c.subslot) == Some(bytes)
  {
    var h1, h2 := h[..1], h[..2];
    assert h2[..1] == h1 && h1[..0] == [] && h[..3] == h;
    assert V.InPlace(h1) == Some(t) && V.InPlace(h2) == Some(t);
    assert V.RtBuffer(h1) == Zeros(t.inputCr.dataLength) && V.RtBuffer(h2) == V.RtBuffer(h1);
    assert V.OneRtThread(h1) && V.OneRtThread(h2);
    assert V.LastWritten(h2, c.slot, c.subslot) == Some(bytes);
  }

  /** Writing a cell's bytes succeeds. */
  lemma WriteLands(im: I.IoImage, c: Cell, bytes: Bytes)
    requires I.FindCell(im.cells, c.slot, c.subslot) == Some(c) && c.inputOff.Some? && |bytes| == c.inputLen
    requires c.inputOff.value + c.inputLen <= |im.inputs|
    ensures I.Effect(im, I.WriteInputs(c.slot, c.subslot, bytes)).1 == I.Done
  {
  }

  // --- controller to application -----------------------------------------------------------------

  /** `frame` is the last frame of the run that was accepted with valid data. */
  predicate LastFrameIs(cfg: N.Consuming, run: N.Run, frame: Bytes) {
    match run
    case Start => false
    case Then(pre, ev) =>
      if N.IsAccepted(cfg, ev) && N.Verdict(cfg, ev.frame).dataValid then ev.frame == frame
      else LastFrameIs(cfg, pre, frame)
  }

  lemma {:induction false} LastFrameShows(cfg: N.Consuming, run: N.Run, frame: Bytes)
    requires LastFrameIs(cfg, run, frame)
    ensures F.ParseRt(frame).Ok? && |F.ParseRt(frame).value.1.csdu| >= cfg.cr.dataLength
    ensures N.LastValid(cfg, run) == F.ParseRt(frame).value.1.csdu[..cfg.cr.dataLength]
  {
    hide F.ParseRt;
    if !(N.IsAccepted(cfg, run.ev) && N.Verdict(cfg, run.ev.frame).dataValid) { LastFrameShows(cfg, run.before, frame); }
  }

  /** The engine publishes C-SDUs of its layout's length. */
  lemma EngineLength(cfg: N.Consuming, run: N.Run)
    requires Sound(cfg.cr)
    ensures |N.After(cfg, run).csdu| == cfg.cr.dataLength
  {
    hide N.After, Sound;
    N.ImageIsLastValid(cfg, run);
  }

  /** A read that finished in any interleaving, of a layout built for a device; the last publish before it was
      the engine's image after some run of received frames, and every publish was an engine's. */
  ghost predicate Reading(run: I.Run, n: nat, params: ArParams, model: DeviceModel, c: Cell,
                          cfg: N.Consuming, rxRun: N.Run, read: Bytes)
  {
    && UniquePlaces(model) && TableFor(params, model).Ok?
    && I.StateOf(run).Some?
    && var t, h := TableFor(params, model).value, I.StateOf(run).value.history;
       && n < |h| && h[n].op == I.ReadOutputs(c.slot, c.subslot) && h[n].res.Data? && h[n].res.bytes == read
       && V.InPlace(h[..n]) == Some(t) && V.EnginePublishes(h[..n])
       && I.FindCell(t.cells, c.slot, c.subslot) == Some(c)
       && cfg.cr == t.outputCr && Sound(cfg.cr)
       && I.LastPublished(h[..n]) == N.After(cfg, rxRun).csdu
  }

  /** Such reads occur for every device, every submodule with outputs and every run of received frames. */
  lemma OutputArrives(params: ArParams, model: DeviceModel, c: Cell, cfg: N.Consuming, rxRun: N.Run, v: I.Validity)
    returns (run: I.Run, read: Bytes)
    requires UniquePlaces(model) && TableFor(params, model).Ok?
    requires var t := TableFor(params, model).value;
      I.FindCell(t.cells, c.slot, c.subslot) == Some(c) && c.outputOff.Some? && cfg.cr == t.outputCr
    ensures Reading(run, 2, params, model, c, cfg, rxRun, read)
  {
    hide TableFor, UniquePlaces, I.StateOf, I.Sequential, I.TableInside, I.Lookup, I.FindCell, Sound, N.After;
    var t := TableFor(params, model).value;
    I.BuiltTableInside(params, model);
    var _, o := CellParts(params, model, c);
    EngineLength(cfg, rxRun);
    var csdu := N.After(cfg, rxRun).csdu;
    var put, publish, get := I.Rebuild(t), I.RtPublish(csdu, v), I.ReadOutputs(c.slot, c.subslot);
    run := Z.Realizable([put, publish, get]);
    var h := I.StateOf(run).value.history;
    SequentialPrefix(h, 2);
    assert h[..2] == [h[0], h[1]] && h[..2][..1] == [h[0]] && [h[0]][..0] == [];
    V.SequentialFront(h);
    assert I.Replay([h[0]]) == I.Effect(I.EMPTY, put).0;
    assert I.Replay(h[..2]) == I.Effect(I.Replay([h[0]]), publish).0;
    ReadLands(I.Replay(h[..2]), c);
    read := h[2].res.bytes;
    assert I.LastPublished(h[..2]) == csdu;
    assert V.InPlace(h[..2]) == Some(t) && V.InPlace([h[0]]) == Some(t);
    assert V.EnginePublishes([h[0]]);
  }

  lemma ReadLands(im: I.IoImage, c: Cell)
    requires I.FindCell(im.cells, c.slot, c.subslot) == Some(c) && c.outputOff.Some?
    requires c.outputOff.value + c.outputLen <= |im.csdu|
    ensures I.Effect(im, I.ReadOutputs(c.slot, c.subslot)).1.Data?
  {
  }

  /** In every interleaving a read returns the octets of the last valid frame at the cell's place. */
  lemma ReadShowsLastFrame(run: I.Run, n: nat, params: ArParams, model: DeviceModel, c: Cell,
                           cfg: N.Consuming, rxRun: N.Run, read: Bytes)
    requires Reading(run, n, params, model, c, cfg, rxRun, read)
    ensures c.outputOff.Some? && c.outputOff.value + c.outputLen <= |N.LastValid(cfg, rxRun)| == cfg.cr.dataLength
    ensures read == N.LastValid(cfg, rxRun)[c.outputOff.value..c.outputOff.value + c.outputLen]
  {
    hide TableFor, Sound, UniquePlaces, I.StateOf, I.Sequential, I.FindCell, I.Replay, V.EnginePublishes, I.FullPublishes,
         V.InPlace, I.LastPublished, N.After, N.LastValid;
    var h := I.StateOf(run).value.history;
    I.Linearizable(run);
    SequentialPrefix(h, n);
    V.EngineIsFull(h[..n]);
    V.CellsInPlace(h[..n]);
    I.ReadsOnePublish(run, n);
    N.ImageIsLastValid(cfg, rxRun);
  }

  /** So a value the controller put in a frame reads back at the application: when the last valid frame was
      built with the octets of a series of typed writes at the cell's place, field `j` of the read is its last
      written value, or what it was. */
  lemma OutputReachesApplication(run: I.Run, n: nat, params: ArParams, model: DeviceModel, c: Cell, types: seq<FieldType>,
                                 cfg: N.Consuming, rxRun: N.Run, rt: F.RtFrame, dst: Mac, src: Mac,
                                 was: Bytes, writes: seq<(nat, Value)>, j: nat, read: Bytes)
    requires Reading(run, n, params, model, c, cfg, rxRun, read)
    requires LastFrameIs(cfg, rxRun, F.FrameBytes(rt, dst, src)) && Holds(rt.csdu, c, types, was, writes) && j < |types|
    ensures |read| == Size(types) && TableFits(Refs(types), |read|)
    ensures GetField(Refs(types), read, j)
         == match LastWrite(writes, j) case Some(v) => Ok(v) case None => GetField(Refs(types), was, j)
  {
    hide Reading, Refs, Size, SetAll, GetField, LastWrite, TableFits, I.StateOf, F.ParseRt, F.FrameBytes, N.LastValid,
         LastFrameIs, F.Padded, Sound;
    ReadShowsLastFrame(run, n, params, model, c, cfg, rxRun, read);
    LastFrameShows(cfg, rxRun, F.FrameBytes(rt, dst, src));
    F.RtRoundTrip(rt, dst, src);
    var off, end := c.outputOff.value, c.outputOff.value + c.outputLen;
    assert F.Padded(rt.csdu)[..cfg.cr.dataLength][off..end] == rt.csdu[off..end];
    CommittedWrites(types, was, writes, j);
  }

  /** A C-SDU holds the octets of a series of typed writes at a cell's output place. */
  predicate Holds(csdu: Bytes, c: Cell, types: seq<FieldType>, was: Bytes, writes: seq<(nat, Value)>) {
    && c.outputLen == Size(types) == |was| && Size(types) <= MAX_SUBMODULE_BYTES
    && TableFits(Refs(types), |was|) && SetAll(Refs(types), was, writes).Ok?
    && c.outputOff.Some? && c.outputOff.value + c.outputLen <= |csdu|
    && csdu[c.outputOff.value..c.outputOff.value + c.outputLen] == SetAll(Refs(types), was, writes).value
  }
}
