/** The cyclic layout tables (crates/pnio/src/rt/layout.rs): built with an occupancy bitmap,
    specified by pairwise disjoint byte ranges. */
module Layout {
  import opened Wire
  import opened Connect

  const CYCLE_UNIT_NS := 31_250

  datatype IoObject = IoObject(slot: u16, subslot: u16, dataOff: nat, dataLen: nat, iopsOff: nat)

  datatype CsObject = CsObject(slot: u16, subslot: u16, iocsOff: nat)

  /** `watchdog` is in nanoseconds. */
  datatype CrLayout = CrLayout(frameId: u16, dataLength: nat, cycleStep: u16, watchdog: nat,
                               objects: seq<IoObject>, iocs: seq<CsObject>)

  datatype Cell = Cell(slot: u16, subslot: u16, inputLen: nat, outputLen: nat,
                       inputOff: Option<nat>, outputOff: Option<nat>)

  datatype LayoutTable = LayoutTable(inputCr: CrLayout, outputCr: CrLayout, cells: seq<Cell>)

  datatype LayoutError =
    | UnknownSubmodule(slot: u16, subslot: u16)
    | OutOfBounds(slot: u16, subslot: u16, end: nat, dataLength: nat)
    | Overlap(slot: u16, subslot: u16)

  // --- specification: ranges ---------------------------------------------------

  /** A half-open byte range of the C-SDU. */
  datatype Range = Range(off: nat, end: nat)

  predicate Apart(a: Range, b: Range) { a.end <= b.off || b.end <= a.off }

  predicate ApartFromAll(a: Range, taken: seq<Range>) { forall t <- taken :: Apart(a, t) }

  function ObjectRange(o: IoObject): Range { Range(o.dataOff, o.iopsOff + 1) }

  function DataRange(o: IocrObject, len: nat): Range { Range(o.frameOffset, o.frameOffset + len + 1) }

  function StatusRange(o: IocrObject): Range { Range(o.frameOffset, o.frameOffset + 1) }

  /** The data objects placed one after the other next to the ranges already taken. */
  function PlaceData(objs: seq<IocrObject>, model: DeviceModel, isOutput: bool, dataLength: nat,
                     taken: seq<Range>): Result<(seq<IoObject>, seq<Range>), LayoutError>
  {
    if objs == [] then Ok(([], taken))
    else
      var o := objs[0];
      match Find(model, o.slot, o.subslot)
      case None => Err(UnknownSubmodule(o.slot, o.subslot))
      case Some(sm) =>
        var len := ModelLen(sm, isOutput);
        var r := DataRange(o, len);
        if r.end > dataLength then Err(OutOfBounds(o.slot, o.subslot, r.end, dataLength))
        else if !ApartFromAll(r, taken) then Err(Overlap(o.slot, o.subslot))
        else
          var (rest, all) :- PlaceData(objs[1..], model, isOutput, dataLength, taken + [r]);
          Ok(([IoObject(o.slot, o.subslot, o.frameOffset, len, o.frameOffset + len)] + rest, all))
  }

  /** The consumer-status bytes placed next to the ranges already taken. */
  function PlaceStatus(objs: seq<IocrObject>, dataLength: nat, taken: seq<Range>)
    : Result<seq<CsObject>, LayoutError>
  {
    if objs == [] then Ok([])
    else
      var o := objs[0];
      var r := StatusRange(o);
      if r.end > dataLength then Err(OutOfBounds(o.slot, o.subslot, r.end, dataLength))
      else if !ApartFromAll(r, taken) then Err(Overlap(o.slot, o.subslot))
      else
        var rest :- PlaceStatus(objs[1..], dataLength, taken + [r]);
        Ok([CsObject(o.slot, o.subslot, o.frameOffset)] + rest)
  }

  function CycleStep(cr: IocrParams): nat { cr.sendClockFactor * cr.reductionRatio }

  function CrTable(cr: IocrParams, model: DeviceModel, isOutput: bool): Result<CrLayout, LayoutError> {
    var step := CycleStep(cr);
    if step > 0xFFFF then Err(OutOfBounds(0, 0, 0xFFFF, cr.dataLength))
    else
      var (objects, taken) :- PlaceData(cr.ioData, model, isOutput, cr.dataLength, []);
      var iocs :- PlaceStatus(cr.iocs, cr.dataLength, taken);
      Ok(CrLayout(cr.frameId, cr.dataLength, step, cr.dataHoldFactor * step * CYCLE_UNIT_NS, objects, iocs))
  }

  // --- implementation: the occupancy bitmap ------------------------------------

  ghost predicate Covers(taken: seq<Range>, b: int) {
    exists t :: t in taken && t.off <= b < t.end
  }

  /** The bitmap marks exactly the bytes of the taken ranges, none of which is empty. */
  ghost predicate Marks(occupied: seq<bool>, taken: seq<Range>) {
    && (forall t <- taken :: t.off < t.end)
    && forall b :: 0 <= b < |occupied| ==> (occupied[b] <==> Covers(taken, b))
  }

  /** Marks `[off, off + len)`; fails when one of those bytes is already marked. */
  method Mark(occupied: array<bool>, off: nat, len: nat, slot: u16, subslot: u16)
    returns (r: Result<bool, LayoutError>)
    requires off + len <= occupied.Length
    modifies occupied
    ensures r.Ok? <==> forall b :: off <= b < off + len ==> !old(occupied[b])
    ensures r.Err? ==> r.error == Overlap(slot, subslot)
    ensures r.Ok? ==> forall b :: 0 <= b < occupied.Length ==>
                        occupied[b] == (off <= b < off + len || old(occupied[b]))
  {
    var i := off;
    while i < off + len
      invariant off <= i <= off + len
      invariant forall b :: off <= b < i ==> !old(occupied[b])
      invariant forall b :: 0 <= b < occupied.Length ==>
                  occupied[b] == (off <= b < i || old(occupied[b]))
    {
      if occupied[i] { return Err(Overlap(slot, subslot)); }
      occupied[i] := true;
      i := i + 1;
    }
    return Ok(true);
  }

  /** Marks the data bytes and then the IOPS byte behind them. */
  method MarkData(occupied: array<bool>, ghost taken: seq<Range>, off: nat, len: nat, slot: u16, subslot: u16)
    returns (r: Result<bool, LayoutError>)
    requires off + len + 1 <= occupied.Length
    requires Marks(occupied[..], taken)
    modifies occupied
    ensures r.Ok? <==> ApartFromAll(Range(off, off + len + 1), taken)
    ensures r.Err? ==> r.error == Overlap(slot, subslot)
    ensures r.Ok? ==> Marks(occupied[..], taken + [Range(off, off + len + 1)])
  {
    ghost var range := Range(off, off + len + 1);
    ghost var before := occupied[..];
    NoByteTaken(before, taken, range);
    r := Mark(occupied, off, len, slot, subslot);
    if r.Err? { assert exists b :: range.off <= b < range.end && before[b]; return; }
    r := Mark(occupied, off + len, 1, slot, subslot);
    if r.Err? { assert before[off + len]; return; }
    forall b | 0 <= b < |occupied[..]|
      ensures occupied[..][b] <==> Covers(taken + [range], b)
    {
      assert occupied[..][b] == (off <= b < range.end || before[b]);
      CoversMore(taken, range, b);
    }
  }

  /** Marks one IOCS byte. */
  method MarkStatus(occupied: array<bool>, ghost taken: seq<Range>, off: nat, slot: u16, subslot: u16)
    returns (r: Result<bool, LayoutError>)
    requires off + 1 <= occupied.Length
    requires Marks(occupied[..], taken)
    modifies occupied
    ensures r.Ok? <==> ApartFromAll(Range(off, off + 1), taken)
    ensures r.Err? ==> r.error == Overlap(slot, subslot)
    ensures r.Ok? ==> Marks(occupied[..], taken + [Range(off, off + 1)])
  {
    ghost var range := Range(off, off + 1);
    ghost var before := occupied[..];
    NoByteTaken(before, taken, range);
    r := Mark(occupied, off, 1, slot, subslot);
    if r.Err? { assert before[off]; return; }
    forall b | 0 <= b < |occupied[..]|
      ensures occupied[..][b] <==> Covers(taken + [range], b)
    {
      assert occupied[..][b] == (b == off || before[b]);
      CoversMore(taken, range, b);
    }
  }

  method BuildCr(cr: IocrParams, model: DeviceModel, isOutput: bool) returns (r: Result<CrLayout, LayoutError>)
    ensures r == CrTable(cr, model, isOutput)
  {
    hide PlaceData, PlaceStatus, Find;
    var step := cr.sendClockFactor * cr.reductionRatio;
    if step > 0xFFFF { return Err(OutOfBounds(0, 0, 0xFFFF, cr.dataLength)); }
    var occupied := new bool[cr.dataLength](_ => false);
    var objects, taken := BuildData(cr, model, isOutput, occupied);
    if objects.Err? { return Err(objects.error); }
    var iocs := BuildStatus(cr, occupied, taken);
    if iocs.Err? { return Err(iocs.error); }
    return Ok(CrLayout(cr.frameId, cr.dataLength, step, cr.dataHoldFactor * step * CYCLE_UNIT_NS,
                       objects.value, iocs.value));
  }

  /** A placement with objects already placed in front of it. */
  ghost function Following(placed: seq<IoObject>, r: Result<(seq<IoObject>, seq<Range>), LayoutError>)
    : Result<(seq<IoObject>, seq<Range>), LayoutError>
  {
    match r case Ok((more, all)) => Ok((placed + more, all)) case Err(e) => Err(e)
  }

  /** One data object: refused, or placed in front of the rest. */
  lemma PlaceDataStep(objs: seq<IocrObject>, i: nat, model: DeviceModel, isOutput: bool, dataLength: nat,
                      taken: seq<Range>, placed: seq<IoObject>)
    requires i < |objs|
    ensures var o, sm := objs[i], Find(model, objs[i].slot, objs[i].subslot);
      var whole := Following(placed, PlaceData(objs[i..], model, isOutput, dataLength, taken));
      if sm.None? then whole == Err(UnknownSubmodule(o.slot, o.subslot))
      else
        var len := ModelLen(sm.value, isOutput);
        var r := DataRange(o, len);
        if r.end > dataLength then whole == Err(OutOfBounds(o.slot, o.subslot, r.end, dataLength))
        else if !ApartFromAll(r, taken) then whole == Err(Overlap(o.slot, o.subslot))
        else
          var io := IoObject(o.slot, o.subslot, o.frameOffset, len, o.frameOffset + len);
          whole == Following(placed + [io], PlaceData(objs[i + 1..], model, isOutput, dataLength, taken + [r]))
  {
    hide Find, ApartFromAll;
    var tail := objs[i..];
    assert tail[0] == objs[i] && tail[1..] == objs[i + 1..];
    var sm := Find(model, objs[i].slot, objs[i].subslot);
    if sm.Some? {
      var len := ModelLen(sm.value, isOutput);
      var io := IoObject(objs[i].slot, objs[i].subslot, objs[i].frameOffset, len, objs[i].frameOffset + len);
      var rest := PlaceData(objs[i + 1..], model, isOutput, dataLength, taken + [DataRange(objs[i], len)]);
      assert rest.Ok? ==> placed + ([io] + rest.value.0) == placed + [io] + rest.value.0;
    }
  }

  lemma PlaceDataEnds(objs: seq<IocrObject>, model: DeviceModel, isOutput: bool, dataLength: nat, taken: seq<Range>,
                      placed: seq<IoObject>)
    ensures Following([], PlaceData(objs[0..], model, isOutput, dataLength, []))
         == PlaceData(objs, model, isOutput, dataLength, [])
    ensures Following(placed, PlaceData(objs[|objs|..], model, isOutput, dataLength, taken)) == Ok((placed, taken))
  {
    hide Find, ApartFromAll;
    assert objs[0..] == objs && objs[|objs|..] == [];
    var r := PlaceData(objs, model, isOutput, dataLength, []);
    assert r.Ok? ==> [] + r.value.0 == r.value.0;
    assert placed + [] == placed;
  }

  /** The first loop of `BuildCr`: the data objects, each with its IOPS byte. */
  method BuildData(cr: IocrParams, model: DeviceModel, isOutput: bool, occupied: array<bool>)
    returns (r: Result<seq<IoObject>, LayoutError>, ghost taken: seq<Range>)
    requires occupied.Length == cr.dataLength && forall b :: 0 <= b < occupied.Length ==> !occupied[b]
    modifies occupied
    ensures match PlaceData(cr.ioData, model, isOutput, cr.dataLength, [])
            case Ok((objects, all)) => r == Ok(objects) && taken == all && Marks(occupied[..], taken)
            case Err(e) => r == Err(e)
  {
    hide Find, Marks, ApartFromAll, PlaceData, Following;
    var objects: seq<IoObject> := [];
    taken := [];
    NothingMarked(occupied[..]);
    ghost var total := PlaceData(cr.ioData, model, isOutput, cr.dataLength, []);
    PlaceDataEnds(cr.ioData, model, isOutput, cr.dataLength, [], []);
    for i := 0 to |cr.ioData|
      invariant Marks(occupied[..], taken)
      invariant total == Following(objects, PlaceData(cr.ioData[i..], model, isOutput, cr.dataLength, taken))
    {
      PlaceDataStep(cr.ioData, i, model, isOutput, cr.dataLength, taken, objects);
      var o := cr.ioData[i];
      var sm := Find(model, o.slot, o.subslot);
      if sm.None? { return Err(UnknownSubmodule(o.slot, o.subslot)), taken; }
      var len := ModelLen(sm.value, isOutput);
      var end := o.frameOffset + len + 1;
      if end > cr.dataLength { return Err(OutOfBounds(o.slot, o.subslot, end, cr.dataLength)), taken; }
      var m := MarkData(occupied, taken, o.frameOffset, len, o.slot, o.subslot);
      if m.Err? { return Err(m.error), taken; }
      taken := taken + [DataRange(o, len)];
      objects := objects + [IoObject(o.slot, o.subslot, o.frameOffset, len, o.frameOffset + len)];
    }
    PlaceDataEnds(cr.ioData, model, isOutput, cr.dataLength, taken, objects);
    r := Ok(objects);
  }

  /** The second loop of `BuildCr`: the IOCS bytes. */
  method BuildStatus(cr: IocrParams, occupied: array<bool>, ghost placed: seq<Range>)
    returns (r: Result<seq<CsObject>, LayoutError>)
    requires occupied.Length == cr.dataLength
    requires Marks(occupied[..], placed)
    modifies occupied
    ensures r == PlaceStatus(cr.iocs, cr.dataLength, placed)
  {
    var iocs: seq<CsObject> := [];
    ghost var taken := placed;
    ghost var total := PlaceStatus(cr.iocs, cr.dataLength, placed);
    assert cr.iocs[0..] == cr.iocs;
    assert total.Ok? ==> iocs + total.value == total.value;
    for i := 0 to |cr.iocs|
      invariant Marks(occupied[..], taken)
      invariant total == match PlaceStatus(cr.iocs[i..], cr.dataLength, taken)
                         case Ok(more) => Ok(iocs + more)
                         case Err(e) => Err(e)
    {
      var o := cr.iocs[i];
      assert cr.iocs[i..][0] == o && cr.iocs[i..][1..] == cr.iocs[i + 1..];
      var end := o.frameOffset + 1;
      if end > cr.dataLength { return Err(OutOfBounds(o.slot, o.subslot, end, cr.dataLength)); }
      var m := MarkStatus(occupied, taken, o.frameOffset, o.slot, o.subslot);
      if m.Err? { return Err(m.error); }
      taken := taken + [StatusRange(o)];
      var cs := CsObject(o.slot, o.subslot, o.frameOffset);
      ghost var rest := PlaceStatus(cr.iocs[i + 1..], cr.dataLength, taken);
      assert rest.Ok? ==> iocs + ([cs] + rest.value) == iocs + [cs] + rest.value;
      iocs := iocs + [cs];
    }
    assert cr.iocs[|cr.iocs|..] == [];
    assert iocs + [] == iocs;
    return Ok(iocs);
  }

  lemma NothingMarked(occupied: seq<bool>)
    requires forall b :: 0 <= b < |occupied| ==> !occupied[b]
    ensures Marks(occupied, [])
  {
  }

  lemma CoversMore(taken: seq<Range>, r: Range, b: int)
    ensures Covers(taken + [r], b) <==> Covers(taken, b) || r.off <= b < r.end
  {
    if Covers(taken, b) {
      var t :| t in taken && t.off <= b < t.end;
      assert t in taken + [r];
    }
    if r.off <= b < r.end { assert r in taken + [r]; }
  }

  /** A non-empty range is apart from all taken ones when and only when none of its bytes is marked. */
  lemma NoByteTaken(occupied: seq<bool>, taken: seq<Range>, r: Range)
    requires r.off < r.end <= |occupied| && Marks(occupied, taken)
    ensures ApartFromAll(r, taken) <==> forall b :: r.off <= b < r.end ==> !occupied[b]
  {
    if forall b :: r.off <= b < r.end ==> !occupied[b] {
      forall t | t in taken ensures Apart(r, t) {
        if !Apart(r, t) {
          var b := Max(r.off, t.off);
          assert t.off <= b < t.end;
          assert Covers(taken, b);
        }
      }
    }
  }

  // --- exactness ---------------------------------------------------------------

  predicate Known(objs: seq<IocrObject>, model: DeviceModel) {
    forall o <- objs :: Find(model, o.slot, o.subslot).Some?
  }

  /** The ranges a CR asks for: data plus IOPS of each data object, then each IOCS byte. */
  function DataRanges(objs: seq<IocrObject>, model: DeviceModel, isOutput: bool): seq<Range>
    requires Known(objs, model)
  {
    seq(|objs|, i requires 0 <= i < |objs| =>
      DataRange(objs[i], ModelLen(Find(model, objs[i].slot, objs[i].subslot).value, isOutput)))
  }

  function StatusRanges(objs: seq<IocrObject>): seq<Range> {
    seq(|objs|, i requires 0 <= i < |objs| => StatusRange(objs[i]))
  }

  predicate AllWithin(rs: seq<Range>, dataLength: nat) { forall r <- rs :: r.end <= dataLength }

  predicate PairwiseApart(rs: seq<Range>) {
    forall i, j :: 0 <= i < j < |rs| ==> Apart(rs[i], rs[j])
  }

  /** Known submodules, everything inside the C-SDU, and no two ranges sharing a byte. */
  predicate WellPlaced(cr: IocrParams, model: DeviceModel, isOutput: bool) {
    && Known(cr.ioData, model)
    && var rs := DataRanges(cr.ioData, model, isOutput) + StatusRanges(cr.iocs);
    && AllWithin(rs, cr.dataLength) && PairwiseApart(rs)
  }

  /** Adding a range keeps a set of ranges apart when it is apart from each of them. */
  lemma PairwiseSnoc(rs: seq<Range>, r: Range)
    ensures PairwiseApart(rs + [r]) <==> PairwiseApart(rs) && ApartFromAll(r, rs)
  {
    if PairwiseApart(rs + [r]) {
      forall i, j | 0 <= i < j < |rs| ensures Apart(rs[i], rs[j]) {
        assert (rs + [r])[i] == rs[i] && (rs + [r])[j] == rs[j];
      }
      forall t | t in rs ensures Apart(r, t) {
        var i :| 0 <= i < |rs| && rs[i] == t;
        assert Apart((rs + [r])[i], (rs + [r])[|rs|]);
      }
    }
    if PairwiseApart(rs) && ApartFromAll(r, rs) {
      forall i, j | 0 <= i < j < |rs + [r]| ensures Apart((rs + [r])[i], (rs + [r])[j]) {
        assert rs[i] in rs;
      }
    }
  }

  lemma PairwisePrefix(rs: seq<Range>, more: seq<Range>)
    requires PairwiseApart(rs + more)
    ensures PairwiseApart(rs)
  {
    forall i, j | 0 <= i < j < |rs| ensures Apart(rs[i], rs[j]) {
      assert (rs + more)[i] == rs[i] && (rs + more)[j] == rs[j];
    }
  }

  lemma {:induction false} PlaceDataExact(objs: seq<IocrObject>, model: DeviceModel, isOutput: bool,
                                          dataLength: nat, taken: seq<Range>)
    requires PairwiseApart(taken)
    ensures var r := PlaceData(objs, model, isOutput, dataLength, taken);
      && (r.Ok? <==> Known(objs, model) && AllWithin(DataRanges(objs, model, isOutput), dataLength)
                     && PairwiseApart(taken + DataRanges(objs, model, isOutput)))
      && (r.Ok? ==> r.value.1 == taken + DataRanges(objs, model, isOutput))
    decreases |objs|
  {
    hide Find, PairwiseApart;
    if objs == [] {
      if Known(objs, model) { assert taken + DataRanges(objs, model, isOutput) == taken; }
    } else {
      var o, rest := objs[0], objs[1..];
      var f := Find(model, o.slot, o.subslot);
      assert o in objs && forall x <- rest :: x in objs;
      if f.Some? {
        var r := DataRange(o, ModelLen(f.value, isOutput));
        PairwiseSnoc(taken, r);
        if ApartFromAll(r, taken) { PlaceDataExact(rest, model, isOutput, dataLength, taken + [r]); }
        if Known(rest, model) {
          var all, tail := DataRanges(objs, model, isOutput), DataRanges(rest, model, isOutput);
          assert all == [r] + tail;
          assert r in all && forall x <- tail :: x in all;
          assert taken + all == taken + [r] + tail;
          if PairwiseApart(taken + all) { PairwisePrefix(taken + [r], tail); }
        }
      }
    }
  }

  lemma {:induction false} PlaceStatusExact(objs: seq<IocrObject>, dataLength: nat, taken: seq<Range>)
    requires PairwiseApart(taken)
    ensures PlaceStatus(objs, dataLength, taken).Ok?
       <==> AllWithin(StatusRanges(objs), dataLength) && PairwiseApart(taken + StatusRanges(objs))
    decreases |objs|
  {
    if objs == [] {
      assert taken + StatusRanges(objs) == taken;
    } else {
      var o, rest := objs[0], objs[1..];
      var r := StatusRange(o);
      PairwiseSnoc(taken, r);
      if ApartFromAll(r, taken) { PlaceStatusExact(rest, dataLength, taken + [r]); }
      var all, tail := StatusRanges(objs), StatusRanges(rest);
      assert all == [r] + tail;
      assert r in all && forall x <- tail :: x in all;
      assert taken + all == taken + [r] + tail;
      if PairwiseApart(taken + all) { PairwisePrefix(taken + [r], tail); }
    }
  }

  /** A CR's table is built exactly when its cycle step fits 16 bits and its objects are well placed. */
  lemma CrTableExact(cr: IocrParams, model: DeviceModel, isOutput: bool)
    ensures CrTable(cr, model, isOutput).Ok? <==> CycleStep(cr) <= 0xFFFF && WellPlaced(cr, model, isOutput)
  {
    hide PlaceData, PlaceStatus, PairwiseApart;
    assert PairwiseApart([]) by { EmptyApart(); }
    PlaceDataExact(cr.ioData, model, isOutput, cr.dataLength, []);
    if Known(cr.ioData, model) {
      var ds, ss := DataRanges(cr.ioData, model, isOutput), StatusRanges(cr.iocs);
      assert [] + ds == ds;
      assert AllWithin(ds + ss, cr.dataLength) <==> AllWithin(ds, cr.dataLength) && AllWithin(ss, cr.dataLength);
      if PairwiseApart(ds + ss) { PairwisePrefix(ds, ss); }
      if PairwiseApart(ds) { PlaceStatusExact(cr.iocs, cr.dataLength, ds); }
    }
  }

  lemma EmptyApart()
    ensures PairwiseApart([])
  {
  }

  // --- what a built table guarantees ---------------------------------------------

  function ObjectRanges(objects: seq<IoObject>): seq<Range> {
    seq(|objects|, i requires 0 <= i < |objects| => ObjectRange(objects[i]))
  }

  function IocsRanges(iocs: seq<CsObject>): seq<Range> {
    seq(|iocs|, i requires 0 <= i < |iocs| => Range(iocs[i].iocsOff, iocs[i].iocsOff + 1))
  }

  /** Each IOPS byte follows its data, everything is inside the C-SDU, and no two objects share a byte. */
  predicate Sound(cr: CrLayout) {
    && (forall o <- cr.objects :: o.iopsOff == o.dataOff + o.dataLen && o.iopsOff < cr.dataLength)
    && (forall c <- cr.iocs :: c.iocsOff < cr.dataLength)
    && PairwiseApart(ObjectRanges(cr.objects) + IocsRanges(cr.iocs))
  }

  function ObjectFor(o: IocrObject, model: DeviceModel, isOutput: bool): IoObject
    requires Find(model, o.slot, o.subslot).Some?
  {
    var len := ModelLen(Find(model, o.slot, o.subslot).value, isOutput);
    IoObject(o.slot, o.subslot, o.frameOffset, len, o.frameOffset + len)
  }

  lemma {:induction false} PlacedObjects(objs: seq<IocrObject>, model: DeviceModel, isOutput: bool,
                                         dataLength: nat, taken: seq<Range>)
    requires PlaceData(objs, model, isOutput, dataLength, taken).Ok?
    ensures Known(objs, model)
    ensures var placed := PlaceData(objs, model, isOutput, dataLength, taken).value.0;
      |placed| == |objs| && forall i :: 0 <= i < |objs| ==> placed[i] == ObjectFor(objs[i], model, isOutput)
    decreases |objs|
  {
    hide Find;
    if objs != [] {
      var r := DataRange(objs[0], ModelLen(Find(model, objs[0].slot, objs[0].subslot).value, isOutput));
      PlacedObjects(objs[1..], model, isOutput, dataLength, taken + [r]);
      forall o | o in objs ensures Find(model, o.slot, o.subslot).Some? {
        if o != objs[0] { assert o in objs[1..]; }
      }
    }
  }

  lemma {:induction false} PlacedStatus(objs: seq<IocrObject>, dataLength: nat, taken: seq<Range>)
    requires PlaceStatus(objs, dataLength, taken).Ok?
    ensures var placed := PlaceStatus(objs, dataLength, taken).value;
      |placed| == |objs|
      && forall i :: 0 <= i < |objs| ==> placed[i] == CsObject(objs[i].slot, objs[i].subslot, objs[i].frameOffset)
    decreases |objs|
  {
    if objs != [] { PlacedStatus(objs[1..], dataLength, taken + [StatusRange(objs[0])]); }
  }

  /** A table that was built has the CR's own cycle and watchdog window, `dataHoldFactor` cycles of 31.25 microseconds per
      cycle unit, lists the negotiated objects in order and is sound. */
  lemma BuiltCr(cr: IocrParams, model: DeviceModel, isOutput: bool)
    requires CrTable(cr, model, isOutput).Ok?
    ensures Known(cr.ioData, model)
    ensures var t := CrTable(cr, model, isOutput).value;
      && t.frameId == cr.frameId && t.dataLength == cr.dataLength && t.cycleStep == cr.sendClockFactor * cr.reductionRatio
      && t.watchdog == cr.dataHoldFactor * (cr.sendClockFactor * cr.reductionRatio) * 31_250
      && |t.objects| == |cr.ioData|
      && (forall i :: 0 <= i < |cr.ioData| ==> t.objects[i] == ObjectFor(cr.ioData[i], model, isOutput))
      && |t.iocs| == |cr.iocs|
      && (forall i :: 0 <= i < |cr.iocs| ==>
            t.iocs[i] == CsObject(cr.iocs[i].slot, cr.iocs[i].subslot, cr.iocs[i].frameOffset))
      && Sound(t)
  {
    hide Find, PlaceData, PlaceStatus;
    CrTableExact(cr, model, isOutput);
    var t := CrTable(cr, model, isOutput).value;
    PlacedObjects(cr.ioData, model, isOutput, cr.dataLength, []);
    PlacedStatus(cr.iocs, cr.dataLength, PlaceData(cr.ioData, model, isOutput, cr.dataLength, []).value.1);
    var ds, ss := DataRanges(cr.ioData, model, isOutput), StatusRanges(cr.iocs);
    assert ds == ObjectRanges(t.objects) && ss == IocsRanges(t.iocs);
    forall o | o in t.objects ensures o.iopsOff == o.dataOff + o.dataLen && o.iopsOff < cr.dataLength {
      var i :| 0 <= i < |t.objects| && t.objects[i] == o;
      assert ds[i] in ds + ss;
    }
    forall c | c in t.iocs ensures c.iocsOff < cr.dataLength {
      var i :| 0 <= i < |t.iocs| && t.iocs[i] == c;
      assert ss[i] in ds + ss;
    }
  }

  // --- both CRs and the cell index -------------------------------------------------

  function FindObject(objects: seq<IoObject>, slot: u16, subslot: u16): (r: Option<IoObject>)
    ensures r.Some? ==> r.value in objects && r.value.slot == slot && r.value.subslot == subslot
    ensures r.None? ==> forall o <- objects :: o.slot != slot || o.subslot != subslot
  {
    if objects == [] then None
    else if objects[0].slot == slot && objects[0].subslot == subslot then Some(objects[0])
    else FindObject(objects[1..], slot, subslot)
  }

  function OffsetIn(cr: CrLayout, slot: u16, subslot: u16): Option<nat> {
    match FindObject(cr.objects, slot, subslot) case Some(o) => Some(o.dataOff) case None => None
  }

  function CellFor(slot: u16, sm: SubmoduleModel, inputCr: CrLayout, outputCr: CrLayout): Cell {
    Cell(slot, sm.subslot, sm.inputLen, sm.outputLen, OffsetIn(inputCr, slot, sm.subslot),
         OffsetIn(outputCr, slot, sm.subslot))
  }

  function SlotCells(s: SlotModel, inputCr: CrLayout, outputCr: CrLayout): seq<Cell> {
    seq(|s.submodules|, i requires 0 <= i < |s.submodules| => CellFor(s.slot, s.submodules[i], inputCr, outputCr))
  }

  function Cells(slots: seq<SlotModel>, inputCr: CrLayout, outputCr: CrLayout): seq<Cell> {
    if slots == [] then [] else SlotCells(slots[0], inputCr, outputCr) + Cells(slots[1..], inputCr, outputCr)
  }

  function TableFor(params: ArParams, model: DeviceModel): Result<LayoutTable, LayoutError> {
    var inputCr :- CrTable(params.inputCr, model, false);
    var outputCr :- CrTable(params.outputCr, model, true);
    Ok(LayoutTable(inputCr, outputCr, Cells(model.slots, inputCr, outputCr)))
  }

  method FromAr(params: ArParams, model: DeviceModel) returns (r: Result<LayoutTable, LayoutError>)
    ensures r == TableFor(params, model)
  {
    hide CrTable, CellFor;
    var i := BuildCr(params.inputCr, model, false);
    if i.Err? { return Err(i.error); }
    var o := BuildCr(params.outputCr, model, true);
    if o.Err? { return Err(o.error); }
    var cells := BuildCells(model.slots, i.value, o.value);
    return Ok(LayoutTable(i.value, o.value, cells));
  }

  /** The nested loop of `FromAr`: one cell per submodule, in model order. */
  method BuildCells(slots: seq<SlotModel>, inputCr: CrLayout, outputCr: CrLayout) returns (cells: seq<Cell>)
    ensures cells == Cells(slots, inputCr, outputCr)
  {
    hide SlotCells;
    cells := [];
    assert slots[0..] == slots;
    for k := 0 to |slots|
      invariant cells + Cells(slots[k..], inputCr, outputCr) == Cells(slots, inputCr, outputCr)
    {
      ghost var before, rest := cells, Cells(slots[k + 1..], inputCr, outputCr);
      assert slots[k..][0] == slots[k] && slots[k..][1..] == slots[k + 1..];
      cells := AddSlotCells(cells, slots[k], inputCr, outputCr);
      assert cells + rest == before + (SlotCells(slots[k], inputCr, outputCr) + rest);
    }
    assert cells + [] == cells;
  }

  /** The inner loop: the cells of one slot, appended. */
  method AddSlotCells(cells: seq<Cell>, s: SlotModel, inputCr: CrLayout, outputCr: CrLayout) returns (more: seq<Cell>)
    ensures more == cells + SlotCells(s, inputCr, outputCr)
  {
    hide CellFor;
    more := cells;
    ghost var here := SlotCells(s, inputCr, outputCr);
    for j := 0 to |s.submodules|
      invariant more == cells + here[..j]
    {
      more := more + [CellFor(s.slot, s.submodules[j], inputCr, outputCr)];
    }
    assert here[..|here|] == here;
  }

  /** If the Connect request was accepted, building the layout can fail only by overlapping objects
      or by a cycle step that does not fit 16 bits. */
  lemma ValidatedLayout(req: ConnectReq, model: DeviceModel)
    requires Validate(req, model).Ok?
    ensures var p := Validate(req, model).value; var r := TableFor(p, model);
      r.Err? ==>
        || r.error.Overlap?
        || (r.error.OutOfBounds? && r.error.slot == 0 && r.error.subslot == 0 && r.error.end == 0xFFFF
            && (CycleStep(p.inputCr) > 0xFFFF || CycleStep(p.outputCr) > 0xFFFF))
  {
    hide Validate, PlaceData, PlaceStatus, Find;
    ValidatedParams(req, model);
    var p := Validate(req, model).value;
    FittingCr(p.inputCr, model, false);
    FittingCr(p.outputCr, model, true);
  }

  lemma FittingCr(cr: IocrParams, model: DeviceModel, isOutput: bool)
    requires forall o <- cr.ioData :: DataFits(o, model, isOutput, cr.dataLength)
    requires forall o <- cr.iocs :: o.frameOffset < cr.dataLength
    ensures var r := CrTable(cr, model, isOutput); r.Err? && CycleStep(cr) <= 0xFFFF ==> r.error.Overlap?
  {
    hide Find, PlaceData, PlaceStatus;
    FittingData(cr.ioData, model, isOutput, cr.dataLength, []);
    var d := PlaceData(cr.ioData, model, isOutput, cr.dataLength, []);
    if d.Ok? { FittingStatus(cr.iocs, cr.dataLength, d.value.1); }
  }

  lemma {:induction false} FittingData(objs: seq<IocrObject>, model: DeviceModel, isOutput: bool,
                                       dataLength: u16, taken: seq<Range>)
    requires forall o <- objs :: DataFits(o, model, isOutput, dataLength)
    ensures var r := PlaceData(objs, model, isOutput, dataLength, taken); r.Err? ==> r.error.Overlap?
    decreases |objs|
  {
    hide Find;
    if objs != [] {
      assert objs[0] in objs;
      assert DataFits(objs[0], model, isOutput, dataLength);
      var r := DataRange(objs[0], ModelLen(Find(model, objs[0].slot, objs[0].subslot).value, isOutput));
      FittingData(objs[1..], model, isOutput, dataLength, taken + [r]);
    }
  }

  lemma {:induction false} FittingStatus(objs: seq<IocrObject>, dataLength: nat, taken: seq<Range>)
    requires forall o <- objs :: o.frameOffset < dataLength
    ensures var r := PlaceStatus(objs, dataLength, taken); r.Err? ==> r.error.Overlap?
    decreases |objs|
  {
    if objs != [] {
      assert objs[0] in objs;
      FittingStatus(objs[1..], dataLength, taken + [StatusRange(objs[0])]);
    }
  }

  /** No two slots share a number and no two submodules of a slot share a subslot. */
  predicate UniquePlaces(model: DeviceModel) {
    && (forall i, j :: 0 <= i < j < |model.slots| ==> model.slots[i].slot != model.slots[j].slot)
    && forall s <- model.slots ::
         forall i, j :: 0 <= i < j < |s.submodules| ==> s.submodules[i].subslot != s.submodules[j].subslot
  }

  /** A cell's data lies inside the buffers sized from the same layout. */
  predicate CellInside(c: Cell, t: LayoutTable) {
    && (c.inputOff.Some? ==> c.inputOff.value + c.inputLen < t.inputCr.dataLength)
    && (c.outputOff.Some? ==> c.outputOff.value + c.outputLen < t.outputCr.dataLength)
  }

  lemma {:induction false} FindSlotUnique(slots: seq<SlotModel>, s: SlotModel)
    requires s in slots
    requires forall i, j :: 0 <= i < j < |slots| ==> slots[i].slot != slots[j].slot
    ensures FindSlot(slots, s.slot) == Some(s)
  {
    if slots[0].slot == s.slot {
      var k :| 0 <= k < |slots| && slots[k] == s;
    } else {
      assert s in slots[1..];
      FindSlotUnique(slots[1..], s);
    }
  }

  lemma {:induction false} FindSubmoduleUnique(sms: seq<SubmoduleModel>, sm: SubmoduleModel)
    requires sm in sms
    requires forall i, j :: 0 <= i < j < |sms| ==> sms[i].subslot != sms[j].subslot
    ensures FindSubmodule(sms, sm.subslot) == Some(sm)
  {
    if sms[0].subslot == sm.subslot {
      var k :| 0 <= k < |sms| && sms[k] == sm;
    } else {
      assert sm in sms[1..];
      FindSubmoduleUnique(sms[1..], sm);
    }
  }

  lemma {:induction false} CellOrigin(slots: seq<SlotModel>, inputCr: CrLayout, outputCr: CrLayout, c: Cell)
    returns (s: SlotModel, sm: SubmoduleModel)
    requires c in Cells(slots, inputCr, outputCr)
    ensures s in slots && sm in s.submodules && c == CellFor(s.slot, sm, inputCr, outputCr)
  {
    var here := SlotCells(slots[0], inputCr, outputCr);
    if c in here {
      var k :| 0 <= k < |here| && here[k] == c;
      s, sm := slots[0], slots[0].submodules[k];
    } else {
      s, sm := CellOrigin(slots[1..], inputCr, outputCr, c);
    }
  }

  /** The object a cell's offset comes from has the cell's own length (unique places make the lookup
      by place and the walk over the model agree). */
  lemma OffsetLength(cr: IocrParams, model: DeviceModel, isOutput: bool, s: SlotModel, sm: SubmoduleModel)
    requires UniquePlaces(model) && s in model.slots && sm in s.submodules
    requires CrTable(cr, model, isOutput).Ok?
    ensures var t := CrTable(cr, model, isOutput).value; var off := OffsetIn(t, s.slot, sm.subslot);
      off.Some? ==> off.value + ModelLen(sm, isOutput) < t.dataLength
  {
    hide CrTable, PairwiseApart;
    BuiltCr(cr, model, isOutput);
    var t := CrTable(cr, model, isOutput).value;
    FindSlotUnique(model.slots, s);
    FindSubmoduleUnique(s.submodules, sm);
    var o := FindObject(t.objects, s.slot, sm.subslot);
    if o.Some? {
      var i :| 0 <= i < |t.objects| && t.objects[i] == o.value;
    }
  }

  lemma CellsInside(params: ArParams, model: DeviceModel)
    requires UniquePlaces(model) && TableFor(params, model).Ok?
    ensures var t := TableFor(params, model).value; forall c <- t.cells :: CellInside(c, t)
  {
    hide CrTable, Cells, UniquePlaces, OffsetIn;
    var t := TableFor(params, model).value;
    forall c | c in t.cells ensures CellInside(c, t) {
      var s, sm := CellOrigin(model.slots, t.inputCr, t.outputCr, c);
      OffsetLength(params.inputCr, model, false, s, sm);
      OffsetLength(params.outputCr, model, true, s, sm);
    }
  }

  /** The offset a place was asked for in a CR, if it was. */
  predicate Asked(objs: seq<IocrObject>, slot: u16, subslot: u16, off: Option<nat>) {
    match off
    case None => forall o <- objs :: o.slot != slot || o.subslot != subslot
    case Some(at) => exists o <- objs :: o.slot == slot && o.subslot == subslot && o.frameOffset == at
  }

  /** A cell is a submodule of the model with its own lengths, at the offsets the two CRs asked for. */
  lemma CellsFollow(params: ArParams, model: DeviceModel, c: Cell)
    requires TableFor(params, model).Ok? && c in TableFor(params, model).value.cells
    ensures exists s <- model.slots, sm <- s.submodules ::
      c.slot == s.slot && c.subslot == sm.subslot && c.inputLen == sm.inputLen && c.outputLen == sm.outputLen
    ensures Asked(params.inputCr.ioData, c.slot, c.subslot, c.inputOff)
    ensures Asked(params.outputCr.ioData, c.slot, c.subslot, c.outputOff)
  {
    hide CrTable, Cells, Asked;
    var t := TableFor(params, model).value;
    var s, sm := CellOrigin(model.slots, t.inputCr, t.outputCr, c);
    OffsetAsked(params.inputCr, model, false, c.slot, c.subslot);
    OffsetAsked(params.outputCr, model, true, c.slot, c.subslot);
  }

  lemma OffsetAsked(cr: IocrParams, model: DeviceModel, isOutput: bool, slot: u16, subslot: u16)
    requires CrTable(cr, model, isOutput).Ok?
    ensures Asked(cr.ioData, slot, subslot, OffsetIn(CrTable(cr, model, isOutput).value, slot, subslot))
  {
    hide CrTable, PairwiseApart, Find;
    BuiltCr(cr, model, isOutput);
    var t := CrTable(cr, model, isOutput).value;
    var f := FindObject(t.objects, slot, subslot);
    if f.Some? {
      var i :| 0 <= i < |t.objects| && t.objects[i] == f.value;
      assert cr.ioData[i] in cr.ioData;
    } else {
      forall o | o in cr.ioData ensures o.slot != slot || o.subslot != subslot {
        var i :| 0 <= i < |cr.ioData| && cr.ioData[i] == o;
        assert t.objects[i] in t.objects;
      }
    }
  }

  // --- what a refusal names ------------------------------------------------------

  /** A place and the range it needs, if the submodule is known. */
  datatype Demand = Demand(slot: u16, subslot: u16, range: Option<Range>)

  function DataDemand(o: IocrObject, model: DeviceModel, isOutput: bool): Demand {
    var sm := Find(model, o.slot, o.subslot);
    Demand(o.slot, o.subslot,
           if sm.None? then None else Some(Range(o.frameOffset, o.frameOffset + ModelLen(sm.value, isOutput) + 1)))
  }

  /** What a CR asks for in order: every data object with its IOPS, then every IOCS. */
  function Demands(cr: IocrParams, model: DeviceModel, isOutput: bool): seq<Demand> {
    seq(|cr.ioData|, i requires 0 <= i < |cr.ioData| => DataDemand(cr.ioData[i], model, isOutput))
    + seq(|cr.iocs|, i requires 0 <= i < |cr.iocs| =>
        Demand(cr.iocs[i].slot, cr.iocs[i].subslot, Some(Range(cr.iocs[i].frameOffset, cr.iocs[i].frameOffset + 1))))
  }

  predicate Clashes(ds: seq<Demand>, i: nat, r: Range)
    requires i <= |ds|
  {
    exists j :: 0 <= j < i && ds[j].range.Some? && !Apart(r, ds[j].range.value)
  }

  function DemandVerdict(ds: seq<Demand>, i: nat, dataLength: nat): Option<LayoutError>
    requires i < |ds|
  {
    var d := ds[i];
    if d.range.None? then Some(UnknownSubmodule(d.slot, d.subslot))
    else if d.range.value.end > dataLength then Some(OutOfBounds(d.slot, d.subslot, d.range.value.end, dataLength))
    else if Clashes(ds, i, d.range.value) then Some(Overlap(d.slot, d.subslot))
    else None
  }

  /** The first verdict against the demands from `k` up to `n`. */
  function FirstVerdict(ds: seq<Demand>, k: nat, n: nat, dataLength: nat): Option<LayoutError>
    requires k <= n <= |ds|
    decreases n - k
  {
    if k == n then None
    else if DemandVerdict(ds, k, dataLength).Some? then DemandVerdict(ds, k, dataLength)
    else FirstVerdict(ds, k + 1, n, dataLength)
  }

  /** The ranges taken are those of the demands already met. */
  predicate Met(ds: seq<Demand>, k: nat, taken: seq<Range>) {
    k <= |ds| && |taken| == k && forall j :: 0 <= j < k ==> ds[j].range == Some(taken[j])
  }

  lemma MetClashes(ds: seq<Demand>, k: nat, taken: seq<Range>, r: Range)
    requires Met(ds, k, taken)
    ensures ApartFromAll(r, taken) <==> !Clashes(ds, k, r)
  {
    if !ApartFromAll(r, taken) {
      var t :| t in taken && !Apart(r, t);
      var j :| 0 <= j < k && taken[j] == t;
      assert ds[j].range == Some(t);
    }
    if Clashes(ds, k, r) {
      var j :| 0 <= j < k && ds[j].range.Some? && !Apart(r, ds[j].range.value);
      assert taken[j] in taken;
    }
  }

  lemma {:induction false} DataVerdicts(objs: seq<IocrObject>, model: DeviceModel, isOutput: bool, dataLength: nat,
                                        ds: seq<Demand>, k: nat, taken: seq<Range>)
    requires Met(ds, k, taken) && k + |objs| <= |ds|
    requires forall i :: 0 <= i < |objs| ==> ds[k + i] == DataDemand(objs[i], model, isOutput)
    ensures match PlaceData(objs, model, isOutput, dataLength, taken)
            case Ok((_, all)) => FirstVerdict(ds, k, k + |objs|, dataLength) == None && Met(ds, k + |objs|, all)
            case Err(e) => FirstVerdict(ds, k, k + |objs|, dataLength) == Some(e)
    decreases |objs|
  {
    hide Find, Clashes, ApartFromAll;
    if objs != [] {
      assert ds[k] == DataDemand(objs[0], model, isOutput);
      if ds[k].range.Some? {
        var r := ds[k].range.value;
        MetClashes(ds, k, taken, r);
        if DemandVerdict(ds, k, dataLength).None? {
          DataVerdicts(objs[1..], model, isOutput, dataLength, ds, k + 1, taken + [r]);
        }
      }
    }
  }

  lemma {:induction false} StatusVerdicts(objs: seq<IocrObject>, dataLength: nat, ds: seq<Demand>, k: nat, taken: seq<Range>)
    requires Met(ds, k, taken) && k + |objs| == |ds|
    requires forall i :: 0 <= i < |objs| ==>
      ds[k + i] == Demand(objs[i].slot, objs[i].subslot, Some(Range(objs[i].frameOffset, objs[i].frameOffset + 1)))
    ensures match PlaceStatus(objs, dataLength, taken)
            case Ok(_) => FirstVerdict(ds, k, |ds|, dataLength) == None
            case Err(e) => FirstVerdict(ds, k, |ds|, dataLength) == Some(e)
    decreases |objs|
  {
    hide Clashes, ApartFromAll;
    if objs != [] {
      assert ds[k + 0].range == Some(StatusRange(objs[0]));
      MetClashes(ds, k, taken, StatusRange(objs[0]));
      if DemandVerdict(ds, k, dataLength).None? {
        StatusVerdicts(objs[1..], dataLength, ds, k + 1, taken + [StatusRange(objs[0])]);
      }
    }
  }

  lemma {:induction false} VerdictsSplit(ds: seq<Demand>, k: nat, m: nat, n: nat, dataLength: nat)
    requires k <= m <= n <= |ds|
    ensures FirstVerdict(ds, k, n, dataLength)
         == var first := FirstVerdict(ds, k, m, dataLength); if first.Some? then first else FirstVerdict(ds, m, n, dataLength)
    decreases m - k
  {
    hide DemandVerdict;
    if k < m { VerdictsSplit(ds, k + 1, m, n, dataLength); }
  }

  /** A CR whose cycle fits is refused for the first object that is unknown, too long or in the way of one before it, and
      accepted if there is none. */
  lemma CrRefusedFor(cr: IocrParams, model: DeviceModel, isOutput: bool)
    ensures CycleStep(cr) > 0xFFFF ==> CrTable(cr, model, isOutput) == Err(OutOfBounds(0, 0, 0xFFFF, cr.dataLength))
    ensures CycleStep(cr) <= 0xFFFF ==>
      var ds := Demands(cr, model, isOutput); var first := FirstVerdict(ds, 0, |ds|, cr.dataLength);
      match CrTable(cr, model, isOutput)
      case Ok(_) => first == None
      case Err(e) => first == Some(e)
  {
    hide PlaceData, PlaceStatus, FirstVerdict, Find, CycleStep;
    if CycleStep(cr) <= 0xFFFF {
      var ds, n := Demands(cr, model, isOutput), |cr.ioData|;
      DataVerdicts(cr.ioData, model, isOutput, cr.dataLength, ds, 0, []);
      VerdictsSplit(ds, 0, n, |ds|, cr.dataLength);
      var placed := PlaceData(cr.ioData, model, isOutput, cr.dataLength, []);
      if placed.Ok? {
        StatusVerdicts(cr.iocs, cr.dataLength, ds, n, placed.value.1);
      }
    }
  }
}
