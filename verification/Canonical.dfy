/** A controller that packs every C-SDU the standard way (crates/pnio/src/testutil.rs,
    `synthetic_connect_req`) against the model of a built configuration
    (crates/pnio/src/config.rs, `model`): it is always accepted, needs exactly the lengths the
    configuration computed, and always gets a layout. */
module Canonical {
  import opened Wire
  import opened Fields
  import opened Connect
  import opened Layout
  import opened DeviceConfigs

  // --- the model of a configuration ------------------------------------------------

  const DAP := SlotModel(0, 1, [SubmoduleModel(1, 1, 0, 0), SubmoduleModel(0x8000, 0x8000, 0, 0),
                                SubmoduleModel(0x8001, 0x8001, 0, 0)])

  function SlotFor(sm: SubmoduleSpec, d: Derived): SlotModel {
    SlotModel(sm.slot, 0x100 + sm.slot, [SubmoduleModel(1, 1, d.inputLen, d.outputLen)])
  }

  function UserSlots(subs: seq<SubmoduleSpec>, derived: seq<Derived>): seq<SlotModel>
    requires |subs| == |derived|
  {
    seq(|subs|, i requires 0 <= i < |subs| => SlotFor(subs[i], derived[i]))
  }

  function ModelOf(c: DeviceConfig, stationName: StationName, mac: Mac): DeviceModel
    requires |c.submodules| == |c.derived|
  {
    DeviceModel(stationName, mac, 200, [DAP] + UserSlots(c.submodules, c.derived))
  }

  // --- canonical packing -----------------------------------------------------------

  /** One plugged submodule. */
  datatype Place = Place(slot: u16, sm: SubmoduleModel)

  function SlotPlaces(s: SlotModel): seq<Place> {
    seq(|s.submodules|, i requires 0 <= i < |s.submodules| => Place(s.slot, s.submodules[i]))
  }

  /** Every plugged submodule, in model order. */
  function Places(slots: seq<SlotModel>): seq<Place> {
    if slots == [] then [] else SlotPlaces(slots[0]) + Places(slots[1..])
  }

  datatype Canon = Canon(inData: seq<IocrObject>, inIocs: seq<IocrObject>, outData: seq<IocrObject>,
                         outIocs: seq<IocrObject>, inOff: nat, outOff: nat)

  function ObjectAt(p: Place, off: nat): IocrObject { IocrObject(p.slot, p.sm.subslot, At(off)) }

  predicate HasIn(p: Place) { p.sm.inputLen > 0 || p.slot == 0 }

  predicate HasOut(p: Place) { p.sm.outputLen > 0 }

  /** Input data with its IOPS here, the controller's IOCS for it in the other frame. */
  function AddInput(c: Canon, p: Place): Canon {
    c.(inData := c.inData + [ObjectAt(p, c.inOff)], outIocs := c.outIocs + [ObjectAt(p, c.outOff)],
       inOff := c.inOff + p.sm.inputLen + 1, outOff := c.outOff + 1)
  }

  function AddOutput(c: Canon, p: Place): Canon {
    c.(outData := c.outData + [ObjectAt(p, c.outOff)], inIocs := c.inIocs + [ObjectAt(p, c.inOff)],
       outOff := c.outOff + p.sm.outputLen + 1, inOff := c.inOff + 1)
  }

  function AddPlace(c: Canon, p: Place): Canon {
    var c1 := if HasIn(p) then AddInput(c, p) else c;
    if HasOut(p) then AddOutput(c1, p) else c1
  }

  function PackPlaces(places: seq<Place>): Canon {
    if places == [] then Canon([], [], [], [], 0, 0)
    else AddPlace(PackPlaces(places[..|places| - 1]), places[|places| - 1])
  }

  // --- the request -------------------------------------------------------------------

  function ExpectedFor(sm: SubmoduleModel): ExpectedSubmodule {
    ExpectedSubmodule(sm.subslot, sm.submoduleIdent,
                      if sm.inputLen > 0 || sm.outputLen == 0 then Some(sm.inputLen) else None,
                      if sm.outputLen > 0 then Some(sm.outputLen) else None)
  }

  function ExpectedApis(slots: seq<SlotModel>): seq<ExpectedApi> {
    seq(|slots|, i requires 0 <= i < |slots| =>
      ExpectedApi(slots[i].slot, slots[i].moduleIdent,
                  seq(|slots[i].submodules|, j requires 0 <= j < |slots[i].submodules| =>
                    ExpectedFor(slots[i].submodules[j]))))
  }

  function CrRequest(ty: u16, frameId: u16, len: nat, data: seq<IocrObject>, iocs: seq<IocrObject>): IocrBlockReq
    requires len <= 0xFFFF
  {
    IocrBlockReq(ty, ty, frameId, Max(len, 40), 32, 1, 3, 3, [IocrApi(data, iocs)])
  }

  function CanonicalReq(model: DeviceModel, ar: ArBlockReq): ConnectReq
    requires var c := PackPlaces(Places(model.slots)); c.inOff <= 0xFFFF && c.outOff <= 0xFFFF
  {
    var c := PackPlaces(Places(model.slots));
    ConnectReq(ar,
               [CrRequest(1, 0x8000, c.inOff, c.inData, c.inIocs),
                CrRequest(2, 0x8001, c.outOff, c.outData, c.outIocs)],
               ExpectedApis(model.slots), AlarmCrBlockReq(1, 1, 3, 1, 200))
  }

  // --- ranges --------------------------------------------------------------------------

  /** Data and status ranges of one direction are apart and end at or before `off`. */
  ghost predicate Laid(ds: seq<Range>, ss: seq<Range>, off: nat) {
    PairwiseApart(ds + ss) && AllWithin(ds + ss, off)
  }

  lemma LaidData(ds: seq<Range>, ss: seq<Range>, off: nat, r: Range)
    requires Laid(ds, ss, off) && r.off >= off && r.end >= off
    ensures Laid(ds + [r], ss, r.end)
  {
    var old_, new_ := ds + ss, ds + [r] + ss;
    forall i, j | 0 <= i < j < |new_| ensures Apart(new_[i], new_[j]) {
      var i' := if i > |ds| then i - 1 else i;
      var j' := if j > |ds| then j - 1 else j;
      if i == |ds| {
        assert new_[j] == old_[j'] && old_[j'] in old_;
      } else if j == |ds| {
        assert new_[i] == old_[i'] && old_[i'] in old_;
      } else {
        assert new_[i] == old_[i'] && new_[j] == old_[j'] && i' < j';
      }
    }
    forall x | x in new_ ensures x.end <= r.end { if x != r { assert x in old_; } }
  }

  lemma LaidStatus(ds: seq<Range>, ss: seq<Range>, off: nat, r: Range)
    requires Laid(ds, ss, off) && r.off >= off && r.end >= off
    ensures Laid(ds, ss + [r], r.end)
  {
    assert ds + (ss + [r]) == (ds + ss) + [r];
    PairwiseSnoc(ds + ss, r);
  }

  lemma DataRangesSnoc(objs: seq<IocrObject>, o: IocrObject, model: DeviceModel, isOutput: bool)
    requires Known(objs, model) && Find(model, o.slot, o.subslot).Some?
    ensures Known(objs + [o], model)
    ensures DataRanges(objs + [o], model, isOutput)
         == DataRanges(objs, model, isOutput)
            + [DataRange(o, ModelLen(Find(model, o.slot, o.subslot).value, isOutput))]
  {
  }

  lemma StatusRangesSnoc(objs: seq<IocrObject>, o: IocrObject)
    ensures StatusRanges(objs + [o]) == StatusRanges(objs) + [StatusRange(o)]
  {
  }

  ghost predicate Consistent(c: Canon, model: DeviceModel) {
    && Known(c.inData, model) && Known(c.outData, model)
    && Laid(DataRanges(c.inData, model, false), StatusRanges(c.inIocs), c.inOff)
    && Laid(DataRanges(c.outData, model, true), StatusRanges(c.outIocs), c.outOff)
  }

  lemma AddInputConsistent(c: Canon, p: Place, model: DeviceModel)
    requires Consistent(c, model) && Find(model, p.slot, p.sm.subslot) == Some(p.sm)
    requires c.inOff < 0x1_0000 && c.outOff < 0x1_0000
    ensures Consistent(AddInput(c, p), model)
  {
    hide Find, Laid, Known, DataRanges, StatusRanges, At;
    var o, e := ObjectAt(p, c.inOff), ObjectAt(p, c.outOff);
    DataRangesSnoc(c.inData, o, model, false);
    LaidData(DataRanges(c.inData, model, false), StatusRanges(c.inIocs), c.inOff, DataRange(o, p.sm.inputLen));
    StatusRangesSnoc(c.outIocs, e);
    LaidStatus(DataRanges(c.outData, model, true), StatusRanges(c.outIocs), c.outOff, StatusRange(e));
  }

  lemma AddOutputConsistent(c: Canon, p: Place, model: DeviceModel)
    requires Consistent(c, model) && Find(model, p.slot, p.sm.subslot) == Some(p.sm)
    requires c.inOff < 0x1_0000 && c.outOff < 0x1_0000
    ensures Consistent(AddOutput(c, p), model)
  {
    hide Find, Laid, Known, DataRanges, StatusRanges, At;
    var o, e := ObjectAt(p, c.outOff), ObjectAt(p, c.inOff);
    DataRangesSnoc(c.outData, o, model, true);
    LaidData(DataRanges(c.outData, model, true), StatusRanges(c.outIocs), c.outOff, DataRange(o, p.sm.outputLen));
    StatusRangesSnoc(c.inIocs, e);
    LaidStatus(DataRanges(c.inData, model, false), StatusRanges(c.inIocs), c.inOff, StatusRange(e));
  }

  lemma {:induction false} PackConsistent(places: seq<Place>, model: DeviceModel)
    requires forall p <- places :: Find(model, p.slot, p.sm.subslot) == Some(p.sm)
    requires PackPlaces(places).inOff <= 0x1_0000 && PackPlaces(places).outOff <= 0x1_0000
    ensures Consistent(PackPlaces(places), model)
  {
    if places == [] {
      assert DataRanges([], model, false) + StatusRanges([]) == [];
      assert DataRanges([], model, true) + StatusRanges([]) == [];
    } else {
      hide Find, Consistent;
      var pre, p := places[..|places| - 1], places[|places| - 1];
      assert p in places && forall q <- pre :: q in places;
      PackConsistent(pre, model);
      var c := PackPlaces(pre);
      if HasIn(p) { AddInputConsistent(c, p, model); }
      var c1 := if HasIn(p) then AddInput(c, p) else c;
      if HasOut(p) { AddOutputConsistent(c1, p, model); }
    }
  }

  // --- unique places -------------------------------------------------------------------

  /** A built configuration's model plugs every submodule at a place of its own. */
  lemma BuiltModelUnique(c: DeviceConfig, name: StationName, mac: Mac)
    requires Buildable(c.submodules) && c.derived == DerivedAll(c.submodules)
    ensures UniquePlaces(ModelOf(c, name, mac))
  {
    hide Size, CrLengths;
    var slots := ModelOf(c, name, mac).slots;
    forall i, j | 0 <= i < j < |slots| ensures slots[i].slot != slots[j].slot {
      if i == 0 { assert SpecOk(c.submodules[j - 1]); }
    }
  }

  lemma {:induction false} PlaceOrigin(slots: seq<SlotModel>, p: Place) returns (s: SlotModel)
    requires p in Places(slots)
    ensures s in slots && s.slot == p.slot && p.sm in s.submodules
  {
    if p in SlotPlaces(slots[0]) {
      s := slots[0];
    } else {
      s := PlaceOrigin(slots[1..], p);
    }
  }

  lemma PlacesFound(model: DeviceModel)
    requires UniquePlaces(model)
    ensures forall p <- Places(model.slots) :: Find(model, p.slot, p.sm.subslot) == Some(p.sm)
  {
    forall p | p in Places(model.slots) ensures Find(model, p.slot, p.sm.subslot) == Some(p.sm) {
      var s := PlaceOrigin(model.slots, p);
      FindSlotUnique(model.slots, s);
      FindSubmoduleUnique(s.submodules, p.sm);
    }
  }

  // --- lengths -----------------------------------------------------------------------------

  function UserPlaces(subs: seq<SubmoduleSpec>, derived: seq<Derived>, n: nat): seq<Place>
    requires n <= |subs| == |derived|
  {
    seq(n, i requires 0 <= i < n =>
      Place(subs[i].slot, SubmoduleModel(1, 1, derived[i].inputLen, derived[i].outputLen)))
  }

  lemma {:induction false} UserPlacesAre(subs: seq<SubmoduleSpec>, derived: seq<Derived>)
    requires |subs| == |derived|
    ensures Places(UserSlots(subs, derived)) == UserPlaces(subs, derived, |subs|)
    decreases |subs|
  {
    if subs != [] {
      var slots := UserSlots(subs, derived);
      assert slots[1..] == UserSlots(subs[1..], derived[1..]);
      UserPlacesAre(subs[1..], derived[1..]);
      assert SlotPlaces(slots[0]) == UserPlaces(subs, derived, 1);
    }
  }

  const DAP_PLACES := SlotPlaces(DAP)

  lemma {:induction false} NonEmptyHasSize(fields: seq<FieldType>, n: nat)
    requires 0 < n <= |fields|
    ensures Pack(fields, n).next > 0
  {
    if n > 1 { NonEmptyHasSize(fields, n - 1); }
  }

  /** The status bytes of the DAP's three submodules come first, in both frames. */
  lemma DapPacked()
    ensures |DAP_PLACES| == 3
    ensures PackPlaces(DAP_PLACES).inOff == 3 && PackPlaces(DAP_PLACES).outOff == 3
  {
    var d := DAP_PLACES;
    assert d[..3] == d && d[..3][..2] == d[..2] && d[..2][..1] == d[..1] && d[..1][..0] == [];
    assert PackPlaces(d[..1]) == AddPlace(PackPlaces([]), d[0]);
    assert PackPlaces(d[..2]) == AddPlace(PackPlaces(d[..1]), d[1]);
    assert PackPlaces(d) == AddPlace(PackPlaces(d[..2]), d[2]);
  }

  lemma SizeZero(fields: seq<FieldType>)
    ensures Size(fields) == 0 <==> fields == []
  {
    if fields != [] { NonEmptyHasSize(fields, |fields|); }
  }

  /** What one submodule adds to both frames. */
  lemma PlaceLength(c: Canon, sm: SubmoduleSpec)
    requires SpecOk(sm)
    ensures var d := DerivedOf(sm);
      var c' := AddPlace(c, Place(sm.slot, SubmoduleModel(1, 1, d.inputLen, d.outputLen)));
      && c'.inOff == c.inOff + Own(sm.inputs, d.inputLen) + Echo(sm.outputs)
      && c'.outOff == c.outOff + Own(sm.outputs, d.outputLen) + Echo(sm.inputs)
  {
    hide Size, Refs, At;
    SizeZero(sm.inputs);
    SizeZero(sm.outputs);
  }

  /** Packing the first `n` submodules needs exactly the bytes the configuration counts for them. */
  lemma {:induction false} PackedLength(subs: seq<SubmoduleSpec>, n: nat)
    requires AllOk(subs) && n <= |subs|
    ensures var c := PackPlaces(DAP_PLACES + UserPlaces(subs, DerivedAll(subs), n));
      (c.inOff, c.outOff) == CrLengths(subs, DerivedAll(subs), n)
  {
    hide DerivedOf, SpecOk, AddPlace, SlotPlaces;
    var derived := DerivedAll(subs);
    if n == 0 {
      assert DAP_PLACES + UserPlaces(subs, derived, 0) == DAP_PLACES;
      DapPacked();
    } else {
      PackedLength(subs, n - 1);
      var all, pre := DAP_PLACES + UserPlaces(subs, derived, n), DAP_PLACES + UserPlaces(subs, derived, n - 1);
      assert all[..|all| - 1] == pre;
      PlaceLength(PackPlaces(pre), subs[n - 1]);
    }
  }

  // --- the theorem ---------------------------------------------------------------------------

  lemma ExpectedMatchesSlot(model: DeviceModel, s: SlotModel, api: ExpectedApi)
    requires UniquePlaces(model) && s in model.slots
    requires api.slot == s.slot && api.moduleIdent == s.moduleIdent && |api.submodules| == |s.submodules|
    requires forall j :: 0 <= j < |s.submodules| ==> api.submodules[j] == ExpectedFor(s.submodules[j])
    ensures ExpectedMatches(api, model)
  {
    hide FindSlot, FindSubmodule;
    FindSlotUnique(model.slots, s);
    forall e | e in api.submodules ensures Plugged(e, api.slot, model) {
      var j :| 0 <= j < |api.submodules| && api.submodules[j] == e;
      FindSubmoduleUnique(s.submodules, s.submodules[j]);
    }
  }

  lemma ExpectedMatchesModel(model: DeviceModel)
    requires UniquePlaces(model)
    ensures forall api <- ExpectedApis(model.slots) :: ExpectedMatches(api, model)
  {
    hide UniquePlaces, ExpectedMatches, ExpectedFor;
    var apis := ExpectedApis(model.slots);
    forall api | api in apis ensures ExpectedMatches(api, model) {
      var i :| 0 <= i < |apis| && apis[i] == api;
      ExpectedMatchesSlot(model, model.slots[i], api);
    }
  }

  lemma CrRequestFits(ty: u16, frameId: u16, len: nat, data: seq<IocrObject>, iocs: seq<IocrObject>,
                      model: DeviceModel, isOutput: bool)
    requires len <= 0xFFFF && Known(data, model)
    requires Laid(DataRanges(data, model, isOutput), StatusRanges(iocs), len)
    ensures CrAcceptable(CrRequest(ty, frameId, len, data, iocs), model, isOutput)
    ensures WellPlaced(ParamsOf(CrRequest(ty, frameId, len, data, iocs)), model, isOutput)
  {
    hide Find;
    var ds, ss := DataRanges(data, model, isOutput), StatusRanges(iocs);
    forall o | o in data ensures DataFits(o, model, isOutput, Max(len, 40)) {
      var i :| 0 <= i < |data| && data[i] == o;
      assert ds[i] in ds + ss;
    }
    forall o | o in iocs ensures o.frameOffset < Max(len, 40) {
      var i :| 0 <= i < |iocs| && iocs[i] == o;
      assert ss[i] in ds + ss;
    }
  }

  /** Every built configuration works end to end: a canonically packing controller needs exactly the
      lengths the configuration computed (at most 1440 bytes each), its Connect is accepted, and the
      cyclic layout of the accepted parameters is built. */
  lemma BuiltConfigConnects(c: DeviceConfig, name: StationName, mac: Mac, ar: ArBlockReq)
    requires Buildable(c.submodules) && c.derived == DerivedAll(c.submodules)
    requires ar.arType == 1 && ar.arUuid != NIL_UUID
    ensures var model := ModelOf(c, name, mac); var packed := PackPlaces(Places(model.slots));
      && (packed.inOff, packed.outOff) == CrLengths(c.submodules, c.derived, |c.submodules|)
      && packed.inOff <= 1440 && packed.outOff <= 1440
      && var r := Validate(CanonicalReq(model, ar), model);
      && r.Ok? && TableFor(r.value, model).Ok?
  {
    hide Find, FindSlot, PackPlaces, CrTable, Validate, Laid, WellPlaced, Known, CrAcceptable, CrLengths;
    var model := ModelOf(c, name, mac);
    assert Places(model.slots) == DAP_PLACES + UserPlaces(c.submodules, c.derived, |c.submodules|) by {
      UserPlacesAre(c.submodules, c.derived);
      assert model.slots[1..] == UserSlots(c.submodules, c.derived);
    }
    PackedLength(c.submodules, |c.submodules|);
    BuiltModelUnique(c, name, mac);
    PlacesFound(model);
    PackConsistent(Places(model.slots), model);
    ExpectedMatchesModel(model);
    var p := PackPlaces(Places(model.slots));
    var req := CanonicalReq(model, ar);
    CrRequestFits(1, 0x8000, p.inOff, p.inData, p.inIocs, model, false);
    CrRequestFits(2, 0x8001, p.outOff, p.outData, p.outIocs, model, true);
    AcceptedAsAsked(req, model);
    CrTableExact(ParamsOf(req.iocrs[0]), model, false);
    CrTableExact(ParamsOf(req.iocrs[1]), model, true);
  }

  /** Input CR first, Output CR second: acceptance negotiates them unchanged. */
  lemma AcceptedAsAsked(req: ConnectReq, model: DeviceModel)
    requires req.ar.arType == 1 && req.ar.arUuid != NIL_UUID && req.alarmCr.alarmCrType == 1
    requires |req.iocrs| == 2 && req.iocrs[0].iocrType == 1 && req.iocrs[1].iocrType == 2
    requires FrameIdInRange(req.iocrs[0].frameId) && FrameIdInRange(req.iocrs[1].frameId)
    requires CrAcceptable(req.iocrs[0], model, false) && CrAcceptable(req.iocrs[1], model, true)
    requires forall api <- req.expected :: ExpectedMatches(api, model)
    ensures var r := Validate(req, model);
      r.Ok? && r.value.inputCr == ParamsOf(req.iocrs[0]) && r.value.outputCr == ParamsOf(req.iocrs[1])
  {
    hide Find, FindSlot, CheckExpected, CheckIocr, CrAcceptable, ExpectedMatches, FindIocr;
    CheckExpectedExact(req.expected, model);
    FindIocrOfTwo(req.iocrs, 0, 1);
    CheckIocrExact(req.iocrs[0], model, false);
    CheckIocrExact(req.iocrs[1], model, true);
  }
}
